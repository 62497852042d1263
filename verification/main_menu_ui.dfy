/** The main menu: a title and a prompt; SPACE goes on to the launch screen. */
module MainMenuUi {
  import opened Ecs

  /** The three entities `setup_main_menu_ui` spawns, all tagged `MainMenu`:
      a camera, the title text and the prompt text. */
  function MainMenuEntities(): (r: seq<Entity>)
    ensures |r| == 3
    ensures forall i :: 0 <= i < |r| ==> r[i].owner == Some(MainMenu) && r[i].children == []
    ensures r[0].kind == Camera && r[1].kind == UiText(Fixed) && r[2].kind == UiText(Fixed)
  {
    [Owned(Camera, MainMenu), Owned(UiText(Fixed), MainMenu), Owned(UiText(Fixed), MainMenu)]
  }

  /** `setup_main_menu_ui`. */
  method SetupMainMenuUi(w: World)
    modifies w`entities
    ensures w.entities == old(w.entities) + MainMenuEntities()
  {
    w.entities := w.entities + MainMenuEntities();
  }

  /** `start_game`: SPACE asks for `CoinLaunch`; otherwise nothing happens. */
  method StartGame(w: World, spaceJustPressed: bool)
    requires w.state == MainMenu
    modifies w`next
    ensures spaceJustPressed ==> w.next == Some(CoinLaunch)
    ensures !spaceJustPressed ==> w.next == old(w.next)
  {
    if spaceJustPressed {
      w.next := Some(CoinLaunch);
    }
  }
}

/** The loading screen: a camera and a full-screen node holding one text;
    it hands over to the main menu at once. */
module LoadingUi {
  import opened Ecs
  import opened AppStates

  /** What `setup_loading_ui` spawns: a camera and a node tagged `Loading`,
      the node owning one untagged text child. */
  function LoadingEntities(): (r: seq<Entity>)
    ensures |r| == 2
    ensures forall i :: 0 <= i < |r| ==> r[i].owner == Some(Loading)
    ensures r[0].kind == Camera && r[0].children == []
    ensures r[1].kind == UiNode && |r[1].children| == 1
    ensures r[1].children[0].kind == UiText(Fixed) && r[1].children[0].owner == None
  {
    [Owned(Camera, Loading), Owned(UiNode, Loading).(children := [Plain(UiText(Fixed))])]
  }

  /** The shape of the loading screen: a recursive teardown of `Loading`
      would take the untagged text with its tagged parent, and nothing
      else. No such teardown is registered, so the screen in fact stays
      (`StateMachine.LoadingUiOutlivesLoading`). */
  lemma LoadingUiSweptWhole(es: seq<Entity>)
    ensures Sweep(es + LoadingEntities(), Loading) == Sweep(es, Loading)
  {
    SweepAppend(es, LoadingEntities(), Loading);
    var r := LoadingEntities();
    assert Sweep(r, Loading) == Sweep(r[1..], Loading);
    assert Sweep(r[1..], Loading) == Sweep(r[1..][1..], Loading);
    assert r[1..][1..] == [];
    assert es + [] == es;
  }

  /** `setup_loading_ui`. */
  method SetupLoadingUi(w: World)
    modifies w`entities
    ensures w.entities == old(w.entities) + LoadingEntities()
  {
    w.entities := w.entities + LoadingEntities();
  }

  /** `update_loading_ui`: asks for the main menu on the first tick. */
  method UpdateLoadingUi(w: World)
    requires w.state == Loading
    modifies w`next
    ensures w.next == Some(MainMenu)
  {
    w.next := Some(MainMenu);
  }
}

/** The game-over screen: the final and best scores; SPACE restarts at the
    launch screen. */
module EndUi {
  import opened Ecs
  import opened Scoring

  /** The five entities `setup_end_ui` spawns, all tagged `End`: a camera,
      the heading, the final score, the best score and the prompt. */
  function EndEntities(r: Record): (es: seq<Entity>)
    ensures |es| == 5
    ensures forall i :: 0 <= i < |es| ==> es[i].owner == Some(End) && es[i].children == []
    ensures es[0].kind == Camera
    ensures es[2].kind == UiText(FinalScore(r.endScore)) && es[3].kind == UiText(BestScore(r.bestScore))
    ensures forall i :: 0 <= i < |es| && i != 2 && i != 3 ==> es[i].kind == Camera || es[i].kind == UiText(Fixed)
  {
    [Owned(Camera, End), Owned(UiText(Fixed), End),
     Owned(UiText(FinalScore(r.endScore)), End), Owned(UiText(BestScore(r.bestScore)), End),
     Owned(UiText(Fixed), End)]
  }

  /** After a score is registered, the screen shows that score as the final
      one and a best that is at least it. */
  lemma EndScreenShowsRegisteredScore(r: Record, s: int)
    ensures EndEntities(Register(r, s))[2].kind == UiText(FinalScore(s))
    ensures EndEntities(Register(r, s))[3].kind.text.score >= s
    ensures EndEntities(Register(r, s))[3].kind.text.score >= r.bestScore
  {
  }

  /** `setup_end_ui`: reads the scores without changing them. */
  method SetupEndUi(w: World, scores: Scores)
    modifies w`entities
    ensures w.entities == old(w.entities) + EndEntities(scores.Value())
  {
    w.entities := w.entities + EndEntities(scores.Value());
  }

  /** `restart_game`: SPACE asks for `CoinLaunch`; otherwise nothing happens. */
  method RestartGame(w: World, spaceJustPressed: bool)
    requires w.state == End
    modifies w`next
    ensures spaceJustPressed ==> w.next == Some(CoinLaunch)
    ensures !spaceJustPressed ==> w.next == old(w.next)
  {
    if spaceJustPressed {
      w.next := Some(CoinLaunch);
    }
  }
}

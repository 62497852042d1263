/** The state machine the plugins make together: the `Update` systems that
    ask for a next state, and the transition that runs the `OnExit` teardown
    of the state left and the `OnEnter` setup of the state entered. */
module StateMachine {
  import opened Ecs
  import opened Scoring
  import opened AppStates
  import opened CoinLaunchUi
  import opened MainMenuUi
  import opened EndUi
  import opened LoadingUi

  /** The state each transition system asks for. No system in the game
      requests `End`, so `Ingame` has no successor. */
  function Successor(s: AppState): (r: Option<AppState>)
    ensures r != Some(Loading)
    ensures r == Some(MainMenu) <==> s == Loading
    ensures r.None? <==> s == Ingame
  {
    match s
    case Loading => Some(MainMenu)
    case MainMenu => Some(CoinLaunch)
    case CoinLaunch => Some(Ingame)
    case Ingame => None
    case End => Some(CoinLaunch)
  }

  /** The next state after this tick's transition systems: the loading screen
      moves on unconditionally, the menu, launch and end screens on SPACE. */
  function Requested(s: AppState, spaceJustPressed: bool, next: Option<AppState>): (r: Option<AppState>)
    ensures r == next || r == Successor(s)
    ensures s == Loading ==> r == Some(MainMenu)
    ensures s != Loading && !spaceJustPressed ==> r == next
  {
    if s == Loading || (spaceJustPressed && Successor(s).Some?) then Successor(s) else next
  }

  /** The transition systems, each run only in its own state. */
  method RunTransitionSystems(w: World, spaceJustPressed: bool)
    modifies w`next
    ensures w.next == Requested(w.state, spaceJustPressed, old(w.next))
  {
    match w.state
    case Loading => UpdateLoadingUi(w);
    case MainMenu => StartGame(w, spaceJustPressed);
    case CoinLaunch => LaunchCoin(w, spaceJustPressed);
    case End => RestartGame(w, spaceJustPressed);
    case Ingame =>
  }

  /** A run of ticks through the transition systems, each applied at once:
      the states visited. */
  function Visit(s: AppState, presses: seq<bool>): (path: seq<AppState>)
    ensures |path| == |presses| + 1 && path[0] == s
    decreases |presses|
  {
    if presses == [] then [s]
    else
      var n := Requested(s, presses[0], None);
      [s] + Visit(if n.Some? then n.value else s, presses[1..])
  }

  /** Once the loading screen is left it is never seen again, and the menu
      is never returned to once the launch screen is reached. */
  lemma {:induction false} LoadingAndMenuNotRevisited(s: AppState, presses: seq<bool>, i: nat)
    requires 0 < i < |presses| + 1
    ensures Visit(s, presses)[i] != Loading
    ensures s != Loading && s != MainMenu ==> Visit(s, presses)[i] != MainMenu
    decreases |presses|
  {
    var n := Requested(s, presses[0], None);
    var s' := if n.Some? then n.value else s;
    assert Visit(s, presses)[i] == Visit(s', presses[1..])[i - 1];
    if i > 1 {
      LoadingAndMenuNotRevisited(s', presses[1..], i - 1);
    }
  }

  /** What the `OnEnter` systems of `s` spawn. */
  function EnterSpawns(s: AppState, r: Record): (es: seq<Entity>)
    ensures s == Ingame ==> es == []
  {
    match s
    case Loading => LoadingEntities()
    case MainMenu => MainMenuEntities()
    case CoinLaunch => LaunchUi()
    case Ingame => []
    case End => EndEntities(r)
  }

  /** Everything a setup spawns is tagged with its own state or untagged. */
  lemma EnterSpawnsTaggedOwnState(s: AppState, r: Record, t: AppState)
    requires t != s
    ensures NoneTagged(EnterSpawns(s, r), t)
  {
    if s == Loading {
      LoadingEntitiesTaggedOwnState(t);
    } else {
      LeavesTaggedOnly(EnterSpawns(s, r), Some(s), t);
    }
  }

  /** The loading screen's node and its untagged text carry no other tag. */
  lemma LoadingEntitiesTaggedOwnState(t: AppState)
    requires t != Loading
    ensures NoneTagged(LoadingEntities(), t)
  {
    var es := LoadingEntities();
    var node := es[1];
    LeavesTaggedOnly(node.children, None, t);
    LeavesTaggedOnly([], None, t);
    assert [node][1..] == [];
    NoneTaggedParts([node], t);
    assert es[1..] == [node];
    NoneTaggedParts(es, t);
  }

  /** A forest of childless entities all carrying the tag `o` has no entity
      tagged `t` unless `o` is `t`. */
  lemma {:induction false} LeavesTaggedOnly(es: seq<Entity>, o: Option<AppState>, t: AppState)
    requires forall i :: 0 <= i < |es| ==> es[i].owner == o && es[i].children == []
    requires o != Some(t)
    ensures NoneTagged(es, t)
    decreases |es|
  {
    if es != [] {
      LeavesTaggedOnly(es[1..], o, t);
      LeavesTaggedOnly(es[0].children, o, t);
      NoneTaggedParts(es, t);
    }
  }

  /** A forest made of two clean forests is clean. */
  lemma NoneTaggedAppend(a: seq<Entity>, b: seq<Entity>, t: AppState)
    requires NoneTagged(a, t) && NoneTagged(b, t)
    ensures NoneTagged(a + b, t)
  {
    NodesAppend(a, b);
  }

  /** Losing entities keeps a forest clean. */
  lemma NoneTaggedShrinks(a: seq<Entity>, b: seq<Entity>, t: AppState)
    requires Nodes(a) <= Nodes(b) && NoneTagged(b, t)
    ensures NoneTagged(a, t)
  {
    forall n | n in Nodes(a) ensures n.owner != Some(t) {
      assert n in Nodes(b);
    }
  }

  /** The entities after leaving `from` and entering `to`. */
  function Transition(es: seq<Entity>, from: AppState, to: AppState, r: Record): seq<Entity>
  {
    OnExit(es, from) + EnterSpawns(to, r)
  }

  /** No entity of the game or of the end screen outlives its state. */
  ghost predicate NoLeak(s: AppState, es: seq<Entity>)
  {
    (s != Ingame ==> NoneTagged(es, Ingame)) && (s != End ==> NoneTagged(es, End))
  }

  /** A transition, between any two states, keeps `NoLeak`: the state left
      is swept if it is `Ingame` or `End`, the setup of the state entered
      tags nothing else, and the rest only lose entities. */
  lemma TransitionKeepsNoLeak(es: seq<Entity>, from: AppState, to: AppState, r: Record)
    requires NoLeak(from, es)
    ensures NoLeak(to, Transition(es, from, to, r))
  {
    if to != Ingame {
      ExitThenEnterClean(es, from, to, r, Ingame);
    }
    if to != End {
      ExitThenEnterClean(es, from, to, r, End);
    }
  }

  /** One tag `t` that the state entered does not own, after a transition. */
  lemma ExitThenEnterClean(es: seq<Entity>, from: AppState, to: AppState, r: Record, t: AppState)
    requires t == Ingame || t == End
    requires t != to && (from != t ==> NoneTagged(es, t))
    ensures NoneTagged(Transition(es, from, to, r), t)
  {
    var kept := OnExit(es, from);
    if from != t {
      NoneTaggedShrinks(kept, es, t);
    }
    EnterSpawnsTaggedOwnState(to, r, t);
    NoneTaggedAppend(kept, EnterSpawns(to, r), t);
  }

  /** From a clean start, any sequence of transitions leaves no leak. */
  lemma {:induction false} TransitionsKeepNoLeak(es: seq<Entity>, from: AppState, path: seq<AppState>, r: Record)
    requires NoLeak(from, es)
    ensures NoLeak(if path == [] then from else path[|path| - 1], Along(es, from, path, r))
    decreases |path|
  {
    if path != [] {
      TransitionKeepsNoLeak(es, from, path[0], r);
      TransitionsKeepNoLeak(Transition(es, from, path[0], r), path[0], path[1..], r);
      assert path[1..] == [] ==> path[|path| - 1] == path[0];
      assert path[1..] != [] ==> path[1..][|path[1..]| - 1] == path[|path| - 1];
    }
  }

  /** The entities after following `path` from `from`. */
  function Along(es: seq<Entity>, from: AppState, path: seq<AppState>, r: Record): seq<Entity>
    decreases |path|
  {
    if path == [] then es else Along(Transition(es, from, path[0], r), path[0], path[1..], r)
  }

  /** The end screen's entities are gone again once it is left. */
  lemma EndScreenTornDown(es: seq<Entity>, r: Record, to: AppState, r': Record)
    requires NoneTagged(es, End) && to != End
    ensures NoneTagged(Transition(Transition(es, Ingame, End, r), End, to, r'), End)
  {
    TransitionKeepsNoLeak(es, Ingame, End, r);
    TransitionKeepsNoLeak(Transition(es, Ingame, End, r), End, to, r');
  }

  /** With `OnExit` teardown wired only for `Ingame` and `End`, the launch
      screen's camera and UI are still there once the game starts. */
  lemma LaunchUiOutlivesLaunch(es: seq<Entity>, r: Record)
    ensures forall e :: e in LaunchUi() ==> e in Transition(es + LaunchUi(), CoinLaunch, Ingame, r)
  {
  }

  /** No `OnExit` system is registered for `Loading`: handing over to the
      menu leaves the whole loading screen in the world. */
  lemma LoadingUiOutlivesLoading(es: seq<Entity>, r: Record)
    ensures forall e :: e in LoadingEntities() ==> e in Transition(es + LoadingEntities(), Loading, MainMenu, r)
  {
  }

  /** The `OnExit` systems of `from`. */
  method RunOnExit(w: World, from: AppState)
    modifies w`entities
    ensures w.entities == OnExit(old(w.entities), from)
  {
    if from == Ingame {
      RemoveIngame(w);
    } else if from == End {
      RemoveEnd(w);
    }
  }

  /** The `OnEnter` systems of `to`. */
  method RunOnEnter(w: World, to: AppState, scores: Scores)
    modifies w`entities, w`launchSpeed
    ensures w.entities == old(w.entities) + EnterSpawns(to, scores.Value())
    ensures w.launchSpeed == (if to == CoinLaunch then 0.0 else old(w.launchSpeed))
  {
    match to
    case Loading => SetupLoadingUi(w);
    case MainMenu => SetupMainMenuUi(w);
    case CoinLaunch =>
      SetupCoinLaunchUi(w);
      ResetLaunchSpeed(w);
    case Ingame =>
    case End => SetupEndUi(w, scores);
  }

  /** `apply_state_transition` for a pending next state: run the teardown of
      the state left, switch, and run the setup of the state entered (the
      launch screen also resets its meter). */
  method ApplyTransition(w: World, scores: Scores)
    modifies w`entities, w`state, w`next, w`launchSpeed
    ensures old(w.next).None? ==>
      w.entities == old(w.entities) && w.state == old(w.state) && w.next == None &&
      w.launchSpeed == old(w.launchSpeed)
    ensures old(w.next).Some? ==>
      w.state == old(w.next).value && w.next == None &&
      w.entities == Transition(old(w.entities), old(w.state), w.state, scores.Value()) &&
      w.launchSpeed == (if w.state == CoinLaunch then 0.0 else old(w.launchSpeed))
    ensures NoLeak(old(w.state), old(w.entities)) ==> NoLeak(w.state, w.entities)
  {
    if w.next.None? {
      return;
    }
    var from, to := w.state, w.next.value;
    ghost var es := w.entities;
    RunOnExit(w, from);
    w.state := to;
    w.next := None;
    RunOnEnter(w, to, scores);
    if NoLeak(from, es) {
      TransitionKeepsNoLeak(es, from, to, scores.Value());
    }
  }
}

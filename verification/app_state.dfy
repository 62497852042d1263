/** State-scoped teardown: when a state is exited, every entity tagged
    `StateOwner(state)` is despawned together with all its descendants. */
module AppStates {
  import opened Ecs

  /** The derived `Default` of `AppState`. */
  function DefaultState(): (s: AppState)
    ensures s == Ingame
  {
    Ingame
  }

  /** The forest left after recursively despawning every entity tagged `x`:
      a tagged entity goes with its whole subtree, an untagged one stays and
      is swept in turn. */
  function Sweep(es: seq<Entity>, x: AppState): (r: seq<Entity>)
    ensures |r| <= |es|
    ensures forall e :: e in r ==> e.owner != Some(x)
    decreases es
  {
    if es == [] then []
    else if es[0].owner == Some(x) then Sweep(es[1..], x)
    else [es[0].(children := Sweep(es[0].children, x))] + Sweep(es[1..], x)
  }

  lemma {:induction false} SweepAppend(a: seq<Entity>, b: seq<Entity>, x: AppState)
    ensures Sweep(a + b, x) == Sweep(a, x) + Sweep(b, x)
    decreases a
  {
    if a == [] {
      assert a + b == b;
    } else {
      assert (a + b)[0] == a[0];
      assert (a + b)[1..] == a[1..] + b;
      SweepAppend(a[1..], b, x);
    }
  }

  /** What survives a sweep was already there: the sweep only removes. */
  lemma {:induction false} SweepOnlyRemoves(es: seq<Entity>, x: AppState)
    ensures Nodes(Sweep(es, x)) <= Nodes(es)
    decreases es
  {
    if es != [] {
      SweepOnlyRemoves(es[0].children, x);
      SweepOnlyRemoves(es[1..], x);
      if es[0].owner != Some(x) {
        var e' := es[0].(children := Sweep(es[0].children, x));
        assert Header(e') == Header(es[0]);
        assert [e'] + Sweep(es[1..], x) == Sweep(es, x);
        assert ([e'] + Sweep(es[1..], x))[0] == e';
        assert ([e'] + Sweep(es[1..], x))[1..] == Sweep(es[1..], x);
      }
    }
  }

  /** After the sweep no entity anywhere carries the exited state's tag. */
  lemma {:induction false} SweepRemovesAllTagged(es: seq<Entity>, x: AppState)
    ensures NoneTagged(Sweep(es, x), x)
    decreases es
  {
    if es != [] {
      SweepRemovesAllTagged(es[0].children, x);
      SweepRemovesAllTagged(es[1..], x);
      if es[0].owner != Some(x) {
        var e' := es[0].(children := Sweep(es[0].children, x));
        var r := [e'] + Sweep(es[1..], x);
        assert r[0] == e' && r[1..] == Sweep(es[1..], x);
        assert Nodes(r) == multiset{Header(e')} + Nodes(e'.children) + Nodes(Sweep(es[1..], x));
      }
    }
  }

  /** A forest with no entity tagged `x` is left exactly as it was. */
  lemma {:induction false} SweepUntaggedIsIdentity(es: seq<Entity>, x: AppState)
    requires NoneTagged(es, x)
    ensures Sweep(es, x) == es
    decreases es
  {
    if es != [] {
      NoneTaggedParts(es, x);
      SweepUntaggedIsIdentity(es[0].children, x);
      SweepUntaggedIsIdentity(es[1..], x);
      assert es == [es[0]] + es[1..];
    }
  }

  /** The sweep never grows the forest, and strictly shrinks it when it finds
      a tagged entity. */
  lemma {:induction false} SweepShrinksWhenTagged(es: seq<Entity>, x: AppState)
    ensures |Nodes(Sweep(es, x))| <= |Nodes(es)|
    ensures !NoneTagged(es, x) ==> |Nodes(Sweep(es, x))| < |Nodes(es)|
    decreases es
  {
    if es != [] {
      NoneTaggedParts(es, x);
      SweepShrinksWhenTagged(es[0].children, x);
      SweepShrinksWhenTagged(es[1..], x);
      if es[0].owner != Some(x) {
        var e' := es[0].(children := Sweep(es[0].children, x));
        var r := [e'] + Sweep(es[1..], x);
        assert r[0] == e' && r[1..] == Sweep(es[1..], x);
        assert Nodes(r) == multiset{Header(e')} + Nodes(e'.children) + Nodes(Sweep(es[1..], x));
      }
    }
  }

  /** `remove_entities(x)` changes the world iff some entity is tagged `x`;
      untagged worlds, and worlds tagged only with other states, are untouched. */
  lemma SweepChangesIffTagged(es: seq<Entity>, x: AppState)
    ensures Sweep(es, x) == es <==> NoneTagged(es, x)
  {
    if NoneTagged(es, x) {
      SweepUntaggedIsIdentity(es, x);
    } else {
      SweepShrinksWhenTagged(es, x);
    }
  }

  /** A second sweep with the same state removes nothing more. */
  lemma SweepIdempotent(es: seq<Entity>, x: AppState)
    ensures Sweep(Sweep(es, x), x) == Sweep(es, x)
  {
    SweepRemovesAllTagged(es, x);
    SweepUntaggedIsIdentity(Sweep(es, x), x);
  }

  /** A root tagged with the exited state disappears with all its children,
      whatever they are tagged with. */
  lemma TaggedRootRemovedWithChildren(before: seq<Entity>, e: Entity, after: seq<Entity>, x: AppState)
    requires e.owner == Some(x)
    ensures Sweep(before + [e] + after, x) == Sweep(before + after, x)
  {
    SweepAppend(before + [e], after, x);
    SweepAppend(before, [e], x);
    SweepAppend(before, after, x);
    assert Sweep([e], x) == [];
    assert Sweep(before, x) + [] == Sweep(before, x);
  }

  /** A root entity that carries no `x` tag anywhere in its subtree survives
      the sweep unchanged. */
  lemma CleanRootSurvives(es: seq<Entity>, i: nat, x: AppState)
    requires i < |es| && NoneTagged([es[i]], x)
    ensures es[i] in Sweep(es, x)
  {
    assert es == es[..i] + [es[i]] + es[i + 1..];
    SweepAppend(es[..i] + [es[i]], es[i + 1..], x);
    SweepAppend(es[..i], [es[i]], x);
    SweepUntaggedIsIdentity([es[i]], x);
  }

  /** A root entity that is not tagged `x` keeps its own components; only its
      subtree is swept. */
  lemma UntaggedRootKept(es: seq<Entity>, i: nat, x: AppState)
    requires i < |es| && es[i].owner != Some(x)
    ensures es[i].(children := Sweep(es[i].children, x)) in Sweep(es, x)
  {
    assert es == es[..i] + [es[i]] + es[i + 1..];
    SweepAppend(es[..i] + [es[i]], es[i + 1..], x);
    SweepAppend(es[..i], [es[i]], x);
  }

  /** Sweeps for two different states can run in either order. */
  lemma {:induction false} SweepsCommute(es: seq<Entity>, x: AppState, y: AppState)
    ensures Sweep(Sweep(es, x), y) == Sweep(Sweep(es, y), x)
    decreases es
  {
    if es != [] {
      SweepsCommute(es[0].children, x, y);
      SweepsCommute(es[1..], x, y);
      var e := es[0];
      var rest := es[1..];
      if e.owner == Some(x) || e.owner == Some(y) {
        if e.owner != Some(x) {
          var ex := e.(children := Sweep(e.children, x));
          assert Sweep(es, x) == [ex] + Sweep(rest, x);
          assert ([ex] + Sweep(rest, x))[0] == ex && ([ex] + Sweep(rest, x))[1..] == Sweep(rest, x);
        }
        if e.owner != Some(y) {
          var ey := e.(children := Sweep(e.children, y));
          assert Sweep(es, y) == [ey] + Sweep(rest, y);
          assert ([ey] + Sweep(rest, y))[0] == ey && ([ey] + Sweep(rest, y))[1..] == Sweep(rest, y);
        }
      } else {
        var ex := e.(children := Sweep(e.children, x));
        var ey := e.(children := Sweep(e.children, y));
        var sx := [ex] + Sweep(rest, x);
        var sy := [ey] + Sweep(rest, y);
        assert sx[0] == ex && sx[1..] == Sweep(rest, x);
        assert sy[0] == ey && sy[1..] == Sweep(rest, y);
      }
    }
  }

  /** `remove_entities`: walk the tagged entities and despawn, recursively,
      those tagged with the exited state. */
  method RemoveEntities(w: World, exitState: AppState)
    modifies w`entities
    ensures w.entities == Sweep(old(w.entities), exitState)
    ensures NoneTagged(w.entities, exitState)
  {
    var es := w.entities;
    var kept: seq<Entity> := [];
    var i := 0;
    while i < |es|
      invariant 0 <= i <= |es|
      invariant kept == Sweep(es[..i], exitState)
    {
      SweepAppend(es[..i], [es[i]], exitState);
      assert es[..i + 1] == es[..i] + [es[i]];
      if es[i].owner != Some(exitState) {
        kept := kept + [es[i].(children := Sweep(es[i].children, exitState))];
      }
      i := i + 1;
    }
    assert es[..i] == es;
    w.entities := kept;
    SweepRemovesAllTagged(es, exitState);
  }

  /** `remove_ingame`, run on exit from `Ingame`. */
  method RemoveIngame(w: World)
    modifies w`entities
    ensures w.entities == Sweep(old(w.entities), Ingame)
  {
    RemoveEntities(w, Ingame);
  }

  /** `remove_end`, run on exit from `End`. */
  method RemoveEnd(w: World)
    modifies w`entities
    ensures w.entities == Sweep(old(w.entities), End)
  {
    RemoveEntities(w, End);
  }

  /** The `OnExit` wiring: the entities that remain after leaving state `s`.
      Only `Ingame` and `End` have a teardown system registered. */
  function OnExit(es: seq<Entity>, s: AppState): (r: seq<Entity>)
    ensures s == Ingame || s == End ==> NoneTagged(r, s)
    ensures s != Ingame && s != End ==> r == es
    ensures Nodes(r) <= Nodes(es)
  {
    SweepRemovesAllTagged(es, s);
    SweepOnlyRemoves(es, s);
    if s == Ingame || s == End then Sweep(es, s) else es
  }
}

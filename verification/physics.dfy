/** The world scrolls past the coin: everything marked `RelativeCoinY` moves
    down by the coin's travel, and what falls far enough below is despawned. */
module Physics {
  import opened Ecs
  import opened AppStates
  import opened Fairies

  const OutOfBoundsY: real := -10000.0

  /** How far the coin rises in one tick, which is how far the world sinks. */
  function Travel(c: Coin, dt: real): real
  {
    c.speed * dt
  }

  /** One entity after the scroll: a coin-relative entity moves down by `dy`. */
  function Shift(e: Entity, dy: real): (e': Entity)
    ensures e.relativeCoinY ==> e'.translation == Vec2(e.translation.x, e.translation.y - dy)
    ensures e.relativeCoinY ==> e' == e.(translation := e'.translation)
    ensures !e.relativeCoinY ==> e' == e
  {
    if e.relativeCoinY then e.(translation := e.translation.(y := e.translation.y - dy)) else e
  }

  /** Every entity after the scroll. */
  function Scroll(es: seq<Entity>, dy: real): (r: seq<Entity>)
    ensures |r| == |es|
    ensures forall i :: 0 <= i < |es| ==> r[i] == Shift(es[i], dy)
    decreases |es|
  {
    if es == [] then [] else [Shift(es[0], dy)] + Scroll(es[1..], dy)
  }

  /** The scroll moves coin-relative entities straight down by `dy`, keeps
      their x and every other component, and leaves the rest alone. */
  lemma ScrollMovesOnlyRelative(es: seq<Entity>, dy: real, i: nat)
    requires i < |es|
    ensures es[i].relativeCoinY ==>
      Scroll(es, dy)[i].translation.y == es[i].translation.y - dy &&
      Scroll(es, dy)[i].translation.x == es[i].translation.x &&
      Scroll(es, dy)[i].(translation := es[i].translation) == es[i]
    ensures !es[i].relativeCoinY ==> Scroll(es, dy)[i] == es[i]
  {
  }

  /** Vertical distances between coin-relative entities are preserved. */
  lemma ScrollKeepsDistances(es: seq<Entity>, dy: real, i: nat, j: nat)
    requires i < |es| && j < |es| && es[i].relativeCoinY && es[j].relativeCoinY
    ensures Scroll(es, dy)[i].translation.y - Scroll(es, dy)[j].translation.y ==
            es[i].translation.y - es[j].translation.y
  {
  }

  /** Scrolls compose: two ticks move by the sum of their travels. */
  lemma {:induction false} ScrollsCompose(es: seq<Entity>, a: real, b: real)
    ensures Scroll(Scroll(es, a), b) == Scroll(es, a + b)
    decreases |es|
  {
    if es != [] {
      ScrollsCompose(es[1..], a, b);
      assert Scroll(es, a)[1..] == Scroll(es[1..], a);
      assert Scroll(Scroll(es, a), b)[1..] == Scroll(Scroll(es, a)[1..], b);
    }
  }

  /** `update_y_pos_relative_to_coin`: with exactly one coin, shift every
      coin-relative entity down by `speed * dt`; without a single coin do
      nothing. */
  method UpdateYPosRelativeToCoin(w: World, dt: real)
    requires w.state == Ingame
    modifies w`entities
    ensures |w.coins| != 1 ==> w.entities == old(w.entities)
    ensures |w.coins| == 1 ==> w.entities == Scroll(old(w.entities), Travel(w.coins[0].coin, dt))
  {
    var es := w.entities;
    if |w.coins| == 1 {
      var adjustment := Travel(w.coins[0].coin, dt);
      var out: seq<Entity> := [];
      var i := 0;
      while i < |es|
        invariant 0 <= i <= |es|
        invariant |out| == i
        invariant forall k :: 0 <= k < i ==> out[k] == Shift(es[k], adjustment)
      {
        var e := es[i];
        if e.relativeCoinY {
          e := e.(translation := e.translation.(y := e.translation.y - adjustment));
        }
        out := out + [e];
        i := i + 1;
      }
      assert forall k :: 0 <= k < |out| ==> out[k] == Scroll(es, adjustment)[k];
      w.entities := out;
    }
  }

  /** A coin-relative entity that has fallen below -10000. */
  predicate OutOfBounds(e: Entity)
  {
    e.relativeCoinY && e.translation.y < OutOfBoundsY
  }

  /** The entities that survive culling. */
  function Cull(es: seq<Entity>): (r: seq<Entity>)
    ensures |r| <= |es|
    ensures forall e :: e in r <==> e in es && !OutOfBounds(e)
  {
    Filter(es, e => !OutOfBounds(e))
  }

  /** Culling removes exactly the out-of-bounds entities: every survivor is
      either not coin-relative or at y >= -10000, and every such entity survives. */
  lemma CullRemovesExactlyOutOfBounds(es: seq<Entity>)
    ensures forall e :: e in Cull(es) ==> !e.relativeCoinY || e.translation.y >= OutOfBoundsY
    ensures forall e :: e in es && (!e.relativeCoinY || e.translation.y >= OutOfBoundsY) ==> e in Cull(es)
    ensures forall e :: e in es && !e.relativeCoinY ==> e in Cull(es)
  {
  }

  /** Nothing is lost or invented: every node of the forest is either in a
      surviving root's subtree or in a culled root's subtree. */
  lemma {:induction false} CullRemovesWholeSubtrees(es: seq<Entity>)
    ensures Nodes(Cull(es)) + Nodes(Filter(es, OutOfBounds)) == Nodes(es)
    decreases |es|
  {
    if es != [] {
      CullRemovesWholeSubtrees(es[1..]);
      var whole := multiset{Header(es[0])} + Nodes(es[0].children);
      assert Nodes(es) == whole + Nodes(es[1..]);
      if OutOfBounds(es[0]) {
        assert Cull(es) == Cull(es[1..]);
        assert Filter(es, OutOfBounds) == [es[0]] + Filter(es[1..], OutOfBounds);
        assert Nodes([es[0]] + Filter(es[1..], OutOfBounds)) == whole + Nodes(Filter(es[1..], OutOfBounds));
      } else {
        assert Cull(es) == [es[0]] + Cull(es[1..]);
        assert Nodes([es[0]] + Cull(es[1..])) == whole + Nodes(Cull(es[1..]));
        assert Filter(es, OutOfBounds) == Filter(es[1..], OutOfBounds);
      }
    }
  }

  /** Culling as the source writes it: `despawn` is not recursive, so the
      children of a culled root outlive it, orphaned, where it stood. */
  function CullAsWritten(es: seq<Entity>): (r: seq<Entity>)
    ensures forall e :: e in es && !OutOfBounds(e) ==> e in r
    ensures forall e, c :: e in es && OutOfBounds(e) && c in e.children ==> c in r
    decreases |es|
  {
    if es == [] then []
    else (if OutOfBounds(es[0]) then es[0].children else [es[0]]) + CullAsWritten(es[1..])
  }

  /** The children of the culled roots, in order: what `despawn` orphans. */
  function Orphans(es: seq<Entity>): (r: seq<Entity>)
    ensures forall e, c :: e in es && OutOfBounds(e) && c in e.children ==> c in r
    decreases |es|
  {
    if es == [] then []
    else (if OutOfBounds(es[0]) then es[0].children else []) + Orphans(es[1..])
  }

  /** The headers of the culled roots: the only nodes `despawn` removes. */
  function CulledHeaders(es: seq<Entity>): (m: multiset<Entity>)
    ensures |m| <= |es|
    decreases |es|
  {
    if es == [] then multiset{}
    else (if OutOfBounds(es[0]) then multiset{Header(es[0])} else multiset{}) + CulledHeaders(es[1..])
  }

  /** What the non-recursive cull leaves is exactly the surviving roots and
      the orphans. */
  lemma {:induction false} CullAsWrittenRoots(es: seq<Entity>)
    ensures multiset(CullAsWritten(es)) == multiset(Cull(es)) + multiset(Orphans(es))
    decreases |es|
  {
    if es != [] {
      CullAsWrittenRoots(es[1..]);
      var rest := CullAsWritten(es[1..]);
      if OutOfBounds(es[0]) {
        assert CullAsWritten(es) == es[0].children + rest;
        assert Cull(es) == Cull(es[1..]);
        assert Orphans(es) == es[0].children + Orphans(es[1..]);
      } else {
        assert CullAsWritten(es) == [es[0]] + rest;
        assert Cull(es) == [es[0]] + Cull(es[1..]);
        assert Orphans(es) == Orphans(es[1..]);
      }
    }
  }

  /** Of the whole forest, the non-recursive cull removes only the culled
      roots' own nodes: every descendant stays. */
  lemma {:induction false} CullAsWrittenNodes(es: seq<Entity>)
    ensures Nodes(CullAsWritten(es)) + CulledHeaders(es) == Nodes(es)
    decreases |es|
  {
    if es != [] {
      CullAsWrittenNodes(es[1..]);
      var rest := CullAsWritten(es[1..]);
      assert Nodes(es) == multiset{Header(es[0])} + Nodes(es[0].children) + Nodes(es[1..]);
      if OutOfBounds(es[0]) {
        assert CullAsWritten(es) == es[0].children + rest;
        NodesAppend(es[0].children, rest);
      } else {
        assert CullAsWritten(es) == [es[0]] + rest;
        NodesAppend([es[0]], rest);
        assert Nodes([es[0]]) == multiset{Header(es[0])} + Nodes(es[0].children) + Nodes([]);
      }
    }
  }

  /** An out-of-bounds entity is left only as the orphan of some culled root:
      no culled root survives as a root. */
  lemma CulledRootsGone(es: seq<Entity>)
    ensures forall x :: x in CullAsWritten(es) <==> x in Cull(es) || x in Orphans(es)
    ensures forall x :: x in CullAsWritten(es) && OutOfBounds(x) ==> x in Orphans(es)
    ensures forall e :: e in es && OutOfBounds(e) && e !in Orphans(es) ==> e !in CullAsWritten(es)
  {
    CullAsWrittenRoots(es);
    forall x ensures x in CullAsWritten(es) <==> x in Cull(es) || x in Orphans(es) {
      assert x in CullAsWritten(es) <==> x in multiset(CullAsWritten(es));
    }
  }

  /** Only roots with children tell the two culls apart: when no culled root
      has children (clouds and boost items never do), the code's cull is the
      recursive one. */
  lemma {:induction false} CullAsWrittenAgreesWithoutChildren(es: seq<Entity>)
    requires forall e :: e in es && OutOfBounds(e) ==> e.children == []
    ensures CullAsWritten(es) == Cull(es)
    decreases |es|
  {
    if es != [] {
      CullAsWrittenAgreesWithoutChildren(es[1..]);
      if OutOfBounds(es[0]) {
        assert Cull(es) == Cull(es[1..]);
      } else {
        assert Cull(es) == [es[0]] + Cull(es[1..]);
      }
    }
  }

  lemma {:induction false} CullAsWrittenAppend(a: seq<Entity>, b: seq<Entity>)
    ensures CullAsWritten(a + b) == CullAsWritten(a) + CullAsWritten(b)
    decreases |a|
  {
    if a == [] {
      assert a + b == b;
    } else {
      assert (a + b)[0] == a[0];
      assert (a + b)[1..] == a[1..] + b;
      CullAsWrittenAppend(a[1..], b);
    }
  }

  /** What one more root adds: itself, or its orphaned children. */
  lemma CullAsWrittenStep(es: seq<Entity>, i: nat)
    requires i < |es|
    ensures CullAsWritten(es[..i + 1]) == CullAsWritten(es[..i]) + (if OutOfBounds(es[i]) then es[i].children else [es[i]])
  {
    assert es[..i + 1] == es[..i] + [es[i]];
    CullAsWrittenAppend(es[..i], [es[i]]);
  }

  /** A fairy that falls below -10000 is culled but its glow is not; the glow
      is untagged, so leaving `Ingame` does not remove it either. The
      recursive cull removes both. */
  lemma CulledFairyLeavesGlow()
    ensures CullAsWritten([NewFairy(Vec2(0.0, -10001.0))]) == [Fairies.Glow()]
    ensures Sweep(CullAsWritten([NewFairy(Vec2(0.0, -10001.0))]), Ingame) == [Fairies.Glow()]
    ensures Cull([NewFairy(Vec2(0.0, -10001.0))]) == []
  {
    var f := NewFairy(Vec2(0.0, -10001.0));
    assert OutOfBounds(f);
    assert CullAsWritten([f]) == f.children + CullAsWritten([]);
    assert Sweep([Fairies.Glow()], Ingame) == [Fairies.Glow().(children := Sweep([], Ingame))] + Sweep([], Ingame);
  }

  /** Culling twice is culling once. */
  lemma {:induction false} CullIdempotent(es: seq<Entity>)
    ensures Cull(Cull(es)) == Cull(es)
    decreases |es|
  {
    if es != [] {
      CullIdempotent(es[1..]);
      if !OutOfBounds(es[0]) {
        assert Cull(es) == [es[0]] + Cull(es[1..]);
        assert Cull(es)[1..] == Cull(es[1..]);
      }
    }
  }

  /** `despawn_out_of_bounds_things`: every root that fell below -10000 is
      despawned with the non-recursive `despawn`, leaving its children. */
  method DespawnOutOfBoundsThings(w: World)
    requires w.state == Ingame
    modifies w`entities
    ensures w.entities == CullAsWritten(old(w.entities))
  {
    var es := w.entities;
    var kept: seq<Entity> := [];
    var i := 0;
    while i < |es|
      invariant 0 <= i <= |es|
      invariant kept == CullAsWritten(es[..i])
    {
      CullAsWrittenStep(es, i);
      if es[i].relativeCoinY && es[i].translation.y < OutOfBoundsY {
        kept := kept + es[i].children;
      } else {
        kept := kept + [es[i]];
      }
      i := i + 1;
    }
    assert es[..i] == es;
    w.entities := kept;
  }
}

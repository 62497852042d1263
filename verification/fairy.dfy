/** Fairies: spawned from `InitFairy` markers with a glowing child; touching
    one gives the coin a large speed boost. */
module Fairies {
  import opened Ecs
  import opened Geometry
  import opened CoinSystems
  import opened Anim

  const FairySize: Vec2 := Vec2(60.0, 60.0)
  /** Larger than the manual boost. */
  const FairySpeedBoost: real := 400.0

  /** `Fairy::get_bounds`: a 60 x 60 box centred on the translation. */
  function FairyBounds(t: Vec2): (r: Rect)
    ensures r.max.x - r.min.x == 60.0 && r.max.y - r.min.y == 60.0
    ensures r.min.x + r.max.x == 2.0 * t.x && r.min.y + r.max.y == 2.0 * t.y
  {
    FromCenterSize(t, FairySize)
  }

  /** The glow child: untagged, pulsing, at its parent's origin. */
  function Glow(): (e: Entity)
    ensures e.kind == Kind.Glow && e.owner == None && e.anim == Some(DefaultAnimScale()) && e.children == []
  {
    Entity(Kind.Glow, None, Vec2(0.0, 0.0), 1.0, Some(DefaultAnimScale()), false, [])
  }

  /** The entity `init_fairies` spawns for a marker at `at`: a fairy tagged
      `Ingame`, scrolling with the coin, owning exactly one glow child. */
  function NewFairy(at: Vec2): (e: Entity)
    ensures e.kind == Fairy && e.owner == Some(Ingame) && e.relativeCoinY && e.translation == at
    ensures |e.children| == 1 && e.children[0].kind == Kind.Glow
  {
    Entity(Fairy, Some(Ingame), at, 1.0, None, true, [Glow()])
  }

  predicate IsFairyMarker(e: Entity)
  {
    e.kind.InitFairy?
  }

  /** One new fairy per `InitFairy` marker of `es`, in order. */
  function FairiesFor(es: seq<Entity>): seq<Entity>
    decreases |es|
  {
    if es == [] then []
    else if IsFairyMarker(es[0]) then [NewFairy(es[0].kind.at)] + FairiesFor(es[1..])
    else FairiesFor(es[1..])
  }

  /** The world after `init_fairies`: markers gone, their fairies added. */
  function InitFairiesResult(es: seq<Entity>): seq<Entity>
  {
    Filter(es, e => !IsFairyMarker(e)) + FairiesFor(es)
  }

  lemma {:induction false} FairiesForAppend(a: seq<Entity>, b: seq<Entity>)
    ensures FairiesFor(a + b) == FairiesFor(a) + FairiesFor(b)
    decreases |a|
  {
    if a == [] {
      assert a + b == b;
    } else {
      assert (a + b)[0] == a[0];
      assert (a + b)[1..] == a[1..] + b;
      FairiesForAppend(a[1..], b);
    }
  }

  lemma {:induction false} FairiesForLength(es: seq<Entity>)
    ensures |FairiesFor(es)| == |Filter(es, IsFairyMarker)|
    decreases |es|
  {
    if es != [] {
      FairiesForLength(es[1..]);
    }
  }

  /** The k-th new entity comes from the k-th marker. */
  lemma {:induction false} FairyAtMarker(es: seq<Entity>, k: nat)
    requires k < |FairiesFor(es)|
    ensures k < |Filter(es, IsFairyMarker)|
    ensures IsFairyMarker(Filter(es, IsFairyMarker)[k]) && FairiesFor(es)[k] == NewFairy(Filter(es, IsFairyMarker)[k].kind.at)
    decreases |es|
  {
    var fairies, markers := FairiesFor(es[1..]), Filter(es[1..], IsFairyMarker);
    if IsFairyMarker(es[0]) {
      assert FairiesFor(es) == [NewFairy(es[0].kind.at)] + fairies;
      assert Filter(es, IsFairyMarker) == [es[0]] + markers;
      if k > 0 {
        FairyAtMarker(es[1..], k - 1);
      }
    } else {
      assert FairiesFor(es) == fairies;
      assert Filter(es, IsFairyMarker) == markers;
      FairyAtMarker(es[1..], k);
    }
  }

  /** Markers and new fairies correspond one to one, position for position. */
  lemma FairiesForMatchMarkers(es: seq<Entity>)
    ensures |FairiesFor(es)| == |Filter(es, IsFairyMarker)|
    ensures forall k :: 0 <= k < |FairiesFor(es)| ==>
      IsFairyMarker(Filter(es, IsFairyMarker)[k]) &&
      FairiesFor(es)[k] == NewFairy(Filter(es, IsFairyMarker)[k].kind.at)
  {
    FairiesForLength(es);
    forall k | 0 <= k < |FairiesFor(es)|
      ensures IsFairyMarker(Filter(es, IsFairyMarker)[k]) && FairiesFor(es)[k] == NewFairy(Filter(es, IsFairyMarker)[k].kind.at)
    {
      FairyAtMarker(es, k);
    }
  }

  /** After `init_fairies` no marker is left, every other entity is kept,
      and every entity that was added is an `Ingame` fairy with one child. */
  lemma {:induction false} InitFairiesReplacesMarkers(es: seq<Entity>)
    ensures forall e :: e in InitFairiesResult(es) ==> !IsFairyMarker(e)
    ensures forall e :: e in es && !IsFairyMarker(e) ==> e in InitFairiesResult(es)
    ensures forall e :: e in FairiesFor(es) ==> e.kind == Fairy && e.owner == Some(Ingame) && |e.children| == 1
    decreases |es|
  {
    if es != [] {
      InitFairiesReplacesMarkers(es[1..]);
    }
  }

  /** What one more entity adds to the kept and the spawned entities. */
  lemma InitFairiesStep(es: seq<Entity>, i: nat)
    requires i < |es|
    ensures Filter(es[..i + 1], e => !IsFairyMarker(e)) ==
      Filter(es[..i], e => !IsFairyMarker(e)) + (if IsFairyMarker(es[i]) then [] else [es[i]])
    ensures FairiesFor(es[..i + 1]) ==
      FairiesFor(es[..i]) + (if IsFairyMarker(es[i]) then [NewFairy(es[i].kind.at)] else [])
  {
    assert es[..i + 1] == es[..i] + [es[i]];
    FilterAppend(es[..i], [es[i]], e => !IsFairyMarker(e));
    FairiesForAppend(es[..i], [es[i]]);
  }

  /** `init_fairies`: despawn each marker and spawn its fairy with its glow. */
  method InitFairies(w: World)
    requires w.state == Ingame
    modifies w`entities
    ensures w.entities == InitFairiesResult(old(w.entities))
  {
    var es := w.entities;
    var kept: seq<Entity> := [];
    var spawned: seq<Entity> := [];
    var i := 0;
    while i < |es|
      invariant 0 <= i <= |es|
      invariant kept == Filter(es[..i], e => !IsFairyMarker(e))
      invariant spawned == FairiesFor(es[..i])
    {
      InitFairiesStep(es, i);
      if IsFairyMarker(es[i]) {
        spawned := spawned + [NewFairy(es[i].kind.at)];
      } else {
        kept := kept + [es[i]];
      }
      i := i + 1;
    }
    assert es[..i] == es;
    w.entities := kept + spawned;
  }

  /** A fairy whose box meets the coin's. */
  predicate Touched(e: Entity, coinRect: Rect)
  {
    e.kind == Fairy && Overlaps(FairyBounds(e.translation), coinRect)
  }

  /** The entities left after the touched fairies are despawned; a despawned
      fairy takes its glow child with it. */
  function Untouched(es: seq<Entity>, coinRect: Rect): seq<Entity>
  {
    Filter(es, e => !Touched(e, coinRect))
  }

  /** The number of fairies touched. */
  function Touches(es: seq<Entity>, coinRect: Rect): nat
  {
    |Filter(es, e => Touched(e, coinRect))|
  }

  /** Every entity is either touched or left: nothing else disappears, and
      a touched fairy leaves with all of its nodes (the glow included). */
  lemma TouchesAccountForRemoved(es: seq<Entity>, coinRect: Rect)
    ensures |Untouched(es, coinRect)| + Touches(es, coinRect) == |es|
    ensures forall e :: e in es && !Touched(e, coinRect) ==> e in Untouched(es, coinRect)
    ensures forall e :: e in Untouched(es, coinRect) ==> !Touched(e, coinRect)
  {
    FilterSplits(es, e => Touched(e, coinRect));
    FilterExtensional(es, e => !(e => Touched(e, coinRect))(e), e => !Touched(e, coinRect));
  }

  /** What one more entity adds to the kept entities and the touch count. */
  lemma TouchStep(es: seq<Entity>, i: nat, coinRect: Rect)
    requires i < |es|
    ensures Untouched(es[..i + 1], coinRect) ==
      Untouched(es[..i], coinRect) + (if Touched(es[i], coinRect) then [] else [es[i]])
    ensures Touches(es[..i + 1], coinRect) == Touches(es[..i], coinRect) + (if Touched(es[i], coinRect) then 1 else 0)
  {
    assert es[..i + 1] == es[..i] + [es[i]];
    FilterAppend(es[..i], [es[i]], e => !Touched(e, coinRect));
    FilterAppend(es[..i], [es[i]], e => Touched(e, coinRect));
  }

  /** `check_fairy_coin_collision`: each overlapping fairy adds 400 to the
      coin's speed and is despawned with its children; stored boosts and
      every other entity are untouched. */
  method CheckFairyCoinCollision(w: World)
    requires w.state == Ingame
    requires |w.coins| == 1
    modifies w`entities, w`coins
    ensures |w.coins| == 1
    ensures var coinRect := CoinBounds(old(w.coins[0]));
      && w.entities == Untouched(old(w.entities), coinRect)
      && w.coins[0] == old(w.coins[0]).(coin := old(w.coins[0].coin).(speed :=
           old(w.coins[0].coin.speed) + FairySpeedBoost * (Touches(old(w.entities), coinRect) as real)))
  {
    var body := w.coins[0];
    var coinRect := CoinBounds(body);
    var es := w.entities;
    var speed := body.coin.speed;
    var kept: seq<Entity> := [];
    var i := 0;
    while i < |es|
      invariant 0 <= i <= |es|
      invariant kept == Untouched(es[..i], coinRect)
      invariant speed == body.coin.speed + FairySpeedBoost * (Touches(es[..i], coinRect) as real)
    {
      TouchStep(es, i, coinRect);
      if es[i].kind == Fairy && Overlaps(FairyBounds(es[i].translation), coinRect) {
        speed := speed + FairySpeedBoost;
      } else {
        kept := kept + [es[i]];
      }
      i := i + 1;
    }
    assert es[..i] == es;
    w.entities := kept;
    w.coins := [body.(coin := body.coin.(speed := speed))];
  }
}

/** Clouds: spawned from `InitCloud` markers; an active cloud that the rising
    coin touches is spent and slows the coin down. */
module Clouds {
  import opened Ecs
  import opened Geometry
  import opened CoinSystems

  const CloudSize: Vec2 := Vec2(100.0, 30.0)
  const CloudSlowDownPenalty: real := 200.0

  /** `Cloud::default`. */
  function DefaultCloud(): (k: Kind)
    ensures k.Cloud? && k.active
  {
    Cloud(true)
  }

  /** `Cloud::get_bounds`: a 100 x 30 box centred on the translation. */
  function CloudBounds(t: Vec2): (r: Rect)
    ensures r.max.x - r.min.x == 100.0 && r.max.y - r.min.y == 30.0
    ensures r.min.x + r.max.x == 2.0 * t.x && r.min.y + r.max.y == 2.0 * t.y
  {
    FromCenterSize(t, CloudSize)
  }

  /** The entity `init_clouds` spawns for a marker at `at`. */
  function NewCloud(at: Vec2): (e: Entity)
    ensures e.kind == Cloud(true) && e.owner == Some(Ingame) && e.relativeCoinY
    ensures e.translation == at && e.children == [] && e.anim == None
  {
    Entity(DefaultCloud(), Some(Ingame), at, 1.0, None, true, [])
  }

  predicate IsCloudMarker(e: Entity)
  {
    e.kind.InitCloud?
  }

  /** One new cloud per `InitCloud` marker of `es`, in order. */
  function CloudsFor(es: seq<Entity>): seq<Entity>
    decreases |es|
  {
    if es == [] then []
    else if IsCloudMarker(es[0]) then [NewCloud(es[0].kind.at)] + CloudsFor(es[1..])
    else CloudsFor(es[1..])
  }

  /** The world after `init_clouds`: markers gone, their clouds added. */
  function InitCloudsResult(es: seq<Entity>): seq<Entity>
  {
    Filter(es, e => !IsCloudMarker(e)) + CloudsFor(es)
  }

  lemma {:induction false} CloudsForAppend(a: seq<Entity>, b: seq<Entity>)
    ensures CloudsFor(a + b) == CloudsFor(a) + CloudsFor(b)
    decreases |a|
  {
    if a == [] {
      assert a + b == b;
    } else {
      assert (a + b)[0] == a[0];
      assert (a + b)[1..] == a[1..] + b;
      CloudsForAppend(a[1..], b);
    }
  }

  lemma {:induction false} CloudsForLength(es: seq<Entity>)
    ensures |CloudsFor(es)| == |Filter(es, IsCloudMarker)|
    decreases |es|
  {
    if es != [] {
      CloudsForLength(es[1..]);
    }
  }

  /** The k-th new entity comes from the k-th marker. */
  lemma {:induction false} CloudAtMarker(es: seq<Entity>, k: nat)
    requires k < |CloudsFor(es)|
    ensures k < |Filter(es, IsCloudMarker)|
    ensures IsCloudMarker(Filter(es, IsCloudMarker)[k]) && CloudsFor(es)[k] == NewCloud(Filter(es, IsCloudMarker)[k].kind.at)
    decreases |es|
  {
    var clouds, markers := CloudsFor(es[1..]), Filter(es[1..], IsCloudMarker);
    if IsCloudMarker(es[0]) {
      assert CloudsFor(es) == [NewCloud(es[0].kind.at)] + clouds;
      assert Filter(es, IsCloudMarker) == [es[0]] + markers;
      if k > 0 {
        CloudAtMarker(es[1..], k - 1);
      }
    } else {
      assert CloudsFor(es) == clouds;
      assert Filter(es, IsCloudMarker) == markers;
      CloudAtMarker(es[1..], k);
    }
  }

  /** Markers and new clouds correspond one to one: the k-th new cloud sits
      where the k-th marker asked for it. */
  lemma CloudsForMatchMarkers(es: seq<Entity>)
    ensures |CloudsFor(es)| == |Filter(es, IsCloudMarker)|
    ensures forall k :: 0 <= k < |CloudsFor(es)| ==>
      IsCloudMarker(Filter(es, IsCloudMarker)[k]) &&
      CloudsFor(es)[k] == NewCloud(Filter(es, IsCloudMarker)[k].kind.at)
  {
    CloudsForLength(es);
    forall k | 0 <= k < |CloudsFor(es)|
      ensures IsCloudMarker(Filter(es, IsCloudMarker)[k]) && CloudsFor(es)[k] == NewCloud(Filter(es, IsCloudMarker)[k].kind.at)
    {
      CloudAtMarker(es, k);
    }
  }

  /** After `init_clouds` no marker is left, every other entity is kept, and
      every entity that was added is an active `Ingame` cloud. */
  lemma InitCloudsReplacesMarkers(es: seq<Entity>)
    ensures forall e :: e in InitCloudsResult(es) ==> !IsCloudMarker(e)
    ensures forall e :: e in es && !IsCloudMarker(e) ==> e in InitCloudsResult(es)
    ensures |InitCloudsResult(es)| == |es|
    ensures forall e :: e in CloudsFor(es) ==> e.kind == Cloud(true) && e.owner == Some(Ingame)
  {
    CloudsForMatchMarkers(es);
    FilterSplits(es, e => !IsCloudMarker(e));
    assert Filter(es, e => !!IsCloudMarker(e)) == Filter(es, IsCloudMarker) by {
      FilterExtensional(es, e => !!IsCloudMarker(e), IsCloudMarker);
    }
    forall e | e in CloudsFor(es)
      ensures e.kind == Cloud(true) && e.owner == Some(Ingame)
    {
      var k :| 0 <= k < |CloudsFor(es)| && CloudsFor(es)[k] == e;
    }
  }

  /** What one more entity adds to the kept and the spawned entities. */
  lemma InitCloudsStep(es: seq<Entity>, i: nat)
    requires i < |es|
    ensures Filter(es[..i + 1], e => !IsCloudMarker(e)) ==
      Filter(es[..i], e => !IsCloudMarker(e)) + (if IsCloudMarker(es[i]) then [] else [es[i]])
    ensures CloudsFor(es[..i + 1]) ==
      CloudsFor(es[..i]) + (if IsCloudMarker(es[i]) then [NewCloud(es[i].kind.at)] else [])
  {
    assert es[..i + 1] == es[..i] + [es[i]];
    FilterAppend(es[..i], [es[i]], e => !IsCloudMarker(e));
    CloudsForAppend(es[..i], [es[i]]);
  }

  /** `init_clouds`: despawn each marker and spawn its cloud. */
  method InitClouds(w: World)
    requires w.state == Ingame
    modifies w`entities
    ensures w.entities == InitCloudsResult(old(w.entities))
  {
    var es := w.entities;
    var kept: seq<Entity> := [];
    var spawned: seq<Entity> := [];
    var i := 0;
    while i < |es|
      invariant 0 <= i <= |es|
      invariant kept == Filter(es[..i], e => !IsCloudMarker(e))
      invariant spawned == CloudsFor(es[..i])
    {
      InitCloudsStep(es, i);
      if IsCloudMarker(es[i]) {
        spawned := spawned + [NewCloud(es[i].kind.at)];
      } else {
        kept := kept + [es[i]];
      }
      i := i + 1;
    }
    assert es[..i] == es;
    w.entities := kept + spawned;
  }

  /** An active cloud whose box meets the coin's. */
  predicate Struck(e: Entity, coinRect: Rect)
  {
    e.kind == Cloud(true) && Overlaps(CloudBounds(e.translation), coinRect)
  }

  /** A struck cloud goes inactive; every other entity is left alone. */
  function Pass(e: Entity, coinRect: Rect): (e': Entity)
    ensures Struck(e, coinRect) ==> e' == e.(kind := Cloud(false))
    ensures !Struck(e, coinRect) ==> e' == e
  {
    if Struck(e, coinRect) then e.(kind := Cloud(false)) else e
  }

  /** Every entity after one collision pass. */
  function PassAll(es: seq<Entity>, coinRect: Rect): (r: seq<Entity>)
    ensures |r| == |es|
    ensures forall i :: 0 <= i < |es| ==> r[i] == Pass(es[i], coinRect)
    decreases |es|
  {
    if es == [] then [] else [Pass(es[0], coinRect)] + PassAll(es[1..], coinRect)
  }

  /** The number of clouds the coin strikes. */
  function Hits(es: seq<Entity>, coinRect: Rect): (n: nat)
    ensures n <= |es|
    decreases |es|
  {
    if es == [] then 0 else (if Struck(es[0], coinRect) then 1 else 0) + Hits(es[1..], coinRect)
  }

  /** No hit is counted exactly when no cloud is struck. */
  lemma {:induction false} NoHitsIffNoneStruck(es: seq<Entity>, coinRect: Rect)
    ensures Hits(es, coinRect) == 0 <==> forall e :: e in es ==> !Struck(e, coinRect)
    decreases |es|
  {
    if es != [] {
      NoHitsIffNoneStruck(es[1..], coinRect);
      assert forall e :: e in es <==> e == es[0] || e in es[1..];
    }
  }

  lemma {:induction false} HitsAppend(a: seq<Entity>, b: seq<Entity>, coinRect: Rect)
    ensures Hits(a + b, coinRect) == Hits(a, coinRect) + Hits(b, coinRect)
    decreases |a|
  {
    if a == [] {
      assert a + b == b;
    } else {
      assert (a + b)[0] == a[0];
      assert (a + b)[1..] == a[1..] + b;
      HitsAppend(a[1..], b, coinRect);
    }
  }

  /** The coin's speed after `k` cloud hits from a non-negative speed `s`:
      each hit takes 200 off, never going below 0. */
  function SlowedSpeed(s: real, k: nat): (r: real)
    requires s >= 0.0
    ensures r >= 0.0 && r <= s
    ensures k == 0 ==> r == s
  {
    if s - CloudSlowDownPenalty * (k as real) > 0.0 then s - CloudSlowDownPenalty * (k as real) else 0.0
  }

  /** A spent cloud never strikes again: a second pass over the result finds
      nothing to hit and changes nothing. */
  lemma {:induction false} SecondPassIsInert(es: seq<Entity>, coinRect: Rect)
    ensures Hits(PassAll(es, coinRect), coinRect) == 0
    ensures PassAll(PassAll(es, coinRect), coinRect) == PassAll(es, coinRect)
    decreases |es|
  {
    if es != [] {
      SecondPassIsInert(es[1..], coinRect);
      var r := PassAll(es, coinRect);
      assert r[1..] == PassAll(es[1..], coinRect);
    }
  }

  /** Clouds only ever go from active to inactive: an entity that is an
      active cloud after the pass was an active cloud before it and was not
      struck; an inactive cloud stays exactly as it was. */
  lemma PassNeverActivates(es: seq<Entity>, coinRect: Rect, i: nat)
    requires i < |es|
    ensures PassAll(es, coinRect)[i].kind == Cloud(true) ==> es[i].kind == Cloud(true) && !Struck(es[i], coinRect)
    ensures es[i].kind == Cloud(false) ==> PassAll(es, coinRect)[i] == es[i]
    ensures !Overlaps(CloudBounds(es[i].translation), coinRect) ==> PassAll(es, coinRect)[i] == es[i]
  {
  }

  /** `check_cloud_coin_collision`: with a rising (or still) coin, every
      active cloud overlapping it is spent and takes 200 off the speed, which
      is clamped at 0. A falling coin passes through clouds. */
  method CheckCloudCoinCollision(w: World)
    requires w.state == Ingame
    requires |w.coins| == 1
    modifies w`entities, w`coins
    ensures |w.coins| == 1
    ensures old(w.coins[0].coin.speed) < 0.0 ==> w.entities == old(w.entities) && w.coins == old(w.coins)
    ensures old(w.coins[0].coin.speed) >= 0.0 ==>
      var coinRect := CoinBounds(old(w.coins[0]));
      && w.entities == PassAll(old(w.entities), coinRect)
      && w.coins[0] == old(w.coins[0]).(coin := old(w.coins[0].coin).(speed :=
           SlowedSpeed(old(w.coins[0].coin.speed), Hits(old(w.entities), coinRect))))
  {
    var body := w.coins[0];
    if body.coin.speed < 0.0 {
      return;
    }
    var coinRect := CoinBounds(body);
    var es := w.entities;
    var speed := body.coin.speed;
    var out: seq<Entity> := [];
    var i := 0;
    while i < |es|
      invariant 0 <= i <= |es|
      invariant out == PassAll(es[..i], coinRect)
      invariant speed == SlowedSpeed(body.coin.speed, Hits(es[..i], coinRect))
    {
      assert es[..i + 1] == es[..i] + [es[i]];
      HitsAppend(es[..i], [es[i]], coinRect);
      assert PassAll(es[..i + 1], coinRect) == PassAll(es[..i], coinRect) + [Pass(es[i], coinRect)];
      var e := es[i];
      if e.kind == Cloud(true) && Overlaps(CloudBounds(e.translation), coinRect) {
        e := e.(kind := Cloud(false));
        speed := speed - CloudSlowDownPenalty;
        speed := if speed > 0.0 then speed else 0.0;
      }
      out := out + [e];
      i := i + 1;
    }
    assert es[..i] == es;
    w.entities := out;
    w.coins := [body.(coin := body.coin.(speed := speed))];
  }
}

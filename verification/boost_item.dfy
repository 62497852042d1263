/** Boost items: spawned from `InitBoostItem` markers; picking one up stores
    one extra boost on the coin. */
module BoostItems {
  import opened Ecs
  import opened Geometry
  import opened CoinSystems
  import opened Anim

  const BoostItemSize: Vec2 := Vec2(40.0, 40.0)

  /** `BoostItem::get_bounds`: a 40 x 40 box centred on the translation. */
  function BoostItemBounds(t: Vec2): (r: Rect)
    ensures r.max.x - r.min.x == 40.0 && r.max.y - r.min.y == 40.0
    ensures r.min.x + r.max.x == 2.0 * t.x && r.min.y + r.max.y == 2.0 * t.y
  {
    FromCenterSize(t, BoostItemSize)
  }

  /** The entity `init_boost_items` spawns for a marker at `at`: a pulsing
      boost item tagged `Ingame` that scrolls with the coin. */
  function NewBoostItem(at: Vec2): (e: Entity)
    ensures e.kind == BoostItem && e.owner == Some(Ingame) && e.relativeCoinY
    ensures e.translation == at && e.children == [] && e.anim == Some(DefaultAnimScale())
  {
    Entity(BoostItem, Some(Ingame), at, 1.0, Some(DefaultAnimScale()), true, [])
  }

  predicate IsBoostItemMarker(e: Entity)
  {
    e.kind.InitBoostItem?
  }

  /** One new boost item per `InitBoostItem` marker of `es`, in order. */
  function BoostItemsFor(es: seq<Entity>): seq<Entity>
    decreases |es|
  {
    if es == [] then []
    else if IsBoostItemMarker(es[0]) then [NewBoostItem(es[0].kind.at)] + BoostItemsFor(es[1..])
    else BoostItemsFor(es[1..])
  }

  /** The world after `init_boost_items`: markers gone, their items added. */
  function InitBoostItemsResult(es: seq<Entity>): seq<Entity>
  {
    Filter(es, e => !IsBoostItemMarker(e)) + BoostItemsFor(es)
  }

  lemma {:induction false} BoostItemsForAppend(a: seq<Entity>, b: seq<Entity>)
    ensures BoostItemsFor(a + b) == BoostItemsFor(a) + BoostItemsFor(b)
    decreases |a|
  {
    if a == [] {
      assert a + b == b;
    } else {
      assert (a + b)[0] == a[0];
      assert (a + b)[1..] == a[1..] + b;
      BoostItemsForAppend(a[1..], b);
    }
  }

  lemma {:induction false} BoostItemsForLength(es: seq<Entity>)
    ensures |BoostItemsFor(es)| == |Filter(es, IsBoostItemMarker)|
    decreases |es|
  {
    if es != [] {
      BoostItemsForLength(es[1..]);
    }
  }

  /** The k-th new entity comes from the k-th marker. */
  lemma {:induction false} BoostItemAtMarker(es: seq<Entity>, k: nat)
    requires k < |BoostItemsFor(es)|
    ensures k < |Filter(es, IsBoostItemMarker)|
    ensures IsBoostItemMarker(Filter(es, IsBoostItemMarker)[k]) && BoostItemsFor(es)[k] == NewBoostItem(Filter(es, IsBoostItemMarker)[k].kind.at)
    decreases |es|
  {
    var items, markers := BoostItemsFor(es[1..]), Filter(es[1..], IsBoostItemMarker);
    if IsBoostItemMarker(es[0]) {
      assert BoostItemsFor(es) == [NewBoostItem(es[0].kind.at)] + items;
      assert Filter(es, IsBoostItemMarker) == [es[0]] + markers;
      if k > 0 {
        BoostItemAtMarker(es[1..], k - 1);
      }
    } else {
      assert BoostItemsFor(es) == items;
      assert Filter(es, IsBoostItemMarker) == markers;
      BoostItemAtMarker(es[1..], k);
    }
  }

  /** Markers and new items correspond one to one, position for position. */
  lemma BoostItemsForMatchMarkers(es: seq<Entity>)
    ensures |BoostItemsFor(es)| == |Filter(es, IsBoostItemMarker)|
    ensures forall k :: 0 <= k < |BoostItemsFor(es)| ==>
      IsBoostItemMarker(Filter(es, IsBoostItemMarker)[k]) &&
      BoostItemsFor(es)[k] == NewBoostItem(Filter(es, IsBoostItemMarker)[k].kind.at)
  {
    BoostItemsForLength(es);
    forall k | 0 <= k < |BoostItemsFor(es)|
      ensures IsBoostItemMarker(Filter(es, IsBoostItemMarker)[k]) && BoostItemsFor(es)[k] == NewBoostItem(Filter(es, IsBoostItemMarker)[k].kind.at)
    {
      BoostItemAtMarker(es, k);
    }
  }

  /** What one more entity adds to the kept and the spawned entities. */
  lemma InitBoostItemsStep(es: seq<Entity>, i: nat)
    requires i < |es|
    ensures Filter(es[..i + 1], e => !IsBoostItemMarker(e)) ==
      Filter(es[..i], e => !IsBoostItemMarker(e)) + (if IsBoostItemMarker(es[i]) then [] else [es[i]])
    ensures BoostItemsFor(es[..i + 1]) ==
      BoostItemsFor(es[..i]) + (if IsBoostItemMarker(es[i]) then [NewBoostItem(es[i].kind.at)] else [])
  {
    assert es[..i + 1] == es[..i] + [es[i]];
    FilterAppend(es[..i], [es[i]], e => !IsBoostItemMarker(e));
    BoostItemsForAppend(es[..i], [es[i]]);
  }

  /** `init_boost_items`: despawn each marker and spawn its item. */
  method InitBoostItems(w: World)
    requires w.state == Ingame
    modifies w`entities
    ensures w.entities == InitBoostItemsResult(old(w.entities))
  {
    var es := w.entities;
    var kept: seq<Entity> := [];
    var spawned: seq<Entity> := [];
    var i := 0;
    while i < |es|
      invariant 0 <= i <= |es|
      invariant kept == Filter(es[..i], e => !IsBoostItemMarker(e))
      invariant spawned == BoostItemsFor(es[..i])
    {
      InitBoostItemsStep(es, i);
      if IsBoostItemMarker(es[i]) {
        spawned := spawned + [NewBoostItem(es[i].kind.at)];
      } else {
        kept := kept + [es[i]];
      }
      i := i + 1;
    }
    assert es[..i] == es;
    w.entities := kept + spawned;
  }

  /** After `init_boost_items` no marker is left, every other entity is kept,
      and every entity that was added is an `Ingame` boost item. */
  lemma {:induction false} InitBoostItemsReplacesMarkers(es: seq<Entity>)
    ensures forall e :: e in InitBoostItemsResult(es) ==> !IsBoostItemMarker(e)
    ensures forall e :: e in es && !IsBoostItemMarker(e) ==> e in InitBoostItemsResult(es)
    ensures forall e :: e in BoostItemsFor(es) ==> e.kind == BoostItem && e.owner == Some(Ingame)
    decreases |es|
  {
    if es != [] {
      InitBoostItemsReplacesMarkers(es[1..]);
    }
  }

  /** A boost item whose box meets the coin's. */
  predicate PickedUp(e: Entity, coinRect: Rect)
  {
    e.kind == BoostItem && Overlaps(BoostItemBounds(e.translation), coinRect)
  }

  /** The entities left after the pickups are despawned. */
  function Unpicked(es: seq<Entity>, coinRect: Rect): seq<Entity>
  {
    Filter(es, e => !PickedUp(e, coinRect))
  }

  /** The number of items picked up. */
  function Pickups(es: seq<Entity>, coinRect: Rect): nat
  {
    |Filter(es, e => PickedUp(e, coinRect))|
  }

  /** Every entity is either picked up or left: nothing else disappears. */
  lemma PickupsAccountForRemoved(es: seq<Entity>, coinRect: Rect)
    ensures |Unpicked(es, coinRect)| + Pickups(es, coinRect) == |es|
    ensures forall e :: e in es && !PickedUp(e, coinRect) ==> e in Unpicked(es, coinRect)
    ensures forall e :: e in Unpicked(es, coinRect) ==> !PickedUp(e, coinRect)
  {
    FilterSplits(es, e => PickedUp(e, coinRect));
    FilterExtensional(es, e => !(e => PickedUp(e, coinRect))(e), e => !PickedUp(e, coinRect));
  }

  /** What one more entity adds to the kept entities and the pickup count. */
  lemma PickupStep(es: seq<Entity>, i: nat, coinRect: Rect)
    requires i < |es|
    ensures Unpicked(es[..i + 1], coinRect) ==
      Unpicked(es[..i], coinRect) + (if PickedUp(es[i], coinRect) then [] else [es[i]])
    ensures Pickups(es[..i + 1], coinRect) == Pickups(es[..i], coinRect) + (if PickedUp(es[i], coinRect) then 1 else 0)
  {
    assert es[..i + 1] == es[..i] + [es[i]];
    FilterAppend(es[..i], [es[i]], e => !PickedUp(e, coinRect));
    FilterAppend(es[..i], [es[i]], e => PickedUp(e, coinRect));
  }

  /** `check_boost_item_coin_collision`: each overlapping item adds one boost
      and is despawned; speed and every other entity are untouched. */
  method CheckBoostItemCoinCollision(w: World)
    requires w.state == Ingame
    requires |w.coins| == 1
    modifies w`entities, w`coins
    ensures |w.coins| == 1
    ensures var coinRect := CoinBounds(old(w.coins[0]));
      && w.entities == Unpicked(old(w.entities), coinRect)
      && w.coins[0] == old(w.coins[0]).(coin := old(w.coins[0].coin).(additionalBoosts :=
           old(w.coins[0].coin.additionalBoosts) + Pickups(old(w.entities), coinRect)))
  {
    var body := w.coins[0];
    var coinRect := CoinBounds(body);
    var es := w.entities;
    var boosts := body.coin.additionalBoosts;
    var kept: seq<Entity> := [];
    var i := 0;
    while i < |es|
      invariant 0 <= i <= |es|
      invariant kept == Unpicked(es[..i], coinRect)
      invariant boosts == body.coin.additionalBoosts + Pickups(es[..i], coinRect)
    {
      PickupStep(es, i, coinRect);
      if es[i].kind == BoostItem && Overlaps(BoostItemBounds(es[i].translation), coinRect) {
        boosts := boosts + 1;
      } else {
        kept := kept + [es[i]];
      }
      i := i + 1;
    }
    assert es[..i] == es;
    w.entities := kept;
    w.coins := [body.(coin := body.coin.(additionalBoosts := boosts))];
  }

  /** Picking items up never lowers the stored boosts and never changes speed. */
  lemma PickupOnlyAddsBoosts(c: Coin, es: seq<Entity>, coinRect: Rect)
    ensures var c' := c.(additionalBoosts := c.additionalBoosts + Pickups(es, coinRect));
      c'.additionalBoosts >= c.additionalBoosts && c'.speed == c.speed &&
      (c'.additionalBoosts == c.additionalBoosts <==> forall e :: e in es ==> !PickedUp(e, coinRect))
  {
    if forall e :: e in es ==> !PickedUp(e, coinRect) {
      NoPickupsWhenNoneOverlap(es, coinRect);
    } else {
      var e :| e in es && PickedUp(e, coinRect);
      assert e in Filter(es, e => PickedUp(e, coinRect));
    }
  }

  lemma {:induction false} NoPickupsWhenNoneOverlap(es: seq<Entity>, coinRect: Rect)
    requires forall e :: e in es ==> !PickedUp(e, coinRect)
    ensures Pickups(es, coinRect) == 0
    decreases |es|
  {
    if es != [] {
      NoPickupsWhenNoneOverlap(es[1..], coinRect);
    }
  }
}

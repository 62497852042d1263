/** The world the game's systems run against: entities with their components,
    the coin, and the resources (current and next state, camera, level
    metadata, launch meter). */
module Ecs {

  datatype Option<T> = None | Some(value: T)

  /** The five game states; `Ingame` is the derived default. */
  datatype AppState = Loading | MainMenu | CoinLaunch | Ingame | End

  datatype Vec2 = Vec2(x: real, y: real)

  /** Scale oscillator component: `direction` is +1 (growing) or -1 (shrinking). */
  datatype AnimScale = AnimScale(scale: real, direction: real)

  /** What a text entity shows; only the score readouts carry data. */
  datatype Label = Fixed | FinalScore(score: int) | BestScore(score: int)

  /** The component set that decides what an entity is. The `Init*` kinds are
      the spawn markers, carrying the position they were requested at. */
  datatype Kind =
    | Camera
    | UiNode
    | UiText(text: Label)
    | SpeedIndicator(top: real)
    | InitCloud(at: Vec2)
    | InitBoostItem(at: Vec2)
    | InitFairy(at: Vec2)
    | Cloud(active: bool)
    | BoostItem
    | Fairy
    | Glow

  /** An entity with its hierarchy children. `owner` is the `StateOwner` tag,
      `scale` the uniform x/y transform scale (z stays 1), and `relativeCoinY`
      the `RelativeCoinY` marker. */
  datatype Entity = Entity(
    kind: Kind,
    owner: Option<AppState>,
    translation: Vec2,
    scale: real,
    anim: Option<AnimScale>,
    relativeCoinY: bool,
    children: seq<Entity>)

  /** A plain entity: no tag, at the origin, unscaled, no children. */
  function Plain(kind: Kind): Entity
  {
    Entity(kind, None, Vec2(0.0, 0.0), 1.0, None, false, [])
  }

  /** A UI or camera entity tagged with the state it belongs to. */
  function Owned(kind: Kind, s: AppState): Entity
  {
    Plain(kind).(owner := Some(s))
  }

  datatype Coin = Coin(speed: real, additionalBoosts: nat)

  /** Flip oscillator: `orientation` in [-1, 1], `direction` -1 or +1. */
  datatype CoinAnimation = CoinAnimation(orientation: real, direction: real)

  /** The coin entity: its components and its sprite size. */
  datatype CoinBody = CoinBody(coin: Coin, anim: CoinAnimation, spriteSize: Vec2, translation: Vec2)

  /** An entity with its children left out. */
  function Header(e: Entity): Entity
  {
    e.(children := [])
  }

  /** Every entity of a forest, parents and descendants alike, each as its header. */
  function Nodes(es: seq<Entity>): multiset<Entity>
    decreases es
  {
    if es == [] then multiset{}
    else multiset{Header(es[0])} + Nodes(es[0].children) + Nodes(es[1..])
  }

  /** No entity anywhere in the forest carries `StateOwner(s)`. */
  ghost predicate NoneTagged(es: seq<Entity>, s: AppState)
  {
    forall n :: n in Nodes(es) ==> n.owner != Some(s)
  }

  lemma {:induction false} NodesAppend(a: seq<Entity>, b: seq<Entity>)
    ensures Nodes(a + b) == Nodes(a) + Nodes(b)
    decreases a
  {
    if a == [] {
      assert a + b == b;
    } else {
      assert (a + b)[0] == a[0];
      assert (a + b)[1..] == a[1..] + b;
      NodesAppend(a[1..], b);
    }
  }

  /** The tag test splits along the forest's structure. */
  lemma NoneTaggedParts(es: seq<Entity>, s: AppState)
    requires es != []
    ensures NoneTagged(es, s) <==>
      es[0].owner != Some(s) && NoneTagged(es[0].children, s) && NoneTagged(es[1..], s)
  {
    var h, kids, rest := Header(es[0]), Nodes(es[0].children), Nodes(es[1..]);
    assert Nodes(es) == multiset{h} + kids + rest;
    assert h.owner == es[0].owner;
    if es[0].owner != Some(s) && NoneTagged(es[0].children, s) && NoneTagged(es[1..], s) {
      forall n | n in Nodes(es) ensures n.owner != Some(s) {
        assert n == h || n in kids || n in rest;
      }
    }
    if NoneTagged(es, s) {
      assert h in Nodes(es);
      forall n | n in kids ensures n.owner != Some(s) {
        assert n in Nodes(es);
      }
      forall n | n in rest ensures n.owner != Some(s) {
        assert n in Nodes(es);
      }
    }
  }

  /** The entities of `es` that `keep` accepts, in their order. */
  function Filter(es: seq<Entity>, keep: Entity -> bool): (r: seq<Entity>)
    ensures |r| <= |es|
    ensures forall e :: e in r <==> e in es && keep(e)
    decreases |es|
  {
    if es == [] then []
    else if keep(es[0]) then [es[0]] + Filter(es[1..], keep)
    else Filter(es[1..], keep)
  }

  lemma {:induction false} FilterAppend(a: seq<Entity>, b: seq<Entity>, keep: Entity -> bool)
    ensures Filter(a + b, keep) == Filter(a, keep) + Filter(b, keep)
    decreases |a|
  {
    if a == [] {
      assert a + b == b;
    } else {
      assert (a + b)[0] == a[0];
      assert (a + b)[1..] == a[1..] + b;
      FilterAppend(a[1..], b, keep);
    }
  }

  /** Filters whose tests agree on every entity select the same entities. */
  lemma {:induction false} FilterExtensional(es: seq<Entity>, p: Entity -> bool, q: Entity -> bool)
    requires forall e :: p(e) == q(e)
    ensures Filter(es, p) == Filter(es, q)
    decreases |es|
  {
    if es != [] {
      FilterExtensional(es[1..], p, q);
    }
  }

  /** Every entity is either kept or dropped by a filter: the two parts add up. */
  lemma {:induction false} FilterSplits(es: seq<Entity>, p: Entity -> bool)
    ensures |Filter(es, p)| + |Filter(es, e => !p(e))| == |es|
    decreases |es|
  {
    if es != [] {
      FilterSplits(es[1..], p);
    }
  }

  /** The world: the entity forest, the coin entities, the coin camera and the resources. */
  class World {
    var entities: seq<Entity>
    var coins: seq<CoinBody>
    /** `translation.y` of the coin camera. */
    var cameraY: real
    var state: AppState
    /** `NextState<AppState>`: a requested transition, if any. */
    var next: Option<AppState>
    /** `LevelMetadata::last_cloud_spawn_time`. */
    var lastCloudSpawnTime: real
    /** `CoinLaunchSpeedPercentage`. */
    var launchSpeed: real

    /** The world before any startup system has run. */
    constructor ()
      ensures entities == [] && coins == [] && cameraY == 0.0
      ensures state == Ingame && next == None
      ensures lastCloudSpawnTime == 0.0 && launchSpeed == 0.0
    {
      entities := [];
      coins := [];
      cameraY := 0.0;
      state := Ingame;
      next := None;
      lastCloudSpawnTime := 0.0;
      launchSpeed := 0.0;
    }
  }
}

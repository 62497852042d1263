/** The coin: gravity and the presentational flip oscillator. */
module CoinSystems {
  import opened Ecs
  import opened Geometry

  const Gravity: real := 9.8
  const CoinFullSize: Vec2 := Vec2(50.0, 50.0)
  const AnimMaxCoinSpeedCap: real := 240.0
  const AnimMinCoinSpeedCap: real := 10.0
  const AnimMaxSpinSpeed: real := 15.0

  /** `Coin::default`. */
  function DefaultCoin(): (c: Coin)
    ensures c.speed == 0.0 && c.additionalBoosts == 0
  {
    Coin(0.0, 0)
  }

  /** `CoinAnimation::default`: upright, turning towards -1. */
  function DefaultCoinAnimation(): (a: CoinAnimation)
    ensures a.orientation == 1.0 && a.direction == -1.0
    ensures FlipInvariant(a)
  {
    CoinAnimation(1.0, -1.0)
  }

  /** `setup_coin` spawns one coin entity at the origin, speed 140, full-size sprite. */
  method SetupCoin(w: World)
    modifies w`coins
    ensures w.coins == old(w.coins) + [CoinBody(Coin(140.0, 0), DefaultCoinAnimation(), CoinFullSize, Vec2(0.0, 0.0))]
  {
    w.coins := w.coins + [CoinBody(Coin(140.0, 0), DefaultCoinAnimation(), CoinFullSize, Vec2(0.0, 0.0))];
  }

  /** The coin's box: `COIN_FULL_SIZE` centred on its translation (an
      assumption: the method is called by the collision systems but its
      definition is not part of the coin file). */
  function CoinBounds(c: CoinBody): (r: Rect)
    ensures r.max.x - r.min.x == 50.0 && r.max.y - r.min.y == 50.0
    ensures r.min.x + r.max.x == 2.0 * c.translation.x && r.min.y + r.max.y == 2.0 * c.translation.y
  {
    FromCenterSize(c.translation, CoinFullSize)
  }

  /** One gravity tick on a coin. */
  function Fall(c: Coin, dt: real): (c': Coin)
    ensures dt >= 0.0 ==> c'.speed <= c.speed
    ensures c.speed - c'.speed == Gravity * dt
    ensures c'.additionalBoosts == c.additionalBoosts
  {
    c.(speed := c.speed - Gravity * dt)
  }

  /** Gravity over `n` equal ticks takes exactly `9.8 * dt` per tick. */
  function FallTicks(c: Coin, dt: real, n: nat): Coin
    decreases n
  {
    if n == 0 then c else FallTicks(Fall(c, dt), dt, n - 1)
  }

  lemma {:induction false} FallTicksLinear(c: Coin, dt: real, n: nat)
    ensures FallTicks(c, dt, n).speed == c.speed - (n as real) * Gravity * dt
    ensures FallTicks(c, dt, n).additionalBoosts == c.additionalBoosts
    decreases n
  {
    if n > 0 {
      FallTicksLinear(Fall(c, dt), dt, n - 1);
      assert (n as real) * Gravity * dt == Gravity * dt + ((n - 1) as real) * Gravity * dt;
    }
  }

  /** `coin_gravity`: every coin loses `9.8 * dt` of speed. */
  method CoinGravity(w: World, dt: real)
    modifies w`coins
    ensures |w.coins| == |old(w.coins)|
    ensures forall i :: 0 <= i < |w.coins| ==>
      w.coins[i] == old(w.coins[i]).(coin := Fall(old(w.coins[i]).coin, dt))
  {
    var i := 0;
    while i < |w.coins|
      invariant 0 <= i <= |w.coins| == |old(w.coins)|
      invariant forall j :: 0 <= j < i ==> w.coins[j] == old(w.coins[j]).(coin := Fall(old(w.coins[j]).coin, dt))
      invariant forall j :: i <= j < |w.coins| ==> w.coins[j] == old(w.coins[j])
    {
      var body := w.coins[i];
      w.coins := w.coins[i := body.(coin := Fall(body.coin, dt))];
      i := i + 1;
    }
  }

  function Abs(x: real): (a: real)
    ensures a >= 0.0 && (a == x || a == -x)
  {
    if x < 0.0 then -x else x
  }

  /** `|speed|` clamped to [10, 240], as a fraction of 240. */
  function SpinRatio(speed: real): (r: real)
    ensures 0.0 < r <= 1.0
    ensures Abs(speed) <= AnimMinCoinSpeedCap ==> r == AnimMinCoinSpeedCap / AnimMaxCoinSpeedCap
    ensures Abs(speed) >= AnimMaxCoinSpeedCap ==> r == 1.0
  {
    var capped := if Abs(speed) < AnimMaxCoinSpeedCap then Abs(speed) else AnimMaxCoinSpeedCap;
    var floored := if capped > AnimMinCoinSpeedCap then capped else AnimMinCoinSpeedCap;
    floored / AnimMaxCoinSpeedCap
  }

  /** `root` stands for `powf(0.5)` on (0, 1]: any map of (0, 1] into (0, 1]. */
  ghost predicate RootLike(root: real -> real)
  {
    forall r :: 0.0 < r <= 1.0 ==> 0.0 < root(r) <= 1.0
  }

  /** The spin speed: 15 times the root of the clamped speed ratio. */
  function SpinSpeed(speed: real, root: real -> real): (spin: real)
    requires RootLike(root)
    ensures 0.0 < spin <= AnimMaxSpinSpeed
  {
    AnimMaxSpinSpeed * root(SpinRatio(speed))
  }

  /** The flip oscillator's invariant. */
  predicate FlipInvariant(a: CoinAnimation)
  {
    -1.0 <= a.orientation <= 1.0 && (a.direction == -1.0 || a.direction == 1.0)
  }

  /** One step of the flip oscillator: move by `direction * spin * dt`; on
      passing a bound, stop exactly on it and turn round. */
  function FlipStep(a: CoinAnimation, spin: real, dt: real): (r: CoinAnimation)
    ensures a.direction < 0.0 ==> r.orientation >= -1.0
    ensures a.direction >= 0.0 ==> r.orientation <= 1.0
    ensures r.direction != a.direction ==>
      (a.direction < 0.0 && r == CoinAnimation(-1.0, 1.0)) || (a.direction >= 0.0 && r == CoinAnimation(1.0, -1.0))
  {
    var o := a.orientation + a.direction * spin * dt;
    if a.direction < 0.0 then
      if o < -1.0 then CoinAnimation(o + (-1.0 - o), 1.0) else CoinAnimation(o, a.direction)
    else
      if o > 1.0 then CoinAnimation(o - (o - 1.0), -1.0) else CoinAnimation(o, a.direction)
  }

  /** With a non-negative spin and time step the oscillator stays in [-1, 1]
      with direction -1 or +1. */
  lemma FlipStepKeepsInvariant(a: CoinAnimation, spin: real, dt: real)
    requires FlipInvariant(a) && spin >= 0.0 && dt >= 0.0
    ensures FlipInvariant(FlipStep(a, spin, dt))
  {
    assert spin * dt >= 0.0;
  }

  /** The direction changes only when the orientation passes a bound, and the
      orientation is then exactly that bound; otherwise it moves by
      `direction * spin * dt`. */
  lemma FlipStepTurnsOnlyAtBounds(a: CoinAnimation, spin: real, dt: real)
    requires FlipInvariant(a) && spin >= 0.0 && dt >= 0.0
    ensures var a' := FlipStep(a, spin, dt);
      a'.direction != a.direction <==> (a.orientation + a.direction * spin * dt < -1.0 || a.orientation + a.direction * spin * dt > 1.0)
    ensures var a' := FlipStep(a, spin, dt);
      a'.direction != a.direction ==> a'.orientation == -a'.direction
    ensures var a' := FlipStep(a, spin, dt);
      a'.direction == a.direction ==> a'.orientation == a.orientation + a.direction * spin * dt
  {
    assert spin * dt >= 0.0;
    assert a.direction * spin * dt == a.direction * (spin * dt);
  }

  /** `coin_flip_animation` on one coin: below 0.01 of speed nothing moves;
      otherwise step the oscillator and squash the sprite's height by the
      orientation. */
  function Flip(c: CoinBody, root: real -> real, dt: real): (c': CoinBody)
    requires RootLike(root)
    ensures Abs(c.coin.speed) <= 0.01 ==> c' == c
    ensures Abs(c.coin.speed) > 0.01 ==> c'.anim == FlipStep(c.anim, SpinSpeed(c.coin.speed, root), dt)
    ensures Abs(c.coin.speed) > 0.01 ==> c'.spriteSize == Vec2(CoinFullSize.x, CoinFullSize.y * c'.anim.orientation)
    ensures c'.coin == c.coin && c'.translation == c.translation
  {
    if Abs(c.coin.speed) > 0.01 then
      var a := FlipStep(c.anim, SpinSpeed(c.coin.speed, root), dt);
      c.(anim := a, spriteSize := Vec2(CoinFullSize.x, CoinFullSize.y * a.orientation))
    else c
  }

  /** A coin's flip state stays valid however many ticks it animates. */
  lemma FlipKeepsInvariant(c: CoinBody, root: real -> real, dt: real)
    requires RootLike(root) && dt >= 0.0 && FlipInvariant(c.anim)
    ensures FlipInvariant(Flip(c, root, dt).anim)
    ensures -CoinFullSize.y <= Flip(c, root, dt).spriteSize.y <= CoinFullSize.y || Flip(c, root, dt) == c
  {
    if Abs(c.coin.speed) > 0.01 {
      FlipStepKeepsInvariant(c.anim, SpinSpeed(c.coin.speed, root), dt);
    }
  }

  /** `coin_flip_animation`: animate every coin. */
  method CoinFlipAnimation(w: World, root: real -> real, dt: real)
    requires RootLike(root)
    modifies w`coins
    ensures |w.coins| == |old(w.coins)|
    ensures forall i :: 0 <= i < |w.coins| ==> w.coins[i] == Flip(old(w.coins[i]), root, dt)
  {
    var i := 0;
    while i < |w.coins|
      invariant 0 <= i <= |w.coins| == |old(w.coins)|
      invariant forall j :: 0 <= j < i ==> w.coins[j] == Flip(old(w.coins[j]), root, dt)
      invariant forall j :: i <= j < |w.coins| ==> w.coins[j] == old(w.coins[j])
    {
      w.coins := w.coins[i := Flip(w.coins[i], root, dt)];
      i := i + 1;
    }
  }
}

/** The coin camera: it pans up while the coin falls so that more of what is
    below comes into view, easing towards its target. */
module CoinCamera {
  import opened Ecs

  const CameraPanYDist: real := 150.0
  const SnapDistance: real := 0.01

  /** The camera's target height for a coin speed: 150 minus the negative part of the speed. */
  function PanTarget(speed: real): (t: real)
    ensures t >= CameraPanYDist
    ensures speed >= 0.0 <==> t == CameraPanYDist
    ensures speed < 0.0 ==> t == CameraPanYDist - speed
  {
    CameraPanYDist - (if speed < 0.0 then speed else 0.0)
  }

  /** One step of the pan: within 0.01 of the target the camera stays put;
      otherwise it closes the gap by the fraction `dt`. */
  function PanStep(y: real, target: real, dt: real): (r: real)
    ensures -SnapDistance < target - y < SnapDistance ==> r == y
    ensures !(-SnapDistance < target - y < SnapDistance) ==> target - r == (target - y) * (1.0 - dt)
  {
    var dist := target - y;
    if -SnapDistance < dist < SnapDistance then y else y + dist * dt
  }

  lemma ProductNonNegative(a: real, b: real)
    requires a >= 0.0 && b >= 0.0
    ensures a * b >= 0.0
  {
  }

  /** A fraction of a gap lies between zero and the gap. */
  lemma ScaledGap(d: real, t: real)
    requires 0.0 <= t <= 1.0
    ensures d >= 0.0 ==> 0.0 <= d * t <= d
    ensures d <= 0.0 ==> d <= d * t <= 0.0
  {
    if d >= 0.0 {
      ProductNonNegative(d, t);
      ProductNonNegative(d, 1.0 - t);
      assert d * (1.0 - t) == d - d * t;
    } else {
      ProductNonNegative(-d, t);
      ProductNonNegative(-d, 1.0 - t);
      assert (-d) * (1.0 - t) == d * t - d;
      assert (-d) * t == -(d * t);
    }
  }

  /** For `0 <= dt <= 1` the new height lies between the old height and the
      target, so the camera never overshoots. */
  lemma PanStepBetween(y: real, target: real, dt: real)
    requires 0.0 <= dt <= 1.0
    ensures y <= target ==> y <= PanStep(y, target, dt) <= target
    ensures target <= y ==> target <= PanStep(y, target, dt) <= y
  {
    var dist := target - y;
    ScaledGap(dist, dt);
    assert PanStep(y, target, dt) == y || PanStep(y, target, dt) == y + dist * dt;
  }

  /** Away from the target the camera moves by exactly `(target - y) * dt`;
      near it, not at all. */
  lemma PanStepMoves(y: real, target: real, dt: real)
    ensures -SnapDistance < target - y < SnapDistance ==> PanStep(y, target, dt) == y
    ensures !(-SnapDistance < target - y < SnapDistance) ==> PanStep(y, target, dt) - y == (target - y) * dt
  {
  }

  /** The gap to the target never grows for `0 <= dt <= 1`. */
  lemma PanStepApproaches(y: real, target: real, dt: real)
    requires 0.0 <= dt <= 1.0
    ensures var y' := PanStep(y, target, dt);
      (y' <= target ==> target - y' <= (if target >= y then target - y else y - target)) &&
      (y' >= target ==> y' - target <= (if target >= y then target - y else y - target))
  {
    PanStepBetween(y, target, dt);
  }

  /** `setup_coin_camera`: the one coin camera starts at the origin. */
  method SetupCoinCamera(w: World)
    modifies w`cameraY
    ensures w.cameraY == 0.0
  {
    w.cameraY := 0.0;
  }

  /** `pan_camera_with_coin_speed`; `single()` on the coin panics unless there
      is exactly one. */
  method PanCameraWithCoinSpeed(w: World, dt: real)
    requires |w.coins| == 1
    modifies w`cameraY
    ensures w.cameraY == PanStep(old(w.cameraY), PanTarget(w.coins[0].coin.speed), dt)
  {
    var target := PanTarget(w.coins[0].coin.speed);
    var dist := target - w.cameraY;
    if -SnapDistance < dist < SnapDistance {
      return;
    }
    w.cameraY := w.cameraY + dist * dt;
  }
}

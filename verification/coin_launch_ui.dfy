/** The launch screen: a meter that sweeps from 0 to 1 and wraps round, a bar
    with an indicator showing it, and SPACE to launch. */
module CoinLaunchUi {
  import opened Ecs

  const SpeedBarHeight: real := 200.0
  const SpeedBarTop: real := 32.0
  const SpeedIndicatorHeight: real := 16.0

  /** Where the indicator's top edge sits for a meter reading: the bar's
      bottom at 0, its top at 1, centred on the reading. */
  function IndicatorTop(speed: real): (top: real)
    ensures 0.0 <= speed <= 1.0 ==> 24.0 <= top <= 224.0
    ensures speed == 0.0 ==> top == SpeedBarTop + SpeedBarHeight - SpeedIndicatorHeight * 0.5
    ensures speed == 1.0 ==> top == SpeedBarTop - SpeedIndicatorHeight * 0.5
  {
    SpeedBarTop + (1.0 - speed) * SpeedBarHeight - SpeedIndicatorHeight * 0.5
  }

  /** A fuller meter puts the indicator higher up the screen. */
  lemma IndicatorRisesWithSpeed(a: real, b: real)
    requires a <= b
    ensures IndicatorTop(b) <= IndicatorTop(a)
    ensures IndicatorTop(a) - IndicatorTop(b) == (b - a) * SpeedBarHeight
  {
  }

  /** The three entities `setup_coin_launch_ui` spawns, all tagged
      `CoinLaunch`: a camera, the bar, and the indicator at the bar's bottom. */
  function LaunchUi(): (r: seq<Entity>)
    ensures |r| == 3
    ensures forall i :: 0 <= i < |r| ==> r[i].owner == Some(CoinLaunch) && r[i].children == []
    ensures r[0].kind == Camera && r[1].kind == UiNode
    ensures r[2].kind == SpeedIndicator(IndicatorTop(0.0))
  {
    [Owned(Camera, CoinLaunch), Owned(UiNode, CoinLaunch),
     Owned(SpeedIndicator(SpeedBarTop + SpeedBarHeight - SpeedIndicatorHeight * 0.5), CoinLaunch)]
  }

  /** `setup_coin_launch_ui`. */
  method SetupCoinLaunchUi(w: World)
    modifies w`entities
    ensures w.entities == old(w.entities) + LaunchUi()
  {
    w.entities := w.entities + LaunchUi();
  }

  /** `reset_launch_speed`: the meter starts empty on every visit. */
  method ResetLaunchSpeed(w: World)
    modifies w`launchSpeed
    ensures w.launchSpeed == 0.0
  {
    w.launchSpeed := 0.0;
  }

  /** The meter after one tick: it grows by `dt`; once past 1 it keeps only
      its fractional part. */
  function AdvanceMeter(s: real, dt: real): (r: real)
    ensures s + dt <= 1.0 ==> r == s + dt
    ensures s + dt > 1.0 ==> 0.0 <= r < 1.0 && s + dt - r >= 1.0
    ensures s + dt > 1.0 ==> s + dt - r == (s + dt - r).Floor as real
  {
    var t := s + dt;
    if t > 1.0 then t - t.Floor as real else t
  }

  /** From a reading in [0, 1] and a non-negative tick the meter stays in [0, 1]. */
  lemma AdvanceMeterStaysInRange(s: real, dt: real)
    requires 0.0 <= s <= 1.0 && dt >= 0.0
    ensures 0.0 <= AdvanceMeter(s, dt) <= 1.0
  {
  }

  /** `update_speed`. */
  method UpdateSpeed(w: World, dt: real)
    requires w.state == CoinLaunch
    modifies w`launchSpeed
    ensures w.launchSpeed == AdvanceMeter(old(w.launchSpeed), dt)
  {
    w.launchSpeed := w.launchSpeed + dt;
    if w.launchSpeed > 1.0 {
      w.launchSpeed := w.launchSpeed - w.launchSpeed.Floor as real;
    }
  }

  /** One entity after `update_speed_ui`: an indicator moves to `top`. */
  function Place(e: Entity, top: real): (e': Entity)
    ensures e.kind.SpeedIndicator? ==> e' == e.(kind := SpeedIndicator(top))
    ensures !e.kind.SpeedIndicator? ==> e' == e
  {
    if e.kind.SpeedIndicator? then e.(kind := SpeedIndicator(top)) else e
  }

  /** Every entity after `update_speed_ui`. */
  function PlaceAll(es: seq<Entity>, top: real): (r: seq<Entity>)
    ensures |r| == |es|
    ensures forall i :: 0 <= i < |es| ==> r[i] == Place(es[i], top)
    decreases |es|
  {
    if es == [] then [] else [Place(es[0], top)] + PlaceAll(es[1..], top)
  }

  /** After placing, every indicator shows `top`, every other entity is as it
      was, and placing again changes nothing. */
  lemma PlaceAllShowsTop(es: seq<Entity>, top: real)
    ensures forall i :: 0 <= i < |es| && es[i].kind.SpeedIndicator? ==>
      PlaceAll(es, top)[i] == es[i].(kind := SpeedIndicator(top))
    ensures forall i :: 0 <= i < |es| && !es[i].kind.SpeedIndicator? ==> PlaceAll(es, top)[i] == es[i]
    ensures PlaceAll(PlaceAll(es, top), top) == PlaceAll(es, top)
  {
  }

  /** `update_speed_ui`: move every indicator to the meter's reading. */
  method UpdateSpeedUi(w: World)
    requires w.state == CoinLaunch
    modifies w`entities
    ensures w.entities == PlaceAll(old(w.entities), IndicatorTop(w.launchSpeed))
  {
    var es := w.entities;
    var top := SpeedBarTop + (1.0 - w.launchSpeed) * SpeedBarHeight - SpeedIndicatorHeight * 0.5;
    var out: seq<Entity> := [];
    var i := 0;
    while i < |es|
      invariant 0 <= i <= |es|
      invariant |out| == i
      invariant forall k :: 0 <= k < i ==> out[k] == Place(es[k], top)
    {
      var e := es[i];
      if e.kind.SpeedIndicator? {
        e := e.(kind := SpeedIndicator(top));
      }
      out := out + [e];
      i := i + 1;
    }
    w.entities := out;
  }

  /** `launch_coin`: SPACE asks for `Ingame`; otherwise nothing happens. */
  method LaunchCoin(w: World, spaceJustPressed: bool)
    requires w.state == CoinLaunch
    modifies w`next
    ensures spaceJustPressed ==> w.next == Some(Ingame)
    ensures !spaceJustPressed ==> w.next == old(w.next)
  {
    if !spaceJustPressed {
      return;
    }
    w.next := Some(Ingame);
  }
}

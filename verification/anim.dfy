/** The pulsing scale animation on boost items and fairy glows. */
module Anim {
  import opened Ecs

  const MinScale: real := 0.8
  const MaxScale: real := 1.2

  /** `AnimScale::default`. */
  function DefaultAnimScale(): (a: AnimScale)
    ensures a.scale == 1.0 && a.direction == 1.0
    ensures ScaleInvariant(a)
  {
    AnimScale(1.0, 1.0)
  }

  /** The scale oscillator's invariant. */
  predicate ScaleInvariant(a: AnimScale)
  {
    MinScale <= a.scale <= MaxScale && (a.direction == -1.0 || a.direction == 1.0)
  }

  /** One step of `animate_scale`: move by `direction * dt`; on passing a
      bound, clamp to it and turn round. */
  function ScaleStep(a: AnimScale, dt: real): (r: AnimScale)
    ensures a.direction < 0.0 ==> r.scale >= MinScale
    ensures a.direction >= 0.0 ==> r.scale <= MaxScale
    ensures r.direction != a.direction ==>
      (a.direction < 0.0 && r == AnimScale(MinScale, 1.0)) || (a.direction >= 0.0 && r == AnimScale(MaxScale, -1.0))
  {
    var s := a.scale + a.direction * dt;
    if a.direction < 0.0 then
      if s < MinScale then AnimScale(MinScale, 1.0) else AnimScale(s, a.direction)
    else
      if s > MaxScale then AnimScale(MaxScale, -1.0) else AnimScale(s, a.direction)
  }

  /** With `dt >= 0` the scale stays in [0.8, 1.2] and the direction in {-1, +1}. */
  lemma ScaleStepKeepsInvariant(a: AnimScale, dt: real)
    requires ScaleInvariant(a) && dt >= 0.0
    ensures ScaleInvariant(ScaleStep(a, dt))
  {
  }

  /** The direction reverses only when the scale passes a bound, and the scale
      is then exactly that bound; otherwise the scale moves by `direction * dt`. */
  lemma ScaleStepTurnsOnlyAtBounds(a: AnimScale, dt: real)
    requires ScaleInvariant(a) && dt >= 0.0
    ensures var a' := ScaleStep(a, dt);
      a'.direction != a.direction <==> (a.scale + a.direction * dt < MinScale || a.scale + a.direction * dt > MaxScale)
    ensures var a' := ScaleStep(a, dt);
      a'.direction == 1.0 && a.direction == -1.0 ==> a'.scale == MinScale
    ensures var a' := ScaleStep(a, dt);
      a'.direction == -1.0 && a.direction == 1.0 ==> a'.scale == MaxScale
    ensures var a' := ScaleStep(a, dt);
      a'.direction == a.direction ==> a'.scale == a.scale + a.direction * dt
  {
  }

  /** An entity after `animate_scale`: its `AnimScale` steps and its
      transform scale becomes `(scale, scale, 1)`. */
  function Animate(e: Entity, dt: real): (e': Entity)
    ensures e'.anim.Some? <==> e.anim.Some?
    ensures e.anim.Some? ==> e'.anim == Some(ScaleStep(e.anim.value, dt)) && e'.scale == e'.anim.value.scale
    ensures e.anim.None? ==> e'.scale == e.scale
    ensures e'.kind == e.kind && e'.owner == e.owner && e'.translation == e.translation
    ensures e'.relativeCoinY == e.relativeCoinY
    ensures e'.children == AnimateAll(e.children, dt)
    decreases e, 1
  {
    var kids := AnimateAll(e.children, dt);
    match e.anim
    case None => e.(children := kids)
    case Some(a) =>
      var a' := ScaleStep(a, dt);
      e.(anim := Some(a'), scale := a'.scale, children := kids)
  }

  /** `animate_scale` over a forest: every entity with an `AnimScale`,
      children included. */
  function AnimateAll(es: seq<Entity>, dt: real): (r: seq<Entity>)
    ensures |r| == |es|
    ensures forall i :: 0 <= i < |es| ==> r[i] == Animate(es[i], dt)
    decreases es, 0
  {
    if es == [] then [] else [Animate(es[0], dt)] + AnimateAll(es[1..], dt)
  }

  /** Every animated entity of a forest keeps its scale in [0.8, 1.2]. */
  ghost predicate AllScalesValid(es: seq<Entity>)
  {
    forall n :: n in Nodes(es) && n.anim.Some? ==> ScaleInvariant(n.anim.value) && n.scale == n.anim.value.scale
  }

  /** With `dt >= 0`, animating a forest keeps every oscillator in range. */
  lemma {:induction false} AnimateAllKeepsInvariant(es: seq<Entity>, dt: real)
    requires dt >= 0.0
    requires forall n :: n in Nodes(es) && n.anim.Some? ==> ScaleInvariant(n.anim.value)
    ensures AllScalesValid(AnimateAll(es, dt))
    decreases es
  {
    if es != [] {
      var e := es[0];
      var h, kids, rest := Header(e), Nodes(e.children), Nodes(es[1..]);
      assert Nodes(es) == multiset{h} + kids + rest;
      forall n | n in kids && n.anim.Some? ensures ScaleInvariant(n.anim.value) {
        assert n in Nodes(es);
      }
      forall n | n in rest && n.anim.Some? ensures ScaleInvariant(n.anim.value) {
        assert n in Nodes(es);
      }
      AnimateAllKeepsInvariant(e.children, dt);
      AnimateAllKeepsInvariant(es[1..], dt);
      var e' := Animate(e, dt);
      var r := AnimateAll(es, dt);
      assert r[0] == e' && r[1..] == AnimateAll(es[1..], dt);
      assert Nodes(r) == multiset{Header(e')} + Nodes(e'.children) + Nodes(AnimateAll(es[1..], dt));
      if e.anim.Some? {
        assert h in Nodes(es);
        ScaleStepKeepsInvariant(e.anim.value, dt);
      }
    }
  }

  /** `animate_scale`: step every `AnimScale` in the world. */
  method AnimateScale(w: World, dt: real)
    modifies w`entities
    ensures w.entities == AnimateAll(old(w.entities), dt)
  {
    var es := w.entities;
    var out: seq<Entity> := [];
    var i := 0;
    while i < |es|
      invariant 0 <= i <= |es|
      invariant out == AnimateAll(es[..i], dt)
    {
      AnimateStep(es, i, dt);
      out := out + [Animate(es[i], dt)];
      i := i + 1;
    }
    assert es[..i] == es;
    w.entities := out;
  }

  lemma {:induction false} AnimateAllAppend(a: seq<Entity>, b: seq<Entity>, dt: real)
    ensures AnimateAll(a + b, dt) == AnimateAll(a, dt) + AnimateAll(b, dt)
    decreases |a|
  {
    if a == [] {
      assert a + b == b;
    } else {
      assert (a + b)[0] == a[0];
      assert (a + b)[1..] == a[1..] + b;
      AnimateAllAppend(a[1..], b, dt);
    }
  }

  /** What one more root adds to the animated forest. */
  lemma AnimateStep(es: seq<Entity>, i: nat, dt: real)
    requires i < |es|
    ensures AnimateAll(es[..i + 1], dt) == AnimateAll(es[..i], dt) + [Animate(es[i], dt)]
  {
    assert es[..i + 1] == es[..i] + [es[i]];
    AnimateAllAppend(es[..i], [es[i]], dt);
    assert AnimateAll([es[i]], dt) == [Animate(es[i], dt)] + AnimateAll([], dt);
  }
}

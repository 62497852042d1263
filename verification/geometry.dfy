/** Axis-aligned rectangles as bevy's `Rect` behaves: stored as min and max
    corners. The semantics of `from_center_size`, `intersect` and `is_empty`
    are assumed here (bevy's source is not part of this model). */
module Geometry {
  import opened Ecs

  datatype Rect = Rect(min: Vec2, max: Vec2)

  /** `Rect::from_center_size`: min = c - s/2, max = c + s/2. */
  function FromCenterSize(c: Vec2, size: Vec2): (r: Rect)
    ensures r.max.x - r.min.x == size.x && r.max.y - r.min.y == size.y
    ensures r.min.x + r.max.x == 2.0 * c.x && r.min.y + r.max.y == 2.0 * c.y
  {
    Rect(Vec2(c.x - size.x / 2.0, c.y - size.y / 2.0), Vec2(c.x + size.x / 2.0, c.y + size.y / 2.0))
  }

  function Max(a: real, b: real): (m: real)
    ensures m >= a && m >= b && (m == a || m == b)
  {
    if a >= b then a else b
  }

  function Min(a: real, b: real): (m: real)
    ensures m <= a && m <= b && (m == a || m == b)
  {
    if a <= b then a else b
  }

  /** `Rect::intersect`: component-wise max of the mins, min of the maxes. */
  function Intersect(a: Rect, b: Rect): (r: Rect)
    ensures r.min.x >= a.min.x && r.min.x >= b.min.x && r.min.y >= a.min.y && r.min.y >= b.min.y
    ensures r.max.x <= a.max.x && r.max.x <= b.max.x && r.max.y <= a.max.y && r.max.y <= b.max.y
  {
    Rect(Vec2(Max(a.min.x, b.min.x), Max(a.min.y, b.min.y)),
         Vec2(Min(a.max.x, b.max.x), Min(a.max.y, b.max.y)))
  }

  /** `Rect::is_empty`: true iff min >= max on either axis. */
  predicate IsEmpty(r: Rect)
  {
    r.min.x >= r.max.x || r.min.y >= r.max.y
  }

  /** The collision test every system writes as `!a.intersect(b).is_empty()`. */
  predicate Overlaps(a: Rect, b: Rect)
  {
    !IsEmpty(Intersect(a, b))
  }

  /** Overlap is the same as the two open intervals meeting on both axes. */
  lemma OverlapsIffIntervals(a: Rect, b: Rect)
    ensures Overlaps(a, b) <==>
      (a.min.x < b.max.x && b.min.x < a.max.x && !IsEmpty(a) && !IsEmpty(b) &&
       a.min.y < b.max.y && b.min.y < a.max.y)
  {
  }

  /** Box overlap is symmetric. */
  lemma OverlapsSymmetric(a: Rect, b: Rect)
    ensures Overlaps(a, b) == Overlaps(b, a)
  {
    assert Intersect(a, b) == Intersect(b, a);
  }

  /** Two centred boxes overlap iff their centres are closer than the half
      sizes summed, strictly, on both axes. */
  lemma CenteredOverlap(c1: Vec2, s1: Vec2, c2: Vec2, s2: Vec2)
    requires s1.x > 0.0 && s1.y > 0.0 && s2.x > 0.0 && s2.y > 0.0
    ensures Overlaps(FromCenterSize(c1, s1), FromCenterSize(c2, s2)) <==>
      (c1.x - c2.x < (s1.x + s2.x) / 2.0 && c2.x - c1.x < (s1.x + s2.x) / 2.0 &&
       c1.y - c2.y < (s1.y + s2.y) / 2.0 && c2.y - c1.y < (s1.y + s2.y) / 2.0)
  {
    OverlapsIffIntervals(FromCenterSize(c1, s1), FromCenterSize(c2, s2));
  }
}

/**
 * The nearest-pair scan run on every mouse move by the scatter and
 * arrow-scatter charts: one pass over the data with a two-slot running
 * minimum of the pixel distance `|x(p.x) - mouseX|`.  The slot called
 * `left` holds the closest point and `right` the second closest; they are
 * not sides of the cursor.  The JavaScript accumulator holds references to
 * data points; here a reference is the index of that point in the data.
 */
module NearestPoint {
  import opened Basics

  /** The reduce accumulator `{ left, right }`: indices of the closest and second-closest points. */
  datatype Closest = Closest(left: Option<nat>, right: Option<nat>)

  /** Pixel distance from the point's x position to the pointer. */
  function Distance<P>(p: P, xOf: P -> real, scale: real -> real, mouseX: real): (d: real)
    ensures d >= 0.0
    ensures d == 0.0 <==> scale(xOf(p)) == mouseX
  {
    Abs(scale(xOf(p)) - mouseX)
  }

  /**
   * Among the first `n` points, `i` is at minimum distance, and every earlier
   * point is strictly farther (so `i` is the first minimum in data order).
   */
  ghost predicate IsNearest<P>(data: seq<P>, xOf: P -> real, scale: real -> real, mouseX: real, n: nat, i: nat)
    requires n <= |data|
  {
    && i < n
    && (forall k :: 0 <= k < n ==> Distance(data[i], xOf, scale, mouseX) <= Distance(data[k], xOf, scale, mouseX))
    && (forall k :: 0 <= k < i ==> Distance(data[i], xOf, scale, mouseX) < Distance(data[k], xOf, scale, mouseX))
  }

  /**
   * Among the first `n` points other than `l`, `j` is at minimum distance,
   * and every earlier point other than `l` is strictly farther.
   */
  ghost predicate IsSecondNearest<P>(data: seq<P>, xOf: P -> real, scale: real -> real, mouseX: real, n: nat, l: nat, j: nat)
    requires n <= |data|
  {
    && j < n
    && j != l
    && (forall k :: 0 <= k < n && k != l ==> Distance(data[j], xOf, scale, mouseX) <= Distance(data[k], xOf, scale, mouseX))
    && (forall k :: 0 <= k < j && k != l ==> Distance(data[j], xOf, scale, mouseX) < Distance(data[k], xOf, scale, mouseX))
  }

  /** What the accumulator holds after scanning the first `n` points. */
  ghost predicate IsClosestPair<P>(data: seq<P>, xOf: P -> real, scale: real -> real, mouseX: real, n: nat, c: Closest)
    requires n <= |data|
  {
    && (c.left.None? <==> n == 0)
    && (c.right.None? <==> n <= 1)
    && (c.left.Some? ==> IsNearest(data, xOf, scale, mouseX, n, c.left.value))
    && (c.right.Some? ==> c.left.Some? && IsSecondNearest(data, xOf, scale, mouseX, n, c.left.value, c.right.value))
  }

  /**
   * The `data.reduce` scan.  A point replaces `left` only when strictly
   * closer (the old `left` then moves to `right`); otherwise it replaces
   * `right` when that slot is empty or strictly farther.
   */
  method Nearest<P>(data: seq<P>, xOf: P -> real, scale: real -> real, mouseX: real) returns (acc: Closest)
    ensures acc.left.None? <==> |data| == 0
    ensures acc.right.None? <==> |data| <= 1
    ensures acc.left.Some? ==> IsNearest(data, xOf, scale, mouseX, |data|, acc.left.value)
    ensures acc.right.Some? ==> acc.left.Some? && IsSecondNearest(data, xOf, scale, mouseX, |data|, acc.left.value, acc.right.value)
  {
    acc := Closest(None, None);
    for i := 0 to |data|
      invariant IsClosestPair(data, xOf, scale, mouseX, i, acc)
    {
      var d := Distance(data[i], xOf, scale, mouseX);
      if acc.left.None? || d < Distance(data[acc.left.value], xOf, scale, mouseX) {
        acc := acc.(right := acc.left, left := Some(i));
      } else if acc.right.None? || d < Distance(data[acc.right.value], xOf, scale, mouseX) {
        acc := acc.(right := Some(i));
      }
    }
  }

  /** The closest point is determined by the data: two indices that both qualify are the same. */
  lemma NearestUnique<P>(data: seq<P>, xOf: P -> real, scale: real -> real, mouseX: real, i: nat, i': nat)
    requires IsNearest(data, xOf, scale, mouseX, |data|, i)
    requires IsNearest(data, xOf, scale, mouseX, |data|, i')
    ensures i == i'
  {
    // Mention both distances so that each index instantiates the other's quantifiers.
    var d, d' := Distance(data[i], xOf, scale, mouseX), Distance(data[i'], xOf, scale, mouseX);
  }

  /** So is the second-closest point, once the closest one is fixed. */
  lemma SecondNearestUnique<P>(data: seq<P>, xOf: P -> real, scale: real -> real, mouseX: real, l: nat, j: nat, j': nat)
    requires IsSecondNearest(data, xOf, scale, mouseX, |data|, l, j)
    requires IsSecondNearest(data, xOf, scale, mouseX, |data|, l, j')
    ensures j == j'
  {
    var d, d' := Distance(data[j], xOf, scale, mouseX), Distance(data[j'], xOf, scale, mouseX);
  }

  /** Two points at the same distance: the one earlier in the data is the one kept as closest. */
  lemma TieGoesToEarlier<P>(data: seq<P>, xOf: P -> real, scale: real -> real, mouseX: real, l: nat, a: nat, b: nat)
    requires IsNearest(data, xOf, scale, mouseX, |data|, l)
    requires a < b < |data|
    requires Distance(data[a], xOf, scale, mouseX) == Distance(data[b], xOf, scale, mouseX)
    ensures l != b
  {
  }
}

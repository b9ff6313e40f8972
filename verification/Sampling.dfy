/** Downsampling of a plotted series that never draws a line across a missing observation. */
module Sampling {

  /** Evenly spread position `index` of `count` over `length` observations. */
  function Spread(length: nat, count: nat, index: nat): nat
    requires 1 <= count <= length && index < count
  {
    if count == 1 then length - 1
    else
      ProductMonotone(0, index, length - 1);
      var product: nat := index * (length - 1);
      product / (count - 1)
  }

  lemma ProductMonotone(a: nat, b: nat, d: nat)
    requires a <= b
    ensures a * d <= b * d
  {
  }

  /** A quotient is at least `k` as soon as `k` divisors fit. */
  lemma QuotientAtLeast(x: nat, d: nat, k: nat)
    requires d > 0 && k * d <= x
    ensures k <= x / d
  {
    var q := x / d;
    assert x < (q + 1) * d;
    if q + 1 <= k {
      ProductMonotone(q + 1, k, d);
    }
  }

  lemma QuotientGrows(a: nat, step: nat, d: nat)
    requires 0 < d <= step
    ensures a / d < (a + step) / d
  {
    var q := a / d;
    assert q * d <= a;
    assert (q + 1) * d == q * d + d;
    QuotientAtLeast(a + step, d, q + 1);
  }

  lemma SpreadIncreases(length: nat, count: nat, index: nat)
    requires 2 <= count <= length && index + 1 < count
    ensures Spread(length, count, index) < Spread(length, count, index + 1)
  {
    var a := index * (length - 1);
    assert (index + 1) * (length - 1) == a + (length - 1);
    QuotientGrows(a, length - 1, count - 1);
  }

  lemma SpreadEnds(length: nat, count: nat)
    requires 1 <= count <= length
    ensures Spread(length, count, count - 1) == length - 1
  {
    if count > 1 {
      var d, n := count - 1, length - 1;
      assert d * n == n * d;
      QuotientAtLeast(d * n, d, n);
      var q := d * n / d;
      assert q * d <= d * n;
      assert (n + 1) * d == n * d + d;
      if n < q {
        ProductMonotone(n + 1, q, d);
      }
    }
  }

  /** `x` is the position an even spread of `count` samples over `length` observations puts at `index`, rounded down. */
  predicate Even(x: nat, index: nat, count: nat, length: nat) {
    if count == 1 then x + 1 == length
    else x * (count - 1) <= index * (length - 1) < (x + 1) * (count - 1)
  }

  lemma SpreadIsEven(length: nat, count: nat, index: nat)
    requires 1 <= count <= length && index < count
    ensures Even(Spread(length, count, index), index, count, length)
  {
    if count > 1 {
      var a, d := index * (length - 1), count - 1;
      var q := a / d;
      assert q * d <= a < (q + 1) * d;
    }
  }

  /**
    Sample `index` stands at its even position, or has been moved right to the last missing observation
    before its right neighbour because a line between the two would have hidden it.
   */
  ghost predicate Placed(p: seq<nat>, index: nat, length: nat, missing: nat -> bool)
    requires index < |p|
  {
    Even(p[index], index, |p|, length) || Moved(p, index, length, missing)
  }

  ghost predicate Moved(p: seq<nat>, index: nat, length: nat, missing: nat -> bool)
    requires index < |p|
  {
    && index + 1 < |p| && missing(p[index]) && !missing(p[index + 1])
    && (forall k :: p[index] < k < p[index + 1] ==> !missing(k))
    && exists x :: 0 <= x < p[index] && Even(x, index, |p|, length) && !missing(x)
  }

  lemma PlacedSame(p: seq<nat>, index: nat, length: nat, a: nat -> bool, b: nat -> bool)
    requires index < |p| && Placed(p, index, length, a) && forall k: nat :: a(k) == b(k)
    ensures Placed(p, index, length, b)
  {
    hide Even;
  }

  predicate Increasing(p: seq<nat>) {
    forall i :: 0 <= i < |p| - 1 ==> p[i] < p[i + 1]
  }

  /** Two neighbouring samples are both numeric only if everything between them is numeric. */
  predicate Unbridged(p: seq<nat>, i: nat, missing: nat -> bool)
    requires i + 1 < |p|
  {
    missing(p[i]) || missing(p[i + 1]) || forall k :: p[i] < k < p[i + 1] ==> !missing(k)
  }

  lemma IncreasingBound(p: seq<nat>, i: nat, j: nat)
    requires Increasing(p) && i <= j < |p|
    ensures p[i] + (j - i) <= p[j]
    decreases j - i
  {
    if i < j {
      IncreasingBound(p, i, j - 1);
    }
  }

  method EvenPositions(length: nat, count: nat) returns (positions: array<nat>)
    requires count <= length
    ensures fresh(positions) && positions.Length == count
    ensures forall i :: 0 <= i < count ==> positions[i] == Spread(length, count, i)
    ensures Increasing(positions[..])
    ensures count > 0 ==> positions[count - 1] == length - 1
  {
    positions := new nat[count];
    for index := 0 to count
      invariant forall i :: 0 <= i < index ==> positions[i] == Spread(length, count, i)
    {
      positions[index] := Spread(length, count, index);
    }
    forall i | 0 <= i < count - 1 ensures positions[i] < positions[i + 1] {
      SpreadIncreases(length, count, i);
    }
    if count > 0 {
      SpreadEnds(length, count);
    }
  }

  /** The last missing position strictly between two samples, or `right` when there is none. */
  method LastMissing(left: nat, right: nat, missing: nat -> bool) returns (gap: nat)
    requires left < right
    ensures left < gap <= right
    ensures gap < right ==> missing(gap)
    ensures forall k :: gap < k < right ==> !missing(k)
    ensures gap == right ==> forall k :: left < k < right ==> !missing(k)
  {
    gap := right;
    var index := right - 1;
    while index > left
      invariant left <= index < right && gap == right
      invariant forall k :: index < k < right ==> !missing(k)
    {
      if missing(index) {
        return index;
      }
      index := index - 1;
    }
  }

  /**
    Exactly `count` strictly increasing positions, ending at the last observation, with a missing
    observation kept between any two numeric samples that had one between them; without missing
    observations the even spread is left as it is.
   */
  method SamplePositions(length: nat, count: nat, missing: nat -> bool) returns (chosen: seq<nat>)
    requires count <= length
    ensures |chosen| == count
    ensures Increasing(chosen)
    ensures forall i :: 0 <= i < count ==> chosen[i] < length
    ensures count > 0 ==> chosen[count - 1] == length - 1
    ensures forall i :: 0 <= i < count - 1 ==> Unbridged(chosen, i, missing)
    ensures forall i :: 0 <= i < count ==> Placed(chosen, i, length, missing)
    ensures (forall k :: 0 <= k < length ==> !missing(k)) ==> forall i :: 0 <= i < count ==>
              Even(chosen[i], i, count, length)
    ensures count >= 2 && (forall k :: 0 <= k < length ==> !missing(k)) ==> chosen[0] == 0
  {
    var positions := EvenPositions(length, count);
    ghost var even := positions[..];
    var right := count - 1;
    while right >= 1
      invariant count > 0 ==> 0 <= right < count
      invariant State(positions[..], even, right, length, missing)
      decreases right
    {
      Separate(positions, right, length, missing, even);
      right := right - 1;
    }
    chosen := positions[..];
    forall i | 0 <= i < count ensures chosen[i] < length && Placed(chosen, i, length, missing) {
      IncreasingBound(chosen, i, count - 1);
      SpreadIsEven(length, count, i);
    }
    if count >= 2 {
      assert Even(chosen[0], 0, count, length) || missing(chosen[0]);
      FirstEven(chosen[0], count, length);
    }
  }

  lemma FirstEven(x: nat, count: nat, length: nat)
    requires 2 <= count
    ensures Even(x, 0, count, length) ==> x == 0
  {
    if x > 0 {
      ProductMonotone(1, x, count - 1);
    }
  }

  /** Positions below `right` are still the even ones; pairs from `right` on are settled. */
  ghost predicate State(p: seq<nat>, even: seq<nat>, right: int, length: nat, missing: nat -> bool) {
    && |p| == |even|
    && Increasing(p)
    && (|p| > 0 ==> p[|p| - 1] == length - 1)
    && (forall i :: 0 <= i < |p| && i < right ==> p[i] == even[i])
    && (forall i :: 0 <= i < |p| && right <= i ==> p[i] == even[i] || Shifted(p, i, even[i], missing))
    && (forall i :: 0 <= i < |p| - 1 && right <= i ==> Unbridged(p, i, missing))
  }

  ghost predicate Shifted(p: seq<nat>, i: nat, from: nat, missing: nat -> bool)
    requires i < |p|
  {
    && i + 1 < |p| && from < p[i] && !missing(from) && missing(p[i]) && !missing(p[i + 1])
    && forall k :: p[i] < k < p[i + 1] ==> !missing(k)
  }

  method Separate(positions: array<nat>, right: nat, length: nat, missing: nat -> bool, ghost even: seq<nat>)
    requires 1 <= right < positions.Length
    requires State(positions[..], even, right, length, missing)
    modifies positions
    ensures State(positions[..], even, right - 1, length, missing)
  {
    ghost var before := positions[..];
    var l, r := positions[right - 1], positions[right];
    assert before[right - 1] < before[right];
    if !missing(l) && !missing(r) {
      var gap := LastMissing(l, r, missing);
      if gap < r {
        IncreasingBound(before, right, |before| - 1);
        positions[right - 1] := gap;
      }
    }
    ghost var after := positions[..];
    assert after == before[right - 1 := after[right - 1]];
    assert Unbridged(after, right - 1, missing);
    forall i | 0 <= i < |after| - 1 && right - 1 <= i ensures Unbridged(after, i, missing) {
      if right <= i {
        assert Unbridged(before, i, missing);
      }
    }
  }
}

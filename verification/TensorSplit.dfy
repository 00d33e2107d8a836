/**
 How the engine turns tensor weights into layers: it normalises running sums of the weights, and puts slot
 k of `slots` on the first device whose bound exceeds k / slots. There is one slot per transformer block and
 one for the output, which comes last. Running sums of weights are exact.
 */
module TensorSplit {

  function Sum(w: seq<nat>): nat {
    if w == [] then 0 else Sum(w[..|w| - 1]) + w[|w| - 1]
  }

  /** The running sum before device d. */
  function Before(w: seq<nat>, d: nat): nat
    requires d <= |w|
  {
    Sum(w[..d])
  }

  /** The number of bounds not above x: where bisect_right lands in a sorted list. */
  function UpperBound(bounds: seq<real>, x: real): (d: nat)
    ensures d <= |bounds|
    ensures d < |bounds| ==> bounds[d] > x
    ensures forall i :: 0 <= i < d ==> bounds[i] <= x
  {
    if bounds == [] || bounds[0] > x then 0 else 1 + UpperBound(bounds[1..], x)
  }

  /** The list of bounds, built by the accumulating loop; `scale` normalises and rounds a running sum. */
  method Bounds(w: seq<nat>, scale: nat -> real) returns (bounds: seq<real>)
    ensures IsBounds(bounds, w, scale)
  {
    bounds := [];
    var total := 0;
    for i := 0 to |w|
      invariant |bounds| == i && total == Before(w, i)
      invariant forall d :: 0 <= d < i ==> bounds[d] == scale(Before(w, d + 1))
    {
      assert w[..i + 1][..i] == w[..i];
      total := total + w[i];
      bounds := bounds + [scale(total)];
    }
  }

  ghost predicate IsBounds(bounds: seq<real>, w: seq<nat>, scale: nat -> real) {
    |bounds| == |w| && forall d :: 0 <= d < |w| ==> bounds[d] == scale(Before(w, d + 1))
  }

  lemma {:induction false} SumGrows(w: seq<nat>, i: nat, j: nat)
    requires i <= j <= |w|
    ensures Before(w, i) <= Before(w, j)
  {
    if i < j {
      SumGrows(w, i, j - 1);
      assert w[..j][..j - 1] == w[..j - 1];
    }
  }

  /** Device d is the first whose running sum reaches t. */
  predicate Reaches(w: seq<nat>, t: nat, d: nat) {
    d < |w| && Before(w, d) < t <= Before(w, d + 1)
  }

  /** The bound of device i is above x exactly when its running sum is at least t. */
  predicate Separates(bounds: seq<real>, w: seq<nat>, x: real, t: nat, i: nat)
    requires i < |w| == |bounds|
  {
    bounds[i] > x <==> Before(w, i + 1) >= t
  }

  /** Then x lands on the device that reaches t. */
  lemma LandsWhereReached(w: seq<nat>, bounds: seq<real>, x: real, t: nat, d: nat)
    requires |bounds| == |w| && Reaches(w, t, d) && forall i: nat :: i < |w| ==> Separates(bounds, w, x, t, i)
    ensures UpperBound(bounds, x) == d
  {
    var u := UpperBound(bounds, x);
    assert Separates(bounds, w, x, t, d);
    assert u <= d;
    assert Separates(bounds, w, x, t, u);
    SumGrows(w, if u < d then u + 1 else d, d);
  }

  lemma {:induction false} SomeoneReaches(w: seq<nat>, t: nat) returns (d: nat)
    requires 1 <= t <= Sum(w)
    ensures Reaches(w, t, d)
  {
    var n := |w| - 1;
    assert w[..n + 1] == w;
    if t > Sum(w[..n]) {
      d := n;
    } else {
      d := SomeoneReaches(w[..n], t);
      assert w[..n][..d] == w[..d] && w[..n][..d + 1] == w[..d + 1];
    }
  }

  lemma OneReaches(w: seq<nat>, t: nat, d: nat, e: nat)
    requires Reaches(w, t, d) && Reaches(w, t, e)
    ensures d == e
  {
    SumGrows(w, if d < e then d + 1 else e, e);
    SumGrows(w, if e < d then e + 1 else d, d);
  }

  /** How many of the first `blocks` slots are mapped to device d. */
  function Landed(mapping: seq<nat>, blocks: nat, d: nat): nat
    requires blocks <= |mapping|
  {
    if blocks == 0 then 0 else Landed(mapping, blocks - 1, d) + if mapping[blocks - 1] == d then 1 else 0
  }

  /** The device of each slot, at the point the engine computes for it. */
  function Mapping(bounds: seq<real>, points: seq<real>): (mapping: seq<nat>)
    ensures |mapping| == |points| && forall k :: 0 <= k < |points| ==> mapping[k] == UpperBound(bounds, points[k])
  {
    seq(|points|, k requires 0 <= k < |points| => UpperBound(bounds, points[k]))
  }

  function Cut(a: nat, b: nat): nat {
    if a <= b then a else b
  }

  /** The counts 1 .. m that device d is the first to reach. */
  function Share(w: seq<nat>, m: nat, d: nat): int
    requires d < |w|
  {
    Cut(Before(w, d + 1), m) - Cut(Before(w, d), m)
  }

  lemma ShareStep(w: seq<nat>, m: nat, d: nat)
    requires d < |w|
    ensures Share(w, m + 1, d) == Share(w, m, d) + if Reaches(w, m + 1, d) then 1 else 0
  {
    SumGrows(w, d, d + 1);
  }

  /** Slots 0 .. blocks-1 reach the counts 1 .. blocks: device d gets its share of them. */
  lemma {:induction false} LandedIsShare(w: seq<nat>, mapping: seq<nat>, blocks: nat, d: nat)
    requires blocks <= |mapping| && d < |w| && forall k :: 0 <= k < blocks ==> Reaches(w, k + 1, mapping[k])
    ensures Landed(mapping, blocks, d) == Share(w, blocks, d)
  {
    if blocks > 0 {
      LandedIsShare(w, mapping, blocks - 1, d);
      ShareStep(w, blocks - 1, d);
      assert Reaches(w, blocks - 1 + 1, mapping[blocks - 1]);
      if Reaches(w, blocks, d) {
        OneReaches(w, blocks, d, mapping[blocks - 1]);
      }
    }
  }

  // ---------- corrected weights ----------

  /** Rounding keeps different counts apart and in order. */
  ghost predicate Increasing(rounds: nat -> real, slots: nat) {
    forall i: nat, j: nat :: i < j <= slots ==> rounds(i) < rounds(j)
  }

  /** Weights that add up to the slots: slot k lands on the device that reaches k + 1. */
  lemma SlotReaches(w: seq<nat>, rounds: nat -> real, bounds: seq<real>, k: nat)
    requires Increasing(rounds, Sum(w)) && k < Sum(w) && IsBounds(bounds, w, rounds)
    ensures Reaches(w, k + 1, UpperBound(bounds, rounds(k)))
  {
    var x, t := rounds(k), k + 1;
    var d := SomeoneReaches(w, t);
    forall i: nat | i < |w| ensures Separates(bounds, w, x, t, i) {
      SumGrows(w, i + 1, |w|);
      assert w[..|w|] == w;
      var b := Before(w, i + 1);
      if b < k {
        assert rounds(b) < rounds(k);
      } else if b > k {
        assert rounds(k) < rounds(b);
      }
    }
    LandsWhereReached(w, bounds, x, t, d);
  }

  lemma SumSnoc(w: seq<nat>, x: nat)
    ensures Sum(w + [x]) == Sum(w) + x
  {
    assert (w + [x])[..|w|] == w;
  }

  lemma BeforeSnoc(w: seq<nat>, x: nat, d: nat)
    requires d <= |w|
    ensures Before(w + [x], d) == Before(w, d)
  {
    assert (w + [x])[..d] == w[..d];
  }

  /** Device d's blocks among the first Sum(layers) + remaining, when the last weight is at least `remaining`. */
  lemma SharesOf(layers: seq<nat>, last: nat, m: nat, d: nat)
    requires d < |layers| && Sum(layers) <= m
    ensures Share(layers + [last], m, d) == layers[d]
  {
    BeforeSnoc(layers, last, d);
    BeforeSnoc(layers, last, d + 1);
    SumGrows(layers, d + 1, |layers|);
    SumGrows(layers, d, |layers|);
    assert layers[..|layers|] == layers;
    assert layers[..d + 1][..d] == layers[..d];
  }

  lemma ShareOfLast(layers: seq<nat>, last: nat, m: nat)
    requires Sum(layers) <= m <= Sum(layers) + last
    ensures Share(layers + [last], m, |layers|) == m - Sum(layers)
  {
    BeforeSnoc(layers, last, |layers|);
    assert layers[..|layers|] == layers;
    assert (layers + [last])[..|layers| + 1] == layers + [last];
    SumSnoc(layers, last);
  }

  ghost predicate ArePoints(points: seq<real>, rounds: nat -> real, slots: nat) {
    |points| == slots && forall k: nat :: k < slots ==> points[k] == rounds(k)
  }

  lemma AllReach(w: seq<nat>, rounds: nat -> real, bounds: seq<real>, points: seq<real>)
    requires Increasing(rounds, Sum(w)) && IsBounds(bounds, w, rounds) && ArePoints(points, rounds, Sum(w))
    ensures forall k :: 0 <= k < Sum(w) ==> Reaches(w, k + 1, Mapping(bounds, points)[k])
  {
    forall k | 0 <= k < Sum(w) ensures Reaches(w, k + 1, Mapping(bounds, points)[k]) {
      SlotReaches(w, rounds, bounds, k);
    }
  }

  /** What an exact placement is: each device its blocks, the output last. */
  ghost predicate Places(mapping: seq<nat>, layers: seq<nat>, remaining: nat)
    requires |mapping| == Sum(layers) + remaining + 1
  {
    var n := Sum(layers) + remaining;
    && (forall d :: 0 <= d < |layers| ==> Landed(mapping, n, d) == layers[d])
    && Landed(mapping, n, |layers|) == remaining && mapping[n] == |layers|
  }

  /** With one more weight on the coordinator, every device gets exactly the blocks asked for and the output goes last. */
  lemma CorrectedIsExact(layers: seq<nat>, remaining: nat, rounds: nat -> real, bounds: seq<real>, points: seq<real>)
    requires Increasing(rounds, Sum(layers) + remaining + 1) && IsBounds(bounds, layers + [remaining + 1], rounds)
    requires ArePoints(points, rounds, Sum(layers) + remaining + 1)
    ensures Places(Mapping(bounds, points), layers, remaining)
  {
    var w := layers + [remaining + 1];
    SumSnoc(layers, remaining + 1);
    AllReach(w, rounds, bounds, points);
    ExactPlaces(layers, remaining, Mapping(bounds, points));
  }

  lemma ExactPlaces(layers: seq<nat>, remaining: nat, mapping: seq<nat>)
    requires |mapping| == Sum(layers) + remaining + 1
    requires forall k :: 0 <= k < |mapping| ==> Reaches(layers + [remaining + 1], k + 1, mapping[k])
    ensures Places(mapping, layers, remaining)
  {
    var w, n := layers + [remaining + 1], Sum(layers) + remaining;
    forall d | 0 <= d < |layers| ensures Landed(mapping, n, d) == layers[d] {
      LandedIsShare(w, mapping, n, d);
      SharesOf(layers, remaining + 1, n, d);
    }
    LandedIsShare(w, mapping, n, |layers|);
    ShareOfLast(layers, remaining + 1, n);
    LastReaches(layers, remaining + 1, n + 1);
    OneReaches(w, n + 1, |layers|, mapping[n]);
  }

  lemma LastReaches(layers: seq<nat>, last: nat, t: nat)
    requires Sum(layers) < t <= Sum(layers) + last
    ensures Reaches(layers + [last], t, |layers|)
  {
    BeforeSnoc(layers, last, |layers|);
    assert layers[..|layers|] == layers && (layers + [last])[..|layers| + 1] == layers + [last];
    SumSnoc(layers, last);
  }

  // ---------- historical weights ----------

  /** Weights that add up to the blocks, one short of the slots, in exact arithmetic. */
  function Exact(c: nat, n: nat): real
    requires n > 0
  {
    c as real / n as real
  }

  lemma CrossMultiply(a: nat, b: nat, c: nat, d: nat)
    requires b > 0 && d > 0
    ensures a as real / b as real > c as real / d as real <==> a * d > c * b
  {
    var x, y := a as real / b as real, c as real / d as real;
    assert x * (b as real) == a as real && y * (d as real) == c as real;
    assert x * (b as real) * (d as real) == (a * d) as real;
    assert y * (d as real) * (b as real) == (c * b) as real;
    var bd := (b as real) * (d as real);
    assert bd > 0.0;
    assert x * bd == (a * d) as real && y * bd == (c * b) as real;
  }

  /** c (n + 1) > k n, for counts up to n. */
  lemma CountCompare(c: nat, n: nat, k: nat)
    requires n > 0 && c <= n && k <= n
    ensures c * (n + 1) > k * n <==> c >= (if k == 0 then 1 else k)
  {
    assert c * (n + 1) == c * n + c;
    var e := c - k;
    assert c * n == k * n + e * n;
    if e >= 0 {
      assert e * n >= 0;
    } else {
      assert (-e - 1) * n >= 0;
    }
  }

  /** c/n > k/(n+1) says that c is at least k, and at least one. */
  lemma ExactCompare(c: nat, n: nat, k: nat)
    requires n > 0 && c <= n && k <= n
    ensures Exact(c, n) > Exact(k, n + 1) <==> c >= (if k == 0 then 1 else k)
  {
    CrossMultiply(c, n, k, n + 1);
    CountCompare(c, n, k);
  }

  ghost predicate ExactBounds(bounds: seq<real>, w: seq<nat>) {
    Sum(w) > 0 && |bounds| == |w| && forall d :: 0 <= d < |w| ==> bounds[d] == Exact(Before(w, d + 1), Sum(w))
  }

  ghost predicate ExactPoints(points: seq<real>, n: nat) {
    |points| == n + 1 && forall k :: 0 <= k < |points| ==> points[k] == Exact(k, n + 1)
  }

  /** Slot k lands on the device that reaches k, slot 0 on the first that has any weight. */
  lemma HistoricalReaches(w: seq<nat>, bounds: seq<real>, k: nat)
    requires ExactBounds(bounds, w) && k <= Sum(w)
    ensures Reaches(w, if k == 0 then 1 else k, UpperBound(bounds, Exact(k, Sum(w) + 1)))
  {
    var n, t := Sum(w), if k == 0 then 1 else k;
    var x := Exact(k, n + 1);
    var d := SomeoneReaches(w, t);
    forall i: nat | i < |w| ensures Separates(bounds, w, x, t, i) {
      SumGrows(w, i + 1, |w|);
      assert w[..|w|] == w;
      ExactCompare(Before(w, i + 1), n, k);
    }
    LandsWhereReached(w, bounds, x, t, d);
  }

  /** Block 0 goes to the first device with weight; block k to the device that reaches k. */
  lemma {:induction false} ShiftedLanded(w: seq<nat>, mapping: seq<nat>, blocks: nat, d: nat)
    requires 1 <= blocks <= |mapping| && d < |w| && Reaches(w, 1, mapping[0])
    requires forall k :: 1 <= k < blocks ==> Reaches(w, k, mapping[k])
    ensures Landed(mapping, blocks, d) == Share(w, blocks - 1, d) + if mapping[0] == d then 1 else 0
  {
    if blocks > 1 {
      ShiftedLanded(w, mapping, blocks - 1, d);
      ShareStep(w, blocks - 2, d);
      assert Reaches(w, blocks - 1, mapping[blocks - 1]);
      if Reaches(w, blocks - 1, d) {
        OneReaches(w, blocks - 1, d, mapping[blocks - 1]);
      }
    } else {
      assert Landed(mapping, 0, d) == 0;
    }
  }

  /** Every slot after the first lands where its number is reached. */
  ghost predicate Shifts(w: seq<nat>, mapping: seq<nat>) {
    mapping != [] && Reaches(w, 1, mapping[0]) && forall k :: 1 <= k < |mapping| ==> Reaches(w, k, mapping[k])
  }

  /** With weights that add up to the blocks, exact arithmetic gives such a mapping. */
  lemma HistoricalMapping(w: seq<nat>, bounds: seq<real>, points: seq<real>)
    requires ExactBounds(bounds, w) && ExactPoints(points, Sum(w))
    ensures Shifts(w, Mapping(bounds, points))
  {
    var mapping := Mapping(bounds, points);
    HistoricalReaches(w, bounds, 0);
    forall k | 1 <= k < |mapping| ensures Reaches(w, k, mapping[k]) {
      HistoricalReaches(w, bounds, k);
    }
  }

  /** As asked for, but for one block of the first n moved from the coordinator to `first`. */
  ghost predicate Shifted(mapping: seq<nat>, layers: seq<nat>, remaining: nat, first: nat, n: nat)
    requires |mapping| == n + 1
  {
    && (forall d :: 0 <= d < |layers| ==> Landed(mapping, n, d) == layers[d] + if d == first then 1 else 0)
    && Landed(mapping, n, |layers|) == remaining - 1 && mapping[n] == |layers|
  }

  lemma WorkerShift(layers: seq<nat>, remaining: nat, w: seq<nat>, mapping: seq<nat>, n: nat, d: nat)
    requires remaining >= 1 && w == layers + [remaining] && n == Sum(layers) + remaining && |mapping| == n + 1
    requires d < |layers| && Shifts(w, mapping)
    ensures Landed(mapping, n, d) == layers[d] + if d == mapping[0] then 1 else 0
  {
    SharesOf(layers, remaining, n - 1, d);
    ShiftsLand(w, mapping, n, d);
  }

  lemma ShiftsLand(w: seq<nat>, mapping: seq<nat>, n: nat, d: nat)
    requires 1 <= n < |mapping| && d < |w| && Shifts(w, mapping)
    ensures Landed(mapping, n, d) == Share(w, n - 1, d) + if mapping[0] == d then 1 else 0
  {
    ShiftedLanded(w, mapping, n, d);
  }

  lemma CoordinatorShift(layers: seq<nat>, remaining: nat, w: seq<nat>, mapping: seq<nat>, n: nat)
    requires remaining >= 1 && w == layers + [remaining] && n == Sum(layers) + remaining && |mapping| == n + 1 && Shifts(w, mapping)
    ensures Landed(mapping, n, |layers|) == remaining - 1 + if mapping[0] == |layers| then 1 else 0
    ensures mapping[n] == |layers|
  {
    ShiftsLand(w, mapping, n, |layers|);
    ShareOfLast(layers, remaining, n - 1);
    LastReaches(layers, remaining, n);
    assert Reaches(w, n, mapping[n]);
    OneReaches(w, n, |layers|, mapping[n]);
  }

  lemma FirstIsWorker(layers: seq<nat>, remaining: nat, d: nat)
    requires Sum(layers) >= 1 && Reaches(layers + [remaining], 1, d)
    ensures d < |layers|
  {
    BeforeSnoc(layers, remaining, |layers|);
    assert layers[..|layers|] == layers;
  }

  /** Then the first worker with weight has one block more, the coordinator one fewer and the output. */
  lemma HistoricalShiftsOne(layers: seq<nat>, remaining: nat, w: seq<nat>, mapping: seq<nat>, n: nat)
    requires remaining >= 1 && Sum(layers) >= 1 && w == layers + [remaining] && n == Sum(layers) + remaining
    requires |mapping| == n + 1 && Shifts(w, mapping)
    ensures mapping[0] < |layers| && Shifted(mapping, layers, remaining, mapping[0], n)
  {
    FirstIsWorker(layers, remaining, mapping[0]);
    forall d | 0 <= d < |layers| ensures Landed(mapping, n, d) == layers[d] + if d == mapping[0] then 1 else 0 {
      WorkerShift(layers, remaining, w, mapping, n, d);
    }
    CoordinatorShift(layers, remaining, w, mapping, n);
  }

  /** With no worker weight at all the coordinator keeps everything. */
  lemma HistoricalAlone(zeros: seq<nat>, remaining: nat, w: seq<nat>, mapping: seq<nat>)
    requires remaining >= 1 && Sum(zeros) == 0 && w == zeros + [remaining] && |mapping| == remaining + 1 && Shifts(w, mapping)
    ensures forall k :: 0 <= k <= remaining ==> mapping[k] == |zeros|
  {
    forall k | 0 <= k <= remaining ensures mapping[k] == |zeros| {
      var t := if k == 0 then 1 else k;
      LastReaches(zeros, remaining, t);
      assert Reaches(w, t, mapping[k]);
      OneReaches(w, t, |zeros|, mapping[k]);
    }
  }

  /** The loop's bounds under exact normalisation. */
  lemma ExactFromBounds(w: seq<nat>, n: nat, scale: nat -> real, bounds: seq<real>)
    requires n == Sum(w) > 0 && IsBounds(bounds, w, scale) && forall c: nat :: c <= n ==> scale(c) == Exact(c, n)
    ensures ExactBounds(bounds, w)
  {
    forall d | 0 <= d < |w| ensures bounds[d] == Exact(Before(w, d + 1), n) {
      SumGrows(w, d + 1, |w|);
      assert w[..|w|] == w;
    }
  }

  /** What the historical weights do: the first worker with weight gains a block and the coordinator loses one, or,
      without any worker weight, the coordinator has everything. */
  ghost predicate HistoricallyPlaced(layers: seq<nat>, remaining: nat, w: seq<nat>, mapping: seq<nat>, n: nat)
    requires |mapping| == n + 1
  {
    if Sum(layers) == 0 then forall k :: 0 <= k <= n ==> mapping[k] == |layers|
    else mapping[0] < |layers| && Reaches(w, 1, mapping[0]) && Shifted(mapping, layers, remaining, mapping[0], n)
  }

  lemma ShiftsPlace(layers: seq<nat>, remaining: nat, w: seq<nat>, mapping: seq<nat>, n: nat)
    requires remaining >= 1 && w == layers + [remaining] && n == Sum(layers) + remaining && |mapping| == n + 1 && Shifts(w, mapping)
    ensures HistoricallyPlaced(layers, remaining, w, mapping, n)
  {
    if Sum(layers) == 0 {
      HistoricalAlone(layers, remaining, w, mapping);
    } else {
      HistoricalShiftsOne(layers, remaining, w, mapping, n);
    }
  }

  /** The historical weights, from the accumulating loop to the placement. */
  lemma HistoricalPlacement(layers: seq<nat>, remaining: nat, w: seq<nat>, n: nat, scale: nat -> real, bounds: seq<real>, points: seq<real>)
    requires remaining >= 1 && w == layers + [remaining] && n == Sum(layers) + remaining
    requires IsBounds(bounds, w, scale) && (forall c: nat :: c <= n ==> scale(c) == Exact(c, n)) && ExactPoints(points, n)
    ensures HistoricallyPlaced(layers, remaining, w, Mapping(bounds, points), n)
  {
    SumSnoc(layers, remaining);
    ExactFromBounds(w, n, scale, bounds);
    HistoricalMapping(w, bounds, points);
    ShiftsPlace(layers, remaining, w, Mapping(bounds, points), n);
  }
}

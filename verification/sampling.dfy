/** The random draws of the generator, made explicit. A draw is any natural
    number; reducing it into the range faker would have drawn from gives
    every in-range value, so quantifying over draws quantifies over every
    possible outcome of the pseudo-random generator. */
module Sampling {

  /** `faker.datatype.boolean({ probability: percent / 100 })`: the roll,
      read as a uniform value in 0..99, falls under the percentage. */
  function Chance(percent: nat, roll: nat): bool {
    roll % 100 < percent
  }

  /** `faker.number.int({ min: lo, max: hi })`. */
  function Between(lo: int, hi: int, draw: nat): (r: int)
    requires lo <= hi
    ensures lo <= r <= hi
  {
    lo + draw % (hi - lo + 1)
  }

  /** `pick(arr)`: one element of a non-empty array. */
  function Pick<T>(pool: seq<T>, draw: nat): (r: T)
    requires |pool| > 0
    ensures r in pool
  {
    pool[PickIndex(|pool|, draw)]
  }

  /** The position `pick` takes in a pool of `n` elements. */
  function PickIndex(n: nat, draw: nat): (k: nat)
    requires n > 0
    ensures k < n
  {
    draw % n
  }

  /** Sum of a weight table. */
  function Total(w: seq<nat>): nat {
    if |w| == 0 then 0 else w[0] + Total(w[1..])
  }

  /** Sum of the first `k` weights: where entry `k`'s interval starts. */
  function Prefix(w: seq<nat>, k: nat): nat
    requires k <= |w|
  {
    if k == 0 then 0 else w[0] + Prefix(w[1..], k - 1)
  }

  /** `faker.helpers.weightedArrayElement`: walk the table accumulating
      weights and stop at the first entry whose running total exceeds the
      roll. The result is the entry whose interval holds the roll. */
  function WeightedIndex(w: seq<nat>, roll: nat): (k: nat)
    requires roll < Total(w)
    ensures k < |w|
    ensures Prefix(w, k) <= roll < Prefix(w, k) + w[k]
  {
    if roll < w[0] then 0 else 1 + WeightedIndex(w[1..], roll - w[0])
  }

  /** The intervals of distinct entries are disjoint, so the interval
      characterisation fixes the entry: any entry whose interval holds the
      roll is the one `WeightedIndex` returns. */
  lemma {:induction false} WeightedIndexUnique(w: seq<nat>, roll: nat, k: nat)
    requires k < |w|
    requires Prefix(w, k) <= roll < Prefix(w, k) + w[k]
    ensures roll < Total(w)
    ensures WeightedIndex(w, roll) == k
  {
    PrefixBelowTotal(w, k);
    if k > 0 {
      assert roll >= w[0];
      WeightedIndexUnique(w[1..], roll - w[0], k - 1);
    }
  }

  lemma {:induction false} PrefixBelowTotal(w: seq<nat>, k: nat)
    requires k < |w|
    ensures Prefix(w, k) + w[k] <= Total(w)
  {
    if k > 0 {
      PrefixBelowTotal(w[1..], k - 1);
    }
  }

  /** Exactly `w[k]` of the `Total(w)` equally likely rolls select entry
      `k`: this is what makes the weights the source lists probabilities. */
  lemma WeightedIndexCount(w: seq<nat>, k: nat)
    requires k < |w|
    ensures |RollsSelecting(w, k)| == w[k]
  {
    PrefixBelowTotal(w, k);
    var lo := Prefix(w, k);
    var hits := RollsSelecting(w, k);
    forall r: nat | r in Interval(lo, w[k])
      ensures r in hits
    {
      WeightedIndexUnique(w, r, k);
    }
    forall r: nat | r in hits
      ensures r in Interval(lo, w[k])
    {
      var j := WeightedIndex(w, r);
      assert Prefix(w, j) <= r < Prefix(w, j) + w[j];
    }
    assert hits == Interval(lo, w[k]);
    assert |hits| == w[k];
  }

  /** The rolls below the table total that select entry `k`. */
  function RollsSelecting(w: seq<nat>, k: nat): set<nat> {
    set r: nat | r < Total(w) && WeightedIndex(w, r) == k
  }

  /** The integers `lo .. lo + n - 1`. */
  function Interval(lo: nat, n: nat): (r: set<nat>)
    ensures |r| == n
    ensures forall x :: x in r <==> lo <= x < lo + n
  {
    if n == 0 then {} else Interval(lo, n - 1) + {lo + n - 1}
  }

  /** No value occurs twice. */
  predicate Distinct<T(==)>(s: seq<T>) {
    forall i, j :: 0 <= i < |s| && 0 <= j < |s| && i != j ==> s[i] != s[j]
  }

  /** Every value is an index below `n`. */
  predicate Below(s: seq<nat>, n: nat) {
    forall i :: 0 <= i < |s| ==> s[i] < n
  }

  /** The identity arrangement `[0, 1, ..., n-1]`. */
  function Iota(n: nat): (s: seq<nat>)
    ensures |s| == n
    ensures forall i :: 0 <= i < n ==> s[i] == i
  {
    seq(n, i => i)
  }

  /** Exchange two positions. */
  function Swap(a: seq<nat>, i: nat, j: nat): (r: seq<nat>)
    requires i < |a| && j < |a|
    ensures |r| == |a|
    ensures Distinct(a) ==> Distinct(r)
    ensures forall n: nat :: Below(a, n) ==> Below(r, n)
  {
    var r := a[i := a[j]][j := a[i]];
    assert forall p :: 0 <= p < |a| ==> r[p] == a[if p == i then j else if p == j then i else p];
    r
  }

  /** The loop of `faker.helpers.arrayElements(array, count)`: walking `i`
      down from the array length to `stop = length - count`, it swaps slot
      `i - 1` with a slot drawn from `0 .. i - 1`; the sample is the tail
      `a[stop..]`. Swaps keep an arrangement of distinct indices distinct. */
  function Shuffle(a: seq<nat>, i: nat, stop: nat, swaps: seq<nat>): (r: seq<nat>)
    requires stop <= i <= |a|
    requires |swaps| >= i - stop
    ensures |r| == |a|
    ensures Distinct(a) ==> Distinct(r)
    ensures forall n: nat :: Below(a, n) ==> Below(r, n)
    decreases i - stop
  {
    if i == stop then a
    else Shuffle(Swap(a, swaps[0] % i, i - 1), i - 1, stop, swaps[1..])
  }

  /** `arrayElements` over `0 .. n-1`: `count` distinct indices below `n`. */
  function SampleIndices(n: nat, count: nat, swaps: seq<nat>): (r: seq<nat>)
    requires count <= n
    requires |swaps| >= count
    ensures |r| == count
    ensures Distinct(r)
    ensures Below(r, n)
  {
    var arranged := Shuffle(Iota(n), n, n - count, swaps);
    assert Distinct(Iota(n)) && Below(Iota(n), n);
    arranged[n - count..]
  }

  /** The elements of a sequence without repeats are as many as its positions. */
  lemma {:induction false} DistinctCardinality<T>(s: seq<T>)
    requires Distinct(s)
    ensures |set x | x in s| == |s|
  {
    if |s| > 0 {
      assert Distinct(s[1..]);
      DistinctCardinality(s[1..]);
      assert (set x | x in s) == {s[0]} + (set x | x in s[1..]);
      assert s[0] !in (set x | x in s[1..]);
    }
  }
}

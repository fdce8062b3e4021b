/** `Array.prototype.filter` and the `filter(...).length` counts the
    source is built from. */
module Seqs {

  /** The elements satisfying `f`, in their original order. */
  function Filter<T(==)>(s: seq<T>, f: T -> bool): (r: seq<T>)
    ensures |r| <= |s|
    ensures forall i :: 0 <= i < |r| ==> r[i] in s && f(r[i])
    ensures forall i :: 0 <= i < |s| && f(s[i]) ==> s[i] in r
  {
    if |s| == 0 then []
    else if f(s[0]) then [s[0]] + Filter(s[1..], f)
    else Filter(s[1..], f)
  }

  /** `s.filter(f).length`. */
  function Count<T(==)>(s: seq<T>, f: T -> bool): nat {
    |Filter(s, f)|
  }

  lemma {:induction false} FilterAppend<T>(a: seq<T>, b: seq<T>, f: T -> bool)
    ensures Filter(a + b, f) == Filter(a, f) + Filter(b, f)
  {
    if |a| == 0 {
      assert a + b == b;
    } else {
      assert (a + b)[1..] == a[1..] + b;
      FilterAppend(a[1..], b, f);
    }
  }

  /** Counting distributes over concatenation. */
  lemma CountAppend<T>(a: seq<T>, b: seq<T>, f: T -> bool)
    ensures Count(a + b, f) == Count(a, f) + Count(b, f)
  {
    FilterAppend(a, b, f);
  }

  /** Counting a one-element sequence. */
  lemma CountSingle<T>(x: T, f: T -> bool)
    ensures Count([x], f) == if f(x) then 1 else 0
  {
    assert [x][1..] == [];
  }

  /** Counting a sequence extended by one element. */
  lemma CountSnoc<T>(s: seq<T>, x: T, f: T -> bool)
    ensures Count(s + [x], f) == Count(s, f) + if f(x) then 1 else 0
  {
    CountAppend(s, [x], f);
    CountSingle(x, f);
  }

  /** Two predicates that agree on every element count the same. */
  lemma {:induction false} CountCongruent<T>(s: seq<T>, f: T -> bool, g: T -> bool)
    requires forall i :: 0 <= i < |s| ==> f(s[i]) == g(s[i])
    ensures Count(s, f) == Count(s, g)
  {
    if |s| > 0 {
      CountCongruent(s[1..], f, g);
    }
  }

  /** Two sequences that agree position by position on their predicates
      count alike. */
  lemma {:induction false} CountAgree<T, U>(a: seq<T>, f: T -> bool, b: seq<U>, g: U -> bool)
    requires |a| == |b|
    requires forall i :: 0 <= i < |a| ==> f(a[i]) == g(b[i])
    ensures Count(a, f) == Count(b, g)
  {
    if |a| > 0 {
      CountAgree(a[1..], f, b[1..], g);
    }
  }

  /** Two sequences where `g` holds at every position where `f` does: `f`
      counts no more. */
  lemma {:induction false} CountBelow<T, U>(a: seq<T>, f: T -> bool, b: seq<U>, g: U -> bool)
    requires |a| == |b|
    requires forall i :: 0 <= i < |a| ==> f(a[i]) ==> g(b[i])
    ensures Count(a, f) <= Count(b, g)
  {
    if |a| > 0 {
      CountBelow(a[1..], f, b[1..], g);
    }
  }

  /** Nothing is counted exactly when nothing satisfies the predicate. */
  lemma CountZero<T>(s: seq<T>, f: T -> bool)
    ensures Count(s, f) == 0 <==> forall i :: 0 <= i < |s| ==> !f(s[i])
  {
    if Count(s, f) > 0 {
      var x := Filter(s, f)[0];
      assert x in s && f(x);
    }
  }

  /** A pointwise weaker predicate counts no more. */
  lemma {:induction false} CountMonotone<T>(s: seq<T>, f: T -> bool, g: T -> bool)
    requires forall i :: 0 <= i < |s| ==> f(s[i]) ==> g(s[i])
    ensures Count(s, f) <= Count(s, g)
  {
    if |s| > 0 {
      CountMonotone(s[1..], f, g);
    }
  }

  /** Elements satisfying `f` or `g` are counted by the two counts less the overlap. */
  lemma {:induction false} CountUnion<T>(s: seq<T>, f: T -> bool, g: T -> bool)
    ensures Count(s, x => f(x) || g(x)) + Count(s, x => f(x) && g(x)) == Count(s, f) + Count(s, g)
  {
    if |s| > 0 {
      CountUnion(s[1..], f, g);
    }
  }

  /** Number of positions of `s` holding `x`. */
  function Occurrences<T(==)>(s: seq<T>, x: T): nat {
    Count(s, y => y == x)
  }

  /** A value occurring nowhere else occurs at most once. */
  lemma {:induction false} OccurrencesOfDistinct<T>(s: seq<T>, x: T)
    requires forall i, j :: 0 <= i < |s| && 0 <= j < |s| && i != j ==> s[i] != s[j]
    ensures Occurrences(s, x) == if x in s then 1 else 0
  {
    if |s| > 0 {
      OccurrencesOfDistinct(s[1..], x);
      if s[0] == x {
        assert x !in s[1..];
      }
    }
  }

  /** Filtering keeps distinct elements distinct. */
  lemma {:induction false} FilterDistinct<T>(s: seq<T>, f: T -> bool)
    requires forall i, j :: 0 <= i < |s| && 0 <= j < |s| && i != j ==> s[i] != s[j]
    ensures forall i, j :: 0 <= i < |Filter(s, f)| && 0 <= j < |Filter(s, f)| && i != j ==> Filter(s, f)[i] != Filter(s, f)[j]
  {
    if |s| > 0 {
      FilterDistinct(s[1..], f);
      var rest := Filter(s[1..], f);
      if f(s[0]) {
        forall i | 0 <= i < |rest|
          ensures rest[i] != s[0]
        {
          var j :| 0 <= j < |s[1..]| && s[1..][j] == rest[i];
          assert s[j + 1] == rest[i];
        }
        var r := Filter(s, f);
        assert r == [s[0]] + rest;
        forall i, j | 0 <= i < |r| && 0 <= j < |r| && i != j
          ensures r[i] != r[j]
        {
          if i > 0 && j > 0 {
            assert r[i] == rest[i - 1] && r[j] == rest[j - 1];
          } else if i == 0 {
            assert r[j] == rest[j - 1];
          } else {
            assert r[i] == rest[i - 1];
          }
        }
      }
    }
  }
}

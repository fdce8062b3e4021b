/** The deduplication key of a chat thread during generation:
    `[a, b].sort().join('-') + ':' + (productId ?? 'none')` over the
    canonical ids of the two participants. */
module ThreadKeys {
  import opened Ids

  /** The order JavaScript's default `sort` puts strings in: lexicographic
      on characters. */
  predicate StrLe(a: string, b: string)
    decreases |a|
  {
    if |a| == 0 then true
    else if |b| == 0 then false
    else if a[0] != b[0] then a[0] < b[0]
    else StrLe(a[1..], b[1..])
  }

  lemma {:induction false} StrLeTotal(a: string, b: string)
    ensures StrLe(a, b) || StrLe(b, a)
    decreases |a|
  {
    if |a| > 0 && |b| > 0 && a[0] == b[0] {
      StrLeTotal(a[1..], b[1..]);
    }
  }

  lemma {:induction false} StrLeAntisymmetric(a: string, b: string)
    requires StrLe(a, b) && StrLe(b, a)
    ensures a == b
    decreases |a|
  {
    if |a| > 0 {
      StrLeAntisymmetric(a[1..], b[1..]);
      assert a == [a[0]] + a[1..] && b == [b[0]] + b[1..];
    }
  }

  /** `[a, b].sort().join('-')`. */
  function SortedJoin(a: string, b: string): string {
    if StrLe(a, b) then a + "-" + b else b + "-" + a
  }

  /** The key a thread between `a` and `b` about `context` is registered under. */
  function ThreadKey(a: string, b: string, context: string): string {
    SortedJoin(a, b) + ":" + context
  }

  /** The context part of the key of a thread with no product. */
  const NO_PRODUCT: string := "none"

  /** The key does not depend on which participant comes first. */
  lemma ThreadKeySymmetric(a: string, b: string, context: string)
    ensures ThreadKey(a, b, context) == ThreadKey(b, a, context)
  {
    StrLeTotal(a, b);
    if StrLe(a, b) && StrLe(b, a) {
      StrLeAntisymmetric(a, b);
    }
  }

  /** Holds neither of the two separators the key uses. */
  predicate SeparatorFree(s: string) {
    '-' !in s && ':' !in s
  }

  lemma DigitsAreSeparatorFree(s: string)
    requires IsDigits(s)
    ensures SeparatorFree(s)
  {
  }

  /** Position of the first occurrence of `c` in `s`. */
  function FirstIndex(s: string, c: char): nat
    requires c in s
  {
    if s[0] == c then 0 else 1 + FirstIndex(s[1..], c)
  }

  lemma {:induction false} FirstIndexAfter(x: string, y: string, sep: char)
    requires sep !in x
    ensures FirstIndex(x + [sep] + y, sep) == |x|
  {
    if |x| > 0 {
      assert (x + [sep] + y)[1..] == x[1..] + [sep] + y;
      FirstIndexAfter(x[1..], y, sep);
    }
  }

  /** Splitting at the first occurrence of a separator is unambiguous. */
  lemma SplitAtSeparator(x1: string, y1: string, x2: string, y2: string, sep: char)
    requires sep !in x1 && sep !in x2
    requires x1 + [sep] + y1 == x2 + [sep] + y2
    ensures x1 == x2 && y1 == y2
  {
    var w := x1 + [sep] + y1;
    FirstIndexAfter(x1, y1, sep);
    FirstIndexAfter(x2, y2, sep);
    assert x1 == w[..|x1|] && x2 == w[..|x2|];
    assert y1 == w[|x1| + 1..] && y2 == w[|x2| + 1..];
  }

  /** Over separator-free parts (decimal ids and `none`) the key determines
      the unordered pair of participants and the context. */
  lemma ThreadKeyInjective(a: string, b: string, c: string, a': string, b': string, c': string)
    requires SeparatorFree(a) && SeparatorFree(b) && SeparatorFree(c)
    requires SeparatorFree(a') && SeparatorFree(b') && SeparatorFree(c')
    requires ThreadKey(a, b, c) == ThreadKey(a', b', c')
    ensures c == c'
    ensures (a == a' && b == b') || (a == b' && b == a')
  {
    var j, j' := SortedJoin(a, b), SortedJoin(a', b');
    assert ':' !in j by {
      assert j == a + "-" + b || j == b + "-" + a;
    }
    assert ':' !in j' by {
      assert j' == a' + "-" + b' || j' == b' + "-" + a';
    }
    SplitAtSeparator(j, c, j', c', ':');
    var lo, hi := if StrLe(a, b) then a else b, if StrLe(a, b) then b else a;
    var lo', hi' := if StrLe(a', b') then a' else b', if StrLe(a', b') then b' else a';
    assert j == lo + "-" + hi && j' == lo' + "-" + hi';
    SplitAtSeparator(lo, hi, lo', hi', '-');
  }
}

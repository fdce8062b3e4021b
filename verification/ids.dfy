/** Entity identifiers. The source types every id as `string | number` and
    compares ids through `String(x)`; `Canon` is that string form. */
module Ids {

  /** An identifier as the source stores it: a (non-negative integer) number or a string. */
  datatype Id = Num(n: nat) | Str(s: string)

  predicate IsDigit(c: char) {
    '0' <= c <= '9'
  }

  predicate IsDigits(s: string) {
    forall i :: 0 <= i < |s| ==> IsDigit(s[i])
  }

  function DigitChar(d: nat): (c: char)
    requires d < 10
    ensures IsDigit(c)
  {
    (48 + d) as char
  }

  function DigitValue(c: char): (d: nat)
    requires IsDigit(c)
    ensures d < 10
  {
    c as int - 48
  }

  /** JavaScript's `String(n)` for a non-negative integer: its decimal digits. */
  function NatToString(n: nat): (s: string)
    ensures 1 <= |s|
    ensures IsDigits(s)
    decreases n
  {
    if n < 10 then [DigitChar(n)] else NatToString(n / 10) + [DigitChar(n % 10)]
  }

  /** Reads a string of decimal digits back as a number. */
  function ParseNat(s: string): nat
    requires IsDigits(s)
    decreases |s|
  {
    if |s| == 0 then 0 else 10 * ParseNat(s[..|s| - 1]) + DigitValue(s[|s| - 1])
  }

  /** Decimal rendering is undone by parsing. */
  lemma {:induction false} ParseNatToString(n: nat)
    ensures ParseNat(NatToString(n)) == n
    decreases n
  {
    var s := NatToString(n);
    if n < 10 {
      assert s[..|s| - 1] == [];
    } else {
      ParseNatToString(n / 10);
      assert s[..|s| - 1] == NatToString(n / 10);
    }
  }

  /** Two numbers with the same decimal rendering are equal. */
  lemma NatToStringInjective(a: nat, b: nat)
    ensures NatToString(a) == NatToString(b) <==> a == b
  {
    if NatToString(a) == NatToString(b) {
      ParseNatToString(a);
      ParseNatToString(b);
    }
  }

  /** A number of at most three digits renders to at most three characters. */
  lemma {:induction false} NatToStringShort(n: nat)
    requires n <= 999
    ensures |NatToString(n)| <= 3
  {
    if n >= 10 {
      if n / 10 >= 10 {
        assert NatToString(n / 10) == NatToString(n / 100) + [DigitChar(n / 10 % 10)];
      }
    }
  }

  /** The canonical string form `String(id)` used by every lookup. */
  function Canon(id: Id): string {
    match id
    case Num(n) => NatToString(n)
    case Str(s) => s
  }

  /** Canonical equality is the same as equality for numeric ids, but a
      number and its decimal string are canonically equal. */
  lemma CanonOfNum(a: nat, b: nat)
    ensures Canon(Num(a)) == Canon(Num(b)) <==> a == b
    ensures Canon(Num(a)) == Canon(Str(NatToString(a)))
  {
    NatToStringInjective(a, b);
  }

  /** Ids such as `t_12`, a fixed prefix followed by a counter, are distinct for distinct counters. */
  lemma PrefixedCounterInjective(prefix: string, a: nat, b: nat)
    ensures Str(prefix + NatToString(a)) == Str(prefix + NatToString(b)) <==> a == b
  {
    if prefix + NatToString(a) == prefix + NatToString(b) {
      assert NatToString(a) == (prefix + NatToString(a))[|prefix|..];
      assert NatToString(b) == (prefix + NatToString(b))[|prefix|..];
      NatToStringInjective(a, b);
    }
  }

  /** No two positions of `s` hold canonically equal ids. */
  predicate CanonDistinct(s: seq<Id>) {
    forall i, j :: 0 <= i < |s| && 0 <= j < |s| && i != j ==> Canon(s[i]) != Canon(s[j])
  }

  /** Ids numbered consecutively from `base` are canonically distinct and
      render to digit strings. */
  lemma NumberedIdsDistinct(ids: seq<Id>, base: nat)
    requires forall i :: 0 <= i < |ids| ==> ids[i] == Num(i + base)
    ensures CanonDistinct(ids)
    ensures forall i :: 0 <= i < |ids| ==> IsDigits(Canon(ids[i]))
  {
    forall i, j | 0 <= i < |ids| && 0 <= j < |ids| && i != j
      ensures Canon(ids[i]) != Canon(ids[j])
    {
      CanonOfNum(i + base, j + base);
    }
  }

  /** Inside a canonically distinct collection, canonical equality is equality. */
  lemma CanonEqInside(s: seq<Id>, a: Id, b: Id)
    requires CanonDistinct(s)
    requires a in s && b in s
    ensures Canon(a) == Canon(b) <==> a == b
  {
    if Canon(a) == Canon(b) {
      var i :| 0 <= i < |s| && s[i] == a;
      var j :| 0 <= j < |s| && s[j] == b;
    }
  }
}

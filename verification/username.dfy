/** `makeUsername` (src/mock/mockDb.ts): lower-case `first.last`, fold the
    Turkish letters to ASCII, drop everything outside `[a-z0-9.]`, prefix
    `@` and append a number in 0..999. */
module Username {
  import opened Ids
  import opened Sampling

  /** `toLowerCase` on the characters a Turkish name holds: ASCII and
      Latin-1 capitals, and the Turkish capitals Ğ, Ş and dotted İ (which
      lowers to `i` followed by the combining dot U+0307). The KELVIN SIGN
      U+212A lowers to ASCII `k`. Every other character is left as it is:
      its lower-case form holds nothing in `[a-z0-9.]`, so the filter
      drops it either way. */
  function LowerChar(c: char): string {
    if 'A' <= c <= 'Z' || ('À' <= c <= 'Þ' && c != '×') then [(c as int + 32) as char]
    else if c == 'İ' then "i̇"
    else if c == '\U{212A}' then "k"
    else if c == 'Ğ' || c == 'Ş' then [(c as int + 1) as char]
    else [c]
  }

  function Lower(s: string): string {
    if |s| == 0 then "" else LowerChar(s[0]) + Lower(s[1..])
  }

  /** The six `replaceAll` calls: ı, ş, ğ, ç, ö, ü to i, s, g, c, o, u. */
  function FoldChar(c: char): char {
    if c == 'ı' then 'i'
    else if c == 'ş' then 's'
    else if c == 'ğ' then 'g'
    else if c == 'ç' then 'c'
    else if c == 'ö' then 'o'
    else if c == 'ü' then 'u'
    else c
  }

  function Fold(s: string): (r: string)
    ensures |r| == |s|
    ensures forall i :: 0 <= i < |s| ==> r[i] == FoldChar(s[i])
  {
    seq(|s|, i requires 0 <= i < |s| => FoldChar(s[i]))
  }

  /** The characters `/[^a-z0-9.]/g` leaves in place. */
  predicate Allowed(c: char) {
    'a' <= c <= 'z' || '0' <= c <= '9' || c == '.'
  }

  /** `replace(/[^a-z0-9.]/g, '')`. */
  function KeepAllowed(s: string): (r: string)
    ensures forall i :: 0 <= i < |r| ==> Allowed(r[i])
    ensures |r| <= |s|
  {
    if |s| == 0 then ""
    else if Allowed(s[0]) then [s[0]] + KeepAllowed(s[1..])
    else KeepAllowed(s[1..])
  }

  /** One name, normalised. */
  function NamePart(name: string): string {
    KeepAllowed(Fold(Lower(name)))
  }

  /** The part of the user name between `@` and the number. */
  function UsernameBase(firstName: string, lastName: string): string {
    KeepAllowed(Fold(Lower(firstName + "." + lastName)))
  }

  /** `makeUsername(firstName, lastName)` with the number drawn from 0..999. */
  function MakeUsername(firstName: string, lastName: string, numberDraw: nat): (r: string)
    ensures |r| >= 3 && r[0] == '@'
    ensures forall i :: 1 <= i < |r| ==> Allowed(r[i])
  {
    var digits := NatToString(Between(0, 999, numberDraw));
    UsernameBaseSplits(firstName, lastName);
    "@" + UsernameBase(firstName, lastName) + digits
  }

  lemma {:induction false} LowerAppend(a: string, b: string)
    ensures Lower(a + b) == Lower(a) + Lower(b)
  {
    if |a| > 0 {
      assert (a + b)[1..] == a[1..] + b;
      LowerAppend(a[1..], b);
    } else {
      assert a + b == b;
    }
  }

  lemma {:induction false} KeepAllowedAppend(a: string, b: string)
    ensures KeepAllowed(a + b) == KeepAllowed(a) + KeepAllowed(b)
  {
    if |a| > 0 {
      assert (a + b)[1..] == a[1..] + b;
      KeepAllowedAppend(a[1..], b);
    } else {
      assert a + b == b;
    }
  }

  /** The base is the normalised first name, the dot, and the normalised
      last name: the separator always survives the character filter. */
  lemma UsernameBaseSplits(firstName: string, lastName: string)
    ensures UsernameBase(firstName, lastName) == NamePart(firstName) + "." + NamePart(lastName)
  {
    var lf, ll := Lower(firstName), Lower(lastName);
    calc {
      Lower(firstName + "." + lastName);
      { assert firstName + "." + lastName == firstName + ("." + lastName);
        LowerAppend(firstName, "." + lastName); }
      lf + Lower("." + lastName);
      { LowerAppend(".", lastName); assert Lower(".") == "."; }
      lf + ("." + ll);
    }
    var ff, fl := Fold(lf), Fold(ll);
    assert Fold(lf + ("." + ll)) == ff + ("." + fl);
    calc {
      KeepAllowed(ff + ("." + fl));
      { KeepAllowedAppend(ff, "." + fl); }
      KeepAllowed(ff) + KeepAllowed("." + fl);
      { KeepAllowedAppend(".", fl); assert KeepAllowed(".") == "."; }
      KeepAllowed(ff) + ("." + KeepAllowed(fl));
    }
  }

  /** A name already written in lower-case ASCII letters and digits is kept verbatim. */
  lemma {:induction false} NamePartKeepsAscii(name: string)
    requires forall i :: 0 <= i < |name| ==> 'a' <= name[i] <= 'z' || '0' <= name[i] <= '9'
    ensures NamePart(name) == name
  {
    if |name| > 0 {
      NamePartKeepsAscii(name[1..]);
      LowerAppend([name[0]], name[1..]);
      assert [name[0]] + name[1..] == name;
      assert Lower(name) == [name[0]] + Lower(name[1..]);
      assert Fold(Lower(name)) == [name[0]] + Fold(Lower(name[1..]));
      assert ([name[0]] + Fold(Lower(name[1..])))[1..] == Fold(Lower(name[1..]));
    }
  }

  /** An example on fixed inputs, not a property over all names: the
      Turkish letters, capital or small, come out as their ASCII base
      letters, dotted capital İ loses its combining dot, and the KELVIN
      SIGN comes out as `k`. */
  lemma TurkishLettersFold()
    ensures NamePart("Ç") == "c" && NamePart("ç") == "c"
    ensures NamePart("Ğ") == "g" && NamePart("ğ") == "g"
    ensures NamePart("İ") == "i" && NamePart("ı") == "i" && NamePart("I") == "i"
    ensures NamePart("Ö") == "o" && NamePart("ö") == "o"
    ensures NamePart("Ş") == "s" && NamePart("ş") == "s"
    ensures NamePart("Ü") == "u" && NamePart("ü") == "u"
    ensures NamePart("\U{212A}") == "k"
  {
    assert Lower("İ") == "i̇";
    assert Fold("i̇") == "i̇";
    assert KeepAllowed("i̇") == "i";
  }

  /** The base holds only allowed characters and keeps the separator. */
  lemma BaseShape(firstName: string, lastName: string)
    ensures forall i :: 0 <= i < |UsernameBase(firstName, lastName)| ==> Allowed(UsernameBase(firstName, lastName)[i])
    ensures '.' in UsernameBase(firstName, lastName)
  {
    UsernameBaseSplits(firstName, lastName);
    assert UsernameBase(firstName, lastName)[|NamePart(firstName)|] == '.';
  }

  /** Every generated user name is `@`, then a base over `[a-z0-9.]` that
      holds the first/last separator, then the decimal form of a number in
      0..999. */
  lemma UsernameShape(firstName: string, lastName: string, numberDraw: nat)
    ensures exists base: string, digits: string ::
      && MakeUsername(firstName, lastName, numberDraw) == "@" + base + digits
      && (forall i :: 0 <= i < |base| ==> Allowed(base[i]))
      && '.' in base
      && IsDigits(digits) && 1 <= |digits| <= 3 && ParseNat(digits) <= 999
  {
    var n := Between(0, 999, numberDraw);
    var base := UsernameBase(firstName, lastName);
    var digits := NatToString(n);
    BaseShape(firstName, lastName);
    NatToStringShort(n);
    ParseNatToString(n);
    assert MakeUsername(firstName, lastName, numberDraw) == "@" + base + digits;
  }
}

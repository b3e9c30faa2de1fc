/**
 * The pieces of Go's `strings`, `strconv` and `fmt` packages that the environ
 * package relies on: decimal rendering of integers and booleans, prefixes,
 * joining, and cutting a string at the first occurrence of a character.
 */
module Text {
  import opened Wrappers

  /** The largest value of Go's `int64`. */
  const MaxInt64: int := 0x7fff_ffff_ffff_ffff

  /** Go's `int64`: the width of every integer field of the build records. */
  type int64 = x: int | -0x8000_0000_0000_0000 <= x <= 0x7fff_ffff_ffff_ffff

  /** An ASCII decimal digit (what `\d` matches in Go's regexp syntax). */
  predicate IsDigit(c: char)
  {
    '0' <= c <= '9'
  }

  predicate AllDigits(s: string)
  {
    forall i :: 0 <= i < |s| ==> IsDigit(s[i])
  }

  function DigitValue(c: char): (d: nat)
    requires IsDigit(c)
    ensures d < 10
  {
    c as int - '0' as int
  }

  function DigitChar(d: nat): (c: char)
    requires d < 10
    ensures IsDigit(c) && DigitValue(c) == d
  {
    (d + '0' as int) as char
  }

  /** A decimal numeral as `fmt` prints one: non-empty, digits only, no leading zero. */
  predicate Canonical(s: string)
  {
    |s| > 0 && AllDigits(s) && (s[0] == '0' ==> |s| == 1)
  }

  /** The value of a string of digits, read most significant digit first. */
  function DecimalValue(s: string): nat
    requires AllDigits(s)
  {
    if s == [] then 0 else 10 * DecimalValue(s[..|s| - 1]) + DigitValue(s[|s| - 1])
  }

  /** The decimal numeral of `n`; reading it back gives `n`. */
  function NatToString(n: nat): (s: string)
    ensures Canonical(s) && DecimalValue(s) == n
  {
    if n < 10 then
      var s := [DigitChar(n)];
      assert s[..0] == [];
      s
    else
      var prefix := NatToString(n / 10);
      var s := prefix + [DigitChar(n % 10)];
      assert s[..|s| - 1] == prefix;
      assert prefix[..0] == [];
      s
  }

  lemma {:induction false} DecimalValuePositive(s: string)
    requires AllDigits(s) && |s| > 0 && s[0] != '0'
    ensures DecimalValue(s) >= 1
  {
    if |s| > 1 {
      var p := s[..|s| - 1];
      assert p[0] == s[0];
      DecimalValuePositive(p);
    } else {
      assert s[..0] == [];
    }
  }

  /** Every canonical numeral is the rendering of its own value. */
  lemma {:induction false} CanonicalRoundTrip(s: string)
    requires Canonical(s)
    ensures NatToString(DecimalValue(s)) == s
  {
    if |s| == 1 {
      assert s[..0] == [];
      assert s == [DigitChar(DigitValue(s[0]))];
    } else {
      var p, last := s[..|s| - 1], s[|s| - 1];
      CanonicalFront(s);
      CanonicalRoundTrip(p);
      AppendDigit(p, last);
      assert s == p + [last];
    }
  }

  /** Dropping the last digit of a longer canonical numeral leaves one that starts with the same non-zero digit. */
  lemma CanonicalFront(s: string)
    requires Canonical(s) && |s| > 1
    ensures Canonical(s[..|s| - 1]) && s[..|s| - 1][0] != '0'
  {
    assert s[..|s| - 1][0] == s[0];
  }

  /** A digit appended to a numeral that round-trips gives one that round-trips too. */
  lemma AppendDigit(p: string, c: char)
    requires Canonical(p) && p[0] != '0' && IsDigit(c)
    requires NatToString(DecimalValue(p)) == p
    ensures NatToString(DecimalValue(p + [c])) == p + [c]
  {
    DecimalAppend(p, c);
    DecimalValuePositive(p);
    NatToStringStep(DecimalValue(p), DigitValue(c));
    assert DigitChar(DigitValue(c)) == c;
  }

  /** An appended digit is the least significant one. */
  lemma DecimalAppend(p: string, c: char)
    requires AllDigits(p) && IsDigit(c)
    ensures AllDigits(p + [c]) && DecimalValue(p + [c]) == 10 * DecimalValue(p) + DigitValue(c)
  {
    var t := p + [c];
    assert t[..|t| - 1] == p && t[|t| - 1] == c;
  }

  /** Appending a digit to a positive number's numeral renders ten times it plus the digit. */
  lemma NatToStringStep(m: nat, d: nat)
    requires m >= 1 && d < 10
    ensures NatToString(10 * m + d) == NatToString(m) + [DigitChar(d)]
  {
    var n := 10 * m + d;
    assert n / 10 == m && n % 10 == d;
  }

  /** `fmt.Sprint` of an integer: a minus sign for negative values, then the numeral. */
  function Itoa(n: int): string
  {
    if n < 0 then "-" + NatToString(-n) else NatToString(n)
  }

  /** `s` reads back as `n`: a minus sign exactly for negative `n`, then the canonical numeral of its magnitude. */
  predicate SignedNumeral(s: string, n: int)
  {
    if n >= 0 then Canonical(s) && DecimalValue(s) == n
    else |s| > 1 && s[0] == '-' && Canonical(s[1..]) && DecimalValue(s[1..]) == -n
  }

  /** The rendering of an integer reads back as that integer and holds only digits and a minus sign. */
  lemma ItoaSigned(n: int)
    ensures SignedNumeral(Itoa(n), n)
    ensures forall i :: 0 <= i < |Itoa(n)| ==> Itoa(n)[i] == '-' || IsDigit(Itoa(n)[i])
  {
    if n < 0 {
      assert Itoa(n)[1..] == NatToString(-n);
    }
  }

  /** The rendering is "0" exactly for zero, so a back-filled non-zero clock never shows as "0". */
  lemma ItoaZero(n: int)
    ensures Itoa(n) == "0" <==> n == 0
  {
    if n == 0 {
      assert NatToString(0) == [DigitChar(0)];
    } else if n < 0 {
      assert Itoa(n)[0] == '-';
    }
  }

  /** `fmt.Sprint` of a boolean. */
  function BoolString(b: bool): string
  {
    if b then "true" else "false"
  }

  /** `strings.HasPrefix`. */
  predicate HasPrefix(s: string, prefix: string)
  {
    |prefix| <= |s| && s[..|prefix|] == prefix
  }

  /** `strings.TrimPrefix`: drops `prefix` once when `s` starts with it. */
  function TrimPrefix(s: string, prefix: string): (r: string)
    ensures HasPrefix(s, prefix) ==> s == prefix + r
    ensures !HasPrefix(s, prefix) ==> r == s
  {
    if HasPrefix(s, prefix) then s[|prefix|..] else s
  }

  /** `strings.Join`. */
  function Join(parts: seq<string>, sep: string): string
  {
    if parts == [] then ""
    else if |parts| == 1 then parts[0]
    else parts[0] + sep + Join(parts[1..], sep)
  }

  /** Position of the first `c` in `s`, or `|s|` when `c` does not occur. */
  function IndexOf(s: string, c: char): (i: nat)
    ensures i <= |s|
    ensures forall j :: 0 <= j < i ==> s[j] != c
    ensures i < |s| ==> s[i] == c
  {
    if s == [] then 0 else if s[0] == c then 0 else 1 + IndexOf(s[1..], c)
  }

  /**
   * `strings.SplitN(s, c, 2)`: the text before the first `c` and, when `c`
   * occurs, the text after it.
   */
  function Cut(s: string, c: char): (r: (string, Option<string>))
    ensures r.1.None? <==> c !in s
    ensures r.1.None? ==> r.0 == s
    ensures r.1.Some? ==> s == r.0 + [c] + r.1.value && c !in r.0
  {
    var i := IndexOf(s, c);
    if i == |s| then (s, None)
    else
      assert s == s[..i] + [c] + s[i + 1..];
      (s[..i], Some(s[i + 1..]))
  }

  /** Cutting finds the first occurrence: a `c`-free head is recovered exactly. */
  lemma CutAt(a: string, c: char, b: string)
    requires c !in a
    ensures Cut(a + [c] + b, c) == (a, Some(b))
  {
    var s := a + [c] + b;
    var r := Cut(s, c);
    assert s[|a|] == c;
    assert r.1.Some?;
    assert r.0 == s[..|a|] == a;
    assert r.1.value == s[|a| + 1..] == b;
  }

  /** The separator and the rest that `Cut` removed: nothing when there was no separator. */
  function Rejoin(c: char, rest: Option<string>): string
  {
    match rest
    case None => ""
    case Some(r) => [c] + r
  }

  /** Cutting loses nothing: the head and the rejoined rest make up the original. */
  lemma CutRejoin(s: string, c: char)
    ensures s == Cut(s, c).0 + Rejoin(c, Cut(s, c).1)
  {
  }

  /** Cutting a `c`-free head followed by the rejoined rest gives both back. */
  lemma RejoinCut(a: string, c: char, rest: Option<string>)
    requires c !in a
    ensures Cut(a + Rejoin(c, rest), c) == (a, rest)
  {
    if rest.Some? {
      assert a + Rejoin(c, rest) == a + [c] + rest.value;
      CutAt(a, c, rest.value);
    } else {
      assert a + Rejoin(c, rest) == a;
    }
  }

  /** A string starts with any of its prefixes. */
  lemma PrefixOfConcat(a: string, b: string)
    ensures HasPrefix(a + b, a)
  {
    assert (a + b)[..|a|] == a;
  }

  lemma ConcatAssoc(a: string, b: string, c: string)
    ensures a + b + c == a + (b + c)
  {
  }

  /** Regrouping of a dotted triple, as two cuts at `.` see it. */
  lemma DottedTriple(a: string, b: string, c: string)
    ensures a + "." + b + "." + c == a + ['.'] + (b + ['.'] + c)
  {
  }

  /** No character other than a digit occurs in a string of digits. */
  lemma DigitsExclude(s: string, c: char)
    requires AllDigits(s) && !IsDigit(c)
    ensures c !in s
  {
  }
}

/**
 * Decimal rendering and parsing of integers, as Python's `str(int)` and
 * `int(str)` do them, and splitting of query strings on a separator.
 */
module Text {
  import opened Wrappers

  predicate IsDigit(c: char) { '0' <= c <= '9' }

  predicate AllDigits(s: string) { forall i :: 0 <= i < |s| ==> IsDigit(s[i]) }

  function DigitChar(d: nat): (c: char)
    requires d < 10
    ensures IsDigit(c) && c as int - '0' as int == d
  {
    ('0' as int + d) as char
  }

  function DigitValue(c: char): (d: nat)
    requires IsDigit(c)
    ensures d < 10 && DigitChar(d) == c
  {
    c as int - '0' as int
  }

  /** `str(n)` for a non-negative integer: decimal digits, no leading zero. */
  function NatToString(n: nat): (s: string)
    ensures |s| >= 1 && AllDigits(s)
    ensures n < 10 <==> |s| == 1
    ensures s[0] == '0' ==> n == 0
    decreases n
  {
    if n < 10 then [DigitChar(n)] else NatToString(n / 10) + [DigitChar(n % 10)]
  }

  /** `str(i)` for any integer: a minus sign before the digits of |i| when negative. */
  function IntToString(i: int): (s: string)
    ensures |s| >= 1
    ensures (s[0] == '-') <==> i < 0
  {
    if i < 0 then "-" + NatToString(-i) else NatToString(i)
  }

  /** The value of a string of decimal digits (the empty string reads as 0). */
  function DigitsValue(s: string): nat
    requires AllDigits(s)
  {
    if |s| == 0 then 0 else DigitsValue(s[..|s| - 1]) * 10 + DigitValue(s[|s| - 1])
  }

  /** A non-empty run of ASCII digits, read as a natural number. */
  function ParseNat(s: string): (r: Option<nat>)
    ensures r.Some? <==> |s| >= 1 && AllDigits(s)
  {
    if |s| >= 1 && AllDigits(s) then Some(DigitsValue(s)) else None
  }

  /** An optional `+` or `-` sign followed by digits, as `int()` reads a string. */
  function ParseInt(s: string): (r: Option<int>)
    ensures r.Some? <==>
      (|s| >= 1 && AllDigits(s)) || (|s| >= 2 && (s[0] == '-' || s[0] == '+') && AllDigits(s[1..]))
    ensures r.Some? && r.value < 0 ==> s[0] == '-'
  {
    if |s| >= 1 && (s[0] == '-' || s[0] == '+') then
      match ParseNat(s[1..])
      case Some(n) => var v: int := if s[0] == '-' then -(n as int) else n; Some(v)
      case None => None
    else
      match ParseNat(s)
      case Some(n) => Some(n)
      case None => None
  }

  lemma {:induction false} NatRoundTrip(n: nat)
    ensures ParseNat(NatToString(n)) == Some(n)
    decreases n
  {
    var s := NatToString(n);
    if n < 10 {
      assert s == [DigitChar(n)];
      assert s[..0] == [];
      assert DigitsValue(s) == DigitValue(DigitChar(n)) == n;
    } else {
      NatRoundTrip(n / 10);
      assert s[..|s| - 1] == NatToString(n / 10);
      assert DigitValue(s[|s| - 1]) == n % 10;
    }
  }

  /** A signed digit run reads as its value, negated after `-`, leading zeros allowed. */
  lemma SignedValue(s: string)
    requires |s| >= 1 && AllDigits(s)
    ensures ParseInt("+" + s) == Some(DigitsValue(s))
    ensures ParseInt("-" + s) == Some(-(DigitsValue(s) as int))
    ensures ParseInt(s) == Some(DigitsValue(s))
  {
  }

  /** Reading back what `str(i)` wrote gives `i`. */
  lemma IntRoundTrip(i: int)
    ensures ParseInt(IntToString(i)) == Some(i)
  {
    NatRoundTrip(if i < 0 then -i else i);
    if i < 0 {
      assert IntToString(i)[1..] == NatToString(-i);
    } else {
      assert IntToString(i)[0] != '-' && IntToString(i)[0] != '+';
    }
  }

  /** Distinct numbers are rendered as distinct strings. */
  lemma NatToStringInjective(a: nat, b: nat)
    ensures NatToString(a) == NatToString(b) <==> a == b
  {
    NatRoundTrip(a);
    NatRoundTrip(b);
  }

  function Pow10(k: nat): (p: nat)
    ensures p >= 1
  {
    if k == 0 then 1 else 10 * Pow10(k - 1)
  }

  /** A number below 10^k takes at most k digits. */
  lemma {:induction false} NatToStringFits(n: nat, k: nat)
    requires 1 <= k && n < Pow10(k)
    ensures |NatToString(n)| <= k
    decreases k
  {
    if n >= 10 {
      assert n / 10 < Pow10(k - 1);
      NatToStringFits(n / 10, k - 1);
    }
  }

  /** Left-pad with '0' up to `width`, as `%04d` / date isoformat do. */
  function ZeroPad(s: string, width: nat): (r: string)
    ensures |r| == if |s| >= width then |s| else width
    ensures r[|r| - |s|..] == s
    ensures forall i :: 0 <= i < |r| - |s| ==> r[i] == '0'
  {
    if |s| >= width then s else seq(width - |s|, _ => '0') + s
  }

  /** A number below 10^width fills exactly `width` characters once padded. */
  lemma PaddedWidth(n: nat, width: nat)
    requires 1 <= width && n < Pow10(width)
    ensures |ZeroPad(NatToString(n), width)| == width
  {
    NatToStringFits(n, width);
  }

  /** Leading zeros do not change the value of a digit string. */
  lemma {:induction false} LeadingZeros(z: string, s: string)
    requires forall i :: 0 <= i < |z| ==> z[i] == '0'
    requires AllDigits(s)
    ensures AllDigits(z + s) && DigitsValue(z + s) == DigitsValue(s)
    decreases |z| + |s|
  {
    if |s| == 0 {
      assert z + s == z;
      if |z| > 0 {
        LeadingZeros(z[..|z| - 1], []);
        assert z[..|z| - 1] + [] == z[..|z| - 1];
      }
    } else {
      LeadingZeros(z, s[..|s| - 1]);
      assert (z + s)[..|z + s| - 1] == z + s[..|s| - 1];
    }
  }

  /** A zero-padded rendering of `n` reads back as `n`. */
  lemma PaddedRoundTrip(n: nat, width: nat)
    ensures AllDigits(ZeroPad(NatToString(n), width))
    ensures ParseNat(ZeroPad(NatToString(n), width)) == Some(n)
  {
    var s := NatToString(n);
    assert ParseNat(s) == Some(n) by {
      NatRoundTrip(n);
    }
    PaddedValue(s, width);
  }

  /** Padding a digit string with zeros keeps it a digit string of the same value. */
  lemma PaddedValue(s: string, width: nat)
    requires AllDigits(s)
    ensures AllDigits(ZeroPad(s, width)) && DigitsValue(ZeroPad(s, width)) == DigitsValue(s)
  {
    var r := ZeroPad(s, width);
    var z := r[..|r| - |s|];
    assert r == z + s;
    LeadingZeros(z, s);
  }

  /**
   * Space, tab, line feed, carriage return, vertical tab and form feed.
   * Python's `str.isspace`, and so `strip()` and `int()`, also count
   * `\x1c`-`\x1f` and non-ASCII spaces; those are not whitespace here.
   */
  predicate IsSpace(c: char) {
    c == ' ' || c == '\t' || c == '\n' || c == '\r' || c == '\U{0B}' || c == '\U{0C}'
  }

  /** How many whitespace characters `s` starts with. */
  function LeadingSpaces(s: string): (n: nat)
    ensures n <= |s| && (n == |s| || !IsSpace(s[n]))
    ensures forall i :: 0 <= i < n ==> IsSpace(s[i])
  {
    if |s| > 0 && IsSpace(s[0]) then 1 + LeadingSpaces(s[1..]) else 0
  }

  function TrimRight(s: string): (r: string)
    ensures |r| <= |s| && r == s[..|r|]
    ensures forall i :: |r| <= i < |s| ==> IsSpace(s[i])
    ensures |r| == 0 || !IsSpace(r[|r| - 1])
  {
    if |s| > 0 && IsSpace(s[|s| - 1]) then TrimRight(s[..|s| - 1]) else s
  }

  /**
   * `str.strip()`: `s` without its leading and trailing whitespace.  The
   * result is the piece of `s` after its leading whitespace, everything
   * after the piece is whitespace, and the piece neither starts nor ends
   * with whitespace.
   */
  function Strip(s: string): (r: string)
    ensures var i := LeadingSpaces(s);
      i + |r| <= |s| && r == s[i..i + |r|] &&
      forall j :: i + |r| <= j < |s| ==> IsSpace(s[j])
    ensures |r| == 0 || (!IsSpace(r[0]) && !IsSpace(r[|r| - 1]))
  {
    TrimRight(s[LeadingSpaces(s)..])
  }

  /** The pieces of `s` between occurrences of `sep`, as Python's `s.split(sep)`. */
  function Split(s: string, sep: char): (r: seq<string>)
    ensures |r| >= 1
    ensures forall i :: 0 <= i < |r| ==> sep !in r[i]
    decreases |s|
  {
    if sep !in s then [s]
    else
      var k := IndexOf(s, sep);
      [s[..k]] + Split(s[k + 1..], sep)
  }

  function IndexOf(s: string, c: char): (k: nat)
    requires c in s
    ensures k < |s| && s[k] == c
    ensures forall j :: 0 <= j < k ==> s[j] != c
  {
    if s[0] == c then 0 else 1 + IndexOf(s[1..], c)
  }

  /** Splitting a joined string gives the pieces back when `sep` occurs in none of them. */
  lemma {:induction false} SplitJoin(a: string, b: string, sep: char)
    requires sep !in a
    ensures Split(a + [sep] + b, sep) == [a] + Split(b, sep)
  {
    var s := a + [sep] + b;
    assert s[|a|] == sep;
    var k := IndexOf(s, sep);
    assert forall j :: 0 <= j < |a| ==> s[j] == a[j] != sep;
    assert k == |a|;
    assert s[..k] == a;
    assert s[k + 1..] == b;
  }

  lemma SplitNoSep(s: string, sep: char)
    requires sep !in s
    ensures Split(s, sep) == [s]
  {
  }
}

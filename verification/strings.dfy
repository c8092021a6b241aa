/** The string operations the bridge client and the discovery parser rely on,
    written to behave like the Python built-ins they stand for: `str.find`,
    `in`, `str.lstrip`, `str(int)`, `int(str)`, `Decimal(str)` and `str.join`. */
module Strings {
  import opened Wrappers

  const CRLF: string := "\r\n"

  /** `p` occurs in `s` starting at index `j`. */
  predicate OccursAt(s: string, p: string, j: int)
  {
    0 <= j && j + |p| <= |s| && s[j..j + |p|] == p
  }

  /** `s.find(p, from)`: the least index at or after `from` where `p` occurs, or -1. */
  function FindFrom(s: string, p: string, from: nat): (r: int)
    decreases |s| - from
    ensures r == -1 || (from <= r && OccursAt(s, p, r))
    ensures forall j {:trigger OccursAt(s, p, j)} :: from <= j && (r == -1 || j < r) ==> !OccursAt(s, p, j)
  {
    if from + |p| > |s| then -1
    else if s[from..from + |p|] == p then from
    else FindFrom(s, p, from + 1)
  }

  /** `s.find(p)` */
  function Find(s: string, p: string): int
  {
    FindFrom(s, p, 0)
  }

  /** `p in s` for two strings. */
  predicate Contains(s: string, p: string)
  {
    Find(s, p) >= 0
  }

  /** `s.lstrip(chars)`: drops every leading character that belongs to the SET `chars`. */
  function LStrip(s: string, chars: set<char>): (r: string)
    ensures |r| <= |s| && r == s[|s| - |r|..]
    ensures forall i | 0 <= i < |s| - |r| :: s[i] in chars
    ensures r != [] ==> r[0] !in chars
  {
    if s != [] && s[0] in chars then LStrip(s[1..], chars) else s
  }

  /** The set of characters of a string, as `lstrip` reads its argument. */
  function CharsOf(s: string): (cs: set<char>)
    ensures forall c :: c in cs <==> c in s
  {
    set c | c in s
  }

  predicate IsDigit(c: char)
  {
    '0' <= c <= '9'
  }

  predicate AllDigits(s: string)
  {
    forall i | 0 <= i < |s| :: IsDigit(s[i])
  }

  function DigitChar(d: nat): (c: char)
    requires d < 10
    ensures IsDigit(c)
  {
    ('0' as int + d) as char
  }

  function DigitValue(c: char): (d: nat)
    requires IsDigit(c)
    ensures d < 10 && DigitChar(d) == c
  {
    c as int - '0' as int
  }

  /** The decimal digits of `n`, without leading zeros. */
  function NatToString(n: nat): (s: string)
    ensures |s| >= 1 && AllDigits(s)
    ensures |s| > 1 ==> s[0] != '0'
  {
    if n < 10 then [DigitChar(n)] else NatToString(n / 10) + [DigitChar(n % 10)]
  }

  /** The number a string of decimal digits denotes. */
  function ParseNat(s: string): nat
    requires AllDigits(s)
  {
    if s == [] then 0 else ParseNat(s[..|s| - 1]) * 10 + DigitValue(s[|s| - 1])
  }

  /** `str(n)` for a Python int. */
  function IntToString(n: int): string
  {
    if n < 0 then "-" + NatToString(-n) else NatToString(n)
  }

  /** `int(s)` for a string of one optional sign followed by decimal digits;
      `None` stands for the ValueError any other string raises. */
  function ParseInt(s: string): Option<int>
  {
    if |s| > 0 && (s[0] == '-' || s[0] == '+') then
      if |s| > 1 && AllDigits(s[1..]) then
        var magnitude: int := ParseNat(s[1..]);
        Some(if s[0] == '-' then -magnitude else magnitude)
      else None
    else if |s| > 0 && AllDigits(s) then Some(ParseNat(s))
    else None
  }

  function Pow10(k: nat): (r: nat)
    ensures r >= 1
  {
    if k == 0 then 1 else 10 * Pow10(k - 1)
  }

  /** `Decimal(s)` for an unsigned decimal numeral: digits, optionally with one
      point, and at least one digit on some side of it. */
  function ParseUnsignedDecimal(s: string): Option<real>
  {
    var k := Find(s, ".");
    if k < 0 then
      if s != [] && AllDigits(s) then Some(ParseNat(s) as real) else None
    else
      var whole, frac := s[..k], s[k + 1..];
      if (whole != [] || frac != []) && AllDigits(whole) && AllDigits(frac)
      then Some(ParseNat(whole) as real + ParseNat(frac) as real / Pow10(|frac|) as real)
      else None
  }

  /** `Decimal(s)` for a string: an optional sign, then an unsigned numeral;
      `None` stands for the InvalidOperation any other string raises. */
  function ParseDecimal(s: string): Option<real>
  {
    if |s| > 0 && (s[0] == '-' || s[0] == '+') then
      match ParseUnsignedDecimal(s[1..])
      case None => None
      case Some(v) => Some(if s[0] == '-' then -v else v)
    else ParseUnsignedDecimal(s)
  }

  /** `sep.join(lines)` */
  function Join(lines: seq<string>, sep: string): string
  {
    if |lines| == 0 then ""
    else if |lines| == 1 then lines[0]
    else lines[0] + sep + Join(lines[1..], sep)
  }

  /** The pieces of `s` between consecutive CRLF line breaks. */
  function SplitLines(s: string): (r: seq<string>)
    decreases |s|
    ensures |r| >= 1
  {
    var i := Find(s, CRLF);
    if i < 0 then [s] else [s[..i]] + SplitLines(s[i + 2..])
  }

  predicate NoCarriageReturn(s: string)
  {
    forall j | 0 <= j < |s| :: s[j] != '\r'
  }

  // ---------------------------------------------------------------------------
  // Round trips

  lemma {:induction false} ParseNatToString(n: nat)
    ensures ParseNat(NatToString(n)) == n
  {
    if n >= 10 {
      var s := NatToString(n);
      assert s[..|s| - 1] == NatToString(n / 10);
      ParseNatToString(n / 10);
    }
  }

  /** `str(n)` for a negative `n` is a minus sign and the digits of `-n`. */
  lemma NegativeText(n: int)
    requires n < 0
    ensures var s := IntToString(n);
      |s| > 1 && s[0] == '-' && s[1..] == NatToString(-n)
  {
    var s := IntToString(n);
    assert s == "-" + NatToString(-n);
  }

  /** `int(str(n)) == n` */
  lemma ParseIntToString(n: int)
    ensures ParseInt(IntToString(n)) == Some(n)
  {
    if n < 0 {
      NegativeText(n);
      ParseNatToString(-n);
    } else {
      var s := NatToString(n);
      assert IsDigit(s[0]);
      ParseNatToString(n);
    }
  }

  /** When `l` holds no carriage return, the first line break of `l + CRLF + rest` ends `l`. */
  lemma FindAfterLine(l: string, rest: string)
    requires NoCarriageReturn(l)
    ensures Find(l + CRLF + rest, CRLF) == |l|
  {
    var s := l + CRLF + rest;
    assert s[|l|..|l| + 2] == CRLF;
    assert OccursAt(s, CRLF, |l|);
    forall j | 0 <= j < |l| ensures !OccursAt(s, CRLF, j) {
      assert s[j..j + 2][0] == s[j] == l[j];
    }
  }

  lemma NoBreakInLine(l: string)
    requires NoCarriageReturn(l)
    ensures Find(l, CRLF) == -1
  {
    forall j | 0 <= j && j + 2 <= |l| ensures !OccursAt(l, CRLF, j) {
      assert l[j..j + 2][0] == l[j];
    }
  }

  /** Splitting at line breaks undoes joining with them. */
  lemma {:induction false} SplitJoin(lines: seq<string>)
    requires |lines| >= 1
    requires forall i | 0 <= i < |lines| :: NoCarriageReturn(lines[i])
    ensures SplitLines(Join(lines, CRLF)) == lines
  {
    if |lines| == 1 {
      NoBreakInLine(lines[0]);
    } else {
      var l, rest := lines[0], Join(lines[1..], CRLF);
      var s := l + CRLF + rest;
      assert Join(lines, CRLF) == s;
      FindAfterLine(l, rest);
      assert s[..|l|] == l;
      assert s[|l| + 2..] == rest;
      SplitJoin(lines[1..]);
      assert lines == [l] + lines[1..];
    }
  }
}

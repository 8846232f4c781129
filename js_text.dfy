/** The JavaScript string and number built-ins that the portfolio's core code
    relies on, stated over Dafny strings: `String.prototype.trim`, the first
    field of `split` on a one-character separator, `indexOf` and `replace` with
    a string pattern, `Number.prototype.toString` for natural numbers, and the
    global `parseInt` of section 19.2.5 of ECMA-262 called without a radix. */
module JsText {

  /** `undefined` / `null` versus a present value. */
  datatype Option<T> = None | Some(value: T) {
    function GetOr(default: T): T {
      match this
      case Some(v) => v
      case None => default
    }
  }

  /** The numbers `parseInt` can produce: an integer or NaN.
      Unbounded integers: rounding of values beyond 2^53 is not modelled. */
  datatype IntOrNaN = Int(value: int) | NaN

  // ---------------------------------------------------------------------------
  // Whitespace and trimming
  // ---------------------------------------------------------------------------

  /** The WhiteSpace and LineTerminator code points of sections 12.2 and 12.3 of
      ECMA-262: the characters `trim` removes and `parseInt` skips. */
  predicate IsWhitespace(c: char) {
    || c == '\t' || c == '\n' || c == '\U{000B}' || c == '\U{000C}' || c == '\r'
    || c == ' ' || c == '\U{00A0}' || c == '\U{1680}'
    || ('\U{2000}' <= c <= '\U{200A}')
    || c == '\U{2028}' || c == '\U{2029}' || c == '\U{202F}' || c == '\U{205F}'
    || c == '\U{3000}' || c == '\U{FEFF}'
  }

  /** The string without its leading whitespace (TrimString with `start`). */
  function TrimStart(s: string): (r: string)
    ensures |r| <= |s| && r == s[|s| - |r|..]
    ensures forall i :: 0 <= i < |s| - |r| ==> IsWhitespace(s[i])
    ensures r == [] || !IsWhitespace(r[0])
  {
    if |s| > 0 && IsWhitespace(s[0]) then TrimStart(s[1..]) else s
  }

  /** The string without its trailing whitespace. */
  function TrimEnd(s: string): (r: string)
    ensures |r| <= |s| && r == s[..|r|]
    ensures forall i :: |r| <= i < |s| ==> IsWhitespace(s[i])
    ensures r == [] || !IsWhitespace(r[|r| - 1])
  {
    if |s| > 0 && IsWhitespace(s[|s| - 1]) then TrimEnd(s[..|s| - 1]) else s
  }

  /** `r` is the infix of `s` at offset `i`, and everything of `s` before and
      after it is whitespace. */
  predicate InfixAmidWhitespace(s: string, r: string, i: nat) {
    && i + |r| <= |s| && r == s[i..i + |r|]
    && (forall k :: 0 <= k < i ==> IsWhitespace(s[k]))
    && (forall k :: i + |r| <= k < |s| ==> IsWhitespace(s[k]))
  }

  /** `s.trim()`: the infix of `s` that neither starts nor ends with
      whitespace, such that everything around it is whitespace. */
  function Trim(s: string): (r: string)
    ensures exists i :: InfixAmidWhitespace(s, r, i)
    ensures r == [] || (!IsWhitespace(r[0]) && !IsWhitespace(r[|r| - 1]))
  {
    var t := TrimStart(s);
    var r := TrimEnd(t);
    var i := |s| - |t|;
    assert forall k :: i + |r| <= k < |s| ==> s[k] == t[k - i];
    assert InfixAmidWhitespace(s, r, i);
    r
  }

  /** Trimming yields the empty string exactly for whitespace-only input. */
  lemma {:induction false} TrimEmptyIff(s: string)
    ensures Trim(s) == [] <==> forall k :: 0 <= k < |s| ==> IsWhitespace(s[k])
  {
    var t := TrimStart(s);
    if forall k :: 0 <= k < |s| ==> IsWhitespace(s[k]) {
    } else {
      var k :| 0 <= k < |s| && !IsWhitespace(s[k]);
      assert t[0] == s[|s| - |t|];
    }
  }

  /** Trimming is idempotent. */
  lemma {:induction false} TrimIdempotent(s: string)
    ensures Trim(Trim(s)) == Trim(s)
  {
    var r := Trim(s);
    assert TrimStart(r) == r;
    assert TrimEnd(r) == r;
  }

  // ---------------------------------------------------------------------------
  // split, indexOf and replace with string patterns
  // ---------------------------------------------------------------------------

  /** `s.split(sep)[0]` for a one-character separator: the text before the
      first occurrence of `sep`, or all of `s` when there is none. */
  function BeforeFirst(s: string, sep: char): (r: string)
    ensures |r| <= |s| && r == s[..|r|] && sep !in r
    ensures |r| == |s| || s[|r|] == sep
  {
    if |s| == 0 || s[0] == sep then [] else [s[0]] + BeforeFirst(s[1..], sep)
  }

  predicate OccursAt(s: string, pat: string, i: nat) {
    i + |pat| <= |s| && s[i..i + |pat|] == pat
  }

  /** The first position at or after `from` where `pat` occurs in `s`. */
  function IndexFrom(s: string, pat: string, from: nat): (r: Option<nat>)
    decreases |s| + 1 - from
    ensures r.Some? ==> from <= r.value && OccursAt(s, pat, r.value)
                        && forall j :: from <= j < r.value ==> !OccursAt(s, pat, j)
    ensures r.None? ==> forall j :: from <= j ==> !OccursAt(s, pat, j)
  {
    if from + |pat| > |s| then None
    else if s[from..from + |pat|] == pat then Some(from)
    else IndexFrom(s, pat, from + 1)
  }

  /** `s.indexOf(pat)`, with `None` for -1. */
  function IndexOf(s: string, pat: string): (r: Option<nat>)
    ensures r.Some? ==> OccursAt(s, pat, r.value)
                        && forall j :: 0 <= j < r.value ==> !OccursAt(s, pat, j)
    ensures r.None? <==> forall j :: 0 <= j ==> !OccursAt(s, pat, j)
  {
    IndexFrom(s, pat, 0)
  }

  /** `s.replace(pat, rep)` with a string pattern and a replacement without
      `$` patterns: only the first occurrence is replaced. */
  function ReplaceFirst(s: string, pat: string, rep: string): (r: string)
    ensures IndexOf(s, pat).None? ==> r == s
    ensures IndexOf(s, pat).Some? ==>
      var i := IndexOf(s, pat).value;
      |r| == |s| - |pat| + |rep| && r[..i] == s[..i] && r[i..i + |rep|] == rep
      && r[i + |rep|..] == s[i + |pat|..]
  {
    match IndexOf(s, pat)
    case None => s
    case Some(i) => s[..i] + rep + s[i + |pat|..]
  }

  /** Replacing a pattern that opens the string drops exactly that prefix. */
  lemma {:induction false} ReplaceLeadingPattern(pat: string, rest: string)
    ensures ReplaceFirst(pat + rest, pat, []) == rest
  {
    var s := pat + rest;
    assert OccursAt(s, pat, 0);
    assert IndexOf(s, pat) == Some(0);
  }

  // ---------------------------------------------------------------------------
  // Decimal rendering and parseInt
  // ---------------------------------------------------------------------------

  /** Number remainder as in section 6.1.6.1.6 of ECMA-262 on integral
      operands and a positive divisor: the result takes the dividend's sign
      (truncating division), unlike Dafny's `%`, whose result is never
      negative. */
  function JsRemainder(a: int, b: int): (r: int)
    requires b > 0
    ensures a >= 0 ==> r == a % b
    ensures -b < r < b
    ensures a < 0 ==> r == -((-a) % b)
  {
    if a >= 0 then a % b else -((-a) % b)
  }

  predicate IsDecimalDigit(c: char) {
    '0' <= c <= '9'
  }

  /** The value of `c` as a digit in radix up to 36 (letters in either case
      stand for 10 to 35); 36 for a character that is a digit in no radix. */
  function DigitValue(c: char): (d: nat)
    ensures d <= 36
    ensures d < 10 <==> IsDecimalDigit(c)
  {
    if '0' <= c <= '9' then c as int - '0' as int
    else if 'a' <= c <= 'z' then c as int - 'a' as int + 10
    else if 'A' <= c <= 'Z' then c as int - 'A' as int + 10
    else 36
  }

  predicate IsDigitIn(c: char, radix: nat) {
    DigitValue(c) < radix
  }

  function DigitChar(d: nat): (c: char)
    requires d < 10
    ensures IsDecimalDigit(c) && DigitValue(c) == d
  {
    (d + '0' as int) as char
  }

  /** `n.toString()` for a natural number: its decimal digits, without
      leading zeros. */
  function NatToString(n: nat): (r: string)
    ensures |r| >= 1 && forall i :: 0 <= i < |r| ==> IsDecimalDigit(r[i])
    ensures (r[0] == '0') == (n == 0)
    ensures n == 0 ==> r == "0"
  {
    if n < 10 then [DigitChar(n)] else NatToString(n / 10) + [DigitChar(n % 10)]
  }

  /** The longest prefix of `s` made of digits in `radix`. */
  function DigitRun(s: string, radix: nat): (r: string)
    ensures |r| <= |s| && r == s[..|r|]
    ensures forall i :: 0 <= i < |r| ==> IsDigitIn(r[i], radix)
    ensures |r| == |s| || !IsDigitIn(s[|r|], radix)
  {
    if |s| == 0 || !IsDigitIn(s[0], radix) then [] else [s[0]] + DigitRun(s[1..], radix)
  }

  /** The value of a digit string read in `radix`, most significant first. */
  function DigitsValue(z: string, radix: nat): nat
  {
    if z == [] then 0
    else DigitsValue(z[..|z| - 1], radix) * radix + DigitValue(z[|z| - 1])
  }

  /** `parseInt(s)` without a radix: skip leading whitespace, take an optional
      sign, then read the digits that follow; NaN when there are none. */
  function ParseInt(s: string): IntOrNaN
  {
    ParseSigned(TrimStart(s))
  }

  function ParseSigned(t: string): IntOrNaN
  {
    if |t| > 0 && t[0] == '-' then Negate(ParseUnsigned(t[1..]))
    else if |t| > 0 && t[0] == '+' then ParseUnsigned(t[1..])
    else ParseUnsigned(t)
  }

  function Negate(x: IntOrNaN): IntOrNaN
  {
    match x
    case NaN => NaN
    case Int(v) => Int(-v)
  }

  predicate HasHexPrefix(u: string) {
    |u| >= 2 && u[0] == '0' && (u[1] == 'x' || u[1] == 'X')
  }

  /** Radix 16 after a `0x`/`0X` prefix, radix 10 otherwise. */
  function ParseUnsigned(u: string): IntOrNaN
  {
    if HasHexPrefix(u) then ParseDigits(u[2..], 16) else ParseDigits(u, 10)
  }

  /** The value of the longest run of digits that opens `body`; NaN when it is
      empty. */
  function ParseDigits(body: string, radix: nat): IntOrNaN
  {
    var z := DigitRun(body, radix);
    if z == [] then NaN else Int(DigitsValue(z, radix))
  }

  lemma {:induction false} NatToStringValue(n: nat)
    ensures DigitsValue(NatToString(n), 10) == n
  {
    if n >= 10 {
      var r := NatToString(n);
      assert r[..|r| - 1] == NatToString(n / 10);
      NatToStringValue(n / 10);
    }
  }

  lemma {:induction false} DigitRunOfDigits(d: string, rest: string, radix: nat)
    requires forall i :: 0 <= i < |d| ==> IsDigitIn(d[i], radix)
    requires rest == [] || !IsDigitIn(rest[0], radix)
    ensures DigitRun(d + rest, radix) == d
  {
    if d != [] {
      assert (d + rest)[1..] == d[1..] + rest;
      DigitRunOfDigits(d[1..], rest, radix);
    } else {
      assert d + rest == rest;
    }
  }

  /** Reading back a rendered natural: `parseInt(String(n) + rest)` is `n`
      whenever `rest` does not continue the number. */
  lemma {:induction false} ParseIntOfNat(n: nat, rest: string)
    requires rest == [] || (!IsDecimalDigit(rest[0]) && rest[0] != 'x' && rest[0] != 'X')
    ensures ParseInt(NatToString(n) + rest) == Int(n)
  {
    var s := NatToString(n) + rest;
    assert s[0] == NatToString(n)[0];
    assert TrimStart(s) == s;
    ParseUnsignedOfNat(n, rest);
  }

  lemma {:induction false} ParseUnsignedOfNat(n: nat, rest: string)
    requires rest == [] || (!IsDecimalDigit(rest[0]) && rest[0] != 'x' && rest[0] != 'X')
    ensures ParseUnsigned(NatToString(n) + rest) == Int(n)
  {
    var d := NatToString(n);
    var u := d + rest;
    assert u[0] == d[0];
    assert !HasHexPrefix(u) by {
      if |u| >= 2 && u[0] == '0' {
        assert n == 0 && d == "0";
        assert u[1] == rest[0];
      }
    }
    forall i | 0 <= i < |d| ensures IsDigitIn(d[i], 10) {
      assert IsDecimalDigit(d[i]);
    }
    DigitRunOfDigits(d, rest, 10);
    NatToStringValue(n);
  }

  /** `parseInt(String(n))` is `n`. */
  lemma ParseIntRoundTrip(n: nat)
    ensures ParseInt(NatToString(n)) == Int(n)
  {
    ParseIntOfNat(n, []);
    assert NatToString(n) + [] == NatToString(n);
  }

  /** Prefix semantics: a number followed by other text parses to that number. */
  lemma ParseIntStopsAtText()
    ensures ParseInt("3abc") == Int(3)
  {
    assert NatToString(3) + "abc" == "3abc";
    ParseIntOfNat(3, "abc");
  }

  /** Text that does not open with a number is NaN. */
  lemma ParseIntNaN()
    ensures ParseInt("abc") == NaN
  {
    var s := "abc";
    assert s[0] == 'a' && !IsWhitespace('a');
    NoNumberNaN(s);
  }

  /** The empty string is NaN. */
  lemma ParseIntEmptyNaN()
    ensures ParseInt("") == NaN
  {
    NoNumberNaN("");
  }

  /** Text that is empty or opens with neither whitespace, a sign nor a digit
      parses to NaN. */
  lemma NoNumberNaN(s: string)
    requires s == [] || (!IsWhitespace(s[0]) && !IsDecimalDigit(s[0]) && s[0] != '-' && s[0] != '+')
    ensures ParseInt(s) == NaN
  {
    assert TrimStart(s) == s;
    if s != [] {
      assert !IsDigitIn(s[0], 10);
    }
    assert DigitRun(s, 10) == [];
    assert ParseUnsigned(s) == NaN;
  }

  /** Leading whitespace is skipped and a minus sign negates the number. */
  lemma {:induction false} ParseIntNegative(ws: string, n: nat, rest: string)
    requires forall k :: 0 <= k < |ws| ==> IsWhitespace(ws[k])
    requires rest == [] || (!IsDecimalDigit(rest[0]) && rest[0] != 'x' && rest[0] != 'X')
    ensures ParseInt(ws + "-" + NatToString(n) + rest) == Int(-(n as int))
  {
    var t := "-" + NatToString(n) + rest;
    assert ws + "-" + NatToString(n) + rest == ws + t;
    assert t[0] == '-';
    TrimStartSkips(ws, t);
    NegativeSigned(n, rest);
  }

  /** A minus sign before a natural number negates it. */
  lemma NegativeSigned(n: nat, rest: string)
    requires rest == [] || (!IsDecimalDigit(rest[0]) && rest[0] != 'x' && rest[0] != 'X')
    ensures ParseSigned("-" + NatToString(n) + rest) == Int(-(n as int))
  {
    var t := "-" + NatToString(n) + rest;
    assert t[0] == '-' && t[1..] == NatToString(n) + rest;
    ParseUnsignedOfNat(n, rest);
  }

  lemma {:induction false} TrimStartSkips(ws: string, t: string)
    requires forall k :: 0 <= k < |ws| ==> IsWhitespace(ws[k])
    requires t == [] || !IsWhitespace(t[0])
    ensures TrimStart(ws + t) == t
  {
    if ws != [] {
      assert (ws + t)[1..] == ws[1..] + t;
      TrimStartSkips(ws[1..], t);
    } else {
      assert ws + t == t;
    }
  }

  /** Without a radix, a `0x` prefix selects radix 16. */
  lemma ParseIntHexPrefix()
    ensures ParseInt("0x1F") == Int(31)
  {
    var s := "0x1F";
    var body := "1F";
    assert s[2..] == body;
    assert TrimStart(s) == s by {
      assert !IsWhitespace(s[0]);
    }
    assert ParseSigned(s) == ParseUnsigned(s);
    assert HasHexPrefix(s);
    assert DigitRun(body, 16) == body by {
      DigitRunOfDigits(body, "", 16);
      assert body + "" == body;
    }
    assert DigitsValue(body, 16) == 31 by {
      assert body[..1] == "1" && "1"[..0] == "";
      assert DigitValue('1') == 1 && DigitValue('F') == 15;
      assert DigitsValue("1", 16) == 1;
    }
    assert ParseDigits(body, 16) == Int(31);
  }
}

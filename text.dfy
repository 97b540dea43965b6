/** String primitives the source uses through the JavaScript `String` prototype. */
module Text {
  import opened Wrappers

  /** `s.startsWith(p)`. */
  predicate StartsWith(s: string, p: string) {
    |p| <= |s| && s[..|p|] == p
  }

  /** `sub` occurs in `s` starting at index `i`. */
  predicate OccursAt(s: string, sub: string, i: nat) {
    i + |sub| <= |s| && s[i..i + |sub|] == sub
  }

  /** `s.includes(sub)`: `sub` occurs at some position of `s`. */
  predicate Contains(s: string, sub: string) {
    exists i: nat :: i <= |s| && OccursAt(s, sub, i)
  }

  /** A string contains every one of its infixes: `(a + sub + b).includes(sub)`. */
  lemma ContainsInfix(a: string, sub: string, b: string)
    ensures Contains(a + sub + b, sub)
  {
    assert OccursAt(a + sub + b, sub, |a|) by {
      assert (a + sub + b)[|a|..|a| + |sub|] == sub;
    }
  }

  /** `s.substring(i, j)` for `i <= j`: both ends are clamped to the length of `s`. */
  function Substring(s: string, i: nat, j: nat): (r: string)
    requires i <= j
    ensures |r| == (if j <= |s| then j else |s|) - (if i <= |s| then i else |s|)
  {
    var lo := if i <= |s| then i else |s|;
    var hi := if j <= |s| then j else |s|;
    s[lo..hi]
  }

  /** A character JavaScript's `String.prototype.trim` removes (WhiteSpace or LineTerminator). */
  predicate IsJsWhitespace(c: char) {
    c == '\t' || c == '\n' || c == '\U{000B}' || c == '\U{000C}' || c == '\r' || c == ' '
    || c == '\U{00A0}' || c == '\U{1680}' || ('\U{2000}' <= c <= '\U{200A}')
    || c == '\U{2028}' || c == '\U{2029}' || c == '\U{202F}' || c == '\U{205F}'
    || c == '\U{3000}' || c == '\U{FEFF}'
  }

  /** `!s.trim()`: trimming leaves the empty string exactly when every character is whitespace. */
  predicate IsBlank(s: string) {
    forall i :: 0 <= i < |s| ==> IsJsWhitespace(s[i])
  }

  /** `s.trimStart()`: the suffix left after the leading whitespace. */
  function TrimStart(s: string): (r: string)
    ensures |r| <= |s| && r == s[|s| - |r|..]
    ensures r == [] || !IsJsWhitespace(r[0])
    ensures IsBlank(s[..|s| - |r|])
  {
    if s == [] || !IsJsWhitespace(s[0]) then s
    else
      var r := TrimStart(s[1..]);
      assert s[1..][..|s| - 1 - |r|] == s[1..|s| - |r|];
      r
  }

  /** `s.trimEnd()`: the prefix left before the trailing whitespace. */
  function TrimEnd(s: string): (r: string)
    ensures |r| <= |s| && r == s[..|r|]
    ensures r == [] || !IsJsWhitespace(r[|r| - 1])
    ensures IsBlank(s[|r|..])
  {
    if s == [] || !IsJsWhitespace(s[|s| - 1]) then s
    else
      var r := TrimEnd(s[..|s| - 1]);
      assert s[..|s| - 1][..|r|] == s[..|r|];
      assert s[|r|..] == s[..|s| - 1][|r|..] + [s[|s| - 1]];
      r
  }

  /** `s.trim()`. */
  function Trim(s: string): (r: string)
    ensures r == [] <==> IsBlank(s)
    ensures r == [] || (!IsJsWhitespace(r[0]) && !IsJsWhitespace(r[|r| - 1]))
  {
    var t := TrimStart(s);
    var r := TrimEnd(t);
    if r == [] then
      assert s == s[..|s| - |t|] + t[..|r|] + t[|r|..];
      BlankConcat(s[..|s| - |t|], t[|r|..]);
      r
    else
      assert r[0] == t[0];
      r
  }

  lemma BlankConcat(a: string, b: string)
    requires IsBlank(a) && IsBlank(b)
    ensures IsBlank(a + b)
  {
  }

  /** A string with no whitespace at either end is its own trim. */
  lemma TrimOfTrimmed(s: string)
    requires s != [] && !IsJsWhitespace(s[0]) && !IsJsWhitespace(s[|s| - 1])
    ensures Trim(s) == s
  {
  }

  predicate IsDecimalDigit(c: char) { '0' <= c <= '9' }

  predicate AllDecimal(s: string) {
    forall i :: 0 <= i < |s| ==> IsDecimalDigit(s[i])
  }

  /** The value of a run of decimal digits, most significant first ("" is 0). */
  function DecimalValue(s: string): nat
    requires AllDecimal(s)
  {
    if s == [] then 0 else DecimalValue(s[..|s| - 1]) * 10 + (s[|s| - 1] as int - '0' as int)
  }

  /** The index of the first '.' in `s`, or `|s|` when there is none. */
  function IndexOfDot(s: string): (i: nat)
    ensures i <= |s| && (i < |s| ==> s[i] == '.')
    ensures forall j :: 0 <= j < i ==> s[j] != '.'
  {
    if s == [] || s[0] == '.' then 0 else 1 + IndexOfDot(s[1..])
  }

  /** A fractional part with a non-zero digit: the numeral is not a whole number. */
  predicate Inexact(fraction: string) {
    fraction != [] && (fraction[0] != '0' || Inexact(fraction[1..]))
  }

  /**
   * An unsigned numeral `digits [. digits]` with at least one digit: the value of its whole
   * part and whether its fractional part is non-zero; None for any other text.
   */
  function UnsignedDecimal(body: string): Option<(nat, bool)> {
    var dot := IndexOfDot(body);
    var whole := body[..dot];
    var fraction := if dot < |body| then body[dot + 1..] else "";
    if AllDecimal(whole) && AllDecimal(fraction) && (whole != [] || fraction != []) then
      Some((DecimalValue(whole), Inexact(fraction)))
    else None
  }

  /**
   * A trimmed decimal numeral (`[+-] digits [. digits]`, at least one digit) read as the
   * greatest integer not above its value; None for any other text. Rounding down keeps
   * every comparison `x < t` and `x >= t` with an integer `t` as it is on the real value.
   */
  function DecimalFloor(t: string): Option<int> {
    if |t| > 0 && t[0] == '-' then Negated(UnsignedDecimal(t[1..]))
    else if |t| > 0 && t[0] == '+' then Unsigned(UnsignedDecimal(t[1..]))
    else Unsigned(UnsignedDecimal(t))
  }

  /** The floor of an unsigned numeral is its whole part. */
  function Unsigned(u: Option<(nat, bool)>): Option<int> {
    match u
    case None => None
    case Some(p) => Some(p.0 as int)
  }

  /** The floor of a negated numeral: one further below zero when it is not whole. */
  function Negated(u: Option<(nat, bool)>): Option<int> {
    match u
    case None => None
    case Some(p) => Some(NegatedFloor(p.0, p.1))
  }

  /** The floor of `-(m.f)`: `-m` when the fraction `f` is zero, `-m - 1` otherwise. */
  function NegatedFloor(m: nat, inexact: bool): int {
    if inexact then -(m as int) - 1 else -(m as int)
  }

  /** The decimal numeral of a natural number is read back as that number. */
  lemma {:induction false} DecimalValueOfNat(n: nat)
    ensures AllDecimal(NatToString(n)) && DecimalValue(NatToString(n)) == n
    decreases n
  {
    if n >= 10 {
      DecimalValueOfNat(n / 10);
      var s := NatToString(n / 10) + [DigitChar(n % 10)];
      assert s[..|s| - 1] == NatToString(n / 10);
    }
  }

  /** A run of digits has no '.'. */
  lemma NoDot(d: string)
    requires AllDecimal(d)
    ensures IndexOfDot(d) == |d|
  {
  }

  /** A digit run, with or without a leading '-', is read as its value. */
  lemma DecimalFloorOfDigits(d: string)
    requires d != [] && AllDecimal(d)
    ensures DecimalFloor(d) == Some(DecimalValue(d) as int)
    ensures DecimalFloor("-" + d) == Some(-(DecimalValue(d) as int))
  {
    NoDot(d);
    assert d[..|d|] == d;
    assert UnsignedDecimal(d) == Some((DecimalValue(d), false));
    assert IsDecimalDigit(d[0]);
    assert ("-" + d)[1..] == d;
  }

  /** A numeral after a prefix reads back from where the prefix ends. */
  lemma PrefixedNumeral(p: string, n: int, t: string)
    requires t == p + IntToString(n)
    ensures StartsWith(t, p) && DecimalFloor(t[|p|..]) == Some(n)
  {
    assert t[..|p|] == p;
    assert t[|p|..] == IntToString(n);
    IntToStringReadBack(n);
  }

  /** The numeral `String(n)` writes has no surrounding whitespace and reads back as `n`. */
  lemma IntToStringReadBack(n: int)
    ensures IntToString(n) != [] && Trim(IntToString(n)) == IntToString(n)
    ensures DecimalFloor(IntToString(n)) == Some(n)
  {
    NumeralEnds(n);
    TrimOfTrimmed(IntToString(n));
    DecimalFloorOfNumeral(n);
  }

  /** A numeral starts with '-' or a digit and ends with a digit. */
  lemma NumeralEnds(n: int)
    ensures var s := IntToString(n);
      s != [] && !IsJsWhitespace(s[0]) && !IsJsWhitespace(s[|s| - 1])
  {
    var d := NatToString(if n < 0 then -n else n);
    assert IsDecimalDigit(d[|d| - 1]) && IsDecimalDigit(d[0]);
    if n < 0 {
      assert ("-" + d)[|d|] == d[|d| - 1];
    }
  }

  lemma DecimalFloorOfNumeral(n: int)
    ensures DecimalFloor(IntToString(n)) == Some(n)
  {
    if n < 0 {
      DecimalFloorOfNegative(-n);
      assert IntToString(n) == "-" + NatToString(-n);
    } else {
      DecimalValueOfNat(n);
      DecimalFloorOfDigits(NatToString(n));
    }
  }

  lemma DecimalFloorOfNegative(m: nat)
    ensures DecimalFloor("-" + NatToString(m)) == Some(-(m as int))
  {
    DecimalValueOfNat(m);
    DecimalFloorOfDigits(NatToString(m));
  }

  /** In digits followed by '.', the first '.' is the one after the digits. */
  lemma {:induction false} IndexOfDotAfterDigits(d: string, rest: string)
    requires AllDecimal(d)
    ensures IndexOfDot(d + "." + rest) == |d|
    decreases |d|
  {
    if d != [] {
      assert (d + "." + rest)[1..] == d[1..] + "." + rest;
      IndexOfDotAfterDigits(d[1..], rest);
    }
  }

  /** Digits, '.', digits: the whole part and whether the fraction is non-zero. */
  lemma UnsignedOfFraction(d: string, f: string)
    requires d != [] && AllDecimal(d) && AllDecimal(f)
    ensures UnsignedDecimal(d + "." + f) == Some((DecimalValue(d), Inexact(f)))
  {
    var s := d + "." + f;
    IndexOfDotAfterDigits(d, f);
    assert s[..|d|] == d;
    assert s[|d| + 1..] == f;
  }

  /** A numeral with a fractional part is read as its whole part, the value rounded down. */
  lemma DecimalFloorOfFraction(d: string, f: string)
    requires d != [] && AllDecimal(d) && AllDecimal(f)
    ensures DecimalFloor(d + "." + f) == Some(DecimalValue(d) as int)
  {
    var s := d + "." + f;
    UnsignedOfFraction(d, f);
    assert s[0] == d[0] && IsDecimalDigit(d[0]);
  }

  /** Below zero, rounding down moves a non-whole numeral one further from zero. */
  lemma DecimalFloorOfNegativeFraction(t: string, d: string, f: string)
    requires d != [] && AllDecimal(d) && AllDecimal(f)
    requires t == "-" + (d + "." + f)
    ensures DecimalFloor(t) == Some(NegatedFloor(DecimalValue(d), Inexact(f)))
  {
    UnsignedOfFraction(d, f);
    assert t[0] == '-' && t[1..] == d + "." + f;
    NegativeFloor(t, DecimalValue(d), Inexact(f));
  }

  /** A '-' numeral is the negated whole part, one lower when the fraction is non-zero. */
  lemma NegativeFloor(t: string, m: nat, inexact: bool)
    requires |t| > 0 && t[0] == '-' && UnsignedDecimal(t[1..]) == Some((m, inexact))
    ensures DecimalFloor(t) == Some(NegatedFloor(m, inexact))
  {
  }

  /** The ends of a numeral with a fractional part are not whitespace. */
  lemma FractionEnds(d: string, f: string)
    requires d != [] && AllDecimal(d) && AllDecimal(f)
    ensures var s := d + "." + f;
      !IsJsWhitespace(s[0]) && !IsJsWhitespace(s[|s| - 1])
    ensures var s := "-" + (d + "." + f);
      !IsJsWhitespace(s[0]) && !IsJsWhitespace(s[|s| - 1])
  {
    assert IsDecimalDigit(d[0]);
    if f != [] {
      assert IsDecimalDigit(f[|f| - 1]);
    }
  }

  predicate NoDigit(s: string) {
    forall i :: 0 <= i < |s| ==> !IsDecimalDigit(s[i])
  }

  /** Text without a single digit is no numeral. */
  lemma DecimalFloorNeedsDigit(t: string)
    requires NoDigit(t)
    ensures DecimalFloor(t) == None
  {
    var body := if |t| > 0 && (t[0] == '-' || t[0] == '+') then t[1..] else t;
    assert NoDigit(body);
    UnsignedNeedsDigit(body);
  }

  lemma UnsignedNeedsDigit(body: string)
    requires NoDigit(body)
    ensures UnsignedDecimal(body) == None
  {
    var dot := IndexOfDot(body);
    if body[..dot] != [] {
      assert body[..dot][0] == body[0];
    }
    if dot < |body| && body[dot + 1..] != [] {
      assert body[dot + 1..][0] == body[dot + 1];
    }
  }

  /** Trimming keeps a text free of digits. */
  lemma TrimNoDigit(s: string)
    requires NoDigit(s)
    ensures NoDigit(Trim(s))
  {
    var t := TrimStart(s);
    NoDigitSlice(s, |s| - |t|, |s|);
    assert t == s[|s| - |t|..|s|];
    var r := TrimEnd(t);
    NoDigitSlice(t, 0, |r|);
    assert r == t[0..|r|];
    assert Trim(s) == r;
  }

  lemma NoDigitSlice(s: string, lo: int, hi: int)
    requires NoDigit(s) && 0 <= lo <= hi <= |s|
    ensures NoDigit(s[lo..hi])
  {
  }

  predicate IsAsciiUpper(c: char) { 'A' <= c <= 'Z' }
  predicate IsAsciiLower(c: char) { 'a' <= c <= 'z' }

  /** `toUpperCase` of one character, on the ASCII letters. */
  function UpperChar(c: char): (r: char)
    ensures IsAsciiLower(c) ==> IsAsciiUpper(r)
    ensures !IsAsciiLower(c) ==> r == c
  {
    if IsAsciiLower(c) then (c as int - 'a' as int + 'A' as int) as char else c
  }

  /** `toLowerCase` of one character, on the ASCII letters. */
  function LowerChar(c: char): (r: char)
    ensures IsAsciiUpper(c) ==> IsAsciiLower(r)
    ensures !IsAsciiUpper(c) ==> r == c
  {
    if IsAsciiUpper(c) then (c as int - 'A' as int + 'a' as int) as char else c
  }

  /** `s.toLowerCase()`, character by character. */
  function Lower(s: string): (r: string)
    ensures |r| == |s|
    ensures forall i :: 0 <= i < |s| ==> r[i] == LowerChar(s[i])
  {
    if s == [] then [] else [LowerChar(s[0])] + Lower(s[1..])
  }

  /** `s.replace(/_/g, ' ').toLowerCase()`: the human-readable form of a vendor status. */
  function Humanize(s: string): string {
    seq(|s|, i requires 0 <= i < |s| => if s[i] == '_' then ' ' else LowerChar(s[i]))
  }

  /** A humanized status has no underscores and no upper-case letters, so humanizing it again changes nothing. */
  lemma HumanizeIdempotent(s: string)
    ensures forall i :: 0 <= i < |Humanize(s)| ==> Humanize(s)[i] != '_' && !IsAsciiUpper(Humanize(s)[i])
    ensures Humanize(Humanize(s)) == Humanize(s)
  {
  }

  function DigitChar(d: nat): (c: char)
    requires d < 10
    ensures '0' <= c <= '9'
  {
    ('0' as int + d) as char
  }

  /** The decimal numeral of `n`, as `String(n)` writes it. */
  function NatToString(n: nat): (r: string)
    ensures |r| > 0
    ensures forall i :: 0 <= i < |r| ==> '0' <= r[i] <= '9'
  {
    if n < 10 then [DigitChar(n)] else NatToString(n / 10) + [DigitChar(n % 10)]
  }

  /** `String(n)` for an integer `n`. */
  function IntToString(n: int): string {
    if n < 0 then "-" + NatToString(-n) else NatToString(n)
  }
}

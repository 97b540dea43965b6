/**
 * The phone-number helpers of the customer form: digit extraction, the US display
 * format, the validity test and the normalisation sent to the API. Everything
 * depends on the digits of the input only (`value.replace(/\D/g, '')`).
 */
module Phone {
  import Text

  /** `\d` in a JavaScript regular expression: an ASCII decimal digit. */
  predicate IsDigit(c: char) {
    '0' <= c <= '9'
  }

  predicate AllDigits(s: string) {
    forall i :: 0 <= i < |s| ==> IsDigit(s[i])
  }

  /** `s.replace(/\D/g, '')`: the digits of `s`, in order. */
  function Digits(s: string): (r: string)
    ensures AllDigits(r) && |r| <= |s|
  {
    if s == [] then []
    else (if IsDigit(s[0]) then [s[0]] else []) + Digits(s[1..])
  }

  lemma {:induction false} DigitsConcat(a: string, b: string)
    ensures Digits(a + b) == Digits(a) + Digits(b)
    decreases |a|
  {
    if a == [] {
      assert a + b == b;
    } else {
      assert (a + b)[1..] == a[1..] + b;
      DigitsConcat(a[1..], b);
    }
  }

  /** A string of digits is its own digit string. */
  lemma {:induction false} DigitsOfDigits(s: string)
    requires AllDigits(s)
    ensures Digits(s) == s
    decreases |s|
  {
    if s != [] {
      DigitsOfDigits(s[1..]);
    }
  }

  /** `numbers.startsWith('1')`. */
  predicate HasCountryCode(n: string) {
    |n| > 0 && n[0] == '1'
  }

  /** The digits formatPhoneNumber keeps: eleven with a leading country code, ten otherwise. */
  function Truncated(n: string): (r: string)
    ensures |r| <= |n| && r == n[..|r|]
  {
    var limit := if HasCountryCode(n) then 11 else 10;
    if |n| <= limit then n else n[..limit]
  }

  /** formatPhoneNumber on the digit string `n`: `+1 (XXX) XXX-XXXX` or `(XXX) XXX-XXXX`, as far as the digits go. */
  function FormatDigits(n: string): string {
    if |n| == 0 then ""
    else if |n| == 1 && n[0] == '1' then "+1"
    else if HasCountryCode(n) && |n| > 1 then
      var areaCode := Text.Substring(n, 1, 4);
      var middle := Text.Substring(n, 4, 7);
      var last := Text.Substring(n, 7, 11);
      if |n| <= 1 then "+1"
      else if |n| <= 4 then "+1 (" + areaCode
      else if |n| <= 7 then "+1 (" + areaCode + ") " + middle
      else "+1 (" + areaCode + ") " + middle + "-" + last
    else
      var areaCode := Text.Substring(n, 0, 3);
      var middle := Text.Substring(n, 3, 6);
      var last := Text.Substring(n, 6, 10);
      if |n| <= 3 then areaCode
      else if |n| <= 6 then "(" + areaCode + ") " + middle
      else "(" + areaCode + ") " + middle + "-" + last
  }

  /**
   * formatPhoneNumber: empty exactly when there are no digits, never longer than
   * `+1 (XXX) XXX-XXXX`, led by `+1` when the digits start with the country code and by
   * `(`, at most `(XXX) XXX-XXXX`, for a national number past its area code.
   */
  function FormatPhoneNumber(value: string): (r: string)
    ensures r == "" <==> Digits(value) == ""
    ensures |r| <= 17
    ensures HasCountryCode(Digits(value)) ==> Text.StartsWith(r, "+1")
    ensures !HasCountryCode(Digits(value)) && |Digits(value)| > 3 ==> Text.StartsWith(r, "(") && |r| <= 14
  {
    FormatDigits(Digits(value))
  }

  /**
   * validatePhoneNumber: ten digits, or eleven starting with the country code 1. A valid
   * number has at least ten characters, and formatting keeps every one of its digits.
   */
  predicate ValidatePhoneNumber(phone: string): (b: bool)
    ensures b ==> |phone| >= 10
    ensures b ==> Truncated(Digits(phone)) == Digits(phone)
  {
    var n := Digits(phone);
    |n| == 10 || (|n| == 11 && HasCountryCode(n))
  }

  /** A formatted number is empty exactly when the input has no digits, and is "+1" for the lone digit 1. */
  lemma FormatEmptyAndCountryCode(value: string)
    ensures FormatPhoneNumber(value) == "" <==> Digits(value) == ""
    ensures Digits(value) == "1" ==> FormatPhoneNumber(value) == "+1"
  {
  }

  /** The digits of a formatted number are the input's digits, cut to eleven or ten. */
  lemma FormatKeepsDigits(value: string)
    ensures Digits(FormatPhoneNumber(value)) == Truncated(Digits(value))
  {
    var n := Digits(value);
    FormattedDigits(n);
  }

  /** The digits of the separators the format inserts. */
  lemma SeparatorDigits()
    ensures Digits("+1") == "1" && Digits("+1 (") == "1" && Digits("+") == ""
    ensures Digits("(") == "" && Digits(") ") == "" && Digits("-") == ""
  {
  }

  lemma {:induction false} DigitsOfFive(a: string, b: string, c: string, d: string, e: string)
    ensures Digits(a + b + c + d + e) == Digits(a) + Digits(b) + Digits(c) + Digits(d) + Digits(e)
  {
    DigitsConcat(a, b);
    DigitsConcat(a + b, c);
    DigitsConcat(a + b + c, d);
    DigitsConcat(a + b + c + d, e);
  }

  /** The digits of a laid-out number: the prefix's digits, then the three groups. */
  lemma {:induction false} DigitsOfLayout(p1: string, a: string, p2: string, m: string, p3: string, l: string)
    requires AllDigits(a) && AllDigits(m) && AllDigits(l)
    requires Digits(p2) == "" && Digits(p3) == ""
    ensures Digits(p1 + a + p2 + m + p3 + l) == Digits(p1) + a + m + l
  {
    DigitsOfFive(p1 + a, p2, m, p3, l);
    DigitsConcat(p1, a);
    DigitsOfDigits(a);
    DigitsOfDigits(m);
    DigitsOfDigits(l);
  }

  lemma FormattedDigitsWithCodeShort(n: string)
    requires AllDigits(n) && HasCountryCode(n) && 1 < |n| <= 4
    ensures Digits(FormatDigits(n)) == Truncated(n)
  {
    var areaCode := n[1..];
    assert FormatDigits(n) == "+1 (" + areaCode;
    DigitsOfDigits(areaCode);
    SeparatorDigits();
    DigitsConcat("+1 (", areaCode);
    assert [n[0]] + areaCode == n;
  }

  lemma FormattedDigitsWithCodeMiddle(n: string)
    requires AllDigits(n) && HasCountryCode(n) && 4 < |n| <= 7
    ensures Digits(FormatDigits(n)) == Truncated(n)
  {
    var areaCode := n[1..4];
    var middle := n[4..];
    assert FormatDigits(n) == "+1 (" + areaCode + ") " + middle + "";
    DigitsOfDigits(areaCode);
    DigitsOfDigits(middle);
    SeparatorDigits();
    DigitsOfFive("+1 (", areaCode, ") ", middle, "");
    assert [n[0]] + areaCode + middle == n;
  }

  lemma FormattedDigitsWithCodeLong(n: string)
    requires AllDigits(n) && HasCountryCode(n) && 7 < |n|
    ensures Digits(FormatDigits(n)) == Truncated(n)
  {
    var areaCode := n[1..4];
    var middle := n[4..7];
    var last := Text.Substring(n, 7, 11);
    assert FormatDigits(n) == "+1 (" + areaCode + ") " + middle + "-" + last;
    SeparatorDigits();
    DigitsOfLayout("+1 (", areaCode, ") ", middle, "-", last);
    assert [n[0]] + areaCode + middle + last == Truncated(n);
  }

  lemma FormattedDigitsNationalMiddle(n: string)
    requires AllDigits(n) && !HasCountryCode(n) && 3 < |n| <= 6
    ensures Digits(FormatDigits(n)) == Truncated(n)
  {
    var areaCode := n[..3];
    var middle := n[3..];
    assert FormatDigits(n) == "(" + areaCode + ") " + middle + "";
    DigitsOfDigits(areaCode);
    DigitsOfDigits(middle);
    SeparatorDigits();
    DigitsOfFive("(", areaCode, ") ", middle, "");
    assert areaCode + middle == n;
  }

  lemma FormattedDigitsNationalLong(n: string)
    requires AllDigits(n) && !HasCountryCode(n) && 6 < |n|
    ensures Digits(FormatDigits(n)) == Truncated(n)
  {
    var areaCode := n[..3];
    var middle := n[3..6];
    var last := Text.Substring(n, 6, 10);
    assert FormatDigits(n) == "(" + areaCode + ") " + middle + "-" + last;
    SeparatorDigits();
    DigitsOfLayout("(", areaCode, ") ", middle, "-", last);
    assert areaCode + middle + last == Truncated(n);
  }

  lemma FormattedDigits(n: string)
    requires AllDigits(n)
    ensures Digits(FormatDigits(n)) == Truncated(n)
  {
    if |n| == 0 {
    } else if |n| == 1 && n[0] == '1' {
      SeparatorDigits();
    } else if HasCountryCode(n) {
      if |n| <= 4 {
        FormattedDigitsWithCodeShort(n);
      } else if |n| <= 7 {
        FormattedDigitsWithCodeMiddle(n);
      } else {
        FormattedDigitsWithCodeLong(n);
      }
    } else if |n| <= 3 {
      DigitsOfDigits(n);
    } else if |n| <= 6 {
      FormattedDigitsNationalMiddle(n);
    } else {
      FormattedDigitsNationalLong(n);
    }
  }

  /** Formatting depends on the kept digits only: digits beyond the eleventh or tenth are dropped. */
  lemma FormatTruncated(n: string)
    ensures FormatDigits(Truncated(n)) == FormatDigits(n)
  {
  }

  /** Formatting an already formatted number changes nothing. */
  lemma FormatIdempotent(value: string)
    ensures FormatPhoneNumber(FormatPhoneNumber(value)) == FormatPhoneNumber(value)
  {
    FormatKeepsDigits(value);
    FormatTruncated(Digits(value));
  }

  /** A valid number stays valid, with the same digits, once formatted. */
  lemma FormatPreservesValidity(value: string)
    requires ValidatePhoneNumber(value)
    ensures ValidatePhoneNumber(FormatPhoneNumber(value))
    ensures Digits(FormatPhoneNumber(value)) == Digits(value)
  {
    FormatKeepsDigits(value);
  }

  /** getPhoneNumberForAPI: `+1` and ten digits, `+` and eleven digits starting with 1, else the input unchanged. */
  function GetPhoneNumberForAPI(formattedPhone: string): (r: string)
    ensures |Digits(formattedPhone)| == 10 ==> r == "+1" + Digits(formattedPhone)
    ensures |Digits(formattedPhone)| == 11 && HasCountryCode(Digits(formattedPhone)) ==> r == "+" + Digits(formattedPhone)
    ensures !ValidatePhoneNumber(formattedPhone) ==> r == formattedPhone
  {
    var numbers := Digits(formattedPhone);
    if |numbers| == 10 then "+1" + numbers
    else if |numbers| == 11 && HasCountryCode(numbers) then "+" + numbers
    else formattedPhone
  }

  /**
   * Every valid number is sent in the E.164 form `+1` followed by its ten national
   * digits, whatever separators it was typed with, and it stays valid.
   */
  lemma ApiNumberOfValid(phone: string)
    requires ValidatePhoneNumber(phone)
    ensures var r := GetPhoneNumberForAPI(phone);
      && |r| == 12 && r[..2] == "+1" && AllDigits(r[1..])
      && ValidatePhoneNumber(r) && Digits(r) == "1" + (if |Digits(phone)| == 10 then Digits(phone) else Digits(phone)[1..])
      && r == "+" + Digits(r)
  {
    var n := Digits(phone);
    var r := GetPhoneNumberForAPI(phone);
    if |n| == 10 {
      assert r == "+" + ("1" + n);
      DigitsOfDigits("1" + n);
      DigitsConcat("+", "1" + n);
      assert Digits("+") == "";
    } else {
      assert r == "+" + n;
      assert n == "1" + n[1..];
      DigitsOfDigits(n);
      DigitsConcat("+", n);
      assert Digits("+") == "";
    }
  }

  /** Normalising twice is normalising once. */
  lemma ApiNumberIdempotent(phone: string)
    ensures GetPhoneNumberForAPI(GetPhoneNumberForAPI(phone)) == GetPhoneNumberForAPI(phone)
  {
    if ValidatePhoneNumber(phone) {
      var r := GetPhoneNumberForAPI(phone);
      ApiNumberOfValid(phone);
      var d := Digits(r);
      assert |d| == 11 && HasCountryCode(d);
      assert GetPhoneNumberForAPI(r) == "+" + d;
    }
  }
}

/**
 * The scalar renderings the query encoders use: Go's `strconv.Itoa`,
 * `strconv.FormatBool` and `strings.Join(_, ", ")`, each with a parser that
 * reads the text back.
 */
module Text {
  import opened Wrappers

  predicate IsDigit(c: char) {
    '0' <= c <= '9'
  }

  predicate AllDigits(s: string) {
    forall i :: 0 <= i < |s| ==> IsDigit(s[i])
  }

  function DigitChar(d: nat): (c: char)
    requires d < 10
    ensures IsDigit(c)
    ensures c == '0' <==> d == 0
  {
    "0123456789"[d]
  }

  function DigitValue(c: char): (d: nat)
    requires IsDigit(c)
    ensures d < 10
  {
    (c as int - '0' as int) as nat
  }

  lemma DigitRoundTrip(d: nat)
    requires d < 10
    ensures DigitValue(DigitChar(d)) == d
  {
  }

  /** Decimal digits of a natural number, most significant first, no leading zero. */
  function Digits(n: nat): (r: string)
    ensures |r| >= 1
    ensures AllDigits(r)
    ensures r[0] == '0' ==> n == 0
    decreases n
  {
    if n < 10 then [DigitChar(n)] else Digits(n / 10) + [DigitChar(n % 10)]
  }

  /** Go's `strconv.Itoa`: a minus sign for negative numbers, then the digits. */
  function Itoa(n: int): string {
    if n < 0 then "-" + Digits(-n) else Digits(n)
  }

  /** Value of a string of decimal digits (the empty string reads as 0). */
  function ParseNat(s: string): nat
    requires AllDigits(s)
  {
    if |s| == 0 then 0 else ParseNat(s[..|s| - 1]) * 10 + DigitValue(s[|s| - 1])
  }

  /** Reads decimal text back: an optional minus sign followed by at least one digit. */
  function ParseInt(s: string): (r: Option<int>)
    ensures r.Some? ==> |s| >= 1
  {
    if |s| >= 2 && s[0] == '-' && AllDigits(s[1..]) then Some(0 - ParseNat(s[1..]) as int)
    else if |s| >= 1 && AllDigits(s) then Some(ParseNat(s))
    else None
  }

  lemma {:induction false} ParseDigits(n: nat)
    ensures ParseNat(Digits(n)) == n
    decreases n
  {
    if n < 10 {
      DigitRoundTrip(n);
    } else {
      var r := Digits(n);
      assert r[..|r| - 1] == Digits(n / 10);
      ParseDigits(n / 10);
      DigitRoundTrip(n % 10);
    }
  }

  lemma ParseUnsigned(d: string)
    requires |d| >= 1 && AllDigits(d)
    ensures ParseInt(d) == Some(ParseNat(d) as int)
  {
    assert IsDigit(d[0]);
  }

  lemma ParseNegative(d: string)
    requires |d| >= 1 && AllDigits(d)
    ensures ParseInt("-" + d) == Some(0 - ParseNat(d) as int)
  {
    var s := "-" + d;
    assert s[0] == '-';
    assert s[1..] == d;
  }

  lemma NegativeRoundTrip(n: int)
    requires n < 0
    ensures ParseInt("-" + Digits(-n)) == Some(n)
  {
    ParseDigits(-n);
    ParseNegative(Digits(-n));
  }

  lemma UnsignedRoundTrip(n: nat)
    ensures ParseInt(Digits(n)) == Some(n)
  {
    ParseDigits(n);
    ParseUnsigned(Digits(n));
  }

  /** Decimal text reads back as the number it renders. */
  lemma ItoaRoundTrip(n: int)
    ensures ParseInt(Itoa(n)) == Some(n)
  {
    if n < 0 {
      NegativeRoundTrip(n);
    } else {
      UnsignedRoundTrip(n);
    }
  }

  /** Distinct numbers never render to the same text. */
  lemma ItoaInjective(a: int, b: int)
    requires Itoa(a) == Itoa(b)
    ensures a == b
  {
    ItoaRoundTrip(a);
    ItoaRoundTrip(b);
  }

  /** Go's `strconv.FormatBool`. */
  function FormatBool(b: bool): (r: string)
    ensures r == "true" || r == "false"
    ensures r == "true" <==> b
  {
    if b then "true" else "false"
  }

  function ParseBool(s: string): Option<bool> {
    if s == "true" then Some(true) else if s == "false" then Some(false) else None
  }

  lemma FormatBoolRoundTrip(b: bool)
    ensures ParseBool(FormatBool(b)) == Some(b)
  {
  }

  /** Go's `strings.Join(xs, ", ")`. */
  function Join(xs: seq<string>): (r: string)
    ensures |xs| == 0 ==> r == ""
    ensures |xs| == 1 ==> r == xs[0]
  {
    if |xs| == 0 then ""
    else if |xs| == 1 then xs[0]
    else xs[0] + ", " + Join(xs[1..])
  }

  /** Position of the first ", " separator in `s`, if any. */
  function FirstSeparator(s: string): (r: Option<nat>)
    ensures r.Some? ==> r.value + 2 <= |s| && s[r.value] == ',' && s[r.value + 1] == ' '
  {
    if |s| < 2 then None
    else if s[0] == ',' && s[1] == ' ' then Some(0)
    else match FirstSeparator(s[1..])
      case None => None
      case Some(i) => Some(i + 1)
  }

  /** Go's `strings.Split(s, ", ")`: the pieces between separators. */
  function Split(s: string): (r: seq<string>)
    ensures |r| >= 1
    decreases |s|
  {
    match FirstSeparator(s)
    case None => [s]
    case Some(i) => [s[..i]] + Split(s[i + 2..])
  }

  predicate NoComma(x: string) {
    forall i :: 0 <= i < |x| ==> x[i] != ','
  }

  lemma {:induction false} NoSeparatorWithoutComma(a: string)
    requires NoComma(a)
    ensures FirstSeparator(a) == None
    decreases |a|
  {
    if |a| >= 2 {
      assert NoComma(a[1..]);
      NoSeparatorWithoutComma(a[1..]);
    }
  }

  lemma {:induction false} SeparatorAfterCommaFreePrefix(a: string, b: string)
    requires NoComma(a)
    ensures FirstSeparator(a + ", " + b) == Some(|a|)
    decreases |a|
  {
    var s := a + ", " + b;
    if |a| > 0 {
      assert s[1..] == a[1..] + ", " + b;
      assert NoComma(a[1..]);
      SeparatorAfterCommaFreePrefix(a[1..], b);
    }
  }

  /**
   * Splitting a joined list recovers it, provided no item contains a comma
   * and the list is not empty (the empty list and the list holding one empty
   * string both join to "").
   */
  lemma {:induction false} SplitJoin(xs: seq<string>)
    requires |xs| >= 1
    requires forall i :: 0 <= i < |xs| ==> NoComma(xs[i])
    ensures Split(Join(xs)) == xs
    decreases |xs|
  {
    if |xs| == 1 {
      NoSeparatorWithoutComma(xs[0]);
    } else {
      var s := Join(xs);
      SeparatorAfterCommaFreePrefix(xs[0], Join(xs[1..]));
      assert s[..|xs[0]|] == xs[0];
      assert s[|xs[0]| + 2..] == Join(xs[1..]);
      SplitJoin(xs[1..]);
      assert [xs[0]] + xs[1..] == xs;
    }
  }

  /** The empty list and the list holding one empty string are indistinguishable on the wire. */
  lemma EmptyListEncodesAsEmptyText()
    ensures Join([]) == "" && Join([""]) == ""
  {
  }
}

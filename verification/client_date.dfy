/**
 * The date shown in the preview watermark of client.js:
 * `${getDate()}/${getMonth() + 1}/${getFullYear() + 543}`, that is
 * day/month/year with a one-based month and the year in the Thai Buddhist
 * Era, each number written the way JavaScript converts an integer to text
 * (decimal, no padding, a leading '-' for negatives).  A parser for such
 * labels is the partner that shows no information is lost.
 */
module WatermarkDate {
  import opened Wrappers

  /** Years of the Buddhist Era run 543 ahead of the Gregorian year. */
  const BuddhistEraOffset := 543

  predicate IsDigit(c: char) {
    '0' <= c <= '9'
  }

  predicate AllDigits(s: string) {
    forall i :: 0 <= i < |s| ==> IsDigit(s[i])
  }

  function DigitChar(d: nat): (c: char)
    requires d < 10
    ensures IsDigit(c) && c as int - '0' as int == d
  {
    (d + '0' as int) as char
  }

  /** The decimal text of `n`: digits only, and no leading zero unless `n` is 0. */
  function DecimalText(n: nat): (r: string)
    ensures r != [] && AllDigits(r)
    ensures r[0] == '0' ==> n == 0 && r == "0"
    ensures n < 10 <==> |r| == 1
  {
    if n < 10 then [DigitChar(n)] else DecimalText(n / 10) + [DigitChar(n % 10)]
  }

  /** The number a string of decimal digits denotes. */
  function DecimalValue(s: string): nat
    requires AllDigits(s)
  {
    if s == [] then 0 else DecimalValue(s[..|s| - 1]) * 10 + (s[|s| - 1] as int - '0' as int)
  }

  /** How a whole number is rendered inside a template literal. */
  function IntText(i: int): (r: string)
    ensures r != [] && '/' !in r
  {
    if i < 0 then "-" + DecimalText(-i) else DecimalText(i)
  }

  /** Decimal digits as `DecimalText` writes them: at least one, no leading zero. */
  predicate CanonicalDigits(s: string) {
    s != [] && AllDigits(s) && (s[0] == '0' ==> s == "0")
  }

  /** The inverse of `IntText`: rejects empty, padded and otherwise malformed text. */
  function ParseInt(s: string): Option<int> {
    if |s| > 1 && s[0] == '-' then
      if CanonicalDigits(s[1..]) && s[1..] != "0" then Some(-(DecimalValue(s[1..]) as int)) else None
    else if CanonicalDigits(s) then Some(DecimalValue(s))
    else None
  }

  /**
   * The watermark date for `day` = `getDate()`, `month0` = `getMonth()`
   * (zero-based) and `year` = `getFullYear()`.
   */
  function DateLabel(day: nat, month0: nat, year: int): string
    requires 1 <= day <= 31 && month0 <= 11
  {
    IntText(day) + "/" + IntText(month0 + 1) + "/" + IntText(year + BuddhistEraOffset)
  }

  /** The position of the first '/' in `s`. */
  function FirstSlash(s: string): (r: Option<nat>)
    ensures r.Some? ==> r.value < |s| && s[r.value] == '/' && '/' !in s[..r.value]
    ensures r.None? ==> '/' !in s
  {
    if s == [] then None
    else if s[0] == '/' then Some(0)
    else match FirstSlash(s[1..])
      case None => None
      case Some(k) => assert s[..k + 1] == [s[0]] + s[1..][..k]; Some(k + 1)
  }

  /** Reads a label back as (day, one-based month, year as written). */
  function ParseDateLabel(s: string): Option<(int, int, int)> {
    match FirstSlash(s)
    case None => None
    case Some(i) =>
      var rest := s[i + 1..];
      match FirstSlash(rest)
      case None => None
      case Some(j) =>
        var d, m, y := ParseInt(s[..i]), ParseInt(rest[..j]), ParseInt(rest[j + 1..]);
        if d.Some? && m.Some? && y.Some? then Some((d.value, m.value, y.value)) else None
  }

  lemma {:induction false} DecimalRoundTrip(n: nat)
    ensures DecimalValue(DecimalText(n)) == n
  {
    if n >= 10 {
      var t := DecimalText(n);
      assert t[..|t| - 1] == DecimalText(n / 10);
      DecimalRoundTrip(n / 10);
    }
  }

  lemma IntRoundTrip(i: int)
    ensures ParseInt(IntText(i)) == Some(i)
  {
    var s := IntText(i);
    if i < 0 {
      var t := DecimalText(-i);
      assert s == "-" + t && s[1..] == t;
      DecimalRoundTrip(-i);
    } else {
      assert IsDigit(s[0]);
      DecimalRoundTrip(i);
    }
  }

  lemma FirstSlashAfter(a: string, b: string)
    requires '/' !in a
    ensures FirstSlash(a + "/" + b) == Some(|a|)
  {
    var s := a + "/" + b;
    assert s[..|a|] == a && s[|a|] == '/';
  }

  /** A label made of three slash-free fields splits back into those fields. */
  lemma ParseJoinedFields(a: string, b: string, c: string)
    requires '/' !in a && '/' !in b
    ensures ParseDateLabel(a + "/" + b + "/" + c) ==
      if ParseInt(a).Some? && ParseInt(b).Some? && ParseInt(c).Some?
      then Some((ParseInt(a).value, ParseInt(b).value, ParseInt(c).value))
      else None
  {
    var s := a + "/" + b + "/" + c;
    assert s == a + "/" + (b + "/" + c);
    FirstSlashAfter(a, b + "/" + c);
    assert s[..|a|] == a;
    var rest := s[|a| + 1..];
    assert rest == b + "/" + c;
    FirstSlashAfter(b, c);
    assert rest[..|b|] == b && rest[|b| + 1..] == c;
  }

  /**
   * The label reads back as the day, the one-based month and the Buddhist
   * Era year: nothing is padded, shifted or lost.
   */
  lemma DateLabelRoundTrip(day: nat, month0: nat, year: int)
    requires 1 <= day <= 31 && month0 <= 11
    ensures ParseDateLabel(DateLabel(day, month0, year)) == Some((day, month0 + 1, year + BuddhistEraOffset))
  {
    ParseJoinedFields(IntText(day), IntText(month0 + 1), IntText(year + BuddhistEraOffset));
    IntRoundTrip(day);
    IntRoundTrip(month0 + 1);
    IntRoundTrip(year + BuddhistEraOffset);
  }

  /** The partner parser accepts only text `IntText` can produce. */
  lemma ParseIntRejectsMalformed()
    ensures ParseInt("") == None && ParseInt("-") == None
    ensures ParseInt("05") == None && ParseInt("-0") == None
  {
  }

  /** Day and month are written without zero padding: one digit below 10, two from 10 on. */
  lemma DateFieldsUnpadded(day: nat, month0: nat)
    requires 1 <= day <= 31 && month0 <= 11
    ensures IntText(day)[0] != '0' && IntText(month0 + 1)[0] != '0'
    ensures |IntText(day)| == (if day < 10 then 1 else 2)
    ensures |IntText(month0 + 1)| == (if month0 < 9 then 1 else 2)
  {
  }
}

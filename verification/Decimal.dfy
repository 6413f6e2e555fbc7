/** Decimal text of sizes and numbers: printing, and parsing as strconv.ParseInt(s, 10, 64) does it. */
module Decimal {
  import opened Wrappers

  const INT64_MAX: int := 0x7FFF_FFFF_FFFF_FFFF
  const INT64_MIN: int := -0x8000_0000_0000_0000

  type Int64 = n: int | INT64_MIN <= n <= INT64_MAX

  function Digit(d: nat): char
    requires d < 10
  {
    '0' + d as char
  }

  function ToDecimal(n: nat): (s: string)
    ensures s != [] && s[0] != '-' && s[0] != '+'
  {
    if n < 10 then [Digit(n)] else ToDecimal(n / 10) + [Digit(n % 10)]
  }

  /** The value of a non-empty string of digits. */
  function DigitsValue(s: string): Option<nat> {
    if s == [] || !('0' <= s[|s| - 1] <= '9') then None
    else
      var last := s[|s| - 1] as int - '0' as int;
      if |s| == 1 then Some(last)
      else
        match DigitsValue(s[..|s| - 1])
        case None => None
        case Some(high) => Some(10 * high + last)
  }

  function ParseInt64(s: string): Option<Int64> {
    var negative := s != [] && s[0] == '-';
    var digits := if s != [] && (s[0] == '-' || s[0] == '+') then s[1..] else s;
    match DigitsValue(digits)
    case None => None
    case Some(n) =>
      var value: int := if negative then -(n as int) else n as int;
      if INT64_MIN <= value <= INT64_MAX then Some(value) else None
  }

  lemma {:induction false} DigitsRoundTrip(n: nat)
    ensures DigitsValue(ToDecimal(n)) == Some(n)
  {
    var s := ToDecimal(n);
    if n < 10 {
    } else {
      DigitsRoundTrip(n / 10);
      assert s[..|s| - 1] == ToDecimal(n / 10);
    }
  }

  /** A number is read back as it was written, with a sign or without, exactly when it fits an int64. */
  lemma DecimalRoundTrip(n: nat)
    ensures ParseInt64(ToDecimal(n)) == if n <= 0x7FFF_FFFF_FFFF_FFFF then Some(n) else None
    ensures ParseInt64("+" + ToDecimal(n)) == ParseInt64(ToDecimal(n))
    ensures ParseInt64("-" + ToDecimal(n)).Some? <==> n <= 0x8000_0000_0000_0000
    ensures n <= 0x8000_0000_0000_0000 ==> ParseInt64("-" + ToDecimal(n)).value == -(n as int)
  {
    DigitsRoundTrip(n);
    assert ("+" + ToDecimal(n))[1..] == ToDecimal(n) && ("-" + ToDecimal(n))[1..] == ToDecimal(n);
  }

  /** What is written are decimal digits without a leading zero, each counting ten times the one to its right. */
  lemma {:induction false} DecimalDigits(n: nat)
    ensures forall c | c in ToDecimal(n) :: '0' <= c <= '9'
    ensures |ToDecimal(n)| > 1 ==> ToDecimal(n)[0] != '0'
    ensures n < 10 ==> ToDecimal(n) == ["0123456789"[n]]
    ensures n >= 10 ==> ToDecimal(n) == ToDecimal(n / 10) + ToDecimal(n % 10)
  {
    if n < 10 {
    } else {
      DecimalDigits(n / 10);
      DecimalDigits(n % 10);
    }
  }

  /** Exactly non-empty strings of digits can be read as numbers without a sign. */
  lemma {:induction false} DigitsReadable(s: string)
    ensures DigitsValue(s).Some? <==> s != [] && forall c | c in s :: '0' <= c <= '9'
  {
    if s == [] {
    } else if |s| == 1 {
      assert s == [s[0]] && s[0] in s;
    } else {
      var init, last := s[..|s| - 1], s[|s| - 1];
      DigitsReadable(init);
      assert s == init + [last];
      assert last in s && forall c | c in s :: c in init || c == last;
      assert forall c | c in init :: c in s;
      assert DigitsValue(s).Some? <==> '0' <= last <= '9' && DigitsValue(init).Some?;
    }
  }

  /** Whatever else there is cannot be read. */
  lemma UnreadableText(s: string)
    requires s == [] || exists c :: c in s && c != '+' && c != '-' && !('0' <= c <= '9')
    ensures ParseInt64(s).None?
  {
    var digits := if s != [] && (s[0] == '-' || s[0] == '+') then s[1..] else s;
    DigitsReadable(digits);
    if s != [] {
      var c :| c in s && c != '+' && c != '-' && !('0' <= c <= '9');
      assert c in digits;
    }
  }
}

/**
 * `parseNum` of the form controller: the first comma of the input becomes a
 * dot, then the text is read by `parseFloat`. A number that JavaScript would
 * give as NaN is `None` here; values are exact reals.
 */
module NumberParser {
  import opened Wrappers
  import Text

  /** Position of the first occurrence of `c` in `s`. */
  function IndexOf(s: string, c: char): (i: nat)
    requires c in s
    ensures i < |s| && s[i] == c && c !in s[..i]
  {
    if s[0] == c then 0 else 1 + IndexOf(s[1..], c)
  }

  /** `val.replace(',', '.')`: a string pattern replaces only its first match. */
  function ReplaceFirstComma(s: string): (r: string)
    ensures |r| == |s|
  {
    if s == [] then []
    else if s[0] == ',' then "." + s[1..]
    else [s[0]] + ReplaceFirstComma(s[1..])
  }

  /** Only the first comma is swapped: the text before it, and after it, is kept. */
  lemma {:induction false} ReplaceFirstCommaSpec(s: string)
    ensures ',' !in s ==> ReplaceFirstComma(s) == s
    ensures ',' in s ==> ReplaceFirstComma(s) == s[..IndexOf(s, ',')] + "." + s[IndexOf(s, ',') + 1..]
  {
    if s != [] && s[0] != ',' {
      ReplaceFirstCommaSpec(s[1..]);
      if ',' in s {
        assert ',' in s[1..];
        assert s[..IndexOf(s, ',')] == [s[0]] + s[1..][..IndexOf(s[1..], ',')];
        assert s[IndexOf(s, ',') + 1..] == s[1..][IndexOf(s[1..], ',') + 1..];
      } else {
        assert ',' !in s[1..];
      }
    }
  }

  predicate IsDigit(c: char) {
    '0' <= c <= '9'
  }

  predicate AllDigits(s: string) {
    forall k :: 0 <= k < |s| ==> IsDigit(s[k])
  }

  function DigitValue(c: char): (d: nat)
    requires IsDigit(c)
    ensures d < 10
  {
    c as int - '0' as int
  }

  /** Length of the run of decimal digits at the start of `s`. */
  function DigitRun(s: string): (n: nat)
    ensures n <= |s| && AllDigits(s[..n])
    ensures n == |s| || !IsDigit(s[n])
  {
    if s == [] || !IsDigit(s[0]) then 0
    else
      var n := DigitRun(s[1..]);
      assert s[..n + 1] == [s[0]] + s[1..][..n];
      n + 1
  }

  /** The natural number a string of decimal digits denotes. */
  function DigitsValue(ds: string): nat
    requires AllDigits(ds)
  {
    if ds == [] then 0 else 10 * DigitsValue(ds[..|ds| - 1]) + DigitValue(ds[|ds| - 1])
  }

  /** The value of fraction digits `fp` written after a decimal point. */
  function FractionValue(fp: string): real
    requires AllDigits(fp)
  {
    if fp == [] then 0.0 else (DigitValue(fp[0]) as real + FractionValue(fp[1..])) / 10.0
  }

  /** The real written as `ip.fp`: integer digits, then fraction digits. */
  function Decimal(ip: string, fp: string): real
    requires AllDigits(ip) && AllDigits(fp)
  {
    DigitsValue(ip) as real + FractionValue(fp)
  }

  /**
   * `parseFloat` on the decimal forms the form accepts: leading white space is
   * skipped, then an optional sign, integer digits, and an optional `.` with
   * fraction digits; at least one digit must be present, else the result is
   * NaN. Whatever follows the longest such prefix is ignored.
   */
  function ParseFloat(s: string): Option<real> {
    var t := Text.TrimStart(s);
    if |t| > 0 && t[0] == '-' then Negate(ParseUnsigned(t[1..]))
    else if |t| > 0 && t[0] == '+' then ParseUnsigned(t[1..])
    else ParseUnsigned(t)
  }

  function Negate(x: Option<real>): Option<real> {
    match x
    case None => None
    case Some(v) => Some(-v)
  }

  /** Digits after a leading `.` of `rest`, or none when it does not start with `.`. */
  function FractionDigits(rest: string): (fp: string)
    ensures AllDigits(fp)
  {
    if |rest| > 0 && rest[0] == '.' then rest[1..][..DigitRun(rest[1..])] else []
  }

  /** The unsigned part of `parseFloat`: integer digits and an optional fraction. */
  function ParseUnsigned(u: string): Option<real> {
    var ip := u[..DigitRun(u)];
    var fp := FractionDigits(u[DigitRun(u)..]);
    if |ip| + |fp| == 0 then None else Some(Decimal(ip, fp))
  }

  /** `parseNum(val)`: NaN for the empty string, else `parseFloat` after the comma swap. */
  function ParseNum(val: string): (r: Option<real>)
    ensures val == "" ==> r == None
  {
    if val == "" then None else ParseFloat(ReplaceFirstComma(val))
  }

  /** JavaScript's `!x` on a number: NaN and zero are falsy. */
  predicate IsFalsy(x: Option<real>) {
    x.None? || x.value == 0.0
  }

  /** A number passing the form's test `!(!x || x <= 0)`. */
  predicate IsPositive(x: Option<real>) {
    x.Some? && x.value > 0.0
  }

  lemma DigitsHaveNoComma(s: string)
    requires AllDigits(s)
    ensures ',' !in s
  {
  }

  lemma {:induction false} DigitRunOfPrefix(ds: string, rest: string)
    requires AllDigits(ds)
    requires rest == [] || !IsDigit(rest[0])
    ensures DigitRun(ds + rest) == |ds|
  {
    if ds != [] {
      assert (ds + rest)[1..] == ds[1..] + rest;
      DigitRunOfPrefix(ds[1..], rest);
    }
  }

  lemma {:induction false} ReplaceAfterComma(a: string, b: string)
    requires ',' !in a
    ensures ReplaceFirstComma(a + "," + b) == a + "." + b
  {
    if a != [] {
      assert (a + "," + b)[1..] == a[1..] + "," + b;
      ReplaceAfterComma(a[1..], b);
    }
  }

  lemma {:induction false} ReplaceSkipsPrefix(a: string, b: string)
    requires ',' !in a
    ensures ReplaceFirstComma(a + b) == a + ReplaceFirstComma(b)
  {
    if a != [] {
      assert (a + b)[1..] == a[1..] + b;
      ReplaceSkipsPrefix(a[1..], b);
    } else {
      assert a + b == b;
    }
  }

  /**
   * A tail that cannot continue a number: empty, or starting with neither a
   * digit nor an exponent mark.
   */
  predicate EndsNumber(rest: string) {
    rest == [] || (!IsDigit(rest[0]) && rest[0] != 'e' && rest[0] != 'E')
  }

  /** The comma swap keeps a tail unable to continue a number. */
  lemma ReplaceKeepsNumberEnd(s: string)
    requires EndsNumber(s)
    ensures EndsNumber(ReplaceFirstComma(s))
  {
  }

  /** With no white space in front, `parseFloat` starts reading at once. */
  lemma NoLeadingSpace(s: string)
    requires s != [] && !Text.IsSpace(s[0])
    ensures Text.TrimStart(s) == s
  {
    assert Text.LeadingSpace(s) == 0;
  }

  lemma {:induction false} ParseUnsignedDecimal(ip: string, fp: string, rest: string)
    requires AllDigits(ip) && AllDigits(fp) && |ip| + |fp| > 0
    requires EndsNumber(rest)
    ensures ParseUnsigned(ip + (['.'] + (fp + rest))) == Some(Decimal(ip, fp))
  {
    var tail := ['.'] + (fp + rest);
    var u := ip + tail;
    DigitRunOfPrefix(ip, tail);
    assert u[..|ip|] == ip;
    assert u[|ip|..] == tail;
    assert tail[1..] == fp + rest;
    DigitRunOfPrefix(fp, rest);
    assert (fp + rest)[..|fp|] == fp;
    assert FractionDigits(tail) == fp;
  }

  lemma {:induction false} ParseUnsignedInteger(ip: string)
    requires AllDigits(ip) && |ip| > 0
    ensures ParseUnsigned(ip) == Some(DigitsValue(ip) as real)
  {
    DigitRunOfPrefix(ip, []);
    assert ip + [] == ip;
    assert ip[..|ip|] == ip;
    assert ip[|ip|..] == [];
  }

  /** `parseFloat` reads `ip.fp` off the front of `ip.fp` followed by a non-digit tail. */
  lemma ParseFloatDecimal(ip: string, fp: string, rest: string)
    requires AllDigits(ip) && AllDigits(fp) && |ip| + |fp| > 0
    requires EndsNumber(rest)
    ensures ParseFloat(ip + "." + fp + rest) == Some(Decimal(ip, fp))
  {
    var s := ip + "." + fp + rest;
    assert s == ip + (['.'] + (fp + rest));
    assert s[0] == if ip == [] then '.' else ip[0];
    NoLeadingSpace(s);
    ParseUnsignedDecimal(ip, fp, rest);
  }

  /**
   * Either separator gives the same number: `parseNum` reads `ip,fp` and
   * `ip.fp` alike, and any tail that cannot continue the number is ignored,
   * whatever commas it holds after the first.
   */
  lemma ParseNumSeparators(ip: string, sep: char, fp: string, rest: string)
    requires AllDigits(ip) && AllDigits(fp) && |ip| + |fp| > 0
    requires sep == '.' || sep == ','
    requires EndsNumber(rest)
    ensures ParseNum(ip + [sep] + fp + rest) == Some(Decimal(ip, fp))
  {
    DigitsHaveNoComma(ip);
    DigitsHaveNoComma(fp);
    var s := ip + [sep] + fp + rest;
    if sep == ',' {
      assert s == ip + "," + (fp + rest);
      ReplaceAfterComma(ip, fp + rest);
      assert ReplaceFirstComma(s) == ip + "." + fp + rest;
      ParseFloatDecimal(ip, fp, rest);
    } else {
      assert ',' !in ip + "." + fp;
      assert s == (ip + "." + fp) + rest;
      ReplaceSkipsPrefix(ip + "." + fp, rest);
      ReplaceKeepsNumberEnd(rest);
      var rest' := ReplaceFirstComma(rest);
      assert ReplaceFirstComma(s) == ip + "." + fp + rest';
      ParseFloatDecimal(ip, fp, rest');
    }
  }

  /** Text without a comma goes to `parseFloat` unchanged. */
  lemma ParseNumNoComma(s: string)
    requires s != [] && ',' !in s
    ensures ParseNum(s) == ParseFloat(s)
  {
    ReplaceFirstCommaSpec(s);
  }

  /** `parseFloat` of a leading minus sign negates the unsigned number after it. */
  lemma ParseFloatMinus(s: string)
    requires s != [] && s[0] == '-'
    ensures ParseFloat(s) == Negate(ParseUnsigned(s[1..]))
  {
    NoLeadingSpace(s);
  }

  /** A leading minus sign negates what the digits after it denote. */
  lemma ParseNumNegative(ip: string)
    requires AllDigits(ip) && |ip| > 0
    ensures ParseNum("-" + ip) == Some(-(DigitsValue(ip) as real))
    ensures !IsPositive(ParseNum("-" + ip))
  {
    DigitsHaveNoComma(ip);
    var s := "-" + ip;
    assert ',' !in s;
    ParseNumNoComma(s);
    ParseFloatMinus(s);
    assert s[1..] == ip;
    ParseUnsignedInteger(ip);
  }

  /** Text that starts with no digit, sign, point, comma, space or `Infinity` is NaN. */
  lemma ParseNumNoDigits(val: string)
    requires val != [] && !IsDigit(val[0]) && !Text.IsSpace(val[0])
    requires val[0] != '-' && val[0] != '+' && val[0] != '.' && val[0] != ',' && val[0] != 'I'
    ensures ParseNum(val) == None
  {
    assert ReplaceFirstComma(val)[0] == val[0];
  }

  /** A plain digit string reads as the integer it denotes. */
  lemma ParseNumInteger(ip: string)
    requires AllDigits(ip) && |ip| > 0
    ensures ParseNum(ip) == Some(DigitsValue(ip) as real)
  {
    DigitsHaveNoComma(ip);
    ReplaceFirstCommaSpec(ip);
    assert ParseNum(ip) == ParseFloat(ip);
    assert IsDigit(ip[0]);
    NoLeadingSpace(ip);
    ParseUnsignedInteger(ip);
    assert ParseFloat(ip) == ParseUnsigned(ip);
  }

  lemma DecimalExamples()
    ensures Decimal("1", "5") == 1.5 && Decimal("0", "5") == 0.5
  {
    assert DigitsValue("1") == 1 by { assert "1"[..0] == ""; }
    assert DigitsValue("0") == 0 by { assert "0"[..0] == ""; }
    assert FractionValue("5") == 0.5 by { assert "5"[1..] == ""; }
  }

  /** A decimal written with a comma, as the form accepts it. */
  lemma ParseNumCommaExample()
    ensures ParseNum("1,5") == Some(1.5)
  {
    DecimalExamples();
    assert "1" + [','] + "5" + "" == "1,5";
    ParseNumSeparators("1", ',', "5", "");
  }

  /** Only the first comma is a decimal separator: the text from the second one on is ignored. */
  lemma ParseNumSecondCommaExample()
    ensures ParseNum("0,5,1") == Some(0.5)
  {
    DecimalExamples();
    assert "0" + [','] + "5" + ",1" == "0,5,1";
    ParseNumSeparators("0", ',', "5", ",1");
  }
}

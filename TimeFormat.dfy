/**
 * The time-string codec of src/utils/index.ts: `secondsToString` prints a second count as
 * "HH:MM:SS" and `hmsToSecondsOnly` reads colon-separated fields back, weighting them by
 * powers of 60 from the right. JavaScript's NaN is `None`.
 */
module TimeFormat {
  import opened Wrappers

  // ---------------------------------------------------------------- digits and decimal text

  predicate IsDigit(c: char) {
    '0' <= c <= '9'
  }

  predicate AllDigits(s: string) {
    forall i :: 0 <= i < |s| ==> IsDigit(s[i])
  }

  function DigitValue(c: char): nat
    requires IsDigit(c)
  {
    (c as int) - ('0' as int)
  }

  function DigitChar(d: nat): (c: char)
    requires d < 10
    ensures IsDigit(c) && DigitValue(c) == d
  {
    (('0' as int) + d) as char
  }

  /** The value of a run of decimal digits, most significant first. */
  function DigitsValue(ds: string): nat
    requires AllDigits(ds)
  {
    if |ds| == 0 then 0 else 10 * DigitsValue(ds[..|ds| - 1]) + DigitValue(ds[|ds| - 1])
  }

  /** The decimal text of a natural number, as a template literal prints it. */
  function NatToString(n: nat): (s: string)
    ensures 1 <= |s| && AllDigits(s)
  {
    if n < 10 then [DigitChar(n)] else NatToString(n / 10) + [DigitChar(n % 10)]
  }

  lemma {:induction false} NatToStringValue(n: nat)
    ensures DigitsValue(NatToString(n)) == n
  {
    if n >= 10 {
      var s := NatToString(n);
      assert s[..|s| - 1] == NatToString(n / 10);
      NatToStringValue(n / 10);
    }
  }

  /** A leading zero does not change the value of a digit run. */
  lemma {:induction false} LeadingZero(ds: string)
    requires AllDigits(ds)
    ensures AllDigits("0" + ds) && DigitsValue("0" + ds) == DigitsValue(ds)
  {
    if |ds| > 0 {
      var z := "0" + ds;
      assert z[..|z| - 1] == "0" + ds[..|ds| - 1];
      LeadingZero(ds[..|ds| - 1]);
    }
  }

  // ---------------------------------------------------------------- parseInt(s, 10)

  /** The characters JavaScript's parseInt skips before the number. */
  predicate IsJsWhiteSpace(c: char) {
    c in {' ', '\t', '\n', '\r', '\U{000B}', '\U{000C}', '\U{00A0}', '\U{1680}',
          '\U{2028}', '\U{2029}', '\U{202F}', '\U{205F}', '\U{3000}', '\U{FEFF}'}
    || '\U{2000}' <= c <= '\U{200A}'
  }

  function TrimStart(s: string): string
  {
    if |s| > 0 && IsJsWhiteSpace(s[0]) then TrimStart(s[1..]) else s
  }

  /** The longest prefix of `s` made of decimal digits. */
  function DigitPrefix(s: string): (r: string)
    ensures AllDigits(r)
  {
    if |s| > 0 && IsDigit(s[0]) then [s[0]] + DigitPrefix(s[1..]) else []
  }

  /**
   * parseInt(s, 10): leading white space is skipped, an optional sign is read, then the
   * longest run of digits; with no digits the result is NaN (`None`).
   */
  function ParseInt(s: string): Option<int> {
    var t := TrimStart(s);
    var signed := |t| > 0 && (t[0] == '-' || t[0] == '+');
    var ds := DigitPrefix(if signed then t[1..] else t);
    var v: int := if |ds| == 0 then 0 else DigitsValue(ds);
    if |ds| == 0 then None
    else if signed && t[0] == '-' then Some(-v)
    else Some(v)
  }

  lemma {:induction false} DigitPrefixAll(ds: string)
    requires AllDigits(ds)
    ensures DigitPrefix(ds) == ds
  {
    if |ds| > 0 {
      DigitPrefixAll(ds[1..]);
      assert [ds[0]] + ds[1..] == ds;
    }
  }

  lemma ParseIntDigits(ds: string)
    requires |ds| > 0 && AllDigits(ds)
    ensures ParseInt(ds) == Some(DigitsValue(ds))
  {
    assert IsDigit(ds[0]);
    assert !IsJsWhiteSpace(ds[0]);
    assert TrimStart(ds) == ds;
    DigitPrefixAll(ds);
  }

  // ---------------------------------------------------------------- parseInt(s) without a radix

  predicate IsHexDigit(c: char) {
    IsDigit(c) || 'a' <= c <= 'f' || 'A' <= c <= 'F'
  }

  predicate AllHexDigits(s: string) {
    forall i :: 0 <= i < |s| ==> IsHexDigit(s[i])
  }

  function HexDigitValue(c: char): (v: nat)
    requires IsHexDigit(c)
    ensures v < 16
  {
    if IsDigit(c) then DigitValue(c)
    else if 'a' <= c <= 'f' then (c as int) - ('a' as int) + 10
    else (c as int) - ('A' as int) + 10
  }

  /** The value of a run of hexadecimal digits, most significant first. */
  function HexValue(hs: string): nat
    requires AllHexDigits(hs)
  {
    if |hs| == 0 then 0 else 16 * HexValue(hs[..|hs| - 1]) + HexDigitValue(hs[|hs| - 1])
  }

  /** The longest prefix of `s` made of hexadecimal digits. */
  function HexPrefix(s: string): (r: string)
    ensures AllHexDigits(r)
  {
    if |s| > 0 && IsHexDigit(s[0]) then [s[0]] + HexPrefix(s[1..]) else []
  }

  /** The text parseInt reads digits from: after the leading white space and an optional sign. */
  function Unsigned(s: string): string {
    var t := TrimStart(s);
    if |t| > 0 && (t[0] == '-' || t[0] == '+') then t[1..] else t
  }

  /** Whether that text starts with "0x" or "0X", which selects base 16 when no radix is given. */
  predicate HexMarked(u: string) {
    |u| >= 2 && u[0] == '0' && (u[1] == 'x' || u[1] == 'X')
  }

  /**
   * parseInt(s) with no radix: as parseInt(s, 10), except that a "0x" or "0X" after the
   * sign makes the digits that follow hexadecimal; with no hexadecimal digit there the
   * result is NaN.
   */
  function ParseIntAuto(s: string): (r: Option<int>)
    ensures !HexMarked(Unsigned(s)) ==> r == ParseInt(s)
    ensures HexMarked(Unsigned(s)) ==> (r.None? <==> HexPrefix(Unsigned(s)[2..]) == "")
  {
    var t := TrimStart(s);
    var u := Unsigned(s);
    if HexMarked(u) then
      var hs := HexPrefix(u[2..]);
      var v: int := if |hs| == 0 then 0 else HexValue(hs);
      if |hs| == 0 then None
      else if t[0] == '-' then Some(-v)
      else Some(v)
    else ParseInt(s)
  }

  lemma {:induction false} HexPrefixAll(hs: string)
    requires AllHexDigits(hs)
    ensures HexPrefix(hs) == hs
  {
    if |hs| > 0 {
      HexPrefixAll(hs[1..]);
      assert [hs[0]] + hs[1..] == hs;
    }
  }

  /** "0x" or "0X" followed by hexadecimal digits reads as their base-16 value. */
  lemma ParseIntAutoHex(x: char, hs: string)
    requires (x == 'x' || x == 'X') && |hs| > 0 && AllHexDigits(hs)
    ensures ParseIntAuto(['0', x] + hs) == Some(HexValue(hs))
  {
    var s := ['0', x] + hs;
    assert !IsJsWhiteSpace(s[0]);
    assert TrimStart(s) == s;
    assert Unsigned(s) == s;
    assert s[2..] == hs;
    HexPrefixAll(hs);
  }

  /** Without a radix "0x32" is 50, where the base-10 reading stops at the "x" and gives 0. */
  lemma HexVersusDecimal()
    ensures ParseIntAuto("0x32") == Some(50)
    ensures ParseInt("0x32") == Some(0)
  {
    ParseIntAutoHex('x', "32");
    assert "0x32" == ['0', 'x'] + "32";
    assert HexValue("32") == 16 * HexValue("3") + 2 by {
      assert "32"[..1] == "3";
    }
    assert HexValue("3") == 3 by {
      assert "3"[..0] == "";
    }
    var s := "0x32";
    assert TrimStart(s) == s;
    assert DigitPrefix(s[1..]) == [] by {
      assert !IsDigit(s[1..][0]);
    }
    assert DigitPrefix(s) == "0" by {
      assert s[1..] == "x32";
    }
    assert DigitsValue("0") == 0 by {
      assert "0"[..0] == "";
    }
  }

  // ---------------------------------------------------------------- split(':') and join

  /** String.prototype.split(':'): the empty string gives one empty field. */
  function Split(s: string): (r: seq<string>)
    ensures |r| >= 1
    ensures forall i :: 0 <= i < |r| ==> ':' !in r[i]
  {
    if |s| == 0 then [""]
    else
      var rest := Split(s[1..]);
      if s[0] == ':' then [""] + rest else [[s[0]] + rest[0]] + rest[1..]
  }

  /** Array.prototype.join(':'). */
  function Join(p: seq<string>): string
    requires |p| >= 1
  {
    if |p| == 1 then p[0] else p[0] + ":" + Join(p[1..])
  }

  lemma {:induction false} SplitField(a: string)
    requires ':' !in a
    ensures Split(a) == [a]
  {
    if |a| > 0 {
      SplitField(a[1..]);
      assert [a[0]] + a[1..] == a;
    }
  }

  lemma {:induction false} SplitFieldThen(a: string, b: string)
    requires ':' !in a
    ensures Split(a + ":" + b) == [a] + Split(b)
  {
    if |a| == 0 {
      assert a + ":" + b == ":" + b;
      assert (":" + b)[1..] == b;
    } else {
      var s := a + ":" + b;
      assert s[1..] == a[1..] + ":" + b;
      SplitFieldThen(a[1..], b);
      assert [a[0]] + a[1..] == a;
    }
  }

  /** Splitting undoes joining fields that hold no colon. */
  lemma {:induction false} SplitJoin(p: seq<string>)
    requires |p| >= 1 && forall i :: 0 <= i < |p| ==> ':' !in p[i]
    ensures Split(Join(p)) == p
  {
    if |p| == 1 {
      SplitField(p[0]);
    } else {
      SplitFieldThen(p[0], Join(p[1..]));
      SplitJoin(p[1..]);
    }
  }

  /** Joining undoes splitting. */
  lemma {:induction false} JoinSplit(s: string)
    ensures Join(Split(s)) == s
  {
    if |s| > 0 {
      JoinSplit(s[1..]);
      var rest := Split(s[1..]);
      if s[0] == ':' {
        assert ([""] + rest)[1..] == rest;
        assert s == "" + ":" + s[1..];
      } else {
        var r := [[s[0]] + rest[0]] + rest[1..];
        if |rest| == 1 {
          assert s == [s[0]] + s[1..];
        } else {
          assert r[1..] == rest[1..];
          assert Join(rest) == rest[0] + ":" + Join(rest[1..]);
          assert s == [s[0]] + s[1..];
        }
      }
    }
  }

  // ---------------------------------------------------------------- hmsToSecondsOnly

  /** NaN-propagating addition. */
  function Plus(a: Option<int>, b: Option<int>): Option<int> {
    if a.Some? && b.Some? then Some(a.value + b.value) else None
  }

  /** NaN-propagating multiplication by a number. */
  function Times(k: int, a: Option<int>): Option<int> {
    if a.Some? then Some(k * a.value) else None
  }

  /** The value of colon-separated fields: the last weighs 1, the one before 60, and so on. */
  function FieldsValue(p: seq<string>): Option<int> {
    if |p| == 0 then Some(0)
    else Plus(ParseInt(p[|p| - 1]), Times(60, FieldsValue(p[..|p| - 1])))
  }

  /** What hmsToSecondsOnly returns for `str` (an undefined argument is the empty string). */
  function HmsToSeconds(str: string): Option<int> {
    FieldsValue(Split(str))
  }

  lemma AccumulateStep(s: Option<int>, m: int, x: Option<int>, rest: Option<int>)
    ensures Plus(s, Times(m, Plus(x, Times(60, rest))))
         == Plus(Plus(s, Times(m, x)), Times(m * 60, rest))
  {
    if s.Some? && x.Some? && rest.Some? {
      calc {
        m * (x.value + 60 * rest.value);
        m * x.value + m * (60 * rest.value);
        { assert m * (60 * rest.value) == (m * 60) * rest.value; }
        m * x.value + (m * 60) * rest.value;
      }
    }
  }

  /** hmsToSecondsOnly: pops fields from the right, weighting each by the running power of 60. */
  method HmsToSecondsOnly(str: string) returns (s: Option<int>)
    ensures s == HmsToSeconds(str)
  {
    var p := Split(str);
    s := Some(0);
    var m := 1;
    while |p| > 0
      invariant Plus(s, Times(m, FieldsValue(p))) == HmsToSeconds(str)
    {
      var last := p[|p| - 1];
      p := p[..|p| - 1];
      AccumulateStep(s, m, ParseInt(last), FieldsValue(p));
      s := Plus(s, Times(m, ParseInt(last)));
      m := m * 60;
    }
  }

  /** A single field "s" weighs 1. */
  lemma HmsOneField(s: string)
    requires ':' !in s
    ensures HmsToSeconds(s) == ParseInt(s)
  {
    SplitField(s);
    assert [s][..0] == [];
    assert FieldsValue([s]) == Plus(ParseInt(s), Times(60, Some(0)));
  }

  /** "m:s" weighs its fields 60 and 1. */
  lemma HmsTwoFields(m: string, s: string)
    requires ':' !in m && ':' !in s
    ensures HmsToSeconds(m + ":" + s) == Plus(ParseInt(s), Times(60, ParseInt(m)))
  {
    SplitFieldThen(m, s);
    SplitField(s);
    var p := [m, s];
    assert Split(m + ":" + s) == p;
    assert p[..1] == [m] && [m][..0] == [];
    assert FieldsValue([m]) == ParseInt(m);
    assert FieldsValue(p) == Plus(ParseInt(s), Times(60, FieldsValue([m])));
  }

  /** "h:m:s" weighs its fields 3600, 60 and 1. */
  lemma HmsThreeFields(h: string, m: string, s: string, x: int, y: int, z: int)
    requires ':' !in h && ':' !in m && ':' !in s
    requires ParseInt(h) == Some(x) && ParseInt(m) == Some(y) && ParseInt(s) == Some(z)
    ensures HmsToSeconds(h + ":" + m + ":" + s) == Some(x * 3600 + y * 60 + z)
  {
    SplitThree(h, m, s);
    FieldsValueThree(h, m, s);
  }

  lemma SplitThree(h: string, m: string, s: string)
    requires ':' !in h && ':' !in m && ':' !in s
    ensures Split(h + ":" + m + ":" + s) == [h, m, s]
  {
    Regroup(h, m, s);
    SplitFieldThen(h, m + ":" + s);
    SplitTwo(m, s);
    assert [h] + [m, s] == [h, m, s];
  }

  lemma Regroup(h: string, m: string, s: string)
    ensures h + ":" + m + ":" + s == h + ":" + (m + ":" + s)
  {
  }

  lemma SplitTwo(m: string, s: string)
    requires ':' !in m && ':' !in s
    ensures Split(m + ":" + s) == [m, s]
  {
    SplitFieldThen(m, s);
    SplitField(s);
  }

  lemma FieldsValueThree(h: string, m: string, s: string)
    requires ParseInt(h).Some? && ParseInt(m).Some? && ParseInt(s).Some?
    ensures FieldsValue([h, m, s]) == Some(ParseInt(h).value * 3600 + ParseInt(m).value * 60 + ParseInt(s).value)
  {
    var p := [h, m, s];
    assert p[..2] == [h, m] && [h, m][..1] == [h] && [h][..0] == [];
    assert FieldsValue([h]) == ParseInt(h);
    assert FieldsValue([h, m]) == Some(ParseInt(m).value + 60 * ParseInt(h).value);
  }

  /** The empty string (and so an undefined duration) reads as NaN. */
  lemma EmptyIsNaN()
    ensures HmsToSeconds("") == None
  {
    assert Split("") == [""];
    assert TrimStart("") == "";
  }

  // ---------------------------------------------------------------- secondsToString

  /** `norm` of secondsToString: values below 10 get a leading "0". */
  function Norm(v: nat): string {
    if v < 10 then "0" + NatToString(v) else NatToString(v)
  }

  lemma NormTwoDigits(v: nat)
    requires v < 100
    ensures |Norm(v)| == 2 && AllDigits(Norm(v))
    ensures 10 * DigitValue(Norm(v)[0]) + DigitValue(Norm(v)[1]) == v
  {
    if v >= 10 {
      assert NatToString(v / 10) == [DigitChar(v / 10)];
    }
  }

  lemma {:induction false} ParseNorm(v: nat)
    ensures ':' !in Norm(v)
    ensures ParseInt(Norm(v)) == Some(v)
  {
    var t := NatToString(v);
    assert forall i :: 0 <= i < |t| ==> t[i] != ':' by {
      forall i | 0 <= i < |t| ensures t[i] != ':' { assert IsDigit(t[i]); }
    }
    NatToStringValue(v);
    if v < 10 {
      LeadingZero(t);
    }
    ParseIntDigits(Norm(v));
  }

  /** The hour, minute and second fields that secondsToString prints. */
  function Hours(seconds: nat): nat { ((seconds % 31536000) % 86400) / 3600 }
  function Minutes(seconds: nat): nat { (((seconds % 31536000) % 86400) % 3600) / 60 }
  function Secs(seconds: nat): nat { (((seconds % 31536000) % 86400) % 3600) % 60 }

  lemma FieldsOfDay(seconds: nat)
    ensures Hours(seconds) == (seconds % 86400) / 3600 < 24
    ensures Minutes(seconds) == (seconds % 3600) / 60 < 60
    ensures Secs(seconds) == seconds % 60
    ensures (seconds % 86400) % 3600 == seconds % 3600 && (seconds % 86400) % 60 == seconds % 60
  {
    ModOfMultiple(seconds, 86400, 365);
    ModOfMultiple(seconds, 3600, 24);
    ModOfMultiple(seconds, 60, 60);
    ModOfMultiple(seconds, 60, 1440);
  }

  /** Reducing modulo a multiple of `d` first does not change the remainder modulo `d`. */
  lemma ModOfMultiple(x: nat, d: nat, k: nat)
    requires d > 0 && k > 0
    ensures (x % (d * k)) % d == x % d
  {
    var q := x / (d * k);
    var r := x % (d * k);
    assert x == (q * k) * d + r by {
      assert (d * k) * q == (q * k) * d;
    }
    var r' := r % d;
    assert r == (r / d) * d + r';
    assert x == (q * k + r / d) * d + r';
    UniqueRemainder(x, d, q * k + r / d, r');
  }

  lemma UniqueRemainder(x: int, d: int, q: int, r: int)
    requires d > 0 && 0 <= r < d && x == q * d + r
    ensures x % d == r
  {
    var q', r' := x / d, x % d;
    assert x == q' * d + r';
    var t := q - q';
    assert t * d == r' - r by {
      assert q * d - q' * d == (q - q') * d;
    }
    if t > 0 {
      AtLeastOnce(t, d);
    } else if t < 0 {
      AtMostMinusOnce(t, d);
    }
  }

  lemma AtMostMinusOnce(t: int, d: int)
    requires t <= -1 && d > 0
    ensures t * d <= -d
  {
    assert t * d == (t + 1) * d - d;
  }

  lemma AtLeastOnce(t: int, d: int)
    requires t >= 1 && d > 0
    ensures t * d >= d
  {
    assert t * d == (t - 1) * d + d;
  }

  /** secondsToString: "HH:MM:SS", each field zero-padded to two digits. */
  function SecondsToString(seconds: nat): (r: string)
    ensures |r| == 8 && r[2] == ':' && r[5] == ':'
    ensures forall i :: 0 <= i < 8 && i != 2 && i != 5 ==> IsDigit(r[i])
    ensures 10 * DigitValue(r[0]) + DigitValue(r[1]) == (seconds % 86400) / 3600
    ensures 10 * DigitValue(r[3]) + DigitValue(r[4]) == (seconds % 3600) / 60
    ensures 10 * DigitValue(r[6]) + DigitValue(r[7]) == seconds % 60
  {
    FieldsOfDay(seconds);
    NormTwoDigits(Hours(seconds));
    NormTwoDigits(Minutes(seconds));
    NormTwoDigits(Secs(seconds));
    Clock(Hours(seconds), Minutes(seconds), Secs(seconds))
  }

  function Clock(h: nat, m: nat, s: nat): string {
    Norm(h) + ":" + Norm(m) + ":" + Norm(s)
  }

  /** The printed text depends only on the time of day. */
  lemma SecondsToStringPeriodic(seconds: nat)
    ensures SecondsToString(seconds) == SecondsToString(seconds % 86400)
  {
    SameDayFields(seconds);
  }

  lemma SameDayFields(seconds: nat)
    ensures Hours(seconds) == Hours(seconds % 86400)
    ensures Minutes(seconds) == Minutes(seconds % 86400)
    ensures Secs(seconds) == Secs(seconds % 86400)
  {
    var d := seconds % 86400;
    FieldsOfDay(seconds);
    FieldsOfDay(d);
    UniqueRemainder(d, 86400, 0, d);
    assert d % 3600 == seconds % 3600 && d % 60 == seconds % 60;
  }

  lemma ClockRoundTrip(h: nat, m: nat, s: nat)
    ensures HmsToSeconds(Clock(h, m, s)) == Some(h * 3600 + m * 60 + s)
  {
    var a, b, c := Norm(h), Norm(m), Norm(s);
    ParseNorm(h);
    ParseNorm(m);
    ParseNorm(s);
    HmsThreeFields(a, b, c, h, m, s);
    assert Clock(h, m, s) == a + ":" + b + ":" + c;
  }

  /** Round trip: reading back the printed text gives the second count, below one day. */
  lemma RoundTrip(seconds: nat)
    requires seconds < 86400
    ensures HmsToSeconds(SecondsToString(seconds)) == Some(seconds)
  {
    var h, m, s := Hours(seconds), Minutes(seconds), Secs(seconds);
    DayFieldsSum(seconds);
    assert SecondsToString(seconds) == Clock(h, m, s);
    ClockReadsBack(SecondsToString(seconds), h, m, s, seconds);
  }

  lemma ClockReadsBack(str: string, h: nat, m: nat, s: nat, n: int)
    requires str == Clock(h, m, s) && h * 3600 + m * 60 + s == n
    ensures HmsToSeconds(str) == Some(n)
  {
    ClockRoundTrip(h, m, s);
  }

  lemma DayFieldsSum(seconds: nat)
    requires seconds < 86400
    ensures Hours(seconds) * 3600 + Minutes(seconds) * 60 + Secs(seconds) == seconds
  {
    FieldsOfDay(seconds);
    UniqueRemainder(seconds, 86400, 0, seconds);
    var r := seconds % 3600;
    assert seconds == Hours(seconds) * 3600 + r;
    assert r == Minutes(seconds) * 60 + r % 60;
    ModOfMultiple(seconds, 60, 60);
  }

  /** The live-stream duration sentinel reads as 86399 seconds. */
  lemma LiveSentinel()
    ensures SecondsToString(86399) == "23:59:59"
    ensures HmsToSeconds("23:59:59") == Some(86399)
  {
    assert Hours(86399) == 23 && Minutes(86399) == 59 && Secs(86399) == 59;
    assert SecondsToString(86399) == Clock(23, 59, 59);
    assert NatToString(23) == "23" by {
      assert NatToString(2) == "2";
      assert NatToString(23) == NatToString(2) + [DigitChar(3)];
    }
    assert NatToString(59) == "59" by {
      assert NatToString(5) == "5";
      assert NatToString(59) == NatToString(5) + [DigitChar(9)];
    }
    assert Clock(23, 59, 59) == "23:59:59";
    RoundTrip(86399);
  }
}

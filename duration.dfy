/**
 * Duration formatting (`format_duration`). The elapsed time is taken the way
 * Python's `timedelta.seconds` gives it: the difference reduced modulo one day,
 * so it always lies in 0 .. 86399 and any whole days are dropped. Two `divmod`s
 * split it into hours, minutes and seconds, and the label names hours only when
 * there are some, and minutes only when there are some or there are hours.
 */
module Duration {
  import opened Wrappers

  const SecondsPerDay: nat := 86400

  /** `(end - start).seconds`: the part of the difference within one day. */
  function DaySeconds(start: int, end: int): (s: nat)
    ensures s < SecondsPerDay
    ensures (end - start - s) % SecondsPerDay == 0
    ensures 0 <= end - start < SecondsPerDay ==> s == end - start
  {
    (end - start) % SecondsPerDay
  }

  /** The shape of a label and the numbers it shows. */
  datatype Label =
    | HoursMinutesSeconds(hours: nat, minutes: nat, seconds: nat)
    | MinutesSeconds(minutes: nat, seconds: nat)
    | SecondsOnly(seconds: nat)

  /** The number of seconds a label stands for. */
  function LabelSeconds(l: Label): nat
  {
    match l
    case HoursMinutesSeconds(h, m, s) => h * 3600 + m * 60 + s
    case MinutesSeconds(m, s) => m * 60 + s
    case SecondsOnly(s) => s
  }

  /** `mins, secs = divmod(total, 60)` then `hours, mins = divmod(mins, 60)`. */
  function Breakdown(total: nat): (r: (nat, nat, nat))
    requires total < SecondsPerDay
    ensures r.0 <= 23 && r.1 < 60 && r.2 < 60
    ensures r.0 * 3600 + r.1 * 60 + r.2 == total
  {
    var mins := total / 60;
    var secs := total % 60;
    var hours := mins / 60;
    (hours, mins % 60, secs)
  }

  /**
   * The three-way choice of `format_duration`: all three parts exactly when
   * there is at least an hour, minutes and seconds exactly when there is at
   * least a minute but less than an hour, seconds only otherwise; every shown
   * minute and second count is below 60, and the label stands for `total`.
   */
  function Shape(total: nat): (l: Label)
    requires total < SecondsPerDay
    ensures LabelSeconds(l) == total
    ensures l.HoursMinutesSeconds? <==> total >= 3600
    ensures l.MinutesSeconds? <==> 60 <= total < 3600
    ensures l.SecondsOnly? <==> total < 60
    ensures l.HoursMinutesSeconds? ==> 0 < l.hours <= 23 && l.minutes < 60 && l.seconds < 60
    ensures l.MinutesSeconds? ==> 0 < l.minutes < 60 && l.seconds < 60
    ensures l.SecondsOnly? ==> l.seconds < 60
  {
    var (hours, mins, secs) := Breakdown(total);
    if hours > 0 then HoursMinutesSeconds(hours, mins, secs)
    else if mins > 0 then MinutesSeconds(mins, secs)
    else SecondsOnly(secs)
  }

  predicate IsDigit(c: char)
  {
    '0' <= c <= '9'
  }

  predicate AllDigits(s: string)
  {
    forall i :: 0 <= i < |s| ==> IsDigit(s[i])
  }

  /** A string of digits without a superfluous leading zero. */
  predicate IsNumeral(s: string)
  {
    |s| >= 1 && AllDigits(s) && (|s| == 1 || s[0] != '0')
  }

  function DigitChar(d: nat): (c: char)
    requires d < 10
    ensures IsDigit(c)
  {
    ('0' as int + d) as char
  }

  function DigitValue(c: char): nat
    requires IsDigit(c)
  {
    c as int - '0' as int
  }

  /** The decimal numeral of `n`, as `str(n)` or an f-string writes it: digits
      only, and no leading zero unless `n` is 0. */
  function Decimal(n: nat): (s: string)
    ensures IsNumeral(s)
    ensures n > 0 ==> s[0] != '0'
  {
    if n < 10 then [DigitChar(n)] else Decimal(n / 10) + [DigitChar(n % 10)]
  }

  /** The number a string of digits denotes. */
  function DecimalValue(s: string): nat
    requires AllDigits(s)
  {
    if s == [] then 0 else DecimalValue(s[..|s| - 1]) * 10 + DigitValue(s[|s| - 1])
  }

  lemma {:induction false} DecimalRoundTrip(n: nat)
    ensures DecimalValue(Decimal(n)) == n
  {
    if n >= 10 {
      DecimalRoundTrip(n / 10);
      var s := Decimal(n);
      assert s[..|s| - 1] == Decimal(n / 10);
    } else {
      assert Decimal(n)[..0] == [];
    }
  }

  /** A numeral whose first digit is not zero denotes a positive number. */
  lemma {:induction false} LeadingDigitPositive(ds: string)
    requires |ds| >= 1 && AllDigits(ds) && ds[0] != '0'
    ensures DecimalValue(ds) >= 1
  {
    if |ds| == 1 {
      assert ds[..0] == [];
    } else {
      LeadingDigitPositive(ds[..|ds| - 1]);
    }
  }

  /** Every numeral is the numeral of the number it denotes: `Decimal` is the
      only way to write a number as a numeral. */
  lemma {:induction false} NumeralRoundTrip(ds: string)
    requires IsNumeral(ds)
    ensures Decimal(DecimalValue(ds)) == ds
  {
    var n := |ds|;
    if n == 1 {
      assert ds[..0] == [];
      assert DecimalValue(ds) == DigitValue(ds[0]);
    } else {
      var init := ds[..n - 1];
      assert init[0] == ds[0];
      NumeralRoundTrip(init);
      LeadingDigitPositive(init);
      var v := DecimalValue(ds);
      assert v == DecimalValue(init) * 10 + DigitValue(ds[n - 1]);
      assert v / 10 == DecimalValue(init) && v % 10 == DigitValue(ds[n - 1]);
      assert init + [ds[n - 1]] == ds;
    }
  }

  /** The label text, with the Polish unit words the application shows. */
  function Render(l: Label): string
  {
    match l
    case HoursMinutesSeconds(h, m, s) =>
      Decimal(h) + (" godz " + (Decimal(m) + (" min " + (Decimal(s) + " sek"))))
    case MinutesSeconds(m, s) => Decimal(m) + (" min " + (Decimal(s) + " sek"))
    case SecondsOnly(s) => Decimal(s) + " sek"
  }

  /** The longest prefix of digits and what follows it. */
  function SplitDigits(s: string): (r: (string, string))
    ensures AllDigits(r.0) && r.0 + r.1 == s
  {
    if s == [] || !IsDigit(s[0]) then ([], s)
    else
      var (ds, rest) := SplitDigits(s[1..]);
      ([s[0]] + ds, rest)
  }

  lemma {:induction false} SplitDigitsOf(ds: string, rest: string)
    requires AllDigits(ds)
    requires rest == [] || !IsDigit(rest[0])
    ensures SplitDigits(ds + rest) == (ds, rest)
  {
    if ds == [] {
      assert ds + rest == rest;
    } else {
      assert (ds + rest)[1..] == ds[1..] + rest;
      SplitDigitsOf(ds[1..], rest);
      assert [ds[0]] + ds[1..] == ds;
    }
  }

  /** Reads a label back: the inverse of `Render`. */
  function ParseLabel(s: string): Option<Label>
  {
    var (d1, r1) := SplitDigits(s);
    if !IsNumeral(d1) then None
    else if r1 == " sek" then Some(SecondsOnly(DecimalValue(d1)))
    else if |r1| >= 5 && r1[..5] == " min " then
      var (d2, r2) := SplitDigits(r1[5..]);
      if IsNumeral(d2) && r2 == " sek" then Some(MinutesSeconds(DecimalValue(d1), DecimalValue(d2)))
      else None
    else if |r1| >= 6 && r1[..6] == " godz " then
      var (d2, r2) := SplitDigits(r1[6..]);
      if IsNumeral(d2) && |r2| >= 5 && r2[..5] == " min " then
        var (d3, r3) := SplitDigits(r2[5..]);
        if IsNumeral(d3) && r3 == " sek" then
          Some(HoursMinutesSeconds(DecimalValue(d1), DecimalValue(d2), DecimalValue(d3)))
        else None
      else None
    else None
  }

  /** Every label reads back as itself, so different labels render differently. */
  lemma ParseRender(l: Label)
    ensures ParseLabel(Render(l)) == Some(l)
  {
    match l
    case SecondsOnly(s) =>
      SplitDigitsOf(Decimal(s), " sek");
      DecimalRoundTrip(s);
    case MinutesSeconds(m, s) =>
      var tail := Decimal(s) + " sek";
      var r1 := " min " + tail;
      SplitDigitsOf(Decimal(m), r1);
      assert r1[..5] == " min " && r1[5..] == tail;
      SplitDigitsOf(Decimal(s), " sek");
      DecimalRoundTrip(m);
      DecimalRoundTrip(s);
    case HoursMinutesSeconds(h, m, s) =>
      var tail := Decimal(s) + " sek";
      var r2 := " min " + tail;
      var r1 := " godz " + (Decimal(m) + r2);
      SplitDigitsOf(Decimal(h), r1);
      assert r1[..5] != " min " by {
        assert r1[1] == 'g';
      }
      assert r1[..6] == " godz " && r1[6..] == Decimal(m) + r2;
      SplitDigitsOf(Decimal(m), r2);
      assert r2[..5] == " min " && r2[5..] == tail;
      SplitDigitsOf(Decimal(s), " sek");
      DecimalRoundTrip(h);
      DecimalRoundTrip(m);
      DecimalRoundTrip(s);
  }

  /**
   * The only text that reads back as a label is that label's rendering, so a
   * text is fixed by what `ParseLabel` makes of it.
   */
  lemma RenderParse(s: string, l: Label)
    requires ParseLabel(s) == Some(l)
    ensures s == Render(l)
  {
    var (d1, r1) := SplitDigits(s);
    NumeralRoundTrip(d1);
    if r1 == " sek" {
    } else if |r1| >= 5 && r1[..5] == " min " {
      var (d2, r2) := SplitDigits(r1[5..]);
      NumeralRoundTrip(d2);
      assert r1 == r1[..5] + r1[5..];
    } else {
      assert |r1| >= 6 && r1[..6] == " godz ";
      var (d2, r2) := SplitDigits(r1[6..]);
      NumeralRoundTrip(d2);
      assert r1 == r1[..6] + r1[6..];
      var (d3, r3) := SplitDigits(r2[5..]);
      NumeralRoundTrip(d3);
      assert r2 == r2[..5] + r2[5..];
    }
  }

  /**
   * `format_duration(start, end)`: the label reads back as the shape the
   * three-way choice picks for the day part of `end - start`, and so stands for
   * exactly that many seconds; it always starts with a digit. By
   * `RenderParse` the first clause fixes the text itself.
   */
  function FormatDuration(start: int, end: int): (r: string)
    ensures ParseLabel(r) == Some(Shape(DaySeconds(start, end)))
    ensures LabelSeconds(ParseLabel(r).value) == DaySeconds(start, end)
    ensures |r| > 0 && IsDigit(r[0])
  {
    var l := Shape(DaySeconds(start, end));
    ParseRender(l);
    Render(l)
  }

  /** 45 seconds show as seconds only. */
  lemma FormatSecondsExample()
    ensures FormatDuration(36000, 36045) == "45 sek"
  {
    assert DaySeconds(36000, 36045) == 45;
    assert Shape(45) == SecondsOnly(45);
    assert Decimal(45) == "45" by {
      assert Decimal(4) == "4";
    }
  }

  /** 310 seconds show as minutes and seconds. */
  lemma FormatMinutesExample()
    ensures FormatDuration(36000, 36310) == "5 min 10 sek"
  {
    assert DaySeconds(36000, 36310) == 310;
    assert Breakdown(310) == (0, 5, 10);
    assert Shape(310) == MinutesSeconds(5, 10);
    assert Decimal(5) == "5";
    assert Decimal(10) == "10" by {
      assert Decimal(1) == "1";
    }
    assert Render(MinutesSeconds(5, 10)) == "5 min 10 sek";
  }

  /** 8130 seconds show as hours, minutes and seconds. */
  lemma FormatHoursExample()
    ensures FormatDuration(32400, 40530) == "2 godz 15 min 30 sek"
  {
    assert DaySeconds(32400, 40530) == 8130;
    assert Breakdown(8130) == (2, 15, 30);
    assert Shape(8130) == HoursMinutesSeconds(2, 15, 30);
    assert Decimal(2) == "2";
    assert Decimal(15) == "15" by {
      assert Decimal(1) == "1";
    }
    assert Decimal(30) == "30" by {
      assert Decimal(3) == "3";
    }
    assert Render(HoursMinutesSeconds(2, 15, 30)) == "2 godz 15 min 30 sek";
  }
}

/**
 * The UTC-offset text of the report title (`print_header`): the clock is an
 * input, and the offset is the one `time.timezone` / `time.altzone` report,
 * i.e. seconds WEST of UTC, rendered as written in the script.
 */
module Timezone {
  import opened Text

  /** What the title reads from the clock: the `strftime('%y.%m.%d %H:%M:%S')`
      text of the current time, the `tm_isdst` flag and the two zone offsets. */
  datatype Clock = Clock(stamp: string, isDst: int, timezone: int, altzone: int)

  function Abs(x: int): nat {
    if x < 0 then -x else x
  }

  /** `time.timezone` when daylight saving is off, `time.altzone` otherwise. */
  function LocalOffset(c: Clock): int {
    if c.isDst == 0 then c.timezone else c.altzone
  }

  /** `'+HH:MM'` / `'-HH:MM'`: whole hours and the remaining whole minutes of |offset|. */
  function OffsetText(offset: int): string {
    var a := Abs(offset);
    var hours := a / 3600;
    var minutes := (a / 60) % 60;
    (if offset >= 0 then "+" else "-") + ZeroPad2(hours) + ":" + ZeroPad2(minutes)
  }

  /**
   * The sign comes first: '+' exactly when the offset is not negative; the
   * colon sits before the two minute digits, and a zone offset below 100 hours
   * gives exactly six characters.
   */
  lemma OffsetShape(offset: int)
    ensures var r := OffsetText(offset);
      && |r| >= 6
      && r[0] == (if offset >= 0 then '+' else '-')
      && r[|r| - 3] == ':'
      && (Abs(offset) < 360000 ==> |r| == 6)
  {
    var a := Abs(offset);
    var sign := if offset >= 0 then "+" else "-";
    var h, m := ZeroPad2(a / 3600), ZeroPad2((a / 60) % 60);
    ZeroPad2Spec((a / 60) % 60);
    assert |h| >= 2;
    SignHoursColon(sign, h, m);
    if a < 360000 {
      HoursBelow(a);
      ZeroPad2Spec(a / 3600);
    }
  }

  lemma HoursBelow(a: nat)
    requires a < 360000
    ensures a / 3600 < 100
  {
  }

  lemma SignHoursColon(sign: string, h: string, m: string)
    requires |sign| == 1 && |h| >= 2 && |m| == 2
    ensures var r := sign + h + ":" + m;
      |r| == |h| + 4 && r[0] == sign[0] && r[|r| - 3] == ':'
  {
  }

  /** The title's time text: the stamp followed by the offset in parentheses. */
  function FormattedNow(c: Clock): string {
    c.stamp + " (" + OffsetText(LocalOffset(c)) + ")"
  }

  /** Reads a `'±HH:MM'` text back as a signed number of seconds. */
  function ParseOffset(t: string): int
    requires |t| == 6
  {
    (if t[0] == '-' then -1 else 1) * (ParseDecimal(t[1..3]) * 3600 + ParseDecimal(t[4..6]) * 60)
  }

  lemma HoursMinutes(a: nat)
    ensures (a / 3600) * 3600 + ((a / 60) % 60) * 60 == (a / 60) * 60
    ensures (a / 60) % 60 < 60
  {
    var q := a / 60;
    assert a / 3600 == q / 60;
    assert q == (q / 60) * 60 + q % 60;
  }

  /** Reading a sign, two hour digits, a colon and two minute digits. */
  lemma ParseFields(sign: string, h: string, m: string)
    requires |sign| == 1 && |h| == 2 && |m| == 2
    ensures |sign + h + ":" + m| == 6
    ensures ParseOffset(sign + h + ":" + m) ==
      (if sign[0] == '-' then -1 else 1) * (ParseDecimal(h) * 3600 + ParseDecimal(m) * 60)
  {
    var t := sign + h + ":" + m;
    assert t[0] == sign[0] && t[1..3] == h && t[4..6] == m;
  }

  /**
   * Reading the offset text back yields the offset with its seconds dropped
   * (toward zero): the two fields are exactly |offset| div 3600 and
   * (|offset| div 60) mod 60, and the sign is that of the offset.
   */
  lemma OffsetRoundTrip(offset: int)
    requires Abs(offset) < 360000
    ensures |OffsetText(offset)| == 6
    ensures ParseOffset(OffsetText(offset)) == (if offset >= 0 then 1 else -1) * (Abs(offset) / 60 * 60)
  {
    var a := Abs(offset);
    var sign := if offset >= 0 then "+" else "-";
    var h, m := ZeroPad2(a / 3600), ZeroPad2((a / 60) % 60);
    ZeroPad2Spec(a / 3600);
    ZeroPad2Spec((a / 60) % 60);
    ParseFields(sign, h, m);
    HoursMinutes(a);
  }

  /**
   * The title's time text is the stamp, then the local offset in
   * parentheses; reading the offset back gives `time.timezone` without
   * daylight saving and `time.altzone` with it, cut to whole minutes
   * toward zero.
   */
  lemma NowShowsLocalOffset(c: Clock)
    requires Abs(c.timezone) < 360000 && Abs(c.altzone) < 360000
    ensures var t := FormattedNow(c);
      var o := if c.isDst == 0 then c.timezone else c.altzone;
      && |t| == |c.stamp| + 9
      && t[..|c.stamp|] == c.stamp
      && t[|c.stamp|..|c.stamp| + 2] == " (" && t[|t| - 1] == ')'
      && ParseOffset(t[|c.stamp| + 2..|t| - 1]) == (if o >= 0 then 1 else -1) * (Abs(o) / 60 * 60)
  {
    var off := LocalOffset(c);
    OffsetRoundTrip(off);
    var x := OffsetText(off);
    var t := FormattedNow(c);
    assert t == c.stamp + " (" + x + ")";
    assert t[|c.stamp| + 2..|t| - 1] == x;
  }
}

/** The timestamp of a log line, laid out by the Go reference layout
    "2006/01/02 15:04:05", optionally followed by ".000" milliseconds. */
module Clock {
  import opened Decimal

  /** The broken-down local time the clock returned for one call. */
  datatype Timestamp = Timestamp(year: nat, month: nat, day: nat, hour: nat, minute: nat, second: nat, nanos: nat)

  /** The ranges a calendar time's fields take (four-digit years). */
  predicate Valid(t: Timestamp) {
    t.year <= 9999 && 1 <= t.month <= 12 && 1 <= t.day <= 31 &&
    t.hour < 24 && t.minute < 60 && t.second < 60 && t.nanos < 1_000_000_000
  }

  /** The ".000" layout element truncates the sub-second part to milliseconds. */
  function Millis(t: Timestamp): nat {
    t.nanos / 1_000_000
  }

  /** "2006/01/02": year, month and day. */
  function Date(t: Timestamp): string {
    ZeroPad(t.year, 4) + "/" + ZeroPad(t.month, 2) + "/" + ZeroPad(t.day, 2)
  }

  /** "15:04:05": hour, minute and second. */
  function Time(t: Timestamp): string {
    ZeroPad(t.hour, 2) + ":" + ZeroPad(t.minute, 2) + ":" + ZeroPad(t.second, 2)
  }

  function Stamp(t: Timestamp, msec: bool): string {
    Date(t) + " " + Time(t) + (if msec then "." + ZeroPad(Millis(t), 3) else "")
  }

  /** Where the three parts of "a<sep>b<sep>c" sit. */
  lemma ThreeParts(a: string, b: string, c: string, sep: string)
    requires |sep| == 1
    ensures var s := a + sep + b + sep + c;
      |s| == |a| + |b| + |c| + 2 &&
      s[..|a|] == a && s[|a|] == sep[0] && s[|a| + 1..|a| + 1 + |b|] == b &&
      s[|a| + 1 + |b|] == sep[0] && s[|a| + 2 + |b|..] == c
  {
    var s := a + sep + b + sep + c;
    assert s == a + (sep + b + sep + c);
    assert s[|a| + 1..] == b + sep + c;
  }

  lemma DateLayout(t: Timestamp)
    requires Valid(t)
    ensures var d := Date(t);
      |d| == 10 && d[4] == '/' && d[7] == '/' &&
      d[0..4] == ZeroPad(t.year, 4) && d[5..7] == ZeroPad(t.month, 2) && d[8..10] == ZeroPad(t.day, 2)
  {
    ThreeParts(ZeroPad(t.year, 4), ZeroPad(t.month, 2), ZeroPad(t.day, 2), "/");
  }

  lemma TimeLayout(t: Timestamp)
    requires Valid(t)
    ensures var c := Time(t);
      |c| == 8 && c[2] == ':' && c[5] == ':' &&
      c[0..2] == ZeroPad(t.hour, 2) && c[3..5] == ZeroPad(t.minute, 2) && c[6..8] == ZeroPad(t.second, 2)
  {
    ThreeParts(ZeroPad(t.hour, 2), ZeroPad(t.minute, 2), ZeroPad(t.second, 2), ":");
  }

  /** Field-by-field reading of a stamp: every field sits at its fixed column
      and decodes back to the time it came from; the millisecond part is
      present only in millisecond mode and is the nanoseconds over 10^6. */
  lemma StampFields(t: Timestamp, msec: bool)
    requires Valid(t)
    ensures var s := Stamp(t, msec);
      |s| == (if msec then 23 else 19) &&
      s[4] == '/' && s[7] == '/' && s[10] == ' ' && s[13] == ':' && s[16] == ':' &&
      AllDigits(s[0..4]) && Value(s[0..4]) == t.year &&
      AllDigits(s[5..7]) && Value(s[5..7]) == t.month &&
      AllDigits(s[8..10]) && Value(s[8..10]) == t.day &&
      AllDigits(s[11..13]) && Value(s[11..13]) == t.hour &&
      AllDigits(s[14..16]) && Value(s[14..16]) == t.minute &&
      AllDigits(s[17..19]) && Value(s[17..19]) == t.second &&
      (msec ==> s[19] == '.' && AllDigits(s[20..23]) && Value(s[20..23]) == Millis(t))
  {
    var s, date, time := Stamp(t, msec), Date(t), Time(t);
    StampParts(t, msec);
    DateLayout(t);
    TimeLayout(t);
    assert s[0..4] == date[0..4] && s[5..7] == date[5..7] && s[8..10] == date[8..10];
    assert s[11..13] == time[0..2] && s[14..16] == time[3..5] && s[17..19] == time[6..8];
  }

  /** A stamp is the date, a space, the time and, in millisecond mode, a dot
      and three digits. */
  lemma StampParts(t: Timestamp, msec: bool)
    requires Valid(t)
    ensures var s := Stamp(t, msec);
      |s| == (if msec then 23 else 19) && s[..10] == Date(t) && s[10] == ' ' && s[11..19] == Time(t) &&
      (msec ==> s[19] == '.' && s[20..23] == ZeroPad(Millis(t), 3))
  {
    var frac := if msec then "." + ZeroPad(Millis(t), 3) else "";
    DateLayout(t);
    TimeLayout(t);
    SpaceJoined(Stamp(t, msec), Date(t), Time(t), frac);
    if msec {
      var s, pad := Stamp(t, msec), ZeroPad(Millis(t), 3);
      assert |pad| == 3;
      assert s[19..] == "." + pad;
      assert s[20..23] == (s[19..])[1..4];
    }
  }

  /** Where the parts of "a b" followed by c sit. */
  lemma SpaceJoined(s: string, a: string, b: string, c: string)
    requires s == a + " " + b + c
    ensures |s| == |a| + |b| + |c| + 1 && s[..|a|] == a && s[|a|] == ' ' &&
      s[|a| + 1..|a| + 1 + |b|] == b && s[|a| + 1 + |b|..] == c
  {
    assert s == a + (" " + b + c);
    assert s[|a| + 1..] == b + c;
  }

  /** Millisecond mode extends the plain stamp and changes nothing before it. */
  lemma StampMsecExtends(t: Timestamp)
    ensures var plain := Stamp(t, false);
      |plain| < |Stamp(t, true)| && Stamp(t, true)[..|plain|] == plain
  {
    var plain := Stamp(t, false);
    assert Stamp(t, true) == plain + "." + ZeroPad(Millis(t), 3);
  }
}

/** The week grid of the page-based front end: where each activity card sits and how the
    hour axis is labelled. */
module CalendarPage {
  import opened Wrappers
  import opened Strings
  import opened Seqs
  import opened Trip

  /** `parseTime`: hour plus minute/60, from the first two ':'-separated fields read by
      `Number`; None stands for NaN (a missing minute field or a non-numeric field). */
  function ParseTime(time: string): (r: Option<real>)
    ensures var parts := Split(time, ":");
      r.Some? <==> |parts| >= 2 && ParseNumber(parts[0]).Some? && ParseNumber(parts[1]).Some?
  {
    FieldsTime(Split(time, ":"))
  }

  /** Hour plus minute/60 from the first two fields, or NaN (None) when either is missing
      or not a number. */
  function FieldsTime(parts: seq<string>): (r: Option<real>)
    ensures r.Some? <==> |parts| >= 2 && ParseNumber(parts[0]).Some? && ParseNumber(parts[1]).Some?
    ensures r.Some? ==> r.value == TimeValue(ParseNumber(parts[0]).value, ParseNumber(parts[1]).value)
  {
    if |parts| < 2 then None
    else
      var hour := ParseNumber(parts[0]);
      var minute := ParseNumber(parts[1]);
      if hour.Some? && minute.Some? then Some(TimeValue(hour.value, minute.value)) else None
  }

  /** Hour plus minute/60, the value `parseTime` computes. */
  function TimeValue(hour: nat, minute: nat): real {
    hour as real + minute as real / 60.0
  }

  /** "HH:MM" with any digit strings, zero-padded or not, parses to HH + MM/60 hours. */
  lemma ParseDigits(h: string, m: string)
    requires AllDigits(h) && AllDigits(m)
    ensures ParseTime(h + ":" + m) == Some(TimeValue(DigitsValue(h), DigitsValue(m)))
  {
    SplitClock(h, m);
    DigitsNumber(h);
    DigitsNumber(m);
    var parts := [h, m];
    assert parts[0] == h && parts[1] == m;
    assert ParseTime(h + ":" + m) == FieldsTime(parts);
  }

  /** `Number` reads a run of digits, leading zeros included, as its value. */
  lemma DigitsNumber(s: string)
    requires AllDigits(s)
    ensures ParseNumber(s) == Some(DigitsValue(s))
  {
    AllDigitsTrimmed(s);
  }

  /** "HH:MM" written with `${n}` numerals parses to HH + MM/60 hours, that is
      60·HH + MM minutes. */
  lemma ParseClock(hour: nat, minute: nat)
    ensures ParseTime(NatToString(hour) + ":" + NatToString(minute)) == Some(TimeValue(hour, minute))
    ensures ParseTime(NatToString(hour) + ":" + NatToString(minute)).value * 60.0 == (60 * hour + minute) as real
  {
    DigitsOfNat(hour);
    DigitsOfNat(minute);
    ParseDigits(NatToString(hour), NatToString(minute));
    InMinutes(hour, minute);
  }

  /** Hours plus minutes/60, times 60, is the count of minutes. */
  lemma InMinutes(hour: nat, minute: nat)
    ensures TimeValue(hour, minute) * 60.0 == (60 * hour + minute) as real
  {
  }

  /** Splitting "HH:MM" on ':' gives the two numerals. */
  lemma SplitClock(h: string, m: string)
    requires AllDigits(h) && AllDigits(m)
    ensures Split(h + ":" + m, ":") == [h, m]
  {
    assert ':' !in h && ':' !in m by {
      assert forall i :: 0 <= i < |h| ==> IsDigit(h[i]);
      assert forall i :: 0 <= i < |m| ==> IsDigit(m[i]);
    }
    SplitJoin([h, m], ":");
    assert Join([h, m], ":") == h + ":" + m by {
      assert [h, m][1..] == [m];
    }
  }

  /** `Number` reads a numeral back as its value. */
  lemma ParseNumeral(n: nat)
    ensures ParseNumber(NatToString(n)) == Some(n)
  {
    DigitsOfNat(n);
    AllDigitsTrimmed(NatToString(n));
  }

  /** A numeral has no whitespace to trim. */
  lemma AllDigitsTrimmed(s: string)
    requires AllDigits(s)
    ensures Trim(s) == s
  {
    TrimPadded("", s, "");
    assert "" + s + "" == s;
  }

  /** A time without a minute field is NaN. */
  lemma NoMinuteIsNaN(hour: nat)
    ensures ParseTime(NatToString(hour)).None?
  {
    var h := NatToString(hour);
    assert ':' !in h by {
      assert forall i :: 0 <= i < |h| ==> IsDigit(h[i]);
    }
    FirstOccurrenceAfter(h, ":", "");
  }

  /** First grid row of an activity starting at `start` hours: 09:00 is row 3, and each
      row is half an hour. */
  function StartRow(start: real): (row: real)
    ensures start == 9.0 ==> row == 3.0
  {
    (start - 9.0) * 2.0 + 3.0
  }

  /** Half an hour later is one row further down. */
  lemma HalfHourIsOneRow(start: real)
    ensures StartRow(start + 0.5) == StartRow(start) + 1.0
  {
  }

  /** The mock duration in hours. */
  const MockDuration: real := 2.0

  /** `calculateGridPosition` for an activity whose time parses. */
  datatype GridPosition = GridPosition(gridColumnStart: int, startRow: real, span: real)

  /** The card of an activity: its column is the day + 1, it starts on the row of its
      time and spans four half-hour rows; an unparsable time places no card (its row text
      starts with "NaN"). */
  function Placement(a: Activity): (p: Option<GridPosition>)
    ensures p.None? <==> ParseTime(a.time).None?
    ensures p.Some? ==> p.value.gridColumnStart == a.day + 1
    ensures p.Some? ==> p.value.startRow == StartRow(ParseTime(a.time).value)
    ensures p.Some? ==> p.value.span == 4.0
  {
    match ParseTime(a.time)
    case None => None
    case Some(startTime) =>
      var endTime := startTime + MockDuration;
      Some(GridPosition(a.day + 1, StartRow(startTime), (endTime - startTime) * 2.0))
  }

  function TimeOrder(a: Activity, b: Activity): bool {
    LexLe(a.time, b.time)
  }

  lemma TimeOrderIsPreorder()
    ensures TotalPreorder(TimeOrder)
  {
    forall a: Activity, b: Activity ensures TimeOrder(a, b) || TimeOrder(b, a) {
      LexLeTotal(a.time, b.time);
    }
    forall a: Activity, b: Activity, c: Activity | TimeOrder(a, b) && TimeOrder(b, c)
      ensures TimeOrder(a, c)
    {
      LexLeTransitive(a.time, b.time, c.time);
    }
  }

  /** `getActivitiesByDay(i)`: the activities of day i+1, ordered by time text. */
  function ActivitiesByDay(trip: Trip, dayIndex: int): (r: seq<Activity>)
    ensures multiset(r) == multiset(Filter(trip.itinerary, (a: Activity) => a.day == dayIndex + 1))
    ensures forall a :: a in r <==> a in trip.itinerary && a.day == dayIndex + 1
    ensures SortedBy(r, TimeOrder)
  {
    var day := dayIndex + 1;
    var onDay := Filter(trip.itinerary, (a: Activity) => a.day == day);
    var r := SortBy(onDay, TimeOrder);
    TimeOrderIsPreorder();
    SortBySorted(onDay, TimeOrder);
    assert forall a :: a in r <==> a in multiset(onDay);
    r
  }

  /** The hour axis: 9 to 21. */
  function Hours(): (r: seq<nat>)
    ensures |r| == 13 && forall i :: 0 <= i < 13 ==> r[i] == i + 9
  {
    seq(13, i requires 0 <= i < 13 => i + 9)
  }

  function HourRow(hour: int): int {
    (hour - 9) * 2 + 3
  }

  /** Two-digit zero-padded numeral, as the times "09:00" … "21:00" are written. */
  function TwoDigits(n: nat): (r: string)
    requires n < 100
    ensures |r| == 2 && AllDigits(r) && DigitsValue(r) == n
  {
    var r := [DigitChar(n / 10), DigitChar(n % 10)];
    assert r[..1] == [DigitChar(n / 10)] && r[..1][..0] == [];
    assert r[0] as int - '0' as int == n / 10 && r[1] as int - '0' as int == n % 10;
    assert DigitsValue(r[..1]) == n / 10;
    r
  }

  /** "00" is the numeral 0. */
  lemma ZeroMinutes()
    ensures AllDigits("00") && DigitsValue("00") == 0
  {
    assert "00"[..1] == "0" && "0"[..0] == "";
  }

  /** A full hour written zero-padded ("09:00") parses to that hour. */
  lemma PaddedHour(hour: nat)
    requires hour < 100
    ensures ParseTime(TwoDigits(hour) + ":" + "00") == Some(hour as real)
  {
    ZeroMinutes();
    ParseDigits(TwoDigits(hour), "00");
  }

  /** An hour's label sits on the row where an activity at that full hour, written
      "09:00", starts (ParseClock(hour, 0) gives the same for the unpadded "9:0"). */
  lemma HourRowMatchesStart(hour: nat)
    requires hour < 100
    ensures ParseTime(TwoDigits(hour) + ":" + "00") == Some(hour as real)
    ensures HourRow(hour) as real == StartRow(hour as real)
  {
    PaddedHour(hour);
  }

  datatype HourLabel = HourLabel(hour: nat, am: bool)

  /** `hour % 12 || 12` with AM before noon (or at 24). */
  function Label(h: nat): (l: HourLabel)
    ensures 1 <= l.hour <= 12 && l.hour % 12 == h % 12
    ensures 9 <= h <= 21 ==> (l.am <==> h < 12)
  {
    HourLabel(if h % 12 == 0 then 12 else h % 12, h < 12 || h == 24)
  }
}

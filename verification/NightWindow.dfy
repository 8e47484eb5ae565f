/** Does a requested window touch the nightly window that needs a second approval? */
module NightWindow {
  import opened Basics

  // Instants are counted in microseconds since the epoch, the resolution of the database.
  const MINUTE: int := 60_000_000
  const DAY: int := 1440 * MINUTE
  // Shanghai is eight hours ahead of UTC the whole year.
  const OFFSET: int := 8 * 60 * MINUTE

  /** The calendar day of an instant in Shanghai, counted from the epoch. */
  function LocalDay(t: int): int {
    (t + OFFSET) / DAY
  }

  /** What a Shanghai clock shows at an instant, in microseconds since midnight. */
  function Clock(t: int): int {
    (t + OFFSET) % DAY
  }

  function Midnight(day: int): int {
    day * DAY - OFFSET
  }

  // ---- HH:MM

  predicate IsDigit(c: char, high: char) {
    '0' <= c <= high
  }

  function Value(c: char): int {
    c as int - '0' as int
  }

  /** Minutes since midnight of a string accepted by ([01]\d|2[0-3]):[0-5]\d, or nothing. */
  function ParseHHMM(s: string): Option<int> {
    if |s| == 5
      && ((IsDigit(s[0], '1') && IsDigit(s[1], '9')) || (s[0] == '2' && IsDigit(s[1], '3')))
      && s[2] == ':' && IsDigit(s[3], '5') && IsDigit(s[4], '9')
    then Some((Value(s[0]) * 10 + Value(s[1])) * 60 + Value(s[3]) * 10 + Value(s[4]))
    else None
  }

  function Digit(d: int): char
    requires 0 <= d <= 9
  {
    ('0' as int + d) as char
  }

  function FormatHHMM(minutes: int): string
    requires 0 <= minutes < 1440
  {
    var h, m := minutes / 60, minutes % 60;
    [Digit(h / 10), Digit(h % 10), ':', Digit(m / 10), Digit(m % 10)]
  }

  /** Exactly the twenty-four hour times are accepted, and each is read as the minute it names. */
  lemma ParsesExactlyTheClock(s: string, minutes: int)
    ensures ParseHHMM(s) == Some(minutes) <==> 0 <= minutes < 1440 && s == FormatHHMM(minutes)
  {
    if ParseHHMM(s) == Some(minutes) {
      var h, m := Value(s[0]) * 10 + Value(s[1]), Value(s[3]) * 10 + Value(s[4]);
      assert minutes / 60 == h && minutes % 60 == m;
      assert s == FormatHHMM(minutes);
    }
  }

  // ---- the overlap

  /** The clock is inside the circular window from ns to ne (minutes); equal bounds mean never. */
  predicate InNight(t: int, ns: int, ne: int) {
    if ns <= ne then ns * MINUTE <= Clock(t) < ne * MINUTE
    else ns * MINUTE <= Clock(t) || Clock(t) < ne * MINUTE
  }

  /** The unbounded question: at some instant of the request the clock is inside the window. */
  ghost predicate TouchesNight(start: int, end: int, ns: int, ne: int) {
    exists t :: start <= t < end && InNight(t, ns, ne)
  }

  /** The window anchored on one day overlaps the request. */
  predicate Overlaps(day: int, start: int, end: int, ns: int, ne: int) {
    var ws := Midnight(day) + ns * MINUTE;
    var we := Midnight(day) + ne * MINUTE;
    ws < end && (if we <= ws then we + DAY else we) > start
  }

  // An overlap on some day puts an instant of the request inside the window.
  lemma OverlapTouches(day: int, start: int, end: int, ns: int, ne: int)
    requires start < end && 0 <= ns < 1440 && 0 <= ne < 1440 && ns != ne
    requires Overlaps(day, start, end, ns, ne)
    ensures TouchesNight(start, end, ns, ne)
  {
    var ws := Midnight(day) + ns * MINUTE;
    var t := if ws > start then ws else start;
    ClockOf(t, day);
    assert InNight(t, ns, ne);
  }

  lemma ClockOf(t: int, day: int)
    ensures Midnight(day) <= t < Midnight(day) + DAY ==> Clock(t) == t - Midnight(day)
    ensures Midnight(day) + DAY <= t < Midnight(day) + 2 * DAY ==> Clock(t) == t - Midnight(day) - DAY
  {
  }

  // The day whose window holds an instant that is inside the night.
  function Anchor(t: int, ns: int): int {
    if Clock(t) >= ns * MINUTE then LocalDay(t) else LocalDay(t) - 1
  }

  // Only the days the loop scans can hold the anchor.
  lemma TouchOverlapsScannedDay(t: int, start: int, end: int, ns: int, ne: int)
    requires start <= t < end && 0 <= ns < 1440 && 0 <= ne < 1440
    requires InNight(t, ns, ne)
    ensures LocalDay(start) - 1 <= Anchor(t, ns) <= LocalDay(end)
    ensures Overlaps(Anchor(t, ns), start, end, ns, ne)
  {
    assert t == Midnight(LocalDay(t)) + Clock(t);
  }

  /** Scanning the days from the one before the start to that of the end answers the unbounded question. */
  method NightOverlap(start: int, end: int, nightStart: string, nightEnd: string) returns (r: bool)
    ensures r <==> && ParseHHMM(nightStart).Some? && ParseHHMM(nightEnd).Some?
                   && TouchesNight(start, end, ParseHHMM(nightStart).value, ParseHHMM(nightEnd).value)
  {
    if end <= start {
      return false;
    }
    var ns, ne := ParseHHMM(nightStart), ParseHHMM(nightEnd);
    if ns.None? || ne.None? || ns.value == ne.value {
      return false;
    }
    var day := LocalDay(start) - 1;
    var last := LocalDay(end);
    while day <= last
      invariant forall d :: LocalDay(start) - 1 <= d < day ==> !Overlaps(d, start, end, ns.value, ne.value)
      decreases last - day
    {
      var ws := Midnight(day) + ns.value * MINUTE;
      var we := Midnight(day) + ne.value * MINUTE;
      if we <= ws {
        we := we + DAY;
      }
      if ws < end && we > start {
        OverlapTouches(day, start, end, ns.value, ne.value);
        return true;
      }
      day := day + 1;
    }
    forall t | start <= t < end && InNight(t, ns.value, ne.value) ensures false {
      TouchOverlapsScannedDay(t, start, end, ns.value, ne.value);
    }
    return false;
  }

  /** One long enough request always touches the night, whatever the bounds, unless these are equal. */
  lemma FullDayTouches(start: int, end: int, ns: int, ne: int)
    requires 0 <= ns < 1440 && 0 <= ne < 1440 && end - start >= DAY
    ensures TouchesNight(start, end, ns, ne) <==> ns != ne
  {
    if ns != ne {
      var t := Midnight(LocalDay(start)) + ns * MINUTE;
      var u := if t < start then t + DAY else t;
      ClockOf(u, LocalDay(start));
      assert InNight(u, ns, ne);
    }
  }
}

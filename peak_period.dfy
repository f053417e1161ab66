/** Off-peak ("eco") window arithmetic over a daily start and end time.
    Containment excludes the start and includes the end; a window whose
    start is after its end runs over midnight. */
module PeakPeriod {
  import opened Common

  datatype EcoWindow = EcoWindow(start: HourMinute, end: HourMinute) {
    predicate Valid() {
      start.Valid() && end.Valid()
    }
  }

  /** `_in_between(now, start, end)` on seconds since midnight. */
  function InBetween(now: int, start: int, end: int): bool {
    if start <= end then start < now <= end
    else now > start || now <= end
  }

  /** `in_peak(period)` for a time of day given in seconds. */
  function InPeak(w: EcoWindow, tod: int): bool {
    InBetween(tod, w.start.Seconds(), w.end.Seconds())
  }

  /** `next_eco_start()`, with the clock reading passed in. */
  function NextEcoStart(w: EcoWindow, now: Instant): (r: Instant)
    requires w.Valid()
    ensures TimeOfDay(r) == w.start.Seconds() && r % MINUTE == 0
    ensures now <= r < now + DAY
  {
    SecondsRange(w.start);
    var e := Replace(now, w.start);
    ShiftDay(e);
    var r := if now > e then e + DAY else e;
    MinuteOfDay(r);
    r
  }

  /** `last_eco_start(period)` */
  function LastEcoStart(w: EcoWindow, p: Instant): (r: Instant)
    requires w.Valid()
    ensures TimeOfDay(r) == w.start.Seconds() && r % MINUTE == 0
    ensures p - DAY < r <= p
  {
    SecondsRange(w.start);
    var e := Replace(p, w.start);
    ShiftDay(e);
    var r := if e > p then e - DAY else e;
    MinuteOfDay(r);
    r
  }

  /** `next_eco_end(period)` */
  function NextEcoEnd(w: EcoWindow, p: Instant): (r: Instant)
    requires w.Valid()
    ensures TimeOfDay(r) == w.end.Seconds() && r % MINUTE == 0
    ensures p <= r < p + DAY
  {
    SecondsRange(w.end);
    var e := Replace(p, w.end);
    ShiftDay(e);
    var r := if p > e then e + DAY else e;
    MinuteOfDay(r);
    r
  }

  /** `time_window()`, the window's length in seconds. */
  function TimeWindow(w: EcoWindow): (r: int)
    requires w.Valid()
    ensures 0 <= r < DAY
    ensures r == 0 <==> w.start == w.end
  {
    SecondsRange(w.start);
    SecondsRange(w.end);
    SecondsOrder(w.start, w.end);
    var s, e := w.start.Seconds(), w.end.Seconds();
    if s > e then e + DAY - s else e - s
  }

  /** Containment when the window stays inside one day. */
  lemma InPeakSameDay(w: EcoWindow, tod: int)
    requires w.start.Seconds() <= w.end.Seconds()
    ensures InPeak(w, tod) <==> w.start.Seconds() < tod <= w.end.Seconds()
  {
  }

  /** Containment when the window runs over midnight. */
  lemma InPeakOverMidnight(w: EcoWindow, tod: int)
    requires w.start.Seconds() > w.end.Seconds()
    ensures InPeak(w, tod) <==> tod > w.start.Seconds() || tod <= w.end.Seconds()
  {
  }

  /** A window that starts where it ends contains no time at all. */
  lemma InPeakEmptyWindow(w: EcoWindow, tod: int)
    requires w.start == w.end
    ensures !InPeak(w, tod)
  {
  }

  /** An independent reading of containment: an instant is inside the
      window exactly when it lies after the most recent eco start and no
      later than that start plus the window's length. This ties `in_peak`
      to `last_eco_start` and `time_window` for either kind of window. */
  lemma {:induction false} InPeakIffWithinLastWindow(w: EcoWindow, p: Instant)
    requires w.Valid()
    ensures InPeak(w, TimeOfDay(p)) <==>
            LastEcoStart(w, p) < p <= LastEcoStart(w, p) + TimeWindow(w)
  {
    SecondsRange(w.start);
    SecondsRange(w.end);
    var s, e := w.start.Seconds(), w.end.Seconds();
    var d, tod := DayStart(p), TimeOfDay(p);
    assert p == d + tod;
    if tod >= s {
      assert LastEcoStart(w, p) == d + s;
    } else {
      assert LastEcoStart(w, p) == d - DAY + s;
    }
  }

  /** The next eco start is the last eco start one day on, unless the
      instant is exactly on an eco start. */
  lemma {:induction false} NextIsLastPlusDay(w: EcoWindow, p: Instant)
    requires w.Valid()
    ensures NextEcoStart(w, p) ==
            if TimeOfDay(p) == w.start.Seconds() then p else LastEcoStart(w, p) + DAY
  {
    SecondsRange(w.start);
    var d, tod := DayStart(p), TimeOfDay(p);
    assert p == d + tod;
  }
}

/** Shared vocabulary: optional values, the two failure kinds the integration
    distinguishes, and the clock model (instants as whole seconds, no time
    zones, no daylight-saving shifts). */
module Common {

  datatype Option<+T> = None | Some(value: T) {
    function GetOr(default: T): T {
      match this
      case Some(v) => v
      case None => default
    }
  }

  /** NoData stands for `NoDataError`; Unexpected for any other exception
      (KeyError, TypeError, ZeroDivisionError, ...) that the callers catch
      with a bare `except Exception`. */
  datatype Error = NoData | Unexpected

  datatype Result<+T> = Ok(value: T) | Err(error: Error)

  /** An instant, in seconds since a fixed epoch taken at a local midnight. */
  type Instant = int

  const MINUTE: int := 60
  const HOUR: int := 3600
  const DAY: int := 86400

  /** Seconds since the local midnight that starts the instant's day. */
  function TimeOfDay(t: Instant): (s: int)
    ensures 0 <= s < DAY
  {
    t % DAY
  }

  /** The day an instant falls on, counted from the epoch. */
  function DayOf(t: Instant): int {
    t / DAY
  }

  /** The local midnight at the start of the instant's day. */
  function DayStart(t: Instant): (m: Instant)
    ensures m <= t < m + DAY && TimeOfDay(m) == 0
  {
    t - TimeOfDay(t)
  }

  /** A configured wall-clock time with minute precision, as the eco
      start/end options and the inverter's charge windows hold them. */
  datatype HourMinute = HourMinute(hour: int, minute: int) {
    predicate Valid() {
      0 <= hour < 24 && 0 <= minute < 60
    }

    function Seconds(): int {
      hour * HOUR + minute * MINUTE
    }

    /** `datetime.time` ordering on (hour, minute). */
    predicate Before(other: HourMinute) {
      hour < other.hour || (hour == other.hour && minute < other.minute)
    }
  }

  lemma SecondsRange(h: HourMinute)
    requires h.Valid()
    ensures 0 <= h.Seconds() < DAY && h.Seconds() % MINUTE == 0
  {
  }

  /** Adding or taking away a day keeps the time of day. */
  lemma ShiftDay(t: Instant)
    ensures TimeOfDay(t + DAY) == TimeOfDay(t) && TimeOfDay(t - DAY) == TimeOfDay(t)
  {
    var q, r := t / DAY, t % DAY;
    assert t == q * DAY + r;
    assert t + DAY == (q + 1) * DAY + r;
    assert t - DAY == (q - 1) * DAY + r;
  }

  /** An instant falls on a whole minute exactly when its time of day does. */
  lemma MinuteOfDay(t: Instant)
    ensures t % MINUTE == TimeOfDay(t) % MINUTE
  {
    var tod := TimeOfDay(t);
    var a, b := tod % MINUTE, tod / MINUTE;
    assert tod == b * MINUTE + a && 0 <= a < MINUTE;
    var k := (t / DAY) * 1440 + b;
    assert t == k * MINUTE + a;
    UniqueRemainder(t, k, a);
  }

  /** The remainder by a minute is the one offset below a minute. */
  lemma UniqueRemainder(t: int, k: int, a: int)
    requires t == k * 60 + a && 0 <= a < 60
    ensures t % MINUTE == a
  {
  }

  /** A time of day on a whole minute reads back as the hour and minute it
      encodes. */
  lemma WholeMinutes(s: int)
    requires 0 <= s < DAY && s % MINUTE == 0
    ensures HourMinute(s / HOUR, (s % HOUR) / MINUTE).Valid()
    ensures HourMinute(s / HOUR, (s % HOUR) / MINUTE).Seconds() == s
  {
    var q, r := s / HOUR, s % HOUR;
    assert s == q * HOUR + r && 0 <= r < HOUR;
    assert r % MINUTE == 0 by {
      assert r == s - (q * 60) * MINUTE;
    }
    assert r == (r / MINUTE) * MINUTE;
  }

  /** Converting a valid configured time to seconds keeps its ordering and
      loses nothing, so comparing seconds is comparing the times. */
  lemma {:induction false} SecondsOrder(a: HourMinute, b: HourMinute)
    requires a.Valid() && b.Valid()
    ensures a.Before(b) <==> a.Seconds() < b.Seconds()
    ensures a == b <==> a.Seconds() == b.Seconds()
  {
    if a.hour < b.hour {
      assert a.Seconds() <= a.hour * HOUR + 59 * MINUTE < (a.hour + 1) * HOUR <= b.Seconds();
    } else if a.hour > b.hour {
      assert b.Seconds() <= b.hour * HOUR + 59 * MINUTE < (b.hour + 1) * HOUR <= a.Seconds();
    }
  }

  /** `instant.replace(hour=h, minute=m, second=0, microsecond=0)`. */
  function Replace(t: Instant, h: HourMinute): (r: Instant)
    requires h.Valid()
    ensures DayOf(r) == DayOf(t) && TimeOfDay(r) == h.Seconds()
  {
    SecondsRange(h);
    DayStart(t) + h.Seconds()
  }

  /** The wall-clock time (hour and minute) of an instant, dropping seconds,
      as `.time()` followed by reading `.hour` and `.minute`. */
  function ClockOf(t: Instant): (h: HourMinute)
    ensures h.Valid() && h.Seconds() <= TimeOfDay(t) < h.Seconds() + MINUTE
  {
    var s := TimeOfDay(t);
    HourMinute(s / HOUR, (s % HOUR) / MINUTE)
  }

  function Max(a: real, b: real): real {
    if a >= b then a else b
  }

  function Min(a: real, b: real): real {
    if a <= b then a else b
  }

  function Abs(a: real): real {
    if a < 0.0 then -a else a
  }

  /** `list.remove(x)` guarded by `x in list`, on a list of listener
      handles: drops the first occurrence, if any. */
  function RemoveFirst(s: seq<nat>, x: nat): (r: seq<nat>)
    ensures x !in s ==> r == s
    ensures x in s ==> |r| == |s| - 1 && multiset(r) == multiset(s) - multiset{x}
  {
    if s == [] then []
    else
      assert s == [s[0]] + s[1..];
      if s[0] == x then s[1..] else [s[0]] + RemoveFirst(s[1..], x)
  }
}

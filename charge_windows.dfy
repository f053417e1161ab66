/** The two force-charge windows the inverter holds, as both the cloud and
    the Modbus service set them: an eco window that crosses midnight is
    split into one window up to 23:59 and one from 00:01. */
module ChargeWindows {
  import opened Common

  /** One force-charge window: whether it is enabled, and its start and
      end times. */
  datatype Window = Window(enabled: bool, start: HourMinute, end: HourMinute)

  /** Both windows. */
  datatype Windows = Windows(first: Window, second: Window)

  const MIDNIGHT: HourMinute := HourMinute(0, 0)
  const BEFORE_MIDNIGHT: HourMinute := HourMinute(23, 59)
  const AFTER_MIDNIGHT: HourMinute := HourMinute(0, 1)

  /** A window that is off, with both times at 00:00. */
  const OFF: Window := Window(false, MIDNIGHT, MIDNIGHT)

  /** Both windows off: what stopping the force charge sends. */
  const STOPPED: Windows := Windows(OFF, OFF)

  /** The first window from start to end; the second off. */
  function Single(start: HourMinute, end: HourMinute): Windows {
    Windows(Window(true, start, end), OFF)
  }

  /** Start to 23:59, then 00:01 to stop. */
  function Double(start: HourMinute, stop: HourMinute): Windows {
    Windows(Window(true, start, BEFORE_MIDNIGHT), Window(true, AFTER_MIDNIGHT, stop))
  }

  /** The windows for a force charge from start to stop: split exactly
      when start is later than stop, so that the charge crosses midnight. */
  function ForceCharge(start: HourMinute, stop: HourMinute): (w: Windows)
    ensures w.first.enabled && w.first.start == start
    ensures stop.Before(start) ==> w == Double(start, stop)
    ensures !stop.Before(start) ==> w == Single(start, stop)
  {
    if stop.Before(start) then Double(start, stop) else Single(start, stop)
  }

  /** Reading each enabled window as the closed range of its minutes. */
  predicate InWindow(w: Window, t: HourMinute) {
    w.enabled && w.start.Seconds() <= t.Seconds() <= w.end.Seconds()
  }

  predicate Covers(w: Windows, t: HourMinute) {
    InWindow(w.first, t) || InWindow(w.second, t)
  }

  /** The windows cover the eco window's minutes: from start to stop when
      it stays within a day; from start through midnight to stop when it
      crosses midnight, except the minute 00:00 that falls between the
      two windows. Stopping covers nothing. */
  lemma {:induction false} ForceChargeCovers(start: HourMinute, stop: HourMinute, t: HourMinute)
    requires start.Valid() && stop.Valid() && t.Valid()
    ensures !stop.Before(start) ==>
              (Covers(ForceCharge(start, stop), t) <==> start.Seconds() <= t.Seconds() <= stop.Seconds())
    ensures stop.Before(start) ==>
              (Covers(ForceCharge(start, stop), t) <==>
                 (t.Seconds() >= start.Seconds() || t.Seconds() <= stop.Seconds()) && t != MIDNIGHT)
    ensures !Covers(STOPPED, t)
  {
    SecondsOrder(stop, start);
    SecondsOrder(t, MIDNIGHT);
    SecondsRange(t);
    SecondsRange(start);
    if t != MIDNIGHT {
      assert t.Seconds() >= AFTER_MIDNIGHT.Seconds() by {
        assert t.hour > 0 || t.minute > 0;
      }
    }
  }
}

/** The minute-by-minute walk of `refresh_battery_model` as a left fold:
    one `Step` per future row, then the grid-metadata pass, then the new
    model. The class in battery_model.dfy runs the same walk in place over
    an array and is proved equal to `Refresh` below. */
module Simulation {
  import opened Common
  import opened PeakPeriod
  import opened BatteryUtil
  import opened Frame
  import opened ScheduleStore
  import opened ChargePlan

  /** The walk's state: running battery level, hold level (unset until an
      eco start or a stored target sets it), schedule, the table being
      written, and whether the walk has stopped on an error. */
  datatype SimState = SimState(battery: real, minSoc: Option<real>, sched: map<Instant, Entry>,
                               rows: seq<Row>, halted: bool)

  /** The state of the battery-level sensor. */
  datatype SocReading = NoEntity | StateUnknown | StateUnavailable | NotInteger | Percent(n: int)

  /** What a refresh leaves behind: its outcome, the model, the ready flag
      and the schedule. */
  datatype Refreshed = Refreshed(status: Result<()>, model: Option<seq<Row>>, ready: bool,
                                 sched: map<Instant, Entry>)

  /** `_battery_capacity_remaining()`: usable energy above the reserve. A
      missing, unknown or unavailable sensor is `NoDataError`; a state that
      is not an integer fails in `int(...)`. */
  function CapacityRemaining(c: Config, soc: SocReading): (r: Result<real>)
    ensures r == Err(NoData) <==> soc.NoEntity? || soc.StateUnknown? || soc.StateUnavailable?
    ensures r == Err(Unexpected) <==> soc.NotInteger?
    ensures r.Ok? ==> soc.Percent? &&
                      r.value == (soc.n as real / 100.0) * c.battery.capacity - c.battery.minSoc * c.battery.capacity
  {
    match soc
    case NoEntity => Err(NoData)
    case StateUnknown => Err(NoData)
    case StateUnavailable => Err(NoData)
    case NotInteger => Err(Unexpected)
    case Percent(n) => Ok((n as real / 100.0) * c.battery.capacity - c.battery.minSoc * c.battery.capacity)
  }

  /** A reading between the reserve and 100% gives an energy between zero
      and the usable capacity. */
  lemma {:induction false} CapacityRemainingBounds(c: Config, n: int)
    requires c.Valid() && c.battery.minSoc * 100.0 <= n as real <= 100.0
    ensures CapacityRemaining(c, Percent(n)).Ok?
    ensures 0.0 <= CapacityRemaining(c, Percent(n)).value <= c.battery.Available()
  {
    var cap, ms := c.battery.capacity, c.battery.minSoc;
    var f := n as real / 100.0;
    assert ms <= f <= 1.0;
    assert f * cap - ms * cap == (f - ms) * cap;
    ProductNonNegative(f - ms, cap);
    assert c.battery.Available() - (f * cap - ms * cap) == (1.0 - f) * cap;
    ProductNonNegative(1.0 - f, cap);
  }

  lemma ProductNonNegative(x: real, y: real)
    requires 0.0 <= x && 0.0 <= y
    ensures 0.0 <= x * y
  {
  }

  /** Whether a row's time of day is the configured eco start. */
  predicate AtEcoStart(c: Config, p: Instant) {
    TimeOfDay(p) == c.window.start.Seconds()
  }

  /** Loop body of `refresh_battery_model` for row k. */
  function Step(c: Config, s: SimState, k: nat): (r: SimState)
    requires c.Valid() && k < |s.rows|
    ensures |r.rows| == |s.rows|
  {
    if s.halted then s
    else
      var row := s.rows[k];
      var p := row.periodStart;
      if AtEcoStart(c, p) then
        var t := ChargeTotals(c, s.rows, p, s.battery, TotalAdditionalCharge(s.sched, p));
        var b := s.battery + t.total;
        SimState(b, Some(t.minSoc), Upserted(s.sched, t.ecoStart, TotalsEntry(t)),
                 s.rows[k := row.(battery := Some(b))], false)
      else if InPeak(c.window, TimeOfDay(p)) && s.minSoc.None? then
        s.(halted := true)
      else if InPeak(c.window, TimeOfDay(p)) && s.battery < s.minSoc.value then
        s.(battery := s.minSoc.value, rows := s.rows[k := row.(battery := Some(s.minSoc.value))])
      else
        var avail := c.battery.Available();
        var newState := s.battery + row.delta;
        var b := Max(0.0, Min(avail, newState));
        var g := if newState <= 0.0 || newState >= avail then row.delta else 0.0;
        s.(battery := b, rows := s.rows[k := row.(battery := Some(b), grid := Some(g))])
  }

  /** The walk over rows `from .. k`. */
  function Run(c: Config, from: nat, k: nat, s0: SimState): (r: SimState)
    requires c.Valid() && from <= k <= |s0.rows|
    ensures |r.rows| == |s0.rows|
    decreases k
  {
    if k == from then s0 else Step(c, Run(c, from, k - 1, s0), k - 1)
  }

  /** The grid import and export `_add_metadata` stores for the eco start
      of `period`, over the peak part of that day. */
  function Metadata(c: Config, rows: seq<Row>, period: Instant): (e: Entry)
    requires c.Valid()
    ensures "import" in e && "export" in e && e["import"] >= 0.0 && e["export"] >= 0.0
  {
    var ecoStart := Replace(period, c.window.start);
    var ecoEnd := NextEcoEnd(c.window, ecoStart);
    GridSumSign(rows, ecoEnd, ecoStart + DAY, Export);
    map["import" := Abs(GridSum(rows, ecoEnd, ecoStart + DAY, Import)),
        "export" := GridSum(rows, ecoEnd, ecoStart + DAY, Export)]
  }

  /** The metadata pass over rows `from .. k`. */
  function MetaRun(c: Config, rows: seq<Row>, from: nat, k: nat, sched: map<Instant, Entry>): (r: map<Instant, Entry>)
    requires c.Valid() && from <= k <= |rows|
    ensures sched.Keys <= r.Keys
    decreases k
  {
    if k == from then sched
    else
      var m := MetaRun(c, rows, from, k - 1, sched);
      var p := rows[k - 1].periodStart;
      if AtEcoStart(c, p) then Upserted(m, Replace(p, c.window.start), Metadata(c, rows, p)) else m
  }

  /** Index of the first row after `now`. */
  function FirstAfter(frame: seq<Minute>, now: Instant): (k: nat)
    ensures k <= |frame|
    ensures forall i :: 0 <= i < k ==> frame[i].periodStart <= now
    ensures k < |frame| ==> frame[k].periodStart > now
  {
    if frame == [] || frame[0].periodStart > now then 0 else 1 + FirstAfter(frame[1..], now)
  }

  /** The rows kept as history: `lo < period_start <= hi`, in order. */
  function History(rows: seq<Row>, lo: Instant, hi: Instant): (r: seq<Row>)
    ensures |r| <= |rows|
    ensures forall x :: x in r <==> x in rows && lo < x.periodStart <= hi
  {
    if rows == [] then []
    else (if lo < rows[0].periodStart <= hi then [rows[0]] else []) + History(rows[1..], lo, hi)
  }

  /** The hold level a refresh starts from: the target stored for the last
      eco start, a fresh target when inside the window with none stored, or
      none. A stored entry without `min_soc` is a `KeyError`. */
  function InitialHold(c: Config, rows: seq<Row>, sched: map<Instant, Entry>, now: Instant, battery: real)
    : (r: Result<(Option<real>, map<Instant, Entry>)>)
    requires c.Valid()
  {
    var last := LastEcoStart(c.window, now);
    if last in sched then
      if "min_soc" in sched[last] then Ok((Some(sched[last]["min_soc"]), sched)) else Err(Unexpected)
    else if InPeak(c.window, TimeOfDay(now)) then
      var t := ChargeTotals(c, rows, now, battery, 0.0);
      Ok((Some(t.minSoc), Upserted(sched, t.ecoStart, TotalsEntry(t))))
    else Ok((None, sched))
  }

  /** Whether a row from `from` on falls on the eco start. */
  predicate ReachesEcoStart(c: Config, rows: seq<Row>, from: nat) {
    exists k :: from <= k < |rows| && AtEcoStart(c, rows[k].periodStart)
  }

  /** The two passes of `refresh_battery_model` from the start state `s0`
      on: the walk, then, unless it stopped, the metadata pass and the new
      model (history of the last three days followed by the whole frame).
      The metadata pass reads the grid column, which only a step that
      follows the delta creates: when the walk wrote no grid value and a
      future eco start is reached, that lookup fails and the walk's plans
      stay in the schedule. */
  function Walk(c: Config, model: seq<Row>, ready: bool, frame: seq<Minute>, now: Instant, s0: SimState): Refreshed
    requires c.Valid() && |s0.rows| == |frame|
  {
    var from := FirstAfter(frame, now);
    var s := Run(c, from, |frame|, s0);
    if s.halted then Refreshed(Err(Unexpected), Some(model), ready, s.sched)
    else if !HasGrid(s.rows) && ReachesEcoStart(c, s.rows, from) then
      Refreshed(Err(Unexpected), Some(model), ready, s.sched)
    else
      var sched2 := MetaRun(c, s.rows, from, |frame|, s.sched);
      Refreshed(Ok(()), Some(History(model, now - 3 * DAY, now) + s.rows), true, sched2)
  }

  /** `refresh_battery_model` on a sorted merged frame, as a function of the
      previous model, ready flag and schedule. */
  function Refresh(c: Config, model: Option<seq<Row>>, ready: bool, sched: map<Instant, Entry>,
                   frame: seq<Minute>, now: Instant, soc: SocReading): Refreshed
    requires c.Valid()
  {
    var blank := Fresh(frame);
    var model1 := if model.None? then blank else model.value;
    match CapacityRemaining(c, soc)
    case Err(e) => Refreshed(Err(e), Some(model1), ready, sched)
    case Ok(battery) =>
      match InitialHold(c, blank, sched, now, battery)
      case Err(e) => Refreshed(Err(e), Some(model1), ready, sched)
      case Ok((minSoc, sched1)) => Walk(c, model1, ready, frame, now, SimState(battery, minSoc, sched1, blank, false))
  }

  // ---------------------------------------------------------------------
  // Properties of one step

  /** Away from the eco start, outside the window or inside it at or above
      the hold level, the battery follows the row's delta clamped to
      [0, usable capacity]; the grid records nothing while the battery
      absorbs the delta, and the whole delta when it is empty or full. */
  lemma StepFollowsDelta(c: Config, s: SimState, k: nat)
    requires c.Valid() && k < |s.rows| && !s.halted
    requires !AtEcoStart(c, s.rows[k].periodStart)
    requires InPeak(c.window, TimeOfDay(s.rows[k].periodStart)) ==> s.minSoc.Some? && s.battery >= s.minSoc.value
    ensures var r := Step(c, s, k); var d := s.rows[k].delta; var avail := c.battery.Available();
            !r.halted && r.minSoc == s.minSoc && r.sched == s.sched &&
            0.0 <= r.battery <= avail &&
            r.rows[k].battery == Some(r.battery) &&
            (0.0 < s.battery + d < avail ==> r.battery == s.battery + d && r.rows[k].grid == Some(0.0)) &&
            (s.battery + d <= 0.0 ==> r.battery == 0.0 && r.rows[k].grid == Some(d)) &&
            (s.battery + d >= avail ==> r.battery == avail && r.rows[k].grid == Some(d))
  {
    var ms, cap := c.battery.minSoc, c.battery.capacity;
    assert c.battery.Available() == (1.0 - ms) * cap;
    assert (1.0 - ms) * cap >= 0.0;
  }

  /** Inside the eco window the battery never drops below the hold level:
      a lower level is raised to it and left there, grid untouched. Without
      a hold level the walk stops. */
  lemma StepInsideWindow(c: Config, s: SimState, k: nat)
    requires c.Valid() && k < |s.rows| && !s.halted
    requires !AtEcoStart(c, s.rows[k].periodStart) && InPeak(c.window, TimeOfDay(s.rows[k].periodStart))
    ensures var r := Step(c, s, k);
            (s.minSoc.None? <==> r.halted) &&
            (s.minSoc.None? ==> r == s.(halted := true)) &&
            (s.minSoc.Some? && s.battery < s.minSoc.value ==>
               r.battery == s.minSoc.value && r.rows[k].battery == Some(r.battery) &&
               r.rows[k].grid == s.rows[k].grid && r.sched == s.sched)
  {
  }

  /** At the eco start the battery gains the charge total, the hold level
      becomes the new target, and the schedule gains the entry. */
  lemma StepAtEcoStart(c: Config, s: SimState, k: nat)
    requires c.Valid() && k < |s.rows| && !s.halted && AtEcoStart(c, s.rows[k].periodStart)
    ensures var p := s.rows[k].periodStart;
            var t := ChargeTotals(c, s.rows, p, s.battery, TotalAdditionalCharge(s.sched, p));
            var r := Step(c, s, k);
            !r.halted && r.battery == s.battery + t.total && r.battery >= s.battery &&
            r.minSoc == Some(t.minSoc) && r.rows[k].battery == Some(r.battery) &&
            r.sched == Upserted(s.sched, p, TotalsEntry(t))
  {
    var p := s.rows[k].periodStart;
    ChargeTotalsBounds(c, s.rows, p, s.battery, TotalAdditionalCharge(s.sched, p));
    assert Replace(p, c.window.start) == p;
  }

  /** A step writes only row k's battery and grid, and never removes a
      schedule entry. */
  lemma StepFrame(c: Config, s: SimState, k: nat)
    requires c.Valid() && k < |s.rows|
    ensures var r := Step(c, s, k);
            s.sched.Keys <= r.sched.Keys &&
            (forall i :: 0 <= i < |s.rows| && i != k ==> r.rows[i] == s.rows[i]) &&
            r.rows[k] == s.rows[k].(battery := r.rows[k].battery, grid := r.rows[k].grid)
  {
  }

  // ---------------------------------------------------------------------
  // Properties of the walk

  /** Two tables that differ at most in their battery and grid columns. */
  predicate SameMinutes(a: seq<Row>, b: seq<Row>) {
    |a| == |b| && forall i :: 0 <= i < |a| ==> a[i] == b[i].(battery := a[i].battery, grid := a[i].grid)
  }

  /** Once stopped, the walk stays stopped and changes nothing. */
  lemma {:induction false} RunStaysHalted(c: Config, from: nat, k: nat, n: nat, s0: SimState)
    requires c.Valid() && from <= k <= n <= |s0.rows| && Run(c, from, k, s0).halted
    ensures Run(c, from, n, s0) == Run(c, from, k, s0)
    decreases n
  {
    if n > k {
      RunStaysHalted(c, from, k, n - 1, s0);
    }
  }

  /** The walk writes only rows from `from` up to k, only their battery and
      grid columns, and never removes a schedule entry. */
  lemma {:induction false} RunFrame(c: Config, from: nat, k: nat, s0: SimState)
    requires c.Valid() && from <= k <= |s0.rows|
    ensures var r := Run(c, from, k, s0);
            s0.sched.Keys <= r.sched.Keys &&
            (forall i :: 0 <= i < |s0.rows| && !(from <= i < k) ==> r.rows[i] == s0.rows[i]) &&
            SameMinutes(r.rows, s0.rows)
    decreases k
  {
    if k > from {
      var prev := Run(c, from, k - 1, s0);
      RunFrame(c, from, k - 1, s0);
      StepFrame(c, prev, k - 1);
      var r := Step(c, prev, k - 1);
      assert Run(c, from, k, s0) == r;
      assert forall i :: 0 <= i < |s0.rows| && i != k - 1 ==> r.rows[i] == prev.rows[i];
    }
  }

  /** A walk that did not stop has written a battery level into every row
      it visited. */
  lemma {:induction false} RunWritesBattery(c: Config, from: nat, k: nat, s0: SimState)
    requires c.Valid() && from <= k <= |s0.rows| && !s0.halted
    ensures var r := Run(c, from, k, s0);
            !r.halted ==> forall i :: from <= i < k ==> r.rows[i].battery.Some?
    decreases k
  {
    if k > from {
      var prev := Run(c, from, k - 1, s0);
      RunWritesBattery(c, from, k - 1, s0);
      StepFrame(c, prev, k - 1);
      if !prev.halted {
        var p := prev.rows[k - 1].periodStart;
        if AtEcoStart(c, p) {
        } else if InPeak(c.window, TimeOfDay(p)) && prev.minSoc.None? {
        } else if InPeak(c.window, TimeOfDay(p)) && prev.battery < prev.minSoc.value {
        } else {
        }
      }
    }
  }

  /** Once a hold level is set it stays set, so a walk that starts with
      one (a stored target, or a fresh one inside the window) never stops. */
  lemma {:induction false} RunMinSocOnceSet(c: Config, from: nat, k: nat, s0: SimState)
    requires c.Valid() && from <= k <= |s0.rows| && s0.minSoc.Some?
    ensures Run(c, from, k, s0).minSoc.Some?
    ensures !s0.halted ==> !Run(c, from, k, s0).halted
    decreases k
  {
    if k > from {
      RunMinSocOnceSet(c, from, k - 1, s0);
    }
  }

  /** The metadata pass only adds import and export fields; every entry it
      touches reads back non-negative values. */
  lemma {:induction false} MetaRunImportExport(c: Config, rows: seq<Row>, from: nat, k: nat,
                                               sched: map<Instant, Entry>, key: Instant)
    requires c.Valid() && from <= k <= |rows|
    requires key in MetaRun(c, rows, from, k, sched) && key !in sched
    ensures "import" in MetaRun(c, rows, from, k, sched)[key] && "export" in MetaRun(c, rows, from, k, sched)[key]
    ensures MetaRun(c, rows, from, k, sched)[key]["import"] >= 0.0
    ensures MetaRun(c, rows, from, k, sched)[key]["export"] >= 0.0
    decreases k
  {
    var m := MetaRun(c, rows, from, k - 1, sched);
    var p := rows[k - 1].periodStart;
    if AtEcoStart(c, p) && key == Replace(p, c.window.start) {
      UpsertMergesFields(m, key, Metadata(c, rows, p), "import");
      UpsertMergesFields(m, key, Metadata(c, rows, p), "export");
    } else {
      MetaRunImportExport(c, rows, from, k - 1, sched, key);
    }
  }

  /** The table's last rows are the frame's minutes, in order. */
  predicate EndsWithFrame(model: seq<Row>, frame: seq<Minute>) {
    |frame| <= |model| &&
    forall i :: 0 <= i < |frame| ==>
      var x := model[|model| - |frame| + i];
      x.periodStart == frame[i].periodStart && x.date == frame[i].date && x.load == frame[i].load &&
      x.pv == frame[i].pv && x.delta == frame[i].delta
  }

  /** Whether a future row of the frame falls on the eco start. */
  predicate FrameReachesEcoStart(c: Config, frame: seq<Minute>, now: Instant) {
    exists k :: FirstAfter(frame, now) <= k < |frame| && AtEcoStart(c, frame[k].periodStart)
  }

  /** What a walk leaves, in terms of the state at the end of its first
      pass. */
  lemma WalkOutcome(c: Config, model: seq<Row>, ready: bool, frame: seq<Minute>, now: Instant, s0: SimState)
    requires c.Valid() && |s0.rows| == |frame|
    ensures var from := FirstAfter(frame, now);
            var s := Run(c, from, |frame|, s0);
            Walk(c, model, ready, frame, now, s0) ==
              if s.halted || (!HasGrid(s.rows) && ReachesEcoStart(c, s.rows, from))
              then Refreshed(Err(Unexpected), Some(model), ready, s.sched)
              else Refreshed(Ok(()), Some(History(model, now - 3 * DAY, now) + s.rows), true,
                             MetaRun(c, s.rows, from, |frame|, s.sched))
  {
  }

  /** A walk that completes leaves the model ready and ending with the
      frame's rows, their minutes unchanged; when it reached an eco start
      the model has a grid column for the peak queries to read. */
  lemma WalkSuccess(c: Config, model: seq<Row>, ready: bool, frame: seq<Minute>, now: Instant, s0: SimState)
    requires c.Valid() && s0.rows == Fresh(frame)
    ensures var r := Walk(c, model, ready, frame, now, s0);
            r.status.Ok? ==> r.ready && r.model.Some? && EndsWithFrame(r.model.value, frame) &&
                             (FrameReachesEcoStart(c, frame, now) ==> HasGrid(r.model.value))
  {
    var from := FirstAfter(frame, now);
    var s := Run(c, from, |frame|, s0);
    WalkOutcome(c, model, ready, frame, now, s0);
    RunFrame(c, from, |frame|, s0);
    var h := History(model, now - 3 * DAY, now);
    AppendKeepsFrame(h, s.rows, frame);
    if FrameReachesEcoStart(c, frame, now) {
      ReachesSameMinutes(c, frame, s.rows, now);
      if HasGrid(s.rows) {
        AppendHasGrid(h, s.rows);
      }
    }
  }

  /** A walked copy of the frame reaches an eco start when the frame does. */
  lemma ReachesSameMinutes(c: Config, frame: seq<Minute>, rows: seq<Row>, now: Instant)
    requires SameMinutes(rows, Fresh(frame)) && FrameReachesEcoStart(c, frame, now)
    ensures ReachesEcoStart(c, rows, FirstAfter(frame, now))
  {
    var k :| FirstAfter(frame, now) <= k < |frame| && AtEcoStart(c, frame[k].periodStart);
    assert rows[k].periodStart == frame[k].periodStart;
  }

  /** Rows put in front keep a grid value that is there. */
  lemma AppendHasGrid(h: seq<Row>, rows: seq<Row>)
    requires HasGrid(rows)
    ensures HasGrid(h + rows)
  {
    var i :| 0 <= i < |rows| && rows[i].grid.Some?;
    assert (h + rows)[|h| + i] == rows[i];
  }

  /** After a walk that completes, the rows after `now` are in time
      order when the frame is: the history kept in front of the frame
      holds only rows at or before `now`. */
  lemma WalkFutureSorted(c: Config, model: seq<Row>, ready: bool, frame: seq<Minute>, now: Instant, s0: SimState)
    requires c.Valid() && s0.rows == Fresh(frame) && Sorted(frame)
    ensures var r := Walk(c, model, ready, frame, now, s0);
            r.status.Ok? ==> r.model.Some? && FutureSorted(r.model.value, now)
  {
    var from := FirstAfter(frame, now);
    var s := Run(c, from, |frame|, s0);
    WalkOutcome(c, model, ready, frame, now, s0);
    RunFrame(c, from, |frame|, s0);
    HistoryFutureSorted(History(model, now - 3 * DAY, now), s.rows, frame, now);
  }

  /** Rows at or before `now` followed by a walked copy of a frame in time
      order have their rows after `now` in time order. */
  lemma HistoryFutureSorted(h: seq<Row>, rows: seq<Row>, frame: seq<Minute>, now: Instant)
    requires forall x :: x in h ==> x.periodStart <= now
    requires SameMinutes(rows, Fresh(frame)) && Sorted(frame)
    ensures FutureSorted(h + rows, now)
  {
    var all := h + rows;
    forall i, j | 0 <= i < j < |all| && all[i].periodStart > now && all[j].periodStart > now
      ensures all[i].periodStart < all[j].periodStart
    {
      assert i >= |h|;
      assert all[i] == rows[i - |h|] && all[j] == rows[j - |h|];
      assert rows[i - |h|].periodStart == frame[i - |h|].periodStart;
      assert rows[j - |h|].periodStart == frame[j - |h|].periodStart;
    }
  }

  /** History followed by a walked copy of the frame ends with the frame. */
  lemma AppendKeepsFrame(h: seq<Row>, rows: seq<Row>, frame: seq<Minute>)
    requires SameMinutes(rows, Fresh(frame))
    ensures EndsWithFrame(h + rows, frame)
  {
    forall i | 0 <= i < |frame|
      ensures var x := (h + rows)[|h + rows| - |frame| + i];
              x.periodStart == frame[i].periodStart && x.date == frame[i].date && x.load == frame[i].load &&
              x.pv == frame[i].pv && x.delta == frame[i].delta
    {
      assert (h + rows)[|h| + i] == rows[i];
    }
  }

  /** A walk that stops leaves the model and the ready flag as they were,
      and the schedule with at least the entries it started with. */
  lemma WalkFailure(c: Config, model: seq<Row>, ready: bool, frame: seq<Minute>, now: Instant, s0: SimState)
    requires c.Valid() && |s0.rows| == |frame|
    ensures var r := Walk(c, model, ready, frame, now, s0);
            r.status.Err? ==> r.status == Err(Unexpected) && r.ready == ready && r.model == Some(model) &&
                              s0.sched.Keys <= r.sched.Keys
  {
    RunFrame(c, FirstAfter(frame, now), |frame|, s0);
  }

  /** A refresh that succeeds leaves the model ready, ending with the whole
      frame, with a grid column when an eco start lies ahead, and, for a
      frame in time order, with its rows after `now` in time order. */
  lemma RefreshSuccess(c: Config, model: Option<seq<Row>>, ready: bool, sched: map<Instant, Entry>,
                       frame: seq<Minute>, now: Instant, soc: SocReading)
    requires c.Valid()
    ensures var r := Refresh(c, model, ready, sched, frame, now, soc);
            r.status.Ok? ==>
              r.ready && r.model.Some? && EndsWithFrame(r.model.value, frame) &&
              (FrameReachesEcoStart(c, frame, now) ==> HasGrid(r.model.value)) &&
              (Sorted(frame) ==> FutureSorted(r.model.value, now))
  {
    var blank := Fresh(frame);
    var model1 := if model.None? then blank else model.value;
    var cap := CapacityRemaining(c, soc);
    if cap.Ok? {
      var init := InitialHold(c, blank, sched, now, cap.value);
      if init.Ok? {
        var s0 := SimState(cap.value, init.value.0, init.value.1, blank, false);
        assert Refresh(c, model, ready, sched, frame, now, soc) == Walk(c, model1, ready, frame, now, s0);
        WalkSuccess(c, model1, ready, frame, now, s0);
        if Sorted(frame) {
          WalkFutureSorted(c, model1, ready, frame, now, s0);
        }
      }
    }
  }

  /** A refresh that fails leaves the ready flag as it was and the model as
      it was (or the merged frame, on the first refresh), never removes a
      schedule entry, and reports `NoDataError` exactly when the battery
      sensor has no usable state. */
  lemma RefreshFailure(c: Config, model: Option<seq<Row>>, ready: bool, sched: map<Instant, Entry>,
                       frame: seq<Minute>, now: Instant, soc: SocReading)
    requires c.Valid()
    ensures var r := Refresh(c, model, ready, sched, frame, now, soc);
            r.status.Err? ==>
              r.ready == ready && sched.Keys <= r.sched.Keys &&
              r.model == (if model.None? then Some(Fresh(frame)) else model) &&
              (r.status == Err(NoData) <==> soc.NoEntity? || soc.StateUnknown? || soc.StateUnavailable?)
  {
    var blank := Fresh(frame);
    var model1 := if model.None? then blank else model.value;
    var cap := CapacityRemaining(c, soc);
    if cap.Ok? {
      var init := InitialHold(c, blank, sched, now, cap.value);
      if init.Ok? {
        WalkFailure(c, model1, ready, frame, now, SimState(cap.value, init.value.0, init.value.1, blank, false));
      }
    }
  }

  // ---------------------------------------------------------------------
  // Boost and full-charge requests survive a refresh

  /** The two request fields the controller writes; the model only reads
      them. */
  predicate IsRequest(f: string) {
    f == "boost_status" || f == "full_status"
  }

  /** Field f of entry key, if present in m1, is present in m2 with the
      same value. */
  predicate KeepsField(m1: map<Instant, Entry>, m2: map<Instant, Entry>, key: Instant, f: string) {
    key in m1 && f in m1[key] ==> key in m2 && f in m2[key] && m2[key][f] == m1[key][f]
  }

  lemma UpsertKeepsField(m: map<Instant, Entry>, index: Instant, params: Entry, key: Instant, f: string)
    requires f !in params
    ensures KeepsField(m, Upserted(m, index, params), key, f)
  {
  }

  lemma {:induction false} RunKeepsRequests(c: Config, from: nat, k: nat, s0: SimState, key: Instant, f: string)
    requires c.Valid() && from <= k <= |s0.rows| && IsRequest(f)
    ensures KeepsField(s0.sched, Run(c, from, k, s0).sched, key, f)
    decreases k
  {
    if k > from {
      RunKeepsRequests(c, from, k - 1, s0, key, f);
      var s := Run(c, from, k - 1, s0);
      assert Run(c, from, k, s0) == Step(c, s, k - 1);
      StepSchedule(c, s, k - 1);
      if !s.halted && AtEcoStart(c, s.rows[k - 1].periodStart) {
        var p := s.rows[k - 1].periodStart;
        var t := ChargeTotals(c, s.rows, p, s.battery, TotalAdditionalCharge(s.sched, p));
        TotalsEntryStoresTarget(t);
        UpsertKeepsField(s.sched, t.ecoStart, TotalsEntry(t), key, f);
      }
    }
  }

  /** A step touches the schedule only at the eco start, with the plan's
      entry. */
  lemma StepSchedule(c: Config, s: SimState, k: nat)
    requires c.Valid() && k < |s.rows|
    ensures !(!s.halted && AtEcoStart(c, s.rows[k].periodStart)) ==> Step(c, s, k).sched == s.sched
    ensures !s.halted && AtEcoStart(c, s.rows[k].periodStart) ==>
              var p := s.rows[k].periodStart;
              var t := ChargeTotals(c, s.rows, p, s.battery, TotalAdditionalCharge(s.sched, p));
              Step(c, s, k).sched == Upserted(s.sched, t.ecoStart, TotalsEntry(t))
  {
  }

  lemma {:induction false} MetaRunKeepsRequests(c: Config, rows: seq<Row>, from: nat, k: nat,
                                                sched: map<Instant, Entry>, key: Instant, f: string)
    requires c.Valid() && from <= k <= |rows| && IsRequest(f)
    ensures KeepsField(sched, MetaRun(c, rows, from, k, sched), key, f)
    decreases k
  {
    if k > from {
      MetaRunKeepsRequests(c, rows, from, k - 1, sched, key, f);
      var p := rows[k - 1].periodStart;
      if AtEcoStart(c, p) {
        UpsertKeepsField(MetaRun(c, rows, from, k - 1, sched), Replace(p, c.window.start), Metadata(c, rows, p), key, f);
      }
    }
  }

  lemma WalkKeepsRequests(c: Config, model: seq<Row>, ready: bool, frame: seq<Minute>, now: Instant,
                          s0: SimState, key: Instant, f: string)
    requires c.Valid() && |s0.rows| == |frame| && IsRequest(f)
    ensures KeepsField(s0.sched, Walk(c, model, ready, frame, now, s0).sched, key, f)
  {
    var from := FirstAfter(frame, now);
    var s := Run(c, from, |frame|, s0);
    RunKeepsRequests(c, from, |frame|, s0, key, f);
    MetaRunKeepsRequests(c, s.rows, from, |frame|, s.sched, key, f);
  }

  /** A refresh never drops or changes a stored boost or full-charge
      request: it only writes plan fields and grid metadata. */
  lemma RefreshKeepsRequests(c: Config, model: Option<seq<Row>>, ready: bool, sched: map<Instant, Entry>,
                             frame: seq<Minute>, now: Instant, soc: SocReading, key: Instant, f: string)
    requires c.Valid() && IsRequest(f)
    ensures KeepsField(sched, Refresh(c, model, ready, sched, frame, now, soc).sched, key, f)
  {
    var blank := Fresh(frame);
    var model1 := if model.None? then blank else model.value;
    var cap := CapacityRemaining(c, soc);
    if cap.Ok? {
      var init := InitialHold(c, blank, sched, now, cap.value);
      if init.Ok? {
        if LastEcoStart(c.window, now) !in sched && InPeak(c.window, TimeOfDay(now)) {
          var t := ChargeTotals(c, blank, now, cap.value, 0.0);
          TotalsEntryStoresTarget(t);
          UpsertKeepsField(sched, t.ecoStart, TotalsEntry(t), key, f);
        }
        var s0 := SimState(cap.value, init.value.0, init.value.1, blank, false);
        assert Refresh(c, model, ready, sched, frame, now, soc) == Walk(c, model1, ready, frame, now, s0);
        WalkKeepsRequests(c, model1, ready, frame, now, s0, key, f);
      }
    }
  }

  /** A refresh, successful or not, never removes a schedule entry. */
  lemma RefreshKeysKept(c: Config, model: Option<seq<Row>>, ready: bool, sched: map<Instant, Entry>,
                        frame: seq<Minute>, now: Instant, soc: SocReading)
    requires c.Valid()
    ensures sched.Keys <= Refresh(c, model, ready, sched, frame, now, soc).sched.Keys
  {
    var blank := Fresh(frame);
    var model1 := if model.None? then blank else model.value;
    var cap := CapacityRemaining(c, soc);
    if cap.Ok? {
      var init := InitialHold(c, blank, sched, now, cap.value);
      if init.Ok? {
        var s0 := SimState(cap.value, init.value.0, init.value.1, blank, false);
        assert Refresh(c, model, ready, sched, frame, now, soc) == Walk(c, model1, ready, frame, now, s0);
        var from := FirstAfter(frame, now);
        RunFrame(c, from, |frame|, s0);
      }
    }
  }
}

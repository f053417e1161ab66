/** The battery controller: it refreshes the model when both inputs are
    ready, records when that last succeeded, stores boost and full-charge
    requests under the next eco start, and reads the plan for that eco
    start back. */
module BatteryControl {
  import opened Common
  import opened Rounding
  import opened PeakPeriod
  import opened BatteryUtil
  import opened Frame
  import opened ScheduleStore
  import opened ChargePlan
  import opened Simulation
  import opened BatteryModelling

  /** What one call to `refresh` gets from outside: whether the average
      and forecast controllers are ready, the merged frame built from their
      resampled data (or the `NoDataError` one of them raised), and the
      battery sensor. */
  datatype RefreshInputs = RefreshInputs(averageReady: bool, forecastReady: bool,
                                         frame: Result<seq<Minute>>, soc: SocReading) {
    predicate Valid() {
      frame.Ok? ==> Sorted(frame.value)
    }
  }

  /** The state a refresh reads and writes: the model's table and ready
      flag, the schedule, the last successful refresh and how many times
      listeners were notified. */
  datatype ControllerState = ControllerState(model: Option<seq<Row>>, ready: bool, sched: map<Instant, Entry>,
                                             lastUpdate: Option<Instant>, notified: nat)

  /** `refresh()`: nothing unless both inputs are ready; every error is
      swallowed; the timestamp and the notification only follow a
      successful model refresh. */
  function ControllerRefresh(c: Config, st: ControllerState, inp: RefreshInputs, now: Instant): (r: ControllerState)
    requires c.Valid() && inp.Valid()
    ensures !(inp.averageReady && inp.forecastReady) ==> r == st
    ensures inp.frame.Err? ==> r == st
    ensures r.notified == st.notified + 1 <==>
              inp.averageReady && inp.forecastReady && inp.frame.Ok? &&
              Refresh(c, st.model, st.ready, st.sched, inp.frame.value, now, inp.soc).status.Ok?
    ensures r.notified == st.notified + 1 ==> r.lastUpdate == Some(now) && r.ready && r.model.Some?
    ensures r.notified != st.notified + 1 ==> r.notified == st.notified && r.lastUpdate == st.lastUpdate && r.ready == st.ready
    ensures st.sched.Keys <= r.sched.Keys
  {
    if !(inp.averageReady && inp.forecastReady) then st
    else match inp.frame
      case Err(_) => st
      case Ok(frame) =>
        var res := Refresh(c, st.model, st.ready, st.sched, frame, now, inp.soc);
        RefreshSuccess(c, st.model, st.ready, st.sched, frame, now, inp.soc);
        RefreshFailure(c, st.model, st.ready, st.sched, frame, now, inp.soc);
        RefreshKeysKept(c, st.model, st.ready, st.sched, frame, now, inp.soc);
        if res.status.Ok? then ControllerState(res.model, res.ready, res.sched, Some(now), st.notified + 1)
        else ControllerState(res.model, res.ready, res.sched, st.lastUpdate, st.notified)
  }

  /** `get_schedule(start, end)`: the whole schedule unless both bounds are
      given, else the entries strictly between them. */
  function ScheduleBetween(sched: map<Instant, Entry>, start: Option<Instant>, end: Option<Instant>)
    : (r: map<Instant, Entry>)
    ensures start.None? || end.None? ==> r == sched
    ensures start.Some? && end.Some? ==>
              forall k :: k in r <==> k in sched && start.value < k < end.value
    ensures forall k :: k in r ==> k in sched && r[k] == sched[k]
  {
    if start.None? || end.None? then sched
    else map k | k in sched && start.value < k && k < end.value :: sched[k]
  }

  /** The value `set_full` stores: the capacity to fill up, or zero. */
  function FullValue(b: Battery, status: bool): real {
    if status then b.capacity else 0.0
  }

  /** `get_full()` on a schedule: whether a non-zero full-charge request is
      stored under the key. */
  function FullRequested(sched: map<Instant, Entry>, key: Instant): (r: bool)
    ensures r <==> key in sched && "full_status" in sched[key] && sched[key]["full_status"] != 0.0
  {
    GetBoost(sched, key, "full_status") != 0.0
  }

  /** Storing a full-charge request and reading it back gives the request
      as long as the pack has a capacity, and a refresh in between does not
      change the answer. */
  lemma {:induction false} SetFullThenGetFull(c: Config, st: ControllerState, inp: RefreshInputs, now: Instant, status: bool)
    requires c.Valid() && inp.Valid()
    ensures var key := NextEcoStart(c.window, now);
            var stored := st.(sched := Upserted(st.sched, key, map["full_status" := FullValue(c.battery, status)]));
            FullRequested(ControllerRefresh(c, stored, inp, now).sched, key) == status
  {
    var key := NextEcoStart(c.window, now);
    var sched1 := Upserted(st.sched, key, map["full_status" := FullValue(c.battery, status)]);
    var stored := st.(sched := sched1);
    UpsertMergesFields(st.sched, key, map["full_status" := FullValue(c.battery, status)], "full_status");
    if inp.averageReady && inp.forecastReady && inp.frame.Ok? {
      RefreshKeepsRequests(c, st.model, st.ready, sched1, inp.frame.value, now, inp.soc, key, "full_status");
    }
  }

  /** A stored boost survives the refresh that `set_boost` triggers, and
      the charge plan at that eco start then reads it. */
  lemma {:induction false} SetBoostThenRefresh(c: Config, st: ControllerState, inp: RefreshInputs, now: Instant, v: real)
    requires c.Valid() && inp.Valid()
    ensures var key := NextEcoStart(c.window, now);
            var stored := st.(sched := Upserted(st.sched, key, map["boost_status" := v]));
            var after := ControllerRefresh(c, stored, inp, now).sched;
            GetBoost(after, key, "boost_status") == v &&
            TotalAdditionalCharge(after, key) >= v
  {
    var key := NextEcoStart(c.window, now);
    var sched1 := Upserted(st.sched, key, map["boost_status" := v]);
    UpsertMergesFields(st.sched, key, map["boost_status" := v], "boost_status");
    if inp.averageReady && inp.forecastReady && inp.frame.Ok? {
      RefreshKeepsRequests(c, st.model, st.ready, sched1, inp.frame.value, now, inp.soc, key, "boost_status");
    }
  }

  class BatteryController {
    const model: BatteryModel
    const schedule: Schedule
    var lastUpdate: Option<Instant>
    var notified: nat

    constructor (model: BatteryModel)
      ensures this.model == model && schedule == model.schedule
      ensures lastUpdate == None && notified == 0
    {
      this.model := model;
      schedule := model.schedule;
      lastUpdate := None;
      notified := 0;
    }

    predicate Valid()
      reads this
    {
      schedule == model.schedule && model.cfg.Valid()
    }

    function State(): ControllerState
      reads this, model, schedule
    {
      ControllerState(model.model, model.ready, schedule.entries, lastUpdate, notified)
    }

    /** `refresh()` */
    method Refresh(inp: RefreshInputs, now: Instant)
      requires Valid() && inp.Valid()
      modifies this, model, schedule
      ensures State() == ControllerRefresh(model.cfg, old(State()), inp, now)
    {
      if !(inp.averageReady && inp.forecastReady) {
        return;
      }
      if inp.frame.Err? {
        return;
      }
      var status := model.RefreshBatteryModel(inp.frame.value, now, inp.soc);
      if status.Ok? {
        lastUpdate := Some(now);
        notified := notified + 1;
      }
    }

    /** `get_schedule(start, end)` */
    function GetSchedule(start: Option<Instant>, end: Option<Instant>): (r: map<Instant, Entry>)
      reads this, schedule
      ensures forall k :: k in r <==>
                k in schedule.entries && (start.None? || end.None? || start.value < k < end.value)
    {
      ScheduleBetween(schedule.entries, start, end)
    }

    /** `set_boost(value)`: store the request, then refresh. */
    method SetBoost(value: real, inp: RefreshInputs, now: Instant)
      requires Valid() && inp.Valid()
      modifies this, model, schedule
      ensures var key := NextEcoStart(model.cfg.window, now);
              State() == ControllerRefresh(model.cfg, old(State()).(sched := Upserted(old(schedule.entries), key, map["boost_status" := value])), inp, now)
    {
      schedule.Upsert(NextEcoStart(model.cfg.window, now), map["boost_status" := value]);
      Refresh(inp, now);
    }

    /** `set_full(status)`: store the capacity or zero, then refresh. */
    method SetFull(status: bool, inp: RefreshInputs, now: Instant)
      requires Valid() && inp.Valid()
      modifies this, model, schedule
      ensures var key := NextEcoStart(model.cfg.window, now);
              State() == ControllerRefresh(model.cfg, old(State()).(sched := Upserted(old(schedule.entries), key, map["full_status" := FullValue(model.cfg.battery, status)])), inp, now)
    {
      var value := if status then model.cfg.battery.capacity else 0.0;
      schedule.Upsert(NextEcoStart(model.cfg.window, now), map["full_status" := value]);
      Refresh(inp, now);
    }

    /** `get_boost()` */
    function GetBoostValue(now: Instant): (r: real)
      requires Valid()
      reads this, schedule
      ensures var key := NextEcoStart(model.cfg.window, now);
              r == (if key in schedule.entries && "boost_status" in schedule.entries[key]
                    then schedule.entries[key]["boost_status"] else 0.0)
    {
      GetBoost(schedule.entries, NextEcoStart(model.cfg.window, now), "boost_status")
    }

    /** `get_full()` */
    function GetFull(now: Instant): (r: bool)
      requires Valid()
      reads this, schedule
      ensures var key := NextEcoStart(model.cfg.window, now);
              !r <==> key !in schedule.entries || "full_status" !in schedule.entries[key] ||
                      schedule.entries[key]["full_status"] == 0.0
    {
      FullRequested(schedule.entries, NextEcoStart(model.cfg.window, now))
    }

    /** `_schedule_info()`: the plan stored for the next eco start. */
    function ScheduleInfo(now: Instant): (r: Option<Entry>)
      requires Valid()
      reads this, schedule
      ensures r.Some? <==> NextEcoStart(model.cfg.window, now) in schedule.entries
      ensures r.Some? ==> r.value == schedule.entries[NextEcoStart(model.cfg.window, now)]
    {
      schedule.Get(NextEcoStart(model.cfg.window, now))
    }

    /** One field of the next plan (`dawn_charge_needs`, `day_charge_needs`,
        `charge_total`, `min_soc`); a missing plan or field fails. */
    function PlanField(now: Instant, name: string): (r: Result<real>)
      requires Valid()
      reads this, schedule
      ensures r.Ok? <==> ScheduleInfo(now).Some? && name in ScheduleInfo(now).value
      ensures r.Ok? ==> r.value == ScheduleInfo(now).value[name]
      ensures r.Err? ==> r.error == Unexpected
    {
      match ScheduleInfo(now)
      case None => Err(Unexpected)
      case Some(e) => if name in e then Ok(e[name]) else Err(Unexpected)
    }

    /** `state_at_eco_start()`: the stored battery level, to 0.01 kWh. */
    function StateAtEcoStart(now: Instant): (r: Result<real>)
      requires Valid()
      reads this, schedule
      ensures r.Ok? <==> PlanField(now, "battery").Ok?
      ensures r.Ok? ==> -0.005 <= r.value - PlanField(now, "battery").value <= 0.005
    {
      match PlanField(now, "battery")
      case Err(e) => Err(e)
      case Ok(b) => Round2Close(b); Ok(Round2(b))
    }

    /** `charge_to_perc()`: the next plan's target as a battery percentage. */
    function ChargeTargetPerc(now: Instant): (r: Result<real>)
      requires Valid()
      reads this, schedule
      ensures r.Ok? <==> PlanField(now, "min_soc").Ok?
      ensures r.Ok? ==> r.value == ChargeToPerc(model.cfg.battery, PlanField(now, "min_soc").value) && r.value <= MAX_PERC
    {
      match PlanField(now, "min_soc")
      case Err(e) => Err(e)
      case Ok(m) => Ok(ChargeToPerc(model.cfg.battery, m))
    }
  }
}

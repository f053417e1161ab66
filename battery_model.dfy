/** The battery model object: it keeps the last model table and a ready
    flag, writes charge plans and grid metadata into the schedule, and
    answers queries about the table. `RefreshBatteryModel` walks the frame
    in place over an array and is proved to leave exactly the state that
    `Simulation.Refresh` describes. */
module BatteryModelling {
  import opened Common
  import opened Rounding
  import opened PeakPeriod
  import opened BatteryUtil
  import opened Frame
  import opened ScheduleStore
  import opened ChargePlan
  import opened Simulation

  /** The first row after `now` whose simulated battery is exactly empty. */
  function FirstDepleted(rows: seq<Row>, now: Instant): (k: nat)
    ensures k <= |rows|
    ensures forall i :: 0 <= i < k ==> !(rows[i].battery == Some(0.0) && rows[i].periodStart > now)
    ensures k < |rows| ==> rows[k].battery == Some(0.0) && rows[k].periodStart > now
  {
    if rows == [] then 0
    else if rows[0].battery == Some(0.0) && rows[0].periodStart > now then 0
    else 1 + FirstDepleted(rows[1..], now)
  }

  class BatteryModel {
    const cfg: Config
    const schedule: Schedule
    var model: Option<seq<Row>>
    var ready: bool

    constructor (cfg: Config, schedule: Schedule)
      ensures this.cfg == cfg && this.schedule == schedule
      ensures model == None && !ready
    {
      this.cfg := cfg;
      this.schedule := schedule;
      model := None;
      ready := false;
    }

    /** `ready()` */
    function Ready(): (r: bool)
      reads this
      ensures r <==> ready
    {
      ready
    }

    /** `_charge_totals(model, period, battery, boost)`: computes the plan
        and upserts it under its eco start. */
    method ChargeTotalsUpsert(rows: seq<Row>, period: Instant, battery: real, boost: real)
      returns (total: real, minSoc: real)
      requires cfg.Valid()
      modifies schedule
      ensures var t := ChargeTotals(cfg, rows, period, battery, boost);
              total == t.total && minSoc == t.minSoc &&
              schedule.entries == Upserted(old(schedule.entries), t.ecoStart, TotalsEntry(t))
    {
      var t := ChargeTotals(cfg, rows, period, battery, boost);
      schedule.Upsert(t.ecoStart, TotalsEntry(t));
      total, minSoc := t.total, t.minSoc;
    }

    /** `_add_metadata(model, period)` */
    method AddMetadata(rows: seq<Row>, period: Instant)
      requires cfg.Valid()
      modifies schedule
      ensures schedule.entries == Upserted(old(schedule.entries), Replace(period, cfg.window.start), Metadata(cfg, rows, period))
    {
      schedule.Upsert(Replace(period, cfg.window.start), Metadata(cfg, rows, period));
    }

    /** `refresh_battery_model(forecast, load)` on the merged frame, the
        clock reading and the battery sensor's state. */
    method RefreshBatteryModel(frame: seq<Minute>, now: Instant, soc: SocReading) returns (status: Result<()>)
      requires cfg.Valid() && Sorted(frame)
      modifies this, schedule
      ensures Refreshed(status, model, ready, schedule.entries) ==
              Refresh(cfg, old(model), old(ready), old(schedule.entries), frame, now, soc)
    {
      var blank := Fresh(frame);
      if model.None? {
        model := Some(blank);
      }
      var model1 := model.value;

      var remaining := CapacityRemaining(cfg, soc);
      if remaining.Err? {
        return Err(remaining.error);
      }
      var battery := remaining.value;
      var hold := StartingHold(blank, now, battery);
      if hold.Err? {
        return Err(hold.error);
      }
      status := WalkFrame(model1, frame, now, battery, hold.value);
    }

    /** The hold level the walk starts from: the target stored for the last
        eco start, or one computed and stored now inside the window, or
        none; a stored entry without it fails. */
    method StartingHold(blank: seq<Row>, now: Instant, battery: real) returns (r: Result<Option<real>>)
      requires cfg.Valid()
      modifies schedule
      ensures var h := InitialHold(cfg, blank, old(schedule.entries), now, battery);
              (h.Err? ==> r == Err(h.error) && schedule.entries == old(schedule.entries)) &&
              (h.Ok? ==> r == Ok(h.value.0) && schedule.entries == h.value.1)
    {
      var last := LastEcoStart(cfg.window, now);
      var lastSchedule := schedule.Get(last);
      if lastSchedule.Some? {
        if "min_soc" !in lastSchedule.value {
          return Err(Unexpected);
        }
        return Ok(Some(lastSchedule.value["min_soc"]));
      } else if InPeak(cfg.window, TimeOfDay(now)) {
        var _, ms := ChargeTotalsUpsert(blank, now, battery, 0.0);
        return Ok(Some(ms));
      }
      return Ok(None);
    }

    /** The two loops of `refresh_battery_model` and the new model, from the
        starting battery level and hold level on. */
    method WalkFrame(model1: seq<Row>, frame: seq<Minute>, now: Instant, battery: real, minSoc: Option<real>)
      returns (status: Result<()>)
      requires cfg.Valid() && model == Some(model1)
      modifies this, schedule
      ensures Refreshed(status, model, ready, schedule.entries) ==
              Walk(cfg, model1, old(ready), frame, now, SimState(battery, minSoc, old(schedule.entries), Fresh(frame), false))
    {
      var blank := Fresh(frame);
      ghost var s0 := SimState(battery, minSoc, schedule.entries, blank, false);
      var n := |frame|;
      var table := new Row[n](i requires 0 <= i < n => blank[i]);
      assert table[..] == blank;
      var from := FirstAfter(frame, now);
      WalkOutcome(cfg, model1, old(ready), frame, now, s0);
      var completed := SimulateRows(table, from, battery, minSoc);
      if !completed {
        return Err(Unexpected);
      }
      var rows := table[..];
      var meta := MetadataPass(rows, from);
      if meta.Err? {
        return meta;
      }
      model := Some(History(model1, now - 3 * DAY, now) + rows);
      ready := true;
      return Ok(());
    }

    /** First loop of `refresh_battery_model`: walks rows `from ..` of the
        table in place, writing battery and grid values and upserting a
        plan at every eco start; reports whether it got to the end. */
    method SimulateRows(table: array<Row>, from: nat, battery0: real, minSoc0: Option<real>) returns (completed: bool)
      requires cfg.Valid() && from <= table.Length
      modifies table, schedule
      ensures var s := Run(cfg, from, table.Length, SimState(battery0, minSoc0, old(schedule.entries), old(table[..]), false));
              completed == !s.halted && schedule.entries == s.sched && (completed ==> table[..] == s.rows)
    {
      ghost var s0 := SimState(battery0, minSoc0, schedule.entries, table[..], false);
      var n := table.Length;
      var battery, minSoc := battery0, minSoc0;
      var k := from;
      while k < n
        invariant from <= k <= n
        invariant Run(cfg, from, k, s0) == SimState(battery, minSoc, schedule.entries, table[..], false)
      {
        var halted;
        halted, battery, minSoc := SimulateRow(table, k, battery, minSoc);
        if halted {
          RunStaysHalted(cfg, from, k + 1, n, s0);
          return false;
        }
        k := k + 1;
      }
      return true;
    }

    /** One pass of the first loop's body, on row k of the table. */
    method SimulateRow(table: array<Row>, k: nat, battery0: real, minSoc0: Option<real>)
      returns (halted: bool, battery: real, minSoc: Option<real>)
      requires cfg.Valid() && k < table.Length
      modifies table, schedule
      ensures var s := Step(cfg, SimState(battery0, minSoc0, old(schedule.entries), old(table[..]), false), k);
              halted == s.halted && schedule.entries == s.sched &&
              (!halted ==> s == SimState(battery, minSoc, schedule.entries, table[..], false))
    {
      var avail := cfg.battery.capacity - cfg.battery.minSoc * cfg.battery.capacity;
      battery, minSoc := battery0, minSoc0;
      var row := table[k];
      ghost var s := SimState(battery0, minSoc0, schedule.entries, table[..], false);
      var period := row.periodStart;
      if TimeOfDay(period) == cfg.window.start.Seconds() {
        // landed on the start of the eco window
        var boost := TotalAdditionalCharge(schedule.entries, period);
        var total, ms := ChargeTotalsUpsert(table[..], period, battery, boost);
        minSoc := Some(ms);
        battery := battery + total;
        assert Step(cfg, s, k) == SimState(battery, minSoc, schedule.entries, s.rows[k := row.(battery := Some(battery))], false);
      } else if InPeak(cfg.window, TimeOfDay(period)) && (minSoc.None? || battery < minSoc.value) {
        if minSoc.None? {
          // the hold level was never set: the comparison fails
          return true, battery, minSoc;
        }
        // hold the level inside the eco window
        battery := minSoc.value;
        assert Step(cfg, s, k) == SimState(battery, minSoc, schedule.entries, s.rows[k := row.(battery := Some(battery))], false);
      } else {
        var delta := row.delta;
        var newState := battery + delta;
        battery := Max(0.0, Min(avail, newState));
        if newState <= 0.0 || newState >= avail {
          row := row.(grid := Some(delta));
        } else {
          row := row.(grid := Some(0.0));
        }
        assert Step(cfg, s, k) == SimState(battery, minSoc, schedule.entries, s.rows[k := row.(battery := Some(battery))], false);
      }
      table[k] := row.(battery := Some(battery));
      assert table[..] == s.rows[k := row.(battery := Some(battery))];
      halted := false;
    }

    /** Second loop of `refresh_battery_model`: grid metadata for every
        eco start from row `from` on. */
    method MetadataPass(rows: seq<Row>, from: nat) returns (status: Result<()>)
      requires cfg.Valid() && from <= |rows|
      modifies schedule
      ensures status.Err? <==> !HasGrid(rows) && ReachesEcoStart(cfg, rows, from)
      ensures status.Err? ==> status == Err(Unexpected) && schedule.entries == old(schedule.entries)
      ensures status.Ok? ==> schedule.entries == MetaRun(cfg, rows, from, |rows|, old(schedule.entries))
    {
      var gridColumn := HasGrid(rows);
      var k := from;
      while k < |rows|
        invariant from <= k <= |rows|
        invariant schedule.entries == MetaRun(cfg, rows, from, k, old(schedule.entries))
        invariant !gridColumn ==> forall j :: from <= j < k ==> !AtEcoStart(cfg, rows[j].periodStart)
        invariant !gridColumn ==> schedule.entries == old(schedule.entries)
      {
        var period := rows[k].periodStart;
        if TimeOfDay(period) == cfg.window.start.Seconds() {
          if !gridColumn {
            // the lookup of the missing grid column fails
            return Err(Unexpected);
          }
          AddMetadata(rows, period);
        }
        k := k + 1;
      }
      status := Ok(());
    }

    /** `battery_depleted_time()`: none when the battery is already empty,
        otherwise the first future row the model drains to zero, or the
        model's last row when it never does. A table without a battery
        column fails, as the column lookup does. */
    function BatteryDepletedTime(now: Instant, soc: SocReading): (r: Result<Option<Instant>>)
      requires cfg.Valid()
      reads this
      ensures CapacityRemaining(cfg, soc).Err? ==> r == Err(CapacityRemaining(cfg, soc).error)
      ensures CapacityRemaining(cfg, soc).Ok? && CapacityRemaining(cfg, soc).value <= 0.0 ==> r == Ok(None)
      ensures CapacityRemaining(cfg, soc).Ok? && CapacityRemaining(cfg, soc).value > 0.0 ==>
                (r.Err? <==> model.None? || !HasBattery(model.value)) && (r.Err? ==> r == Err(Unexpected))
      ensures r.Ok? && r.value.Some? ==>
                model.Some? && model.value != [] &&
                var rows := model.value; var k := FirstDepleted(rows, now);
                r.value.value == (if k < |rows| then rows[k].periodStart else rows[|rows| - 1].periodStart)
      ensures r.Ok? && r.value.Some? ==>
                model.Some? && exists i :: 0 <= i < |model.value| && r.value.value == model.value[i].periodStart
      ensures r.Ok? && r.value.Some? && (exists i :: 0 <= i < |model.value| && model.value[i].battery == Some(0.0) &&
                                                     model.value[i].periodStart > now) ==>
                r.value.value > now
      ensures r.Ok? && r.value.Some? && model.value != [] && r.value.value != model.value[|model.value| - 1].periodStart ==>
                r.value.value > now
    {
      match CapacityRemaining(cfg, soc)
      case Err(e) => Err(e)
      case Ok(remaining) =>
        if remaining <= 0.0 then Ok(None)
        else if model.None? || !HasBattery(model.value) then Err(Unexpected)
        else
          var rows := model.value;
          var k := FirstDepleted(rows, now);
          if k < |rows| then Ok(Some(rows[k].periodStart))
          else Ok(Some(rows[|rows| - 1].periodStart))
    }

    /** `peak_grid_import()`: energy drawn from the grid between now and
        the next eco start, as a non-negative amount rounded to 0.01. A
        table without a grid column fails, as the column lookup does. */
    function PeakGridImport(now: Instant): (r: Result<real>)
      requires cfg.Valid()
      reads this
      ensures r.Err? <==> model.None? || !HasGrid(model.value)
      ensures r.Ok? ==> r.value >= 0.0
      ensures r.Ok? ==> -0.005 <= r.value + GridSum(model.value, now, NextEcoStart(cfg.window, now), Import) <= 0.005
    {
      if model.None? || !HasGrid(model.value) then Err(Unexpected)
      else
        var rows := model.value;
        var hi := NextEcoStart(cfg.window, now);
        GridSumSign(rows, now, hi, Import);
        Round2NonNegative(Abs(GridSum(rows, now, hi, Import)));
        Round2Close(Abs(GridSum(rows, now, hi, Import)));
        if !AnyFlow(rows, now, hi, Import) then
          GridSumEmpty(rows, now, hi, Import);
          Ok(0.0)
        else Ok(Round2(Abs(GridSum(rows, now, hi, Import))))
    }

    /** `peak_grid_export()`: energy sent to the grid between now and the
        next eco start, rounded to 0.01. */
    function PeakGridExport(now: Instant): (r: Result<real>)
      requires cfg.Valid()
      reads this
      ensures r.Err? <==> model.None? || !HasGrid(model.value)
      ensures r.Ok? ==> r.value >= 0.0
      ensures r.Ok? ==> -0.005 <= r.value - GridSum(model.value, now, NextEcoStart(cfg.window, now), Export) <= 0.005
    {
      if model.None? || !HasGrid(model.value) then Err(Unexpected)
      else
        var rows := model.value;
        var hi := NextEcoStart(cfg.window, now);
        GridSumSign(rows, now, hi, Export);
        Round2NonNegative(GridSum(rows, now, hi, Export));
        Round2Close(GridSum(rows, now, hi, Export));
        if !AnyFlow(rows, now, hi, Export) then
          GridSumEmpty(rows, now, hi, Export);
          Ok(0.0)
        else Ok(Round2(GridSum(rows, now, hi, Export)))
    }

    /** `todays_dawn_time()` */
    function TodaysDawnTime(now: Instant): (r: Result<Instant>)
      reads this
      ensures r.Err? <==> model.None?
      ensures r.Ok? ==> r.value == DawnTime(model.value, now)
    {
      if model.None? then Err(Unexpected) else Ok(DawnTime(model.value, now))
    }

    /** `next_dawn_time()`: today's dawn unless it has passed, then
        tomorrow's. */
    function NextDawnTime(now: Instant): (r: Result<Instant>)
      reads this
      ensures r.Err? <==> model.None?
      ensures r.Ok? ==> r.value == DawnTime(model.value, now) || r.value == DawnTime(model.value, now + DAY)
      ensures r.Ok? && now <= DawnTime(model.value, now) ==> r.value == DawnTime(model.value, now)
      ensures r.Ok? && now > DawnTime(model.value, now) ==> r.value == DawnTime(model.value, now + DAY)
    {
      if model.None? then Err(Unexpected)
      else
        var today := DawnTime(model.value, now);
        if now > today then Ok(DawnTime(model.value, now + DAY)) else Ok(today)
    }
  }

  /** On a table whose rows after some instant `since` are in time order
      (as every successful refresh at `since` leaves it), the depleted time
      at any later `now` is the earliest future instant the model drains
      the battery to zero; when it never does, it is the table's last
      instant. */
  lemma DepletedTimeIsEarliest(m: BatteryModel, since: Instant, now: Instant, soc: SocReading, t: Instant)
    requires m.cfg.Valid() && m.model.Some? && since <= now && FutureSorted(m.model.value, since)
    requires m.BatteryDepletedTime(now, soc) == Ok(Some(t))
    ensures var rows := m.model.value;
            (exists i :: 0 <= i < |rows| && rows[i].battery == Some(0.0) && rows[i].periodStart > now) ==>
              t > now &&
              (exists i :: 0 <= i < |rows| && rows[i].battery == Some(0.0) && rows[i].periodStart == t) &&
              (forall i :: 0 <= i < |rows| && rows[i].battery == Some(0.0) && rows[i].periodStart > now ==> t <= rows[i].periodStart)
    ensures var rows := m.model.value;
            (forall i :: 0 <= i < |rows| ==> !(rows[i].battery == Some(0.0) && rows[i].periodStart > now)) ==>
              t == rows[|rows| - 1].periodStart
  {
    var rows := m.model.value;
    var k := FirstDepleted(rows, now);
    if exists i :: 0 <= i < |rows| && rows[i].battery == Some(0.0) && rows[i].periodStart > now {
      var i :| 0 <= i < |rows| && rows[i].battery == Some(0.0) && rows[i].periodStart > now;
      assert k <= i;
      assert k < |rows|;
      forall j | 0 <= j < |rows| && rows[j].battery == Some(0.0) && rows[j].periodStart > now
        ensures t <= rows[j].periodStart
      {
        assert k <= j;
        if k < j {
          assert rows[k].periodStart < rows[j].periodStart;
        }
      }
    }
  }

  /** With no dawn row on either day, the next dawn is noon: today's while
      it is still to come, otherwise tomorrow's. */
  lemma NextDawnFallsBackToNoon(m: BatteryModel, now: Instant)
    requires m.model.Some?
    requires forall i :: 0 <= i < |m.model.value| ==>
               !IsDawn(m.model.value[i], DayOf(now)) && !IsDawn(m.model.value[i], DayOf(now + DAY))
    ensures m.NextDawnTime(now) == Ok(if now > Replace(now, NOON) then Replace(now + DAY, NOON) else Replace(now, NOON))
  {
  }
}

/** How much to charge during an eco window: the energy needed to reach
    dawn, the energy the next day's load needs beyond its solar forecast,
    and the charge total that brings the battery up to the larger of the
    two, clamped to the usable capacity. */
module ChargePlan {
  import opened Common
  import opened Rounding
  import opened PeakPeriod
  import opened BatteryUtil
  import opened Frame
  import opened ScheduleStore

  /** The battery model's configuration. */
  datatype Config = Config(battery: Battery, window: EcoWindow, dawnBuffer: real, dayBuffer: real) {
    predicate Valid() {
      battery.Valid() && window.Valid()
    }
  }

  /** The values `_charge_totals` computes and stores for one eco start. */
  datatype Totals = Totals(ecoStart: Instant, ecoEnd: Instant, battery: real, load: real,
                           forecast: real, dawn: real, day: real, total: real, minSoc: real)

  const NOON: HourMinute := HourMinute(12, 0)

  /** A row on the given day where solar already exceeds a non-zero house
      load. */
  predicate IsDawn(r: Row, day: int) {
    r.date == day && r.delta > 0.0 && r.load > 0.0
  }

  /** Index of the first dawn row of the day, or the length of the table
      when there is none. */
  function FirstDawn(rows: seq<Row>, day: int): (k: nat)
    ensures k <= |rows|
    ensures forall i :: 0 <= i < k ==> !IsDawn(rows[i], day)
    ensures k < |rows| ==> IsDawn(rows[k], day)
  {
    if rows == [] then 0
    else if IsDawn(rows[0], day) then 0
    else 1 + FirstDawn(rows[1..], day)
  }

  /** `_dawn_time(model, date)`: the first row of that date where solar
      exceeds a non-zero load, otherwise noon of that date. */
  function DawnTime(rows: seq<Row>, d: Instant): (r: Instant)
    ensures (forall i :: 0 <= i < |rows| ==> !IsDawn(rows[i], DayOf(d))) ==> r == Replace(d, NOON)
    ensures (exists i :: 0 <= i < |rows| && IsDawn(rows[i], DayOf(d))) ==>
              exists i :: 0 <= i < |rows| && IsDawn(rows[i], DayOf(d)) && r == rows[i].periodStart &&
                          forall j :: 0 <= j < i ==> !IsDawn(rows[j], DayOf(d))
  {
    var k := FirstDawn(rows, DayOf(d));
    if k == |rows| then Replace(d, NOON) else rows[k].periodStart
  }

  /** `_dawn_load(model, eco_end)`: the net energy drawn between the end of
      the eco window and dawn, as a magnitude rounded to 0.01 kWh. */
  function DawnLoad(rows: seq<Row>, ecoEnd: Instant): (r: real)
    ensures r >= 0.0
    ensures -0.005 <= r - Abs(SumBetween(rows, ecoEnd, DawnTime(rows, ecoEnd), Delta)) <= 0.005
  {
    var net := Abs(SumBetween(rows, ecoEnd, DawnTime(rows, ecoEnd), Delta));
    Round2NonNegative(net);
    Round2Close(net);
    Round2(net)
  }

  /** `_dawn_charge_needs(dawn_load)` */
  function DawnChargeNeeds(c: Config, dawnLoad: real): (r: real)
    ensures r >= 0.0
    ensures -0.005 <= r - Max(0.0, dawnLoad + c.dawnBuffer) <= 0.005
  {
    Round2NonNegative(Max(0.0, dawnLoad + c.dawnBuffer));
    Round2Close(Max(0.0, dawnLoad + c.dawnBuffer));
    Round2(Max(0.0, dawnLoad + c.dawnBuffer))
  }

  /** `_day_charge_needs(forecast, house_load)`: the part of the day's load
      plus buffer that the forecast solar does not cover. */
  function DayChargeNeeds(c: Config, forecast: real, houseLoad: real): (r: real)
    ensures r >= 0.0
    ensures -0.005 <= r - Max(0.0, houseLoad + c.dayBuffer - forecast) <= 0.005
  {
    Round2NonNegative(Max(0.0, (houseLoad + c.dayBuffer) - forecast));
    Round2Close(Max(0.0, (houseLoad + c.dayBuffer) - forecast));
    Round2(Max(0.0, (houseLoad + c.dayBuffer) - forecast))
  }

  /** `_charge_totals(model, period, battery, boost)`, without the store. */
  function ChargeTotals(c: Config, rows: seq<Row>, period: Instant, battery: real, boost: real): (t: Totals)
    requires c.Valid()
  {
    var ecoStart := Replace(period, c.window.start);
    var ecoEnd := NextEcoEnd(c.window, ecoStart);
    var forecastSum := SumBetween(rows, ecoEnd, ecoStart + DAY, Pv);
    var loadSum := SumBetween(rows, ecoEnd, ecoStart + DAY, Load);
    var dawn := DawnChargeNeeds(c, DawnLoad(rows, ecoEnd));
    var day := DayChargeNeeds(c, forecastSum, loadSum);
    var maxCharge := CeilingChargeTotal(c.battery, Max(dawn, day));
    var minSoc := if boost == 0.0 then maxCharge
                  else CeilingChargeTotal(c.battery, Max(battery, maxCharge) + boost);
    var total := CeilingChargeTotal(c.battery, Max(0.0, minSoc - battery));
    Totals(ecoStart, ecoEnd, battery, loadSum, forecastSum, dawn, day, total, minSoc)
  }

  /** The fields `_charge_totals` upserts under the eco start. */
  function TotalsEntry(t: Totals): Entry {
    map["eco_start" := t.ecoStart as real, "eco_end" := t.ecoEnd as real,
        "battery" := t.battery, "load" := t.load, "forecast" := t.forecast,
        "dawn" := t.dawn, "day" := t.day, "total" := t.total, "min_soc" := t.minSoc]
  }

  /** `_get_boost(index, boost_type)`: the stored field, or 0 when the
      entry or the field is missing. */
  function GetBoost(sched: map<Instant, Entry>, index: Instant, name: string): (r: real)
    ensures index in sched && name in sched[index] ==> r == sched[index][name]
    ensures !(index in sched && name in sched[index]) ==> r == 0.0
  {
    if index in sched && name in sched[index] then sched[index][name] else 0.0
  }

  /** `_get_total_additional_charge(period)`: the larger of the boost and
      the full-charge requests stored for that eco start. */
  function TotalAdditionalCharge(sched: map<Instant, Entry>, period: Instant): (r: real)
    ensures r >= GetBoost(sched, period, "boost_status") && r >= GetBoost(sched, period, "full_status")
    ensures r == GetBoost(sched, period, "boost_status") || r == GetBoost(sched, period, "full_status")
  {
    Max(GetBoost(sched, period, "boost_status"), GetBoost(sched, period, "full_status"))
  }

  /** The stored eco window is anchored on the configured start: its start
      has the start's time of day on the period's date, and its end is the
      first end time after it, less than a day later. */
  lemma ChargeTotalsWindow(c: Config, rows: seq<Row>, period: Instant, battery: real, boost: real)
    requires c.Valid()
    ensures var t := ChargeTotals(c, rows, period, battery, boost);
            DayOf(t.ecoStart) == DayOf(period) && TimeOfDay(t.ecoStart) == c.window.start.Seconds() &&
            TimeOfDay(t.ecoEnd) == c.window.end.Seconds() && t.ecoStart <= t.ecoEnd < t.ecoStart + DAY
  {
  }

  /** Every amount is within bounds: the dawn and day needs are never
      negative, the charge total lies between zero and the rounded usable
      capacity, and so does the target without a boost. */
  lemma ChargeTotalsBounds(c: Config, rows: seq<Row>, period: Instant, battery: real, boost: real)
    requires c.Valid()
    ensures var t := ChargeTotals(c, rows, period, battery, boost);
            t.dawn >= 0.0 && t.day >= 0.0 &&
            0.0 <= t.total <= RoundedAvailable(c.battery) &&
            t.minSoc <= RoundedAvailable(c.battery) &&
            (boost == 0.0 ==> t.minSoc >= 0.0)
  {
    var t := ChargeTotals(c, rows, period, battery, boost);
    CeilingNonNegative(c.battery, Max(0.0, t.minSoc - battery));
    CeilingNonNegative(c.battery, Max(t.dawn, t.day));
  }

  /** Without a boost the target is the larger need, clamped: the charge
      serves whichever of dawn or day needs more. */
  lemma ChargeTotalsServeLargerNeed(c: Config, rows: seq<Row>, period: Instant, battery: real)
    requires c.Valid()
    ensures var t := ChargeTotals(c, rows, period, battery, 0.0);
            t.minSoc == CeilingChargeTotal(c.battery, Max(t.dawn, t.day)) &&
            t.minSoc >= CeilingChargeTotal(c.battery, t.dawn) &&
            t.minSoc >= CeilingChargeTotal(c.battery, t.day)
  {
    var t := ChargeTotals(c, rows, period, battery, 0.0);
    CeilingMonotone(c.battery, t.dawn, Max(t.dawn, t.day));
    CeilingMonotone(c.battery, t.day, Max(t.dawn, t.day));
  }

  /** A non-negative boost never lowers the target below what it would be
      without one. */
  lemma {:induction false} BoostNeverLowersTarget(c: Config, rows: seq<Row>, period: Instant, battery: real, boost: real)
    requires c.Valid() && boost >= 0.0
    ensures ChargeTotals(c, rows, period, battery, boost).minSoc >=
            ChargeTotals(c, rows, period, battery, 0.0).minSoc
  {
    var t0 := ChargeTotals(c, rows, period, battery, 0.0);
    var maxCharge := t0.minSoc;
    if boost != 0.0 {
      CeilingMonotone(c.battery, maxCharge, Max(battery, maxCharge) + boost);
      CeilingIdempotent(c.battery, Max(t0.dawn, t0.day));
    }
  }

  /** When the battery already holds the target, nothing is charged. */
  lemma {:induction false} NoChargeWhenAboveTarget(c: Config, rows: seq<Row>, period: Instant, battery: real, boost: real)
    requires c.Valid()
    requires battery >= ChargeTotals(c, rows, period, battery, boost).minSoc
    ensures ChargeTotals(c, rows, period, battery, boost).total == 0.0
  {
    var t := ChargeTotals(c, rows, period, battery, boost);
    NoShortfallNoCharge(c.battery, t.minSoc, battery);
  }

  /** A battery at or above the target has no shortfall, and a zero
      shortfall clamps to zero. */
  lemma NoShortfallNoCharge(b: Battery, target: real, battery: real)
    requires b.Valid() && battery >= target
    ensures CeilingChargeTotal(b, Max(0.0, target - battery)) == 0.0
  {
    assert Max(0.0, target - battery) == 0.0;
    AvailableNonNegative(b);
    Round2NonNegative(b.Available());
    assert 0.0 <= RoundedAvailable(b);
    CeilingBelowCapacity(b, 0.0);
    Round2OfZero();
  }

  /** Without a boost, more stored energy never asks for a larger charge. */
  lemma {:induction false} MoreStoredNeedsLessCharge(c: Config, rows: seq<Row>, period: Instant, b1: real, b2: real)
    requires c.Valid() && b1 <= b2
    ensures ChargeTotals(c, rows, period, b2, 0.0).total <= ChargeTotals(c, rows, period, b1, 0.0).total
  {
    var t1 := ChargeTotals(c, rows, period, b1, 0.0);
    var t2 := ChargeTotals(c, rows, period, b2, 0.0);
    assert t1.minSoc == t2.minSoc;
    CeilingMonotone(c.battery, Max(0.0, t2.minSoc - b2), Max(0.0, t1.minSoc - b1));
  }

  /** The upserted entry carries the computed target under `min_soc`, which
      is what a later refresh reads back as the hold level. */
  lemma TotalsEntryStoresTarget(t: Totals)
    ensures "min_soc" in TotalsEntry(t) && TotalsEntry(t)["min_soc"] == t.minSoc
    ensures "total" in TotalsEntry(t) && TotalsEntry(t)["total"] == t.total
    ensures "boost_status" !in TotalsEntry(t) && "full_status" !in TotalsEntry(t)
  {
  }
}

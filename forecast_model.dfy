/** The solar forecast: the records fetched for every site are kept as
    they came, summed per period start, spread over minutes and scaled to
    energy per minute; the daily totals are sums over that table. */
module ForecastData {
  import opened Common
  import opened Rounding

  /** One forecast record as the forecast service returns it: a half-hour
      period and its estimated mean power in kW. */
  datatype ForecastRecord = ForecastRecord(periodStart: Instant, periodEnd: Instant, pvEstimate: real)

  /** One minute of the spread-out forecast, before scaling. */
  datatype MinuteValue = MinuteValue(at: Instant, value: real)

  /** One row of the resampled table: the minute, its date, the energy in
      kWh over that minute and the same power in watts. */
  datatype ForecastRow = ForecastRow(periodStart: Instant, date: int, pv: real, watts: real)

  /** The total of the estimates recorded for one period start. */
  function SumAt(raw: seq<ForecastRecord>, t: Instant): real {
    if raw == [] then 0.0
    else SumAt(raw[..|raw| - 1], t) + (if raw[|raw| - 1].periodStart == t then raw[|raw| - 1].pvEstimate else 0.0)
  }

  /** `groupby("period_start").sum()`: one group per distinct period
      start, built record by record. */
  function Grouped(raw: seq<ForecastRecord>): map<Instant, real> {
    if raw == [] then map[]
    else
      var g := Grouped(raw[..|raw| - 1]);
      var last := raw[|raw| - 1];
      g[last.periodStart := (if last.periodStart in g then g[last.periodStart] else 0.0) + last.pvEstimate]
  }

  /** The groups are exactly the period starts that occur, and each holds
      the total of the estimates recorded for it: duplicate periods are
      added, none is lost. */
  lemma {:induction false} GroupedSums(raw: seq<ForecastRecord>, t: Instant)
    ensures t in Grouped(raw) <==> exists i :: 0 <= i < |raw| && raw[i].periodStart == t
    ensures t in Grouped(raw) ==> Grouped(raw)[t] == SumAt(raw, t)
    ensures t !in Grouped(raw) ==> SumAt(raw, t) == 0.0
  {
    if raw != [] {
      var init := raw[..|raw| - 1];
      GroupedSums(init, t);
      assert forall i :: 0 <= i < |init| ==> init[i] == raw[i];
      if t !in Grouped(raw) {
        assert raw[|raw| - 1].periodStart != t;
      }
    }
  }

  /** The scaling after the minute resample: the estimate over sixty is the
      energy per minute, and watts are a thousand times that. */
  function ScaledForecast(values: seq<MinuteValue>): (r: seq<ForecastRow>)
    ensures |r| == |values|
    ensures forall i :: 0 <= i < |r| ==>
              r[i].periodStart == values[i].at && r[i].date == DayOf(values[i].at) &&
              r[i].pv == values[i].value / 60.0 && r[i].watts == 1000.0 * r[i].pv
  {
    seq(|values|, i requires 0 <= i < |values| =>
      ForecastRow(values[i].at, DayOf(values[i].at), values[i].value / 60.0, values[i].value / 60.0 * 1000.0))
  }

  /** `_resample(values)`: an empty record list has no `period_start`
      column and fails; otherwise the grouped totals are spread over minutes
      by the given interpolation and scaled. */
  function Resample(raw: seq<ForecastRecord>, interpolate: map<Instant, real> -> seq<MinuteValue>)
    : (r: Result<seq<ForecastRow>>)
    ensures r.Err? <==> raw == []
    ensures r.Err? ==> r.error == Unexpected
    ensures r.Ok? ==> r.value == ScaledForecast(interpolate(Grouped(raw)))
  {
    if raw == [] then Err(Unexpected) else Ok(ScaledForecast(interpolate(Grouped(raw))))
  }

  /** The records of the fetched sites, in site order. */
  function Joined(fetched: seq<seq<ForecastRecord>>): (r: seq<ForecastRecord>)
    ensures |r| == TotalLength(fetched)
  {
    if fetched == [] then [] else Joined(fetched[..|fetched| - 1]) + fetched[|fetched| - 1]
  }

  function TotalLength(fetched: seq<seq<ForecastRecord>>): nat {
    if fetched == [] then 0 else TotalLength(fetched[..|fetched| - 1]) + |fetched[|fetched| - 1]|
  }

  /** Joining splits at any site: the records of the earlier sites come
      first, unchanged. */
  lemma {:induction false} JoinedAppend(a: seq<seq<ForecastRecord>>, b: seq<seq<ForecastRecord>>)
    ensures Joined(a + b) == Joined(a) + Joined(b)
    decreases |b|
  {
    if b == [] {
      assert a + b == a;
    } else {
      var b' := b[..|b| - 1];
      var x := b[|b| - 1];
      assert a + b == (a + b') + [x];
      JoinedSnoc(a + b', x);
      JoinedAppend(a, b');
      assert b == b' + [x];
      JoinedSnoc(b', x);
    }
  }

  /** One more site adds its records at the end. */
  lemma JoinedSnoc(fetched: seq<seq<ForecastRecord>>, x: seq<ForecastRecord>)
    ensures Joined(fetched + [x]) == Joined(fetched) + x
  {
    assert (fetched + [x])[..|fetched|] == fetched;
  }

  /** The total over the rows of one date. */
  function DaySum(rows: seq<ForecastRow>, day: int): real {
    if rows == [] then 0.0
    else DaySum(rows[..|rows| - 1], day) + (if rows[|rows| - 1].date == day then rows[|rows| - 1].pv else 0.0)
  }

  /** The total over the rows of the instant's date that start at or
      after it. */
  function RemainingSum(rows: seq<ForecastRow>, now: Instant): real {
    if rows == [] then 0.0
    else
      var last := rows[|rows| - 1];
      RemainingSum(rows[..|rows| - 1], now) + (if last.periodStart >= now && last.date == DayOf(now) then last.pv else 0.0)
  }

  /** Without negative estimates, what remains of today never exceeds the
      whole of today. */
  lemma {:induction false} RemainingWithinDay(rows: seq<ForecastRow>, now: Instant)
    requires forall i :: 0 <= i < |rows| ==> rows[i].pv >= 0.0
    ensures 0.0 <= RemainingSum(rows, now) <= DaySum(rows, DayOf(now))
  {
    if rows != [] {
      RemainingWithinDay(rows[..|rows| - 1], now);
    }
  }

  /** At midnight, when every row's date is the date of its minute, the
      rest of today is all of today. */
  lemma {:induction false} RemainingAtMidnight(rows: seq<ForecastRow>, now: Instant)
    requires TimeOfDay(now) == 0
    requires forall i :: 0 <= i < |rows| ==> rows[i].date == DayOf(rows[i].periodStart)
    ensures RemainingSum(rows, now) == DaySum(rows, DayOf(now))
  {
    if rows != [] {
      var last := rows[|rows| - 1];
      RemainingAtMidnight(rows[..|rows| - 1], now);
      if last.date == DayOf(now) {
        assert last.periodStart >= now by {
          assert last.periodStart / DAY == now / DAY;
          assert now == (now / DAY) * DAY;
        }
      }
    }
  }

  /** The model of the forecast: the fetched records, the resampled table
      (`None` while it is still the initial empty dict) and the ready flag. */
  class ForecastModel {
    var rawData: seq<ForecastRecord>
    var resampled: Option<seq<ForecastRow>>
    var ready: bool

    constructor ()
      ensures rawData == [] && resampled == None && !ready
    {
      rawData := [];
      resampled := None;
      ready := false;
    }

    /** The model is ready exactly when a table has been built. */
    predicate Valid()
      reads this
    {
      ready <==> resampled.Some?
    }

    /** `ready()` */
    function Ready(): bool
      reads this
    {
      ready
    }

    /** `load(raw_data)`: the records are kept even when resampling them
        fails; the table and the flag only change on success. */
    method Load(raw: seq<ForecastRecord>, interpolate: map<Instant, real> -> seq<MinuteValue>)
      returns (status: Result<()>)
      requires Valid()
      modifies this
      ensures Valid()
      ensures rawData == raw
      ensures status.Ok? <==> Resample(raw, interpolate).Ok?
      ensures status.Ok? ==> resampled == Some(Resample(raw, interpolate).value) && ready
      ensures status.Err? ==> status == Err(Resample(raw, interpolate).error) &&
                              resampled == old(resampled) && ready == old(ready)
    {
      rawData := raw;
      var table := Resample(rawData, interpolate);
      if table.Err? {
        return Err(table.error);
      }
      resampled := Some(table.value);
      ready := true;
      status := Ok(());
    }

    /** `refresh()`: no site list leaves everything as it was; otherwise
        the records are rebuilt site by site, a failed fetch stopping with
        the records of the sites before it, and the table is rebuilt from
        all of them. */
    method Refresh(sites: Result<seq<Result<seq<ForecastRecord>>>>, interpolate: map<Instant, real> -> seq<MinuteValue>)
      returns (status: Result<()>)
      requires Valid()
      modifies this
      ensures Valid()
      ensures sites.Err? ==> status == Err(sites.error) && rawData == old(rawData) &&
                             resampled == old(resampled) && ready == old(ready)
      ensures sites.Ok? ==> var k := FirstFailure(sites.value);
                            rawData == Joined(Fetched(sites.value[..k])) &&
                            (k < |sites.value| ==> status == Err(sites.value[k].error))
      ensures sites.Ok? && FirstFailure(sites.value) == |sites.value| ==>
                status == (if rawData == [] then Err(Unexpected) else Ok(())) &&
                (status.Ok? ==> resampled == Some(Resample(rawData, interpolate).value) && ready)
      ensures status.Err? ==> resampled == old(resampled) && ready == old(ready)
    {
      if sites.Err? {
        return Err(sites.error);
      }
      var list := sites.value;
      rawData := [];
      var i := 0;
      while i < |list|
        invariant 0 <= i <= |list|
        invariant forall j :: 0 <= j < i ==> list[j].Ok?
        invariant rawData == Joined(Fetched(list[..i]))
        invariant resampled == old(resampled) && ready == old(ready)
      {
        if list[i].Err? {
          FirstFailureAt(list, i);
          return Err(list[i].error);
        }
        FetchStep(list, i);
        rawData := rawData + list[i].value;
        i := i + 1;
      }
      FirstFailureAt(list, i);
      assert list[..i] == list;
      var table := Resample(rawData, interpolate);
      if table.Err? {
        return Err(table.error);
      }
      resampled := Some(table.value);
      ready := true;
      status := Ok(());
    }

    /** `raw_data()`: the records, or no data while there are none. */
    function RawData(): (r: Result<seq<ForecastRecord>>)
      reads this
      ensures r.Err? <==> |rawData| == 0
      ensures r.Err? ==> r.error == NoData
      ensures r.Ok? ==> r.value == rawData
    {
      if |rawData| == 0 then Err(NoData) else Ok(rawData)
    }

    /** `resample_data()`: the table, or no data while it is the initial
        empty dict or has no rows. */
    function ResampleData(): (r: Result<seq<ForecastRow>>)
      reads this
      ensures r.Err? <==> resampled.None? || |resampled.value| == 0
      ensures r.Err? ==> r.error == NoData
      ensures r.Ok? ==> resampled == Some(r.value)
    {
      match resampled
      case None => Err(NoData)
      case Some(t) => if |t| == 0 then Err(NoData) else Ok(t)
    }

    /** `total_kwh_forecast_today()`: today's total to 0.01 kWh; without a
        table the lookup of the `date` column fails. */
    function TotalToday(now: Instant): (r: Result<real>)
      reads this
      ensures r.Err? <==> resampled.None?
      ensures r.Ok? ==> -0.005 <= r.value - DaySum(resampled.value, DayOf(now)) <= 0.005
    {
      match resampled
      case None => Err(Unexpected)
      case Some(t) => Round2Close(DaySum(t, DayOf(now))); Ok(Round2(DaySum(t, DayOf(now))))
    }

    /** `total_kwh_forecast_tomorrow()`: the same for the next date. */
    function TotalTomorrow(now: Instant): (r: Result<real>)
      reads this
      ensures r.Err? <==> resampled.None?
      ensures r.Ok? ==> -0.005 <= r.value - DaySum(resampled.value, DayOf(now) + 1) <= 0.005
    {
      match resampled
      case None => Err(Unexpected)
      case Some(t) =>
        assert DayOf(now + DAY) == DayOf(now) + 1;
        Round2Close(DaySum(t, DayOf(now + DAY)));
        Ok(Round2(DaySum(t, DayOf(now + DAY))))
    }

    /** `total_kwh_forecast_today_remaining()`: the rest of today from now,
        never more than the whole of today when no estimate is negative. */
    function TotalTodayRemaining(now: Instant): (r: Result<real>)
      reads this
      ensures r.Err? <==> resampled.None?
      ensures r.Ok? ==> -0.005 <= r.value - RemainingSum(resampled.value, now) <= 0.005
      ensures r.Ok? && (forall i :: 0 <= i < |resampled.value| ==> resampled.value[i].pv >= 0.0) ==>
                0.0 <= r.value <= TotalToday(now).value
    {
      match resampled
      case None => Err(Unexpected)
      case Some(t) =>
        Round2Close(RemainingSum(t, now));
        if (forall i :: 0 <= i < |t| ==> t[i].pv >= 0.0) then
          RemainingWithinDay(t, now);
          Round2Monotone(RemainingSum(t, now), DaySum(t, DayOf(now)));
          Round2NonNegative(RemainingSum(t, now));
          Ok(Round2(RemainingSum(t, now)))
        else
          Ok(Round2(RemainingSum(t, now)))
    }
  }

  /** The records of the fetched sites, all of which succeeded. */
  function Fetched(list: seq<Result<seq<ForecastRecord>>>): (r: seq<seq<ForecastRecord>>)
    requires forall j :: 0 <= j < |list| ==> list[j].Ok?
    ensures |r| == |list|
    ensures forall j :: 0 <= j < |list| ==> r[j] == list[j].value
  {
    if list == [] then []
    else Fetched(list[..|list| - 1]) + [list[|list| - 1].value]
  }

  /** Appending a successful fetch appends its records. */
  lemma FetchedAppend(list: seq<Result<seq<ForecastRecord>>>, x: Result<seq<ForecastRecord>>)
    requires forall j :: 0 <= j < |list| ==> list[j].Ok?
    requires x.Ok?
    ensures Fetched(list + [x]) == Fetched(list) + [x.value]
  {
    assert (list + [x])[..|list|] == list;
  }

  /** One more successful fetch adds its records at the end. */
  lemma FetchStep(list: seq<Result<seq<ForecastRecord>>>, i: nat)
    requires i < |list| && forall j :: 0 <= j <= i ==> list[j].Ok?
    ensures Joined(Fetched(list[..i + 1])) == Joined(Fetched(list[..i])) + list[i].value
  {
    assert list[..i + 1] == list[..i] + [list[i]];
    FetchedAppend(list[..i], list[i]);
    JoinedSnoc(Fetched(list[..i]), list[i].value);
  }

  /** The position of the first failed fetch, or the length when all
      succeeded. */
  function FirstFailure(list: seq<Result<seq<ForecastRecord>>>): (k: nat)
    ensures k <= |list|
    ensures forall j :: 0 <= j < k ==> list[j].Ok?
    ensures k < |list| ==> list[k].Err?
  {
    if list == [] then 0
    else if list[0].Err? then 0
    else 1 + FirstFailure(list[1..])
  }

  /** The first failure is where the successes stop. */
  lemma {:induction false} FirstFailureAt(list: seq<Result<seq<ForecastRecord>>>, i: nat)
    requires i <= |list|
    requires forall j :: 0 <= j < i ==> list[j].Ok?
    requires i < |list| ==> list[i].Err?
    ensures FirstFailure(list) == i
  {
    if i > 0 {
      FirstFailureAt(list[1..], i - 1);
    }
  }
}

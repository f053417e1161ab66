/** The house-load history: recorded sensor states become padded sample
    lists, their per-minute means become per-minute loads, auxiliary loads
    are subtracted from the house load, and the daily average is the total
    divided by the number of days of history. */
module AverageLoad {
  import opened Common
  import opened Rounding

  /** A recorded state as the recorder reports it: the three placeholder
      states, a numeric reading, or text that is not a number. */
  datatype RawState = Blank | Unknown | Unavailable | Reading(value: real) | Unparsable

  datatype StateChange = StateChange(changed: Instant, state: RawState)

  /** One sample of a history: when and what value. */
  datatype Sample = Sample(at: Instant, value: real)

  /** The mean of the forward-filled history over one minute. */
  datatype MinuteMean = MinuteMean(at: Instant, mean: real)

  /** One row of a resampled table: the minute and its load in kWh, or
      `None` where the table holds NaN. */
  datatype Point = Point(at: Instant, load: Option<real>)

  /** The key under which the house load is tracked. */
  const HOUSE_LOAD: string := "house_load_7d"

  /** The placeholder states the sample filter drops. */
  predicate Dropped(s: RawState) {
    s.Blank? || s.Unknown? || s.Unavailable?
  }

  /** Some recorded state is text that is not a number. */
  predicate AnyUnparsable(changes: seq<StateChange>) {
    exists i :: 0 <= i < |changes| && changes[i].state.Unparsable?
  }

  /** Every sample is a reading recorded in the changes. */
  predicate FromReadings(samples: seq<Sample>, changes: seq<StateChange>) {
    forall k :: 0 <= k < |samples| ==>
      exists i :: 0 <= i < |changes| && changes[i] == StateChange(samples[k].at, Reading(samples[k].value))
  }

  /** The sample list the comprehension builds: placeholder states are
      skipped, a reading becomes a sample, and text that is not a number
      fails the whole update. */
  function Kept(changes: seq<StateChange>): (r: Result<seq<Sample>>)
    ensures r.Err? <==> AnyUnparsable(changes)
    ensures r.Err? ==> r.error == Unexpected
    ensures r.Ok? ==> |r.value| <= |changes| && FromReadings(r.value, changes)
  {
    if changes == [] then Ok([])
    else
      var init := changes[..|changes| - 1];
      var last := changes[|changes| - 1];
      assert forall i :: 0 <= i < |init| ==> init[i] == changes[i];
      match Kept(init)
      case Err(e) => Err(e)
      case Ok(p) =>
        if last.state.Unparsable? then Err(Unexpected)
        else if last.state.Reading? then Ok(p + [Sample(last.changed, last.state.value)])
        else Ok(p)
  }

  /** Every change read as a sample, in order. */
  function AsSamples(changes: seq<StateChange>): (r: seq<Sample>)
    requires forall i :: 0 <= i < |changes| ==> changes[i].state.Reading?
    ensures |r| == |changes|
    ensures forall i :: 0 <= i < |changes| ==> r[i] == Sample(changes[i].changed, changes[i].state.value)
  {
    if changes == [] then []
    else
      var last := changes[|changes| - 1];
      AsSamples(changes[..|changes| - 1]) + [Sample(last.changed, last.state.value)]
  }

  /** When every recorded state is a reading, every one becomes a sample,
      in order. */
  lemma {:induction false} KeptAllReadings(changes: seq<StateChange>)
    requires forall i :: 0 <= i < |changes| ==> changes[i].state.Reading?
    ensures Kept(changes) == Ok(AsSamples(changes))
  {
    if changes != [] {
      KeptAllReadings(changes[..|changes| - 1]);
    }
  }

  /** Placeholder states contribute nothing: appending one leaves the
      sample list as it was. */
  lemma KeptIgnoresDropped(changes: seq<StateChange>, c: StateChange)
    requires Dropped(c.state)
    ensures Kept(changes + [c]) == Kept(changes)
  {
    assert (changes + [c])[..|changes|] == changes;
  }

  /** The padding: the first kept sample is overwritten with a zero at the
      window start, and the last value is repeated at the window end. */
  function Padded(from: Instant, to: Instant, kept: seq<Sample>): seq<Sample>
    requires |kept| >= 1
  {
    var first := kept[0 := Sample(from, 0.0)];
    first + [Sample(to, first[|first| - 1].value)]
  }

  /** The padded list is one longer than the kept samples, starts with a
      zero at the window start, keeps every later sample, and ends at the
      window end with the last value — zero when only one sample was
      kept, since that one was overwritten. */
  lemma PaddedShape(from: Instant, to: Instant, kept: seq<Sample>)
    requires |kept| >= 1
    ensures var r := Padded(from, to, kept);
            |r| == |kept| + 1 &&
            r[0] == Sample(from, 0.0) &&
            (forall i :: 1 <= i < |kept| ==> r[i] == kept[i]) &&
            r[|kept|] == Sample(to, if |kept| == 1 then 0.0 else kept[|kept| - 1].value)
  {
  }

  /** The end of the history window: now, or local midnight today for a
      whole-day history. */
  function WindowEnd(wholeDay: bool, now: Instant): (r: Instant)
    ensures r <= now && now - r < DAY
    ensures wholeDay ==> TimeOfDay(r) == 0 && DayOf(r) == DayOf(now)
    ensures !wholeDay ==> r == now
  {
    if wholeDay then DayStart(now) else now
  }

  /** `_update_item` on the recorder's answer: a sensor the recorder does
      not know, an unparsable state, or no usable state at all fails;
      otherwise the padded samples over `[to - period, to]`. */
  function UpdatedValues(name: string, period: nat, wholeDay: bool, now: Instant,
                         recorder: map<string, seq<StateChange>>): (r: Result<seq<Sample>>)
    ensures r.Err? ==> r.error == Unexpected
    ensures r.Err? <==> name !in recorder || Kept(recorder[name]).Err? || Kept(recorder[name]) == Ok([])
    ensures r.Ok? ==> |r.value| >= 2 &&
                      r.value[0] == Sample(WindowEnd(wholeDay, now) - period, 0.0) &&
                      r.value[|r.value| - 1].at == WindowEnd(wholeDay, now)
  {
    if name !in recorder then Err(Unexpected)
    else match Kept(recorder[name])
      case Err(e) => Err(e)
      case Ok(kept) =>
        if |kept| == 0 then Err(Unexpected)
        else Ok(Padded(WindowEnd(wholeDay, now) - period, WindowEnd(wholeDay, now), kept))
  }

  /** A history the recorder fills in. */
  class HistorySensor {
    const name: string
    const period: nat
    const wholeDay: bool
    var values: Option<seq<Sample>>

    constructor (name: string, period: nat, wholeDay: bool)
      ensures this.name == name && this.period == period && this.wholeDay == wholeDay
      ensures values == None
    {
      this.name := name;
      this.period := period;
      this.wholeDay := wholeDay;
      values := None;
    }

    /** `_update_item(item)`: on success the padded samples replace the
        values; on failure the values are kept. */
    method Update(now: Instant, recorder: map<string, seq<StateChange>>) returns (status: Result<()>)
      modifies this
      ensures var u := UpdatedValues(name, period, wholeDay, now, recorder);
              (status.Ok? <==> u.Ok?) &&
              (u.Ok? ==> values == Some(u.value)) &&
              (u.Err? ==> values == old(values) && status.error == u.error)
    {
      var toDate := WindowEnd(wholeDay, now);
      var fromDate := toDate - period;
      if name !in recorder {
        return Err(Unexpected);
      }
      var changes := recorder[name];
      var kept: seq<Sample> := [];
      var i := 0;
      while i < |changes|
        invariant 0 <= i <= |changes|
        invariant Kept(changes[..i]) == Ok(kept)
      {
        var st := changes[i].state;
        if st.Unparsable? {
          assert changes[i].state.Unparsable?;
          return Err(Unexpected);
        }
        assert changes[..i + 1][..i] == changes[..i];
        if st.Reading? {
          kept := kept + [Sample(changes[i].changed, st.value)];
        }
        i := i + 1;
      }
      assert changes[..i] == changes;
      if |kept| == 0 {
        return Err(Unexpected);
      }
      var samples := kept[0 := Sample(fromDate, 0.0)];
      samples := samples + [Sample(toDate, samples[|samples| - 1].value)];
      values := Some(samples);
      status := Ok(());
    }
  }

  /** A tracked history: the primary sensor and the auxiliary sensors
      whose load is deducted from it. */
  datatype TrackedSensor = TrackedSensor(key: string, primary: HistorySensor, secondary: seq<HistorySensor>) {
    function Items(): seq<HistorySensor> {
      [primary] + secondary
    }
  }

  /** The update of one history, from its own constants. */
  function ItemUpdate(it: HistorySensor, now: Instant, recorder: map<string, seq<StateChange>>): Result<seq<Sample>> {
    UpdatedValues(it.name, it.period, it.wholeDay, now, recorder)
  }

  /** Whether every history of every sensor updates successfully. */
  predicate AllUpdated(sensors: seq<TrackedSensor>, now: Instant, recorder: map<string, seq<StateChange>>) {
    forall j, it :: 0 <= j < |sensors| && it in sensors[j].Items() ==> ItemUpdate(it, now, recorder).Ok?
  }

  /** The position of the sensor tracked under the key, if any. */
  function FindSensor(sensors: seq<TrackedSensor>, key: string): (r: Option<nat>)
    ensures r.Some? ==> r.value < |sensors| && sensors[r.value].key == key
    ensures r.None? <==> forall j :: 0 <= j < |sensors| ==> sensors[j].key != key
  {
    if sensors == [] then None
    else if sensors[0].key == key then Some(0)
    else match FindSensor(sensors[1..], key)
      case None =>
        assert forall j :: 1 <= j < |sensors| ==> sensors[j] == sensors[1..][j - 1];
        None
      case Some(j) => Some(j + 1)
  }

  /** `_resample_data` scaling for the house load: each minute's mean
      power over sixty. */
  function Scaled(means: seq<MinuteMean>): (r: seq<Point>)
    ensures |r| == |means|
    ensures forall i :: 0 <= i < |r| ==> r[i] == Point(means[i].at, Some(means[i].mean / 60.0))
  {
    seq(|means|, i requires 0 <= i < |means| => Point(means[i].at, Some(means[i].mean / 60.0)))
  }

  /** An auxiliary load: scaled as above, then divided by 1000. */
  function AuxScaled(means: seq<MinuteMean>): (r: seq<Point>)
    ensures |r| == |means|
    ensures forall i :: 0 <= i < |r| ==> r[i] == Point(means[i].at, Some(means[i].mean / 60.0 / 1000.0))
  {
    seq(|means|, i requires 0 <= i < |means| => Point(means[i].at, Some(means[i].mean / 60.0 / 1000.0)))
  }

  /** The value an aligned column holds at the minute: the first row at
      that minute, or NaN when there is none. */
  function Lookup(s: seq<Point>, t: Instant): (r: Option<real>)
    ensures r.Some? ==> exists i :: 0 <= i < |s| && s[i].at == t && s[i].load == r
    ensures (forall i :: 0 <= i < |s| ==> s[i].at != t) ==> r.None?
  {
    if s == [] then None
    else if s[0].at == t then s[0].load
    else
      var r := Lookup(s[1..], t);
      assert r.Some? ==> exists i :: 1 <= i < |s| && s[i].at == t && s[i].load == r by {
        if r.Some? {
          var i :| 0 <= i < |s[1..]| && s[1..][i].at == t && s[1..][i].load == r;
          assert s[i + 1] == s[1..][i];
        }
      }
      r
  }

  /** NaN-propagating subtraction. */
  function Minus(a: Option<real>, b: Option<real>): Option<real> {
    if a.Some? && b.Some? then Some(a.value - b.value) else None
  }

  /** `house["load"] -= aux["load"]`: aligned on the minute, so a minute
      the auxiliary table lacks becomes NaN; the house table's minutes are
      kept. */
  function Subtract(house: seq<Point>, aux: seq<Point>): (r: seq<Point>)
    ensures |r| == |house|
    ensures forall i :: 0 <= i < |r| ==> r[i] == Point(house[i].at, Minus(house[i].load, Lookup(aux, house[i].at)))
  {
    seq(|house|, i requires 0 <= i < |house| => Point(house[i].at, Minus(house[i].load, Lookup(aux, house[i].at))))
  }

  /** The house load after every auxiliary load has been deducted, in
      order. Minute by minute it keeps the house table's minutes; it is a
      number exactly when the house load and every auxiliary load are, and
      then it is the house load minus the auxiliary total. */
  function NetLoad(house: seq<Point>, auxes: seq<seq<Point>>): (r: seq<Point>)
    ensures |r| == |house|
    ensures forall m :: 0 <= m < |r| ==> r[m].at == house[m].at
    ensures forall m :: 0 <= m < |r| ==>
              (r[m].load.Some? <==> house[m].load.Some? && AllPresent(auxes, house[m].at))
    ensures forall m :: 0 <= m < |r| && r[m].load.Some? ==>
              r[m].load.value == house[m].load.value - AuxTotal(auxes, house[m].at)
  {
    if auxes == [] then house
    else
      var init := auxes[..|auxes| - 1];
      assert forall j :: 0 <= j < |init| ==> init[j] == auxes[j];
      Subtract(NetLoad(house, init), auxes[|auxes| - 1])
  }

  /** Whether every auxiliary table has a number at the minute. */
  predicate AllPresent(auxes: seq<seq<Point>>, t: Instant) {
    forall j :: 0 <= j < |auxes| ==> Lookup(auxes[j], t).Some?
  }

  /** The total of the auxiliary loads at the minute. */
  function AuxTotal(auxes: seq<seq<Point>>, t: Instant): real {
    if auxes == [] then 0.0
    else AuxTotal(auxes[..|auxes| - 1], t) + Lookup(auxes[|auxes| - 1], t).GetOr(0.0)
  }

  /** The total of a load column; NaN rows are skipped. */
  function SumLoad(s: seq<Point>): real {
    if s == [] then 0.0
    else SumLoad(s[..|s| - 1]) + s[|s| - 1].load.GetOr(0.0)
  }

  /** A column without negative loads has a non-negative total. */
  lemma {:induction false} SumLoadNonNegative(s: seq<Point>)
    requires forall i :: 0 <= i < |s| ==> s[i].load.Some? ==> s[i].load.value >= 0.0
    ensures SumLoad(s) >= 0.0
  {
    if s != [] {
      SumLoadNonNegative(s[..|s| - 1]);
    }
  }

  /** Totals split at any row. */
  lemma {:induction false} SumLoadAppend(a: seq<Point>, b: seq<Point>)
    ensures SumLoad(a + b) == SumLoad(a) + SumLoad(b)
    decreases |b|
  {
    if b != [] {
      var b' := b[..|b| - 1];
      assert (a + b)[..|a + b| - 1] == a + b';
      SumLoadAppend(a, b');
    } else {
      assert a + b == a;
    }
  }

  /** `average_all_house_load()` on a resampled table: without a table
      (the attribute is still an empty dict) or with a period under one day
      it fails; otherwise the total over the whole days of history, to
      0.01 kWh. */
  function AverageAll(ready: bool, table: seq<Point>, period: nat): (r: Result<real>)
    ensures r.Err? <==> !ready || period < DAY
    ensures r.Err? ==> r.error == Unexpected
    ensures r.Ok? ==> -0.005 <= r.value - SumLoad(table) / ((period / DAY) as real) <= 0.005
  {
    if !ready then Err(Unexpected)
    else
      var days := period / DAY;
      if days == 0 then Err(Unexpected)
      else
        Round2Close(SumLoad(table) / (days as real));
        Ok(Round2(SumLoad(table) / (days as real)))
  }

  /** With no negative loads the average is never negative. */
  lemma AverageAllNonNegative(ready: bool, table: seq<Point>, period: nat)
    requires forall i :: 0 <= i < |table| ==> table[i].load.Some? ==> table[i].load.value >= 0.0
    ensures AverageAll(ready, table, period).Ok? ==> AverageAll(ready, table, period).value >= 0.0
  {
    SumLoadNonNegative(table);
    if ready && period >= DAY {
      Round2NonNegative(SumLoad(table) / ((period / DAY) as real));
    }
  }

  /** The values each history holds, in order. */
  function ValuesOf(items: seq<HistorySensor>): (r: seq<Option<seq<Sample>>>)
    reads set it | it in items
    ensures |r| == |items| && forall j :: 0 <= j < |items| ==> r[j] == items[j].values
  {
    seq(|items|, j reads items requires 0 <= j < |items| => items[j].values)
  }

  /** The auxiliary tables from the auxiliary histories; a history with no
      values gives an empty table. */
  function AuxTables(resample: seq<Sample> -> seq<MinuteMean>, values: seq<Option<seq<Sample>>>): (r: seq<seq<Point>>)
    ensures |r| == |values|
    ensures forall j :: 0 <= j < |values| ==> r[j] == AuxScaled(resample(values[j].GetOr([])))
  {
    seq(|values|, j requires 0 <= j < |values| => AuxScaled(resample(values[j].GetOr([]))))
  }

  /** The history store of the house load and the tables built from it. */
  class AverageModel {
    const sensors: seq<TrackedSensor>
    var resampled: seq<Point>
    var ready: bool

    constructor (sensors: seq<TrackedSensor>)
      ensures this.sensors == sensors && resampled == [] && !ready
    {
      this.sensors := sensors;
      resampled := [];
      ready := false;
    }

    /** The histories `refresh` may update. */
    function Items(): set<HistorySensor> {
      set j, it | 0 <= j < |sensors| && it in sensors[j].Items() :: it
    }

    /** Every tracked history holds its own update at `now`. */
    predicate HoldsUpdates(now: Instant, recorder: map<string, seq<StateChange>>)
      reads Items()
    {
      forall j, it :: 0 <= j < |sensors| && it in sensors[j].Items() ==>
        ItemUpdate(it, now, recorder).Ok? && it.values == Some(ItemUpdate(it, now, recorder).value)
    }

    /** `ready()` */
    function Ready(): bool
      reads this
    {
      ready
    }

    /** `_update_history(sensor)`: the primary history, then each
        auxiliary history; the first failure stops it. */
    method UpdateHistory(s: TrackedSensor, now: Instant, recorder: map<string, seq<StateChange>>)
      returns (status: Result<()>)
      modifies set it | it in s.Items()
      ensures status.Ok? <==> forall it :: it in s.Items() ==> ItemUpdate(it, now, recorder).Ok?
      ensures status.Err? ==> exists it :: it in s.Items() && ItemUpdate(it, now, recorder).Err?
      ensures status.Ok? ==> forall it :: it in s.Items() ==> it.values == Some(ItemUpdate(it, now, recorder).value)
    {
      var items := s.Items();
      var i := 0;
      while i < |items|
        invariant 0 <= i <= |items|
        invariant forall j :: 0 <= j < i ==> ItemUpdate(items[j], now, recorder).Ok? &&
                                              items[j].values == Some(ItemUpdate(items[j], now, recorder).value)
      {
        var r := items[i].Update(now, recorder);
        if r.Err? {
          return r;
        }
        i := i + 1;
      }
      status := Ok(());
    }

    /** `_house_load_resample()`: the scaled house load, with each scaled
        auxiliary load deducted in turn. */
    method HouseLoadResample(h: TrackedSensor, resample: seq<Sample> -> seq<MinuteMean>) returns (table: seq<Point>)
      ensures table == NetLoad(Scaled(resample(h.primary.values.GetOr([]))),
                               AuxTables(resample, ValuesOf(h.secondary)))
    {
      var auxes := AuxTables(resample, ValuesOf(h.secondary));
      table := Scaled(resample(h.primary.values.GetOr([])));
      var j := 0;
      while j < |h.secondary|
        invariant 0 <= j <= |h.secondary|
        invariant table == NetLoad(Scaled(resample(h.primary.values.GetOr([]))), auxes[..j])
      {
        var aux := AuxScaled(resample(h.secondary[j].values.GetOr([])));
        assert auxes[..j + 1][..j] == auxes[..j];
        table := Subtract(table, aux);
        j := j + 1;
      }
      assert auxes[..j] == auxes;
    }

    /** The loop of `refresh()` over the tracked sensors, in order; the
        first failure stops it. */
    method UpdateAll(now: Instant, recorder: map<string, seq<StateChange>>) returns (status: Result<()>)
      modifies Items()
      ensures status.Ok? <==> AllUpdated(sensors, now, recorder)
      ensures status.Ok? ==> HoldsUpdates(now, recorder)
    {
      var i := 0;
      while i < |sensors|
        invariant 0 <= i <= |sensors|
        invariant forall j, it :: 0 <= j < i && it in sensors[j].Items() ==>
                    ItemUpdate(it, now, recorder).Ok? && it.values == Some(ItemUpdate(it, now, recorder).value)
      {
        var r := UpdateHistory(sensors[i], now, recorder);
        if r.Err? {
          var it :| it in sensors[i].Items() && ItemUpdate(it, now, recorder).Err?;
          assert !AllUpdated(sensors, now, recorder);
          return r;
        }
        i := i + 1;
      }
      status := Ok(());
    }

    /** `refresh()`: every history is updated, in order; a failure stops
        the refresh before the table is rebuilt, and an untracked house
        load fails after the updates. On success the table is the net
        house load and the model is ready. */
    method Refresh(now: Instant, recorder: map<string, seq<StateChange>>,
                   resample: seq<Sample> -> seq<MinuteMean>) returns (status: Result<()>)
      modifies this, Items()
      ensures status.Ok? <==> AllUpdated(sensors, now, recorder) && FindSensor(sensors, HOUSE_LOAD).Some?
      ensures AllUpdated(sensors, now, recorder) ==> HoldsUpdates(now, recorder)
      ensures status.Ok? ==>
                var h := sensors[FindSensor(sensors, HOUSE_LOAD).value];
                ready && resampled == NetLoad(Scaled(resample(h.primary.values.GetOr([]))),
                                              AuxTables(resample, ValuesOf(h.secondary)))
      ensures status.Err? ==> resampled == old(resampled) && ready == old(ready)
    {
      status := UpdateAll(now, recorder);
      if status.Err? {
        return;
      }
      var k := FindSensor(sensors, HOUSE_LOAD);
      if k.None? {
        return Err(Unexpected);
      }
      var h := sensors[k.value];
      var table := HouseLoadResample(h, resample);
      ghost var primary, aux := h.primary.values, ValuesOf(h.secondary);
      assert HoldsUpdates(now, recorder);
      resampled, ready := table, true;
      assert h.primary.values == primary && ValuesOf(h.secondary) == aux;
    }

    /** `resample_data()`: the table, or no data while it is empty. */
    function ResampleData(): (r: Result<seq<Point>>)
      reads this
      ensures r.Err? <==> |resampled| == 0
      ensures r.Err? ==> r.error == NoData
      ensures r.Ok? ==> r.value == resampled
    {
      if |resampled| == 0 then Err(NoData) else Ok(resampled)
    }

    /** `average_all_house_load()`: an untracked house load fails, as does
        a model not yet refreshed or a period under a day. */
    function AverageAllHouseLoad(): (r: Result<real>)
      reads this
      ensures FindSensor(sensors, HOUSE_LOAD).None? ==> r == Err(Unexpected)
      ensures FindSensor(sensors, HOUSE_LOAD).Some? ==>
                r == AverageAll(ready, resampled, sensors[FindSensor(sensors, HOUSE_LOAD).value].primary.period)
    {
      match FindSensor(sensors, HOUSE_LOAD)
      case None => Err(Unexpected)
      case Some(k) => AverageAll(ready, resampled, sensors[k].primary.period)
    }
  }
}

/** The forecast controller: it spreads the day's forecast refreshes over
    the daylight hours within the forecast service's call allowance, clears
    the refreshes it registered before, loads a cached forecast under a day
    old instead of fetching, and resets the call count. */
module ForecastControl {
  import opened Common
  import opened ForecastData

  /** Calls one refresh makes per site. */
  const CALLS: int := 2
  /** Calls held back from the allowance. */
  const API_BUFFER: int := CALLS * 2
  /** The first refresh of the day, and the span after it over which the
      others are spread. */
  const START: HourMinute := HourMinute(6, 0)
  const HOURS: int := 12
  /** The allowance taken as given until the service reports one. */
  const DEFAULT_LIMIT: int := 50

  /** `int(a / b)`: true division, then truncation toward zero. */
  function TruncDiv(a: int, b: int): (q: int)
    requires b > 0
    ensures a >= 0 ==> q >= 0 && q * b <= a < (q + 1) * b
    ensures a < 0 ==> q <= 0 && (q - 1) * b < a <= q * b
  {
    if a >= 0 then
      FloorDivBounds(a, b);
      a / b
    else
      FloorDivBounds(-a, b);
      -((-a) / b)
  }

  /** Division of a non-negative number rounds down. */
  lemma FloorDivBounds(a: nat, b: int)
    requires b > 0
    ensures a / b >= 0 && (a / b) * b <= a < (a / b + 1) * b
  {
    var q, r := a / b, a % b;
    assert a == q * b + r && 0 <= r < b;
    assert (q + 1) * b == q * b + b;
  }

  /** The refreshes the allowance leaves for the day: a failed site lookup
      fails, no site at all divides by zero. */
  function ApiAvailable(limit: int, count: int, sites: Result<nat>): (r: Result<int>)
    ensures r.Err? <==> sites.Err? || sites.value == 0
    ensures sites.Err? ==> r == Err(sites.error)
    ensures r.Ok? ==> r.value == TruncDiv(limit - count - API_BUFFER, CALLS * sites.value)
  {
    match sites
    case Err(e) => Err(e)
    case Ok(n) => if n == 0 then Err(Unexpected) else Ok(TruncDiv(limit - count - API_BUFFER, CALLS * n))
  }

  /** The wall-clock times of the extra refreshes: `n` of them, one
      interval apart, the first one interval after the start. */
  function ExtraTimes(actualStart: Instant, interval: nat, n: nat): (r: seq<HourMinute>)
    ensures |r| == n
    ensures forall i :: 0 <= i < n ==> r[i] == ClockOf(actualStart + interval * (i + 1) * MINUTE)
  {
    seq(n, i requires 0 <= i < n => ClockOf(actualStart + interval * (i + 1) * MINUTE))
  }

  /** The instants the refresh plan is computed from. */
  function DefaultStart(now: Instant): Instant {
    Replace(now, START)
  }

  function DefaultEnd(now: Instant): Instant {
    DefaultStart(now) + HOURS * HOUR
  }

  function ActualStart(now: Instant): Instant {
    if now > DefaultStart(now) then now else DefaultStart(now)
  }

  /** How many extra refreshes are spread out: the allowance, less the
      06:00 refresh still to come, and none once the allowance is used up
      or the spread has ended. */
  function ExtraCount(now: Instant, available: int): (n: nat)
    ensures n > 0 ==> now <= DefaultEnd(now)
  {
    var api := if now < DefaultStart(now) then available - 1 else available;
    if api < 1 || now > DefaultEnd(now) then 0 else api
  }

  /** The minutes between each extra refresh. */
  function Interval(now: Instant, n: nat): nat
    requires n > 0 && now <= DefaultEnd(now)
  {
    ((DefaultEnd(now) - ActualStart(now)) / MINUTE) / n
  }

  /** `_setup_refresh()`'s schedule: the 06:00 refresh, then the extra
      refreshes; no schedule when the site count is not available. */
  function RefreshPlan(now: Instant, limit: int, count: int, sites: Result<nat>): (r: Result<seq<HourMinute>>)
    ensures r.Err? <==> ApiAvailable(limit, count, sites).Err?
  {
    match ApiAvailable(limit, count, sites)
    case Err(e) => Err(e)
    case Ok(available) =>
      var n := ExtraCount(now, available);
      if n == 0 then Ok([START])
      else Ok([START] + ExtraTimes(ActualStart(now), Interval(now, n), n))
  }

  /** The plan once the allowance is known. */
  lemma PlanOfAvailable(now: Instant, limit: int, count: int, sites: Result<nat>, available: int)
    requires ApiAvailable(limit, count, sites) == Ok(available)
    ensures ExtraCount(now, available) == 0 ==> RefreshPlan(now, limit, count, sites) == Ok([START])
    ensures ExtraCount(now, available) > 0 ==>
      RefreshPlan(now, limit, count, sites)
        == Ok([START] + ExtraTimes(ActualStart(now), Interval(now, ExtraCount(now, available)), ExtraCount(now, available)))
  {
  }

  /** Every planned refresh falls between 06:00 and 18:00 inclusive; the
      first is 06:00; after it come exactly as many as the allowance
      leaves, one interval apart from the later of now and 06:00. */
  lemma {:induction false} RefreshPlanWithinDaylight(now: Instant, limit: int, count: int, sites: Result<nat>)
    requires RefreshPlan(now, limit, count, sites).Ok?
    ensures var r := RefreshPlan(now, limit, count, sites).value;
            var n := ExtraCount(now, ApiAvailable(limit, count, sites).value);
            |r| == n + 1 && r[0] == START &&
            forall i :: 0 <= i < |r| ==> START.Seconds() <= r[i].Seconds() <= START.Seconds() + HOURS * HOUR
  {
    var r := RefreshPlan(now, limit, count, sites).value;
    var n := ExtraCount(now, ApiAvailable(limit, count, sites).value);
    if n > 0 {
      forall i | 1 <= i < |r|
        ensures START.Seconds() <= r[i].Seconds() <= START.Seconds() + HOURS * HOUR
      {
        ExtraInstantWithin(now, n, i);
        ClockWithin(now, ActualStart(now) + Interval(now, n) * i * MINUTE);
      }
    }
  }

  /** The `i`-th extra refresh falls between its start and 18:00. */
  lemma ExtraInstantWithin(now: Instant, n: nat, i: nat)
    requires n > 0 && now <= DefaultEnd(now) && 1 <= i <= n
    ensures ActualStart(now) <= ActualStart(now) + Interval(now, n) * i * MINUTE <= DefaultEnd(now)
  {
    var start := ActualStart(now);
    var span := (DefaultEnd(now) - start) / MINUTE;
    var iv := Interval(now, n);
    assert iv == span / n;
    assert iv * n <= span;
    assert iv * i <= iv * n by {
      MulLeftMonotone(iv, i, n);
    }
    assert iv * i * MINUTE <= span * MINUTE;
    assert span * MINUTE <= DefaultEnd(now) - start;
  }

  lemma MulLeftMonotone(a: nat, b: nat, c: nat)
    requires b <= c
    ensures a * b <= a * c
  {
  }

  /** An instant between the later of now and 06:00 and 18:00 of the same
      day reads as a wall-clock time between 06:00 and 18:00. */
  lemma ClockWithin(now: Instant, e: Instant)
    requires ActualStart(now) <= e <= DefaultEnd(now)
    ensures START.Seconds() <= ClockOf(e).Seconds() <= START.Seconds() + HOURS * HOUR
  {
    var d := DayStart(now);
    assert DefaultStart(now) == d + START.Seconds();
    assert d <= e < d + DAY;
    assert DayStart(e) == d by {
      assert e - d == TimeOfDay(e) by {
        assert e == d + (e - d) && 0 <= e - d < DAY;
        assert d % DAY == 0;
      }
    }
    assert TimeOfDay(e) == e - d;
  }

  /** No extra refreshes are planned once 18:00 has passed. */
  lemma LateInTheDayOnlyTheMorningRefresh(now: Instant, limit: int, count: int, sites: Result<nat>)
    requires now > DefaultEnd(now)
    requires RefreshPlan(now, limit, count, sites).Ok?
    ensures RefreshPlan(now, limit, count, sites).value == [START]
  {
  }

  /** Removing each cancelled handle from the unload list, in order. */
  function RemovedAll(unload: seq<nat>, handles: seq<nat>): seq<nat> {
    if handles == [] then unload
    else RemoveFirst(RemovedAll(unload, handles[..|handles| - 1]), handles[|handles| - 1])
  }

  /** Clearing takes away one occurrence of every cancelled handle from
      the unload list and leaves every other handle there. */
  lemma {:induction false} RemovedAllCounts(unload: seq<nat>, handles: seq<nat>)
    ensures multiset(RemovedAll(unload, handles)) == multiset(unload) - multiset(handles)
  {
    if handles != [] {
      var init := handles[..|handles| - 1];
      var x := handles[|handles| - 1];
      RemovedAllCounts(unload, init);
      assert handles == init + [x];
      RemoveFirstCounts(RemovedAll(unload, init), x);
      assert multiset(handles) == multiset(init) + multiset{x};
      SubtractInTurn(multiset(unload), multiset(init), multiset{x});
    }
  }

  /** Removing the first occurrence of a handle takes one occurrence
      away, and none when it is not there. */
  lemma RemoveFirstCounts(s: seq<nat>, x: nat)
    ensures multiset(RemoveFirst(s, x)) == multiset(s) - multiset{x}
  {
    if x !in s {
      assert multiset(s)[x] == 0;
      assert multiset(s) - multiset{x} == multiset(s);
    }
  }

  /** Taking away two multisets at once is taking them away in turn. */
  lemma SubtractInTurn(a: multiset<nat>, b: multiset<nat>, c: multiset<nat>)
    ensures a - (b + c) == (a - b) - c
  {
    forall y
      ensures (a - (b + c))[y] == ((a - b) - c)[y]
    {
    }
  }

  /** One more cancelled handle takes its first occurrence off the list. */
  lemma RemovedAllStep(unload: seq<nat>, handles: seq<nat>, i: nat)
    requires i < |handles|
    ensures handles[..i + 1] == handles[..i] + [handles[i]]
    ensures RemovedAll(unload, handles[..i + 1]) == RemoveFirst(RemovedAll(unload, handles[..i]), handles[i])
  {
    assert handles[..i + 1][..i] == handles[..i];
  }

  /** The loop of `_clear_listeners()`: each handle, in order, is
      cancelled and its first occurrence taken off the unload list. */
  method CancelAll(cancelled: seq<nat>, unload: seq<nat>, handles: seq<nat>) returns (calls: seq<nat>, rest: seq<nat>)
    ensures calls == cancelled + handles
    ensures rest == RemovedAll(unload, handles)
  {
    calls, rest := cancelled, unload;
    for i := 0 to |handles|
      invariant calls == cancelled + handles[..i]
      invariant rest == RemovedAll(unload, handles[..i])
    {
      var listener := handles[i];
      RemovedAllStep(unload, handles, i);
      calls := calls + [listener];
      rest := RemoveFirst(rest, listener);
    }
    assert handles[..|handles|] == handles;
  }

  /** `n` consecutive listener handles from `first`. */
  function Handles(first: nat, n: nat): (r: seq<nat>)
    ensures |r| == n && forall i :: 0 <= i < n ==> r[i] == first + i
  {
    seq(n, i requires 0 <= i < n => first + i)
  }

  /** `n + 1` handles from `first` are `first` and then `n` from the next. */
  lemma HandlesSplit(first: nat, n: nat)
    ensures Handles(first, n + 1) == [first] + Handles(first + 1, n)
  {
    var a, b := Handles(first, n + 1), [first] + Handles(first + 1, n);
    forall i | 0 <= i < n + 1
      ensures a[i] == b[i]
    {
      if i > 0 {
        assert b[i] == Handles(first + 1, n)[i - 1];
      }
    }
  }

  /** What the forecast entity holds: the cached forecast and when it was
      fetched, either of which may be missing. */
  datatype Cached = Cached(forecast: Option<seq<ForecastRecord>>, lastUpdate: Option<Instant>)

  /** `load()`'s test: the cache is used when both attributes are there
      and it was fetched less than a day ago. */
  predicate UseCache(cached: Option<Cached>, now: Instant) {
    cached.Some? && cached.value.forecast.Some? && cached.value.lastUpdate.Some? &&
    now - cached.value.lastUpdate.value < DAY
  }

  /** The call allowance as the service reports it. */
  datatype ApiStatus = ApiStatus(consumed: int, limit: int)

  /** What one start-up or refresh gets from outside: the site list with
      each site's records, the allowance, and the number of sites. */
  datatype Service = Service(fetched: Result<seq<Result<seq<ForecastRecord>>>>, status: Result<ApiStatus>,
                             sites: Result<nat>)

  class ForecastController {
    const model: ForecastModel
    var apiCount: int
    var apiLimit: int
    var lastUpdate: Option<Instant>
    var refreshListeners: seq<nat>
    var refreshTimes: seq<HourMinute>
    var unloadListeners: seq<nat>
    var cancelled: seq<nat>
    var nextHandle: nat
    var notified: nat

    /** The constructor also registers the midnight reset of the count. */
    constructor (model: ForecastModel)
      ensures this.model == model
      ensures apiCount == 0 && apiLimit == DEFAULT_LIMIT && lastUpdate == None
      ensures refreshListeners == [] && refreshTimes == [] && unloadListeners == [0] && cancelled == []
      ensures nextHandle == 1 && notified == 0
    {
      this.model := model;
      apiCount := 0;
      apiLimit := DEFAULT_LIMIT;
      lastUpdate := None;
      refreshListeners := [];
      refreshTimes := [];
      unloadListeners := [0];
      cancelled := [];
      nextHandle := 1;
      notified := 0;
    }

    predicate Valid()
      reads this, model
    {
      model.Valid() && |refreshListeners| == |refreshTimes|
    }

    /** `ready()` */
    function Ready(): bool
      reads this, model
    {
      model.ready
    }

    /** The listener and allowance fields `_async_get_site_info()` may
        rewrite are as they were. */
    twostate predicate SiteInfoUnchanged()
      reads this
    {
      apiCount == old(apiCount) && apiLimit == old(apiLimit) &&
      refreshListeners == old(refreshListeners) && refreshTimes == old(refreshTimes) &&
      unloadListeners == old(unloadListeners) && cancelled == old(cancelled) && nextHandle == old(nextHandle)
    }

    /** What `_async_get_site_info()` leaves: a failed status read changes
        nothing; otherwise the count and allowance are the service's, the
        old refreshes are cancelled and taken off the unload list, and the
        new ones are the plan for that allowance (none when the site count
        is missing or zero), each with a fresh handle. */
    twostate predicate SiteInfoRead(now: Instant, svc: Service)
      reads this
    {
      (svc.status.Err? ==> SiteInfoUnchanged()) &&
      (svc.status.Ok? ==>
         apiCount == svc.status.value.consumed && apiLimit == svc.status.value.limit &&
         refreshTimes == (match RefreshPlan(now, apiLimit, apiCount, svc.sites)
                          case Ok(plan) => plan
                          case Err(_) => []) &&
         refreshListeners == Handles(old(nextHandle), |refreshTimes|) &&
         nextHandle == old(nextHandle) + |refreshTimes| &&
         cancelled == old(cancelled) + old(refreshListeners) &&
         unloadListeners == RemovedAll(old(unloadListeners), old(refreshListeners)) + refreshListeners)
    }

    /** `_reset_api_count()` */
    method ResetApiCount()
      modifies this
      ensures apiCount == 0
      ensures apiLimit == old(apiLimit) && refreshListeners == old(refreshListeners) &&
              refreshTimes == old(refreshTimes) && unloadListeners == old(unloadListeners) &&
              cancelled == old(cancelled) && nextHandle == old(nextHandle)
      ensures lastUpdate == old(lastUpdate) && notified == old(notified)
    {
      apiCount := 0;
    }

    /** `_clear_listeners()`: each refresh is cancelled, in order, and
        taken off the unload list; then the refresh list is emptied. */
    method ClearListeners()
      modifies this
      ensures cancelled == old(cancelled) + old(refreshListeners)
      ensures unloadListeners == RemovedAll(old(unloadListeners), old(refreshListeners))
      ensures refreshListeners == [] && refreshTimes == []
      ensures apiCount == old(apiCount) && apiLimit == old(apiLimit) && lastUpdate == old(lastUpdate)
      ensures nextHandle == old(nextHandle) && notified == old(notified)
    {
      cancelled, unloadListeners := CancelAll(cancelled, unloadListeners, refreshListeners);
      refreshListeners := [];
      refreshTimes := [];
    }

    /** `_add_refresh(time)`: a new handle on both lists. */
    method AddRefresh(at: HourMinute)
      modifies this
      ensures refreshListeners == old(refreshListeners) + [old(nextHandle)]
      ensures refreshTimes == old(refreshTimes) + [at]
      ensures unloadListeners == old(unloadListeners) + [old(nextHandle)]
      ensures nextHandle == old(nextHandle) + 1
      ensures cancelled == old(cancelled) && apiCount == old(apiCount) && apiLimit == old(apiLimit)
      ensures lastUpdate == old(lastUpdate) && notified == old(notified)
    {
      refreshListeners := refreshListeners + [nextHandle];
      refreshTimes := refreshTimes + [at];
      unloadListeners := unloadListeners + [nextHandle];
      nextHandle := nextHandle + 1;
    }

    /** `_setup_refresh()`: the old refreshes are cleared, then the plan's
        refreshes are registered in order; a site count that is missing or
        zero leaves none. */
    method SetupRefresh(now: Instant, sites: Result<nat>) returns (status: Result<()>)
      modifies this
      ensures status.Ok? <==> RefreshPlan(now, old(apiLimit), old(apiCount), sites).Ok?
      ensures refreshTimes == (match RefreshPlan(now, old(apiLimit), old(apiCount), sites)
                               case Ok(plan) => plan
                               case Err(_) => [])
      ensures refreshListeners == Handles(old(nextHandle), |refreshTimes|)
      ensures nextHandle == old(nextHandle) + |refreshTimes|
      ensures cancelled == old(cancelled) + old(refreshListeners)
      ensures unloadListeners == RemovedAll(old(unloadListeners), old(refreshListeners)) + refreshListeners
      ensures apiCount == old(apiCount) && apiLimit == old(apiLimit) && lastUpdate == old(lastUpdate)
      ensures notified == old(notified)
    {
      ClearListeners();
      status := RegisterPlan(now, sites);
    }

    /** `_setup_refresh()` after the old refreshes are cleared: the 06:00
        refresh and the extra ones, each with a fresh handle on both lists;
        none when the site count is missing or zero. */
    method RegisterPlan(now: Instant, sites: Result<nat>) returns (status: Result<()>)
      requires refreshListeners == [] && refreshTimes == []
      modifies this
      ensures status.Ok? <==> RefreshPlan(now, apiLimit, apiCount, sites).Ok?
      ensures refreshTimes == (match RefreshPlan(now, apiLimit, apiCount, sites)
                               case Ok(plan) => plan
                               case Err(_) => [])
      ensures refreshListeners == Handles(old(nextHandle), |refreshTimes|)
      ensures nextHandle == old(nextHandle) + |refreshTimes|
      ensures unloadListeners == old(unloadListeners) + refreshListeners
      ensures cancelled == old(cancelled) && apiCount == old(apiCount) && apiLimit == old(apiLimit)
      ensures lastUpdate == old(lastUpdate) && notified == old(notified)
    {
      ghost var first := nextHandle;
      var defaultStart := DefaultStart(now);
      var defaultEnd := defaultStart + HOURS * HOUR;
      var actualStart := if now > defaultStart then now else defaultStart;
      if sites.Err? {
        return Err(sites.error);
      }
      if sites.value == 0 {
        return Err(Unexpected);
      }
      var apiAvailable := TruncDiv(apiLimit - apiCount - API_BUFFER, CALLS * sites.value);
      ghost var available := apiAvailable;
      assert ApiAvailable(apiLimit, apiCount, sites) == Ok(available);
      PlanOfAvailable(now, apiLimit, apiCount, sites, available);
      AddRefresh(START);
      assert refreshListeners == [first] == Handles(first, 1);
      if now < defaultStart {
        apiAvailable := apiAvailable - 1;
      }
      if apiAvailable < 1 || now > defaultEnd {
        assert ExtraCount(now, available) == 0;
        return Ok(());
      }
      var minutesDiff := (defaultEnd - actualStart) / MINUTE;
      var interval := minutesDiff / apiAvailable;
      assert actualStart == ActualStart(now) && ExtraCount(now, available) == apiAvailable;
      assert interval == Interval(now, apiAvailable);
      AddExtraRefreshes(actualStart, interval, apiAvailable);
      HandlesSplit(first, apiAvailable);
      status := Ok(());
    }

    /** The loop of `_setup_refresh()`: the refreshes one interval apart,
        each registered with a fresh handle. */
    method AddExtraRefreshes(actualStart: Instant, interval: nat, n: nat)
      modifies this
      ensures refreshTimes == old(refreshTimes) + ExtraTimes(actualStart, interval, n)
      ensures refreshListeners == old(refreshListeners) + Handles(old(nextHandle), n)
      ensures unloadListeners == old(unloadListeners) + Handles(old(nextHandle), n)
      ensures nextHandle == old(nextHandle) + n
      ensures cancelled == old(cancelled) && apiCount == old(apiCount) && apiLimit == old(apiLimit)
      ensures lastUpdate == old(lastUpdate) && notified == old(notified)
    {
      ghost var extras := ExtraTimes(actualStart, interval, n);
      var i := 1;
      while i <= n
        invariant 1 <= i <= n + 1
        invariant refreshTimes == old(refreshTimes) + extras[..i - 1]
        invariant refreshListeners == old(refreshListeners) + Handles(old(nextHandle), i - 1)
        invariant unloadListeners == old(unloadListeners) + Handles(old(nextHandle), i - 1)
        invariant nextHandle == old(nextHandle) + i - 1
        invariant cancelled == old(cancelled) && apiCount == old(apiCount) && apiLimit == old(apiLimit)
        invariant lastUpdate == old(lastUpdate) && notified == old(notified)
      {
        AddRefresh(ClockOf(actualStart + interval * i * MINUTE));
        assert extras[..i] == extras[..i - 1] + [extras[i - 1]];
        assert Handles(old(nextHandle), i) == Handles(old(nextHandle), i - 1) + [old(nextHandle) + i - 1];
        i := i + 1;
      }
      assert extras[..n] == extras;
    }

    /** `_async_get_site_info()`: the allowance is read and the refreshes
        set up again; every failure is swallowed. */
    method GetSiteInfo(now: Instant, svc: Service)
      requires |refreshListeners| == |refreshTimes|
      modifies this
      ensures SiteInfoRead(now, svc)
      ensures |refreshListeners| == |refreshTimes|
      ensures lastUpdate == old(lastUpdate) && notified == old(notified)
    {
      if svc.status.Err? {
        return;
      }
      apiCount := svc.status.value.consumed;
      apiLimit := svc.status.value.limit;
      var _ := SetupRefresh(now, svc.sites);
    }

    /** What `async_refresh()` leaves: the records are refetched as the
        model's refresh does; when every site's fetch succeeds with some
        records, the table is rebuilt from them, the model is ready and the
        last update is now; otherwise the table, the flag and the last
        update are as they were. The site info is read either way and the
        listeners are notified once. */
    twostate predicate RefreshedFrom(now: Instant, svc: Service, interpolate: map<Instant, real> -> seq<MinuteValue>)
      reads this, model
    {
      (svc.fetched.Err? ==> model.rawData == old(model.rawData)) &&
      (svc.fetched.Ok? ==>
         model.rawData == Joined(Fetched(svc.fetched.value[..FirstFailure(svc.fetched.value)]))) &&
      var ok := svc.fetched.Ok? && FirstFailure(svc.fetched.value) == |svc.fetched.value| && model.rawData != [];
      (ok ==> lastUpdate == Some(now) && model.ready &&
              model.resampled == Some(Resample(model.rawData, interpolate).value)) &&
      (!ok ==> lastUpdate == old(lastUpdate) && model.ready == old(model.ready) &&
               model.resampled == old(model.resampled)) &&
      SiteInfoRead(now, svc) && notified == old(notified) + 1
    }

    /** `async_refresh()`: the forecast is fetched again; only a successful
        fetch moves the last update; the site info is read and listeners
        are notified either way. */
    method AsyncRefresh(now: Instant, svc: Service, interpolate: map<Instant, real> -> seq<MinuteValue>)
      requires Valid()
      modifies this, model
      ensures Valid()
      ensures RefreshedFrom(now, svc, interpolate)
    {
      var r := model.Refresh(svc.fetched, interpolate);
      if r.Ok? {
        lastUpdate := Some(now);
      }
      GetSiteInfo(now, svc);
      notified := notified + 1;
    }

    /** `load()`: a fresh cache is loaded and its fetch time kept, and a
        cached forecast that cannot be resampled fails the load; anything
        else fetches the forecast again. */
    method Load(cached: Option<Cached>, now: Instant, svc: Service, interpolate: map<Instant, real> -> seq<MinuteValue>)
      returns (status: Result<()>)
      requires Valid()
      modifies this, model
      ensures Valid()
      ensures UseCache(cached, now) ==>
                model.rawData == cached.value.forecast.value &&
                (status.Ok? <==> cached.value.forecast.value != []) &&
                (status.Ok? ==> lastUpdate == cached.value.lastUpdate && model.ready &&
                                model.resampled == Some(Resample(cached.value.forecast.value, interpolate).value) &&
                                SiteInfoRead(now, svc) && notified == old(notified) + 1) &&
                (status.Err? ==> status == Err(Unexpected) &&
                                 lastUpdate == old(lastUpdate) && notified == old(notified) && SiteInfoUnchanged() &&
                                 model.resampled == old(model.resampled) && model.ready == old(model.ready))
      ensures !UseCache(cached, now) ==> status.Ok? && RefreshedFrom(now, svc, interpolate)
    {
      if UseCache(cached, now) {
        var r := model.Load(cached.value.forecast.value, interpolate);
        if r.Err? {
          return r;
        }
        lastUpdate := cached.value.lastUpdate;
        GetSiteInfo(now, svc);
        notified := notified + 1;
        status := Ok(());
      } else {
        AsyncRefresh(now, svc, interpolate);
        status := Ok(());
      }
    }
  }
}

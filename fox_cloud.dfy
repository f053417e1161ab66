/** The inverter over the cloud service: each call posts a query naming the
    inverter by serial number, which is fetched once and then kept. */
module FoxCloud {
  import opened Common
  import opened ChargeWindows
  import FoxModbus

  /** The inverter record the device list returns; its serial number may
      be missing. */
  datatype Device = Device(serial: Option<string>)

  /** The force-charge query: the inverter and both windows, as the
      `enable1`/`startTime1`/`endTime1` and `enable2`/`startTime2`/`endTime2`
      fields. */
  datatype ChargeQuery = ChargeQuery(sn: string, windows: Windows)

  /** The minimum state of charge query. */
  datatype MinSocQuery = MinSocQuery(sn: string, minSocOnGrid: int, minSoc: int)

  /** A post to the cloud service. */
  datatype Post =
    | DeviceList(pageSize: int, currentPage: int)
    | SetTimes(query: ChargeQuery)
    | MinSocPost(minSocQuery: MinSocQuery)

  /** `_build_device_query()` */
  const DEVICE_QUERY: Post := DeviceList(10, 1)

  /** `int(x)` on a float: truncation toward zero. */
  function TruncReal(x: real): (n: int)
    ensures x >= 0.0 ==> n as real <= x < n as real + 1.0
    ensures x < 0.0 ==> n as real - 1.0 < x <= n as real
  {
    if x >= 0.0 then x.Floor else -((-x).Floor)
  }

  /** `_build_min_soc_query(sn, soc)`: the on-grid minimum is the level
      asked for; the off-grid minimum is the configured fraction in whole
      percent. */
  function BuildMinSocQuery(sn: string, soc: int, userMinSoc: real): (q: MinSocQuery)
    ensures q.sn == sn && q.minSocOnGrid == soc
    ensures userMinSoc >= 0.0 ==> q.minSoc as real <= userMinSoc * 100.0 < q.minSoc as real + 1.0
  {
    MinSocQuery(sn, soc, TruncReal(userMinSoc * 100.0))
  }

  /** `_build_stop_charge_query(sn)`: both windows off at 00:00. */
  function BuildStopChargeQuery(sn: string): (q: ChargeQuery)
    ensures q.sn == sn && !q.windows.first.enabled && !q.windows.second.enabled
    ensures forall t :: !Covers(q.windows, t)
  {
    ChargeQuery(sn, STOPPED)
  }

  /** `_build_start_single_charge_query(sn, start, end)` */
  function BuildStartSingleChargeQuery(sn: string, start: HourMinute, end: HourMinute): (q: ChargeQuery)
    ensures q.sn == sn && q.windows.first == Window(true, start, end)
    ensures q.windows.second == OFF
  {
    ChargeQuery(sn, Single(start, end))
  }

  /** `_build_start_double_charge_query(sn, start, stop)` */
  function BuildStartDoubleChargeQuery(sn: string, start: HourMinute, stop: HourMinute): (q: ChargeQuery)
    ensures q.sn == sn && q.windows.first == Window(true, start, BEFORE_MIDNIGHT)
    ensures q.windows.second == Window(true, AFTER_MIDNIGHT, stop)
  {
    ChargeQuery(sn, Double(start, stop))
  }

  /** The off-peak query: double exactly when the off-peak period crosses
      midnight. */
  function OffPeakQuery(sn: string, start: HourMinute, end: HourMinute): (q: ChargeQuery)
    ensures end.Before(start) ==> q == BuildStartDoubleChargeQuery(sn, start, end)
    ensures !end.Before(start) ==> q == BuildStartSingleChargeQuery(sn, start, end)
  {
    if end.Before(start) then BuildStartDoubleChargeQuery(sn, start, end)
    else BuildStartSingleChargeQuery(sn, start, end)
  }

  /** The cloud and the Modbus services set the same windows: the cloud's
      off-peak query holds exactly what the Modbus service writes to its
      six window registers, and so does the stop query. */
  lemma CloudAndModbusAgree(sn: string, start: HourMinute, end: HourMinute)
    ensures FoxModbus.Registers(OffPeakQuery(sn, start, end).windows) == FoxModbus.StartForceCharge(start, end).values
    ensures FoxModbus.Registers(BuildStopChargeQuery(sn).windows) == FoxModbus.StopForceCharge().values
  {
  }

  /** A failed post: a missing-data error is logged and swallowed, any
      other error is raised. */
  function Swallowed(r: Result<()>): (s: Result<()>)
    ensures s.Err? <==> r.Err? && r.error != NoData
  {
    if r.Err? && r.error == NoData then Ok(()) else r
  }

  class FoxCloudService {
    const offPeakStart: HourMinute
    const offPeakEnd: HourMinute
    const userMinSoc: real
    var deviceInfo: Option<Device>
    var posts: seq<Post>

    constructor (offPeakStart: HourMinute, offPeakEnd: HourMinute, userMinSoc: real)
      ensures this.offPeakStart == offPeakStart && this.offPeakEnd == offPeakEnd && this.userMinSoc == userMinSoc
      ensures deviceInfo == None && posts == []
    {
      this.offPeakStart := offPeakStart;
      this.offPeakEnd := offPeakEnd;
      this.userMinSoc := userMinSoc;
      deviceInfo := None;
      posts := [];
    }

    /** `device_info()`: served from the cache once fetched; otherwise the
        device list is fetched, and its first record kept. */
    method DeviceInfo(list: Result<seq<Device>>) returns (r: Result<Device>)
      modifies this
      ensures old(deviceInfo).Some? ==> r == Ok(old(deviceInfo).value) && deviceInfo == old(deviceInfo) && posts == old(posts)
      ensures old(deviceInfo).None? ==>
                posts == old(posts) + [DEVICE_QUERY] &&
                (r.Err? <==> list.Err? || |list.value| == 0) &&
                (r.Ok? ==> r.value == list.value[0] && deviceInfo == Some(r.value)) &&
                (r.Err? ==> deviceInfo == None) &&
                (list.Err? ==> r == Err(list.error)) &&
                (list.Ok? && |list.value| == 0 ==> r == Err(Unexpected))
    {
      if deviceInfo.None? {
        posts := posts + [DEVICE_QUERY];
        if list.Err? {
          return Err(list.error);
        }
        if |list.value| == 0 {
          return Err(Unexpected);
        }
        deviceInfo := Some(list.value[0]);
      }
      r := Ok(deviceInfo.value);
    }

    /** The serial number a lookup yields from the cache, or else from the
        device list's first record: a failed list is raised as it is, an
        empty list or a record without a serial fails. */
    function LookupSerial(list: Result<seq<Device>>): (r: Result<string>)
      reads this
      ensures deviceInfo.Some? ==> (r.Ok? <==> deviceInfo.value.serial.Some?) &&
                                   (r.Ok? ==> deviceInfo.value.serial == Some(r.value))
      ensures deviceInfo.None? ==> (r.Ok? <==> list.Ok? && |list.value| > 0 && list.value[0].serial.Some?) &&
                                   (r.Ok? ==> list.value[0].serial == Some(r.value))
      ensures deviceInfo.None? && list.Err? ==> r == Err(list.error)
      ensures r.Err? && !(deviceInfo.None? && list.Err?) ==> r == Err(Unexpected)
    {
      var d := if deviceInfo.Some? then Ok(deviceInfo.value)
               else if list.Err? then Err(list.error)
               else if |list.value| == 0 then Err(Unexpected)
               else Ok(list.value[0]);
      if d.Err? then Err(d.error)
      else if d.value.serial.None? then Err(Unexpected)
      else Ok(d.value.serial.value)
    }

    /** The device-list post a lookup makes: one, unless a device is cached. */
    function LookupPosts(): seq<Post>
      reads this
    {
      if deviceInfo.None? then [DEVICE_QUERY] else []
    }

    /** The serial number of the device, fetched if need be; a missing
        serial fails the lookup. */
    method SerialNumber(list: Result<seq<Device>>) returns (r: Result<string>)
      modifies this
      ensures r == old(LookupSerial(list)) && posts == old(posts) + old(LookupPosts())
      ensures old(deviceInfo).Some? ==> posts == old(posts) && deviceInfo == old(deviceInfo)
      ensures old(deviceInfo).None? ==> posts == old(posts) + [DEVICE_QUERY]
      ensures r.Ok? ==> deviceInfo.Some? && deviceInfo.value.serial == Some(r.value)
      ensures old(deviceInfo).Some? ==>
                (r.Ok? <==> old(deviceInfo).value.serial.Some?)
      ensures old(deviceInfo).None? && list.Err? ==> r == Err(list.error)
    {
      var d := DeviceInfo(list);
      if d.Err? {
        return Err(d.error);
      }
      if d.value.serial.None? {
        return Err(Unexpected);
      }
      r := Ok(d.value.serial.value);
    }

    /** `start_force_charge_off_peak()`: a failed device lookup is raised;
        the post's missing-data error is swallowed. */
    method StartForceChargeOffPeak(list: Result<seq<Device>>, post: Result<()>) returns (r: Result<()>)
      modifies this
      ensures r.Ok? ==> |posts| > 0 && (exists sn ::
                   deviceInfo == Some(Device(Some(sn))) &&
                   posts[|posts| - 1] == SetTimes(OffPeakQuery(sn, offPeakStart, offPeakEnd)))
      ensures old(deviceInfo).Some? && old(deviceInfo).value.serial.Some? ==>
                posts == old(posts) + [SetTimes(OffPeakQuery(old(deviceInfo).value.serial.value, offPeakStart, offPeakEnd))] &&
                r == Swallowed(post)
      ensures old(LookupSerial(list)).Ok? ==>
                posts == old(posts) + old(LookupPosts()) + [SetTimes(OffPeakQuery(old(LookupSerial(list)).value, offPeakStart, offPeakEnd))] &&
                r == Swallowed(post)
      ensures old(LookupSerial(list)).Err? ==> posts == old(posts) + old(LookupPosts()) && r == Err(old(LookupSerial(list)).error)
    {
      var sn := SerialNumber(list);
      if sn.Err? {
        return Err(sn.error);
      }
      var query := if offPeakEnd.Before(offPeakStart) then BuildStartDoubleChargeQuery(sn.value, offPeakStart, offPeakEnd)
                   else BuildStartSingleChargeQuery(sn.value, offPeakStart, offPeakEnd);
      posts := posts + [SetTimes(query)];
      r := Swallowed(post);
    }

    /** `start_force_charge_now()`: the single window from 00:01 to 23:59. */
    method StartForceChargeNow(list: Result<seq<Device>>, post: Result<()>) returns (r: Result<()>)
      modifies this
      ensures r.Ok? ==> |posts| > 0 && (exists sn ::
                   deviceInfo == Some(Device(Some(sn))) &&
                   posts[|posts| - 1] == SetTimes(ChargeQuery(sn, Single(AFTER_MIDNIGHT, BEFORE_MIDNIGHT))))
      ensures old(deviceInfo).Some? && old(deviceInfo).value.serial.Some? ==>
                posts == old(posts) + [SetTimes(ChargeQuery(old(deviceInfo).value.serial.value, Single(AFTER_MIDNIGHT, BEFORE_MIDNIGHT)))] &&
                r == Swallowed(post)
      ensures old(LookupSerial(list)).Ok? ==>
                posts == old(posts) + old(LookupPosts()) +
                         [SetTimes(ChargeQuery(old(LookupSerial(list)).value, Single(AFTER_MIDNIGHT, BEFORE_MIDNIGHT)))] &&
                r == Swallowed(post)
      ensures old(LookupSerial(list)).Err? ==> posts == old(posts) + old(LookupPosts()) && r == Err(old(LookupSerial(list)).error)
    {
      var sn := SerialNumber(list);
      if sn.Err? {
        return Err(sn.error);
      }
      posts := posts + [SetTimes(BuildStartSingleChargeQuery(sn.value, AFTER_MIDNIGHT, BEFORE_MIDNIGHT))];
      r := Swallowed(post);
    }

    /** `stop_force_charge()`: a missing-data error from the lookup or the
        post is swallowed. */
    method StopForceCharge(list: Result<seq<Device>>, post: Result<()>) returns (r: Result<()>)
      modifies this
      ensures r.Ok? && old(deviceInfo).Some? && old(deviceInfo).value.serial.Some? ==>
                posts == old(posts) + [SetTimes(BuildStopChargeQuery(old(deviceInfo).value.serial.value))]
      ensures old(deviceInfo).Some? && old(deviceInfo).value.serial.Some? ==> r == Swallowed(post)
      ensures list == Err(NoData) && old(deviceInfo).None? ==> r.Ok? && posts == old(posts) + [DEVICE_QUERY]
      ensures old(LookupSerial(list)).Ok? ==>
                posts == old(posts) + old(LookupPosts()) + [SetTimes(BuildStopChargeQuery(old(LookupSerial(list)).value))] &&
                r == Swallowed(post)
      ensures old(LookupSerial(list)).Err? ==>
                posts == old(posts) + old(LookupPosts()) && r == Swallowed(Err(old(LookupSerial(list)).error))
    {
      var sn := SerialNumber(list);
      if sn.Err? {
        return Swallowed(Err(sn.error));
      }
      posts := posts + [SetTimes(BuildStopChargeQuery(sn.value))];
      r := Swallowed(post);
    }

    /** `set_min_soc(soc)`: as stopping, with the minimum state of charge
        query. */
    method SetMinSoc(soc: int, list: Result<seq<Device>>, post: Result<()>) returns (r: Result<()>)
      modifies this
      ensures old(deviceInfo).Some? && old(deviceInfo).value.serial.Some? ==>
                posts == old(posts) + [MinSocPost(BuildMinSocQuery(old(deviceInfo).value.serial.value, soc, userMinSoc))] &&
                r == Swallowed(post)
      ensures list == Err(NoData) && old(deviceInfo).None? ==> r.Ok? && posts == old(posts) + [DEVICE_QUERY]
      ensures old(LookupSerial(list)).Ok? ==>
                posts == old(posts) + old(LookupPosts()) + [MinSocPost(BuildMinSocQuery(old(LookupSerial(list)).value, soc, userMinSoc))] &&
                r == Swallowed(post)
      ensures old(LookupSerial(list)).Err? ==>
                posts == old(posts) + old(LookupPosts()) && r == Swallowed(Err(old(LookupSerial(list)).error))
    {
      var sn := SerialNumber(list);
      if sn.Err? {
        return Swallowed(Err(sn.error));
      }
      posts := posts + [MinSocPost(BuildMinSocQuery(sn.value, soc, userMinSoc))];
      r := Swallowed(post);
    }

    /** `set_charge_current()`: not supported over the cloud; nothing is
        sent. */
    method SetChargeCurrent(current: real)
      ensures posts == old(posts) && deviceInfo == old(deviceInfo)
    {
    }
  }
}

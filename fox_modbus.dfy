/** The inverter over Modbus: the force-charge windows, the minimum state
    of charge and the charge current are holding-register writes. */
module FoxModbus {
  import opened Common
  import opened ChargeWindows

  /** Holding registers. */
  const DAY_REGISTER: int := 40002
  const CHARGE_CURRENT: int := 41007
  const MIN_SOC: int := 41011
  const P1_ENABLE: int := 41001

  /** One register write as the service hands it to the transport: the
      first address and the values from there on. */
  datatype Write = Write(address: int, values: seq<real>)

  /** `_encode_time(t)`: the hour in the high byte, the minute in the low
      byte. */
  function EncodeTime(t: HourMinute): int {
    t.hour * 256 + t.minute
  }

  function DecodeTime(v: int): HourMinute {
    HourMinute(v / 256, v % 256)
  }

  /** Encoding a valid time loses nothing: decoding gives it back, so two
      different times never share a code, and codes keep the order of the
      times. */
  lemma {:induction false} EncodeTimeRoundTrip(t: HourMinute, u: HourMinute)
    requires t.Valid() && u.Valid()
    ensures DecodeTime(EncodeTime(t)) == t
    ensures EncodeTime(t) == EncodeTime(u) ==> t == u
    ensures t.Before(u) <==> EncodeTime(t) < EncodeTime(u)
    ensures 0 <= EncodeTime(t) <= 23 * 256 + 59
  {
    assert EncodeTime(t) / 256 == t.hour && EncodeTime(t) % 256 == t.minute;
    assert EncodeTime(u) / 256 == u.hour && EncodeTime(u) % 256 == u.minute;
  }

  /** The six registers from `P1_ENABLE`: each window as its enable flag,
      start and end. */
  function Registers(w: Windows): (r: seq<real>)
    ensures |r| == 6
  {
    [Flag(w.first.enabled), EncodeTime(w.first.start) as real, EncodeTime(w.first.end) as real,
     Flag(w.second.enabled), EncodeTime(w.second.start) as real, EncodeTime(w.second.end) as real]
  }

  function Flag(b: bool): real {
    if b then 1.0 else 0.0
  }

  /** The windows read back from the six registers. */
  function DecodeRegisters(r: seq<real>): Windows
    requires |r| == 6
  {
    Windows(Window(r[0] == 1.0, DecodeTime(r[1].Floor), DecodeTime(r[2].Floor)),
            Window(r[3] == 1.0, DecodeTime(r[4].Floor), DecodeTime(r[5].Floor)))
  }

  /** The registers hold the windows: reading them back gives the windows
      that were written. */
  lemma RegistersRoundTrip(w: Windows)
    requires w.first.start.Valid() && w.first.end.Valid() && w.second.start.Valid() && w.second.end.Valid()
    ensures DecodeRegisters(Registers(w)) == w
  {
    EncodeTimeRoundTrip(w.first.start, w.first.start);
    EncodeTimeRoundTrip(w.first.end, w.first.end);
    EncodeTimeRoundTrip(w.second.start, w.second.start);
    EncodeTimeRoundTrip(w.second.end, w.second.end);
  }

  /** `_start_force_charge(start, stop)`: the six window registers,
      `[1, start, 23:59, 1, 00:01, stop]` when start is later than stop,
      else `[1, start, stop, 0, 0, 0]`. */
  function StartForceCharge(start: HourMinute, stop: HourMinute): (w: Write)
    ensures w.address == P1_ENABLE
    ensures stop.Before(start) ==>
              w.values == [1.0, EncodeTime(start) as real, (23 * 256 + 59) as real,
                           1.0, 1.0, EncodeTime(stop) as real]
    ensures !stop.Before(start) ==>
              w.values == [1.0, EncodeTime(start) as real, EncodeTime(stop) as real, 0.0, 0.0, 0.0]
  {
    Write(P1_ENABLE, Registers(ForceCharge(start, stop)))
  }

  /** `start_force_charge_now()`: 00:01 to 23:59, which never crosses
      midnight, so the single window. */
  function StartForceChargeNow(): (w: Write)
    ensures w == Write(P1_ENABLE, [1.0, 1.0, (23 * 256 + 59) as real, 0.0, 0.0, 0.0])
  {
    StartForceCharge(AFTER_MIDNIGHT, BEFORE_MIDNIGHT)
  }

  /** `stop_force_charge()`: six zeros. */
  function StopForceCharge(): (w: Write)
    ensures w.address == P1_ENABLE && w.values == [0.0, 0.0, 0.0, 0.0, 0.0, 0.0]
    ensures DecodeRegisters(w.values) == STOPPED
  {
    Write(P1_ENABLE, Registers(STOPPED))
  }

  /** `set_min_soc(soc)` */
  function SetMinSoc(soc: int): (w: Write)
    ensures w.address == MIN_SOC && |w.values| == 1 && w.values[0] == soc as real
  {
    Write(MIN_SOC, [soc as real])
  }

  /** `set_charge_current(current)`: the register holds tenths of an amp. */
  function SetChargeCurrent(current: real): (w: Write)
    ensures w.address == CHARGE_CURRENT && |w.values| == 1 && w.values[0] / 10.0 == current
  {
    Write(CHARGE_CURRENT, [current * 10.0])
  }

  /** `device_info()`: whether the inverter's day register matches today's
      day of the month; a failed or empty read fails. */
  function DeviceInfo(read: Result<seq<int>>, today: int): (r: Result<bool>)
    ensures r.Err? <==> read.Err? || |read.value| == 0
    ensures r.Ok? ==> (r.value <==> read.value[0] == today)
  {
    match read
    case Err(e) => Err(e)
    case Ok(day) => if |day| == 0 then Err(Unexpected) else Ok(day[0] == today)
  }
}

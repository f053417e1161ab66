/** The charge orchestrator: five minutes before the eco window it reads
    the plan and sets the inverter up, at the eco start it sets the hold
    level and starts watching the battery level, while watching it stops
    and restarts the force charge around the target with a hysteresis, and
    at the eco end it releases the hold. Every inverter call is appended to
    a command log. */
module ChargeOrchestration {
  import opened Common
  import opened Rounding
  import opened PeakPeriod

  /** A call into the inverter service. */
  datatype Command = StartForceChargeOffPeak | StopForceCharge | SetMinSoc(soc: real) | SetChargeCurrent(amps: real)

  /** The time left at the end of the window when spreading the charge. */
  const CHARGE_BUFFER: int := 30 * MINUTE
  /** The lowest charge current the step-down sets, in amps. */
  const MINIMUM_CHARGE: real := 2.0
  /** How far below the target the level must fall before charging again. */
  const CHARGE_HYSTERESIS: real := 2.0

  /** The setup trigger's wall-clock time: five minutes before the eco
      start, wrapping back over midnight. */
  function SetupTime(start: HourMinute): (h: HourMinute)
    requires start.Valid()
    ensures h.Valid()
    ensures (h.Seconds() + 5 * MINUTE) % DAY == start.Seconds()
  {
    SecondsRange(start);
    var t := start.Seconds() - 5 * MINUTE;
    var s := TimeOfDay(t);
    MinuteOfDay(t);
    ShiftDay(s);
    WholeMinutes(s);
    HourMinute(s / HOUR, (s % HOUR) / MINUTE)
  }

  /** The charge current that spreads `required` kWh over the window less
      the buffer, in amps rounded to 0.01. A window of exactly the buffer
      or a zero pack voltage divides by zero. */
  function ChargeRate(required: real, volts: real, window: int): (r: Result<real>)
    ensures r.Err? <==> volts == 0.0 || window == CHARGE_BUFFER
    ensures r.Ok? ==> var hours := (window - CHARGE_BUFFER) as real / 3600.0;
                      -0.005 <= r.value - ((required / volts) * 1000.0) / hours <= 0.005
  {
    if volts == 0.0 || window == CHARGE_BUFFER then Err(Unexpected)
    else
      var hours := (window - CHARGE_BUFFER) as real / 3600.0;
      Round2Close(((required / volts) * 1000.0) / hours);
      Ok(Round2(((required / volts) * 1000.0) / hours))
  }

  /** The stepped-down current above 90%: a tenth of the user current per
      percent still missing, never above the target current and never
      below the minimum. */
  function StepDownCurrent(userAmps: real, targetAmps: real, soc: real): (r: real)
    ensures r >= MINIMUM_CHARGE
    ensures r == MINIMUM_CHARGE || r == targetAmps || r == Round2(((100.0 - soc) / 10.0) * userAmps)
    ensures targetAmps >= MINIMUM_CHARGE ==> r <= targetAmps
  {
    Max(MINIMUM_CHARGE, Min(Round2(((100.0 - soc) / 10.0) * userAmps), targetAmps))
  }

  /** Whether the force charge runs after a battery-level change. */
  function NextActive(active: bool, percTarget: real, soc: real): bool {
    if soc >= percTarget && active then percTarget == 100.0
    else if soc < percTarget - CHARGE_HYSTERESIS && !active then true
    else active
  }

  /** The hysteresis commands after a battery-level change. */
  function HysteresisCommands(active: bool, percTarget: real, soc: real): seq<Command> {
    if soc >= percTarget && active then (if percTarget != 100.0 then [StopForceCharge] else [])
    else if soc < percTarget - CHARGE_HYSTERESIS && !active then [StartForceChargeOffPeak]
    else []
  }

  /** Reaching the target stops an active charge, unless the target is
      100% (kept for cell balancing). */
  lemma ReachingTargetStops(active: bool, percTarget: real, soc: real)
    requires active && soc >= percTarget
    ensures NextActive(active, percTarget, soc) <==> percTarget == 100.0
    ensures HysteresisCommands(active, percTarget, soc) == (if percTarget == 100.0 then [] else [StopForceCharge])
  {
  }

  /** Falling more than the hysteresis below the target restarts a stopped
      charge. */
  lemma FallingBelowBandRestarts(active: bool, percTarget: real, soc: real)
    requires !active && soc < percTarget - CHARGE_HYSTERESIS
    ensures NextActive(active, percTarget, soc)
    ensures HysteresisCommands(active, percTarget, soc) == [StartForceChargeOffPeak]
  {
  }

  /** Inside the band [target - 2, target) nothing changes. */
  lemma HysteresisBand(active: bool, percTarget: real, soc: real)
    requires percTarget - CHARGE_HYSTERESIS <= soc < percTarget
    ensures NextActive(active, percTarget, soc) == active
    ensures HysteresisCommands(active, percTarget, soc) == []
  {
  }

  /** The commands issued agree with the change of state: a stop exactly
      when the charge goes from running to stopped, a start exactly when it
      goes from stopped to running. */
  lemma {:induction false} CommandsMatchState(active: bool, percTarget: real, soc: real)
    ensures HysteresisCommands(active, percTarget, soc) == [StopForceCharge] <==>
            active && !NextActive(active, percTarget, soc)
    ensures HysteresisCommands(active, percTarget, soc) == [StartForceChargeOffPeak] <==>
            !active && NextActive(active, percTarget, soc)
    ensures HysteresisCommands(active, percTarget, soc) == [] <==>
            active == NextActive(active, percTarget, soc)
  {
    if soc >= percTarget && active {
      assert percTarget != 100.0 ==> HysteresisCommands(active, percTarget, soc)[0] == StopForceCharge;
    } else if soc < percTarget - CHARGE_HYSTERESIS && !active {
      assert HysteresisCommands(active, percTarget, soc)[0] == StartForceChargeOffPeak;
    }
  }

  class ChargeService {
    const window: EcoWindow
    const originalSoc: real
    const userChargeAmps: real
    const batteryVolts: real
    var targetChargeAmps: real
    var chargeActive: bool
    var percTarget: real
    var chargeRequired: real
    var customProfile: bool
    var disable: bool
    /** The battery-level listener's handle, once an eco start set it. */
    var listener: Option<nat>
    /** Handles to cancel on unload. */
    var unloadListeners: seq<nat>
    var nextHandle: nat
    var commands: seq<Command>

    constructor (window: EcoWindow, originalSoc: real, chargeAmps: real, batteryVolts: real)
      ensures this.window == window && this.originalSoc == originalSoc
      ensures userChargeAmps == chargeAmps && targetChargeAmps == chargeAmps && this.batteryVolts == batteryVolts
      ensures !chargeActive && percTarget == 0.0 && chargeRequired == 0.0 && !customProfile && !disable
      ensures listener == None && unloadListeners == [] && commands == []
    {
      this.window := window;
      this.originalSoc := originalSoc;
      userChargeAmps := chargeAmps;
      targetChargeAmps := chargeAmps;
      this.batteryVolts := batteryVolts;
      chargeActive := false;
      percTarget := 0.0;
      chargeRequired := 0.0;
      customProfile := false;
      disable := false;
      listener := None;
      unloadListeners := [];
      nextHandle := 0;
      commands := [];
    }

    /** Everything but the force-charge flag and the command log is as it
        was. */
    twostate predicate SettingsUnchanged()
      reads this
    {
      ChargeSettingsUnchanged() && disable == old(disable) && listener == old(listener) &&
      unloadListeners == old(unloadListeners) && nextHandle == old(nextHandle)
    }

    /** The charge current, target, required charge and profile are as they
        were. */
    twostate predicate ChargeSettingsUnchanged()
      reads this
    {
      targetChargeAmps == old(targetChargeAmps) && percTarget == old(percTarget) &&
      chargeRequired == old(chargeRequired) && customProfile == old(customProfile)
    }

    /** `_add_listeners()`: three time triggers (setup, start, end),
        returned with their times and kept for unloading. */
    method AddListeners() returns (setup: HourMinute, start: HourMinute, end: HourMinute)
      requires window.Valid()
      modifies this
      ensures unloadListeners == old(unloadListeners) + [old(nextHandle), old(nextHandle) + 1, old(nextHandle) + 2]
      ensures nextHandle == old(nextHandle) + 3
      ensures setup == SetupTime(window.start) && start == window.start && end == window.end
      ensures commands == old(commands) && chargeActive == old(chargeActive) && listener == old(listener)
      ensures disable == old(disable) && ChargeSettingsUnchanged()
    {
      setup, start, end := SetupTime(window.start), window.start, window.end;
      unloadListeners := unloadListeners + [nextHandle, nextHandle + 1, nextHandle + 2];
      nextHandle := nextHandle + 3;
    }

    /** `_start_force_charge_off_peak()` */
    method StartForceCharge()
      modifies this
      ensures chargeActive && commands == old(commands) + [StartForceChargeOffPeak]
      ensures SettingsUnchanged()
    {
      chargeActive := true;
      commands := commands + [StartForceChargeOffPeak];
    }

    /** `_stop_force_charge()` */
    method StopForceChargeNow()
      modifies this
      ensures !chargeActive && commands == old(commands) + [StopForceCharge]
      ensures SettingsUnchanged()
    {
      chargeActive := false;
      commands := commands + [StopForceCharge];
    }

    /** `_eco_start_setup()`, given the plan's charge total and target
        percentage as the battery controller reports them after the
        forecast refresh. */
    method EcoStartSetup(total: Result<real>, perc: Result<real>) returns (r: Result<()>)
      requires window.Valid()
      modifies this
      ensures total.Err? ==> r == Err(total.error) && commands == old(commands) && chargeActive == old(chargeActive) &&
                             ChargeSettingsUnchanged()
      ensures total.Ok? ==> chargeRequired == total.value
      ensures total.Ok? && perc.Err? ==> r == Err(perc.error) && commands == old(commands) && chargeActive == old(chargeActive) &&
                                         percTarget == old(percTarget) && targetChargeAmps == old(targetChargeAmps)
      ensures total.Ok? && perc.Ok? ==>
                percTarget == perc.value && chargeActive && |commands| >= |old(commands)| + 2 &&
                commands[..|old(commands)| + 2] == old(commands) + [StartForceChargeOffPeak, SetMinSoc(originalSoc * 100.0)]
      ensures r.Ok? ==>
                targetChargeAmps <= userChargeAmps &&
                (!(chargeRequired > 0.0 && customProfile) ==> targetChargeAmps == userChargeAmps) &&
                (chargeRequired > 0.0 && customProfile ==>
                   ChargeRate(chargeRequired, batteryVolts, TimeWindow(window)).Ok? &&
                   targetChargeAmps == Min(userChargeAmps, ChargeRate(chargeRequired, batteryVolts, TimeWindow(window)).value)) &&
                commands == old(commands) + [StartForceChargeOffPeak, SetMinSoc(originalSoc * 100.0), SetChargeCurrent(targetChargeAmps)]
      ensures r.Err? && total.Ok? && perc.Ok? ==>
                chargeRequired > 0.0 && customProfile && ChargeRate(chargeRequired, batteryVolts, TimeWindow(window)).Err? &&
                commands == old(commands) + [StartForceChargeOffPeak, SetMinSoc(originalSoc * 100.0)]
      ensures listener == old(listener) && unloadListeners == old(unloadListeners)
      ensures customProfile == old(customProfile) && disable == old(disable) && nextHandle == old(nextHandle)
    {
      if total.Err? {
        return Err(total.error);
      }
      chargeRequired := total.value;
      if perc.Err? {
        return Err(perc.error);
      }
      percTarget := perc.value;

      StartForceCharge();
      commands := commands + [SetMinSoc(originalSoc * 100.0)];

      var w := TimeWindow(window);
      if chargeRequired > 0.0 && customProfile {
        var rate := ChargeRate(chargeRequired, batteryVolts, w);
        if rate.Err? {
          return Err(rate.error);
        }
        targetChargeAmps := Min(userChargeAmps, rate.value);
      } else {
        targetChargeAmps := userChargeAmps;
      }
      commands := commands + [SetChargeCurrent(targetChargeAmps)];
      return Ok(());
    }

    /** `_eco_start()`: set the hold level, start watching the battery
        level, and stop the force charge when nothing is to be charged. */
    method EcoStart()
      modifies this
      ensures listener == Some(old(nextHandle)) && unloadListeners == old(unloadListeners) + [old(nextHandle)]
      ensures nextHandle == old(nextHandle) + 1
      ensures chargeRequired <= 0.0 ==> !chargeActive && commands == old(commands) + [SetMinSoc(percTarget), StopForceCharge]
      ensures chargeRequired > 0.0 ==> chargeActive == old(chargeActive) && commands == old(commands) + [SetMinSoc(percTarget)]
      ensures ChargeSettingsUnchanged() && disable == old(disable)
    {
      commands := commands + [SetMinSoc(percTarget)];
      listener := Some(nextHandle);
      unloadListeners := unloadListeners + [nextHandle];
      nextHandle := nextHandle + 1;
      if chargeRequired <= 0.0 {
        StopForceChargeNow();
      }
    }

    /** `_eco_end()`: stop watching the battery level, re-enable the force
        charge, restore the user's current and release the hold. Fails,
        changing nothing, when no eco start has set a listener. */
    method EcoEnd() returns (r: Result<()>)
      modifies this
      ensures r == Err(Unexpected) <==> old(listener).None?
      ensures r.Err? ==> commands == old(commands) && chargeActive == old(chargeActive) &&
                         unloadListeners == old(unloadListeners)
      ensures listener == old(listener) && ChargeSettingsUnchanged()
      ensures disable == old(disable) && nextHandle == old(nextHandle)
      ensures r.Ok? ==> chargeActive &&
                        unloadListeners == RemoveFirst(old(unloadListeners), old(listener).value) &&
                        commands == old(commands) + [StartForceChargeOffPeak, SetChargeCurrent(userChargeAmps),
                                                     SetMinSoc(originalSoc * 100.0)]
    {
      if listener.None? {
        return Err(Unexpected);
      }
      unloadListeners := RemoveFirst(unloadListeners, listener.value);
      StartForceCharge();
      commands := commands + [SetChargeCurrent(userChargeAmps), SetMinSoc(originalSoc * 100.0)];
      return Ok(());
    }

    /** `_battery_soc_change(...)` with the new state parsed as a number
        (`None` when `float()` fails on it). */
    method BatterySocChange(newState: Option<real>) returns (r: Result<()>)
      modifies this
      ensures newState.None? ==> r == Err(Unexpected) && commands == old(commands) && chargeActive == old(chargeActive)
      ensures newState.Some? ==>
                r.Ok? &&
                chargeActive == NextActive(old(chargeActive), percTarget, newState.value) &&
                commands == old(commands) + SocChangeCommands(old(chargeActive), newState.value)
      ensures ChargeSettingsUnchanged() && disable == old(disable)
      ensures listener == old(listener) && unloadListeners == old(unloadListeners) && nextHandle == old(nextHandle)
    {
      if newState.None? {
        return Err(Unexpected);
      }
      var soc := newState.value;
      if customProfile && soc > 90.0 {
        var amps := StepDownCurrent(userChargeAmps, targetChargeAmps, soc);
        commands := commands + [SetChargeCurrent(amps)];
      }
      if soc >= percTarget && chargeActive {
        if percTarget != 100.0 {
          StopForceChargeNow();
        }
      } else if soc < percTarget - CHARGE_HYSTERESIS && !chargeActive {
        StartForceCharge();
      }
      return Ok(());
    }

    /** All commands one battery-level change issues. */
    function SocChangeCommands(active: bool, soc: real): (cs: seq<Command>)
      reads this
      ensures customProfile && soc > 90.0 ==>
                |cs| >= 1 && cs[0].SetChargeCurrent? && cs[0].amps >= MINIMUM_CHARGE
      ensures !(customProfile && soc > 90.0) ==> cs == HysteresisCommands(active, percTarget, soc)
    {
      (if customProfile && soc > 90.0 then [SetChargeCurrent(StepDownCurrent(userChargeAmps, targetChargeAmps, soc))] else [])
      + HysteresisCommands(active, percTarget, soc)
    }

    /** `unload()`: every handle is cancelled and the list emptied. */
    method Unload()
      modifies this
      ensures unloadListeners == [] && commands == old(commands) && listener == old(listener)
      ensures chargeActive == old(chargeActive) && disable == old(disable)
      ensures ChargeSettingsUnchanged() && nextHandle == old(nextHandle)
    {
      unloadListeners := [];
    }

    /** `set_disable(status)` */
    method SetDisable(status: bool)
      requires window.Valid()
      modifies this
      ensures disable == status
      ensures status ==> unloadListeners == [] && commands == old(commands) + [StopForceCharge]
      ensures !status ==> unloadListeners == old(unloadListeners) + [old(nextHandle), old(nextHandle) + 1, old(nextHandle) + 2] &&
                          commands == old(commands) + [StartForceChargeOffPeak]
      ensures status ==> nextHandle == old(nextHandle)
      ensures !status ==> nextHandle == old(nextHandle) + 3
      ensures chargeActive == old(chargeActive) && listener == old(listener) && ChargeSettingsUnchanged()
    {
      disable := status;
      if status {
        Unload();
        commands := commands + [StopForceCharge];
      } else {
        var _, _, _ := AddListeners();
        commands := commands + [StartForceChargeOffPeak];
      }
    }

    /** `set_custom_charge_profile(status)`: only the profile flag changes. */
    method SetCustomChargeProfile(status: bool)
      modifies this
      ensures customProfile == status
      ensures targetChargeAmps == old(targetChargeAmps) && percTarget == old(percTarget) &&
              chargeRequired == old(chargeRequired)
      ensures chargeActive == old(chargeActive) && commands == old(commands) && disable == old(disable) &&
              listener == old(listener) && unloadListeners == old(unloadListeners) && nextHandle == old(nextHandle)
    {
      customProfile := status;
    }
  }
}

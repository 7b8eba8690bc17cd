/** The base class every simulated device derives from (charger.py). */
module ChargerBase {
  import opened Common

  const START_SOC: real := 0.5
  /** Battery capacity in kWh. */
  const CAPACITY: real := 1.0
  /** Joules per kWh: W times s over this factor is kWh. */
  const JOULES_PER_KWH: real := 3600000.0

  /** The state of charge `_simulate_charging` leaves behind: the old one raised
      by `|power| * recurrence / (CAPACITY * 3600000)` and limited to 1. */
  function SocAfter(soc: real, power: real, recurrence: real): (r: real)
    requires recurrence >= 0.0
    ensures r <= 1.0
    ensures soc <= 1.0 ==> soc <= r
    ensures r == 1.0 || r == soc + Increment(power, recurrence)
  {
    var raised := soc + Increment(power, recurrence);
    if raised > 1.0 then 1.0 else raised
  }

  /** Energy taken in one step, as a fraction of the capacity. */
  function Increment(power: real, recurrence: real): (inc: real)
    requires recurrence >= 0.0
    ensures inc >= 0.0
  {
    Abs(power) * recurrence / (CAPACITY * JOULES_PER_KWH)
  }

  function Abs(x: real): (r: real)
    ensures r >= 0.0 && (r == x || r == -x)
  {
    if x < 0.0 then -x else x
  }

  /** The step is the plain sum while that stays at most 1, and exactly 1 once
      the sum would exceed it. */
  lemma SocAfterExact(soc: real, power: real, recurrence: real)
    requires recurrence >= 0.0
    ensures soc + Increment(power, recurrence) <= 1.0 ==>
              SocAfter(soc, power, recurrence) == soc + Increment(power, recurrence)
    ensures soc + Increment(power, recurrence) > 1.0 ==> SocAfter(soc, power, recurrence) == 1.0
  {
  }

  /** All values one device's snapshot is rendered from. */
  datatype DeviceView = DeviceView(
    sessionStart: int,
    window: Window,
    devMaxI: int,
    reqMaxI: int,
    eTotal: real,
    eSession: real,
    curI: Phases,
    curU: Phases,
    curPower: real,
    nrPhases: int,
    charging: bool)

  class Charger {
    // fields charger.py assigns
    var curPower: real
    var soc: real

    // members the adapters read that no modelled file defines: their values
    // are set by code outside this model
    var sessionStart: int      // _session_start
    var window: Window         // _CHARGING_START, _CHARGING_STOP, _CHARGING_CABLE_CAR_OFF
    var devMaxI: int           // _DEV_MAX_I
    var reqMaxI: int           // req_max_i
    var eTotal: real           // e_total
    var eSession: real         // e_session
    var curI: Phases           // cur_i
    var curU: Phases           // cur_u
    var nrPhases: int          // nr_phases
    var charging: bool         // what is_charging() answers

    /** The state of charge stays within [START_SOC, 1]: it starts at
        START_SOC and only `SimulateCharging` changes it. */
    ghost predicate Valid()
      reads this
    {
      START_SOC <= soc <= 1.0
    }

    function View(): (v: DeviceView)
      reads this
      ensures v.reqMaxI == reqMaxI && v.devMaxI == devMaxI && v.charging == charging
    {
      DeviceView(sessionStart, window, devMaxI, reqMaxI, eTotal, eSession,
                 curI, curU, curPower, nrPhases, charging)
    }

    constructor ()
      ensures Valid()
      ensures curPower == 0.0 && soc == START_SOC
    {
      curPower := 0.0;
      soc := START_SOC;
    }

    /** The periodic tick: this snapshot's `update_state` does nothing. */
    method UpdateState()
      requires Valid()
      ensures Valid() && unchanged(this)
    {
    }

    /** `_simulate_charging(target_power)`, with the class constant
        `MAIN_RECURRENCE` (seconds per tick) as the parameter `recurrence`. */
    method SimulateCharging(targetPower: real, recurrence: real)
      requires Valid()
      requires recurrence >= 0.0
      modifies this`curPower, this`soc
      ensures Valid()
      ensures curPower == targetPower
      ensures soc == SocAfter(old(soc), targetPower, recurrence)
      ensures old(soc) <= soc <= 1.0
    {
      curPower := targetPower;
      soc := soc + Abs(curPower) * recurrence / (CAPACITY * JOULES_PER_KWH);
      if soc > 1.0 {
        soc := 1.0;
      }
    }
  }
}

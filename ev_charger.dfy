/** The bidirectional EV charger (`source/building_network/ev_charger.py`).
    Unlike the battery it reports charging as positive active power, adds
    reactive power `0.2 * r` while charging on AC, and records whether it
    is idle, charging or discharging. */
module EvCharging {
  import opened Wrappers
  import opened Numbers
  import opened Component
  import opened Bookkeeping

  datatype ChargerState = Idle | Charging | Discharging

  /** `EVCharger._validate_inputs`, in the order it runs. */
  function ValidateCharger(maxCharge: real, maxDischarge: real, efficiency: real, capacity: real,
                           soc: real): (o: Outcome)
    ensures o.Pass? <==> ValidParameters(capacity, efficiency, maxCharge, maxDischarge) && 0.0 <= soc <= 1.0
    ensures o.Fail? ==> o.error.ValueError?
    ensures maxCharge < 0.0 || maxDischarge < 0.0 ==> o == Fail(ValueError("charge and discharge power"))
  {
    if maxCharge < 0.0 || maxDischarge < 0.0 then Fail(ValueError("charge and discharge power"))
    else if !(0.0 < efficiency <= 1.0) then Fail(ValueError("efficiency"))
    else if capacity <= 0.0 then Fail(ValueError("ev_capacity"))
    else if !(0.0 <= soc <= 1.0) then Fail(ValueError("soc"))
    else Pass
  }

  datatype ChargerStatus = ChargerStatus(
    base: ComponentStatus, maxChargePower: real, maxDischargePower: real, efficiency: real,
    evCapacity: real, soc: real, state: ChargerState)

  class EVCharger {
    const id: string
    const phaseType: string
    const technology: string
    var busId: string
    var activePower: real
    var reactivePower: real
    var on: bool
    const maxChargePower: real
    const maxDischargePower: real
    const efficiency: real
    const evCapacity: real
    var soc: real
    var state: ChargerState

    ghost predicate Valid()
      reads this
    {
      ValidParameters(evCapacity, efficiency, maxChargePower, maxDischargePower)
    }

    ghost predicate SocInRange()
      reads this
    {
      0.0 <= soc <= 1.0
    }

    constructor (id: string, busId: string, maxChargePower: real, maxDischargePower: real,
                 efficiency: real, evCapacity: real, soc: real, phaseType: string, technology: string, on: bool)
      requires ValidateCharger(maxChargePower, maxDischargePower, efficiency, evCapacity, soc).Pass?
      ensures Valid() && SocInRange() && state == Idle
      ensures this.id == id && this.busId == busId && this.soc == soc && this.evCapacity == evCapacity
      ensures this.maxChargePower == maxChargePower && this.maxDischargePower == maxDischargePower
      ensures this.efficiency == efficiency && this.phaseType == phaseType && this.technology == technology
      ensures this.on == on && activePower == 0.0 && reactivePower == 0.0
    {
      this.id := id;
      this.busId := busId;
      this.maxChargePower := maxChargePower;
      this.maxDischargePower := maxDischargePower;
      this.efficiency := efficiency;
      this.evCapacity := evCapacity;
      this.soc := soc;
      this.phaseType := phaseType;
      this.technology := technology;
      this.on := on;
      state := Idle;
      activePower := 0.0;
      reactivePower := 0.0;
    }

    /** `charge`: when switched off nothing happens and 0 is returned; a
        negative request raises before the state is touched; otherwise the
        state becomes charging first, then the clamped charge step is
        applied. */
    method Charge(power: real, timeStep: real) returns (r: Result<real>)
      requires Valid()
      modifies this`soc, this`activePower, this`reactivePower, this`state
      ensures !on ==> r == Success(0.0) && unchanged(this)
      ensures on && power < 0.0 ==> r.Failure? && r.error.ValueError? && unchanged(this)
      ensures on && power >= 0.0 ==>
        && state == Charging
        && match ChargeStep(old(soc), evCapacity, efficiency, maxChargePower, power, timeStep)
           case Failure(e) =>
             r == Failure(e) && soc == old(soc) && activePower == old(activePower) && reactivePower == old(reactivePower)
           case Success(t) =>
             && r == Success(t.power) && soc == t.soc && activePower == t.power
             && reactivePower == (if technology == "ac" then t.power * 0.2 else 0.0)
      ensures old(SocInRange()) && timeStep >= 0.0 ==> SocInRange()
      ensures on && old(SocInRange()) && power >= 0.0 ==> r.Success?
    {
      if !on {
        return Success(0.0);
      }
      if power < 0.0 {
        return Failure(ValueError("charging power"));
      }
      state := Charging;
      var step := ChargeStep(soc, evCapacity, efficiency, maxChargePower, power, timeStep);
      if SocInRange() {
        ChargeBounds(soc, evCapacity, efficiency, maxChargePower, power, timeStep);
      }
      if step.Failure? {
        return Failure(step.error);
      }
      soc := step.value.soc;
      activePower := step.value.power;
      reactivePower := if technology == "ac" then step.value.power * 0.2 else 0.0;
      r := Success(step.value.power);
    }

    /** `discharge`: like `charge`, with state discharging, the power
        supplied reported as `-r` and reactive power set to 0. */
    method Discharge(power: real, timeStep: real) returns (r: Result<real>)
      requires Valid()
      modifies this`soc, this`activePower, this`reactivePower, this`state
      ensures !on ==> r == Success(0.0) && unchanged(this)
      ensures on && power < 0.0 ==> r.Failure? && r.error.ValueError? && unchanged(this)
      ensures on && power >= 0.0 ==>
        && state == Discharging
        && match DischargeStep(old(soc), evCapacity, efficiency, maxDischargePower, power, timeStep)
           case Failure(e) =>
             r == Failure(e) && soc == old(soc) && activePower == old(activePower) && reactivePower == old(reactivePower)
           case Success(t) =>
             r == Success(t.power) && soc == t.soc && activePower == -t.power && reactivePower == 0.0
      ensures old(SocInRange()) && timeStep >= 0.0 ==> SocInRange()
      ensures on && old(SocInRange()) && power >= 0.0 ==> r.Success?
    {
      if !on {
        return Success(0.0);
      }
      if power < 0.0 {
        return Failure(ValueError("discharging power"));
      }
      state := Discharging;
      var step := DischargeStep(soc, evCapacity, efficiency, maxDischargePower, power, timeStep);
      if SocInRange() {
        DischargeBounds(soc, evCapacity, efficiency, maxDischargePower, power, timeStep);
      }
      if step.Failure? {
        return Failure(step.error);
      }
      soc := step.value.soc;
      activePower := -step.value.power;
      reactivePower := 0.0;
      r := Success(step.value.power);
    }

    /** `set_idle`: state idle and both powers zero; the charge is kept. */
    method SetIdle()
      modifies this`state, this`activePower, this`reactivePower
      ensures state == Idle && activePower == 0.0 && reactivePower == 0.0
    {
      state := Idle;
      activePower := 0.0;
      reactivePower := 0.0;
    }

    /** `get_power`: zero when off, the active power as a float on DC and
        P + jQ otherwise. */
    function GetPower(): (p: Num)
      reads this
      ensures p.R? <==> technology == "dc"
      ensures !on ==> IsZero(p)
      ensures on ==> Re(p) == activePower && Im(p) == (if technology == "dc" then 0.0 else reactivePower)
    {
      PowerOf(on, technology, activePower, reactivePower)
    }

    method ConnectToBus(busId: string)
      modifies this`busId
      ensures this.busId == busId
    {
      this.busId := busId;
    }

    /** `get_status`: the base status plus the device's own fields. */
    function GetStatus(): (st: ChargerStatus)
      reads this
      ensures st.base == BaseStatus(id, on, phaseType, "ev_charger", technology, activePower, reactivePower)
      ensures st.maxChargePower == maxChargePower && st.maxDischargePower == maxDischargePower
              && st.efficiency == efficiency && st.evCapacity == evCapacity && st.soc == soc && st.state == state
    {
      ChargerStatus(BaseStatus(id, on, phaseType, "ev_charger", technology, activePower, reactivePower),
                    maxChargePower, maxDischargePower, efficiency, evCapacity, soc, state)
    }
  }

  /** The constructor: it raises exactly when the charger checks fail. */
  method NewCharger(id: string, busId: string, maxChargePower: real, maxDischargePower: real,
                    efficiency: real, evCapacity: real, soc: real, phaseType: string, technology: string, on: bool)
    returns (r: Result<EVCharger>)
    ensures r.Success? <==> ValidateCharger(maxChargePower, maxDischargePower, efficiency, evCapacity, soc).Pass?
    ensures r.Failure? ==> Fail(r.error) == ValidateCharger(maxChargePower, maxDischargePower, efficiency, evCapacity, soc)
    ensures r.Success? ==> fresh(r.value) && r.value.Valid() && r.value.SocInRange() && r.value.state == Idle
    ensures r.Success? ==> r.value.id == id && r.value.busId == busId && r.value.on == on
    ensures r.Success? ==> r.value.technology == technology && r.value.soc == soc
  {
    var v := ValidateCharger(maxChargePower, maxDischargePower, efficiency, evCapacity, soc);
    if v.Fail? {
      return Failure(v.error);
    }
    var c := new EVCharger(id, busId, maxChargePower, maxDischargePower, efficiency, evCapacity, soc,
                           phaseType, technology, on);
    return Success(c);
  }
}

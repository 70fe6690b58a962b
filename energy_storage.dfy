/** The battery of the building network
    (`source/building_network/energy_storage.py`). Its own checks replace
    the base-class ones, its state of charge is a fraction in [0, 1], and
    charging is reported as negative active power. */
module Storage {
  import opened Wrappers
  import opened Numbers
  import opened Component
  import opened Bookkeeping

  /** `EnergyStorage._validate_inputs`, in the order it runs. */
  function ValidateStorage(soc: real, capacity: real, maxCharge: real, maxDischarge: real,
                           efficiency: real): (o: Outcome)
    ensures o.Pass? <==> 0.0 <= soc <= 1.0 && ValidParameters(capacity, efficiency, maxCharge, maxDischarge)
    ensures o.Fail? ==> o.error.ValueError?
    ensures !(0.0 <= soc <= 1.0) ==> o == Fail(ValueError("soc"))
  {
    if !(0.0 <= soc <= 1.0) then Fail(ValueError("soc"))
    else if capacity <= 0.0 then Fail(ValueError("capacity"))
    else if maxCharge < 0.0 || maxDischarge < 0.0 then Fail(ValueError("charge and discharge power"))
    else if !(0.0 < efficiency <= 1.0) then Fail(ValueError("efficiency"))
    else Pass
  }

  datatype StorageStatus = StorageStatus(
    base: ComponentStatus, capacity: real, soc: real, maxChargePower: real,
    maxDischargePower: real, efficiency: real)

  class EnergyStorage {
    const id: string
    const phaseType: string
    const technology: string
    var busId: string
    var activePower: real
    var reactivePower: real
    var on: bool
    const capacity: real
    const maxChargePower: real
    const maxDischargePower: real
    const efficiency: real
    var soc: real

    /** The parameters are valid, and DC storage holds no reactive power. */
    ghost predicate Valid()
      reads this
    {
      && ValidParameters(capacity, efficiency, maxChargePower, maxDischargePower)
      && (technology == "dc" ==> reactivePower == 0.0)
    }

    ghost predicate SocInRange()
      reads this
    {
      0.0 <= soc <= 1.0
    }

    constructor (id: string, busId: string, capacity: real, soc: real, maxChargePower: real,
                 maxDischargePower: real, efficiency: real, phaseType: string, technology: string, on: bool)
      requires ValidateStorage(soc, capacity, maxChargePower, maxDischargePower, efficiency).Pass?
      ensures Valid() && SocInRange()
      ensures this.id == id && this.busId == busId && this.capacity == capacity && this.soc == soc
      ensures this.maxChargePower == maxChargePower && this.maxDischargePower == maxDischargePower
      ensures this.efficiency == efficiency && this.phaseType == phaseType && this.technology == technology
      ensures this.on == on && activePower == 0.0 && reactivePower == 0.0
    {
      this.id := id;
      this.busId := busId;
      this.capacity := capacity;
      this.soc := soc;
      this.maxChargePower := maxChargePower;
      this.maxDischargePower := maxDischargePower;
      this.efficiency := efficiency;
      this.phaseType := phaseType;
      this.technology := technology;
      this.on := on;
      activePower := 0.0;
      reactivePower := 0.0;
    }

    /** `charge`: when off nothing happens and 0 is returned; a negative
        request raises; otherwise the clamped charge step is applied and the
        power drawn is reported as `-r`. */
    method Charge(power: real, timeStep: real) returns (r: Result<real>)
      requires Valid()
      modifies this`soc, this`activePower, this`reactivePower
      ensures Valid()
      ensures !on ==> r == Success(0.0) && unchanged(this)
      ensures on && power < 0.0 ==> r.Failure? && r.error.ValueError? && unchanged(this)
      ensures on && power >= 0.0 ==>
        match ChargeStep(old(soc), capacity, efficiency, maxChargePower, power, timeStep)
        case Failure(e) => r == Failure(e) && unchanged(this)
        case Success(t) =>
          && r == Success(t.power) && soc == t.soc && activePower == -t.power
          && reactivePower == (if technology == "dc" then 0.0 else old(reactivePower))
      ensures old(SocInRange()) && timeStep >= 0.0 ==> SocInRange()
      ensures on && old(SocInRange()) && power >= 0.0 ==> r.Success?
    {
      if !on {
        return Success(0.0);
      }
      if power < 0.0 {
        return Failure(ValueError("charging power"));
      }
      var step := ChargeStep(soc, capacity, efficiency, maxChargePower, power, timeStep);
      if SocInRange() {
        ChargeBounds(soc, capacity, efficiency, maxChargePower, power, timeStep);
      }
      if step.Failure? {
        return Failure(step.error);
      }
      soc := step.value.soc;
      activePower := -step.value.power;
      reactivePower := if technology == "dc" then 0.0 else reactivePower;
      r := Success(step.value.power);
    }

    /** `discharge`: like `charge`, with the power supplied reported as `+r`. */
    method Discharge(power: real, timeStep: real) returns (r: Result<real>)
      requires Valid()
      modifies this`soc, this`activePower, this`reactivePower
      ensures Valid()
      ensures !on ==> r == Success(0.0) && unchanged(this)
      ensures on && power < 0.0 ==> r.Failure? && r.error.ValueError? && unchanged(this)
      ensures on && power >= 0.0 ==>
        match DischargeStep(old(soc), capacity, efficiency, maxDischargePower, power, timeStep)
        case Failure(e) => r == Failure(e) && unchanged(this)
        case Success(t) =>
          && r == Success(t.power) && soc == t.soc && activePower == t.power
          && reactivePower == (if technology == "dc" then 0.0 else old(reactivePower))
      ensures old(SocInRange()) && timeStep >= 0.0 ==> SocInRange()
      ensures on && old(SocInRange()) && power >= 0.0 ==> r.Success?
    {
      if !on {
        return Success(0.0);
      }
      if power < 0.0 {
        return Failure(ValueError("discharging power"));
      }
      var step := DischargeStep(soc, capacity, efficiency, maxDischargePower, power, timeStep);
      if SocInRange() {
        DischargeBounds(soc, capacity, efficiency, maxDischargePower, power, timeStep);
      }
      if step.Failure? {
        return Failure(step.error);
      }
      soc := step.value.soc;
      activePower := step.value.power;
      reactivePower := if technology == "dc" then 0.0 else reactivePower;
      r := Success(step.value.power);
    }

    /** `get_power`: zero when off, the active power as a float on DC and
        P + jQ otherwise. */
    function GetPower(): (p: Num)
      reads this
      ensures p.R? <==> technology == "dc"
      ensures !on ==> IsZero(p)
      ensures on ==> Re(p) == activePower && Im(p) == (if technology == "dc" then 0.0 else reactivePower)
    {
      PowerOf(on, technology, activePower, reactivePower)
    }

    /** `set_reactive_power`: refused on DC storage. */
    method SetReactivePower(q: real) returns (o: Outcome)
      requires Valid()
      modifies this`reactivePower
      ensures Valid()
      ensures o.Fail? <==> technology == "dc"
      ensures reactivePower == if technology == "dc" then old(reactivePower) else q
    {
      if technology == "dc" {
        return Fail(ValueError("dc storage reactive power"));
      }
      reactivePower := q;
      o := Pass;
    }

    method ConnectToBus(busId: string)
      modifies this`busId
      ensures this.busId == busId
    {
      this.busId := busId;
    }

    /** `get_status`: the base status plus the device's own fields. */
    function GetStatus(): (st: StorageStatus)
      reads this
      ensures st.base == BaseStatus(id, on, phaseType, "storage", technology, activePower, reactivePower)
      ensures st.capacity == capacity && st.soc == soc && st.maxChargePower == maxChargePower
              && st.maxDischargePower == maxDischargePower && st.efficiency == efficiency
    {
      StorageStatus(BaseStatus(id, on, phaseType, "storage", technology, activePower, reactivePower),
                    capacity, soc, maxChargePower, maxDischargePower, efficiency)
    }
  }

  /** The constructor: it raises exactly when the storage checks fail. */
  method NewStorage(id: string, busId: string, capacity: real, soc: real, maxChargePower: real,
                    maxDischargePower: real, efficiency: real, phaseType: string, technology: string, on: bool)
    returns (r: Result<EnergyStorage>)
    ensures r.Success? <==> ValidateStorage(soc, capacity, maxChargePower, maxDischargePower, efficiency).Pass?
    ensures r.Failure? ==> Fail(r.error) == ValidateStorage(soc, capacity, maxChargePower, maxDischargePower, efficiency)
    ensures r.Success? ==> fresh(r.value) && r.value.Valid() && r.value.SocInRange() && r.value.soc == soc
    ensures r.Success? ==> r.value.id == id && r.value.busId == busId && r.value.on == on
    ensures r.Success? ==> r.value.technology == technology && r.value.capacity == capacity
  {
    var v := ValidateStorage(soc, capacity, maxChargePower, maxDischargePower, efficiency);
    if v.Fail? {
      return Failure(v.error);
    }
    var s := new EnergyStorage(id, busId, capacity, soc, maxChargePower, maxDischargePower, efficiency,
                               phaseType, technology, on);
    return Success(s);
  }
}

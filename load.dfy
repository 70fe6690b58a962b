/** A passive load (`source/building_network/load.py`): fixed non-negative
    demand and a flexibility class. Its checks replace the base-class ones,
    so its technology is never validated. */
module Loads {
  import opened Wrappers
  import opened Numbers
  import opened Component

  const FlexibilityTypes: set<string> := {"shiftable", "nonshiftable"}

  /** `Load._validate_inputs`, in the order it runs. The shiftable check
      compares the time with zero, so a negative time is accepted. */
  function ValidateLoad(activePower: real, reactivePower: real, flexibilityType: string,
                        maxShiftableTime: real, phaseType: string): (o: Outcome)
    ensures o.Pass? <==>
      && activePower >= 0.0 && reactivePower >= 0.0
      && flexibilityType in FlexibilityTypes
      && !(flexibilityType == "shiftable" && maxShiftableTime == 0.0)
      && phaseType in PhaseTypes
    ensures o.Fail? ==> o.error.ValueError?
    ensures activePower < 0.0 ==> o == Fail(ValueError("active power"))
  {
    if activePower < 0.0 then Fail(ValueError("active power"))
    else if reactivePower < 0.0 then Fail(ValueError("reactive power"))
    else if flexibilityType !in FlexibilityTypes then Fail(ValueError("flexibility_type"))
    else if flexibilityType == "shiftable" && maxShiftableTime == 0.0 then Fail(ValueError("max_shiftable_time"))
    else if phaseType !in PhaseTypes then Fail(ValueError("phase_type"))
    else Pass
  }

  /** `get_status`: the base status extended by the flexibility fields. */
  datatype LoadStatus = LoadStatus(base: ComponentStatus, flexibilityType: string, maxShiftableTime: real)

  class Load {
    const id: string
    const phaseType: string
    const technology: string
    const activePower: real
    const reactivePower: real
    const on: bool
    const flexibilityType: string
    const maxShiftableTime: real
    var busId: string

    ghost predicate Valid()
    {
      ValidateLoad(activePower, reactivePower, flexibilityType, maxShiftableTime, phaseType).Pass?
    }

    constructor (id: string, busId: string, activePower: real, reactivePower: real, on: bool,
                 flexibilityType: string, maxShiftableTime: real, technology: string, phaseType: string)
      requires ValidateLoad(activePower, reactivePower, flexibilityType, maxShiftableTime, phaseType).Pass?
      ensures Valid()
      ensures this.id == id && this.busId == busId && this.activePower == activePower
      ensures this.reactivePower == reactivePower && this.on == on && this.flexibilityType == flexibilityType
      ensures this.maxShiftableTime == maxShiftableTime && this.technology == technology && this.phaseType == phaseType
    {
      this.id := id;
      this.busId := busId;
      this.activePower := activePower;
      this.reactivePower := reactivePower;
      this.on := on;
      this.flexibilityType := flexibilityType;
      this.maxShiftableTime := maxShiftableTime;
      this.technology := technology;
      this.phaseType := phaseType;
    }

    /** The inherited `get_power`: a demand is reported with a positive sign. */
    /** `get_power`: zero when off, the active power as a float on DC and
        P + jQ otherwise. */
    function GetPower(): (p: Num)
      ensures p.R? <==> technology == "dc"
      ensures !on ==> IsZero(p)
      ensures on ==> Re(p) == activePower && Im(p) == (if technology == "dc" then 0.0 else reactivePower)
    {
      PowerOf(on, technology, activePower, reactivePower)
    }

    method ConnectToBus(busId: string)
      modifies this`busId
      ensures this.busId == busId
    {
      this.busId := busId;
    }

    function GetStatus(): (st: LoadStatus)
      ensures st.base == BaseStatus(id, on, phaseType, "load", technology, activePower, reactivePower)
      ensures st.flexibilityType == flexibilityType && st.maxShiftableTime == maxShiftableTime
    {
      LoadStatus(BaseStatus(id, on, phaseType, "load", technology, activePower, reactivePower),
                 flexibilityType, maxShiftableTime)
    }
  }

  /** A valid load that is on never lowers the active part of a bus sum:
      its reported active power is its non-negative demand. */
  lemma LoadPowerNonNegative(on: bool, technology: string, p: real, q: real, flex: string, t: real, phase: string)
    requires ValidateLoad(p, q, flex, t, phase).Pass?
    ensures Re(PowerOf(on, technology, p, q)) >= 0.0
    ensures technology != "dc" ==> Im(PowerOf(on, technology, p, q)) >= 0.0
  {
  }

  /** The constructor: it raises exactly when the load checks fail; the
      technology is accepted whatever it is. */
  method NewLoad(id: string, busId: string, activePower: real, reactivePower: real, on: bool,
                 flexibilityType: string, maxShiftableTime: real, technology: string, phaseType: string)
    returns (r: Result<Load>)
    ensures r.Success? <==> ValidateLoad(activePower, reactivePower, flexibilityType, maxShiftableTime, phaseType).Pass?
    ensures r.Failure? ==> Fail(r.error) == ValidateLoad(activePower, reactivePower, flexibilityType, maxShiftableTime, phaseType)
    ensures r.Success? ==> fresh(r.value) && r.value.Valid() && r.value.id == id && r.value.busId == busId
    ensures r.Success? ==> r.value.technology == technology && r.value.activePower == activePower && r.value.on == on
  {
    var v := ValidateLoad(activePower, reactivePower, flexibilityType, maxShiftableTime, phaseType);
    if v.Fail? {
      return Failure(v.error);
    }
    var l := new Load(id, busId, activePower, reactivePower, on, flexibilityType, maxShiftableTime,
                      technology, phaseType);
    return Success(l);
  }
}

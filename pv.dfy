/** The photovoltaic generator (`source/building_network/pv.py`): output
    proportional to panel area, irradiance and efficiency, capped at the
    rated maximum. */
module Photovoltaics {
  import opened Wrappers
  import opened Numbers
  import opened Component

  /** `PV._validate_inputs`, in the order it runs. */
  function ValidatePv(maxPower: real, efficiency: real, area: real): (o: Outcome)
    ensures o.Pass? <==> maxPower >= 0.0 && 0.0 < efficiency <= 1.0 && area > 0.0
    ensures o.Fail? ==> o.error.ValueError?
    ensures maxPower < 0.0 ==> o == Fail(ValueError("max_power"))
  {
    if maxPower < 0.0 then Fail(ValueError("max_power"))
    else if !(0.0 < efficiency <= 1.0) then Fail(ValueError("efficiency"))
    else if area <= 0.0 then Fail(ValueError("area"))
    else Pass
  }

  /** The generated power `min(area * irradiance * efficiency, max_power)`:
      never above the maximum, equal to the potential when that fits, and
      non-negative for valid parameters and irradiance. */
  function PvOutput(area: real, efficiency: real, maxPower: real, irradiance: real): (p: real)
    ensures p <= maxPower
    ensures area * irradiance * efficiency <= maxPower ==> p == area * irradiance * efficiency
    ensures area * irradiance * efficiency > maxPower ==> p == maxPower
    ensures ValidatePv(maxPower, efficiency, area).Pass? && irradiance >= 0.0 ==> 0.0 <= p
  {
    assert irradiance >= 0.0 && area > 0.0 ==> area * irradiance >= 0.0;
    assert area * irradiance >= 0.0 && efficiency > 0.0 ==> area * irradiance * efficiency >= 0.0;
    Min(area * irradiance * efficiency, maxPower)
  }

  /** More sunlight never yields less power. */
  lemma PvOutputMonotone(area: real, efficiency: real, maxPower: real, low: real, high: real)
    requires ValidatePv(maxPower, efficiency, area).Pass?
    requires low <= high
    ensures PvOutput(area, efficiency, maxPower, low) <= PvOutput(area, efficiency, maxPower, high)
  {
    assert area * low <= area * high;
    assert area * low * efficiency <= area * high * efficiency;
  }

  datatype PvStatus = PvStatus(base: ComponentStatus, maxPower: real, efficiency: real, area: real,
                               currentIrradiance: real)

  class PV {
    const id: string
    const phaseType: string
    const technology: string
    var busId: string
    var activePower: real
    var reactivePower: real
    var on: bool
    const maxPower: real
    const efficiency: real
    const area: real
    var currentIrradiance: real

    ghost predicate Valid()
      reads this
    {
      ValidatePv(maxPower, efficiency, area).Pass?
    }

    constructor (id: string, busId: string, maxPower: real, efficiency: real, area: real,
                 phaseType: string, technology: string, on: bool)
      requires ValidatePv(maxPower, efficiency, area).Pass?
      ensures Valid() && currentIrradiance == 0.0 && activePower == 0.0 && reactivePower == 0.0
      ensures this.id == id && this.busId == busId && this.maxPower == maxPower && this.efficiency == efficiency
      ensures this.area == area && this.phaseType == phaseType && this.technology == technology && this.on == on
    {
      this.id := id;
      this.busId := busId;
      this.maxPower := maxPower;
      this.efficiency := efficiency;
      this.area := area;
      this.phaseType := phaseType;
      this.technology := technology;
      this.on := on;
      currentIrradiance := 0.0;
      activePower := 0.0;
      reactivePower := 0.0;
    }

    /** `generate_power`: when off nothing changes and 0 is returned; a
        negative irradiance raises; otherwise the irradiance is recorded, the
        active power becomes the capped output, reactive power 0, and the
        output is returned. */
    method GeneratePower(irradiance: real) returns (r: Result<real>)
      modifies this`currentIrradiance, this`activePower, this`reactivePower
      ensures !on ==> r == Success(0.0) && unchanged(this)
      ensures on && irradiance < 0.0 ==> r.Failure? && r.error.ValueError? && unchanged(this)
      ensures on && irradiance >= 0.0 ==>
        && currentIrradiance == irradiance
        && activePower == PvOutput(area, efficiency, maxPower, irradiance)
        && reactivePower == 0.0
        && r == Success(activePower)
      ensures Valid() && on && irradiance >= 0.0 ==> 0.0 <= activePower <= maxPower
    {
      if !on {
        return Success(0.0);
      }
      if irradiance < 0.0 {
        return Failure(ValueError("irradiance"));
      }
      currentIrradiance := irradiance;
      activePower := PvOutput(area, efficiency, maxPower, currentIrradiance);
      reactivePower := 0.0;
      r := Success(activePower);
    }

    /** `get_power`: zero when off, the active power as a float on DC and
        P + jQ otherwise. */
    function GetPower(): (p: Num)
      reads this
      ensures p.R? <==> technology == "dc"
      ensures !on ==> IsZero(p)
      ensures on ==> Re(p) == activePower && Im(p) == (if technology == "dc" then 0.0 else reactivePower)
    {
      PowerOf(on, technology, activePower, reactivePower)
    }

    method ConnectToBus(busId: string)
      modifies this`busId
      ensures this.busId == busId
    {
      this.busId := busId;
    }

    /** `get_status`: the base status plus the device's own fields. */
    function GetStatus(): (st: PvStatus)
      reads this
      ensures st.base == BaseStatus(id, on, phaseType, "generator", technology, activePower, reactivePower)
      ensures st.maxPower == maxPower && st.efficiency == efficiency && st.area == area
              && st.currentIrradiance == currentIrradiance
    {
      PvStatus(BaseStatus(id, on, phaseType, "generator", technology, activePower, reactivePower),
               maxPower, efficiency, area, currentIrradiance)
    }
  }

  /** The constructor: it raises exactly when the PV checks fail. */
  method NewPv(id: string, busId: string, maxPower: real, efficiency: real, area: real,
               phaseType: string, technology: string, on: bool)
    returns (r: Result<PV>)
    ensures r.Success? <==> ValidatePv(maxPower, efficiency, area).Pass?
    ensures r.Failure? ==> Fail(r.error) == ValidatePv(maxPower, efficiency, area)
    ensures r.Success? ==> fresh(r.value) && r.value.Valid() && r.value.id == id && r.value.busId == busId
    ensures r.Success? ==> r.value.on == on && r.value.technology == technology && r.value.activePower == 0.0
  {
    var v := ValidatePv(maxPower, efficiency, area);
    if v.Fail? {
      return Failure(v.error);
    }
    var p := new PV(id, busId, maxPower, efficiency, area, phaseType, technology, on);
    return Success(p);
  }
}

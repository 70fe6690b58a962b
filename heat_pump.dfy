/** The heat pump (`source/building_network/heat_pump.py`): electrical
    power is a fraction of the rated power, thermal output is that times
    the coefficient of performance, positive when heating and negative when
    cooling. */
module HeatPumps {
  import opened Wrappers
  import opened Numbers
  import opened Component

  const Modes: set<string> := {"heating", "cooling"}

  /** `HeatPump._validate_inputs`, in the order it runs. */
  function ValidatePump(ratedPower: real, cop: real, mode: string): (o: Outcome)
    ensures o.Pass? <==> ratedPower >= 0.0 && cop > 0.0 && mode in Modes
    ensures o.Fail? ==> o.error.ValueError?
    ensures ratedPower >= 0.0 && cop > 0.0 && mode !in Modes ==> o == Fail(ValueError("mode"))
  {
    if ratedPower < 0.0 then Fail(ValueError("rated_power"))
    else if cop <= 0.0 then Fail(ValueError("cop"))
    else if mode !in Modes then Fail(ValueError("mode"))
    else Pass
  }

  /** The value `set_operating_condition` returns: negated only in mode
      "cooling". */
  function ReturnedThermal(mode: string, activePower: real, cop: real): real
  {
    if mode == "cooling" then -(activePower * cop) else activePower * cop
  }

  /** `get_thermal_output` while on: positive only in mode "heating". */
  function ReportedThermal(mode: string, activePower: real, cop: real): real
  {
    if mode == "heating" then activePower * cop else -(activePower * cop)
  }

  /** The two thermal readings agree exactly when the mode is a valid one
      or the output is zero; a mode left invalid by `set_mode` makes them
      disagree in sign. */
  lemma ThermalReadingsAgree(mode: string, activePower: real, cop: real)
    ensures ReturnedThermal(mode, activePower, cop) == ReportedThermal(mode, activePower, cop)
            <==> mode in Modes || activePower * cop == 0.0
  {
    if mode !in Modes {
      assert ReturnedThermal(mode, activePower, cop) == activePower * cop;
      assert ReportedThermal(mode, activePower, cop) == -(activePower * cop);
    }
  }

  /** A fraction of a non-negative rating lies between zero and the rating. */
  lemma FractionBounds(rated: real, fraction: real)
    requires rated >= 0.0 && 0.0 <= fraction <= 1.0
    ensures 0.0 <= rated * fraction <= rated
  {
    assert rated * fraction <= rated * 1.0;
  }

  datatype PumpStatus = PumpStatus(base: ComponentStatus, ratedPower: real, cop: real, mode: string,
                                   thermalOutput: real)

  class HeatPump {
    const id: string
    const phaseType: string
    const technology: string
    var busId: string
    var activePower: real
    var reactivePower: real
    var on: bool
    const ratedPower: real
    const cop: real
    var mode: string

    /** The parameters the constructor validated; the mode is not part of
        it, since `set_mode` can leave an invalid one behind. */
    ghost predicate Valid()
      reads this
    {
      ratedPower >= 0.0 && cop > 0.0
    }

    constructor (id: string, busId: string, ratedPower: real, cop: real, mode: string,
                 phaseType: string, technology: string, on: bool)
      requires ValidatePump(ratedPower, cop, mode).Pass?
      ensures Valid() && mode in Modes && activePower == 0.0 && reactivePower == 0.0
      ensures this.id == id && this.busId == busId && this.ratedPower == ratedPower && this.cop == cop
      ensures this.mode == mode && this.phaseType == phaseType && this.technology == technology && this.on == on
    {
      this.id := id;
      this.busId := busId;
      this.ratedPower := ratedPower;
      this.cop := cop;
      this.mode := mode;
      this.phaseType := phaseType;
      this.technology := technology;
      this.on := on;
      activePower := 0.0;
      reactivePower := 0.0;
    }

    /** `get_thermal_output`. */
    /** `get_thermal_output`: 0 when off; otherwise the electrical power
        times the COP, positive when heating and negated in any other mode. */
    function GetThermalOutput(): (t: real)
      reads this
      ensures !on ==> t == 0.0
      ensures on && mode == "heating" ==> t == activePower * cop
      ensures on && mode != "heating" ==> t == -(activePower * cop)
    {
      if !on then 0.0 else ReportedThermal(mode, activePower, cop)
    }

    /** `set_operating_condition`: when off nothing changes and 0 is
        returned; a fraction outside [0, 1] raises; otherwise the active
        power becomes `rated_power * fraction`, an AC pump with no reactive
        power yet gets `0.2 * active`, and the thermal output is returned,
        which is what `get_thermal_output` reports unless the mode is
        invalid. */
    method SetOperatingCondition(fraction: real) returns (r: Result<real>)
      modifies this`activePower, this`reactivePower
      ensures !on ==> r == Success(0.0) && unchanged(this)
      ensures on && !(0.0 <= fraction <= 1.0) ==> r.Failure? && r.error.ValueError? && unchanged(this)
      ensures on && 0.0 <= fraction <= 1.0 ==>
        && activePower == ratedPower * fraction
        && reactivePower == (if technology == "ac" && old(reactivePower) == 0.0 then activePower * 0.2 else old(reactivePower))
        && r == Success(ReturnedThermal(mode, activePower, cop))
        && (r.value == GetThermalOutput() <==> mode in Modes || activePower * cop == 0.0)
      ensures Valid() && on && 0.0 <= fraction <= 1.0 ==> 0.0 <= activePower <= ratedPower
    {
      if !on {
        return Success(0.0);
      }
      if !(0.0 <= fraction <= 1.0) {
        return Failure(ValueError("power_fraction"));
      }
      var drawn := ratedPower * fraction;
      if ratedPower >= 0.0 {
        FractionBounds(ratedPower, fraction);
        assert ratedPower * fraction <= ratedPower;
        assert drawn <= ratedPower;
      }
      activePower := drawn;
      if technology == "ac" && reactivePower == 0.0 {
        reactivePower := activePower * 0.2;
      }
      ThermalReadingsAgree(mode, activePower, cop);
      r := Success(ReturnedThermal(mode, activePower, cop));
    }

    /** `set_mode`: the mode is overwritten first and the full validation
        runs afterwards, so an invalid mode raises but stays. */
    method SetMode(m: string) returns (o: Outcome)
      modifies this`mode
      ensures mode == m
      ensures o == ValidatePump(ratedPower, cop, m)
      ensures Valid() ==> (o.Pass? <==> m in Modes)
    {
      mode := m;
      o := ValidatePump(ratedPower, cop, mode);
    }

    /** `get_power`: zero when off, the active power as a float on DC and
        P + jQ otherwise. */
    function GetPower(): (p: Num)
      reads this
      ensures p.R? <==> technology == "dc"
      ensures !on ==> IsZero(p)
      ensures on ==> Re(p) == activePower && Im(p) == (if technology == "dc" then 0.0 else reactivePower)
    {
      PowerOf(on, technology, activePower, reactivePower)
    }

    method ConnectToBus(busId: string)
      modifies this`busId
      ensures this.busId == busId
    {
      this.busId := busId;
    }

    /** `get_status`: the base status plus the device's own fields. */
    function GetStatus(): (st: PumpStatus)
      reads this
      ensures st.base == BaseStatus(id, on, phaseType, "heat_pump", technology, activePower, reactivePower)
      ensures st.ratedPower == ratedPower && st.cop == cop && st.mode == mode
              && st.thermalOutput == GetThermalOutput()
    {
      PumpStatus(BaseStatus(id, on, phaseType, "heat_pump", technology, activePower, reactivePower),
                 ratedPower, cop, mode, GetThermalOutput())
    }
  }

  /** The constructor: it raises exactly when the heat-pump checks fail. */
  method NewHeatPump(id: string, busId: string, ratedPower: real, cop: real, mode: string,
                     phaseType: string, technology: string, on: bool)
    returns (r: Result<HeatPump>)
    ensures r.Success? <==> ValidatePump(ratedPower, cop, mode).Pass?
    ensures r.Failure? ==> Fail(r.error) == ValidatePump(ratedPower, cop, mode)
    ensures r.Success? ==> fresh(r.value) && r.value.Valid() && r.value.mode == mode && r.value.id == id
    ensures r.Success? ==> r.value.busId == busId && r.value.on == on && r.value.technology == technology
  {
    var v := ValidatePump(ratedPower, cop, mode);
    if v.Fail? {
      return Failure(v.error);
    }
    var h := new HeatPump(id, busId, ratedPower, cop, mode, phaseType, technology, on);
    return Success(h);
  }
}

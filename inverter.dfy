/** The two-sided inverter (`source/building_network/inverter.py`). It
    joins an input bus and an output bus, converts the input active power
    with an efficiency factor and reports power per side. */
module Inverters {
  import opened Wrappers
  import opened Numbers
  import opened Component

  /** Construction-time checks: the base checks (run with phase "single",
      type "inverter", the input technology and no reactive power), then
      `_validate_technologies`. The input check there repeats a base check
      and its AC phase-type check cannot fail, as the phase is "single". */
  function ValidateInverter(inputTechnology: string, outputTechnology: string): (o: Outcome)
    ensures o.Pass? <==> inputTechnology in Technologies && outputTechnology in Technologies
    ensures o.Fail? ==> o.error.ValueError?
    ensures inputTechnology in Technologies && outputTechnology !in Technologies ==>
              o == Fail(ValueError("output_technology"))
  {
    var base := ValidateBase("single", inputTechnology, "inverter", 0.0);
    if base.Fail? then base
    else if inputTechnology !in Technologies then Fail(ValueError("input_technology"))
    else if outputTechnology !in Technologies then Fail(ValueError("output_technology"))
    else Pass
  }

  /** `input_active_power * efficiency * direction`, with `direction` the
      sign of the input power. */
  function ConvertedPower(p: real, efficiency: real): (out: real)
  {
    p * efficiency * (if p >= 0.0 then 1.0 else -1.0)
  }

  /** The conversion discards the direction of flow: the output active
      power is `|p| * efficiency`, never negative, and never larger than
      the input magnitude for an efficiency in [0, 1]. */
  lemma ConvertedPowerIsMagnitude(p: real, efficiency: real)
    ensures ConvertedPower(p, efficiency) == Abs(p) * efficiency
    ensures efficiency >= 0.0 ==> ConvertedPower(p, efficiency) >= 0.0
    ensures 0.0 <= efficiency <= 1.0 ==> ConvertedPower(p, efficiency) <= Abs(p)
  {
    if p < 0.0 {
      assert p * efficiency * -1.0 == (-p) * efficiency;
    }
    if 0.0 <= efficiency <= 1.0 {
      assert Abs(p) * efficiency <= Abs(p) * 1.0;
    }
  }

  class Inverter {
    const id: string
    const inputTechnology: string
    const outputTechnology: string
    const efficiency: real
    const maxPower: real
    var busId: string
    var inputBusId: string
    var outputBusId: string
    var on: bool
    var inputActivePower: real
    var inputReactivePower: real
    var outputActivePower: real
    var outputReactivePower: real

    /** What construction establishes and every setter keeps: valid
        technologies, and no reactive power on a DC output. */
    ghost predicate Valid()
      reads this
    {
      && ValidateInverter(inputTechnology, outputTechnology).Pass?
      && (outputTechnology == "dc" ==> outputReactivePower == 0.0)
    }

    constructor (id: string, inputBusId: string, outputBusId: string, inputTechnology: string,
                 outputTechnology: string, efficiency: real, maxPower: real, on: bool)
      requires ValidateInverter(inputTechnology, outputTechnology).Pass?
      ensures Valid()
      ensures this.id == id && busId == inputBusId && this.inputBusId == inputBusId && this.outputBusId == outputBusId
      ensures this.inputTechnology == inputTechnology && this.outputTechnology == outputTechnology
      ensures this.efficiency == efficiency && this.maxPower == maxPower && this.on == on
      ensures inputActivePower == 0.0 && inputReactivePower == 0.0
      ensures outputActivePower == 0.0 && outputReactivePower == 0.0
    {
      this.id := id;
      busId := inputBusId;
      this.inputBusId := inputBusId;
      this.outputBusId := outputBusId;
      this.inputTechnology := inputTechnology;
      this.outputTechnology := outputTechnology;
      this.efficiency := efficiency;
      this.maxPower := maxPower;
      this.on := on;
      inputActivePower := 0.0;
      inputReactivePower := 0.0;
      outputActivePower := 0.0;
      outputReactivePower := 0.0;
    }

    /** `set_input_power`. An input beyond the limit is refused before
        anything changes. The active input is written next, so a DC input
        with reactive power is refused after that write. Otherwise the
        output active power becomes `|p| * efficiency`, and the output
        reactive power is kept; the final DC-output check cannot fail on a
        valid inverter. */
    method SetInputPower(p: real, q: real) returns (o: Outcome)
      modifies this`inputActivePower, this`inputReactivePower, this`outputActivePower
      ensures Abs(p) > maxPower ==> o.Fail? && unchanged(this)
      ensures Abs(p) <= maxPower ==> inputActivePower == p
      ensures Abs(p) <= maxPower && inputTechnology != "ac" && q != 0.0 ==>
        o.Fail? && inputReactivePower == old(inputReactivePower) && outputActivePower == old(outputActivePower)
      ensures Abs(p) <= maxPower && (inputTechnology == "ac" || q == 0.0) ==>
        && inputReactivePower == (if inputTechnology == "ac" then q else old(inputReactivePower))
        && outputActivePower == ConvertedPower(p, efficiency)
        && (o.Fail? <==> outputTechnology != "ac" && outputReactivePower != 0.0)
      ensures o.Fail? ==> o.error.ValueError?
      ensures outputReactivePower == old(outputReactivePower)
      ensures old(Valid()) ==> Valid() && (o.Pass? <==> Abs(p) <= maxPower && (inputTechnology == "ac" || q == 0.0))
    {
      if Abs(p) > maxPower {
        return Fail(ValueError("input active power exceeds max_power"));
      }
      inputActivePower := p;
      if inputTechnology == "ac" {
        inputReactivePower := q;
      } else if q != 0.0 {
        return Fail(ValueError("dc input reactive power"));
      }
      outputActivePower := ConvertedPower(inputActivePower, efficiency);
      if outputTechnology != "ac" && outputReactivePower != 0.0 {
        return Fail(ValueError("dc output reactive power"));
      }
      o := Pass;
    }

    /** `set_output_reactive_power`: refused on a DC output. */
    method SetOutputReactivePower(q: real) returns (o: Outcome)
      modifies this`outputReactivePower
      ensures o.Fail? <==> outputTechnology == "dc"
      ensures outputReactivePower == if outputTechnology == "dc" then old(outputReactivePower) else q
      ensures old(Valid()) ==> Valid()
    {
      if outputTechnology == "dc" {
        return Fail(ValueError("dc output reactive power"));
      }
      outputReactivePower := q;
      o := Pass;
    }

    /** The side test both `get_power` and `get_current` use to pick a
        float over a complex zero. */
    predicate SideIsDc(side: string)
    {
      (side == "input" && inputTechnology == "dc") || (side == "output" && outputTechnology == "dc")
    }

    function SideZero(side: string): (z: Num)
      ensures IsZero(z) && (z.R? <==> SideIsDc(side))
    {
      if SideIsDc(side) then R(0.0) else C(0.0, 0.0)
    }

    /** The power of one valid side while switched on. */
    function SidePower(input: bool): Num
      reads this
    {
      if input then PowerOf(true, inputTechnology, inputActivePower, inputReactivePower)
      else PowerOf(true, outputTechnology, outputActivePower, outputReactivePower)
    }

    /** `get_power(side)`: a switched-off inverter reports its side's zero
        for any side, even an invalid one; otherwise the input or output
        pair is reported and any other side raises. */
    function GetPower(side: string): (r: Result<Num>)
      reads this
      ensures r.Failure? <==> on && side != "input" && side != "output"
      ensures r.Failure? ==> r.error.ValueError?
      ensures !on ==> r == Success(SideZero(side))
      ensures on && side == "input" ==>
        r.Success? && (r.value.R? <==> inputTechnology == "dc")
        && Re(r.value) == inputActivePower && Im(r.value) == (if inputTechnology == "dc" then 0.0 else inputReactivePower)
      ensures on && side == "output" ==>
        r.Success? && (r.value.R? <==> outputTechnology == "dc")
        && Re(r.value) == outputActivePower && Im(r.value) == (if outputTechnology == "dc" then 0.0 else outputReactivePower)
    {
      if !on then Success(SideZero(side))
      else if side == "input" then Success(SidePower(true))
      else if side == "output" then Success(SidePower(false))
      else Failure(ValueError("side"))
    }

    /** `get_current(voltage, side)`: zero when off or at zero voltage (for
        any side); otherwise an invalid side raises, and the current times
        the voltage (DC side) or its conjugate (AC side) gives back the
        side's power. */
    function GetCurrent(voltage: Num, side: string): (r: Result<Num>)
      reads this
      ensures r.Failure? <==> on && !IsZero(voltage) && side != "input" && side != "output"
      ensures !on || IsZero(voltage) ==> r == Success(SideZero(side))
      ensures r.Success? && on && !IsZero(voltage) ==>
        var v := if SideIsDc(side) then voltage else Conj(voltage);
        var s := GetPower(side).value;
        Re(Mul(r.value, v)) == Re(s) && Im(Mul(r.value, v)) == Im(s)
    {
      if !on || IsZero(voltage) then Success(SideZero(side))
      else if side == "input" then
        Success(CurrentOf(true, inputTechnology, inputActivePower, inputReactivePower, voltage))
      else if side == "output" then
        Success(CurrentOf(true, outputTechnology, outputActivePower, outputReactivePower, voltage))
      else Failure(ValueError("side"))
    }

    /** `connect_to_bus(bus, side)`: the input side also moves the base
        `bus`; any side other than input or output raises. */
    method ConnectToBus(busId: string, side: string) returns (o: Outcome)
      modifies this`busId, this`inputBusId, this`outputBusId
      ensures o.Fail? <==> side != "input" && side != "output"
      ensures side == "input" ==> inputBusId == busId && this.busId == busId && outputBusId == old(outputBusId)
      ensures side == "output" ==> outputBusId == busId && this.busId == old(this.busId) && inputBusId == old(inputBusId)
      ensures o.Fail? ==> unchanged(this)
    {
      if side == "input" {
        inputBusId := busId;
        this.busId := busId;
      } else if side == "output" {
        outputBusId := busId;
      } else {
        return Fail(ValueError("side"));
      }
      o := Pass;
    }
  }

  /** A successful `set_input_power` leaves a non-negative output active
      power no larger than the input, whatever the direction of the input. */
  lemma OutputNeverNegative(p: real, efficiency: real)
    requires 0.0 <= efficiency <= 1.0
    ensures 0.0 <= ConvertedPower(p, efficiency) <= Abs(p)
    ensures ConvertedPower(p, efficiency) == ConvertedPower(-p, efficiency)
  {
    ConvertedPowerIsMagnitude(p, efficiency);
    ConvertedPowerIsMagnitude(-p, efficiency);
  }

  /** The constructor: it raises exactly when the technologies are invalid. */
  method NewInverter(id: string, inputBusId: string, outputBusId: string, inputTechnology: string,
                     outputTechnology: string, efficiency: real, maxPower: real, on: bool)
    returns (r: Result<Inverter>)
    ensures r.Success? <==> ValidateInverter(inputTechnology, outputTechnology).Pass?
    ensures r.Failure? ==> Fail(r.error) == ValidateInverter(inputTechnology, outputTechnology)
    ensures r.Success? ==> fresh(r.value) && r.value.Valid() && r.value.id == id
    ensures r.Success? ==> r.value.inputBusId == inputBusId && r.value.outputBusId == outputBusId
    ensures r.Success? ==> r.value.inputTechnology == inputTechnology && r.value.outputTechnology == outputTechnology
    ensures r.Success? ==> r.value.on == on && r.value.efficiency == efficiency && r.value.maxPower == maxPower
  {
    var v := ValidateInverter(inputTechnology, outputTechnology);
    if v.Fail? {
      return Failure(v.error);
    }
    var i := new Inverter(id, inputBusId, outputBusId, inputTechnology, outputTechnology, efficiency, maxPower, on);
    return Success(i);
  }
}

/** A line between two buses (`source/building_network/line.py`): its
    impedance, its copper loss for a given current, and the side it is
    attached on. */
module Lines {
  import opened Wrappers
  import opened Numbers
  import opened Component
  import opened Buses

  /** The reactance the constructor stores: the argument on an "ac" line,
      0 on any other. */
  function StoredReactance(technology: string, reactance: real): real
  {
    if technology == "ac" then reactance else 0.0
  }

  /** `Line._validate_inputs`, in the order it runs, on the stored values
      and the technology and phase type of both buses. */
  function ValidateLine(technology: string, phaseType: string, length: real, resistance: real, reactance: real,
                        fromTechnology: string, fromPhase: string, toTechnology: string, toPhase: string): (o: Outcome)
    ensures o.Pass? <==>
      && technology in Technologies && phaseType in PhaseTypes
      && !(technology == "dc" && phaseType == "three")
      && !(technology == "dc" && reactance != 0.0)
      && length > 0.0 && resistance >= 0.0 && reactance >= 0.0
      && fromTechnology == technology && toTechnology == technology
      && fromPhase == phaseType && toPhase == phaseType
    ensures o.Fail? ==> o.error.ValueError?
  {
    if technology !in Technologies then Fail(ValueError("technology"))
    else if phaseType !in PhaseTypes then Fail(ValueError("phase_type"))
    else if technology == "dc" && phaseType == "three" then Fail(ValueError("dc three-phase"))
    else if technology == "dc" && reactance != 0.0 then Fail(ValueError("dc reactance"))
    else if length <= 0.0 then Fail(ValueError("length"))
    else if resistance < 0.0 then Fail(ValueError("resistance"))
    else if reactance < 0.0 then Fail(ValueError("reactance"))
    else if fromTechnology != technology || toTechnology != technology then Fail(ValueError("bus technology"))
    else if fromPhase != phaseType || toPhase != phaseType then Fail(ValueError("bus phase_type"))
    else Pass
  }

  /** Since any line that is not "ac" stores reactance 0, the DC-reactance
      check never raises and a negative reactance argument is refused only
      on an AC line: validation of the stored values passes exactly when
      the checks that do not mention reactance pass and, on an AC line, the
      reactance is non-negative. */
  lemma StoredReactanceChecks(technology: string, phaseType: string, length: real, resistance: real,
                              reactance: real, ft: string, fp: string, tt: string, tp: string)
    ensures var o := ValidateLine(technology, phaseType, length, resistance,
                                  StoredReactance(technology, reactance), ft, fp, tt, tp);
      && o != Fail(ValueError("dc reactance"))
      && (o.Pass? <==>
           && technology in Technologies && phaseType in PhaseTypes
           && !(technology == "dc" && phaseType == "three")
           && length > 0.0 && resistance >= 0.0 && (technology == "ac" ==> reactance >= 0.0)
           && ft == technology && tt == technology && fp == phaseType && tp == phaseType)
  {
  }

  /** The squared current magnitude the loss uses: `abs(current) ** 2` for
      a complex current, `current ** 2` for a float. */
  function CurrentSquared(current: Num): (m: real)
    ensures m == Abs2(current)
    ensures m >= 0.0 && (m == 0.0 <==> IsZero(current))
  {
    if current.C? then Abs2(current) else current.x * current.x
  }

  datatype LineStatus = LineStatus(
    id: string, busFrom: string, busTo: string, length: real, resistance: real,
    reactance: Option<real>, phaseType: string, technology: string, impedance: Num)

  class Line {
    const id: string
    var busFrom: Bus
    var busTo: Bus
    /** The bus last given to `connect_to_bus`, whatever the side. */
    var bus: Option<Bus>
    const length: real
    const resistance: real
    const reactance: real
    const phaseType: string
    const technology: string

    /** What construction established; bus technologies and phase types
        are not kept, since `connect_to_bus` takes any bus. */
    ghost predicate Valid()
      reads this
    {
      && technology in Technologies && phaseType in PhaseTypes
      && !(technology == "dc" && phaseType == "three")
      && (technology != "ac" ==> reactance == 0.0)
      && length > 0.0 && resistance >= 0.0 && reactance >= 0.0
    }

    constructor (id: string, busFrom: Bus, busTo: Bus, length: real, resistance: real, reactance: real,
                 phaseType: string, technology: string)
      requires ValidateLine(technology, phaseType, length, resistance, StoredReactance(technology, reactance),
                            busFrom.technology, busFrom.phaseType, busTo.technology, busTo.phaseType).Pass?
      ensures Valid()
      ensures this.id == id && this.busFrom == busFrom && this.busTo == busTo && bus == None
      ensures this.length == length && this.resistance == resistance
      ensures this.reactance == StoredReactance(technology, reactance)
      ensures this.phaseType == phaseType && this.technology == technology
    {
      this.id := id;
      this.busFrom := busFrom;
      this.busTo := busTo;
      this.length := length;
      this.resistance := resistance;
      this.reactance := StoredReactance(technology, reactance);
      this.phaseType := phaseType;
      this.technology := technology;
      bus := None;
    }

    /** `get_impedance`: R for DC, R + jX otherwise. */
    function GetImpedance(): (z: Num)
      ensures z.R? <==> technology == "dc"
      ensures Re(z) == resistance && Im(z) == (if technology == "dc" then 0.0 else reactance)
    {
      if technology == "dc" then R(resistance) else C(resistance, reactance)
    }

    /** `calculate_power_loss`: `current ** 2 * R` on a DC line, and on any
        other `|I| ** 2 * R + j |I| ** 2 * X`. */
    /** `calculate_power_loss`: `I**2 * R` on DC, and `abs(I)**2` times
        the impedance R + jX on AC. */
    function PowerLoss(current: Num): (p: Num)
      ensures technology == "dc" && current.R? ==> p == R(Abs2(current) * resistance)
      ensures technology != "dc" ==>
        p.C? && Re(p) == Abs2(current) * Re(GetImpedance()) && Im(p) == Abs2(current) * Im(GetImpedance())
    {
      if technology == "dc" then Mul(Mul(current, current), R(resistance))
      else
        var m := CurrentSquared(current);
        C(m * resistance, m * reactance)
    }

    /** `connect_to_bus(bus, side)`: the bus is recorded first, then side
        "from" or "to" replaces that end; any other side raises, with the
        bus already recorded. */
    method ConnectToBus(b: Bus, side: Option<string>) returns (o: Outcome)
      modifies this`bus, this`busFrom, this`busTo
      ensures bus == Some(b)
      ensures o.Fail? <==> side != Some("from") && side != Some("to")
      ensures o.Fail? ==> o.error.ValueError?
      ensures busFrom == (if side == Some("from") then b else old(busFrom))
      ensures busTo == (if side == Some("to") then b else old(busTo))
    {
      bus := Some(b);
      if side == Some("from") {
        busFrom := b;
      } else if side == Some("to") {
        busTo := b;
      } else {
        return Fail(ValueError("side"));
      }
      o := Pass;
    }

    /** `get_status`: the reactance is reported only on an AC line. */
    function GetStatus(): (st: LineStatus)
      reads this
      ensures st.busFrom == busFrom.id && st.busTo == busTo.id
      ensures st.reactance.Some? <==> technology == "ac"
      ensures st.reactance.Some? ==> st.reactance.value == reactance
      ensures st.impedance == GetImpedance()
    {
      LineStatus(id, busFrom.id, busTo.id, length, resistance,
                 if technology == "ac" then Some(reactance) else None,
                 phaseType, technology, GetImpedance())
    }
  }

  /** On an AC line the loss is `|I| ** 2` times the impedance. */
  lemma AcLossIsCurrentSquaredTimesImpedance(l: Line, current: Num)
    requires l.technology != "dc"
    ensures var loss := l.PowerLoss(current);
      var z := Mul(R(Abs2(current)), l.GetImpedance());
      Re(loss) == Re(z) && Im(loss) == Im(z)
  {
    var a := Abs2(current);
    var r, x := l.resistance, l.reactance;
    assert l.GetImpedance() == C(r, x);
    assert l.PowerLoss(current) == C(a * r, a * x);
    ZeroTimes(r, x);
    assert Re(Mul(R(a), C(r, x))) == a * r - 0.0 * x;
    assert Im(Mul(R(a), C(r, x))) == a * x + 0.0 * r;
  }

  lemma ZeroTimes(a: real, b: real)
    ensures 0.0 * a == 0.0 && 0.0 * b == 0.0
  {
  }

  /** A valid line never delivers energy: both parts of the loss are
      non-negative, for a float current on a DC line and any current on an
      AC line. */
  lemma {:induction false} LossNonNegative(l: Line, current: Num)
    requires l.Valid()
    requires l.technology == "dc" ==> current.R?
    ensures Re(l.PowerLoss(current)) >= 0.0 && Im(l.PowerLoss(current)) >= 0.0
  {
    var m := CurrentSquared(current);
    NonNegativeProduct(m, l.resistance);
    if l.technology == "dc" {
      DcLoss(l, current);
    } else {
      NonNegativeProduct(m, l.reactance);
      assert Re(l.PowerLoss(current)) == m * l.resistance && Im(l.PowerLoss(current)) == m * l.reactance;
    }
  }

  lemma DcLoss(l: Line, current: Num)
    requires l.technology == "dc" && current.R?
    ensures l.PowerLoss(current) == R(CurrentSquared(current) * l.resistance)
  {
    assert Mul(current, current) == R(current.x * current.x);
  }

  lemma NonNegativeProduct(a: real, b: real)
    requires a >= 0.0 && b >= 0.0
    ensures a * b >= 0.0
  {
  }

  /** On a line with positive resistance the loss vanishes exactly when
      the current does (for a float current on a DC line). */
  lemma {:induction false} NoLossIffNoCurrent(l: Line, current: Num)
    requires l.resistance > 0.0
    requires l.technology == "dc" ==> current.R?
    ensures IsZero(l.PowerLoss(current)) ==> IsZero(current)
    ensures IsZero(current) ==> IsZero(l.PowerLoss(current))
  {
    var m := CurrentSquared(current);
    var r := l.resistance;
    assert Re(l.PowerLoss(current)) == m * r;
    if IsZero(l.PowerLoss(current)) {
      FactorZero(m, r);
    }
  }

  lemma FactorZero(a: real, b: real)
    requires a * b == 0.0 && b != 0.0
    ensures a == 0.0
  {
    assert a == (a * b) / b;
  }

  /** The constructor: the stored reactance is validated together with the
      technology and phase type of both buses. */
  method NewLine(id: string, busFrom: Bus, busTo: Bus, length: real, resistance: real, reactance: real,
                 phaseType: string, technology: string)
    returns (r: Result<Line>)
    ensures r.Success? <==> ValidateLine(technology, phaseType, length, resistance,
                                         StoredReactance(technology, reactance), busFrom.technology,
                                         busFrom.phaseType, busTo.technology, busTo.phaseType).Pass?
    ensures r.Failure? ==> r.error.ValueError?
    ensures r.Success? ==> fresh(r.value) && r.value.Valid() && r.value.id == id
    ensures r.Success? ==> r.value.busFrom == busFrom && r.value.busTo == busTo && r.value.technology == technology
  {
    var v := ValidateLine(technology, phaseType, length, resistance, StoredReactance(technology, reactance),
                          busFrom.technology, busFrom.phaseType, busTo.technology, busTo.phaseType);
    if v.Fail? {
      return Failure(v.error);
    }
    var l := new Line(id, busFrom, busTo, length, resistance, reactance, phaseType, technology);
    return Success(l);
  }
}

/** The generic electrical component of the building network
    (`source/building_network/electrical_component.py`): validation, the
    power and current it reports, and the setters every device inherits.
    The pure parts are module-level functions so that every device class
    reports its power through the same definitions. */
module Component {
  import opened Wrappers
  import opened Numbers

  const PhaseTypes: set<string> := {"single", "three"}
  const Technologies: set<string> := {"ac", "dc"}
  const ComponentTypes: set<string> := {"load", "generator", "storage", "grid", "inverter"}

  /** The base-class checks of `_validate_inputs`, in the order they run;
      the first one that fails decides the error. */
  function ValidateBase(phaseType: string, technology: string, kind: string, reactivePower: real): (o: Outcome)
    ensures o.Pass? <==>
      && phaseType in PhaseTypes
      && technology in Technologies
      && kind in ComponentTypes
      && !(technology == "dc" && phaseType == "three")
      && !(technology == "dc" && reactivePower != 0.0)
    ensures o.Fail? ==> o.error.ValueError?
    ensures phaseType !in PhaseTypes ==> o == Fail(ValueError("phase_type"))
    ensures phaseType in PhaseTypes && technology !in Technologies ==> o == Fail(ValueError("technology"))
  {
    if phaseType !in PhaseTypes then Fail(ValueError("phase_type"))
    else if technology !in Technologies then Fail(ValueError("technology"))
    else if kind !in ComponentTypes then Fail(ValueError("type"))
    else if technology == "dc" && phaseType == "three" then Fail(ValueError("dc three-phase"))
    else if technology == "dc" && reactivePower != 0.0 then Fail(ValueError("dc reactive power"))
    else Pass
  }

  /** `get_power`: zero when switched off, the active power as a float for
      DC, and the complex power P + jQ for every other technology. */
  function PowerOf(on: bool, technology: string, p: real, q: real): (n: Num)
    ensures n.R? <==> technology == "dc"
    ensures !on ==> IsZero(n)
    ensures on ==> Re(n) == p && Im(n) == (if technology == "dc" then 0.0 else q)
  {
    if !on then ZeroFor(technology)
    else if technology == "dc" then R(p)
    else C(p, q)
  }

  /** `get_current`: zero when off or at zero voltage, otherwise the power
      divided by the voltage (DC) or by its conjugate (AC), so that the
      current times that divisor gives the power back. */
  function CurrentOf(on: bool, technology: string, p: real, q: real, voltage: Num): (i: Num)
    ensures !on || IsZero(voltage) ==> i == ZeroFor(technology)
    ensures on && !IsZero(voltage) ==>
      var v := if technology == "dc" then voltage else Conj(voltage);
      Re(Mul(i, v)) == Re(PowerOf(on, technology, p, q)) && Im(Mul(i, v)) == Im(PowerOf(on, technology, p, q))
  {
    if !on || IsZero(voltage) then ZeroFor(technology)
    else
      var s := PowerOf(on, technology, p, q);
      if technology == "dc" then
        DivMulInverse(s, voltage);
        Div(s, voltage)
      else
        DivMulInverse(s, Conj(voltage));
        Div(s, Conj(voltage))
  }

  /** The dictionary `get_status` returns; `reactivePower` is `None`
      unless the technology is exactly "ac". */
  datatype ComponentStatus = ComponentStatus(
    id: string, active: bool, phaseType: string, kind: string, technology: string,
    activePower: real, reactivePower: Option<real>)

  function BaseStatus(id: string, on: bool, phaseType: string, kind: string, technology: string,
                      p: real, q: real): (st: ComponentStatus)
    ensures st.id == id && st.active == on && st.activePower == p
    ensures st.phaseType == phaseType && st.kind == kind && st.technology == technology
    ensures st.reactivePower.Some? <==> technology == "ac"
    ensures st.reactivePower.Some? ==> st.reactivePower.value == q
  {
    ComponentStatus(id, on, phaseType, kind, technology, p, if technology == "ac" then Some(q) else None)
  }

  /** A plain `ElectricalComponent`. The bus it sits on is held by id. */
  class ElectricalComponent {
    const id: string
    const phaseType: string
    const kind: string
    const technology: string
    var busId: string
    var activePower: real
    var reactivePower: real
    var on: bool

    /** What construction established: the base checks hold. */
    ghost predicate Valid()
      reads this
    {
      ValidateBase(phaseType, technology, kind, reactivePower).Pass?
    }

    constructor (id: string, busId: string, phaseType: string, kind: string, technology: string,
                 activePower: real, reactivePower: real, on: bool)
      requires ValidateBase(phaseType, technology, kind, reactivePower).Pass?
      ensures Valid()
      ensures this.id == id && this.busId == busId && this.phaseType == phaseType
      ensures this.kind == kind && this.technology == technology
      ensures this.activePower == activePower && this.reactivePower == reactivePower && this.on == on
    {
      this.id := id;
      this.busId := busId;
      this.phaseType := phaseType;
      this.kind := kind;
      this.technology := technology;
      this.activePower := activePower;
      this.reactivePower := reactivePower;
      this.on := on;
    }

    /** `get_power`: zero when off, the active power as a float on DC and
        P + jQ otherwise. */
    function GetPower(): (p: Num)
      reads this
      ensures p.R? <==> technology == "dc"
      ensures !on ==> IsZero(p)
      ensures on ==> Re(p) == activePower && Im(p) == (if technology == "dc" then 0.0 else reactivePower)
    {
      PowerOf(on, technology, activePower, reactivePower)
    }

    /** `get_current`: zero when off or at zero voltage; otherwise the
        current that, times the voltage (DC) or its conjugate (AC), gives
        the component's power back. */
    function GetCurrent(voltage: Num): (c: Num)
      reads this
      ensures !on || IsZero(voltage) ==> c == ZeroFor(technology)
      ensures on && !IsZero(voltage) ==>
        var v := if technology == "dc" then voltage else Conj(voltage);
        Re(Mul(c, v)) == Re(GetPower()) && Im(Mul(c, v)) == Im(GetPower())
    {
      CurrentOf(on, technology, activePower, reactivePower, voltage)
    }

    method SetActive(active: bool)
      modifies this`on
      ensures on == active
    {
      on := active;
    }

    /** `set_power`: only the supplied values change. A reactive value on a
        DC component is refused, but a supplied active value has already
        been written by then. */
    method SetPower(active: Option<real>, reactive: Option<real>) returns (o: Outcome)
      modifies this`activePower, this`reactivePower
      ensures o.Fail? <==> reactive.Some? && technology == "dc"
      ensures o.Fail? ==> o.error.ValueError?
      ensures activePower == if active.Some? then active.value else old(activePower)
      ensures reactivePower == if reactive.Some? && technology != "dc" then reactive.value else old(reactivePower)
      ensures old(Valid()) ==> Valid()
    {
      o := Pass;
      if active.Some? {
        activePower := active.value;
      }
      if reactive.Some? {
        if technology == "dc" {
          o := Fail(ValueError("dc reactive power"));
          return;
        }
        reactivePower := reactive.value;
      }
    }

    method ConnectToBus(busId: string)
      modifies this`busId
      ensures this.busId == busId
    {
      this.busId := busId;
    }

    /** `get_status`: the component's identity, flag and powers, the
        reactive power only on AC. */
    function GetStatus(): (st: ComponentStatus)
      reads this
      ensures st.id == id && st.active == on && st.activePower == activePower
      ensures st.kind == kind && st.technology == technology && st.phaseType == phaseType
      ensures st.reactivePower.Some? <==> technology == "ac"
      ensures st.reactivePower.Some? ==> st.reactivePower.value == reactivePower
    {
      BaseStatus(id, on, phaseType, kind, technology, activePower, reactivePower)
    }
  }

  /** The constructor: it raises exactly when the base checks fail. */
  method NewComponent(id: string, busId: string, phaseType: string, kind: string, technology: string,
                      activePower: real, reactivePower: real, on: bool)
    returns (r: Result<ElectricalComponent>)
    ensures r.Success? <==> ValidateBase(phaseType, technology, kind, reactivePower).Pass?
    ensures r.Failure? ==> Fail(r.error) == ValidateBase(phaseType, technology, kind, reactivePower)
    ensures r.Success? ==> fresh(r.value) && r.value.Valid() && r.value.id == id && r.value.busId == busId
    ensures r.Success? ==> r.value.activePower == activePower && r.value.reactivePower == reactivePower
    ensures r.Success? ==> r.value.on == on && r.value.technology == technology && r.value.phaseType == phaseType
  {
    var v := ValidateBase(phaseType, technology, kind, reactivePower);
    if v.Fail? {
      return Failure(v.error);
    }
    var c := new ElectricalComponent(id, busId, phaseType, kind, technology, activePower, reactivePower, on);
    return Success(c);
  }

  /** A DC component never reports reactive power, and a valid one never
      holds any. */
  lemma ValidDcHasNoReactive(phaseType: string, technology: string, kind: string, q: real, on: bool, p: real)
    requires ValidateBase(phaseType, technology, kind, q).Pass? && technology == "dc"
    ensures q == 0.0 && phaseType == "single"
    ensures PowerOf(on, technology, p, q) == (if on then R(p) else R(0.0))
  {
  }
}

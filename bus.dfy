/** The bus (`source/building_network/bus.py`): a connection point holding
    the ordered list of `(component, side)` attachments, which checks
    technology on connection and sums the attached devices' power. */
module Buses {
  import opened Wrappers
  import opened Numbers
  import opened Component
  import opened Loads
  import opened Storage
  import opened EvCharging
  import opened Photovoltaics
  import opened HeatPumps
  import opened Inverters

  /** A nominal or current voltage: one number, or the tuple a three-phase
      bus may carry. */
  datatype Voltage = Scalar(v: Num) | Tuple(parts: seq<real>)

  /** Anything a bus accepts: an electrical component of one of the
      modelled kinds, or an inverter. */
  datatype Device =
    | Generic(c: ElectricalComponent)
    | LoadDevice(l: Load)
    | StorageDevice(s: EnergyStorage)
    | ChargerDevice(e: EVCharger)
    | PvDevice(p: PV)
    | PumpDevice(h: HeatPump)
    | InverterDevice(i: Inverter)
  {
    function Obj(): object
    {
      match this
      case Generic(c) => c
      case LoadDevice(l) => l
      case StorageDevice(s) => s
      case ChargerDevice(e) => e
      case PvDevice(p) => p
      case PumpDevice(h) => h
      case InverterDevice(i) => i
    }

    function Id(): string
    {
      match this
      case Generic(c) => c.id
      case LoadDevice(l) => l.id
      case StorageDevice(s) => s.id
      case ChargerDevice(e) => e.id
      case PvDevice(p) => p.id
      case PumpDevice(h) => h.id
      case InverterDevice(i) => i.id
    }

    /** The technology a bus compares with its own on connection: an
        inverter's technology on the given side, else the device's own.
        An inverter reached with no valid side falls back to its base
        technology, which is its input technology. */
    function Technology(side: Option<string>): string
    {
      match this
      case Generic(c) => c.technology
      case LoadDevice(l) => l.technology
      case StorageDevice(s) => s.technology
      case ChargerDevice(e) => e.technology
      case PvDevice(p) => p.technology
      case PumpDevice(h) => h.technology
      case InverterDevice(i) =>
        if side == Some("output") then i.outputTechnology else i.inputTechnology
    }

    /** The bus a device records for the given side. */
    function BusId(side: Option<string>): string
      reads Obj()
    {
      match this
      case Generic(c) => c.busId
      case LoadDevice(l) => l.busId
      case StorageDevice(s) => s.busId
      case ChargerDevice(e) => e.busId
      case PvDevice(p) => p.busId
      case PumpDevice(h) => h.busId
      case InverterDevice(i) => if side == Some("output") then i.outputBusId else i.inputBusId
    }
  }

  /** One entry of a bus's list: the device, and the side it was connected
      with (`None` when no side was given). */
  datatype Attachment = Attachment(device: Device, side: Option<string>)

  function Objects(atts: seq<Attachment>): set<object>
  {
    set a | a in atts :: a.device.Obj()
  }

  /** What one attachment adds to the balance: an inverter adds its input
      power on the input side and subtracts its output power on any other
      side; every other device adds its `get_power()`. */
  function Contribution(a: Attachment): Num
    reads a.device.Obj()
  {
    match a.device
    case InverterDevice(i) =>
      if a.side == Some("input") then i.GetPower("input").value else Neg(i.GetPower("output").value)
    case Generic(c) => c.GetPower()
    case LoadDevice(l) => l.GetPower()
    case StorageDevice(s) => s.GetPower()
    case ChargerDevice(e) => e.GetPower()
    case PvDevice(p) => p.GetPower()
    case PumpDevice(h) => h.GetPower()
  }

  /** The running total of the balance loop after the given attachments,
      starting from the bus's zero. */
  function Total(atts: seq<Attachment>, technology: string): Num
    reads Objects(atts)
    decreases |atts|
  {
    if |atts| == 0 then ZeroFor(technology)
    else
      var last := atts[|atts| - 1];
      assert last in atts;
      Add(Total(atts[..|atts| - 1], technology), Contribution(last))
  }

  /** Independent reference sums of the contributions, recursing from the
      front. */
  ghost function ActiveSum(atts: seq<Attachment>): real
    reads Objects(atts)
  {
    if |atts| == 0 then 0.0 else assert atts[0] in atts; Re(Contribution(atts[0])) + ActiveSum(atts[1..])
  }

  ghost function ReactiveSum(atts: seq<Attachment>): real
    reads Objects(atts)
  {
    if |atts| == 0 then 0.0 else assert atts[0] in atts; Im(Contribution(atts[0])) + ReactiveSum(atts[1..])
  }

  ghost predicate AllReal(atts: seq<Attachment>)
    reads Objects(atts)
  {
    forall k :: 0 <= k < |atts| ==> assert atts[k] in atts; Contribution(atts[k]).R?
  }

  lemma {:induction false} SumsSnoc(atts: seq<Attachment>, a: Attachment)
    ensures ActiveSum(atts + [a]) == ActiveSum(atts) + Re(Contribution(a))
    ensures ReactiveSum(atts + [a]) == ReactiveSum(atts) + Im(Contribution(a))
    decreases |atts|
  {
    if |atts| == 0 {
      assert atts + [a] == [a];
      assert [a][1..] == [];
    } else {
      assert (atts + [a])[1..] == atts[1..] + [a];
      SumsSnoc(atts[1..], a);
    }
  }

  /** The balance is the sum of the contributions: its active part is the
      sum of their active parts, its reactive part the sum of their reactive
      parts, and it is a float exactly when the bus is DC and every
      contribution is a float. */
  lemma {:induction false} TotalIsSum(atts: seq<Attachment>, technology: string)
    ensures Re(Total(atts, technology)) == ActiveSum(atts)
    ensures Im(Total(atts, technology)) == ReactiveSum(atts)
    ensures Total(atts, technology).R? <==> technology == "dc" && AllReal(atts)
    decreases |atts|
  {
    if |atts| > 0 {
      var init := atts[..|atts| - 1];
      var last := atts[|atts| - 1];
      assert atts == init + [last];
      TotalIsSum(init, technology);
      SumsSnoc(init, last);
      assert AllReal(atts) <==> AllReal(init) && Contribution(last).R? by {
        if AllReal(init) && Contribution(last).R? {
          forall k | 0 <= k < |atts|
            ensures Contribution(atts[k]).R?
          {
            if k < |init| {
              assert atts[k] == init[k];
            }
          }
        }
        if AllReal(atts) {
          forall k | 0 <= k < |init|
            ensures Contribution(init[k]).R?
          {
            assert init[k] == atts[k];
          }
          assert Contribution(atts[|atts| - 1]).R?;
        }
      }
    }
  }

  /** `_validate_inputs` of a bus, in the order it runs. */
  function ValidateBus(technology: string, phaseType: string, nominalVoltage: Voltage): (o: Outcome)
    ensures o.Pass? <==>
      && technology in Technologies && phaseType in PhaseTypes
      && !(technology == "dc" && phaseType == "three")
      && (nominalVoltage.Tuple? ==> technology != "dc" && phaseType == "three")
    ensures o.Fail? ==> o.error.ValueError?
    ensures technology !in Technologies ==> o == Fail(ValueError("technology"))
  {
    if technology !in Technologies then Fail(ValueError("technology"))
    else if phaseType !in PhaseTypes then Fail(ValueError("phase_type"))
    else if technology == "dc" && phaseType == "three" then Fail(ValueError("dc three-phase"))
    else if nominalVoltage.Tuple? && technology == "dc" then Fail(ValueError("dc tuple voltage"))
    else if nominalVoltage.Tuple? && phaseType != "three" then Fail(ValueError("tuple voltage"))
    else Pass
  }

  /** The `(id, side)` pairs of a list of attachments, in order. */
  function Connected(atts: seq<Attachment>): (c: seq<(string, Option<string>)>)
    ensures |c| == |atts|
    ensures forall k :: 0 <= k < |atts| ==> c[k] == (atts[k].device.Id(), atts[k].side)
  {
    seq(|atts|, k requires 0 <= k < |atts| => (atts[k].device.Id(), atts[k].side))
  }

  /** The dictionary `get_status` returns. */
  datatype BusStatus = BusStatus(
    id: string, technology: string, phaseType: string, nominalVoltage: Voltage,
    currentVoltage: Voltage, connected: seq<(string, Option<string>)>, powerBalance: Num)

  /** Connects one device to the bus with the given id, as the device's own
      `connect_to_bus` does; only an inverter looks at the side. */
  method ConnectDevice(dev: Device, busId: string, side: Option<string>)
    requires dev.InverterDevice? ==> side == Some("input") || side == Some("output")
    modifies dev.Obj()
    ensures dev.BusId(side) == busId
    ensures dev.InverterDevice? && side == Some("input") ==> dev.i.outputBusId == old(dev.i.outputBusId)
    ensures Contribution(Attachment(dev, Some("input"))) == old(Contribution(Attachment(dev, Some("input"))))
    ensures Contribution(Attachment(dev, None)) == old(Contribution(Attachment(dev, None)))
  {
    match dev
    case Generic(c) => c.ConnectToBus(busId);
    case LoadDevice(l) => l.ConnectToBus(busId);
    case StorageDevice(s) => s.ConnectToBus(busId);
    case ChargerDevice(e) => e.ConnectToBus(busId);
    case PvDevice(p) => p.ConnectToBus(busId);
    case PumpDevice(h) => h.ConnectToBus(busId);
    case InverterDevice(i) =>
      var o := i.ConnectToBus(busId, side.value);
  }

  /** Distinct device kinds are distinct classes, so one object is one
      device. */
  lemma SameObjectSameDevice(d: Device, e: Device)
    requires d.Obj() == e.Obj()
    ensures d == e
  {
  }

  /** The side an attachment counts with: only an inverter's input side is
      told apart, any other side counts as `None` does. */
  function CountedSide(side: Option<string>): Option<string>
  {
    if side == Some("input") then side else None
  }

  lemma SidesMatter(atts: seq<Attachment>)
    ensures forall k :: 0 <= k < |atts| ==>
      Contribution(atts[k]) == Contribution(Attachment(atts[k].device, CountedSide(atts[k].side)))
  {
  }

  /** The contributions of a list of attachments, in order. */
  ghost function Contributions(atts: seq<Attachment>): (cs: seq<Num>)
    reads Objects(atts)
    ensures |cs| == |atts|
    ensures forall k :: 0 <= k < |atts| ==> cs[k] == Contribution(atts[k])
    decreases |atts|
  {
    if |atts| == 0 then []
    else assert atts[|atts| - 1] in atts; Contributions(atts[..|atts| - 1]) + [Contribution(atts[|atts| - 1])]
  }

  /** The balance loop's running total, over contributions already
      computed. */
  function Fold(cs: seq<Num>, technology: string): Num
  {
    if |cs| == 0 then ZeroFor(technology) else Add(Fold(cs[..|cs| - 1], technology), cs[|cs| - 1])
  }

  /** The running total only depends on the attachments' contributions. */
  lemma {:induction false} TotalFolds(atts: seq<Attachment>, technology: string)
    ensures Total(atts, technology) == Fold(Contributions(atts), technology)
    decreases |atts|
  {
    if |atts| > 0 {
      var init := atts[..|atts| - 1];
      TotalFolds(init, technology);
      assert Contributions(atts)[..|atts| - 1] == Contributions(init);
    }
  }

  /** A bus is never one of the devices attached to it. */
  lemma BusNotAttached(b: Bus, atts: seq<Attachment>)
    ensures b !in Objects(atts)
  {
  }

  /** One more attachment adds its contribution to the running total. */
  lemma TotalSnoc(atts: seq<Attachment>, a: Attachment, technology: string)
    ensures Total(atts + [a], technology) == Add(Total(atts, technology), Contribution(a))
  {
    assert (atts + [a])[..|atts|] == atts;
  }

  /** Attachments whose contributions are the given values total to their
      fold. */
  lemma TotalOfKnown(atts: seq<Attachment>, technology: string, cs: seq<Num>)
    requires |cs| == |atts|
    requires forall k :: 0 <= k < |atts| ==> Contribution(atts[k]) == cs[k]
    ensures Total(atts, technology) == Fold(cs, technology)
  {
    TotalFolds(atts, technology);
    assert Contributions(atts) == cs;
  }

  class Bus {
    const id: string
    const technology: string
    const phaseType: string
    const nominalVoltage: Voltage
    var voltage: Voltage
    var components: seq<Attachment>

    constructor (id: string, technology: string, phaseType: string, nominalVoltage: Voltage)
      requires ValidateBus(technology, phaseType, nominalVoltage).Pass?
      ensures this.id == id && this.technology == technology && this.phaseType == phaseType
      ensures this.nominalVoltage == nominalVoltage && voltage == nominalVoltage && components == []
    {
      this.id := id;
      this.technology := technology;
      this.phaseType := phaseType;
      this.nominalVoltage := nominalVoltage;
      voltage := nominalVoltage;
      components := [];
    }

    /** The net power at the bus: generation counts positive, consumption
        negative, each device with the sign its `get_power` reports. */
    function Balance(): Num
      reads this, Objects(components)
    {
      Total(components, technology)
    }

    /** `connect_component`. An inverter needs side input or output and is
        refused before anything changes otherwise. The device is then
        connected (this stays even if the next check fails), its technology
        on that side is compared with the bus's, and on a match exactly one
        attachment is appended. Phase type is not checked. */
    method ConnectComponent(dev: Device, side: Option<string>) returns (o: Outcome)
      modifies this`components, dev.Obj()
      ensures dev.InverterDevice? && side != Some("input") && side != Some("output") ==>
        o.Fail? && o.error.ValueError? && unchanged(this) && unchanged(dev.Obj())
      ensures !dev.InverterDevice? || side == Some("input") || side == Some("output") ==>
        && dev.BusId(side) == id
        && (o.Fail? <==> dev.Technology(side) != technology)
      ensures dev.InverterDevice? && side == Some("input") ==> dev.i.outputBusId == old(dev.i.outputBusId)
      ensures Contribution(Attachment(dev, Some("input"))) == old(Contribution(Attachment(dev, Some("input"))))
      ensures Contribution(Attachment(dev, None)) == old(Contribution(Attachment(dev, None)))
      ensures o.Fail? ==> components == old(components) && o.error.ValueError?
      ensures o.Pass? ==> components == old(components) + [Attachment(dev, side)]
      ensures o.Pass? ==> Balance() == Add(old(Balance()), Contribution(Attachment(dev, side)))
    {
      if dev.InverterDevice? && side != Some("input") && side != Some("output") {
        return Fail(ValueError("inverter side"));
      }
      ghost var before := Contributions(components);
      ghost var viaInput := Contribution(Attachment(dev, Some("input")));
      ghost var viaOther := Contribution(Attachment(dev, None));
      assert Balance() == Fold(before, technology) by {
        SidesMatter(components);
        TotalOfKnown(components, technology, before);
      }
      ConnectDevice(dev, id, side);
      if dev.Technology(side) != technology {
        return Fail(ValueError("technology mismatch"));
      }
      assert Total(components + [Attachment(dev, side)], technology)
          == Add(Fold(before, technology), Contribution(Attachment(dev, side))) by {
        SidesMatter(components);
        forall k | 0 <= k < |components|
          ensures Contribution(components[k]) == before[k]
        {
          var a := components[k];
          if a.device.Obj() == dev.Obj() {
            SameObjectSameDevice(a.device, dev);
            assert before[k] == if CountedSide(a.side) == Some("input") then viaInput else viaOther;
          } else {
            assert a in components;
            assert unchanged(a.device.Obj());
          }
        }
        TotalOfKnown(components, technology, before);
        TotalSnoc(components, Attachment(dev, side), technology);
      }
      BusNotAttached(this, components + [Attachment(dev, side)]);
      components := components + [Attachment(dev, side)];
      o := Pass;
    }

    /** `get_power_balance`: an empty bus reports its zero, otherwise the
        contributions are accumulated in connection order. */
    method GetPowerBalance() returns (total: Num)
      ensures total == Balance()
    {
      if |components| == 0 {
        return ZeroFor(technology);
      }
      total := ZeroFor(technology);
      var k := 0;
      while k < |components|
        invariant 0 <= k <= |components|
        invariant total == Total(components[..k], technology)
      {
        assert components[..k + 1][..k] == components[..k];
        total := Add(total, Contribution(components[k]));
        k := k + 1;
      }
      assert components[..k] == components;
    }

    method SetVoltage(v: Voltage)
      modifies this`voltage
      ensures voltage == v
    {
      voltage := v;
    }

    /** `get_status`: the connected list gives every attachment's device id
        and side, in connection order. */
    function GetStatus(): (st: BusStatus)
      reads this, Objects(components)
      ensures |st.connected| == |components|
      ensures forall k :: 0 <= k < |components| ==>
                st.connected[k] == (components[k].device.Id(), components[k].side)
      ensures st.powerBalance == Balance() && st.currentVoltage == voltage
    {
      BusStatus(id, technology, phaseType, nominalVoltage, voltage,
                Connected(components), Balance())
    }
  }

  /** The constructor: it raises exactly when the bus checks fail; a new
      bus holds its nominal voltage and nothing else. */
  method NewBus(id: string, technology: string, phaseType: string, nominalVoltage: Voltage)
    returns (r: Result<Bus>)
    ensures r.Success? <==> ValidateBus(technology, phaseType, nominalVoltage).Pass?
    ensures r.Failure? ==> Fail(r.error) == ValidateBus(technology, phaseType, nominalVoltage)
    ensures r.Success? ==> fresh(r.value) && r.value.id == id && r.value.technology == technology
    ensures r.Success? ==> r.value.phaseType == phaseType && r.value.voltage == nominalVoltage
    ensures r.Success? ==> r.value.components == []
  {
    var v := ValidateBus(technology, phaseType, nominalVoltage);
    if v.Fail? {
      return Failure(v.error);
    }
    var b := new Bus(id, technology, phaseType, nominalVoltage);
    return Success(b);
  }

  /** An empty bus reports the zero of its technology. */
  lemma EmptyBalance(technology: string)
    ensures Total([], technology) == ZeroFor(technology)
    ensures Total([], technology).R? <==> technology == "dc"
  {
  }
}

/** The network registry (`source/building_network/network.py`): buses by
    id, and the components, inverters and lines added after their buses. */
module Networks {
  import opened Wrappers
  import opened Buses
  import opened Lines
  import opened Grids
  import opened Inverters
  import opened Numbers

  /** What `add_component` may be handed: a device (an electrical component
      or an inverter), a line, or a grid, which is neither. */
  datatype Entity =
    | DeviceEntity(d: Device)
    | LineEntity(l: Line)
    | GridEntity(g: Grid)

  /** A network is never one of the devices attached to a bus. */
  lemma NetworkNotAttached(n: Network, atts: seq<Attachment>)
    ensures n !in Objects(atts)
  {
  }

  class Network {
    var buses: map<string, Bus>
    var components: seq<Device>
    var inverters: seq<Inverter>
    var lines: seq<Line>

    /** Every bus is stored under its own id. */
    ghost predicate Valid()
      reads this
    {
      forall k :: k in buses ==> buses[k].id == k
    }

    function BusSet(): set<Bus>
      reads this
    {
      set k | k in buses :: buses[k]
    }

    constructor ()
      ensures Valid()
      ensures buses == map[] && components == [] && inverters == [] && lines == []
    {
      buses := map[];
      components := [];
      inverters := [];
      lines := [];
    }

    /** `add_bus`: stored under its id, replacing an earlier bus with the
        same id. */
    method AddBus(b: Bus)
      requires Valid()
      modifies this`buses
      ensures Valid()
      ensures buses == old(buses)[b.id := b]
      ensures old(buses).Keys <= buses.Keys
    {
      buses := buses[b.id := b];
    }

    /** `add_component` on an electrical component other than an inverter:
        its bus must be registered; it is listed, then connected, so a
        technology mismatch raised by the bus leaves it in the list. */
    method AddDevice(d: Device) returns (o: Outcome)
      requires Valid() && !d.InverterDevice?
      modifies this`components, BusSet()`components, d.Obj()
      ensures buses == old(buses) && Valid()
      ensures o.Fail? ==> o.error.ValueError?
      ensures lines == old(lines) && inverters == old(inverters)
      ensures old(d.BusId(None)) !in buses ==>
        o.Fail? && components == old(components) && unchanged(BusSet()) && unchanged(d.Obj())
      ensures old(d.BusId(None)) in buses ==>
        var b := buses[old(d.BusId(None))];
        && components == old(components) + [d]
        && (o.Pass? <==> d.Technology(None) == b.technology)
        && b.components == old(b.components) + (if o.Pass? then [Attachment(d, None)] else [])
        && (o.Pass? ==> b.Balance() == Add(old(b.Balance()), Contribution(Attachment(d, None))))
      ensures forall k :: k in buses && k != old(d.BusId(None)) ==> buses[k].components == old(buses[k].components)
      ensures Contribution(Attachment(d, Some("input"))) == old(Contribution(Attachment(d, Some("input"))))
      ensures Contribution(Attachment(d, None)) == old(Contribution(Attachment(d, None)))
    {
      var bid := d.BusId(None);
      if bid !in buses {
        return Fail(ValueError("component bus not registered"));
      }
      ghost var was := buses[bid].Balance();
      NetworkNotAttached(this, buses[bid].components);
      components := components + [d];
      assert buses[bid].Balance() == was;
      o := buses[bid].ConnectComponent(d, None);
    }

    /** `add_component` on an inverter: both of its buses must be
        registered; it is listed, then connected on its input side and, if
        that succeeded, on its output side. */
    method AddInverter(d: Device) returns (o: Outcome)
      requires Valid() && d.InverterDevice?
      modifies this`inverters, BusSet()`components, d.Obj()
      ensures buses == old(buses) && Valid()
      ensures o.Fail? ==> o.error.ValueError?
      ensures lines == old(lines) && components == old(components)
      ensures
        var i := d.i;
        var inB, outB := old(i.inputBusId), old(i.outputBusId);
        && (inB !in buses || outB !in buses ==>
              o.Fail? && inverters == old(inverters) && unchanged(BusSet()) && unchanged(i))
        && (inB in buses && outB in buses ==>
              && inverters == old(inverters) + [i]
              && (o.Pass? <==> i.inputTechnology == buses[inB].technology && i.outputTechnology == buses[outB].technology)
              && (o.Pass? && inB != outB ==>
                    && buses[inB].components == old(buses[inB].components) + [Attachment(d, Some("input"))]
                    && buses[outB].components == old(buses[outB].components) + [Attachment(d, Some("output"))])
              && (o.Pass? && inB == outB ==>
                    buses[inB].components
                    == old(buses[inB].components) + [Attachment(d, Some("input")), Attachment(d, Some("output"))])
              && (o.Fail? ==>
                    buses[inB].components
                    == old(buses[inB].components)
                       + (if i.inputTechnology == buses[inB].technology then [Attachment(d, Some("input"))] else []))
              && (o.Fail? && inB != outB ==> buses[outB].components == old(buses[outB].components))
              && (forall k :: k in buses && k != inB && k != outB ==> buses[k].components == old(buses[k].components)))
      ensures Contribution(Attachment(d, Some("input"))) == old(Contribution(Attachment(d, Some("input"))))
      ensures Contribution(Attachment(d, None)) == old(Contribution(Attachment(d, None)))
    {
      var i := d.i;
      if i.inputBusId !in buses || i.outputBusId !in buses {
        return Fail(ValueError("inverter buses not registered"));
      }
      inverters := inverters + [i];
      var input := buses[i.inputBusId];
      o := input.ConnectComponent(d, Some("input"));
      if o.Fail? {
        return;
      }
      var output := buses[i.outputBusId];
      o := output.ConnectComponent(d, Some("output"));
    }

    /** `add_component`: an inverter, a line or another electrical
        component; anything else, a grid included, raises. A line needs
        both of its buses registered and is only listed, never attached. */
    method AddComponent(e: Entity) returns (o: Outcome)
      requires Valid()
      modifies this`components, this`inverters, this`lines, BusSet()`components
      modifies if e.DeviceEntity? then {e.d.Obj()} else {}
      ensures buses == old(buses) && Valid()
      ensures o.Fail? ==> o.error.ValueError?
      ensures e.GridEntity? ==> o.Fail? && unchanged(this) && unchanged(BusSet())
      ensures e.LineEntity? ==>
        && (o.Pass? <==> e.l.busFrom.id in buses && e.l.busTo.id in buses)
        && lines == (if o.Pass? then old(lines) + [e.l] else old(lines))
        && components == old(components) && inverters == old(inverters) && unchanged(BusSet())
      ensures e.DeviceEntity? && !e.d.InverterDevice? ==>
        var bid := old(e.d.BusId(None));
        && lines == old(lines) && inverters == old(inverters)
        && (bid !in buses ==> o.Fail? && components == old(components) && unchanged(BusSet()) && unchanged(e.d.Obj()))
        && (bid in buses ==>
             && components == old(components) + [e.d]
             && (o.Pass? <==> e.d.Technology(None) == buses[bid].technology)
             && buses[bid].components == old(buses[bid].components) + (if o.Pass? then [Attachment(e.d, None)] else [])
             && (o.Pass? ==> buses[bid].Balance() == Add(old(buses[bid].Balance()), Contribution(Attachment(e.d, None)))))
        && (forall k :: k in buses && k != bid ==> buses[k].components == old(buses[k].components))
      ensures e.DeviceEntity? && e.d.InverterDevice? ==>
        var i := e.d.i;
        var inB, outB := old(i.inputBusId), old(i.outputBusId);
        && lines == old(lines) && components == old(components)
        && (inB !in buses || outB !in buses ==>
              o.Fail? && inverters == old(inverters) && unchanged(BusSet()) && unchanged(i))
        && (inB in buses && outB in buses ==>
              && inverters == old(inverters) + [i]
              && (o.Pass? <==> i.inputTechnology == buses[inB].technology && i.outputTechnology == buses[outB].technology)
              && (o.Pass? && inB != outB ==>
                    && buses[inB].components == old(buses[inB].components) + [Attachment(e.d, Some("input"))]
                    && buses[outB].components == old(buses[outB].components) + [Attachment(e.d, Some("output"))])
              && (o.Pass? && inB == outB ==>
                    buses[inB].components
                    == old(buses[inB].components) + [Attachment(e.d, Some("input")), Attachment(e.d, Some("output"))])
              && (o.Fail? ==>
                    buses[inB].components
                    == old(buses[inB].components)
                       + (if i.inputTechnology == buses[inB].technology then [Attachment(e.d, Some("input"))] else []))
              && (o.Fail? && inB != outB ==> buses[outB].components == old(buses[outB].components))
              && (forall k :: k in buses && k != inB && k != outB ==> buses[k].components == old(buses[k].components)))
      ensures e.DeviceEntity? ==>
        && Contribution(Attachment(e.d, Some("input"))) == old(Contribution(Attachment(e.d, Some("input"))))
        && Contribution(Attachment(e.d, None)) == old(Contribution(Attachment(e.d, None)))
    {
      match e
      case GridEntity(_) =>
        return Fail(ValueError("not an electrical component, inverter or line"));
      case LineEntity(l) =>
        if l.busFrom.id !in buses || l.busTo.id !in buses {
          return Fail(ValueError("line buses not registered"));
        }
        lines := lines + [l];
        o := Pass;
      case DeviceEntity(d) =>
        if d.InverterDevice? {
          o := AddInverter(d);
        } else {
          o := AddDevice(d);
        }
    }

    /** `get_status`: every registered bus id mapped to that bus's status. */
    function GetStatus(): (st: map<string, BusStatus>)
      reads this, BusSet(), set k, a | k in buses && a in buses[k].components :: a.device.Obj()
      ensures st.Keys == buses.Keys
      ensures forall k :: k in buses ==> st[k] == buses[k].GetStatus()
    {
      map k | k in buses :: buses[k].GetStatus()
    }
  }
}

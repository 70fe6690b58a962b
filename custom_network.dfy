/** The earlier, self-contained version of the engine
    (`source/building_network/custom_electricity_ntw.py`): buses that sum
    the complex power of their loads, PV units and grids, and a simulation
    in which the first grid of each bus is asked to close that bus's
    balance. */
module CustomNetwork {
  import opened Wrappers
  import opened Numbers

  /** A component of this engine, with the bus it names. A load holds its
      demand, a PV unit its output and a grid its capacity, each a Python
      number. */
  datatype Part =
    | Load(id: string, bus: Bus, demand: Num)
    | Pv(id: string, bus: Bus, output: Num)
    | Grid(id: string, bus: Bus, maxPower: Num)

  /** `get_power`: a load consumes (negative), a PV unit generates
      (positive), and a grid reports `0j` before balancing. */
  function PartPower(p: Part): (n: Num)
    ensures p.Load? ==> Re(n) == -Re(p.demand) && Im(n) == -Im(p.demand)
    ensures p.Pv? ==> n == p.output
    ensures p.Grid? ==> n == C(0.0, 0.0)
  {
    match p
    case Load(_, _, demand) => Neg(demand)
    case Pv(_, _, output) => output
    case Grid(_, _, _) => C(0.0, 0.0)
  }

  /** The running total of `calculate_power_balance` after the given parts,
      starting from `complex(0, 0)`. */
  function BalanceOf(parts: seq<Part>): (b: Num)
    ensures b.C?
  {
    if |parts| == 0 then C(0.0, 0.0)
    else Add(BalanceOf(parts[..|parts| - 1]), PartPower(parts[|parts| - 1]))
  }

  /** The balance of a concatenation is the sum of the two balances, part
      by part: the total does not depend on how the list was built up. */
  lemma {:induction false} BalanceAppend(a: seq<Part>, b: seq<Part>)
    ensures Re(BalanceOf(a + b)) == Re(BalanceOf(a)) + Re(BalanceOf(b))
    ensures Im(BalanceOf(a + b)) == Im(BalanceOf(a)) + Im(BalanceOf(b))
    decreases |b|
  {
    if |b| == 0 {
      assert a + b == a;
    } else {
      var init, last := b[..|b| - 1], b[|b| - 1];
      assert (a + b)[..|a + b| - 1] == a + init;
      assert (a + b)[|a + b| - 1] == last;
      BalanceAppend(a, init);
    }
  }

  /** A grid adds nothing to the balance it is later asked to close. */
  lemma GridAddsNothing(parts: seq<Part>, g: Part)
    requires g.Grid?
    ensures Re(BalanceOf(parts + [g])) == Re(BalanceOf(parts))
    ensures Im(BalanceOf(parts + [g])) == Im(BalanceOf(parts))
  {
    assert (parts + [g])[..|parts|] == parts;
  }

  /** `Grid.supply_power`: the request is returned as it is when
      `abs(required) <= abs(max_power)`, which holds exactly when the
      squared magnitudes compare the same way; otherwise it raises. */
  function Supply(maxPower: Num, required: Num): (r: Result<Num>)
    ensures r.Success? <==> Norm2(required) <= Norm2(maxPower)
    ensures r.Success? ==> r.value == required
    ensures r.Failure? ==> r.error.ValueError?
  {
    if Norm2(required) <= Norm2(maxPower) then Success(required)
    else Failure(ValueError("required power exceeds grid max_power"))
  }

  /** The first grid in connection order, if any. */
  function FirstGrid(parts: seq<Part>): (g: Option<Part>)
    ensures g.Some? ==> g.value.Grid? && g.value in parts
    ensures g.None? <==> forall k :: 0 <= k < |parts| ==> !parts[k].Grid?
  {
    if |parts| == 0 then None
    else if parts[0].Grid? then Some(parts[0])
    else FirstGrid(parts[1..])
  }

  /** What one bus contributes to the simulation: nothing without a grid,
      else the first grid's answer to the negated balance. */
  function BusResult(parts: seq<Part>): Result<Option<Num>>
  {
    match FirstGrid(parts)
    case None => Success(None)
    case Some(g) =>
      var r := Supply(g.maxPower, Neg(BalanceOf(parts)));
      if r.Failure? then Failure(r.error) else Success(Some(r.value))
  }

  /** The grid closes the balance: when a bus has a grid and that grid
      answers, the balance plus its answer is zero; it answers exactly when
      the balance is within the grid's capacity. */
  lemma GridClosesBalance(parts: seq<Part>)
    requires FirstGrid(parts).Some?
    ensures var g := FirstGrid(parts).value;
      BusResult(parts).Success? <==> Norm2(BalanceOf(parts)) <= Norm2(g.maxPower)
    ensures BusResult(parts).Success? ==>
      var v := BusResult(parts).value.value;
      Re(BalanceOf(parts)) + Re(v) == 0.0 && Im(BalanceOf(parts)) + Im(v) == 0.0
  {
    NegSameMagnitude(BalanceOf(parts));
  }

  lemma NegSameMagnitude(n: Num)
    ensures Norm2(Neg(n)) == Norm2(n)
  {
    var a, b := Re(n), Im(n);
    assert Re(Neg(n)) == -a && Im(Neg(n)) == -b;
    assert (-a) * (-a) == a * a;
    assert (-b) * (-b) == b * b;
  }

  /** The run of the example at the end of the file: a 1000 W + 200 var
      load, an 800 W PV unit and a grid of capacity 10 kW on one bus leave
      the grid to supply 200 W + 200 var. */
  lemma ExampleRun(bus: Bus)
    ensures BusResult([Load("Load1", bus, C(1000.0, 200.0)), Pv("PV1", bus, C(800.0, 0.0)),
                       Grid("Grid1", bus, C(10000.0, 0.0))])
            == Success(Some(C(200.0, 200.0)))
  {
    var parts := [Load("Load1", bus, C(1000.0, 200.0)), Pv("PV1", bus, C(800.0, 0.0)),
                  Grid("Grid1", bus, C(10000.0, 0.0))];
    assert parts[..2][..1][..0] == [];
    assert BalanceOf(parts[..1]) == C(-1000.0, -200.0);
    assert parts[..2][..1] == parts[..1];
    assert BalanceOf(parts[..2]) == C(-200.0, -200.0);
    assert BalanceOf(parts) == C(-200.0, -200.0);
    assert FirstGrid(parts) == Some(parts[2]);
  }

  /** The results of `run_simulation` for the given buses: one entry per
      bus in order, or the error of the first bus whose grid raises. */
  function Simulate(buses: seq<Bus>): Result<seq<Option<Num>>>
    reads set b | b in buses
  {
    if |buses| == 0 then Success([])
    else
      var last := buses[|buses| - 1];
      assert last in buses;
      var init := Simulate(buses[..|buses| - 1]);
      if init.Failure? then init
      else
        var r := BusResult(last.connected);
        if r.Failure? then Failure(r.error) else Success(init.value + [r.value])
  }

  /** A run that has raised stays raised: later buses are never reached. */
  lemma {:induction false} FailureStops(buses: seq<Bus>, i: nat)
    requires i <= |buses| && Simulate(buses[..i]).Failure?
    ensures Simulate(buses) == Simulate(buses[..i])
    decreases |buses| - i
  {
    if i == |buses| {
      assert buses[..i] == buses;
    } else {
      var n := |buses|;
      assert buses[..n - 1][..i] == buses[..i];
      FailureStops(buses[..n - 1], i);
    }
  }

  class Bus {
    const id: string
    const voltage: real
    var connected: seq<Part>

    constructor (id: string, voltage: real)
      ensures this.id == id && this.voltage == voltage && connected == []
    {
      this.id := id;
      this.voltage := voltage;
      connected := [];
    }

    method AddComponent(p: Part)
      modifies this`connected
      ensures connected == old(connected) + [p]
    {
      connected := connected + [p];
    }

    /** `calculate_power_balance`. */
    method CalculatePowerBalance() returns (total: Num)
      ensures total == BalanceOf(connected)
    {
      total := C(0.0, 0.0);
      var k := 0;
      while k < |connected|
        invariant 0 <= k <= |connected|
        invariant total == BalanceOf(connected[..k])
      {
        assert connected[..k + 1][..k] == connected[..k];
        total := Add(total, PartPower(connected[k]));
        k := k + 1;
      }
      assert connected[..k] == connected;
    }
  }

  class Network {
    var buses: seq<Bus>
    var components: seq<Part>

    constructor ()
      ensures buses == [] && components == []
    {
      buses := [];
      components := [];
    }

    method AddBus(b: Bus)
      modifies this`buses
      ensures buses == old(buses) + [b]
    {
      buses := buses + [b];
    }

    /** `add_component`: listed here and on the part's own bus, which need
        not be one of the network's buses. */
    method AddComponent(p: Part)
      modifies this`components, p.bus`connected
      ensures components == old(components) + [p]
      ensures p.bus.connected == old(p.bus.connected) + [p]
    {
      components := components + [p];
      p.bus.AddComponent(p);
    }

    /** The inner loop of `run_simulation`: the first grid among the parts
        is asked for the negated balance, and the loop stops there. */
    static method GridAnswer(parts: seq<Part>, balance: Num) returns (r: Result<Option<Num>>)
      requires balance == BalanceOf(parts)
      ensures r == BusResult(parts)
    {
      var j := 0;
      while j < |parts|
        invariant 0 <= j <= |parts|
        invariant FirstGrid(parts[j..]) == FirstGrid(parts)
      {
        var c := parts[j];
        if c.Grid? {
          var g := Supply(c.maxPower, Neg(balance));
          if g.Failure? {
            return Failure(g.error);
          }
          return Success(Some(g.value));
        }
        assert parts[j..][1..] == parts[j + 1..];
        j := j + 1;
      }
      r := Success(None);
    }

    /** `run_simulation`: per bus, the balance and then the answer of the
        first grid connected to it to the negated balance, or nothing when
        the bus has no grid. The answers, which the source prints, are
        returned; a grid that raises ends the run with its error. */
    method RunSimulation() returns (r: Result<seq<Option<Num>>>)
      ensures r == Simulate(buses)
    {
      var results: seq<Option<Num>> := [];
      var k := 0;
      while k < |buses|
        invariant 0 <= k <= |buses|
        invariant Simulate(buses[..k]) == Success(results)
      {
        var bus := buses[k];
        var balance := bus.CalculatePowerBalance();
        var answer := GridAnswer(bus.connected, balance);
        if answer.Failure? {
          assert buses[..k + 1][..k] == buses[..k];
          FailureStops(buses, k + 1);
          return Failure(answer.error);
        }
        var found := answer.value;
        assert BusResult(bus.connected) == Success(found);
        assert buses[..k + 1][..k] == buses[..k];
        results := results + [found];
        k := k + 1;
      }
      assert buses[..k] == buses;
      r := Success(results);
    }
  }
}

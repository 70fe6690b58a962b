/** The external grid connection (`source/building_network/grid.py`). It is
    not an electrical component: it holds its bus directly, supplies power
    up to a capacity, and can impose its voltage on the bus. Its status is
    a free string compared with "off" in some places and "on" in others. */
module Grids {
  import opened Wrappers
  import opened Numbers
  import opened Buses

  /** `Grid._validate_inputs`, in the order it runs. */
  function ValidateGrid(maxPower: real, voltage: Voltage, technology: string, phaseType: string): (o: Outcome)
    ensures o.Pass? <==> maxPower >= 0.0 && (voltage.Tuple? ==> technology != "dc" && phaseType == "three")
    ensures o.Fail? ==> o.error.ValueError?
    ensures maxPower < 0.0 ==> o == Fail(ValueError("max_power"))
  {
    if maxPower < 0.0 then Fail(ValueError("max_power"))
    else if voltage.Tuple? && technology == "dc" then Fail(ValueError("dc tuple voltage"))
    else if voltage.Tuple? && phaseType != "three" then Fail(ValueError("tuple voltage"))
    else Pass
  }

  /** `magnitude` stands for `abs(required_power)` (DC) or
      `(P**2 + Q**2)**0.5` (AC), the square root the caller supplies. */
  predicate IsMagnitude(req: Num, magnitude: real)
  {
    magnitude >= 0.0 && magnitude * magnitude == Norm2(req)
  }

  /** What `supply_power` returns, given the request and its magnitude.
      Off: the zero of the technology. DC: the request, or the capacity with
      the request's sign when the request is larger. AC: the request, or the
      request scaled by one common factor `max_power / |S|` when its
      apparent power is larger; that division fails only for a zero request
      against a negative capacity. */
  function Supply(status: string, technology: string, maxPower: real, req: Num, magnitude: real): (r: Result<Num>)
    requires status != "off" && technology == "dc" ==> req.R?
    ensures status == "off" ==> r == Success(ZeroFor(technology))
    ensures r.Failure? <==> status != "off" && technology != "dc" && magnitude > maxPower && magnitude == 0.0
    ensures r.Failure? ==> r.error == ZeroDivisionError
    ensures r.Success? && status != "off" ==> (r.value.R? <==> technology == "dc")
  {
    if status == "off" then Success(ZeroFor(technology))
    else if technology == "dc" then
      if magnitude > maxPower then Success(R(if req.x > 0.0 then maxPower else -maxPower))
      else Success(req)
    else if magnitude > maxPower then
      if magnitude == 0.0 then Failure(ZeroDivisionError)
      else
        var scale := maxPower / magnitude;
        Success(C(Re(req) * scale, Im(req) * scale))
    else Success(C(Re(req), Im(req)))
  }

  lemma ZeroProduct(x: real, y: real)
    requires x * y == 0.0 && y != 0.0
    ensures x == 0.0
  {
    assert x == (x * y) / y;
  }

  /** The magnitude of a real number is its absolute value. */
  lemma RealMagnitude(x: real, m: real)
    requires IsMagnitude(R(x), m)
    ensures m == Abs(x)
  {
    var a := Abs(x);
    assert m * m == x * x;
    assert x * x == a * a by {
      if x < 0.0 {
        assert x * x == (-x) * (-x);
      }
    }
    assert (m - a) * (m + a) == m * m - a * a;
    if m + a != 0.0 {
      ZeroProduct(m - a, m + a);
    }
  }

  lemma ProductOfEqualsPositive(x: real, y: real)
    requires x == y
    ensures x * y >= 0.0
    ensures x != 0.0 ==> x * y > 0.0
    ensures x == 0.0 ==> x * y == 0.0
  {
    if x < 0.0 {
      assert x * y == (-x) * (-y);
    }
  }

  /** A sum of two squares vanishes only when both parts do. The squares
      are taken of two names for each part. */
  lemma SquaresZero(a: real, a2: real, b: real, b2: real)
    requires a == a2 && b == b2 && a * a2 + b * b2 == 0.0
    ensures a == 0.0 && b == 0.0
  {
    ProductOfEqualsPositive(a, a2);
    ProductOfEqualsPositive(b, b2);
  }

  /** A request of magnitude zero is the zero request. */
  lemma NoMagnitudeNoRequest(req: Num, magnitude: real)
    requires IsMagnitude(req, magnitude) && magnitude == 0.0
    ensures IsZero(req)
  {
    var a, b := Re(req), Im(req);
    assert magnitude * magnitude == 0.0;
    assert a * a + b * b == 0.0;
    SquaresZero(a, a, b, b);
  }

  lemma SquareMonotone(a: real, b: real)
    requires 0.0 <= a <= b
    ensures a * a <= b * b
  {
    assert a * a <= a * b;
    assert a * b <= b * b;
  }

  /** Scaling both parts by `M / m`, where `m` is the magnitude, gives
      squared magnitude `M * M`. */
  lemma ScaledSquare(a: real, b: real, m: real, bigM: real, s: real)
    requires m != 0.0 && m * m == a * a + b * b && s == bigM / m
    ensures (a * s) * (a * s) + (b * s) * (b * s) == bigM * bigM
  {
    assert m * s == bigM;
    calc {
      (a * s) * (a * s) + (b * s) * (b * s);
      (a * a + b * b) * (s * s);
      (m * m) * (s * s);
      (m * s) * (m * s);
    }
  }

  lemma ScaleBelowOne(bigM: real, m: real)
    requires 0.0 <= bigM < m
    ensures 0.0 <= bigM / m < 1.0
  {
    assert (bigM / m) * m == bigM;
  }

  /** A DC grid with non-negative capacity always supplies, never more than
      its capacity, with the request's sign, and exactly the request when
      it fits. */
  lemma SupplyDc(status: string, maxPower: real, x: real, magnitude: real)
    requires status != "off" && maxPower >= 0.0 && IsMagnitude(R(x), magnitude)
    ensures var r := Supply(status, "dc", maxPower, R(x), magnitude);
      && r.Success? && r.value.R?
      && Abs(r.value.x) <= maxPower
      && (x > 0.0 ==> r.value.x > 0.0 || maxPower == 0.0)
      && (x < 0.0 ==> r.value.x < 0.0 || maxPower == 0.0)
      && (Abs(x) <= maxPower ==> r.value == R(x))
  {
    RealMagnitude(x, magnitude);
  }

  /** An AC request whose apparent power fits is returned unchanged. */
  lemma SupplyAcFits(status: string, technology: string, maxPower: real, req: Num, magnitude: real)
    requires status != "off" && technology != "dc" && IsMagnitude(req, magnitude) && magnitude <= maxPower
    ensures var r := Supply(status, technology, maxPower, req, magnitude);
      && r.Success? && Re(r.value) == Re(req) && Im(r.value) == Im(req)
      && Norm2(r.value) <= maxPower * maxPower
  {
    var r := Supply(status, technology, maxPower, req, magnitude);
    assert r.value == C(Re(req), Im(req));
    assert Norm2(r.value) == Norm2(req);
    SquareMonotone(magnitude, maxPower);
  }

  /** An AC request whose apparent power exceeds a non-negative capacity
      is rescaled by one factor in [0, 1) to apparent power exactly the
      capacity. */
  lemma SupplyAcScaled(status: string, technology: string, maxPower: real, req: Num, magnitude: real)
    requires status != "off" && technology != "dc" && IsMagnitude(req, magnitude)
    requires 0.0 <= maxPower < magnitude
    ensures var r := Supply(status, technology, maxPower, req, magnitude);
      && r.Success?
      && Norm2(r.value) == maxPower * maxPower
      && var s := maxPower / magnitude;
         0.0 <= s < 1.0 && Re(r.value) == Re(req) * s && Im(r.value) == Im(req) * s
  {
    var r := Supply(status, technology, maxPower, req, magnitude);
    var a, b := Re(req), Im(req);
    var s := maxPower / magnitude;
    assert r.value == C(a * s, b * s);
    ScaledSquare(a, b, magnitude, maxPower, s);
    ScaleBelowOne(maxPower, magnitude);
  }

  /** With a non-negative capacity an AC grid always supplies, and never
      beyond its capacity. */
  lemma {:induction false} SupplyAcWithinCapacity(status: string, technology: string, maxPower: real, req: Num,
                                                  magnitude: real)
    requires status != "off" && technology != "dc" && maxPower >= 0.0 && IsMagnitude(req, magnitude)
    ensures var r := Supply(status, technology, maxPower, req, magnitude);
      r.Success? && Norm2(r.value) <= maxPower * maxPower
  {
    if magnitude <= maxPower {
      SupplyAcFits(status, technology, maxPower, req, magnitude);
    } else {
      SupplyAcScaled(status, technology, maxPower, req, magnitude);
    }
  }

  /** A grid as constructed has capacity 0, so whatever it is asked for
      while on, it supplies nothing. */
  lemma ZeroCapacitySuppliesNothing(status: string, technology: string, req: Num, magnitude: real)
    requires IsMagnitude(req, magnitude)
    requires status != "off" && technology == "dc" ==> req.R?
    ensures var r := Supply(status, technology, 0.0, req, magnitude); r.Success? && IsZero(r.value)
  {
    if status != "off" && magnitude == 0.0 {
      NoMagnitudeNoRequest(req, magnitude);
    }
    ZeroCapacityCases(status, technology, req, magnitude);
  }

  lemma ZeroCapacityCases(status: string, technology: string, req: Num, magnitude: real)
    requires magnitude >= 0.0
    requires status != "off" && technology == "dc" ==> req.R?
    requires status != "off" && magnitude == 0.0 ==> IsZero(req)
    ensures var r := Supply(status, technology, 0.0, req, magnitude); r.Success? && IsZero(r.value)
  {
    if status != "off" && magnitude > 0.0 && technology != "dc" {
      ZeroScale(Re(req), Im(req), magnitude);
    }
  }

  lemma ZeroScale(a: real, b: real, m: real)
    requires m != 0.0
    ensures a * (0.0 / m) == 0.0 && b * (0.0 / m) == 0.0
  {
  }

  class Grid {
    const id: string
    const phaseType: string
    const technology: string
    const status: string
    const voltage: Voltage
    var bus: Bus
    var maxPower: real
    var activePower: real
    var reactivePower: real

    /** The constructor writes the given capacity and then overwrites it
        with 0, before the checks run. */
    constructor (id: string, bus: Bus, maxPower: real, voltage: Voltage, phaseType: string,
                 technology: string, status: string, activePower: real, reactivePower: real)
      requires ValidateGrid(0.0, voltage, technology, phaseType).Pass?
      ensures this.maxPower == 0.0
      ensures this.id == id && this.bus == bus && this.voltage == voltage && this.phaseType == phaseType
      ensures this.technology == technology && this.status == status
      ensures this.activePower == activePower && this.reactivePower == reactivePower
    {
      this.maxPower := maxPower;
      this.voltage := voltage;
      this.maxPower := 0.0;
      this.activePower := activePower;
      this.reactivePower := reactivePower;
      this.status := status;
      this.bus := bus;
      this.id := id;
      this.phaseType := phaseType;
      this.technology := technology;
    }

    /** `get_power`: zero when the status is "off", the active power for
        DC, the pair otherwise. */
    function GetPower(): (n: Num)
      reads this
      ensures status == "off" ==> n == ZeroFor(technology)
      ensures status != "off" ==> Re(n) == activePower && Im(n) == (if technology == "dc" then 0.0 else reactivePower)
    {
      Component.PowerOf(status != "off", technology, activePower, reactivePower)
    }

    /** `supply_power`: the result of `Supply`; on success while not off the
        power fields take the supplied value, which `get_power` then
        reports. */
    method SupplyPower(req: Num, magnitude: real) returns (r: Result<Num>)
      requires IsMagnitude(req, magnitude)
      requires status != "off" && technology == "dc" ==> req.R?
      modifies this`activePower, this`reactivePower
      ensures r == Supply(status, technology, maxPower, req, magnitude)
      ensures status == "off" || r.Failure? ==> unchanged(this)
      ensures status != "off" && r.Success? ==>
        && activePower == Re(r.value) && reactivePower == Im(r.value)
        && Re(GetPower()) == Re(r.value) && Im(GetPower()) == Im(r.value)
    {
      if status == "off" {
        return Success(ZeroFor(technology));
      }
      if technology == "dc" {
        var power: real;
        if magnitude > maxPower {
          power := if req.x > 0.0 then maxPower else -maxPower;
        } else {
          power := req.x;
        }
        activePower := power;
        reactivePower := 0.0;
        return Success(R(power));
      }
      var active := Re(req);
      var reactive := Im(req);
      if magnitude > maxPower {
        if magnitude == 0.0 {
          return Failure(ZeroDivisionError);
        }
        var scale := maxPower / magnitude;
        active := active * scale;
        reactive := reactive * scale;
        var want := Supply(status, technology, maxPower, req, magnitude);
        assert Re(want.value) == active && Im(want.value) == reactive;
      }
      activePower := active;
      reactivePower := reactive;
      r := Success(C(active, reactive));
    }

    method ConnectToBus(b: Bus)
      modifies this`bus
      ensures bus == b
    {
      bus := b;
    }

    /** `enforce_voltage`: only a status of exactly "on" imposes the grid
        voltage on the bus. */
    method EnforceVoltage()
      modifies bus`voltage
      ensures status == "on" ==> bus.voltage == voltage
      ensures status != "on" ==> unchanged(bus)
    {
      if status == "on" {
        bus.SetVoltage(voltage);
      }
    }
  }

  /** The constructor: the checks run on the zeroed capacity, so a negative
      capacity argument is accepted, and the grid ends up with capacity 0. */
  method NewGrid(id: string, bus: Bus, maxPower: real, voltage: Voltage, phaseType: string,
                 technology: string, status: string, activePower: real, reactivePower: real)
    returns (r: Result<Grid>)
    ensures r.Success? <==> (voltage.Tuple? ==> technology != "dc" && phaseType == "three")
    ensures r.Failure? ==> Fail(r.error) == ValidateGrid(0.0, voltage, technology, phaseType)
    ensures r.Success? ==> fresh(r.value) && r.value.maxPower == 0.0 && r.value.bus == bus
    ensures r.Success? ==> r.value.status == status && r.value.technology == technology && r.value.id == id
  {
    var v := ValidateGrid(0.0, voltage, technology, phaseType);
    if v.Fail? {
      return Failure(v.error);
    }
    var g := new Grid(id, bus, maxPower, voltage, phaseType, technology, status, activePower, reactivePower);
    return Success(g);
  }
}

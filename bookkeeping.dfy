/** The clamped energy bookkeeping that `EnergyStorage.charge/discharge`
    (`source/building_network/energy_storage.py`) and
    `EVCharger.charge/discharge` (`source/building_network/ev_charger.py`)
    both perform on a state of charge in [0, 1], written once. Every
    division the Python code performs is guarded: a zero divisor raises
    `ZeroDivisionError` there and is a `Failure` here. */
module Bookkeeping {
  import opened Wrappers

  /** The power actually exchanged with the bus and the new state of charge. */
  datatype Transfer = Transfer(power: real, soc: real)

  /** The fraction of the capacity still free, `1 - soc`. */
  function Headroom(soc: real): real
  {
    1.0 - soc
  }

  /** Energy the request would store: `min(power, max) * time_step * efficiency`. */
  function EnergyIn(efficiency: real, maxPower: real, power: real, timeStep: real): real
  {
    Min(power, maxPower) * timeStep * efficiency
  }

  /** Energy the request would draw: `min(power, max) * time_step / efficiency`. */
  function EnergyOut(efficiency: real, maxPower: real, power: real, timeStep: real): real
    requires efficiency != 0.0
  {
    Min(power, maxPower) * timeStep / efficiency
  }

  /** One `charge` step after the on/off and sign checks. The request is cut
      to `maxPower`; if the energy it would store exceeds the free capacity
      `capacity * (1 - soc)`, exactly the free capacity is stored and the
      power is recomputed from it. */
  function ChargeStep(soc: real, capacity: real, efficiency: real, maxPower: real,
                      power: real, timeStep: real): (r: Result<Transfer>)
    ensures r.Failure? <==>
      capacity == 0.0 ||
      (EnergyIn(efficiency, maxPower, power, timeStep) > capacity * Headroom(soc) && timeStep * efficiency == 0.0)
    ensures r.Failure? ==> r.error == ZeroDivisionError
  {
    var effective := Min(power, maxPower);
    var available := capacity * Headroom(soc);
    var energy := effective * timeStep * efficiency;
    if energy > available && timeStep * efficiency == 0.0 then Failure(ZeroDivisionError)
    else if capacity == 0.0 then Failure(ZeroDivisionError)
    else if energy > available then
      Success(Transfer(available / (timeStep * efficiency), soc + available / capacity))
    else
      Success(Transfer(effective, soc + energy / capacity))
  }

  /** What a successful charge step did: the state of charge rose by exactly
      the stored energy over the capacity; an unclamped request was served
      in full, and a clamped one filled the battery. */
  lemma ChargeLaw(soc: real, capacity: real, efficiency: real, maxPower: real, power: real, timeStep: real)
    requires ChargeStep(soc, capacity, efficiency, maxPower, power, timeStep).Success?
    ensures var t := ChargeStep(soc, capacity, efficiency, maxPower, power, timeStep).value;
      && t.soc == soc + t.power * timeStep * efficiency / capacity
      && (EnergyIn(efficiency, maxPower, power, timeStep) <= capacity * Headroom(soc) ==> t.power == Min(power, maxPower))
      && (EnergyIn(efficiency, maxPower, power, timeStep) > capacity * Headroom(soc) ==> t.soc == 1.0)
  {
    var available := capacity * Headroom(soc);
    if EnergyIn(efficiency, maxPower, power, timeStep) > available {
      var te := timeStep * efficiency;
      var served := available / te;
      DivMul(available, te);
      assert served * timeStep * efficiency == available;
      var t := ChargeStep(soc, capacity, efficiency, maxPower, power, timeStep).value;
      assert t == Transfer(served, soc + available / capacity);
      MulDiv(Headroom(soc), capacity);
      assert available / capacity == Headroom(soc);
      assert t.soc == 1.0;
    }
  }

  /** One `discharge` step after the on/off and sign checks. The request is
      cut to `maxPower`; if the energy it would draw exceeds the stored
      energy `capacity * soc`, exactly the stored energy is drawn. */
  function DischargeStep(soc: real, capacity: real, efficiency: real, maxPower: real,
                         power: real, timeStep: real): (r: Result<Transfer>)
    ensures r.Failure? <==>
      efficiency == 0.0 || capacity == 0.0 ||
      (EnergyOut(efficiency, maxPower, power, timeStep) > capacity * soc && timeStep == 0.0)
    ensures r.Failure? ==> r.error == ZeroDivisionError
  {
    if efficiency == 0.0 then Failure(ZeroDivisionError)
    else
      var effective := Min(power, maxPower);
      var available := capacity * soc;
      var energy := effective * timeStep / efficiency;
      if energy > available && timeStep == 0.0 then Failure(ZeroDivisionError)
      else if capacity == 0.0 then Failure(ZeroDivisionError)
      else if energy > available then
        Success(Transfer(available * efficiency / timeStep, soc - available / capacity))
      else
        Success(Transfer(effective, soc - energy / capacity))
  }

  /** What a successful discharge step did: the state of charge fell by
      exactly the drawn energy over the capacity; an unclamped request was
      served in full, and a clamped one emptied the battery. */
  lemma DischargeLaw(soc: real, capacity: real, efficiency: real, maxPower: real, power: real, timeStep: real)
    requires DischargeStep(soc, capacity, efficiency, maxPower, power, timeStep).Success?
    ensures var t := DischargeStep(soc, capacity, efficiency, maxPower, power, timeStep).value;
      && t.soc == soc - t.power * timeStep / efficiency / capacity
      && (EnergyOut(efficiency, maxPower, power, timeStep) <= capacity * soc ==> t.power == Min(power, maxPower))
      && (EnergyOut(efficiency, maxPower, power, timeStep) > capacity * soc ==> t.soc == 0.0)
  {
    var available := capacity * soc;
    assert efficiency != 0.0 && capacity != 0.0;
    if EnergyOut(efficiency, maxPower, power, timeStep) > available {
      DischargeClamped(soc, capacity, efficiency, maxPower, power, timeStep);
    } else {
      DischargeUnclamped(soc, capacity, efficiency, maxPower, power, timeStep);
    }
  }

  lemma DischargeClamped(soc: real, capacity: real, efficiency: real, maxPower: real, power: real, timeStep: real)
    requires DischargeStep(soc, capacity, efficiency, maxPower, power, timeStep).Success?
    requires EnergyOut(efficiency, maxPower, power, timeStep) > capacity * soc
    ensures var t := DischargeStep(soc, capacity, efficiency, maxPower, power, timeStep).value;
      t.soc == soc - t.power * timeStep / efficiency / capacity && t.soc == 0.0
  {
    var t := DischargeStep(soc, capacity, efficiency, maxPower, power, timeStep).value;
    var available := capacity * soc;
    assert efficiency != 0.0 && capacity != 0.0 && timeStep != 0.0;
    assert t.power == available * efficiency / timeStep;
    assert t.soc == soc - available / capacity;
    EmptiedBattery(soc, capacity, efficiency, timeStep, t.power);
  }

  lemma DischargeUnclamped(soc: real, capacity: real, efficiency: real, maxPower: real, power: real, timeStep: real)
    requires DischargeStep(soc, capacity, efficiency, maxPower, power, timeStep).Success?
    requires EnergyOut(efficiency, maxPower, power, timeStep) <= capacity * soc
    ensures var t := DischargeStep(soc, capacity, efficiency, maxPower, power, timeStep).value;
      t.soc == soc - t.power * timeStep / efficiency / capacity && t.power == Min(power, maxPower)
  {
    var t := DischargeStep(soc, capacity, efficiency, maxPower, power, timeStep).value;
    var e := Min(power, maxPower);
    assert efficiency != 0.0 && capacity != 0.0;
    var energy := e * timeStep / efficiency;
    assert !(energy > capacity * soc);
    assert t.power == e;
    assert t.soc == soc - energy / capacity;
  }

  /** The power served from the whole stored energy accounts for all of
      it, and drawing it all leaves nothing. */
  lemma EmptiedBattery(soc: real, capacity: real, efficiency: real, timeStep: real, served: real)
    requires capacity != 0.0 && efficiency != 0.0 && timeStep != 0.0
    requires served == capacity * soc * efficiency / timeStep
    ensures served * timeStep / efficiency / capacity == soc
    ensures soc - capacity * soc / capacity == 0.0
  {
    var stored := capacity * soc;
    ServedBack(stored, efficiency, timeStep);
    assert served * timeStep / efficiency == stored;
    MulDiv(soc, capacity);
    assert stored / capacity == soc;
  }

  /** Energy recomputed from the power served from it comes back unchanged. */
  lemma ServedBack(energy: real, efficiency: real, timeStep: real)
    requires efficiency != 0.0 && timeStep != 0.0
    ensures (energy * efficiency / timeStep) * timeStep / efficiency == energy
  {
    DivMul(energy * efficiency, timeStep);
    MulDiv(energy, efficiency);
  }

  lemma MulDiv(a: real, b: real)
    requires b != 0.0
    ensures (b * a) / b == a && (a * b) / b == a
  {
  }

  lemma DivMul(a: real, b: real)
    requires b != 0.0
    ensures (a / b) * b == a
  {
  }

  /** The device parameters the constructors validate. */
  predicate ValidParameters(capacity: real, efficiency: real, maxCharge: real, maxDischarge: real)
  {
    capacity > 0.0 && 0.0 < efficiency <= 1.0 && maxCharge >= 0.0 && maxDischarge >= 0.0
  }

  /** With valid parameters, a state of charge at most 1 and a non-negative
      request, charging never divides by zero; with a non-negative time step
      it serves between 0 and the capped request and leaves the state of
      charge in [soc, 1]. */
  lemma ChargeBounds(soc: real, capacity: real, efficiency: real, maxPower: real, power: real, timeStep: real)
    requires capacity > 0.0 && 0.0 < efficiency <= 1.0 && maxPower >= 0.0
    requires soc <= 1.0 && power >= 0.0
    ensures ChargeStep(soc, capacity, efficiency, maxPower, power, timeStep).Success?
    ensures timeStep >= 0.0 ==>
      var t := ChargeStep(soc, capacity, efficiency, maxPower, power, timeStep).value;
      0.0 <= t.power <= Min(power, maxPower) && soc <= t.soc <= 1.0
  {
    var e := Min(power, maxPower);
    var free := capacity * Headroom(soc);
    var energy := EnergyIn(efficiency, maxPower, power, timeStep);
    assert free >= 0.0 by { assert Headroom(soc) >= 0.0; }
    var te := timeStep * efficiency;
    assert energy == e * te;
    if te == 0.0 {
      assert energy == 0.0;
    }
    if timeStep >= 0.0 {
      ChargeLaw(soc, capacity, efficiency, maxPower, power, timeStep);
      var t := ChargeStep(soc, capacity, efficiency, maxPower, power, timeStep).value;
      assert te >= 0.0;
      if energy > free {
        assert te > 0.0;
        assert t.power * te == free;
        assert t.power >= 0.0;
        assert t.power < e;
      } else {
        assert t.power == e;
        assert t.soc == soc + energy / capacity;
        DivBounds(energy, free, capacity);
        MulDiv(Headroom(soc), capacity);
      }
    }
  }

  /** With valid parameters, a non-negative state of charge and a
      non-negative request, discharging never divides by zero; with a
      non-negative time step it serves between 0 and the capped request and
      leaves the state of charge in [0, soc]. */
  lemma DischargeBounds(soc: real, capacity: real, efficiency: real, maxPower: real, power: real, timeStep: real)
    requires capacity > 0.0 && 0.0 < efficiency <= 1.0 && maxPower >= 0.0
    requires soc >= 0.0 && power >= 0.0
    ensures DischargeStep(soc, capacity, efficiency, maxPower, power, timeStep).Success?
    ensures timeStep >= 0.0 ==>
      var t := DischargeStep(soc, capacity, efficiency, maxPower, power, timeStep).value;
      0.0 <= t.power <= Min(power, maxPower) && 0.0 <= t.soc <= soc
  {
    var e := Min(power, maxPower);
    var stored := capacity * soc;
    var energy := EnergyOut(efficiency, maxPower, power, timeStep);
    assert stored >= 0.0;
    if timeStep == 0.0 {
      assert energy == 0.0;
    }
    if timeStep >= 0.0 {
      DischargeLaw(soc, capacity, efficiency, maxPower, power, timeStep);
      var t := DischargeStep(soc, capacity, efficiency, maxPower, power, timeStep).value;
      assert energy >= 0.0;
      if energy > stored {
        assert timeStep > 0.0;
        assert t.power == stored * efficiency / timeStep;
        assert t.power >= 0.0;
        assert e * timeStep > stored * efficiency by {
          MulDiv(e * timeStep, efficiency);
          assert (e * timeStep) / efficiency > stored;
        }
        assert t.power * timeStep == stored * efficiency by {
          DivMul(stored * efficiency, timeStep);
        }
        assert t.power < e;
      } else {
        assert t.power == e;
        assert t.soc == soc - energy / capacity;
        DivBounds(energy, stored, capacity);
        MulDiv(soc, capacity);
      }
    }
  }

  lemma DivBounds(x: real, y: real, c: real)
    requires c > 0.0 && 0.0 <= x <= y
    ensures 0.0 <= x / c <= y / c
  {
  }

  /** The worked example: a 1000 Wh battery at half charge with efficiency
      0.9 and a 1000 W limit, charged with 500 W for one hour, stores 450 Wh,
      ends at 0.95 and reports 500 W. */
  lemma ChargeExample()
    ensures ChargeStep(0.5, 1000.0, 0.9, 1000.0, 500.0, 1.0) == Success(Transfer(500.0, 0.95))
  {
    assert EnergyIn(0.9, 1000.0, 500.0, 1.0) == 450.0;
  }

  /** A sequence of charge and discharge requests. */
  datatype Request = ChargeRequest(power: real, timeStep: real) | DischargeRequest(power: real, timeStep: real)

  /** The state of charge after serving the requests in order, or the first
      failure. */
  function Replay(soc: real, capacity: real, efficiency: real, maxCharge: real, maxDischarge: real,
                  requests: seq<Request>): Result<real>
    decreases |requests|
  {
    if requests == [] then Success(soc)
    else
      var q := requests[0];
      var step := match q
        case ChargeRequest(p, ts) => ChargeStep(soc, capacity, efficiency, maxCharge, p, ts)
        case DischargeRequest(p, ts) => DischargeStep(soc, capacity, efficiency, maxDischarge, p, ts);
      match step
      case Failure(e) => Failure(e)
      case Success(t) => Replay(t.soc, capacity, efficiency, maxCharge, maxDischarge, requests[1..])
  }

  /** The state of charge stays in [0, 1] through any sequence of
      non-negative requests with non-negative time steps, and no step fails. */
  lemma {:induction false} ReplayStaysInRange(soc: real, capacity: real, efficiency: real, maxCharge: real,
                                              maxDischarge: real, requests: seq<Request>)
    requires ValidParameters(capacity, efficiency, maxCharge, maxDischarge)
    requires 0.0 <= soc <= 1.0
    requires forall i :: 0 <= i < |requests| ==> requests[i].power >= 0.0 && requests[i].timeStep >= 0.0
    ensures Replay(soc, capacity, efficiency, maxCharge, maxDischarge, requests).Success?
    ensures 0.0 <= Replay(soc, capacity, efficiency, maxCharge, maxDischarge, requests).value <= 1.0
    decreases |requests|
  {
    if requests != [] {
      var q := requests[0];
      var next: real;
      match q {
        case ChargeRequest(p, ts) =>
          ChargeBounds(soc, capacity, efficiency, maxCharge, p, ts);
          next := ChargeStep(soc, capacity, efficiency, maxCharge, p, ts).value.soc;
        case DischargeRequest(p, ts) =>
          DischargeBounds(soc, capacity, efficiency, maxDischarge, p, ts);
          next := DischargeStep(soc, capacity, efficiency, maxDischarge, p, ts).value.soc;
      }
      assert forall i :: 0 <= i < |requests[1..]| ==> requests[1..][i] == requests[i + 1];
      ReplayStaysInRange(next, capacity, efficiency, maxCharge, maxDischarge, requests[1..]);
    }
  }
}

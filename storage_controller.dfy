/** The storage dispatch rule of `CustomStorageController`
    (`source/building_network/test.py`): each control step charges from a
    PV surplus, discharges into a deficit while charge is left, and keeps
    the state of charge between its floor and its cap. The network tables
    the controller reads and writes are parameters and result here. */
module StorageControl {
  import opened Wrappers

  /** The new state of charge and the storage set-point `p_mw` written back
      (negative while charging, positive while discharging). */
  datatype StepResult = StepResult(soc: real, setpoint: real)

  /** One `control_step` from state of charge `soc`, given the PV output,
      the load demand, and the storage limits `max_p_mw` and `max_e_mwh`. */
  function Step(soc: real, socMin: real, socMax: real, pv: real, load: real, maxP: real, maxE: real): (r: StepResult)
    requires maxE > 0.0
    ensures pv - load > 0.0 ==> r.setpoint == -Min(pv - load, maxP) && r.soc <= socMax
    ensures pv - load < 0.0 && soc > socMin ==> r.setpoint == Min(load - pv, maxP) && r.soc >= socMin
    ensures !(pv - load > 0.0) && !(pv - load < 0.0 && soc > socMin) ==> r == StepResult(soc, 0.0)
  {
    var net := pv - load;
    if net > 0.0 then
      var charge := Min(net, maxP);
      StepResult(Min(soc + charge / maxE, socMax), -charge)
    else if net < 0.0 && soc > socMin then
      var discharge := Min(-net, maxP);
      StepResult(Max(soc - discharge / maxE, socMin), discharge)
    else StepResult(soc, 0.0)
  }

  /** A state of charge within [soc_min, soc_max] stays there, for any PV
      output and load, provided the power limit is not negative. */
  lemma StepStaysInRange(soc: real, socMin: real, socMax: real, pv: real, load: real, maxP: real, maxE: real)
    requires maxE > 0.0 && maxP >= 0.0
    requires socMin <= soc <= socMax
    ensures var r := Step(soc, socMin, socMax, pv, load, maxP, maxE);
      socMin <= r.soc <= socMax
  {
    var net := pv - load;
    if net > 0.0 {
      QuotientNonNegative(Min(net, maxP), maxE);
    } else if net < 0.0 && soc > socMin {
      QuotientNonNegative(Min(-net, maxP), maxE);
    }
  }

  lemma QuotientNonNegative(p: real, e: real)
    requires p >= 0.0 && e > 0.0
    ensures p / e >= 0.0
  {
  }

  /** The set-point never asks for more than the power limit, charges only
      from a surplus and discharges only into a deficit. */
  lemma SetpointBounded(soc: real, socMin: real, socMax: real, pv: real, load: real, maxP: real, maxE: real)
    requires maxE > 0.0 && maxP >= 0.0
    ensures var r := Step(soc, socMin, socMax, pv, load, maxP, maxE);
      && Abs(r.setpoint) <= maxP
      && (r.setpoint < 0.0 ==> pv > load)
      && (r.setpoint > 0.0 ==> pv < load && soc > socMin)
      && Abs(r.setpoint) <= Abs(pv - load)
  {
  }

  /** Charging and discharging move the state of charge by the energy of
      the set-point over the capacity, unless the cap or the floor cuts the
      move short; an idle step leaves it alone. */
  lemma SocFollowsSetpoint(soc: real, socMin: real, socMax: real, pv: real, load: real, maxP: real, maxE: real)
    requires maxE > 0.0
    ensures var r := Step(soc, socMin, socMax, pv, load, maxP, maxE);
      var moved := soc - r.setpoint / maxE;
      r.soc == moved || r.soc == socMax || r.soc == socMin
  {
    var r := Step(soc, socMin, socMax, pv, load, maxP, maxE);
    var net := pv - load;
    if net > 0.0 {
      var charge := Min(net, maxP);
      assert -r.setpoint / maxE == charge / maxE;
    } else if net < 0.0 && soc > socMin {
    } else {
      assert r.setpoint / maxE == 0.0;
    }
  }

  class StorageController {
    const storageIndex: int
    const pvIndex: int
    const loadIndex: int
    var soc: real
    const socMin: real
    const socMax: real

    constructor (storageIndex: int, pvIndex: int, loadIndex: int, socInitial: real, socMin: real, socMax: real)
      ensures this.storageIndex == storageIndex && this.pvIndex == pvIndex && this.loadIndex == loadIndex
      ensures soc == socInitial && this.socMin == socMin && this.socMax == socMax
    {
      this.storageIndex := storageIndex;
      this.pvIndex := pvIndex;
      this.loadIndex := loadIndex;
      soc := socInitial;
      this.socMin := socMin;
      this.socMax := socMax;
    }

    /** `control_step`, given the PV and load `p_mw` read from the network
        and the storage's `max_p_mw` and `max_e_mwh`; the `p_mw` the source
        writes back is returned. */
    method ControlStep(pv: real, load: real, maxP: real, maxE: real) returns (setpoint: real)
      requires maxE > 0.0
      modifies this`soc
      ensures StepResult(soc, setpoint) == Step(old(soc), socMin, socMax, pv, load, maxP, maxE)
      ensures maxP >= 0.0 && socMin <= old(soc) <= socMax ==> socMin <= soc <= socMax && Abs(setpoint) <= maxP
    {
      var netPower := pv - load;
      if netPower > 0.0 {
        var chargePower := Min(netPower, maxP);
        soc := soc + chargePower / maxE;
        soc := Min(soc, socMax);
        setpoint := -chargePower;
      } else if netPower < 0.0 && soc > socMin {
        var dischargePower := Min(-netPower, maxP);
        soc := soc - dischargePower / maxE;
        soc := Max(soc, socMin);
        setpoint := dischargePower;
      } else {
        setpoint := 0.0;
      }
      if maxP >= 0.0 && socMin <= old(soc) <= socMax {
        StepStaysInRange(old(soc), socMin, socMax, pv, load, maxP, maxE);
        SetpointBounded(old(soc), socMin, socMax, pv, load, maxP, maxE);
      }
    }
  }
}

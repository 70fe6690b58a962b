/** The reinforcement-learning environment `EnergyEnv` (`reinforcement_lr.py`):
    a battery that an agent charges from PV surplus or discharges into a
    deficit, one time step per action, rewarded by minus the grid import.
    The agent, the dataset and the observation space's float32 rounding
    are not part of this model. */
module EnergyEnvironment {
  import opened Wrappers

  /** The observation `[battery_level, generation, consumption]`. */
  datatype State = State(batteryLevel: real, generation: real, consumption: real)

  /** What `step` returns: next state (None once done), reward and done. */
  datatype StepOutcome = StepOutcome(next: Option<State>, reward: real, done: bool)

  /** The battery level after one action: action 1 stores a positive
      surplus up to the capacity, action 2 draws the deficit as far as the
      battery can give it, and anything else leaves the level alone. */
  function NextLevel(level: real, capacity: real, pv: real, load: real, action: int): (l: real)
  {
    if action == 1 then
      var excess := pv - load;
      if excess > 0.0 then Min(level + excess, capacity) else level
    else if action == 2 then
      var deficit := load - pv;
      if deficit > 0.0 then level - Min(deficit, level) else level
    else level
  }

  /** `-max(0, load - pv - battery_level)`, on the level after the action. */
  function Reward(level: real, pv: real, load: real): (r: real)
    ensures r <= 0.0
    ensures r == 0.0 <==> load - pv <= level
  {
    -Max(0.0, load - pv - level)
  }

  /** A level in [0, capacity] stays in [0, capacity] whatever the action
      and the readings. */
  lemma LevelStaysInRange(level: real, capacity: real, pv: real, load: real, action: int)
    requires 0.0 <= level <= capacity
    ensures 0.0 <= NextLevel(level, capacity, pv, load, action) <= capacity
  {
  }

  /** Charging adds only a surplus and never more than it; discharging
      removes only into a deficit and never more than the deficit; in each
      case the level moves in one direction only. */
  lemma {:induction false} ActionsMoveTheRightWay(level: real, capacity: real, pv: real, load: real, action: int)
    requires 0.0 <= level <= capacity
    ensures var l := NextLevel(level, capacity, pv, load, action);
      && (action == 1 ==> level <= l <= level + Max(0.0, pv - load))
      && (action == 2 ==> level - Max(0.0, load - pv) <= l <= level)
      && (action != 1 && action != 2 ==> l == level)
      && (l != level ==> (action == 1 && pv > load) || (action == 2 && load > pv))
  {
    var l := NextLevel(level, capacity, pv, load, action);
    if action == 1 && pv - load > 0.0 {
      assert l == Min(level + (pv - load), capacity);
    } else if action == 2 && load - pv > 0.0 {
      assert l == level - Min(load - pv, level);
    }
  }

  /** The reward is taken against the level left after the action. So
      when the battery could cover a deficit, doing nothing is rewarded 0,
      while discharging to cover it is charged the part of the deficit that
      exceeds what remains afterwards. */
  lemma RewardAgainstRemainingLevel(level: real, capacity: real, pv: real, load: real)
    requires 0.0 <= level && 0.0 < load - pv <= level
    ensures Reward(NextLevel(level, capacity, pv, load, 0), pv, load) == 0.0
    ensures Reward(NextLevel(level, capacity, pv, load, 2), pv, load) == -Max(0.0, (load - pv) - (level - (load - pv)))
  {
    assert NextLevel(level, capacity, pv, load, 2) == level - (load - pv);
  }

  class EnergyEnv {
    const generation: seq<real>
    const consumption: seq<real>
    const batteryCapacity: real
    var currentStep: nat
    var batteryLevel: real

    /** The invariant a reset establishes and every step keeps. */
    ghost predicate Valid()
      reads this
    {
      0.0 <= batteryLevel <= batteryCapacity
    }

    /** The observation box reads `max(generation)` and `max(consumption)`,
        so both series must be non-empty. */
    constructor (generation: seq<real>, consumption: seq<real>, batteryCapacity: real)
      requires |generation| > 0 && |consumption| > 0
      ensures this.generation == generation && this.consumption == consumption
      ensures this.batteryCapacity == batteryCapacity && currentStep == 0 && batteryLevel == 0.0
    {
      this.generation := generation;
      this.consumption := consumption;
      this.batteryCapacity := batteryCapacity;
      currentStep := 0;
      batteryLevel := 0.0;
    }

    /** `_get_state`: indexing past either series raises. */
    function GetState(): (r: Result<State>)
      reads this
      ensures r.Failure? <==> currentStep >= |generation| || currentStep >= |consumption|
      ensures r.Failure? ==> r.error == IndexError
      ensures r.Success? ==>
        r.value == State(batteryLevel, generation[currentStep], consumption[currentStep])
    {
      if currentStep >= |generation| || currentStep >= |consumption| then Failure(IndexError)
      else Success(State(batteryLevel, generation[currentStep], consumption[currentStep]))
    }

    /** `reset`: back to step 0 with an empty battery. */
    method Reset() returns (r: Result<State>)
      modifies this`currentStep, this`batteryLevel
      ensures currentStep == 0 && batteryLevel == 0.0
      ensures r == GetState()
      ensures batteryCapacity >= 0.0 ==> Valid()
    {
      currentStep := 0;
      batteryLevel := 0.0;
      r := GetState();
    }

    /** `step(action)`: reads the current readings (raising past either
        series, before anything changes), applies the action, computes the
        reward, advances the step and reports done once the generation
        series is used up; otherwise it observes the next state, which can
        still raise when the consumption series is the shorter one. */
    method Step(action: int) returns (r: Result<StepOutcome>)
      modifies this`currentStep, this`batteryLevel
      ensures old(currentStep) >= |generation| || old(currentStep) >= |consumption| ==>
        r == Failure(IndexError) && unchanged(this)
      ensures old(currentStep) < |generation| && old(currentStep) < |consumption| ==>
        var pv, load := generation[old(currentStep)], consumption[old(currentStep)];
        && batteryLevel == NextLevel(old(batteryLevel), batteryCapacity, pv, load, action)
        && currentStep == old(currentStep) + 1
        && var reward := Reward(batteryLevel, pv, load);
           if currentStep >= |generation| then r == Success(StepOutcome(None, reward, true))
           else if GetState().Failure? then r == Failure(IndexError)
           else r == Success(StepOutcome(Some(GetState().value), reward, false))
      ensures r.Success? ==>
        && r.value.reward <= 0.0
        && (r.value.done <==> currentStep >= |generation|)
        && (r.value.next.None? <==> r.value.done)
      ensures old(Valid()) ==> Valid()
    {
      if currentStep >= |generation| || currentStep >= |consumption| {
        return Failure(IndexError);
      }
      var pvGen := generation[currentStep];
      var load := consumption[currentStep];
      if old(Valid()) {
        LevelStaysInRange(batteryLevel, batteryCapacity, pvGen, load, action);
      }
      if action == 1 {
        var excessPv := pvGen - load;
        if excessPv > 0.0 {
          batteryLevel := Min(batteryLevel + excessPv, batteryCapacity);
        }
      } else if action == 2 {
        var deficit := load - pvGen;
        if deficit > 0.0 {
          var discharge := Min(deficit, batteryLevel);
          batteryLevel := batteryLevel - discharge;
        }
      }
      var gridImport := Max(0.0, load - pvGen - batteryLevel);
      var reward := -gridImport;
      currentStep := currentStep + 1;
      var done := currentStep >= |generation|;
      if done {
        return Success(StepOutcome(None, reward, true));
      }
      var next := GetState();
      if next.Failure? {
        return Failure(next.error);
      }
      r := Success(StepOutcome(Some(next.value), reward, false));
    }
  }

  /** The constructor: `max` of an empty series raises. */
  method NewEnv(generation: seq<real>, consumption: seq<real>, batteryCapacity: real) returns (r: Result<EnergyEnv>)
    ensures r.Failure? <==> |generation| == 0 || |consumption| == 0
    ensures r.Failure? ==> r.error.ValueError?
    ensures r.Success? ==> fresh(r.value) && r.value.generation == generation && r.value.consumption == consumption
    ensures r.Success? ==> r.value.currentStep == 0 && r.value.batteryLevel == 0.0
    ensures r.Success? ==> r.value.batteryCapacity == batteryCapacity
  {
    if |generation| == 0 || |consumption| == 0 {
      return Failure(ValueError("max() of an empty sequence"));
    }
    var e := new EnergyEnv(generation, consumption, batteryCapacity);
    return Success(e);
  }
}

/** The cell-level battery model `EnergyStorageModel`
    (`source/energy_storage/energy_storage.py`): named constants with
    validating setters, a bulk update by name, and the state-of-charge and
    state-of-health steps. As written the class cannot be constructed (its
    getters call themselves and several properties have no setter, and the
    `eol` setter rejects the default 70), so the model holds the values
    the constructor assigns without running the setters, and applies the
    setters' checks when a constant is written by name. */
module StorageModel {
  import opened Wrappers

  /** Properties whose setter raises for a value in [0, 100]: the check
      is the reverse of its message, so every percentage is refused. */
  const PercentSetters: set<string> := {"eol", "soc_min", "soc_max"}

  /** Properties whose setter refuses a negative value. */
  const NonNegativeSetters: set<string> :=
    {"discharge_current_max", "charge_current_max", "cell_nominal_capacity", "internal_resistance"}

  /** Properties without a setter: writing them raises `AttributeError`. */
  const ReadOnly: set<string> :=
    {"battery_charge_efficiency", "battery_discharge_efficiency", "delta_dod", "cycle_life", "calendar_life",
     "power_max", "current_max", "k_s1", "k_s2", "k_s3", "k_s4", "E_a", "R", "T_ref", "T_i"}

  /** The attributes `_update_soc` and `_update_soh` read and write. */
  const StateNames: set<string> := {"soc", "soh", "c_rate_charge", "c_rate_discharge", "soc_min", "soc_max"}

  /** The attributes the constructor assigns, with their initial values. */
  const InitialAttributes: map<string, real> := map[
    "cell_voltage" := 3.3, "cell_stored_energy" := 3.63, "cell_temperature" := 25.0,
    "cell_capacity" := 3.3, "soc" := 30.0, "soc_init" := 50.0, "soh" := 100.0, "soh_init" := 100.0,
    "c_rate_charge" := 1.0, "c_rate_discharge" := 1.0, "voltage" := 330.0, "current" := 0.0,
    "temperature" := 25.0, "voltage_max" := 340.0, "cell_series_number" := 100.0,
    "parallel_branches" := 16.0, "discharge_current_max" := 30.0, "charge_current_max" := 4.0,
    "eol" := 70.0, "soc_min" := 15.0, "soc_max" := 90.0, "cell_nominal_capacity" := 1.1,
    "internal_resistance" := 12.6, "battery_charge_efficiency" := 0.96,
    "battery_discharge_efficiency" := 0.96, "delta_dod" := 75.0, "cycle_life" := 2000.0,
    "calendar_life" := 10.0, "power_max" := 5000.0, "current_max" := 30.0,
    "k_s1" := -0.0004092, "k_s2" := -2.167, "k_s3" := 0.00001408, "k_s4" := 6.13,
    "E_a" := 78.06, "R" := 8.314, "T_ref" := 298.15, "T_i" := 303.15]

  /** What assigning `value` to attribute `key` does before storing it. */
  function CheckSetting(key: string, value: real): (o: Outcome)
    ensures o.Fail? <==>
      || (key in PercentSetters && 0.0 <= value <= 100.0)
      || (key in NonNegativeSetters && value < 0.0)
      || key in ReadOnly
    ensures o.Fail? && key in ReadOnly ==> o == Fail(AttributeError(key))
    ensures o.Fail? && key !in ReadOnly ==> o.error.ValueError?
  {
    if key in PercentSetters then
      if 0.0 <= value <= 100.0 then Fail(ValueError(key + " must be between 0 and 100")) else Pass
    else if key in NonNegativeSetters then
      if value < 0.0 then Fail(ValueError(key + " must be non-negative")) else Pass
    else if key in ReadOnly then Fail(AttributeError(key))
    else Pass
  }

  /** The three percentage setters accept only values that are not
      percentages, so the defaults the constructor assigns to them (70, 15
      and 90) are all refused. */
  lemma PercentSettersRefuseDefaults()
    ensures forall k :: k in PercentSetters ==> k in InitialAttributes && CheckSetting(k, InitialAttributes[k]).Fail?
    ensures forall v: real :: CheckSetting("soc_max", v).Pass? <==> v < 0.0 || v > 100.0
  {
  }

  /** One entry of `_update_constants`: the key must name an attribute,
      and the assignment must pass its setter's check. */
  function CheckUpdate(keys: set<string>, key: string, value: real): (o: Outcome)
    ensures o.Pass? <==> key in keys && CheckSetting(key, value).Pass?
  {
    if key !in keys then Fail(AttributeError(key)) else CheckSetting(key, value)
  }

  /** `_update_constants` on the attribute dictionary: the entries are
      written in order and the first one refused ends the update with its
      error, the earlier ones staying written. */
  function ApplyUpdates(attrs: map<string, real>, items: seq<(string, real)>): (r: (map<string, real>, Outcome))
    ensures r.0.Keys == attrs.Keys
    decreases |items|
  {
    if |items| == 0 then (attrs, Pass)
    else
      var (key, value) := items[0];
      var o := CheckUpdate(attrs.Keys, key, value);
      if o.Fail? then (attrs, o) else ApplyUpdates(attrs[key := value], items[1..])
  }

  /** The update fails exactly when some entry is refused; since the
      attribute names never change, whether an entry is refused does not
      depend on the ones before it. */
  lemma {:induction false} UpdateFailsIffSomeEntryRefused(attrs: map<string, real>, items: seq<(string, real)>)
    ensures ApplyUpdates(attrs, items).1.Fail? <==>
            exists i :: 0 <= i < |items| && CheckUpdate(attrs.Keys, items[i].0, items[i].1).Fail?
    decreases |items|
  {
    if |items| > 0 {
      var (key, value) := items[0];
      if CheckUpdate(attrs.Keys, key, value).Pass? {
        var next := attrs[key := value];
        assert next.Keys == attrs.Keys;
        UpdateFailsIffSomeEntryRefused(next, items[1..]);
        if exists i :: 0 <= i < |items| && CheckUpdate(attrs.Keys, items[i].0, items[i].1).Fail? {
          var i :| 0 <= i < |items| && CheckUpdate(attrs.Keys, items[i].0, items[i].1).Fail?;
          assert items[1..][i - 1] == items[i];
        }
        if exists j :: 0 <= j < |items[1..]| && CheckUpdate(next.Keys, items[1..][j].0, items[1..][j].1).Fail? {
          var j :| 0 <= j < |items[1..]| && CheckUpdate(next.Keys, items[1..][j].0, items[1..][j].1).Fail?;
          assert items[j + 1] == items[1..][j];
        }
      }
    }
  }

  /** The first refused entry ends the update: the entries before it are
      all written and pass, and the update raises that entry's error. */
  lemma {:induction false} UpdateStopsAtFirstRefused(attrs: map<string, real>, items: seq<(string, real)>, i: nat)
    requires i < |items| && CheckUpdate(attrs.Keys, items[i].0, items[i].1).Fail?
    requires forall j :: 0 <= j < i ==> CheckUpdate(attrs.Keys, items[j].0, items[j].1).Pass?
    ensures ApplyUpdates(attrs, items[..i]).1 == Pass
    ensures ApplyUpdates(attrs, items)
         == (ApplyUpdates(attrs, items[..i]).0, CheckUpdate(attrs.Keys, items[i].0, items[i].1))
    decreases i
  {
    if i > 0 {
      var (key, value) := items[0];
      assert CheckUpdate(attrs.Keys, key, value).Pass?;
      var next := attrs[key := value];
      assert next.Keys == attrs.Keys;
      forall j | 0 <= j < i - 1
        ensures CheckUpdate(next.Keys, items[1..][j].0, items[1..][j].1).Pass?
      {
        assert items[1..][j] == items[j + 1];
      }
      assert items[1..][i - 1] == items[i];
      UpdateStopsAtFirstRefused(next, items[1..], i - 1);
      assert items[..i][0] == items[0];
      assert items[..i][1..] == items[1..][..i - 1];
    }
  }

  /** An attribute that no entry names keeps its value, whether or not
      the update succeeds. */
  lemma {:induction false} UpdateLeavesOthers(attrs: map<string, real>, items: seq<(string, real)>, k: string)
    requires k in attrs
    requires forall i :: 0 <= i < |items| ==> items[i].0 != k
    ensures ApplyUpdates(attrs, items).0[k] == attrs[k]
    decreases |items|
  {
    if |items| > 0 {
      var (key, value) := items[0];
      if CheckUpdate(attrs.Keys, key, value).Pass? {
        forall i | 0 <= i < |items[1..]|
          ensures items[1..][i].0 != k
        {
          assert items[1..][i] == items[i + 1];
        }
        UpdateLeavesOthers(attrs[key := value], items[1..], k);
      }
    }
  }

  /** A successful update leaves every named attribute holding its last
      written value. */
  lemma {:induction false} UpdateWritesLast(attrs: map<string, real>, items: seq<(string, real)>, i: nat)
    requires i < |items| && ApplyUpdates(attrs, items).1.Pass?
    requires forall j :: i < j < |items| ==> items[j].0 != items[i].0
    ensures items[i].0 in attrs && ApplyUpdates(attrs, items).0[items[i].0] == items[i].1
    decreases |items|
  {
    var (key, value) := items[0];
    var next := attrs[key := value];
    if i == 0 {
      forall j | 0 <= j < |items[1..]|
        ensures items[1..][j].0 != key
      {
        assert items[1..][j] == items[j + 1];
      }
      UpdateLeavesOthers(next, items[1..], key);
    } else {
      forall j | i - 1 < j < |items[1..]|
        ensures items[1..][j].0 != items[1..][i - 1].0
      {
        assert items[1..][j] == items[j + 1];
      }
      UpdateWritesLast(next, items[1..], i - 1);
      assert items[1..][i - 1] == items[i];
    }
  }

  /** `_update_soc`: charge by one C-rate, discharge by one, or stay. The
      state of charge is not clamped. */
  function SocAfter(soc: real, action: int, cRateCharge: real, cRateDischarge: real): real
  {
    if action == 1 then soc + cRateCharge
    else if action == 2 then soc - cRateDischarge
    else soc
  }

  /** With equal C-rates a charge followed by a discharge (or the other way
      round) returns to the starting state of charge; only actions 1 and 2
      move it. */
  lemma SocRoundTrip(soc: real, rate: real, action: int)
    ensures SocAfter(SocAfter(soc, 1, rate, rate), 2, rate, rate) == soc
    ensures SocAfter(SocAfter(soc, 2, rate, rate), 1, rate, rate) == soc
    ensures action != 1 && action != 2 ==> SocAfter(soc, action, rate, rate) == soc
  {
  }

  /** `_update_soh`: one point of health is lost for a state of charge
      outside [soc_min, soc_max]. */
  function SohAfter(soh: real, soc: real, socMin: real, socMax: real): real
  {
    if soc < socMin then soh - 1.0
    else if soc > socMax then soh - 1.0
    else soh
  }

  /** Health after a sequence of `_update_soh` calls. */
  function SohAfterAll(soh: real, socs: seq<real>, socMin: real, socMax: real): real
    decreases |socs|
  {
    if |socs| == 0 then soh
    else SohAfterAll(SohAfter(soh, socs[0], socMin, socMax), socs[1..], socMin, socMax)
  }

  /** How many of the given states of charge lie outside the window. */
  function OutsideCount(socs: seq<real>, socMin: real, socMax: real): (n: nat)
    ensures n <= |socs|
    decreases |socs|
  {
    if |socs| == 0 then 0
    else (if socs[0] < socMin || socs[0] > socMax then 1 else 0) + OutsideCount(socs[1..], socMin, socMax)
  }

  /** Health only falls, by exactly one point per state of charge outside
      the window, so never by more than the number of calls. */
  lemma {:induction false} HealthLoss(soh: real, socs: seq<real>, socMin: real, socMax: real)
    ensures SohAfterAll(soh, socs, socMin, socMax) == soh - OutsideCount(socs, socMin, socMax) as real
    ensures soh - |socs| as real <= SohAfterAll(soh, socs, socMin, socMax) <= soh
    decreases |socs|
  {
    if |socs| > 0 {
      HealthLoss(SohAfter(soh, socs[0], socMin, socMax), socs[1..], socMin, socMax);
    }
  }

  /** The model. Its attributes are held by name, as the object's
      attribute dictionary holds them, because `_update_constants` reads
      and writes them by name. */
  class EnergyStorageModel {
    var attributes: map<string, real>

    /** The attributes the state updates need are present. */
    ghost predicate Valid()
      reads this
    {
      StateNames <= attributes.Keys
    }

    /** The values the constructor assigns, without running the setters. */
    constructor ()
      ensures Valid() && attributes == InitialAttributes
    {
      attributes := InitialAttributes;
    }

    /** `setattr(self, key, value)` on an existing attribute: the setter's
        check runs first and nothing is written when it refuses. */
    method SetAttribute(key: string, value: real) returns (o: Outcome)
      requires key in attributes
      modifies this`attributes
      ensures o == CheckSetting(key, value)
      ensures attributes == if o.Pass? then old(attributes)[key := value] else old(attributes)
    {
      o := CheckSetting(key, value);
      if o.Pass? {
        attributes := attributes[key := value];
      }
    }

    /** `_update_constants(new_constants)`, the dictionary given as its
        items in order: an unknown name raises `AttributeError`, a refused
        setter raises its error, and entries before the failing one stay
        written. */
    method UpdateConstants(items: seq<(string, real)>) returns (o: Outcome)
      modifies this`attributes
      ensures (attributes, o) == ApplyUpdates(old(attributes), items)
      ensures old(Valid()) ==> Valid()
    {
      var k := 0;
      while k < |items|
        invariant 0 <= k <= |items|
        invariant attributes.Keys == old(attributes).Keys
        invariant ApplyUpdates(old(attributes), items) == ApplyUpdates(attributes, items[k..])
      {
        var (key, value) := items[k];
        assert items[k..][0] == items[k] && items[k..][1..] == items[k + 1..];
        if key !in attributes {
          return Fail(AttributeError(key));
        }
        o := SetAttribute(key, value);
        if o.Fail? {
          return;
        }
        k := k + 1;
      }
      o := Pass;
    }

    /** `_update_soc(action)`, returning the new state of charge. */
    method UpdateSoc(action: int) returns (r: real)
      requires Valid()
      modifies this`attributes
      ensures Valid()
      ensures r == SocAfter(old(attributes)["soc"], action, attributes["c_rate_charge"], attributes["c_rate_discharge"])
      ensures attributes == old(attributes)["soc" := r]
    {
      var soc := attributes["soc"];
      if action == 1 {
        soc := soc + attributes["c_rate_charge"];
      } else if action == 2 {
        soc := soc - attributes["c_rate_discharge"];
      }
      attributes := attributes["soc" := soc];
      r := soc;
    }

    /** `_update_soh(soc)`, returning the new state of health. */
    method UpdateSoh(soc: real) returns (r: real)
      requires Valid()
      modifies this`attributes
      ensures Valid()
      ensures r == SohAfter(old(attributes)["soh"], soc, attributes["soc_min"], attributes["soc_max"])
      ensures attributes == old(attributes)["soh" := r]
      ensures old(attributes)["soh"] - 1.0 <= r <= old(attributes)["soh"]
      ensures r < old(attributes)["soh"] <==> soc < attributes["soc_min"] || soc > attributes["soc_max"]
    {
      var soh := attributes["soh"];
      if soc < attributes["soc_min"] {
        soh := soh - 1.0;
      } else if soc > attributes["soc_max"] {
        soh := soh - 1.0;
      }
      attributes := attributes["soh" := soh];
      r := soh;
    }
  }
}

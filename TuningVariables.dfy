/**
 * Tuning variables: named numbers with Java-side defaults, stored in the robot's persistent
 * preferences. A variable whose key is missing from the store reads as its default.
 */
module Tuning {
  import opened Platform

  datatype TuningVariable =
    | DebugLevel
    | UseSwerve
    | UseShooter
    | UseWrist
    | UseShoulder
    | UseDriveController
    | UseArmController
  {
    /** The preferences key: the enum constant's Java name. */
    function Name(): string
    {
      match this
      case DebugLevel => "debugLevel"
      case UseSwerve => "useSwerve"
      case UseShooter => "useShooter"
      case UseWrist => "useWrist"
      case UseShoulder => "useShoulder"
      case UseDriveController => "useDriveController"
      case UseArmController => "useArmController"
    }

    /** Every variable listed has default 1 (debugLevel as 1.0, the others as the int 1 widened). */
    function DefaultValue(): (value: real)
      ensures value == 1.0
    {
      match this
      case DebugLevel => 1.0
      case UseSwerve => 1.0
      case UseShooter => 1.0
      case UseWrist => 1.0
      case UseShoulder => 1.0
      case UseDriveController => 1.0
      case UseArmController => 1.0
    }
  }

  /** The variables in declaration order, as values() lists them. */
  const Values: seq<TuningVariable> :=
    [DebugLevel, UseSwerve, UseShooter, UseWrist, UseShoulder, UseDriveController, UseArmController]

  /** Different variables have different keys, so no two variables share a stored value. */
  lemma NamesDistinct(a: TuningVariable, b: TuningVariable)
    ensures a.Name() == b.Name() ==> a == b
  {
  }

  /** values() lists every variable, each once. */
  lemma ValuesListsEach(v: TuningVariable)
    ensures v in Values
    ensures forall i, j :: 0 <= i < j < |Values| ==> Values[i] != Values[j]
  {
  }

  /** The keys of a list of variables. */
  function NamesOf(vs: seq<TuningVariable>): set<string>
  {
    set v | v in vs :: v.Name()
  }

  /** The default of each variable in vs, keyed by its name. */
  function DefaultsOf(vs: seq<TuningVariable>): (m: map<string, real>)
    ensures m.Keys == NamesOf(vs)
    decreases |vs|
  {
    if vs == [] then map[]
    else
      var init := vs[..|vs| - 1];
      var last := vs[|vs| - 1];
      assert vs == init + [last];
      DefaultsOf(init)[last.Name() := last.DefaultValue()]
  }

  /** Each listed variable's name maps to that variable's default. */
  lemma {:induction false} DefaultsOfValue(vs: seq<TuningVariable>, v: TuningVariable)
    requires v in vs
    ensures v.Name() in DefaultsOf(vs) && DefaultsOf(vs)[v.Name()] == v.DefaultValue()
    decreases |vs|
  {
    var init := vs[..|vs| - 1];
    var last := vs[|vs| - 1];
    assert vs == init + [last];
    if v != last {
      NamesDistinct(v, last);
      DefaultsOfValue(init, v);
    }
  }

  /** What get returns for v in a store holding m: the stored value, or the default when the key is missing. */
  function Lookup(m: map<string, real>, v: TuningVariable): real
  {
    if v.Name() in m then m[v.Name()] else v.DefaultValue()
  }

  /** Seeding writes every missing default, and no variable reads differently afterwards. */
  lemma SeedingKeepsReadings(m: map<string, real>, v: TuningVariable)
    ensures v.Name() in DefaultsOf(Values) + m
    ensures Lookup(DefaultsOf(Values) + m, v) == Lookup(m, v)
  {
    ValuesListsEach(v);
    DefaultsOfValue(Values, v);
  }

  /** After setting all to defaults, every variable reads its default. */
  lemma SetAllReadsDefaults(m: map<string, real>, v: TuningVariable)
    ensures Lookup(m + DefaultsOf(Values), v) == v.DefaultValue()
  {
    ValuesListsEach(v);
    DefaultsOfValue(Values, v);
  }

  /** A set on one variable leaves every other variable's reading alone. */
  lemma SetLeavesOthers(m: map<string, real>, v: TuningVariable, w: TuningVariable, value: real)
    requires v != w
    ensures Lookup(m[v.Name() := value], v) == value
    ensures Lookup(m[v.Name() := value], w) == Lookup(m, w)
  {
    NamesDistinct(v, w);
  }

  /** After removing all known keys, every variable reads its default. */
  lemma RemoveAllReadsDefaults(m: map<string, real>, v: TuningVariable)
    ensures Lookup(m - NamesOf(Values), v) == v.DefaultValue()
  {
    ValuesListsEach(v);
  }

  /** Setting a key after a union is the same as setting it in the right operand. */
  lemma UpdateAfterUnion(m: map<string, real>, d: map<string, real>, key: string, value: real)
    ensures (m + d)[key := value] == m + d[key := value]
  {
    var lhs, rhs := (m + d)[key := value], m + d[key := value];
    assert lhs.Keys == rhs.Keys;
    forall k | k in lhs ensures lhs[k] == rhs[k] {
    }
  }

  /** Seeding one more variable, whose key the earlier defaults do not hold, extends the union of defaults under the stored values. */
  lemma SeedStep(d: map<string, real>, m: map<string, real>, key: string, value: real)
    requires key !in d
    ensures (if key in d + m then d + m else (d + m)[key := value]) == d[key := value] + m
  {
    var rhs := d[key := value] + m;
    if key in d + m {
      assert key in m;
      assert (d + m).Keys == rhs.Keys;
      forall k | k in rhs ensures (d + m)[k] == rhs[k] {
      }
    } else {
      var lhs := (d + m)[key := value];
      assert lhs.Keys == rhs.Keys;
      forall k | k in rhs ensures lhs[k] == rhs[k] {
      }
    }
  }

  function Get(prefs: Preferences, v: TuningVariable): (value: real)
    reads prefs
    ensures value == Lookup(prefs.entries, v)
  {
    prefs.GetDouble(v.Name(), v.DefaultValue())
  }

  /** The enum constructor's seeding of one variable: its default is written only when its key is absent. */
  method Seed(prefs: Preferences, v: TuningVariable)
    modifies prefs
    ensures prefs.entries ==
      if v.Name() in old(prefs.entries) then old(prefs.entries) else old(prefs.entries)[v.Name() := v.DefaultValue()]
  {
    if !prefs.ContainsKey(v.Name()) {
      prefs.SetDouble(v.Name(), v.DefaultValue());
    }
  }

  /**
   * Class initialisation: the constructor runs for every variable in declaration order, so every
   * missing key gets its default and every stored value is kept.
   */
  method SeedAll(prefs: Preferences)
    modifies prefs
    ensures prefs.entries == DefaultsOf(Values) + old(prefs.entries)
  {
    ghost var start := prefs.entries;
    for i := 0 to |Values|
      invariant prefs.entries == DefaultsOf(Values[..i]) + start
    {
      var v := Values[i];
      assert Values[..i + 1] == Values[..i] + [v];
      assert v.Name() !in NamesOf(Values[..i]) by {
        forall w | w in Values[..i] ensures w.Name() != v.Name() {
          NamesDistinct(w, v);
        }
      }
      SeedStep(DefaultsOf(Values[..i]), start, v.Name(), v.DefaultValue());
      Seed(prefs, v);
    }
    assert Values[..|Values|] == Values;
  }

  method Set(prefs: Preferences, v: TuningVariable, value: real)
    modifies prefs
    ensures prefs.entries == old(prefs.entries)[v.Name() := value]
    ensures Get(prefs, v) == value
  {
    prefs.SetDouble(v.Name(), value);
  }

  method SetToDefaultValue(prefs: Preferences, v: TuningVariable)
    modifies prefs
    ensures prefs.entries == old(prefs.entries)[v.Name() := v.DefaultValue()]
    ensures Get(prefs, v) == v.DefaultValue()
  {
    Set(prefs, v, v.DefaultValue());
  }

  /** Writes every variable's default; keys outside the enum are untouched. */
  method SetAllToDefaultValues(prefs: Preferences)
    modifies prefs
    ensures prefs.entries == old(prefs.entries) + DefaultsOf(Values)
    ensures forall k :: k !in NamesOf(Values) ==> (k in prefs.entries <==> k in old(prefs.entries))
    ensures forall k :: k !in NamesOf(Values) && k in old(prefs.entries) ==> prefs.entries[k] == old(prefs.entries)[k]
  {
    ghost var start := prefs.entries;
    for i := 0 to |Values|
      invariant prefs.entries == start + DefaultsOf(Values[..i])
    {
      var v := Values[i];
      assert Values[..i + 1] == Values[..i] + [v];
      UpdateAfterUnion(start, DefaultsOf(Values[..i]), v.Name(), v.DefaultValue());
      SetToDefaultValue(prefs, v);
    }
    assert Values[..|Values|] == Values;
  }

  method Remove(prefs: Preferences, v: TuningVariable)
    modifies prefs
    ensures prefs.entries == old(prefs.entries) - {v.Name()}
    ensures Get(prefs, v) == v.DefaultValue()
  {
    prefs.Remove(v.Name());
  }

  /** Removes exactly the enum's keys. */
  method RemoveAllKnown(prefs: Preferences)
    modifies prefs
    ensures prefs.entries == old(prefs.entries) - NamesOf(Values)
  {
    ghost var start := prefs.entries;
    for i := 0 to |Values|
      invariant prefs.entries == start - NamesOf(Values[..i])
    {
      var v := Values[i];
      assert Values[..i + 1] == Values[..i] + [v];
      assert NamesOf(Values[..i + 1]) == NamesOf(Values[..i]) + {v.Name()};
      Remove(prefs, v);
    }
    assert Values[..|Values|] == Values;
  }
}

/**
 * Machine-level overrides of the default instance per plugin type, layered under one profile.
 * The profile layer wins over the machine's own (local) layer, both when one key is looked up
 * and when the merged list of defaults is built.
 */
module MachineOverrides {
  import opened Wrappers
  import opened Errors
  import opened InstanceDefaults
  import opened Profiles
  import Sorting

  /** Every local entry is stored under its own plugin type, as AddMachineOverride stores it. */
  ghost predicate Keyed(local: map<string, InstanceDefault>)
  {
    forall t :: t in local ==> local[t].pluginTypeName == t
  }

  /**
   * Reference definition of the key in force per plugin type: the profile's overrides laid
   * over the local ones (the right operand of a map union wins).
   */
  function Effective(local: map<string, InstanceDefault>, profile: Profile): (r: map<string, string>)
    ensures r.Keys == local.Keys + profile.overrides.Keys
    ensures forall t :: t in profile.overrides ==> r[t] == profile.overrides[t]
    ensures forall t :: t in local && t !in profile.overrides ==> r[t] == local[t].defaultKey
  {
    (map t | t in local :: local[t].defaultKey) + profile.overrides
  }

  /**
   * The entries of the merged view: all of the profile's entries, plus every local entry whose
   * plugin type the profile does not override.
   */
  ghost function Merged(local: map<string, InstanceDefault>, profile: Profile): set<InstanceDefault>
  {
    profile.Defaults() + set d | d in local.Values && d.pluginTypeName !in profile.overrides
  }

  /** An entry is in the merged view exactly when it pairs a plugin type with the key in force for it. */
  lemma MergedAgreesWithEffective(local: map<string, InstanceDefault>, profile: Profile)
    requires Keyed(local)
    ensures forall d :: d in Merged(local, profile) <==>
      d.pluginTypeName in Effective(local, profile) && Effective(local, profile)[d.pluginTypeName] == d.defaultKey
  {
    var eff := Effective(local, profile);
    forall d
      ensures d in Merged(local, profile) <==> d.pluginTypeName in eff && eff[d.pluginTypeName] == d.defaultKey
    {
      var t := d.pluginTypeName;
      if d in local.Values {
        var u :| u in local && local[u] == d;
        assert u == t;
      }
      if t in local && t !in profile.overrides && local[t].defaultKey == d.defaultKey {
        assert local[t] == d;
        assert local[t] in local.Values;
      }
    }
  }

  /** The merged view never holds two entries for one plugin type. */
  lemma MergedOnePerPluginType(local: map<string, InstanceDefault>, profile: Profile, d: InstanceDefault, e: InstanceDefault)
    requires Keyed(local)
    requires d in Merged(local, profile) && e in Merged(local, profile)
    requires d.pluginTypeName == e.pluginTypeName
    ensures d == e
  {
    MergedAgreesWithEffective(local, profile);
  }

  /**
   * Where both layers name a plugin type, the merged view holds the profile's entry and
   * no entry with any other key, so a differing local entry is left out.
   */
  lemma MergedPrefersProfile(local: map<string, InstanceDefault>, profile: Profile, t: string)
    requires Keyed(local)
    requires t in profile.overrides
    ensures InstanceDefault(t, profile.overrides[t]) in Merged(local, profile)
    ensures forall d :: d in Merged(local, profile) && d.pluginTypeName == t ==> d.defaultKey == profile.overrides[t]
    ensures t in local && local[t].defaultKey != profile.overrides[t] ==> local[t] !in Merged(local, profile)
  {
    MergedAgreesWithEffective(local, profile);
  }

  class MachineOverride {
    const machineName: string
    /** Never null: a machine built without a profile holds EmptyProfile. */
    const profile: Profile
    var defaults: map<string, InstanceDefault>

    ghost predicate Valid()
      reads this
    {
      Keyed(defaults)
    }

    constructor (machineName: string)
      ensures Valid()
      ensures this.machineName == machineName && defaults == map[]
      ensures profile == EmptyProfile && ProfileName() == ""
    {
      this.machineName := machineName;
      profile := EmptyProfile;
      defaults := map[];
    }

    /** `None` stands for a null profile argument, which leaves the empty profile in place. */
    constructor WithProfile(machineName: string, profile: Option<Profile>)
      ensures Valid()
      ensures this.machineName == machineName && defaults == map[]
      ensures profile.Some? ==> this.profile == profile.value
      ensures profile.None? ==> this.profile == EmptyProfile && ProfileName() == ""
    {
      this.machineName := machineName;
      this.profile := if profile.Some? then profile.value else EmptyProfile;
      defaults := map[];
    }

    /** The attached profile's name; empty for the profile a machine falls back on. */
    function ProfileName(): (r: string)
      ensures r == profile.profileName
      ensures profile == EmptyProfile ==> r == ""
    {
      profile.profileName
    }

    /** True when either layer overrides the plugin type: exactly when the indexer finds a key. */
    function HasOverride(pluginTypeName: string): (r: bool)
      reads this
      ensures r <==> pluginTypeName in Effective(defaults, profile)
    {
      pluginTypeName in defaults || profile.HasOverride(pluginTypeName)
    }

    /** The indexer: the profile's key if it has one, else the local entry's key, else a lookup miss. */
    function DefaultKey(pluginTypeName: string): (r: Result<string, Error>)
      reads this
      ensures pluginTypeName in profile.overrides ==> r == Success(profile.overrides[pluginTypeName])
      ensures r.Success? <==> HasOverride(pluginTypeName)
      ensures r.Success? ==> r.value == Effective(defaults, profile)[pluginTypeName]
      ensures r.Failure? ==> r.error == LookupMiss(pluginTypeName)
    {
      if profile.HasOverride(pluginTypeName) then profile.Get(pluginTypeName)
      else if pluginTypeName in defaults then Success(defaults[pluginTypeName].defaultKey)
      else Failure(LookupMiss(pluginTypeName))
    }

    /**
     * Registers a local override. A plugin type already registered locally is refused
     * and the local entries stay as they were; the profile is never touched.
     */
    method AddMachineOverride(pluginTypeName: string, defaultKey: string) returns (outcome: Outcome<Error>)
      requires Valid()
      modifies this
      ensures Valid()
      ensures pluginTypeName in old(defaults) ==>
        outcome == Fail(DuplicateKey(pluginTypeName)) && defaults == old(defaults)
      ensures pluginTypeName !in old(defaults) ==>
        outcome == Pass && defaults == old(defaults)[pluginTypeName := InstanceDefault(pluginTypeName, defaultKey)]
      ensures outcome.Pass? && pluginTypeName !in profile.overrides ==> DefaultKey(pluginTypeName) == Success(defaultKey)
      ensures forall t :: t != pluginTypeName ==> DefaultKey(t) == old(DefaultKey(t))
    {
      var instanceDefault := InstanceDefault(pluginTypeName, defaultKey);
      if pluginTypeName in defaults {
        outcome := Fail(DuplicateKey(pluginTypeName));
      } else {
        defaults := defaults[pluginTypeName := instanceDefault];
        outcome := Pass;
      }
    }

    /** The local entries alone, one per registered plugin type, in no particular order. */
    method InnerDefaults() returns (result: seq<InstanceDefault>)
      requires Valid()
      ensures |result| == |defaults|
      ensures forall d :: d in result <==> d in defaults.Values
      ensures Sorting.DistinctPluginTypes(result)
    {
      var returnValue := new InstanceDefault[|defaults|];
      var pending := defaults.Keys;
      var i := 0;
      while pending != {}
        invariant pending <= defaults.Keys
        invariant i + |pending| == |defaults|
        invariant forall j :: 0 <= j < i ==>
          returnValue[j].pluginTypeName in defaults && defaults[returnValue[j].pluginTypeName] == returnValue[j] &&
          returnValue[j].pluginTypeName !in pending
        invariant forall t :: t in defaults && t !in pending ==> defaults[t] in returnValue[..i]
        invariant Sorting.DistinctPluginTypes(returnValue[..i])
      {
        var t :| t in pending;
        ghost var done := returnValue[..i];
        returnValue[i] := defaults[t];
        assert returnValue[..i + 1] == done + [defaults[t]];
        pending := pending - {t};
        i := i + 1;
      }
      result := returnValue[..];
      assert result == returnValue[..i];
    }

    /**
     * The hashtable Defaults builds: every profile entry, then each local entry whose plugin
     * type is not yet present. It holds, per plugin type, the entry for the key in force.
     */
    method MergeLayers() returns (defaultHash: map<string, InstanceDefault>)
      requires Valid()
      ensures Keyed(defaultHash)
      ensures defaultHash.Keys == Effective(defaults, profile).Keys
      ensures forall t :: t in defaultHash ==> defaultHash[t].defaultKey == Effective(defaults, profile)[t]
    {
      var profileDefaults := profile.Defaults();
      defaultHash := map[];
      var pending := profileDefaults;
      while pending != {}
        invariant pending <= profileDefaults
        invariant forall t :: t in defaultHash <==>
          t in profile.overrides && InstanceDefault(t, profile.overrides[t]) !in pending
        invariant forall t :: t in defaultHash ==> defaultHash[t] == InstanceDefault(t, profile.overrides[t])
      {
        var instance :| instance in pending;
        // The profile's plugin types are unique, so the hashtable insertion never meets a duplicate.
        assert instance.pluginTypeName !in defaultHash;
        defaultHash := defaultHash[instance.pluginTypeName := instance];
        pending := pending - {instance};
      }

      var pendingLocal := defaults.Values;
      while pendingLocal != {}
        invariant pendingLocal <= defaults.Values
        invariant forall t :: t in defaultHash <==>
          t in profile.overrides || (t in defaults && defaults[t] !in pendingLocal)
        invariant forall t :: t in defaultHash ==>
          defaultHash[t] == if t in profile.overrides then InstanceDefault(t, profile.overrides[t]) else defaults[t]
      {
        var instance :| instance in pendingLocal;
        var u :| u in defaults && defaults[u] == instance;
        assert u == instance.pluginTypeName;
        if instance.pluginTypeName !in defaultHash {
          defaultHash := defaultHash[instance.pluginTypeName := instance];
        }
        pendingLocal := pendingLocal - {instance};
      }
    }

    /**
     * The merged view: the merged table's entries copied out and sorted by plugin type.
     */
    method Defaults() returns (result: seq<InstanceDefault>)
      requires Valid()
      ensures Sorted(result)
      ensures forall d :: d in result <==> d in Merged(defaults, profile)
      ensures forall d :: d in result ==> DefaultKey(d.pluginTypeName) == Success(d.defaultKey)
      ensures forall t :: HasOverride(t) ==> InstanceDefault(t, DefaultKey(t).value) in result
    {
      var defaultHash := MergeLayers();
      MergedAgreesWithEffective(defaults, profile);
      var returnValue := CopyValues(defaultHash);
      ghost var unsorted := returnValue[..];
      Sorting.SortByPluginType(returnValue);
      result := returnValue[..];
      Sorting.OrderedDistinctIsSorted(result);
      forall d
        ensures d in result <==> d in unsorted
      {
        assert d in result <==> d in multiset(result);
        assert d in unsorted <==> d in multiset(unsorted);
      }
    }
  }

  /** Copies the values of a table keyed by plugin type into a fresh array, in no particular order. */
  method CopyValues(table: map<string, InstanceDefault>) returns (a: array<InstanceDefault>)
    requires Keyed(table)
    ensures fresh(a) && a.Length == |table|
    ensures forall d :: d in a[..] <==> d.pluginTypeName in table && table[d.pluginTypeName] == d
    ensures Sorting.DistinctPluginTypes(a[..])
  {
    a := new InstanceDefault[|table|];
    var pending := table.Keys;
    var i := 0;
    while pending != {}
      invariant pending <= table.Keys
      invariant i + |pending| == |table|
      invariant forall j :: 0 <= j < i ==>
        a[j].pluginTypeName in table && table[a[j].pluginTypeName] == a[j] && a[j].pluginTypeName !in pending
      invariant forall t :: t in table && t !in pending ==> table[t] in a[..i]
      invariant Sorting.DistinctPluginTypes(a[..i])
    {
      var t :| t in pending;
      ghost var done := a[..i];
      a[i] := table[t];
      assert a[..i + 1] == done + [table[t]];
      pending := pending - {t};
      i := i + 1;
    }
    assert a[..] == a[..i];
  }
}

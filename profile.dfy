/**
 * A named profile: the override layer consulted before a machine's own overrides.
 * Only the read-only view the machine uses is modelled: its name and the plugin-type
 * to default-key overrides it holds (a map, so at most one per plugin type).
 */
module Profiles {
  import opened Wrappers
  import opened Errors
  import opened InstanceDefaults

  datatype Profile = Profile(profileName: string, overrides: map<string, string>)
  {
    /** True exactly when the profile's entries hold one for the plugin type. */
    function HasOverride(pluginTypeName: string): (r: bool)
      ensures r ==> pluginTypeName in overrides && InstanceDefault(pluginTypeName, overrides[pluginTypeName]) in Defaults()
      ensures forall d :: d in Defaults() && d.pluginTypeName == pluginTypeName ==> r
    {
      pluginTypeName in overrides
    }

    /** The profile's own indexer: the overriding key, or a lookup miss. */
    function Get(pluginTypeName: string): (r: Result<string, Error>)
      ensures r.Success? <==> HasOverride(pluginTypeName)
      ensures r.Success? ==> r.value == overrides[pluginTypeName]
      ensures r.Failure? ==> r.error == LookupMiss(pluginTypeName)
    {
      if pluginTypeName in overrides then Success(overrides[pluginTypeName])
      else Failure(LookupMiss(pluginTypeName))
    }

    /** The profile's overrides as InstanceDefault entries, in no particular order. */
    function Defaults(): (r: set<InstanceDefault>)
      ensures forall d :: d in r <==>
        d.pluginTypeName in overrides && overrides[d.pluginTypeName] == d.defaultKey
    {
      set t | t in overrides :: InstanceDefault(t, overrides[t])
    }
  }

  /** The profile a machine falls back on when it is given none: no name, no overrides. */
  const EmptyProfile := Profile("", map[])
}

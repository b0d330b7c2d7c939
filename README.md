# Machine overrides of default instances

A Dafny model of StructureMap's `MachineOverride`: the per-machine table that says which
default instance key is used for each plugin type. A machine holds its own local overrides
(a dictionary from plugin-type name to an `InstanceDefault`, filled one entry at a time by
`AddMachineOverride`) and one `Profile`, whose overrides take precedence over the local
ones. It answers four questions: the key in force for one plugin type (the indexer),
whether any layer overrides a plugin type (`HasOverride`), the merged, de-duplicated,
sorted list of defaults (`Defaults`), and the local entries alone (`InnerDefaults`).

Files:

- `wrappers.dfy`, `errors.dfy`: `Option` for a null reference, `Result`/`Outcome` for the
  duplicate-key and lookup-miss exceptions.
- `instance_default.dfy`: the `InstanceDefault` pair, the ordinal order on plugin-type
  names that sorts it, and the fact that a strictly sorted list is determined by its entries.
- `profile.dfy`: the read-only view of a `Profile` that the machine uses (name, overrides).
- `sorting.dfy`: the in-place sort applied to the merged array.
- `machine_override.dfy`: the class `MachineOverride`, with the reference definitions
  `Effective` (the key in force per plugin type) and `Merged` (the entries of the merged view).
- `scenarios.dfy`: three worked examples, proved against the contracts alone.

The class keeps the source's state: `defaults` is the local dictionary (a `map` that
`AddMachineOverride` reassigns), `profile` is fixed at construction, and `Valid()` says that
every local entry is stored under its own plugin type. `Defaults` is imperative like the
source: two loops (`MergeLayers`) fill a hashtable (profile entries, then local entries whose plugin type
is not yet present), the values are copied into an array, and the array is sorted in place.
Dictionary and hashtable iteration order is unspecified, so the loops pick the next element
by an arbitrary choice and the contracts hold for every order.

The precedence implemented is the profile's over the machine's: `DefaultKey` consults the
profile first, and `Defaults` lets a profile entry suppress the local entry for the same
plugin type.

## Model

| member | source | states |
|---|---|---|
| `MachineOverrides.MachineOverride.constructor` | Source/StructureMap/Graph/MachineOverride.cs:27-31 | a new machine keeps its name, has no local entries and falls back on the empty, unnamed profile, so `ProfileName()` is `""` |
| `MachineOverrides.MachineOverride.WithProfile` | Source/StructureMap/Graph/MachineOverride.cs:18-25 | the given profile is attached; a null profile (`None`) leaves the empty profile in place and `ProfileName()` is `""` |
| `MachineOverrides.MachineOverride.HasOverride` | Source/StructureMap/Graph/MachineOverride.cs:120-123 | true exactly when the plugin type is in the key-in-force map `Effective`, i.e. when either layer overrides it |
| `MachineOverrides.MachineOverride.DefaultKey` | Source/StructureMap/Graph/MachineOverride.cs:42-54 | a profile override wins even over a local entry; the lookup succeeds exactly when `HasOverride` holds, returns the key in force from `Effective`, and otherwise fails with a lookup miss for that plugin type |
| `MachineOverrides.MachineOverride.AddMachineOverride` | Source/StructureMap/Graph/MachineOverride.cs:109-113 | on a new plugin type adds exactly the entry `t ↦ (t, k)`; on a registered one fails with a duplicate-key error and leaves the entries unchanged; the profile is untouched, the lookup of every other plugin type is unchanged, and the new key is in force unless the profile shadows it |
| `MachineOverrides.MachineOverride.InnerDefaults` | Source/StructureMap/Graph/MachineOverride.cs:94-102 | the result has exactly as many entries as the local dictionary, holds exactly its values and no plugin type twice (so it is an arrangement of the local values), whatever the profile holds |
| `MachineOverrides.MachineOverride.Defaults` | Source/StructureMap/Graph/MachineOverride.cs:66-91 | the result is strictly ascending by plugin type (so one entry per plugin type), holds exactly the entries of `Merged`, every entry is what the indexer returns for its plugin type, and every plugin type with an override appears |
| `MachineOverrides.MachineOverride.MergeLayers` | Source/StructureMap/Graph/MachineOverride.cs:70-83 | the hashtable built from the profile's entries and then the local entries not yet present holds one entry per plugin type with an override in either layer, stored under its own plugin type and carrying the key in force for it |
| `MachineOverrides.CopyValues` | Source/StructureMap/Graph/MachineOverride.cs:85-86 | the fresh array has one slot per table entry and holds exactly the table's values, no plugin type twice |
| `MachineOverrides.Effective` | Source/StructureMap/Graph/MachineOverride.cs:46-53 | the plugin types with a key in force are those of both layers; the profile's key wins where both name one, the local key applies elsewhere |
| `MachineOverrides.MergedAgreesWithEffective` | Source/StructureMap/Graph/MachineOverride.cs:70-83 | an entry belongs to the merged view exactly when it pairs a plugin type with the key in force for it, tying `Defaults` to the indexer |
| `MachineOverrides.MergedOnePerPluginType` | Source/StructureMap/Graph/MachineOverride.cs:77-83 | the merged view holds at most one entry per plugin type |
| `MachineOverrides.MergedPrefersProfile` | Source/StructureMap/Graph/MachineOverride.cs:72-82 | where the profile names a plugin type its entry is in the merged view, every entry for that plugin type carries the profile's key, and a differing local entry is absent |
| `Sorting.SortByPluginType` | Source/StructureMap/Graph/MachineOverride.cs:87 | the array ends non-decreasing by plugin type, is a permutation of what it held, and keeps plugin types distinct if they were |
| `Sorting.OrderedDistinctIsSorted` | Source/StructureMap/Graph/MachineOverride.cs:85-87 | a sorted array without repeated plugin types is strictly ascending |
| `InstanceDefaults.SortedIsUnique` | Source/StructureMap/Graph/MachineOverride.cs:85-89 | two strictly sorted lists with the same entries are equal, so the output of `Defaults` does not depend on insertion or iteration order |
| `InstanceDefaults.OrdinalLessIrreflexive` | Source/StructureMap/Graph/MachineOverride.cs:87 | no plugin-type name sorts before itself |
| `InstanceDefaults.OrdinalLessTransitive` | Source/StructureMap/Graph/MachineOverride.cs:87 | the name order is transitive |
| `InstanceDefaults.OrdinalLessTotal` | Source/StructureMap/Graph/MachineOverride.cs:87 | any two different names are ordered one way or the other |
| `InstanceDefaults.OrdinalLessAsymmetric` | Source/StructureMap/Graph/MachineOverride.cs:87 | two names are never ordered both ways |
| `InstanceDefaults.OrdinalNotLessTransitive` | Source/StructureMap/Graph/MachineOverride.cs:87 | "not after" is transitive, so the comparison is a total preorder on entries |
| `MachineOverrides.MachineOverride.ProfileName` | Source/StructureMap/Graph/MachineOverride.cs:60-63 | returns the attached profile's name, and `""` while the machine holds the empty profile, which is the case whenever no profile or a null one was given (the constructors' contracts state this) |
| `Profiles.Profile.HasOverride` | Source/StructureMap/Graph/MachineOverride.cs:46 | the profile overrides a plugin type exactly when its entries hold one for that plugin type |
| `Profiles.Profile.Get` | Source/StructureMap/Graph/MachineOverride.cs:48 | the profile's indexer succeeds exactly when the profile overrides the plugin type and then returns the profile's own key, else it is a lookup miss |
| `Profiles.Profile.Defaults` | Source/StructureMap/Graph/MachineOverride.cs:70 | the profile's entries are exactly the pairs of an overridden plugin type with its key |
| `Scenarios.HostWithoutProfile` | Source/StructureMap/Graph/MachineOverride.cs:42-91 | machine `HOST1` without a profile, with `ILogger ↦ Console` and `ICache ↦ Memory`: the lookup of `ILogger` is `Console`, `Defaults` is `[(ICache, Memory), (ILogger, Console)]`, the profile name is empty |
| `Scenarios.ProfileShadowsHost` | Source/StructureMap/Graph/MachineOverride.cs:42-102 | with profile `Test` holding `ILogger ↦ Null` and local `ILogger ↦ Console`, `IMailer ↦ Smtp`: the lookup of `ILogger` is `Null`, `Defaults` is `[(ILogger, Null), (IMailer, Smtp)]`, and `InnerDefaults` still holds both local entries |
| `Scenarios.DuplicateRegistration` | Source/StructureMap/Graph/MachineOverride.cs:109-113 | a second registration of `ILogger` fails with a duplicate-key error and the first key stays in force; an unregistered plugin type is a lookup miss |

## Left out

- The `[Serializable]` and `[IndexerName("DefaultKey")]` attributes (lines 11, 41): runtime metadata without behaviour.
- `Profile` and `InstanceDefault` are not part of this model beyond what the machine reads: a profile is a name and a map from plugin type to key (so its plugin types are unique), an `InstanceDefault` is a pair of strings. How profiles are populated is not modelled.
- The comparison `Array.Sort` uses (line 87) is not part of this model's source; it is assumed to order entries by plugin-type name with ordinal (character-code) string comparison.
- `Sorting.SortByPluginType`: stands for `Array.Sort` as an insertion sort; only its outcome (an ordered permutation) is claimed, not the library's algorithm or stability.
- The `_profile == null` branch of `ProfileName` (line 62) cannot be taken: the field starts as the empty profile and the constructor only replaces it with a non-null one, so the model's `profile` is never null and `ProfileName` returns its name.
- The `Hashtable.Add` exception at line 74 is not modelled as an error: the profile's plugin types are unique, and `Defaults` proves that the insertion never meets a duplicate.
- Null plugin-type names (which `Dictionary` rejects with an exception) do not exist in the model: strings are values.
- `Defaults` and `InnerDefaults` return a sequence value where the source returns a freshly allocated array; the iteration order of the dictionary and hashtable is left unspecified.
- `MachineName` (lines 33-36) is the constant field `machineName`, set by both constructors.
- The profile is taken as a value at construction. The source holds a reference, so it would see entries that a loader adds later to a shared `Profile`; the model does not.
- `OrdinalLess` compares Unicode scalar values, while .NET ordinal comparison compares UTF-16 code units. The two orders differ only when a character above U+FFFF is compared with one in U+E000–U+FFFF.
- Thread safety: the source has no locking and the model is sequential.

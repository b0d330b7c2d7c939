/** Worked examples of the override layers, as a configuration loader and a report would use them. */
module Scenarios {
  import opened Wrappers
  import opened Errors
  import opened InstanceDefaults
  import opened Profiles
  import opened MachineOverrides

  /** A machine with no profile and two local overrides: lookups and the sorted list come from the local layer. */
  method HostWithoutProfile() returns (logger: Result<string, Error>, all: seq<InstanceDefault>, name: string)
    ensures logger == Success("Console")
    ensures all == [InstanceDefault("ICache", "Memory"), InstanceDefault("ILogger", "Console")]
    ensures name == ""
  {
    var m := new MachineOverride("HOST1");
    var _ := m.AddMachineOverride("ILogger", "Console");
    var _ := m.AddMachineOverride("ICache", "Memory");
    logger := m.DefaultKey("ILogger");
    all := m.Defaults();
    name := m.ProfileName();
    var expected := [InstanceDefault("ICache", "Memory"), InstanceDefault("ILogger", "Console")];
    MergedAgreesWithEffective(m.defaults, m.profile);
    assert Sorted(expected) by {
      assert OrdinalLess("ICache", "ILogger");
    }
    SortedIsUnique(all, expected);
  }

  /** A profile entry shadows the machine's own entry for the same plugin type. */
  method ProfileShadowsHost() returns (logger: Result<string, Error>, all: seq<InstanceDefault>, local: seq<InstanceDefault>)
    ensures logger == Success("Null")
    ensures all == [InstanceDefault("ILogger", "Null"), InstanceDefault("IMailer", "Smtp")]
    ensures |local| == 2 && InstanceDefault("ILogger", "Console") in local && InstanceDefault("IMailer", "Smtp") in local
  {
    var test := Profile("Test", map["ILogger" := "Null"]);
    var m := new MachineOverride.WithProfile("HOST2", Some(test));
    var _ := m.AddMachineOverride("ILogger", "Console");
    var _ := m.AddMachineOverride("IMailer", "Smtp");
    logger := m.DefaultKey("ILogger");
    all := m.Defaults();
    local := m.InnerDefaults();
    var expected := [InstanceDefault("ILogger", "Null"), InstanceDefault("IMailer", "Smtp")];
    MergedAgreesWithEffective(m.defaults, m.profile);
    assert Sorted(expected) by {
      assert OrdinalLess("ILogger", "IMailer");
    }
    SortedIsUnique(all, expected);
  }

  /** Registering a plugin type twice is refused and the first registration stays in force. */
  method DuplicateRegistration() returns (second: Outcome<Error>, logger: Result<string, Error>, missing: Result<string, Error>)
    ensures second == Fail(DuplicateKey("ILogger"))
    ensures logger == Success("Console")
    ensures missing == Failure(LookupMiss("ICache"))
  {
    var m := new MachineOverride("HOST3");
    var _ := m.AddMachineOverride("ILogger", "Console");
    second := m.AddMachineOverride("ILogger", "File");
    logger := m.DefaultKey("ILogger");
    missing := m.DefaultKey("ICache");
  }
}

/**
  The driver object of run.py (class Nvidia): the device list built once
  by cross-validating two enumerations, the one-shot persistence flag,
  and the run that applies each configured device's settings.

  The external programs are not modelled: the two enumerations arrive
  already parsed, as lists of Gpu records, and every program the object
  would start is appended, as its command line, to the `commands` log.
*/
module NvidiaDriver {
  import opened Wrappers
  import opened PyFormat
  import opened Gpus
  import opened GpuConfigs

  const ListGpusCommand := "nvidia-smi -L"
  const QueryGpuInfoCommand := "nvidia-xconfig --query-gpu-info"
  const PersistenceCommand := "nvidia-smi -pm 1"

  /** The user configuration: device uuid to that device's settings. */
  type Config = map<string, Settings>

  /** The nvidia-settings command that configures GPU g with the validated settings cfg. */
  function ApplyCommand(g: Gpu, cfg: GpuConfig, scratchPath: string): (cmd: string)
    requires NoBraces(scratchPath)
    ensures cmd == SettingsCommand + FillAll(Fragments(cfg), g.index) + ServerOptions + scratchPath
  {
    CommandLineFilled(cfg, g.index, scratchPath);
    CommandLine(cfg, g.index, scratchPath).value
  }

  /** A device is configured when the user configuration has an entry for its uuid. */
  predicate Configured(g: Gpu, config: Config) {
    g.uuid in config
  }

  predicate AnyConfigured(gpus: seq<Gpu>, config: Config) {
    exists i :: 0 <= i < |gpus| && Configured(gpus[i], config)
  }

  /**
    One scratch file name per device, position by position: each device
    that is configured gets a temporary file of its own. None of the names
    holds a brace.
  */
  predicate ScratchNames(gpus: seq<Gpu>, scratchPaths: seq<string>) {
    |scratchPaths| == |gpus| && forall i :: 0 <= i < |scratchPaths| ==> NoBraces(scratchPaths[i])
  }

  /**
    The commands run() issues for the devices gpus, in order, when the
    persistence flag starts as `persistent`: devices without an entry are
    skipped; before the first configured device, persistence mode is
    switched on unless it already is.
  */
  function Plan(gpus: seq<Gpu>, scratchPaths: seq<string>, config: Config, persistent: bool): seq<string>
    requires ScratchNames(gpus, scratchPaths)
    decreases |gpus|
  {
    if gpus == [] then []
    else Step(gpus[0], config, persistent, scratchPaths[0])
         + Plan(gpus[1..], scratchPaths[1..], config, persistent || Configured(gpus[0], config))
  }

  /** The commands run() issues for one device: none when it has no entry. */
  function Step(g: Gpu, config: Config, persistent: bool, scratchPath: string): seq<string>
    requires NoBraces(scratchPath)
  {
    if !Configured(g, config) then []
    else (if persistent then [] else [PersistenceCommand])
         + [ApplyCommand(g, FromSettings(config[g.uuid]), scratchPath)]
  }

  /** One settings command per configured device, in the devices' order, each with its own file. */
  function Applies(gpus: seq<Gpu>, scratchPaths: seq<string>, config: Config): seq<string>
    requires ScratchNames(gpus, scratchPaths)
    decreases |gpus|
  {
    if gpus == [] then []
    else if !Configured(gpus[0], config) then Applies(gpus[1..], scratchPaths[1..], config)
    else [ApplyCommand(gpus[0], FromSettings(config[gpus[0].uuid]), scratchPaths[0])]
         + Applies(gpus[1..], scratchPaths[1..], config)
  }

  /** Every settings command starts with "xinit", so none is the persistence command. */
  lemma {:induction false} AppliesNeverPersist(gpus: seq<Gpu>, scratchPaths: seq<string>, config: Config)
    requires ScratchNames(gpus, scratchPaths)
    ensures PersistenceCommand !in Applies(gpus, scratchPaths, config)
    decreases |gpus|
  {
    if gpus != [] {
      AppliesNeverPersist(gpus[1..], scratchPaths[1..], config);
      if Configured(gpus[0], config) {
        var cmd := ApplyCommand(gpus[0], FromSettings(config[gpus[0].uuid]), scratchPaths[0]);
        assert cmd[0] == SettingsCommand[0] == 'x';
        assert PersistenceCommand[0] == 'n';
      }
    }
  }

  /**
    run() switches persistence mode on at most once, before any settings
    command, and only if it was off and some device is configured; then
    it issues one settings command per configured device, in order.
  */
  lemma {:induction false} PlanShape(gpus: seq<Gpu>, scratchPaths: seq<string>, config: Config, persistent: bool)
    requires ScratchNames(gpus, scratchPaths)
    ensures Plan(gpus, scratchPaths, config, persistent)
         == (if !persistent && AnyConfigured(gpus, config) then [PersistenceCommand] else [])
            + Applies(gpus, scratchPaths, config)
    decreases |gpus|
  {
    if gpus != [] {
      var rest := gpus[1..];
      assert AnyConfigured(gpus, config) <==> Configured(gpus[0], config) || AnyConfigured(rest, config) by {
        if AnyConfigured(rest, config) {
          var i :| 0 <= i < |rest| && Configured(rest[i], config);
          assert gpus[i + 1] == rest[i];
        }
        if AnyConfigured(gpus, config) && !Configured(gpus[0], config) {
          var i :| 0 <= i < |gpus| && Configured(gpus[i], config);
          assert rest[i - 1] == gpus[i];
        }
      }
      PlanShape(rest, scratchPaths[1..], config, persistent || Configured(gpus[0], config));
    }
  }

  /** The persistence command occurs in a run's commands once or never. */
  lemma PersistAtMostOnce(gpus: seq<Gpu>, scratchPaths: seq<string>, config: Config, persistent: bool)
    requires ScratchNames(gpus, scratchPaths)
    ensures multiset(Plan(gpus, scratchPaths, config, persistent))[PersistenceCommand]
         == if !persistent && AnyConfigured(gpus, config) then 1 else 0
  {
    PlanShape(gpus, scratchPaths, config, persistent);
    AppliesNeverPersist(gpus, scratchPaths, config);
    assert multiset(Applies(gpus, scratchPaths, config))[PersistenceCommand] == 0;
  }

  /** Every configured device gets its own settings command, naming its own scratch file. */
  lemma {:induction false} AppliesComplete(gpus: seq<Gpu>, scratchPaths: seq<string>, config: Config)
    requires ScratchNames(gpus, scratchPaths)
    ensures forall i :: 0 <= i < |gpus| && Configured(gpus[i], config) ==>
              ApplyCommand(gpus[i], FromSettings(config[gpus[i].uuid]), scratchPaths[i])
                in Applies(gpus, scratchPaths, config)
    decreases |gpus|
  {
    if gpus != [] {
      var rest, restPaths := gpus[1..], scratchPaths[1..];
      AppliesComplete(rest, restPaths, config);
      forall i | 0 <= i < |gpus| && Configured(gpus[i], config)
        ensures ApplyCommand(gpus[i], FromSettings(config[gpus[i].uuid]), scratchPaths[i])
                  in Applies(gpus, scratchPaths, config)
      {
        if i > 0 { assert gpus[i] == rest[i - 1] && scratchPaths[i] == restPaths[i - 1]; }
      }
    }
  }

  /**
    Nothing else is issued: every settings command belongs to a configured
    device and its scratch file, and there is at most one per device.
  */
  lemma {:induction false} AppliesSound(gpus: seq<Gpu>, scratchPaths: seq<string>, config: Config)
    requires ScratchNames(gpus, scratchPaths)
    ensures |Applies(gpus, scratchPaths, config)| <= |gpus|
    ensures forall cmd :: cmd in Applies(gpus, scratchPaths, config) ==>
              exists i :: 0 <= i < |gpus| && Configured(gpus[i], config)
                          && cmd == ApplyCommand(gpus[i], FromSettings(config[gpus[i].uuid]), scratchPaths[i])
    decreases |gpus|
  {
    if gpus != [] {
      var rest, restPaths := gpus[1..], scratchPaths[1..];
      AppliesSound(rest, restPaths, config);
      forall cmd | cmd in Applies(gpus, scratchPaths, config)
        ensures exists i :: 0 <= i < |gpus| && Configured(gpus[i], config)
                            && cmd == ApplyCommand(gpus[i], FromSettings(config[gpus[i].uuid]), scratchPaths[i])
      {
        if cmd in Applies(rest, restPaths, config) {
          var j :| 0 <= j < |rest| && Configured(rest[j], config)
                   && cmd == ApplyCommand(rest[j], FromSettings(config[rest[j].uuid]), restPaths[j]);
          assert gpus[j + 1] == rest[j] && scratchPaths[j + 1] == restPaths[j];
        } else {
          assert cmd == ApplyCommand(gpus[0], FromSettings(config[gpus[0].uuid]), scratchPaths[0]);
        }
      }
    }
  }

  /** Unfolding the plan of a suffix of the device list by one device. */
  lemma PlanStep(before: seq<string>, gpus: seq<Gpu>, scratchPaths: seq<string>, i: int, config: Config, persistent: bool)
    requires ScratchNames(gpus, scratchPaths) && 0 <= i < |gpus|
    ensures ScratchNames(gpus[i..], scratchPaths[i..]) && ScratchNames(gpus[i + 1..], scratchPaths[i + 1..])
    ensures before + Plan(gpus[i..], scratchPaths[i..], config, persistent)
         == (before + Step(gpus[i], config, persistent, scratchPaths[i]))
            + Plan(gpus[i + 1..], scratchPaths[i + 1..], config, persistent || Configured(gpus[i], config))
  {
    assert gpus[i..][0] == gpus[i] && scratchPaths[i..][0] == scratchPaths[i];
    assert gpus[i..][1..] == gpus[i + 1..] && scratchPaths[i..][1..] == scratchPaths[i + 1..];
    ConcatAssoc(before, Step(gpus[i], config, persistent, scratchPaths[i]),
                Plan(gpus[i + 1..], scratchPaths[i + 1..], config, persistent || Configured(gpus[i], config)));
  }

  lemma AnyConfiguredStep(gpus: seq<Gpu>, i: int, config: Config)
    requires 0 <= i < |gpus|
    ensures AnyConfigured(gpus[..i + 1], config) <==> AnyConfigured(gpus[..i], config) || Configured(gpus[i], config)
  {
    assert gpus[..i + 1][i] == gpus[i];
    assert forall j :: 0 <= j < i ==> gpus[..i + 1][j] == gpus[..i][j];
  }

  class Nvidia {
    /** The validated device list, in the second enumeration's order. */
    var gpus: seq<Gpu>
    /** Whether persistence mode has been switched on during this run. */
    var isPersistent: bool
    /** The external commands started so far, in order. */
    var commands: seq<string>

    /**
      The start of Nvidia.__init__: no devices, persistence not yet set.
      The root check and the template loading are not modelled.
    */
    constructor ()
      ensures gpus == [] && !isPersistent && commands == []
    {
      gpus := [];
      isPersistent := false;
      commands := [];
    }

    /**
      Nvidia._find_gpus, given the devices each tool reported. With no
      device from a tool the program exits (ok is false) right after that
      tool; otherwise each device of the second tool that the first tool
      also reports is appended, in the second tool's order.
    */
    method FindGpus(smiCards: seq<Gpu>, xconfigCards: seq<Gpu>) returns (ok: bool)
      modifies this`gpus, this`commands
      ensures ok <==> |smiCards| > 0 && |xconfigCards| > 0
      ensures commands == old(commands) + [ListGpusCommand]
                          + (if |smiCards| > 0 then [QueryGpuInfoCommand] else [])
      ensures gpus == if ok then old(gpus) + CrossValidated(smiCards, xconfigCards) else old(gpus)
    {
      commands := commands + [ListGpusCommand];
      if |smiCards| == 0 {
        return false;
      }
      commands := commands + [QueryGpuInfoCommand];
      if |xconfigCards| == 0 {
        return false;
      }
      var i := 0;
      while i < |xconfigCards|
        invariant 0 <= i <= |xconfigCards|
        invariant gpus == old(gpus) + CrossValidated(smiCards, xconfigCards[..i])
        invariant commands == old(commands) + [ListGpusCommand] + [QueryGpuInfoCommand]
      {
        var c := xconfigCards[i];
        assert xconfigCards[..i + 1][..i] == xconfigCards[..i];
        if Matches(smiCards, c) {
          gpus := gpus + [c];
        }
        i := i + 1;
      }
      assert xconfigCards[..i] == xconfigCards;
      ok := true;
    }

    /** Nvidia._set_persistent: starts "nvidia-smi -pm 1" only the first time. */
    method SetPersistent()
      modifies this`isPersistent, this`commands
      ensures isPersistent
      ensures commands == old(commands) + (if old(isPersistent) then [] else [PersistenceCommand])
    {
      if !isPersistent {
        commands := commands + [PersistenceCommand];
        isPersistent := true;
      }
    }

    /**
      Nvidia._configure_gpu: persistence first, then the nvidia-settings
      command for this device, built from str(cfg) and formatted with the
      device's index.
    */
    method ConfigureGpu(g: Gpu, cfg: GpuConfig, scratchPath: string)
      requires NoBraces(scratchPath)
      modifies this`isPersistent, this`commands
      ensures isPersistent
      ensures commands == old(commands) + (if old(isPersistent) then [] else [PersistenceCommand])
                          + [ApplyCommand(g, cfg, scratchPath)]
    {
      SetPersistent();
      var settings := ConfigStr(cfg);
      CommandLineFilled(cfg, g.index, scratchPath);
      var command := Format(CommandTemplate, [settings, scratchPath]);
      var filled := Format(command.value, [g.index]);
      commands := commands + [filled.value];
    }

    /**
      One turn of the loop in Nvidia.run: a device with an entry in the
      configuration is configured with it, any other is skipped.
    */
    method ConfigureListed(g: Gpu, config: Config, scratchPath: string)
      requires NoBraces(scratchPath)
      modifies this`isPersistent, this`commands
      ensures commands == old(commands) + Step(g, config, old(isPersistent), scratchPath)
      ensures isPersistent == (old(isPersistent) || Configured(g, config))
    {
      if g.uuid !in config {
        assert commands + [] == commands;
        return;
      }
      ConfigureGpu(g, FromSettings(config[g.uuid]), scratchPath);
    }

    /**
      Nvidia.run: each device in the list, in order, is configured with
      its entry of the configuration, through a temporary file of its own,
      scratchPaths[i] for the i-th device; devices without an entry are
      skipped.
    */
    method Run(config: Config, scratchPaths: seq<string>)
      requires ScratchNames(gpus, scratchPaths)
      modifies this`isPersistent, this`commands
      ensures commands == old(commands) + Plan(gpus, scratchPaths, config, old(isPersistent))
      ensures isPersistent == (old(isPersistent) || AnyConfigured(gpus, config))
    {
      var devices := gpus;
      var i := 0;
      assert devices[i..] == devices && scratchPaths[i..] == scratchPaths;
      while i < |devices|
        invariant 0 <= i <= |devices|
        invariant ScratchNames(devices[i..], scratchPaths[i..])
        invariant commands + Plan(devices[i..], scratchPaths[i..], config, isPersistent)
               == old(commands) + Plan(devices, scratchPaths, config, old(isPersistent))
        invariant isPersistent == (old(isPersistent) || AnyConfigured(devices[..i], config))
      {
        var g := devices[i];
        PlanStep(commands, devices, scratchPaths, i, config, isPersistent);
        AnyConfiguredStep(devices, i, config);
        ConfigureListed(g, config, scratchPaths[i]);
        i := i + 1;
      }
      assert devices[..i] == devices;
      assert devices[i..] == [] && scratchPaths[i..] == [];
    }
  }
}

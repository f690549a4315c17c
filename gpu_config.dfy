/**
  GPUConfig (run.py): validation of one device's settings and the
  nvidia-settings argument string built from the settings that survive,
  up to the command line in which every `{0}` becomes the GPU's index.
*/
module GpuConfigs {
  import opened Wrappers
  import opened PyFormat

  /** One device's entry of the user configuration: setting name to integer. */
  type Settings = map<string, int>

  const FanSpeedKey := "fan_speed"
  const ClockOffsetKey := "clock_offset"
  const MemoryOffsetKey := "memory_offset"
  /** Present in the example configuration, read nowhere. */
  const PowerKey := "power"

  predicate FanSpeedInRange(v: int) { 0 < v <= 100 }
  predicate ClockOffsetInRange(v: int) { -200 <= v <= 1200 }
  predicate MemoryOffsetInRange(v: int) { -2000 <= v <= 2000 }

  /** The validated settings; None where a setting is absent or out of range. */
  datatype GpuConfig = GpuConfig(fanSpeed: Option<int>, clockOffset: Option<int>, memoryOffset: Option<int>)
  {
    /** Every setting that is kept lies in its range. */
    predicate Valid() {
      && (fanSpeed.Some? ==> FanSpeedInRange(fanSpeed.value))
      && (clockOffset.Some? ==> ClockOffsetInRange(clockOffset.value))
      && (memoryOffset.Some? ==> MemoryOffsetInRange(memoryOffset.value))
    }
  }

  /**
    GPUConfig.__init__: each setting is kept, unchanged, exactly when its
    key is present and its value lies in the setting's range; otherwise
    it becomes None. Nothing is clamped.
  */
  function FromSettings(cfg: Settings): (c: GpuConfig)
    ensures c.Valid()
    ensures c.fanSpeed.Some? <==> FanSpeedKey in cfg && FanSpeedInRange(cfg[FanSpeedKey])
    ensures c.fanSpeed.Some? ==> c.fanSpeed.value == cfg[FanSpeedKey]
    ensures c.clockOffset.Some? <==> ClockOffsetKey in cfg && ClockOffsetInRange(cfg[ClockOffsetKey])
    ensures c.clockOffset.Some? ==> c.clockOffset.value == cfg[ClockOffsetKey]
    ensures c.memoryOffset.Some? <==> MemoryOffsetKey in cfg && MemoryOffsetInRange(cfg[MemoryOffsetKey])
    ensures c.memoryOffset.Some? ==> c.memoryOffset.value == cfg[MemoryOffsetKey]
  {
    GpuConfig(
      if FanSpeedKey in cfg && cfg[FanSpeedKey] > 0 && cfg[FanSpeedKey] <= 100
      then Some(cfg[FanSpeedKey]) else None,
      if ClockOffsetKey in cfg && cfg[ClockOffsetKey] >= -200 && cfg[ClockOffsetKey] <= 1200
      then Some(cfg[ClockOffsetKey]) else None,
      if MemoryOffsetKey in cfg && cfg[MemoryOffsetKey] >= -2000 && cfg[MemoryOffsetKey] <= 2000
      then Some(cfg[MemoryOffsetKey]) else None)
  }

  /** The settings a validated configuration still holds, under their keys. */
  function ToSettings(c: GpuConfig): Settings
  {
    (if c.fanSpeed.Some? then map[FanSpeedKey := c.fanSpeed.value] else map[])
    + (if c.clockOffset.Some? then map[ClockOffsetKey := c.clockOffset.value] else map[])
    + (if c.memoryOffset.Some? then map[MemoryOffsetKey := c.memoryOffset.value] else map[])
  }

  /** Validating a configuration that is already valid gives it back unchanged. */
  lemma FromSettingsRoundTrip(c: GpuConfig)
    requires c.Valid()
    ensures FromSettings(ToSettings(c)) == c
  {
    var s := ToSettings(c);
    assert FanSpeedKey in s <==> c.fanSpeed.Some?;
    assert ClockOffsetKey in s <==> c.clockOffset.Some?;
    assert MemoryOffsetKey in s <==> c.memoryOffset.Some?;
  }

  /** What validation keeps is a part of the input, entry for entry: values are never altered. */
  lemma FromSettingsKeepsInput(cfg: Settings)
    ensures forall k :: k in ToSettings(FromSettings(cfg)) ==> k in cfg && ToSettings(FromSettings(cfg))[k] == cfg[k]
    ensures FromSettings(ToSettings(FromSettings(cfg))) == FromSettings(cfg)
  {
    FromSettingsRoundTrip(FromSettings(cfg));
  }

  /** Two inputs agree on a key: both lack it, or both map it to the same value. */
  predicate AgreeOn(cfg: Settings, cfg': Settings, key: string) {
    (key in cfg <==> key in cfg') && (key in cfg ==> cfg[key] == cfg'[key])
  }

  /** Keys other than the three settings, `power` among them, have no effect. */
  lemma OtherKeysIgnored(cfg: Settings, cfg': Settings, key: string, v: int)
    requires AgreeOn(cfg, cfg', FanSpeedKey) && AgreeOn(cfg, cfg', ClockOffsetKey)
    requires AgreeOn(cfg, cfg', MemoryOffsetKey)
    requires key != FanSpeedKey && key != ClockOffsetKey && key != MemoryOffsetKey
    ensures FromSettings(cfg) == FromSettings(cfg')
    ensures FromSettings(cfg[key := v]) == FromSettings(cfg)
  {
  }

  /** The boundaries: a fan speed of 0 or 101 is dropped, 1 and 100 are kept. */
  lemma FanSpeedBoundaries()
    ensures FromSettings(map[FanSpeedKey := 0]).fanSpeed == None
    ensures FromSettings(map[FanSpeedKey := 101]).fanSpeed == None
    ensures FromSettings(map[FanSpeedKey := 1]).fanSpeed == Some(1)
    ensures FromSettings(map[FanSpeedKey := 100]).fanSpeed == Some(100)
  {
  }

  // ---------------------------------------------------------------------
  // config_str
  // ---------------------------------------------------------------------

  /** One `-a` assignment group of the nvidia-settings arguments. */
  datatype Fragment = FanControl(speed: int) | PowerMizer | ClockOffset(offset: int) | MemoryOffset(offset: int)

  /** The fragments config_str emits, in its fixed order. */
  function Fragments(c: GpuConfig): seq<Fragment>
  {
    (if c.fanSpeed.Some? then [FanControl(c.fanSpeed.value)] else [])
    + (if c.clockOffset.Some? || c.memoryOffset.Some? then [PowerMizer] else [])
    + (if c.clockOffset.Some? then [ClockOffset(c.clockOffset.value)] else [])
    + (if c.memoryOffset.Some? then [MemoryOffset(c.memoryOffset.value)] else [])
  }

  // The brace-free pieces of the argument text, between the places where
  // the GPU index goes.
  const GpuTarget := " -a [gpu:"
  const FanControlState := "]/GPUFanControlState=1 -a [fan:"
  const TargetFanSpeed := "]/GPUTargetFanSpeed="
  const PowerMizerMode := "]/GPUPowerMizerMode=1"
  const GraphicsClockOffset := "]/GPUGraphicsClockOffset[0]="
  const MemoryTransferRateOffset := "]/GPUMemoryTransferRateOffset[3]="

  lemma PiecesHaveNoBraces()
    ensures NoBraces(GpuTarget) && NoBraces(FanControlState) && NoBraces(TargetFanSpeed)
    ensures NoBraces(PowerMizerMode) && NoBraces(GraphicsClockOffset) && NoBraces(MemoryTransferRateOffset)
  {
    GpuTargetNoBraces();
    FanControlStateNoBraces();
    TargetFanSpeedNoBraces();
    PowerMizerModeNoBraces();
    GraphicsClockOffsetNoBraces();
    MemoryTransferRateOffsetNoBraces();
  }

  lemma GpuTargetNoBraces() ensures NoBraces(GpuTarget) {}
  lemma FanControlStateNoBraces() ensures NoBraces(FanControlState) {}
  lemma TargetFanSpeedNoBraces() ensures NoBraces(TargetFanSpeed) {}
  lemma PowerMizerModeNoBraces() ensures NoBraces(PowerMizerMode) {}
  lemma GraphicsClockOffsetNoBraces() ensures NoBraces(GraphicsClockOffset) {}
  lemma MemoryTransferRateOffsetNoBraces() ensures NoBraces(MemoryTransferRateOffset) {}

  /**
    The templates config_str formats with the setting's value, written as
    their pieces: fan control is
    " -a [gpu:{{0}}]/GPUFanControlState=1 -a [fan:{{0}}]/GPUTargetFanSpeed={}",
    clock " -a [gpu:{{0}}]/GPUGraphicsClockOffset[0]={}" and memory
    " -a [gpu:{{0}}]/GPUMemoryTransferRateOffset[3]={}".
  */
  const FanControlTemplate := GpuTarget + "{{0}}" + FanControlState + "{{0}}" + TargetFanSpeed + "{}"
  const ClockOffsetTemplate := GpuTarget + "{{0}}" + GraphicsClockOffset + "{}"
  const MemoryOffsetTemplate := GpuTarget + "{{0}}" + MemoryTransferRateOffset + "{}"

  /** " -a [gpu:{0}]/GPUPowerMizerMode=1", appended as it stands, without formatting. */
  const PowerMizerText := GpuTarget + "{0}" + PowerMizerMode

  /** A fragment's text as config_str leaves it: `{0}` stands for the GPU index. */
  function Text(f: Fragment): string
  {
    match f
    case FanControl(v) => GpuTarget + "{0}" + FanControlState + "{0}" + TargetFanSpeed + IntToString(v)
    case PowerMizer => PowerMizerText
    case ClockOffset(v) => GpuTarget + "{0}" + GraphicsClockOffset + IntToString(v)
    case MemoryOffset(v) => GpuTarget + "{0}" + MemoryTransferRateOffset + IntToString(v)
  }

  /** The text of a list of fragments, one after the other. */
  function Render(fs: seq<Fragment>): string
    decreases |fs|
  {
    if fs == [] then [] else Text(fs[0]) + Render(fs[1..])
  }

  /** The value of config_str (and of str() on a GPUConfig). */
  function ConfigString(c: GpuConfig): string
  {
    Render(Fragments(c))
  }

  lemma {:induction false} RenderAppend(a: seq<Fragment>, b: seq<Fragment>)
    ensures Render(a + b) == Render(a) + Render(b)
    decreases |a|
  {
    if a == [] {
      assert a + b == b;
    } else {
      var rest := a[1..];
      assert (a + b)[0] == a[0];
      assert (a + b)[1..] == rest + b;
      RenderAppend(rest, b);
      var t, ra, rb := Text(a[0]), Render(rest), Render(b);
      assert Render(a + b) == t + (ra + rb);
      assert Render(a) == t + ra;
      ConcatAssoc(t, ra, rb);
    }
  }

  lemma ConcatAssoc<T>(a: seq<T>, b: seq<T>, c: seq<T>)
    ensures a + (b + c) == (a + b) + c
  {
  }

  lemma RenderSingle(f: Fragment)
    ensures Render([f]) == Text(f)
  {
    assert [f][1..] == [];
  }

  /** An escaped `{{0}}` formats to a literal `{0}`. */
  lemma AppendEscapedPlaceholder(a: string, args: seq<string>, n: Numbering)
    requires FormatFrom(a, args, n).Some?
    ensures var (sa, m) := FormatFrom(a, args, n).value;
      FormatFrom(a + "{{0}}", args, n) == Some((sa + "{0}", m))
  {
    var sa := FormatFrom(a, args, n).value.0;
    AppendEscape(a, "{{", args, n);
    assert "{{"[..1] == "{";
    AppendLiteral(a + "{{", "0", args, n);
    AppendEscape(a + "{{" + "0", "}}", args, n);
    assert "}}"[..1] == "}";
    assert a + "{{" + "0" + "}}" == a + "{{0}}";
    assert sa + "{" + "0" + "}" == sa + "{0}";
  }

  /** `l0{{0}}l1{}` formats to `l0{0}l1` followed by the argument. */
  lemma OneEscapedThenValue(l0: string, l1: string, arg: string)
    requires NoBraces(l0) && NoBraces(l1)
    ensures Format(l0 + "{{0}}" + l1 + "{}", [arg]) == Some(l0 + "{0}" + l1 + arg)
  {
    FormatLiteralAlone(l0, [arg], Unset);
    AppendEscapedPlaceholder(l0, [arg], Unset);
    AppendLiteral(l0 + "{{0}}", l1, [arg], Unset);
    AppendAutoField(l0 + "{{0}}" + l1, [arg], Unset);
  }

  /** `l0{{0}}l1{{0}}l2{}` formats to `l0{0}l1{0}l2` followed by the argument. */
  lemma TwoEscapedThenValue(l0: string, l1: string, l2: string, arg: string)
    requires NoBraces(l0) && NoBraces(l1) && NoBraces(l2)
    ensures Format(l0 + "{{0}}" + l1 + "{{0}}" + l2 + "{}", [arg]) == Some(l0 + "{0}" + l1 + "{0}" + l2 + arg)
  {
    FormatLiteralAlone(l0, [arg], Unset);
    AppendEscapedPlaceholder(l0, [arg], Unset);
    AppendLiteral(l0 + "{{0}}", l1, [arg], Unset);
    AppendEscapedPlaceholder(l0 + "{{0}}" + l1, [arg], Unset);
    AppendLiteral(l0 + "{{0}}" + l1 + "{{0}}", l2, [arg], Unset);
    AppendAutoField(l0 + "{{0}}" + l1 + "{{0}}" + l2, [arg], Unset);
  }

  /**
    The first `.format` in config_str: formatting each template with the
    decimal text of the value yields the fragment's text, in which the
    escaped `{{0}}` has become the placeholder `{0}`.
  */
  lemma TemplatesFormatToText(v: int)
    ensures Format(FanControlTemplate, [IntToString(v)]) == Some(Text(FanControl(v)))
    ensures Format(ClockOffsetTemplate, [IntToString(v)]) == Some(Text(ClockOffset(v)))
    ensures Format(MemoryOffsetTemplate, [IntToString(v)]) == Some(Text(MemoryOffset(v)))
  {
    IntToStringShape(v);
    PiecesHaveNoBraces();
    TwoEscapedThenValue(GpuTarget, FanControlState, TargetFanSpeed, IntToString(v));
    OneEscapedThenValue(GpuTarget, GraphicsClockOffset, IntToString(v));
    OneEscapedThenValue(GpuTarget, MemoryTransferRateOffset, IntToString(v));
  }

  /**
    config_str: appends, in order, fan control, the PowerMizer mode (when
    a clock or memory offset was kept), the clock offset and the memory
    offset, each only for a setting that survived validation.
  */
  method ConfigStr(c: GpuConfig) returns (s: string)
    ensures s == ConfigString(c)
    ensures s == [] <==> c.fanSpeed.None? && c.clockOffset.None? && c.memoryOffset.None?
  {
    s := "";
    ghost var done: seq<Fragment> := [];
    if c.fanSpeed.Some? {
      var v := c.fanSpeed.value;
      TemplatesFormatToText(v);
      var piece := Format(FanControlTemplate, [IntToString(v)]);
      RenderSingle(FanControl(v));
      s := s + piece.value;
      done := done + [FanControl(v)];
    }
    assert s == Render(done);
    if c.clockOffset.Some? || c.memoryOffset.Some? {
      RenderAppend(done, [PowerMizer]);
      RenderSingle(PowerMizer);
      s := s + PowerMizerText;
      done := done + [PowerMizer];
    }
    assert s == Render(done);
    if c.clockOffset.Some? {
      var v := c.clockOffset.value;
      TemplatesFormatToText(v);
      var piece := Format(ClockOffsetTemplate, [IntToString(v)]);
      RenderAppend(done, [ClockOffset(v)]);
      RenderSingle(ClockOffset(v));
      s := s + piece.value;
      done := done + [ClockOffset(v)];
    }
    assert s == Render(done);
    if c.memoryOffset.Some? {
      var v := c.memoryOffset.value;
      TemplatesFormatToText(v);
      var piece := Format(MemoryOffsetTemplate, [IntToString(v)]);
      RenderAppend(done, [MemoryOffset(v)]);
      RenderSingle(MemoryOffset(v));
      s := s + piece.value;
      done := done + [MemoryOffset(v)];
    }
    assert done == Fragments(c);
    ConfigStringEmpty(c);
  }

  /** config_str is empty exactly when no setting survived validation. */
  lemma ConfigStringEmpty(c: GpuConfig)
    ensures ConfigString(c) == [] <==> c.fanSpeed.None? && c.clockOffset.None? && c.memoryOffset.None?
  {
    var fs := Fragments(c);
    if fs != [] {
      assert |Text(fs[0])| > 0;
    }
  }

  /** The PowerMizer fragment occurs once when a clock or memory offset was kept, else never. */
  lemma PowerMizerOnce(c: GpuConfig)
    ensures multiset(Fragments(c))[PowerMizer] == if c.clockOffset.Some? || c.memoryOffset.Some? then 1 else 0
  {
  }

  /**
    From the user's settings: the PowerMizer mode is requested exactly
    when a clock or memory offset passed validation; an offset that is
    present but out of range does not request it.
  */
  lemma PowerMizerGatedOnValidity(cfg: Settings)
    ensures PowerMizer in Fragments(FromSettings(cfg)) <==>
              (ClockOffsetKey in cfg && ClockOffsetInRange(cfg[ClockOffsetKey]))
              || (MemoryOffsetKey in cfg && MemoryOffsetInRange(cfg[MemoryOffsetKey]))
  {
    var c := FromSettings(cfg);
    PowerMizerOnce(c);
    assert PowerMizer in Fragments(c) <==> multiset(Fragments(c))[PowerMizer] > 0;
  }

  /** A clock offset of 5000 alone yields no fragment at all, PowerMizer included. */
  lemma OutOfRangeClockOffsetAlone()
    ensures Fragments(FromSettings(map[ClockOffsetKey := 5000])) == []
    ensures ConfigString(FromSettings(map[ClockOffsetKey := 5000])) == []
  {
  }

  /** The example configuration's device: every setting in range, `power` ignored. */
  lemma ExampleConfiguration()
    ensures var cfg := map[PowerKey := 150, FanSpeedKey := 100, ClockOffsetKey := 20, MemoryOffsetKey := 90];
      Fragments(FromSettings(cfg)) == [FanControl(100), PowerMizer, ClockOffset(20), MemoryOffset(90)]
  {
  }

  // ---------------------------------------------------------------------
  // The second `.format`: `{0}` becomes the GPU index
  // ---------------------------------------------------------------------

  /** A fragment's text once `{0}` has been replaced by the GPU index. */
  function Filled(f: Fragment, index: string): string
  {
    match f
    case FanControl(v) => GpuTarget + index + FanControlState + index + TargetFanSpeed + IntToString(v)
    case PowerMizer => GpuTarget + index + PowerMizerMode
    case ClockOffset(v) => GpuTarget + index + GraphicsClockOffset + IntToString(v)
    case MemoryOffset(v) => GpuTarget + index + MemoryTransferRateOffset + IntToString(v)
  }

  function FillAll(fs: seq<Fragment>, index: string): string
    decreases |fs|
  {
    if fs == [] then [] else Filled(fs[0], index) + FillAll(fs[1..], index)
  }

  /** `l0{0}l1` formats to `l0`, the argument, `l1`, in manual numbering. */
  lemma OnePlaceholder(l0: string, l1: string, index: string, n: Numbering)
    requires NoBraces(l0) && NoBraces(l1) && !n.Auto?
    ensures FormatFrom(l0 + "{0}" + l1, [index], n) == Some((l0 + index + l1, Manual))
  {
    FormatLiteralAlone(l0, [index], n);
    AppendFieldZero(l0, [index], n);
    AppendLiteral(l0 + "{0}", l1, [index], n);
  }

  /** `l0{0}l1` then `t` formats to `l0`, the argument, `l1`, `t`. */
  lemma OnePlaceholderThen(l0: string, l1: string, t: string, index: string, n: Numbering)
    requires NoBraces(l0) && NoBraces(l1) && NoBraces(t) && !n.Auto?
    ensures FormatFrom(l0 + "{0}" + l1 + t, [index], n) == Some((l0 + index + l1 + t, Manual))
  {
    OnePlaceholder(l0, l1, index, n);
    AppendLiteral(l0 + "{0}" + l1, t, [index], n);
  }

  /** `l0{0}l1{0}l2` then `t` formats to `l0`, the argument, `l1`, the argument, `l2`, `t`. */
  lemma TwoPlaceholdersThen(l0: string, l1: string, l2: string, t: string, index: string, n: Numbering)
    requires NoBraces(l0) && NoBraces(l1) && NoBraces(l2) && NoBraces(t) && !n.Auto?
    ensures FormatFrom(l0 + "{0}" + l1 + "{0}" + l2 + t, [index], n)
         == Some((l0 + index + l1 + index + l2 + t, Manual))
  {
    OnePlaceholder(l0, l1, index, n);
    AppendFieldZero(l0 + "{0}" + l1, [index], n);
    AppendLiteral(l0 + "{0}" + l1 + "{0}", l2, [index], n);
    AppendLiteral(l0 + "{0}" + l1 + "{0}" + l2, t, [index], n);
  }

  /** Formatting a fragment's text with the index fills in every placeholder. */
  lemma FragmentFills(f: Fragment, index: string, n: Numbering)
    requires !n.Auto?
    ensures FormatFrom(Text(f), [index], n) == Some((Filled(f, index), Manual))
  {
    PiecesHaveNoBraces();
    match f
    case FanControl(v) =>
      IntToStringShape(v);
      TwoPlaceholdersThen(GpuTarget, FanControlState, TargetFanSpeed, IntToString(v), index, n);
    case PowerMizer =>
      OnePlaceholder(GpuTarget, PowerMizerMode, index, n);
    case ClockOffset(v) =>
      IntToStringShape(v);
      OnePlaceholderThen(GpuTarget, GraphicsClockOffset, IntToString(v), index, n);
    case MemoryOffset(v) =>
      IntToStringShape(v);
      OnePlaceholderThen(GpuTarget, MemoryTransferRateOffset, IntToString(v), index, n);
  }

  /** Formatting rendered fragments with the index fills each fragment in turn. */
  lemma {:induction false} RenderFills(fs: seq<Fragment>, index: string, n: Numbering)
    requires !n.Auto?
    ensures FormatFrom(Render(fs), [index], n) == Some((FillAll(fs, index), if fs == [] then n else Manual))
    decreases |fs|
  {
    if fs != [] {
      FragmentFills(fs[0], index, n);
      FormatConcat(Text(fs[0]), Render(fs[1..]), [index], n);
      RenderFills(fs[1..], index, Manual);
    }
  }

  /** A filled fragment holds no brace when the index holds none. */
  lemma FilledNoBraces(f: Fragment, index: string)
    requires NoBraces(index)
    ensures NoBraces(Filled(f, index))
  {
    PiecesHaveNoBraces();
    match f
    case FanControl(v) => IntToStringShape(v);
    case PowerMizer =>
    case ClockOffset(v) => IntToStringShape(v);
    case MemoryOffset(v) => IntToStringShape(v);
  }

  /** No placeholder survives: with a brace-free index the filled arguments hold no brace. */
  lemma {:induction false} FillAllNoBraces(fs: seq<Fragment>, index: string)
    requires NoBraces(index)
    ensures NoBraces(FillAll(fs, index))
    decreases |fs|
  {
    if fs != [] {
      FillAllNoBraces(fs[1..], index);
      FilledNoBraces(fs[0], index);
    }
  }

  /** The command of run.py:229-230, before either `.format`, split at its two fields. */
  const SettingsCommand := "xinit /usr/bin/nvidia-settings"
  const ServerOptions := " -- :1 -once -config "
  const CommandTemplate := SettingsCommand + "{}" + ServerOptions + "{}"

  /**
    The command line for one GPU: the template is formatted with the
    configuration string and the scratch file's path, and the result is
    formatted again with the GPU's index. None where Python would raise.
  */
  function CommandLine(c: GpuConfig, index: string, scratchPath: string): Option<string>
  {
    match Format(CommandTemplate, [ConfigString(c), scratchPath])
    case None => None
    case Some(cmd) => Format(cmd, [index])
  }

  /**
    With a brace-free scratch path, the command runs nvidia-settings with
    every fragment addressed to the GPU's index: fan control with the
    exact fan speed, the PowerMizer mode, the clock offset at performance
    level [0] and the memory offset at level [3], in that order.
  */
  lemma CommandLineFilled(c: GpuConfig, index: string, scratchPath: string)
    requires NoBraces(scratchPath)
    ensures CommandLine(c, index, scratchPath)
         == Some(SettingsCommand + FillAll(Fragments(c), index) + ServerOptions + scratchPath)
  {
    var l0, l1 := SettingsCommand, ServerOptions;
    assert NoBraces(l0) && NoBraces(l1);
    var cs := ConfigString(c);
    var args := [cs, scratchPath];
    FormatLiteralAlone(l0, args, Unset);
    AppendAutoField(l0, args, Unset);
    AppendLiteral(l0 + "{}", l1, args, Unset);
    AppendAutoField(l0 + "{}" + l1, args, Unset);
    assert Format(CommandTemplate, args) == Some(l0 + cs + l1 + scratchPath);

    var fs := Fragments(c);
    FormatLiteralAlone(l0, [index], Unset);
    RenderFills(fs, index, Unset);
    FormatConcat(l0, cs, [index], Unset);
    var m := if fs == [] then Unset else Manual;
    assert FormatFrom(l0 + cs, [index], Unset) == Some((l0 + FillAll(fs, index), m));
    AppendLiteral(l0 + cs, l1, [index], Unset);
    AppendLiteral(l0 + cs + l1, scratchPath, [index], Unset);
  }
}

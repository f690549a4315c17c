# shaClock core in Dafny

shaClock (`run.py`) overclocks NVIDIA cards on a headless Linux machine and
sets their fans, using the vendor's command-line tools. This project models
the logic in between those tools:

- **Device records** (`Gpus`): the `GPU` record, the device equality it
  defines (`__eq__`), its text form (`__str__`), and the cross-validation of
  the two device enumerations (`nvidia-smi -L` and
  `nvidia-xconfig --query-gpu-info`).
- **Per-device configuration** (`GpuConfigs`):
  - `GPUConfig.__init__` keeps a setting only when it is present and in
    range. It never clamps.
  - `config_str` builds the `nvidia-settings -a …` argument string, fragment
    by fragment.
  - The final command line comes from two successive `str.format` calls. The
    second one fills every `{0}` left by `config_str` with the device's index.
- **The driver object** (`NvidiaDriver.Nvidia`): a class with
  - the validated device list;
  - the one-shot persistence flag;
  - a log of the external commands started.

  `Run` is proved against a specification function of the whole command
  sequence, `Plan`. `FindGpus` is proved against the cross-validation
  function `CrossValidated`. `SetPersistent` and `ConfigureGpu` state the
  commands they add outright.
- **A subset of Python's `str.format` and `str(int)`** (`PyFormat`): the
  subset the program relies on, with the error cases Python raises on.

Nothing is executed. External programs and their outputs become parameters:
- The two enumerations arrive already parsed.
- The name of each device's scratch file is a parameter.
- Every program the object would start is appended to `commands`.

Behaviour of the code worth noting:
- A fan speed of 0 is rejected, because the code tests `> 0`.
- The PowerMizer mode is requested when a clock or memory offset passed
  validation, not when one is merely present. A lone `clock_offset: 5000`
  produces an empty argument string.
- Performance levels are not queried. The code addresses the clock offset at
  level `[0]` and the memory offset at level `[3]`.
- There is no power-limit step. The `power` key is read by nothing and has
  no effect.
- Persistence mode is switched on lazily, just before the first configured
  device.

## Model

| member | source | states |
|---|---|---|
| Gpus.SameDeviceProperties | run.py:38-39 | device equality compares uuid and index only; it is reflexive, symmetric and transitive, and ignores name and slot |
| Gpus.Describe | run.py:32-36 | the text form is `GPU <name=… uuid=… index=GPU:…>`, with ` slot=PCI:…` before the `>` exactly when the record has a slot; obtained by formatting the source's template |
| Gpus.CrossValidatedCount | run.py:201-205 | a record of the second enumeration is kept, as often as it occurs there, exactly when the first enumeration reports the same device (same uuid and index); nothing else is kept |
| Gpus.CrossValidatedMembers | run.py:201-205 | a record is in the validated list iff it is in the second enumeration and the first reports the same device |
| Gpus.CrossValidatedAppend | run.py:201-205 | cross-validation keeps the second enumeration's order: validating a concatenation is validating each part |
| Gpus.CrossValidatedSingle | run.py:202-205 | one record is appended when matched and dropped otherwise |
| GpuConfigs.FromSettings | run.py:60-75 | each of fan speed (1..100), clock offset (-200..1200) and memory offset (-2000..2000) is kept iff its key is present and its value in range, with the input's value; the result is valid |
| GpuConfigs.FromSettingsRoundTrip | run.py:60-75 | validating an already valid configuration gives it back unchanged |
| GpuConfigs.FromSettingsKeepsInput | run.py:60-75 | validation only drops entries, never alters a value; it is idempotent |
| GpuConfigs.OtherKeysIgnored | run.py:60-75 | only the three setting keys matter; any other key, `power` included, has no effect |
| GpuConfigs.FanSpeedBoundaries | run.py:62 | fan speeds 0 and 101 are dropped, 1 and 100 kept |
| GpuConfigs.TemplatesFormatToText | run.py:81-82 | formatting each value template with the value's decimal text gives the fragment with its escaped `{{0}}` turned into the placeholder `{0}` |
| GpuConfigs.ConfigStr | run.py:77-93 | the accumulated string is the text of the fragments in the fixed order fan control, PowerMizer, clock offset, memory offset, each present only for a setting that survived; it is empty iff none survived |
| GpuConfigs.ConfigStringEmpty | run.py:77-93 | the argument string is empty exactly when no setting survived validation |
| GpuConfigs.PowerMizerOnce | run.py:84-85 | the PowerMizer fragment appears once when a clock or memory offset was kept, never otherwise |
| GpuConfigs.PowerMizerGatedOnValidity | run.py:67-75 | from the user's settings: PowerMizer is requested iff a clock or memory offset is present and in range |
| GpuConfigs.OutOfRangeClockOffsetAlone | run.py:67-70 | a lone out-of-range clock offset yields no fragment and an empty string |
| GpuConfigs.ExampleConfiguration | config_example.py:9-14 | the example device's settings yield fan control 100, PowerMizer, clock offset 20 and memory offset 90, in that order |
| GpuConfigs.RenderAppend | run.py:77-93 | the text of a fragment list is the concatenation of its parts' texts |
| GpuConfigs.FragmentFills | run.py:229-230 | formatting a fragment's text with the index puts the index into every `{0}` of it |
| GpuConfigs.RenderFills | run.py:229-230 | formatting the whole argument string with the index fills every fragment of it, in order |
| GpuConfigs.FillAllNoBraces | run.py:229-230 | with a brace-free index, the filled arguments contain no brace |
| GpuConfigs.CommandLineFilled | run.py:229-230 | with a brace-free scratch path, both formats succeed and the command is `xinit /usr/bin/nvidia-settings` + the filled fragments + ` -- :1 -once -config ` + the path |
| NvidiaDriver.ApplyCommand | run.py:229-230 | the command line configuring one device, with its index in every fragment |
| NvidiaDriver.Nvidia.constructor | run.py:112-121 | a new driver has no devices, persistence off and no command started |
| NvidiaDriver.Nvidia.FindGpus | run.py:157-205 | starts `nvidia-smi -L`, then `nvidia-xconfig --query-gpu-info` only if the first found a card; succeeds iff both found cards; then appends the cross-validated list, in the second tool's order |
| NvidiaDriver.Nvidia.SetPersistent | run.py:140-146 | starts `nvidia-smi -pm 1` only when persistence is off; afterwards it is on |
| NvidiaDriver.Nvidia.ConfigureGpu | run.py:208-230 | switches persistence on if needed, then starts the device's settings command |
| NvidiaDriver.Nvidia.ConfigureListed | run.py:134-138 | a device with an entry in the configuration is configured with its validated settings; any other device starts no command and leaves persistence as it was |
| NvidiaDriver.Nvidia.Run | run.py:127-138 | the commands started are exactly the plan for the device list, each configured device naming its own temporary file; persistence ends on iff it was on or some device is configured |
| NvidiaDriver.PlanShape | run.py:133-146 | a run starts the persistence command once, before any settings command, iff persistence was off and some device has an entry, then one settings command per configured device, in order |
| NvidiaDriver.PersistAtMostOnce | run.py:140-146 | the persistence command occurs in a run's commands once or never |
| NvidiaDriver.AppliesNeverPersist | run.py:133-138 | no settings command is the persistence command |
| NvidiaDriver.AppliesComplete | run.py:133-138 | every configured device gets its own settings command, naming the scratch file opened for it |
| NvidiaDriver.AppliesSound | run.py:133-138 | every settings command belongs to a configured device and that device's scratch file, and there are at most as many commands as devices |
| PyFormat.IntToStringRoundTrip | run.py:82 | the decimal text of every integer reads back as that integer |
| PyFormat.IntToStringShape | run.py:88 | an integer's decimal text is non-empty and brace-free |
| PyFormat.FormatConcat | run.py:81-91 | a template whose first part formats completely formats as that part's output followed by the rest |
| PyFormat.FormatLiteral | run.py:229-230 | brace-free text is copied through unchanged |
| PyFormat.FormatErrors | run.py:229-230 | a lone brace, a field number beyond the arguments and a mix of automatic and manual field numbering are errors |

## Left out

- Subprocess exit codes and outputs: commands are logged, never run. The `assert exitcode == 0` checks and the diagnostics for codes 9 and 1 are not modelled.
- The regular-expression parsing of both tools' outputs: the parsed device lists are inputs to `FindGpus`.
- `sys.exit(1)` on discovery failure is the `false` result of `FindGpus`. The root check in `__init__` and the edid-file check in `run` are left out, because they depend on the operating system.
- `_load_template`, and the xorg.conf text written to each scratch file (run.py:224-227): file I/O. The temporary file `_configure_gpu` opens for each device is given to `Run` as one name per device, in `scratchPaths`. Creating and deleting the files is not modelled.
- NvidiaDriver.Nvidia.ConfigureGpu: requires a brace-free scratch path. The second `.format` would re-read braces in the path. It would rewrite `{0}`, `{{` and `}}`. Other braces would raise an error, or be filled in too: `{}` takes the index when no setting survived. The name tempfile generates has none, and the model assumes the temporary directory has none either.
- `print` diagnostics, including the one for a device reported by only one tool.
- PyFormat.Format: covers only `{{`, `}}`, `{}` and single-digit `{d}`. Format specs, conversions, attribute and index lookups and multi-digit field numbers do not occur in the program and give None.
- Settings values are Python ints. Other value types (floats, strings) in a user configuration are not modelled.
- `main()` and the loading of `config.py`: module-level wiring.

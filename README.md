# g14-perf-control: the profile controller and the state probe, in Dafny

g14-perf-control switches an ASUS ROG Zephyrus G14 laptop between three
fan profiles: `normal`, `boost` and `silent`. Switching writes the
profile's index to the kernel's thermal-policy control file. It then
optionally writes the CPU turbo flag, applies a CPU fan curve and a GPU fan
curve through the board library, and sends a real-time signal to the
`waybar` status bar. Each profile's configuration says which of those
optional steps happen.

This project models the two core files:

- `src/state.rs`, the **state probe** (module `StateProbe`).
  - It reads the fan-profile index and the turbo flag from their control files.
  - Parsing is Rust's `trim` followed by `u8::from_str`, modelled exactly in
    module `Decimal`: the Unicode whitespace set, an optional `+`, and the
    `Empty` / `InvalidDigit` / `PosOverflow` errors.
  - It renders the state as a human line (`Display`) and as a one-line JSON object.
- `src/control.rs`, the **profile controller** (module `ProfileControl`).
  - `set` resolves a profile name, and `toggle_profile` picks the next profile.
  - Both run `set_profile`, the transition. Its order is fixed: board check,
    fan-profile write, turbo write, CPU curve, GPU curve, status-bar signal.
  - The transition stops at the first failure and undoes nothing.

The machine's side of a transition is an `Env` value given to the model. It
holds:

- whether the board is recognised;
- which writes and curve applications fail;
- the process table;
- the runtime value of SIGRTMIN.

What a transition changes lives in a `Kernel` object. Its fields are the two
control files, the curve last applied to each fan, the signals sent, and a
trace of every effect in order. The controller's methods change the `Kernel`
one step at a time, as the source does. Each method is proved equal to a pure
specification, `Transition`, built from one `Outcome` per step. These
outcomes are chained with `Then`, which models Rust's `?`. Module
`ControlProperties` proves what the source promises about that
specification. Module `Scenarios` states what `set`, `toggle` and
`info --json` do on concrete inputs.

In these places the model follows what the code does:

- The fan profile read from the kernel is not range-checked. Any `u8` is
  accepted (`FromSystemNoRangeCheck`).
- `fan_profile_str` panics on an index above 2 (src/state.rs:30). So every
  rendering has the precondition `fanProfile < 3`, rather than returning an
  error.
- The source declares only `InvalidBoard` and `UnknownProfile`. The other
  failures reach the caller through `anyhow` with their types erased.
  `ControlError` names them `WriteFailed`, `CurveApplyFailed` and
  `ProcessTableFailed`, so the model can say which step stopped a transition.

## Model

| member | source | states |
|---|---|---|
| Decimal.TrimStart | src/state.rs:16-17 | `trim_start` drops a prefix made only of whitespace, and what remains does not start with whitespace |
| Decimal.TrimEnd | src/state.rs:16-17 | `trim_end` drops a suffix made only of whitespace, and what remains does not end with whitespace |
| Decimal.Trim | src/state.rs:16-17 | `trim` returns the middle part of the text: what it drops before and after that part is only whitespace, and the part itself neither starts nor ends with whitespace |
| Decimal.MiddleOf | src/state.rs:16-17 | what `trim_end` keeps of what `trim_start` kept is such a middle part of the original text, with whitespace on both sides |
| Decimal.ScanDigits | src/state.rs:16-17 | the digit loop of `u8::from_str`; its meaning is stated by `Decimal.ScanDigitsMeaning` |
| Decimal.ParseU8 | src/state.rs:16-17 | `u8::from_str`; its meaning is stated by `Decimal.ParseU8Meaning` and `Decimal.DecimalRoundTrip` |
| Decimal.ScanDigitsMeaning | src/state.rs:16-17 | the digit loop of `u8` parsing succeeds exactly when every character is a digit and the number is at most 255, and it returns that number |
| Decimal.ParseU8Meaning | src/state.rs:16-17 | `u8::from_str` accepts exactly one optional `+` followed by a non-empty run of digits worth at most 255, returns their value, and reports `Empty` for the empty text |
| Decimal.DecimalString | src/control.rs:77 | `u8::to_string` is a non-empty run of digits with no leading zero |
| Decimal.DecimalStringValue | src/control.rs:77 | the digits `to_string` produces denote the number |
| Decimal.DecimalRoundTrip | src/control.rs:77 | parsing what `to_string` wrote gives back the same `u8` |
| Decimal.TrimPadded | src/state.rs:16-17 | `trim` removes exactly the whitespace around a text that neither starts nor ends with whitespace |
| Decimal.ReadBackDecimal | src/state.rs:16-17 | a written `u8`, read back with any surrounding whitespace, then trimmed and parsed, is the same number |
| StateProbe.ReadU8 | src/state.rs:16-17 | reading one control file, trimming and parsing it; its meaning is stated by `StateProbe.ReadBackWritten` and `StateProbe.FromSystemMeaning` |
| StateProbe.FromSystem | src/state.rs:14-19 | `State::from_system`; its meaning is stated by `StateProbe.FromSystemMeaning` and `StateProbe.FromSystemNoRangeCheck` |
| StateProbe.State.FanProfileStr | src/state.rs:25-32 | `fan_profile_str`, which panics above 2 and so requires an index below 3; its meaning is stated by `StateProbe.ProfileName` and `StateProbe.ProfileNameInjective` |
| StateProbe.State.JsonString | src/state.rs:34-41 | `json_string`; its meaning is stated by `StateProbe.JsonRoundTrip`, `StateProbe.JsonInjective` and `Scenarios.BoostJson` |
| StateProbe.State.DisplayString | src/state.rs:44-53 | `Display for State`; its meaning is stated by `StateProbe.DisplayRoundTrip` and `StateProbe.DisplayInjective` |
| StateProbe.BoolText | src/state.rs:37-39 | `bool`'s `Display`, `true` or `false`; its meaning is stated by `StateProbe.JsonRoundTrip`, `StateProbe.DisplayRoundTrip` and `Scenarios.BoostJson` |
| StateProbe.ProfileName | src/state.rs:25-32 | indices 0, 1 and 2 are named `normal`, `boost` and `silent` |
| StateProbe.ProfileNameInjective | src/state.rs:25-32 | two indices below 3 have the same name exactly when they are equal |
| StateProbe.FromSystemMeaning | src/state.rs:14-19 | the probe succeeds exactly when both files are read and both trimmed texts parse as `u8`. The fan profile is the first number, unchecked. Turbo is on exactly when the second number is non-zero. A fan-profile failure is reported whatever the turbo file holds |
| StateProbe.ReadBackWritten | src/state.rs:16 | a control file holding a decimal number and a newline reads as that number |
| StateProbe.FromSystemNoRangeCheck | src/state.rs:14-19 | every pair of `u8`s is accepted as a state, including fan profiles with no name |
| StateProbe.JsonRoundTrip | src/state.rs:34-41 | the JSON line reads back as the state it was made from |
| StateProbe.JsonInjective | src/state.rs:34-41 | distinct states give distinct JSON lines |
| StateProbe.DisplayRoundTrip | src/state.rs:44-53 | the human line reads back as the state it was made from |
| StateProbe.DisplayInjective | src/state.rs:44-53 | distinct states give distinct human lines |
| ProfileControl.PathOf | src/state.rs:5-6 | the paths of the turbo file and the fan-profile file |
| ProfileControl.PathsDistinct | src/state.rs:5-6 | the two path constants of the control files differ |
| ProfileControl.ProfileFor | src/control.rs:125-130 | the configuration of the profile with a given index; its meaning is stated by `ControlProperties.ResolveName` |
| ProfileControl.Resolve | src/control.rs:111-117 | the name-to-profile match of `set`; its meaning is stated by `ControlProperties.ResolveMeaning` and `ControlProperties.ResolveName` |
| ProfileControl.NextIndex | src/control.rs:123 | the profile after the current one is always one of the three profiles |
| ProfileControl.IsWaybar | src/control.rs:92-97 | the `find_map` closure: a process whose `stat` is readable and whose `comm` is `waybar`; its meaning is stated by `ControlProperties.FirstWaybarNone` and `ControlProperties.FirstWaybarAt` |
| ProfileControl.FirstWaybar | src/control.rs:90-98 | the `find_map` over the process table; its meaning is stated by `ControlProperties.FirstWaybarNone` and `ControlProperties.FirstWaybarAt` |
| ProfileControl.FindWaybar | src/control.rs:90-98 | the loop over the process table returns the pid of the first readable process whose `comm` is `waybar`, or nothing |
| ProfileControl.WriteStep | src/control.rs:77 | one `fs::write` followed by `?`; its meaning is stated by `ControlProperties.FanProfileWrites` and `ControlProperties.FanProfileWrittenFirst` |
| ProfileControl.TurboStep | src/control.rs:79-81 | the optional turbo write; its meaning is stated by `ControlProperties.TurboStepWithin` and `ControlProperties.TurboWrites` |
| ProfileControl.CurveStep | src/control.rs:82-87 | one optional curve application; its meaning is stated by `ControlProperties.CurveStepWithin` and `ControlProperties.CurveApplications` |
| ProfileControl.ConfigSteps | src/control.rs:78-88 | the configured steps of a profile; their meaning is stated by `ControlProperties.ConfigStepsStopAt`, `ControlProperties.ConfigStepsWithin` and `ControlProperties.ConfigPlanResult` |
| ProfileControl.NotifyStep | src/control.rs:89-106 | the status-bar notification; its meaning is stated by `ControlProperties.SignalSent` |
| ProfileControl.TurboText | src/control.rs:80 | `(turbo as u8).to_string()`; its meaning is stated by `ControlProperties.TurboWrites` |
| ProfileControl.Then | src/control.rs:77-90 | the `?` operator: a failed step ends the chain with its own result and effects; its meaning is stated by `ProfileControl.ThenPerformed` and `ControlProperties.ThenWithin` |
| ProfileControl.ThenPerformed | src/control.rs:77-90 | after a failed step the chain is that step's outcome; after a successful one, the effects and the kernel state are those of the first step followed by those of the rest, and the result is the rest's |
| ProfileControl.Transition | src/control.rs:71-109 | `set_profile` as a value; its meaning is stated by `ControlProperties.TransitionStopsAtFailure`, `ControlProperties.TransitionWithinPlan`, `ControlProperties.TransitionInOrder`, `ControlProperties.TransitionResult` and `ControlProperties.TransitionInstallsProfile` |
| ProfileControl.SetOutcome | src/control.rs:111-120 | `set` as a value; its meaning is stated by `ControlProperties.SetNamedProfile` and `ControlProperties.SetUnknownName` |
| ProfileControl.ToggleOutcome | src/control.rs:122-131 | `toggle_profile` as a value; its meaning is stated by `ControlProperties.ToggleIsSetNext` and `ControlProperties.ToggleCycle` |
| ProfileControl.Kernel.WriteFile | src/control.rs:77-80 | a control-file write sets that file to the text and records the write, or fails with `WriteFailed` and changes nothing |
| ProfileControl.Kernel.ApplyCurveTo | src/control.rs:82-87 | applying a curve installs it on that fan and records it, or fails with `CurveApplyFailed` and changes nothing |
| ProfileControl.Kernel.SendSignal | src/control.rs:101-104 | `kill` records exactly that signal to exactly that pid |
| ProfileControl.Control.SetProfile | src/control.rs:71-109 | `set_profile` returns the result of `Transition`, and it performs on the kernel exactly the effects of `Transition`, in order |
| ProfileControl.Control.ApplyProfileConfig | src/control.rs:78-88 | the configured turbo write, CPU curve and GPU curve happen in that order, each only if configured, stopping at the first failure |
| ProfileControl.Control.Notify | src/control.rs:89-106 | with notification configured, it fails when the process table cannot be listed. Otherwise it signals the first `waybar` with SIGRTMIN plus the offset, and does nothing when there is none |
| ProfileControl.Control.Set | src/control.rs:111-120 | `set` performs the transition to the named profile, or returns `UnknownProfile` with no effect |
| ProfileControl.Control.ToggleProfile | src/control.rs:122-132 | `toggle_profile` performs the transition to the profile after the one read at start-up |
| ControlProperties.ResolveName | src/control.rs:112-115 | the name of profile `i` resolves to index `i` and that profile's configuration |
| ControlProperties.ResolveMeaning | src/control.rs:111-117 | exactly the three names resolve. The index named is the one resolved to. Any other name is `UnknownProfile(name)` |
| ControlProperties.ToggleCycle | src/control.rs:122-130 | toggle cycles normal, boost, silent, normal |
| ControlProperties.FirstWaybarNone | src/control.rs:90-98 | no pid is found exactly when no process with a readable `stat` is called `waybar` |
| ControlProperties.FirstWaybarAt | src/control.rs:90-98 | the pid found is that of the first `waybar` in enumeration order, and unreadable entries are skipped |
| ControlProperties.TransitionWithinPlan | src/control.rs:71-109 | a transition performs a prefix of the full plan. It performs all of the plan on success, or when only the process table failed. It performs strictly less after any other failure, and nothing is undone |
| ControlProperties.ConfigStepsStopAt | src/control.rs:78-88 | the configured steps either all succeed, with the planned turbo write and curves, or end in the turbo write, the CPU curve or the GPU curve failing; a failing step does nothing, later steps do not run, and earlier ones keep their effects |
| ControlProperties.TransitionStopsAtFailure | src/control.rs:71-109 | for each error, a failed transition has performed exactly the steps before the failing one, in full, and nothing of the failing step or of any later one |
| ControlProperties.TransitionInOrder | src/control.rs:77-104 | the effects come in the order fan profile, turbo, CPU curve, GPU curve, signal, and each kind appears at most once |
| ControlProperties.InvalidBoardNoEffect | src/control.rs:72-75 | an unrecognised board gives `InvalidBoard` before any effect |
| ControlProperties.FanProfileWrittenFirst | src/control.rs:72-77 | after the board check, the fan-profile write comes first. If it fails, nothing else happens |
| ControlProperties.TransitionResult | src/control.rs:71-109 | which error ends a transition, as an if-and-only-if for each error and for success, given which steps are configured and which fail |
| ControlProperties.TurboWrites | src/control.rs:79-81 | the turbo file is written only when the profile sets turbo, and only with `"1"` for true or `"0"` for false |
| ControlProperties.FanProfileWrites | src/control.rs:77 | the fan-profile file is written only with the decimal form of the target index |
| ControlProperties.CurveApplications | src/control.rs:82-87 | a curve is applied to a fan only when the profile has a curve for that fan, and it is that curve |
| ControlProperties.SignalSent | src/control.rs:89-106 | a signal is sent exactly when the transition succeeds, notification is configured and a `waybar` is listed. The signal goes to the first `waybar`, with value SIGRTMIN plus the offset |
| ControlProperties.SetIdempotent | src/control.rs:111-120 | running `set` twice leaves the control files and the fan curves as running it once does |
| ControlProperties.TransitionLeavesUnconfigured | src/control.rs:78-88 | turbo and each curve that the profile does not configure keep their old value, whether the transition succeeds or fails |
| ControlProperties.ConfigPlanResult | src/control.rs:78-88 | the configured steps set turbo to `"1"` or `"0"` and install each configured curve. They touch nothing else |
| ControlProperties.TransitionInstallsProfile | src/control.rs:71-109 | after a successful transition, the fan-profile file holds the index. Turbo and each curve hold what the profile configures |
| ControlProperties.SetUnknownName | src/control.rs:116 | any name other than the three gives `UnknownProfile(name)`, with no effect |
| ControlProperties.SetNamedProfile | src/control.rs:111-120 | `set` with profile `i`'s name is the transition to `i` with that profile's configuration |
| ControlProperties.ToggleIsSetNext | src/control.rs:122-131 | from a named profile, `toggle` is `set` with the next profile's name |
| ControlProperties.SetWritesProfileIndex | src/control.rs:111-120 | `set` writes only `"0"`, `"1"` or `"2"` to the fan-profile file |
| ControlProperties.ToggleWritesProfileIndex | src/control.rs:122-131 | `toggle` writes only `"0"`, `"1"` or `"2"` to the fan-profile file |
| ControlProperties.SetThenProbe | src/control.rs:77-80 | after a successful `set` of a profile that sets turbo, the state probe reads back that profile's index and that turbo flag |
| Scenarios.SetNormalMinimal | src/control.rs:111-120 | with no profiles table, `set normal` only writes `"0"` to the fan-profile file |
| Scenarios.SetBoostFull | src/control.rs:77-87 | `set boost` with turbo and both curves writes `"1"` to the fan-profile file and `"1"` to the turbo file, then applies the CPU curve, then the GPU curve |
| Scenarios.ToggleFromSilent | src/control.rs:122-131 | `toggle` from silent is the transition to normal, which starts by writing `"0"` |
| Scenarios.SetSilentNotifies | src/control.rs:89-106 | `set silent` with offset 3 and a running `waybar` writes `"2"`, then `"0"`, then signals SIGRTMIN + 3 to the `waybar` |
| Scenarios.SetSilentNoStatusBar | src/control.rs:89-106 | the same run without a `waybar` does the same writes, sends no signal, and succeeds |
| Scenarios.SetUnknown | src/control.rs:116 | `set turbo_extreme` gives `UnknownProfile("turbo_extreme")` and writes nothing |
| Scenarios.ProbeBoost | src/state.rs:14-19 | a kernel reporting `1` and `1` is read as boost with turbo on |
| Scenarios.BoostJson | src/state.rs:34-41 | boost with turbo on is printed as `{"fan_profile": "boost", "turbo": true}` |

## Left out

- The command line in `src/main.rs` is not part of this model. That covers argument parsing, the choice of subcommand, printing and exit codes.
- `Control::new` (src/control.rs:65-69) is not modelled. It reads the configuration file and deserialises it from TOML. The model starts from the already-deserialised `Config`.
- File reads and writes are not modelled as file-system calls.
  - A read is the text it returns, or `None` when it fails.
  - A write either succeeds or fails as a whole; a failing write is listed in `Env.failingWrites`.
  - Partial writes and the kernel's own validation of the written text are not modelled.
- The board library (`Board::from_board_name`, `Curve::apply`) is a foreign crate.
  - Its answers are `Env.board` and `Env.failingFans`.
  - A curve is opaque, because the tool never looks inside one.
- The process table from `procfs` is the sequence `Env.processes`, or `None` when it cannot be listed.
  - An entry whose `stat` cannot be read is `Process(None)`.
  - Races with processes starting or exiting are not modelled.
- `__libc_current_sigrtmin` and `kill` are foreign calls. SIGRTMIN is the parameter `Env.sigrtmin`, and the result of `kill` is not looked at.
  - The signal number is not checked against SIGRTMAX, since the source does not check it.
  - 64-bit widths are not modelled.
- ProfileControl.Control.ToggleProfile: requires a current fan profile below 255.
  - At 255, the source's `u8` addition `fan_profile + 1` panics in a debug build and wraps to 0 in a release build.
  - Neither behaviour is modelled.
- ProfileControl.NextIndex: same precondition and reason as `ToggleProfile`.
- ProfileControl.ToggleOutcome: same precondition and reason as `ToggleProfile`.
- ControlProperties.ToggleWritesProfileIndex: same precondition and reason as `ToggleProfile`.
- ControlProperties.SetIdempotent: covers the control files and the fan curves, but not the signals. Each run of `set` sends one more signal to the status bar.
- StateProbe.JsonRoundTrip: requires a fan profile below 3, like every rendering. Above 2, the source reaches `unreachable!()` and panics instead of printing.
- The rendering of a failure as an error message (`Display for ControlError`, src/control.rs:27-34) is not modelled. Only which failure occurred is modelled.

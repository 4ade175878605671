/**
  The profile controller: resolving a profile name (or "the next one") to a
  fan-profile index and its optional configuration, and the transition that
  writes the index, the turbo flag and the two fan curves and notifies the
  status bar, in a fixed order, stopping at the first failure.

  What the machine answers during a transition (whether the board is
  recognised, which writes and curve applications fail, the process table,
  the runtime value of SIGRTMIN) is an `Env` given to the model; what the
  transition changes is a `Kernel` object.
*/
module ProfileControl {
  import opened Wrappers
  import opened Decimal
  import opened StateProbe

  // ----- Configuration -----

  /** A fan curve as the board library reads it from the configuration; the tool never looks inside one. */
  datatype Curve = Curve(points: seq<(int, int)>)

  /** A board the board library recognised. */
  datatype Board = Board(boardName: string)

  datatype Fan = Cpu | Gpu

  /** What switching to one profile does besides writing its index; an absent field leaves that setting alone. */
  datatype ProfileConfig = ProfileConfig(turbo: Option<bool>, cpuCurve: Option<Curve>, gpuCurve: Option<Curve>)

  datatype Profiles = Profiles(normal: Option<ProfileConfig>, boost: Option<ProfileConfig>, silent: Option<ProfileConfig>)

  /** The configuration file, already deserialised; without a `profiles` table, `profiles` is `NoProfiles`. */
  datatype Config = Config(waybarNotify: Option<U8>, profiles: Profiles)

  /** `Profiles::default()`. */
  const NoProfiles: Profiles := Profiles(None, None, None)

  const NumProfiles: U8 := 3

  // ----- The machine -----

  datatype SysFile = FanProfileFile | TurboFile

  /** The kernel control file behind each `SysFile`. */
  function PathOf(file: SysFile): string {
    match file
    case FanProfileFile => "/sys/devices/platform/asus-nb-wmi/throttle_thermal_policy"
    case TurboFile => "/sys/devices/system/cpu/cpufreq/boost"
  }

  /** The two control files are different files, so writing one never changes the other. */
  lemma PathsDistinct(a: SysFile, b: SysFile)
    ensures PathOf(a) == PathOf(b) <==> a == b
  {
    if a != b {
      assert |PathOf(a)| != |PathOf(b)|;
    }
  }

  /** A process-table entry: the `stat` of the process, `None` when reading it fails. */
  datatype ProcStat = ProcStat(pid: int, comm: string)
  datatype Process = Process(stat: Option<ProcStat>)

  /**
    The machine's answers during one transition: the board identification,
    the control files whose write fails, the fans whose curve the board
    library refuses, the process table (`None` when it cannot be listed)
    and the runtime SIGRTMIN.
  */
  datatype Env = Env(
    board: Option<Board>,
    failingWrites: set<SysFile>,
    failingFans: set<Fan>,
    processes: Option<seq<Process>>,
    sigrtmin: int)

  datatype ControlError =
    | InvalidBoard
    | UnknownProfile(name: string)
    | WriteFailed(file: SysFile)
    | CurveApplyFailed(fan: Fan)
    | ProcessTableFailed

  /** A change an outside observer can see, in the order it happens. */
  datatype Effect =
    | Write(file: SysFile, text: string)
    | ApplyCurve(fan: Fan, curve: Curve)
    | Kill(pid: int, signal: int)

  /** The effects a step or a whole transition performed, and how it ended. */
  datatype Outcome = Outcome(effects: seq<Effect>, result: Result<(), ControlError>)

  /** What the tool can change: the two control files, the curve last applied to each fan, the signals sent. */
  datatype KernelState = KernelState(
    fanProfile: string,
    turbo: string,
    cpuCurve: Option<Curve>,
    gpuCurve: Option<Curve>,
    signalsSent: seq<(int, int)>)

  function Perform(h: KernelState, e: Effect): KernelState {
    match e
    case Write(FanProfileFile, text) => h.(fanProfile := text)
    case Write(TurboFile, text) => h.(turbo := text)
    case ApplyCurve(Cpu, c) => h.(cpuCurve := Some(c))
    case ApplyCurve(Gpu, c) => h.(gpuCurve := Some(c))
    case Kill(pid, signal) => h.(signalsSent := h.signalsSent + [(pid, signal)])
  }

  function PerformAll(h: KernelState, es: seq<Effect>): KernelState
    decreases |es|
  {
    if es == [] then h else PerformAll(Perform(h, es[0]), es[1..])
  }

  lemma {:induction false} PerformAllAppend(h: KernelState, a: seq<Effect>, b: seq<Effect>)
    ensures PerformAll(h, a + b) == PerformAll(PerformAll(h, a), b)
    decreases |a|
  {
    if a == [] {
      assert a + b == b;
    } else {
      assert (a + b)[0] == a[0];
      assert (a + b)[1..] == a[1..] + b;
      PerformAllAppend(Perform(h, a[0]), a[1..], b);
    }
  }

  // ----- Resolving the target profile -----

  /** `true as u8` / `false as u8`, written in decimal: always `"1"` or `"0"`. */
  function TurboText(turbo: bool): string {
    DecimalString(if turbo then 1 else 0)
  }

  /** The configuration of the profile with index `index`. */
  function ProfileFor(profiles: Profiles, index: U8): Option<ProfileConfig>
    requires index < NumProfiles
  {
    match index
    case 0 => profiles.normal
    case 1 => profiles.boost
    case 2 => profiles.silent
  }

  /** The target of `set`: the index and configuration of a profile name, or `UnknownProfile`. */
  function Resolve(profiles: Profiles, name: string): Result<(U8, Option<ProfileConfig>), ControlError>
  {
    match name
    case "normal" => Ok((0, profiles.normal))
    case "boost" => Ok((1, profiles.boost))
    case "silent" => Ok((2, profiles.silent))
    case _ => Err(UnknownProfile(name))
  }

  /**
    The target of `toggle`: `(fan_profile + 1) % 3` in `u8` arithmetic. It
    is always one of the three profiles, so the `unreachable!` arm of the
    source is never taken.
  */
  function NextIndex(fanProfile: U8): (next: U8)
    requires fanProfile < 255
    ensures next < NumProfiles
  {
    (fanProfile + 1) % NumProfiles
  }

  // ----- Finding the status bar -----

  predicate IsWaybar(p: Process) {
    p.stat.Some? && p.stat.value.comm == "waybar"
  }

  /** The `find_map` over the process table: the pid of the first process whose `comm` is exactly `waybar`. */
  function FirstWaybar(ps: seq<Process>): Option<int>
    decreases |ps|
  {
    if ps == [] then None
    else if IsWaybar(ps[0]) then Some(ps[0].stat.value.pid)
    else FirstWaybar(ps[1..])
  }

  /** The search, as the iterator loop performs it. */
  method FindWaybar(ps: seq<Process>) returns (pid: Option<int>)
    ensures pid == FirstWaybar(ps)
  {
    var i := 0;
    while i < |ps|
      invariant 0 <= i <= |ps|
      invariant FirstWaybar(ps[i..]) == FirstWaybar(ps)
    {
      match ps[i].stat {
        case Some(stat) =>
          if stat.comm == "waybar" {
            return Some(stat.pid);
          }
        case None =>
      }
      assert ps[i..][1..] == ps[i + 1..];
      i := i + 1;
    }
    return None;
  }

  // ----- The transition, as a specification -----

  const Done: Outcome := Outcome([], Ok(()))

  function Fail(e: ControlError): Outcome {
    Outcome([], Err(e))
  }

  /** `first`, then `rest` unless `first` failed: the `?` operator. */
  function Then(first: Outcome, rest: Outcome): Outcome {
    if first.result.Err? then first else Outcome(first.effects + rest.effects, rest.result)
  }

  /** `fs::write`: the new text, or `WriteFailed` and no change. */
  function WriteStep(env: Env, file: SysFile, text: string): Outcome {
    if file in env.failingWrites then Fail(WriteFailed(file)) else Outcome([Write(file, text)], Ok(()))
  }

  /** `Curve::apply`, when the profile has a curve for that fan. */
  function CurveStep(env: Env, fan: Fan, curve: Option<Curve>): Outcome {
    match curve
    case None => Done
    case Some(c) => if fan in env.failingFans then Fail(CurveApplyFailed(fan)) else Outcome([ApplyCurve(fan, c)], Ok(()))
  }

  /** The turbo write, when the profile sets turbo. */
  function TurboStep(env: Env, turbo: Option<bool>): Outcome {
    match turbo
    case None => Done
    case Some(t) => WriteStep(env, TurboFile, TurboText(t))
  }

  /** Turbo, then the CPU curve, then the GPU curve, each only if the profile has it. */
  function ConfigSteps(env: Env, pc: Option<ProfileConfig>): Outcome {
    match pc
    case None => Done
    case Some(c) => Then(TurboStep(env, c.turbo), Then(CurveStep(env, Cpu, c.cpuCurve), CurveStep(env, Gpu, c.gpuCurve)))
  }

  /** The status-bar signal: SIGRTMIN + offset to the first `waybar`, if notification is configured and one runs. */
  function NotifyStep(env: Env, waybarNotify: Option<U8>): Outcome {
    match waybarNotify
    case None => Done
    case Some(offset) =>
      match env.processes
      case None => Fail(ProcessTableFailed)
      case Some(ps) =>
        match FirstWaybar(ps)
        case None => Done
        case Some(pid) => Outcome([Kill(pid, env.sigrtmin + offset)], Ok(()))
  }

  /** `set_profile`: board check, fan-profile write, the configured steps, the notification. */
  function Transition(waybarNotify: Option<U8>, index: U8, pc: Option<ProfileConfig>, env: Env): Outcome {
    if env.board.None? then Fail(InvalidBoard)
    else Then(WriteStep(env, FanProfileFile, DecimalString(index)),
              Then(ConfigSteps(env, pc), NotifyStep(env, waybarNotify)))
  }

  /** `set`: an unknown name fails before anything happens. */
  function SetOutcome(config: Config, name: string, env: Env): Outcome {
    match Resolve(config.profiles, name)
    case Err(e) => Fail(e)
    case Ok((index, pc)) => Transition(config.waybarNotify, index, pc, env)
  }

  /** `toggle_profile`, from the fan profile read when the command started. */
  function ToggleOutcome(config: Config, state: State, env: Env): Outcome
    requires state.fanProfile < 255
  {
    var next := NextIndex(state.fanProfile);
    Transition(config.waybarNotify, next, ProfileFor(config.profiles, next), env)
  }

  // ----- The machine's state, changed in place -----

  class Kernel {
    var fanProfile: string
    var turbo: string
    var cpuCurve: Option<Curve>
    var gpuCurve: Option<Curve>
    var signalsSent: seq<(int, int)>
    /** Every effect so far, in order. */
    var trace: seq<Effect>

    function View(): KernelState
      reads this
    {
      KernelState(fanProfile, turbo, cpuCurve, gpuCurve, signalsSent)
    }

    constructor (init: KernelState)
      ensures View() == init && trace == []
    {
      fanProfile := init.fanProfile;
      turbo := init.turbo;
      cpuCurve := init.cpuCurve;
      gpuCurve := init.gpuCurve;
      signalsSent := init.signalsSent;
      trace := [];
    }

    /** `fs::write(path, text)`. */
    method WriteFile(env: Env, file: SysFile, text: string) returns (r: Result<(), ControlError>)
      modifies this
      ensures r == WriteStep(env, file, text).result
      ensures trace == old(trace) + WriteStep(env, file, text).effects
      ensures View() == PerformAll(old(View()), WriteStep(env, file, text).effects)
    {
      if file in env.failingWrites {
        return Err(WriteFailed(file));
      }
      match file {
        case FanProfileFile => fanProfile := text;
        case TurboFile => turbo := text;
      }
      trace := trace + [Write(file, text)];
      r := Ok(());
    }

    /** `curve.apply(board, fan)`. */
    method ApplyCurveTo(env: Env, fan: Fan, curve: Curve) returns (r: Result<(), ControlError>)
      modifies this
      ensures r == CurveStep(env, fan, Some(curve)).result
      ensures trace == old(trace) + CurveStep(env, fan, Some(curve)).effects
      ensures View() == PerformAll(old(View()), CurveStep(env, fan, Some(curve)).effects)
    {
      if fan in env.failingFans {
        return Err(CurveApplyFailed(fan));
      }
      match fan {
        case Cpu => cpuCurve := Some(curve);
        case Gpu => gpuCurve := Some(curve);
      }
      trace := trace + [ApplyCurve(fan, curve)];
      r := Ok(());
    }

    /** `kill(pid, signal)`; its result is not looked at. */
    method SendSignal(pid: int, signal: int)
      modifies this
      ensures trace == old(trace) + [Kill(pid, signal)]
      ensures View() == Perform(old(View()), Kill(pid, signal))
    {
      signalsSent := signalsSent + [(pid, signal)];
      trace := trace + [Kill(pid, signal)];
    }
  }

  /** What a call did to `k`: exactly the effects of `o`, in order, on top of the state before. */
  twostate predicate Performed(k: Kernel, o: Outcome)
    reads k
  {
    k.trace == old(k.trace) + o.effects && k.View() == PerformAll(old(k.View()), o.effects)
  }

  /** Performing `Then(a, b)` is performing `a`, then `b` unless `a` failed. */
  lemma ThenPerformed(h: KernelState, trace: seq<Effect>, a: Outcome, b: Outcome)
    ensures a.result.Err? ==> Then(a, b) == a
    ensures a.result.Ok? ==>
      trace + Then(a, b).effects == (trace + a.effects) + b.effects &&
      PerformAll(h, Then(a, b).effects) == PerformAll(PerformAll(h, a.effects), b.effects) &&
      Then(a, b).result == b.result
  {
    if a.result.Ok? {
      PerformAllAppend(h, a.effects, b.effects);
    }
  }

  // ----- The controller -----

  /** `Control`: the configuration and the state read when the command started. */
  datatype Control = Control(config: Config, state: State) {

    /** `set_profile`: the transition to `index` with configuration `pc`; a failure stops it with nothing undone. */
    method SetProfile(k: Kernel, env: Env, index: U8, pc: Option<ProfileConfig>) returns (r: Result<(), ControlError>)
      modifies k
      ensures r == Transition(config.waybarNotify, index, pc, env).result
      ensures Performed(k, Transition(config.waybarNotify, index, pc, env))
    {
      if env.board.None? {
        return Err(InvalidBoard);
      }
      var text := DecimalString(index);
      ghost var fan := WriteStep(env, FanProfileFile, text);
      ghost var configured := ConfigSteps(env, pc);
      ghost var notify := NotifyStep(env, config.waybarNotify);
      ghost var h0, t0 := k.View(), k.trace;
      r := k.WriteFile(env, FanProfileFile, text);
      if r.Err? {
        return;
      }
      ghost var h1, t1 := k.View(), k.trace;
      r := ApplyProfileConfig(k, env, pc);
      if r.Err? {
        ThenPerformed(h1, t1, configured, notify);
        ThenPerformed(h0, t0, fan, Then(configured, notify));
        return;
      }
      r := Notify(k, env);
      ThenPerformed(h1, t1, configured, notify);
      ThenPerformed(h0, t0, fan, Then(configured, notify));
    }

    /** The part of `set_profile` driven by the profile's configuration: turbo, CPU curve, GPU curve. */
    method ApplyProfileConfig(k: Kernel, env: Env, pc: Option<ProfileConfig>) returns (r: Result<(), ControlError>)
      modifies k
      ensures r == ConfigSteps(env, pc).result
      ensures Performed(k, ConfigSteps(env, pc))
    {
      if pc.None? {
        return Ok(());
      }
      var c := pc.value;
      ghost var turbo := TurboStep(env, c.turbo);
      ghost var cpu := CurveStep(env, Cpu, c.cpuCurve);
      ghost var gpu := CurveStep(env, Gpu, c.gpuCurve);
      ghost var h0, t0 := k.View(), k.trace;
      r := Ok(());
      if c.turbo.Some? {
        r := k.WriteFile(env, TurboFile, TurboText(c.turbo.value));
      }
      if r.Err? {
        ThenPerformed(h0, t0, turbo, Then(cpu, gpu));
        return;
      }
      ghost var h1, t1 := k.View(), k.trace;
      if c.cpuCurve.Some? {
        r := k.ApplyCurveTo(env, Cpu, c.cpuCurve.value);
      }
      assert r == cpu.result && k.trace == t1 + cpu.effects && k.View() == PerformAll(h1, cpu.effects);
      if r.Err? {
        ThenPerformed(h1, t1, cpu, gpu);
        ThenPerformed(h0, t0, turbo, Then(cpu, gpu));
        return;
      }
      ghost var h2, t2 := k.View(), k.trace;
      if c.gpuCurve.Some? {
        r := k.ApplyCurveTo(env, Gpu, c.gpuCurve.value);
      }
      assert r == gpu.result && k.trace == t2 + gpu.effects && k.View() == PerformAll(h2, gpu.effects);
      ThenPerformed(h1, t1, cpu, gpu);
      ThenPerformed(h0, t0, turbo, Then(cpu, gpu));
    }

    /** The last part of `set_profile`: signal the first `waybar`, when notification is configured. */
    method Notify(k: Kernel, env: Env) returns (r: Result<(), ControlError>)
      modifies k
      ensures r == NotifyStep(env, config.waybarNotify).result
      ensures Performed(k, NotifyStep(env, config.waybarNotify))
    {
      if config.waybarNotify.Some? {
        if env.processes.None? {
          return Err(ProcessTableFailed);
        }
        var pid := FindWaybar(env.processes.value);
        if pid.Some? {
          k.SendSignal(pid.value, env.sigrtmin + config.waybarNotify.value);
        }
      }
      r := Ok(());
    }

    /** `set`: the transition to the named profile, or `UnknownProfile` with no effect at all. */
    method Set(k: Kernel, env: Env, name: string) returns (r: Result<(), ControlError>)
      modifies k
      ensures r == SetOutcome(config, name, env).result
      ensures Performed(k, SetOutcome(config, name, env))
    {
      var target: (U8, Option<ProfileConfig>);
      match name {
        case "normal" => target := (0, config.profiles.normal);
        case "boost" => target := (1, config.profiles.boost);
        case "silent" => target := (2, config.profiles.silent);
        case _ => return Err(UnknownProfile(name));
      }
      r := SetProfile(k, env, target.0, target.1);
    }

    /** `toggle_profile`: the transition to the profile after the current one. */
    method ToggleProfile(k: Kernel, env: Env) returns (r: Result<(), ControlError>)
      requires state.fanProfile < 255
      modifies k
      ensures r == ToggleOutcome(config, state, env).result
      ensures Performed(k, ToggleOutcome(config, state, env))
    {
      var next := (state.fanProfile + 1) % NumProfiles;
      var target: (U8, Option<ProfileConfig>);
      match next {
        case 0 => target := (0, config.profiles.normal);
        case 1 => target := (1, config.profiles.boost);
        case 2 => target := (2, config.profiles.silent);
      }
      r := SetProfile(k, env, target.0, target.1);
    }
  }
}

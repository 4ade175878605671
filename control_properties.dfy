/**
  What the profile controller promises: the name-to-index bijection, the
  toggle cycle, the fixed order of a transition's effects, conditional
  skipping, abort on the first failure with nothing undone, the status-bar
  signal, and what a transition leaves in the kernel's control files.
*/
module ControlProperties {
  import opened Wrappers
  import opened Decimal
  import opened StateProbe
  import opened ProfileControl

  // ----- Profile resolution -----

  /** `set` with the name of profile `i` targets index `i` and that profile's configuration. */
  lemma ResolveName(profiles: Profiles, i: U8)
    requires i < NumProfiles
    ensures Resolve(profiles, ProfileName(i)) == Ok((i, ProfileFor(profiles, i)))
  {
  }

  /**
    `set` accepts exactly the three profile names; the index it targets
    names the profile it was given, and any other name is `UnknownProfile`.
  */
  lemma ResolveMeaning(profiles: Profiles, name: string)
    ensures Resolve(profiles, name).Ok? <==> name == "normal" || name == "boost" || name == "silent"
    ensures Resolve(profiles, name).Ok? ==>
      var (i, pc) := Resolve(profiles, name).value;
      i < NumProfiles && ProfileName(i) == name && pc == ProfileFor(profiles, i)
    ensures Resolve(profiles, name).Err? ==> Resolve(profiles, name).error == UnknownProfile(name)
  {
  }

  /** Under `toggle` the profiles cycle normal, boost, silent, normal. */
  lemma ToggleCycle()
    ensures ProfileName(NextIndex(0)) == "boost"
    ensures ProfileName(NextIndex(1)) == "silent"
    ensures ProfileName(NextIndex(2)) == "normal"
  {
  }

  // ----- The status bar -----

  /** No pid is found exactly when no process with a readable `stat` is called `waybar`. */
  lemma {:induction false} FirstWaybarNone(ps: seq<Process>)
    ensures FirstWaybar(ps).None? <==> forall i :: 0 <= i < |ps| ==> !IsWaybar(ps[i])
    decreases |ps|
  {
    if ps != [] {
      FirstWaybarNone(ps[1..]);
      if !IsWaybar(ps[0]) {
        assert forall i :: 1 <= i < |ps| ==> ps[i] == ps[1..][i - 1];
      }
    }
  }

  /** The pid found is that of the first `waybar` in enumeration order; entries whose `stat` failed are passed over. */
  lemma {:induction false} FirstWaybarAt(ps: seq<Process>, i: nat)
    requires i < |ps| && IsWaybar(ps[i])
    requires forall j :: 0 <= j < i ==> !IsWaybar(ps[j])
    ensures FirstWaybar(ps) == Some(ps[i].stat.value.pid)
    decreases i
  {
    if i > 0 {
      assert !IsWaybar(ps[0]);
      assert forall j :: 0 <= j < i - 1 ==> ps[1..][j] == ps[j + 1];
      FirstWaybarAt(ps[1..], i - 1);
    }
  }

  // ----- The planned effects and the order they come in -----

  /** The effects of the configured steps when all of them succeed. */
  function ConfigPlan(pc: Option<ProfileConfig>): seq<Effect> {
    match pc
    case None => []
    case Some(c) =>
      (if c.turbo.Some? then [Write(TurboFile, TurboText(c.turbo.value))] else [])
      + (if c.cpuCurve.Some? then [ApplyCurve(Cpu, c.cpuCurve.value)] else [])
      + (if c.gpuCurve.Some? then [ApplyCurve(Gpu, c.gpuCurve.value)] else [])
  }

  /** The signal a transition ends with, if notification is configured and a `waybar` is found. */
  function NotifyPlan(waybarNotify: Option<U8>, env: Env): seq<Effect> {
    if waybarNotify.Some? && env.processes.Some? && FirstWaybar(env.processes.value).Some?
    then [Kill(FirstWaybar(env.processes.value).value, env.sigrtmin + waybarNotify.value)]
    else []
  }

  /** Everything a transition does when nothing fails: fan profile, turbo, CPU curve, GPU curve, signal. */
  function Planned(waybarNotify: Option<U8>, index: U8, pc: Option<ProfileConfig>, env: Env): seq<Effect> {
    [Write(FanProfileFile, DecimalString(index))] + ConfigPlan(pc) + NotifyPlan(waybarNotify, env)
  }

  /**
    `o` performed a prefix of `plan`: all of it when it succeeded or when
    only the process table could not be listed, and strictly less when
    any other step failed.
  */
  predicate Within(o: Outcome, plan: seq<Effect>) {
    && o.effects <= plan
    && (o.result.Ok? || o.result == Err(ProcessTableFailed) ==> o.effects == plan)
    && (o.result.Err? && o.result != Err(ProcessTableFailed) ==> |o.effects| < |plan|)
  }

  lemma ThenWithin(a: Outcome, planA: seq<Effect>, b: Outcome, planB: seq<Effect>)
    requires Within(a, planA) && Within(b, planB)
    requires a.result != Err(ProcessTableFailed)
    ensures Within(Then(a, b), planA + planB)
  {
    var t := Then(a, b);
    if a.result.Ok? {
      assert t.effects == planA + b.effects;
      assert t.effects <= planA + planB by {
        assert b.effects == planB[..|b.effects|];
        assert t.effects == (planA + planB)[..|t.effects|];
      }
    } else {
      assert t.effects == (planA + planB)[..|t.effects|] by {
        assert t.effects == planA[..|t.effects|];
      }
    }
  }

  lemma TurboStepWithin(env: Env, turbo: Option<bool>)
    ensures Within(TurboStep(env, turbo), if turbo.Some? then [Write(TurboFile, TurboText(turbo.value))] else [])
    ensures TurboStep(env, turbo).result != Err(ProcessTableFailed)
  {
  }

  lemma CurveStepWithin(env: Env, fan: Fan, curve: Option<Curve>)
    ensures Within(CurveStep(env, fan, curve), if curve.Some? then [ApplyCurve(fan, curve.value)] else [])
    ensures CurveStep(env, fan, curve).result != Err(ProcessTableFailed)
  {
  }

  lemma ConfigStepsWithin(env: Env, pc: Option<ProfileConfig>)
    ensures Within(ConfigSteps(env, pc), ConfigPlan(pc))
    ensures ConfigSteps(env, pc).result != Err(ProcessTableFailed)
  {
    if pc.Some? {
      var c := pc.value;
      var turbo := TurboStep(env, c.turbo);
      var cpu := CurveStep(env, Cpu, c.cpuCurve);
      var gpu := CurveStep(env, Gpu, c.gpuCurve);
      var turboPlan := if c.turbo.Some? then [Write(TurboFile, TurboText(c.turbo.value))] else [];
      var cpuPlan := if c.cpuCurve.Some? then [ApplyCurve(Cpu, c.cpuCurve.value)] else [];
      var gpuPlan := if c.gpuCurve.Some? then [ApplyCurve(Gpu, c.gpuCurve.value)] else [];
      TurboStepWithin(env, c.turbo);
      CurveStepWithin(env, Cpu, c.cpuCurve);
      CurveStepWithin(env, Gpu, c.gpuCurve);
      ThenWithin(cpu, cpuPlan, gpu, gpuPlan);
      ThenWithin(turbo, turboPlan, Then(cpu, gpu), cpuPlan + gpuPlan);
      assert turboPlan + (cpuPlan + gpuPlan) == ConfigPlan(pc);
    }
  }

  /**
    Abort on failure, without rollback: a transition performs a prefix of
    its plan, the whole plan when it succeeds, and stops short of it when a
    board, write or curve step fails. A failure to list the processes comes
    after everything else and only skips the signal.
  */
  lemma TransitionWithinPlan(waybarNotify: Option<U8>, index: U8, pc: Option<ProfileConfig>, env: Env)
    ensures var o := Transition(waybarNotify, index, pc, env);
      && o.effects <= Planned(waybarNotify, index, pc, env)
      && (o.result.Ok? ==> o.effects == Planned(waybarNotify, index, pc, env))
      && (o.result == Err(ProcessTableFailed) ==> o.effects == Planned(waybarNotify, index, pc, env))
      && (o.result.Err? && o.result != Err(ProcessTableFailed) ==>
            |o.effects| < |Planned(waybarNotify, index, pc, env)|)
  {
    var plan := Planned(waybarNotify, index, pc, env);
    if env.board.Some? {
      var fan := WriteStep(env, FanProfileFile, DecimalString(index));
      var fanPlan := [Write(FanProfileFile, DecimalString(index))];
      var notify := NotifyStep(env, waybarNotify);
      assert Within(fan, fanPlan);
      assert Within(notify, NotifyPlan(waybarNotify, env));
      ConfigStepsWithin(env, pc);
      ThenWithin(ConfigSteps(env, pc), ConfigPlan(pc), notify, NotifyPlan(waybarNotify, env));
      ThenWithin(fan, fanPlan, Then(ConfigSteps(env, pc), notify), ConfigPlan(pc) + NotifyPlan(waybarNotify, env));
      assert fanPlan + (ConfigPlan(pc) + NotifyPlan(waybarNotify, env)) == plan;
    }
  }

  /** The turbo write a profile plans, if it sets turbo. */
  function TurboPlan(pc: Option<ProfileConfig>): seq<Effect> {
    if pc.Some? && pc.value.turbo.Some? then [Write(TurboFile, TurboText(pc.value.turbo.value))] else []
  }

  /** The curve application a profile plans for one fan, if it has a curve for it. */
  function CurvePlan(pc: Option<ProfileConfig>, fan: Fan): seq<Effect> {
    var curve := if pc.None? then None else if fan == Cpu then pc.value.cpuCurve else pc.value.gpuCurve;
    if curve.Some? then [ApplyCurve(fan, curve.value)] else []
  }

  /**
    Where the configured steps stop: the step that fails does nothing, the
    ones after it do not run, and the ones before it keep their effects.
  */
  lemma ConfigStepsStopAt(env: Env, pc: Option<ProfileConfig>)
    ensures var o := ConfigSteps(env, pc);
      && (o.result.Ok? ==> o.effects == TurboPlan(pc) + CurvePlan(pc, Cpu) + CurvePlan(pc, Gpu))
      && (o.result == Err(WriteFailed(TurboFile)) ==> o.effects == [])
      && (o.result == Err(CurveApplyFailed(Cpu)) ==> o.effects == TurboPlan(pc))
      && (o.result == Err(CurveApplyFailed(Gpu)) ==> o.effects == TurboPlan(pc) + CurvePlan(pc, Cpu))
      && (o.result.Ok? || o.result == Err(WriteFailed(TurboFile))
          || o.result == Err(CurveApplyFailed(Cpu)) || o.result == Err(CurveApplyFailed(Gpu)))
  {
    if pc.Some? {
      var c := pc.value;
      var turbo := TurboStep(env, c.turbo);
      var cpu := CurveStep(env, Cpu, c.cpuCurve);
      var gpu := CurveStep(env, Gpu, c.gpuCurve);
      assert turbo.result.Ok? ==> turbo.effects == TurboPlan(pc);
      assert turbo.result.Err? ==> turbo == Fail(WriteFailed(TurboFile));
      assert cpu.result.Ok? ==> cpu.effects == CurvePlan(pc, Cpu);
      assert cpu.result.Err? ==> cpu == Fail(CurveApplyFailed(Cpu));
      assert gpu.result.Ok? ==> gpu.effects == CurvePlan(pc, Gpu);
      assert gpu.result.Err? ==> gpu == Fail(CurveApplyFailed(Gpu));
    }
  }

  /**
    Where a failed transition stops: for each error, exactly the effects of
    the steps before the failing one, in full, and nothing of the failing
    step or of any later one.
  */
  lemma TransitionStopsAtFailure(waybarNotify: Option<U8>, index: U8, pc: Option<ProfileConfig>, env: Env)
    ensures var o := Transition(waybarNotify, index, pc, env);
      var fan := [Write(FanProfileFile, DecimalString(index))];
      && (o.result == Err(InvalidBoard) ==> o.effects == [])
      && (o.result == Err(WriteFailed(FanProfileFile)) ==> o.effects == [])
      && (o.result == Err(WriteFailed(TurboFile)) ==> o.effects == fan)
      && (o.result == Err(CurveApplyFailed(Cpu)) ==> o.effects == fan + TurboPlan(pc))
      && (o.result == Err(CurveApplyFailed(Gpu)) ==> o.effects == fan + TurboPlan(pc) + CurvePlan(pc, Cpu))
      && (o.result == Err(ProcessTableFailed) ==> o.effects == fan + TurboPlan(pc) + CurvePlan(pc, Cpu) + CurvePlan(pc, Gpu))
  {
    if env.board.Some? && FanProfileFile !in env.failingWrites {
      var fan := [Write(FanProfileFile, DecimalString(index))];
      var config := ConfigSteps(env, pc);
      var notify := NotifyStep(env, waybarNotify);
      ConfigStepsStopAt(env, pc);
      assert notify.result.Err? ==> notify == Fail(ProcessTableFailed);
      StopsAfterFront(fan, config, notify, TurboPlan(pc), CurvePlan(pc, Cpu), CurvePlan(pc, Gpu));
    }
  }

  /** The chain of `?` after a successful fan-profile write, over any outcomes of the later steps. */
  lemma StopsAfterFront(fan: seq<Effect>, config: Outcome, notify: Outcome, turbo: seq<Effect>, cpu: seq<Effect>, gpu: seq<Effect>)
    requires config.result.Ok? ==> config.effects == turbo + cpu + gpu
    requires config.result == Err(WriteFailed(TurboFile)) ==> config.effects == []
    requires config.result == Err(CurveApplyFailed(Cpu)) ==> config.effects == turbo
    requires config.result == Err(CurveApplyFailed(Gpu)) ==> config.effects == turbo + cpu
    requires config.result.Ok? || config.result == Err(WriteFailed(TurboFile))
      || config.result == Err(CurveApplyFailed(Cpu)) || config.result == Err(CurveApplyFailed(Gpu))
    requires notify.result.Err? ==> notify == Fail(ProcessTableFailed)
    ensures var o := Then(Outcome(fan, Ok(())), Then(config, notify));
      && (o.result == Err(WriteFailed(TurboFile)) ==> o.effects == fan)
      && (o.result == Err(CurveApplyFailed(Cpu)) ==> o.effects == fan + turbo)
      && (o.result == Err(CurveApplyFailed(Gpu)) ==> o.effects == fan + turbo + cpu)
      && (o.result == Err(ProcessTableFailed) ==> o.effects == fan + turbo + cpu + gpu)
      && o.result != Err(InvalidBoard) && o.result != Err(WriteFailed(FanProfileFile))
  {
    if config.result.Ok? && notify.result.Err? {
      assert Then(config, notify).effects == turbo + cpu + gpu;
    }
  }

  /** Every effect of a transition is one it planned. */
  lemma TransitionEffectsPlanned(waybarNotify: Option<U8>, index: U8, pc: Option<ProfileConfig>, env: Env, e: Effect)
    requires e in Transition(waybarNotify, index, pc, env).effects
    ensures e in Planned(waybarNotify, index, pc, env)
    ensures e == Write(FanProfileFile, DecimalString(index)) || e in ConfigPlan(pc) || e in NotifyPlan(waybarNotify, env)
  {
    TransitionWithinPlan(waybarNotify, index, pc, env);
    var o := Transition(waybarNotify, index, pc, env);
    var k :| 0 <= k < |o.effects| && o.effects[k] == e;
    assert Planned(waybarNotify, index, pc, env)[k] == e;
  }

  /** What the configured steps can do: write the configured turbo flag, apply a configured curve to its fan. */
  lemma ConfigPlanMember(pc: Option<ProfileConfig>, e: Effect)
    ensures e in ConfigPlan(pc) ==> pc.Some? && !e.Kill?
    ensures e in ConfigPlan(pc) && e.Write? ==>
      pc.value.turbo.Some? && e == Write(TurboFile, TurboText(pc.value.turbo.value))
    ensures e in ConfigPlan(pc) && e.ApplyCurve? && e.fan == Cpu ==> pc.value.cpuCurve == Some(e.curve)
    ensures e in ConfigPlan(pc) && e.ApplyCurve? && e.fan == Gpu ==> pc.value.gpuCurve == Some(e.curve)
  {
  }

  /** The position of each kind of effect in the fixed order of a transition. */
  function Rank(e: Effect): nat {
    match e
    case Write(FanProfileFile, _) => 0
    case Write(TurboFile, _) => 1
    case ApplyCurve(Cpu, _) => 2
    case ApplyCurve(Gpu, _) => 3
    case Kill(_, _) => 4
  }

  predicate InOrder(es: seq<Effect>) {
    forall i, j :: 0 <= i < j < |es| ==> Rank(es[i]) < Rank(es[j])
  }

  predicate Below(es: seq<Effect>, r: nat) {
    forall i :: 0 <= i < |es| ==> Rank(es[i]) < r
  }

  predicate AtLeast(es: seq<Effect>, r: nat) {
    forall i :: 0 <= i < |es| ==> r <= Rank(es[i])
  }

  /** Two ordered runs, the first all below `r` and the second all from `r` on, make an ordered run. */
  lemma ConcatInOrder(a: seq<Effect>, b: seq<Effect>, r: nat)
    requires InOrder(a) && InOrder(b) && Below(a, r) && AtLeast(b, r)
    ensures InOrder(a + b)
  {
    forall i, j | 0 <= i < j < |a + b| ensures Rank((a + b)[i]) < Rank((a + b)[j]) {
      if j < |a| {
        assert (a + b)[i] == a[i] && (a + b)[j] == a[j];
      } else if i < |a| {
        assert (a + b)[i] == a[i] && (a + b)[j] == b[j - |a|];
      } else {
        assert (a + b)[i] == b[i - |a|] && (a + b)[j] == b[j - |a|];
      }
    }
  }

  lemma ConfigPlanRanks(pc: Option<ProfileConfig>)
    ensures AtLeast(ConfigPlan(pc), 1) && Below(ConfigPlan(pc), 4)
  {
    var plan := ConfigPlan(pc);
    forall i | 0 <= i < |plan| ensures 1 <= Rank(plan[i]) < 4 {
      ConfigPlanMember(pc, plan[i]);
    }
  }

  lemma ConfigPlanInOrder(pc: Option<ProfileConfig>)
    ensures InOrder(ConfigPlan(pc))
  {
    if pc.Some? {
      var c := pc.value;
      var turboPlan := if c.turbo.Some? then [Write(TurboFile, TurboText(c.turbo.value))] else [];
      var cpuPlan := if c.cpuCurve.Some? then [ApplyCurve(Cpu, c.cpuCurve.value)] else [];
      var gpuPlan := if c.gpuCurve.Some? then [ApplyCurve(Gpu, c.gpuCurve.value)] else [];
      ConcatInOrder(turboPlan, cpuPlan, 2);
      assert Below(turboPlan + cpuPlan, 3) by {
        forall i | 0 <= i < |turboPlan + cpuPlan| ensures Rank((turboPlan + cpuPlan)[i]) < 3 {
          if i < |turboPlan| {
            assert (turboPlan + cpuPlan)[i] == turboPlan[i];
          } else {
            assert (turboPlan + cpuPlan)[i] == cpuPlan[i - |turboPlan|];
          }
        }
      }
      ConcatInOrder(turboPlan + cpuPlan, gpuPlan, 3);
    }
  }

  /** The fan-profile write followed by the configured steps is ordered, and has no signal. */
  lemma FrontInOrder(index: U8, pc: Option<ProfileConfig>)
    ensures var front := [Write(FanProfileFile, DecimalString(index))] + ConfigPlan(pc);
      InOrder(front) && Below(front, 4)
  {
    var fan := [Write(FanProfileFile, DecimalString(index))];
    var front := fan + ConfigPlan(pc);
    ConfigPlanInOrder(pc);
    ConfigPlanRanks(pc);
    assert InOrder(fan) && Below(fan, 1);
    ConcatInOrder(fan, ConfigPlan(pc), 1);
    forall i | 0 <= i < |front| ensures Rank(front[i]) < 4 {
      if i > 0 {
        assert front[i] == ConfigPlan(pc)[i - 1];
      }
    }
  }

  lemma PlannedInOrder(waybarNotify: Option<U8>, index: U8, pc: Option<ProfileConfig>, env: Env)
    ensures InOrder(Planned(waybarNotify, index, pc, env))
  {
    var front := [Write(FanProfileFile, DecimalString(index))] + ConfigPlan(pc);
    var notify := NotifyPlan(waybarNotify, env);
    FrontInOrder(index, pc);
    assert InOrder(notify) && AtLeast(notify, 4);
    ConcatInOrder(front, notify, 4);
  }

  /**
    The effects of a transition come in the fixed order fan profile, turbo,
    CPU curve, GPU curve, signal, each kind at most once.
  */
  lemma TransitionInOrder(waybarNotify: Option<U8>, index: U8, pc: Option<ProfileConfig>, env: Env)
    ensures InOrder(Transition(waybarNotify, index, pc, env).effects)
  {
    TransitionWithinPlan(waybarNotify, index, pc, env);
    PlannedInOrder(waybarNotify, index, pc, env);
    var o := Transition(waybarNotify, index, pc, env);
    var plan := Planned(waybarNotify, index, pc, env);
    assert forall i :: 0 <= i < |o.effects| ==> o.effects[i] == plan[i];
  }

  /** A board that cannot be identified stops the transition before any effect. */
  lemma InvalidBoardNoEffect(waybarNotify: Option<U8>, index: U8, pc: Option<ProfileConfig>, env: Env)
    requires env.board.None?
    ensures Transition(waybarNotify, index, pc, env) == Outcome([], Err(InvalidBoard))
  {
  }

  /** Once the board is identified, the fan-profile write is attempted first; it is the first effect or the failure. */
  lemma FanProfileWrittenFirst(waybarNotify: Option<U8>, index: U8, pc: Option<ProfileConfig>, env: Env)
    requires env.board.Some?
    ensures var o := Transition(waybarNotify, index, pc, env);
      if FanProfileFile in env.failingWrites then o == Outcome([], Err(WriteFailed(FanProfileFile)))
      else o.effects != [] && o.effects[0] == Write(FanProfileFile, DecimalString(index))
  {
  }

  /**
    How a transition ends: which failure stops it, given the machine's
    answers; every step not configured cannot fail, and it succeeds
    exactly when no step it attempts fails.
  */
  lemma TransitionResult(waybarNotify: Option<U8>, index: U8, pc: Option<ProfileConfig>, env: Env)
    ensures var r := Transition(waybarNotify, index, pc, env).result;
      var turboOk := pc.None? || pc.value.turbo.None? || TurboFile !in env.failingWrites;
      var cpuOk := pc.None? || pc.value.cpuCurve.None? || Cpu !in env.failingFans;
      var gpuOk := pc.None? || pc.value.gpuCurve.None? || Gpu !in env.failingFans;
      var fanOk := env.board.Some? && FanProfileFile !in env.failingWrites;
      && (r == Err(InvalidBoard) <==> env.board.None?)
      && (r == Err(WriteFailed(FanProfileFile)) <==> env.board.Some? && FanProfileFile in env.failingWrites)
      && (r == Err(WriteFailed(TurboFile)) <==> fanOk && !turboOk)
      && (r == Err(CurveApplyFailed(Cpu)) <==> fanOk && turboOk && !cpuOk)
      && (r == Err(CurveApplyFailed(Gpu)) <==> fanOk && turboOk && cpuOk && !gpuOk)
      && (r == Err(ProcessTableFailed) <==>
            fanOk && turboOk && cpuOk && gpuOk && waybarNotify.Some? && env.processes.None?)
      && (r.Ok? <==> fanOk && turboOk && cpuOk && gpuOk && (waybarNotify.Some? ==> env.processes.Some?))
  {
  }

  /** The turbo file is written only when the profile sets turbo, and then with exactly `"1"` or `"0"`. */
  lemma TurboWrites(waybarNotify: Option<U8>, index: U8, pc: Option<ProfileConfig>, env: Env, e: Effect)
    requires e in Transition(waybarNotify, index, pc, env).effects
    requires e.Write? && e.file == TurboFile
    ensures pc.Some? && pc.value.turbo.Some?
    ensures e.text == if pc.value.turbo.value then "1" else "0"
  {
    TransitionEffectsPlanned(waybarNotify, index, pc, env, e);
    ConfigPlanMember(pc, e);
    assert TurboText(true) == "1" && TurboText(false) == "0";
  }

  /** The fan-profile file is only ever written with the decimal form of the target index. */
  lemma FanProfileWrites(waybarNotify: Option<U8>, index: U8, pc: Option<ProfileConfig>, env: Env, e: Effect)
    requires e in Transition(waybarNotify, index, pc, env).effects
    requires e.Write? && e.file == FanProfileFile
    ensures e.text == DecimalString(index)
  {
    TransitionEffectsPlanned(waybarNotify, index, pc, env, e);
    ConfigPlanMember(pc, e);
  }

  /** A curve is applied only when the profile has one for that fan, and it is that curve. */
  lemma CurveApplications(waybarNotify: Option<U8>, index: U8, pc: Option<ProfileConfig>, env: Env, e: Effect)
    requires e in Transition(waybarNotify, index, pc, env).effects
    requires e.ApplyCurve?
    ensures pc.Some?
    ensures e.fan == Cpu ==> pc.value.cpuCurve == Some(e.curve)
    ensures e.fan == Gpu ==> pc.value.gpuCurve == Some(e.curve)
  {
    TransitionEffectsPlanned(waybarNotify, index, pc, env, e);
    ConfigPlanMember(pc, e);
  }

  /**
    The status bar is signalled exactly when the transition succeeded,
    notification is configured, and the process table lists a `waybar`:
    the first one gets SIGRTMIN plus the configured offset.
  */
  lemma SignalSent(waybarNotify: Option<U8>, index: U8, pc: Option<ProfileConfig>, env: Env, pid: int, signal: int)
    ensures Kill(pid, signal) in Transition(waybarNotify, index, pc, env).effects <==>
      && Transition(waybarNotify, index, pc, env).result.Ok?
      && waybarNotify.Some? && env.processes.Some?
      && FirstWaybar(env.processes.value) == Some(pid)
      && signal == env.sigrtmin + waybarNotify.value
  {
    if Kill(pid, signal) in Transition(waybarNotify, index, pc, env).effects {
      SignalOnlyIfNotified(waybarNotify, index, pc, env, pid, signal);
    }
    if Transition(waybarNotify, index, pc, env).result.Ok? {
      SignalIfNotified(waybarNotify, index, pc, env);
    }
  }

  lemma SignalOnlyIfNotified(waybarNotify: Option<U8>, index: U8, pc: Option<ProfileConfig>, env: Env, pid: int, signal: int)
    requires Kill(pid, signal) in Transition(waybarNotify, index, pc, env).effects
    ensures Kill(pid, signal) in NotifyPlan(waybarNotify, env)
    ensures Transition(waybarNotify, index, pc, env).result.Ok?
  {
    var o := Transition(waybarNotify, index, pc, env);
    var front := [Write(FanProfileFile, DecimalString(index))] + ConfigPlan(pc);
    var notify := NotifyPlan(waybarNotify, env);
    TransitionWithinPlan(waybarNotify, index, pc, env);
    assert Planned(waybarNotify, index, pc, env) == front + notify;
    assert Within(o, front + notify);
    ProcessTableFailure(waybarNotify, index, pc, env);
    FrontSendsNothing(index, pc, pid, signal);
    PastFrontSucceeded(Transition(waybarNotify, index, pc, env), front, notify, Kill(pid, signal));
  }

  /** Only a configured notification with an unreadable process table fails with `ProcessTableFailed`. */
  lemma ProcessTableFailure(waybarNotify: Option<U8>, index: U8, pc: Option<ProfileConfig>, env: Env)
    ensures Transition(waybarNotify, index, pc, env).result == Err(ProcessTableFailed) ==>
      waybarNotify.Some? && env.processes.None?
  {
  }

  /**
    An outcome within `front + back` that performed something not in `front`
    got into `back`; if `back` is at most the last step, which fails only
    when it has nothing to perform, the outcome succeeded.
  */
  lemma PastFrontSucceeded(o: Outcome, front: seq<Effect>, back: seq<Effect>, x: Effect)
    requires Within(o, front + back) && |back| <= 1
    requires o.result == Err(ProcessTableFailed) ==> back == []
    requires x in o.effects && x !in front
    ensures x in back && o.result.Ok?
  {
    PrefixPastFront(o.effects, front, back, x);
  }

  lemma SignalIfNotified(waybarNotify: Option<U8>, index: U8, pc: Option<ProfileConfig>, env: Env)
    requires Transition(waybarNotify, index, pc, env).result.Ok?
    ensures forall e :: e in NotifyPlan(waybarNotify, env) ==> e in Transition(waybarNotify, index, pc, env).effects
  {
    var front := [Write(FanProfileFile, DecimalString(index))] + ConfigPlan(pc);
    var notify := NotifyPlan(waybarNotify, env);
    TransitionWithinPlan(waybarNotify, index, pc, env);
    assert Planned(waybarNotify, index, pc, env) == front + notify;
    if notify != [] {
      assert (front + notify)[|front|] == notify[0];
    }
  }

  /** The effects before the notification are no signals. */
  lemma FrontSendsNothing(index: U8, pc: Option<ProfileConfig>, pid: int, signal: int)
    ensures Kill(pid, signal) !in [Write(FanProfileFile, DecimalString(index))] + ConfigPlan(pc)
  {
  }

  /** An element of a prefix of `front + back` that is not in `front` lies past `front`, in `back`. */
  lemma PrefixPastFront(es: seq<Effect>, front: seq<Effect>, back: seq<Effect>, x: Effect)
    requires es <= front + back && x in es && x !in front
    ensures |es| > |front| && x in back
  {
    var k :| 0 <= k < |es| && es[k] == x;
    assert forall j :: 0 <= j < |front| ==> (front + back)[j] == front[j];
    assert (front + back)[k] == x;
    assert back[k - |front|] == x;
  }

  // ----- What a transition leaves in the kernel -----

  /** The four settings a transition can overwrite. */
  datatype Target = FanProfileSetting | TurboSetting | CpuCurveSetting | GpuCurveSetting

  datatype Setting = Text(text: string) | CurveValue(curve: Option<Curve>)

  function Field(h: KernelState, t: Target): Setting {
    match t
    case FanProfileSetting => Text(h.fanProfile)
    case TurboSetting => Text(h.turbo)
    case CpuCurveSetting => CurveValue(h.cpuCurve)
    case GpuCurveSetting => CurveValue(h.gpuCurve)
  }

  /** The setting an effect overwrites, and the value it leaves there. */
  function Overwrites(e: Effect): Option<(Target, Setting)> {
    match e
    case Write(FanProfileFile, text) => Some((FanProfileSetting, Text(text)))
    case Write(TurboFile, text) => Some((TurboSetting, Text(text)))
    case ApplyCurve(Cpu, c) => Some((CpuCurveSetting, CurveValue(Some(c))))
    case ApplyCurve(Gpu, c) => Some((GpuCurveSetting, CurveValue(Some(c))))
    case Kill(_, _) => None
  }

  predicate Touches(e: Effect, t: Target) {
    Overwrites(e).Some? && Overwrites(e).value.0 == t
  }

  /** The value of setting `t` after `es`, starting from `d`: the last value written, or `d`. */
  function Final(es: seq<Effect>, t: Target, d: Setting): Setting
    decreases |es|
  {
    if es == [] then d
    else Final(es[1..], t, if Touches(es[0], t) then Overwrites(es[0]).value.1 else d)
  }

  /** Everything but the signals: the state of the control files and the fans. */
  function Settings(h: KernelState): KernelState {
    h.(signalsSent := [])
  }

  lemma {:induction false} PerformAllField(h: KernelState, es: seq<Effect>, t: Target)
    ensures Field(PerformAll(h, es), t) == Final(es, t, Field(h, t))
    decreases |es|
  {
    if es != [] {
      PerformAllField(Perform(h, es[0]), es[1..], t);
    }
  }

  lemma {:induction false} FinalUntouched(es: seq<Effect>, t: Target, d: Setting)
    requires forall e :: e in es ==> !Touches(e, t)
    ensures Final(es, t, d) == d
    decreases |es|
  {
    if es != [] {
      assert es[0] in es;
      assert forall e :: e in es[1..] ==> e in es;
      FinalUntouched(es[1..], t, d);
    }
  }

  lemma {:induction false} FinalTouched(es: seq<Effect>, t: Target, d1: Setting, d2: Setting)
    requires exists e :: e in es && Touches(e, t)
    ensures Final(es, t, d1) == Final(es, t, d2)
    decreases |es|
  {
    if !Touches(es[0], t) {
      var e :| e in es && Touches(e, t);
      assert e in es[1..];
      FinalTouched(es[1..], t, d1, d2);
    }
  }

  lemma FieldsDetermineSettings(h1: KernelState, h2: KernelState)
    requires forall t :: Field(h1, t) == Field(h2, t)
    ensures Settings(h1) == Settings(h2)
  {
    assert Field(h1, FanProfileSetting) == Field(h2, FanProfileSetting);
    assert Field(h1, TurboSetting) == Field(h2, TurboSetting);
    assert Field(h1, CpuCurveSetting) == Field(h2, CpuCurveSetting);
    assert Field(h1, GpuCurveSetting) == Field(h2, GpuCurveSetting);
  }

  /** Performing the same effects a second time leaves the settings as the first time did. */
  lemma RepeatSettles(h: KernelState, es: seq<Effect>)
    ensures Settings(PerformAll(PerformAll(h, es), es)) == Settings(PerformAll(h, es))
  {
    var once := PerformAll(h, es);
    forall t ensures Field(PerformAll(once, es), t) == Field(once, t) {
      PerformAllField(once, es, t);
      PerformAllField(h, es, t);
      if exists e :: e in es && Touches(e, t) {
        FinalTouched(es, t, Field(once, t), Field(h, t));
      } else {
        FinalUntouched(es, t, Field(once, t));
        FinalUntouched(es, t, Field(h, t));
      }
    }
    FieldsDetermineSettings(PerformAll(once, es), once);
  }

  /** Running `set X` twice leaves the control files and fan curves as running it once does. */
  lemma SetIdempotent(config: Config, name: string, env: Env, h: KernelState)
    ensures var es := SetOutcome(config, name, env).effects;
      Settings(PerformAll(PerformAll(h, es), es)) == Settings(PerformAll(h, es))
  {
    RepeatSettles(h, SetOutcome(config, name, env).effects);
  }

  /** Whether a profile configuration sets the given setting. */
  predicate Configures(pc: Option<ProfileConfig>, t: Target) {
    pc.Some? &&
    match t
    case FanProfileSetting => false
    case TurboSetting => pc.value.turbo.Some?
    case CpuCurveSetting => pc.value.cpuCurve.Some?
    case GpuCurveSetting => pc.value.gpuCurve.Some?
  }

  lemma ConfigPlanTouches(pc: Option<ProfileConfig>, e: Effect, t: Target)
    requires e in ConfigPlan(pc) && Touches(e, t)
    ensures Configures(pc, t)
  {
  }

  /** A transition touches no setting besides the fan profile that its profile does not configure. */
  lemma TransitionAvoids(waybarNotify: Option<U8>, index: U8, pc: Option<ProfileConfig>, env: Env, t: Target)
    requires t != FanProfileSetting && !Configures(pc, t)
    ensures forall e :: e in Transition(waybarNotify, index, pc, env).effects ==> !Touches(e, t)
  {
    forall e | e in Transition(waybarNotify, index, pc, env).effects ensures !Touches(e, t) {
      TransitionEffectsPlanned(waybarNotify, index, pc, env, e);
      if e in ConfigPlan(pc) && Touches(e, t) {
        ConfigPlanTouches(pc, e, t);
      }
    }
  }

  lemma UntouchedKept(h: KernelState, es: seq<Effect>, t: Target)
    requires forall e :: e in es ==> !Touches(e, t)
    ensures Field(PerformAll(h, es), t) == Field(h, t)
  {
    PerformAllField(h, es, t);
    FinalUntouched(es, t, Field(h, t));
  }

  /** A setting the profile leaves out keeps its value, whether the transition succeeds or not. */
  lemma TransitionLeavesUnconfigured(h: KernelState, waybarNotify: Option<U8>, index: U8, pc: Option<ProfileConfig>, env: Env)
    ensures var h' := PerformAll(h, Transition(waybarNotify, index, pc, env).effects);
      && (!Configures(pc, TurboSetting) ==> h'.turbo == h.turbo)
      && (!Configures(pc, CpuCurveSetting) ==> h'.cpuCurve == h.cpuCurve)
      && (!Configures(pc, GpuCurveSetting) ==> h'.gpuCurve == h.gpuCurve)
  {
    var es := Transition(waybarNotify, index, pc, env).effects;
    var h' := PerformAll(h, es);
    if !Configures(pc, TurboSetting) {
      TransitionAvoids(waybarNotify, index, pc, env, TurboSetting);
      UntouchedKept(h, es, TurboSetting);
      assert Field(h', TurboSetting) == Field(h, TurboSetting);
    }
    if !Configures(pc, CpuCurveSetting) {
      TransitionAvoids(waybarNotify, index, pc, env, CpuCurveSetting);
      UntouchedKept(h, es, CpuCurveSetting);
      assert Field(h', CpuCurveSetting) == Field(h, CpuCurveSetting);
    }
    if !Configures(pc, GpuCurveSetting) {
      TransitionAvoids(waybarNotify, index, pc, env, GpuCurveSetting);
      UntouchedKept(h, es, GpuCurveSetting);
      assert Field(h', GpuCurveSetting) == Field(h, GpuCurveSetting);
    }
  }

  lemma PerformAtMostOne(h: KernelState, es: seq<Effect>)
    requires |es| <= 1
    ensures PerformAll(h, es) == if es == [] then h else Perform(h, es[0])
  {
    if es != [] {
      assert es[1..] == [];
    }
  }

  /** The settings after a profile's configuration steps. */
  lemma ConfigPlanResult(h: KernelState, pc: Option<ProfileConfig>)
    ensures var h' := PerformAll(h, ConfigPlan(pc));
      && h'.fanProfile == h.fanProfile
      && h'.signalsSent == h.signalsSent
      && h'.turbo == (if Configures(pc, TurboSetting) then TurboText(pc.value.turbo.value) else h.turbo)
      && h'.cpuCurve == (if Configures(pc, CpuCurveSetting) then pc.value.cpuCurve else h.cpuCurve)
      && h'.gpuCurve == (if Configures(pc, GpuCurveSetting) then pc.value.gpuCurve else h.gpuCurve)
  {
    if pc.Some? {
      var c := pc.value;
      var turboPlan := if c.turbo.Some? then [Write(TurboFile, TurboText(c.turbo.value))] else [];
      var cpuPlan := if c.cpuCurve.Some? then [ApplyCurve(Cpu, c.cpuCurve.value)] else [];
      var gpuPlan := if c.gpuCurve.Some? then [ApplyCurve(Gpu, c.gpuCurve.value)] else [];
      PerformAllAppend(h, turboPlan + cpuPlan, gpuPlan);
      PerformAllAppend(h, turboPlan, cpuPlan);
      var h1 := PerformAll(h, turboPlan);
      var h2 := PerformAll(h1, cpuPlan);
      PerformAtMostOne(h, turboPlan);
      PerformAtMostOne(h1, cpuPlan);
      PerformAtMostOne(h2, gpuPlan);
    }
  }

  /**
    After a successful transition the fan-profile file holds the target
    index, and turbo and each curve hold what the profile configures.
  */
  lemma TransitionInstallsProfile(h: KernelState, waybarNotify: Option<U8>, index: U8, pc: Option<ProfileConfig>, env: Env)
    requires Transition(waybarNotify, index, pc, env).result.Ok?
    ensures var h' := PerformAll(h, Transition(waybarNotify, index, pc, env).effects);
      && h'.fanProfile == DecimalString(index)
      && (Configures(pc, TurboSetting) ==> h'.turbo == TurboText(pc.value.turbo.value))
      && (Configures(pc, CpuCurveSetting) ==> h'.cpuCurve == pc.value.cpuCurve)
      && (Configures(pc, GpuCurveSetting) ==> h'.gpuCurve == pc.value.gpuCurve)
  {
    TransitionWithinPlan(waybarNotify, index, pc, env);
    PlannedResult(h, waybarNotify, index, pc, env);
  }

  /** The settings after the whole plan: the index, then whatever the profile configures. */
  lemma PlannedResult(h: KernelState, waybarNotify: Option<U8>, index: U8, pc: Option<ProfileConfig>, env: Env)
    ensures var h' := PerformAll(h, Planned(waybarNotify, index, pc, env));
      && h'.fanProfile == DecimalString(index)
      && (Configures(pc, TurboSetting) ==> h'.turbo == TurboText(pc.value.turbo.value))
      && (Configures(pc, CpuCurveSetting) ==> h'.cpuCurve == pc.value.cpuCurve)
      && (Configures(pc, GpuCurveSetting) ==> h'.gpuCurve == pc.value.gpuCurve)
  {
    var fan := [Write(FanProfileFile, DecimalString(index))];
    var notify := NotifyPlan(waybarNotify, env);
    PerformAllAppend(h, fan + ConfigPlan(pc), notify);
    PerformAllAppend(h, fan, ConfigPlan(pc));
    var h1 := PerformAll(h, fan);
    var h2 := PerformAll(h1, ConfigPlan(pc));
    PerformAtMostOne(h, fan);
    ConfigPlanResult(h1, pc);
    PerformAtMostOne(h2, notify);
  }

  // ----- set and toggle -----

  /** `set` with any other name than the three is `UnknownProfile(name)`, and nothing is written, applied or signalled. */
  lemma SetUnknownName(config: Config, name: string, env: Env)
    requires name != "normal" && name != "boost" && name != "silent"
    ensures SetOutcome(config, name, env) == Outcome([], Err(UnknownProfile(name)))
  {
  }

  /** `set` with the name of profile `i` is the transition to index `i` with that profile's configuration. */
  lemma SetNamedProfile(config: Config, i: U8, env: Env)
    requires i < NumProfiles
    ensures SetOutcome(config, ProfileName(i), env)
      == Transition(config.waybarNotify, i, ProfileFor(config.profiles, i), env)
  {
  }

  /** `toggle` from a named profile is `set` to the next profile's name. */
  lemma ToggleIsSetNext(config: Config, state: State, env: Env)
    requires state.fanProfile < NumProfiles
    ensures ToggleOutcome(config, state, env)
      == SetOutcome(config, ProfileName((state.fanProfile + 1) % 3), env)
  {
    var next := NextIndex(state.fanProfile);
    assert next == (state.fanProfile + 1) % 3;
    SetNamedProfile(config, next, env);
  }

  /** The fan-profile file is only ever written with `"0"`, `"1"` or `"2"` by `set`. */
  lemma SetWritesProfileIndex(config: Config, name: string, env: Env, e: Effect)
    requires e in SetOutcome(config, name, env).effects
    requires e.Write? && e.file == FanProfileFile
    ensures e.text == "0" || e.text == "1" || e.text == "2"
  {
    match Resolve(config.profiles, name)
    case Ok((i, pc)) =>
      ResolveMeaning(config.profiles, name);
      FanProfileWrites(config.waybarNotify, i, pc, env, e);
  }

  /** The fan-profile file is only ever written with `"0"`, `"1"` or `"2"` by `toggle`. */
  lemma ToggleWritesProfileIndex(config: Config, state: State, env: Env, e: Effect)
    requires state.fanProfile < 255
    requires e in ToggleOutcome(config, state, env).effects
    requires e.Write? && e.file == FanProfileFile
    ensures e.text == "0" || e.text == "1" || e.text == "2"
  {
    var next := NextIndex(state.fanProfile);
    FanProfileWrites(config.waybarNotify, next, ProfileFor(config.profiles, next), env, e);
  }

  /**
    After a successful `set` of a profile that sets turbo, the state probe
    reads back that profile's index and that turbo flag.
  */
  lemma SetThenProbe(config: Config, i: U8, env: Env, h: KernelState, turbo: bool)
    requires i < NumProfiles
    requires ProfileFor(config.profiles, i).Some? && ProfileFor(config.profiles, i).value.turbo == Some(turbo)
    requires SetOutcome(config, ProfileName(i), env).result.Ok?
    ensures var h' := PerformAll(h, SetOutcome(config, ProfileName(i), env).effects);
      FromSystem(Some(h'.fanProfile + "\n"), Some(h'.turbo + "\n")) == Ok(State(i, turbo))
  {
    var pc := ProfileFor(config.profiles, i);
    SetNamedProfile(config, i, env);
    TransitionInstallsProfile(h, config.waybarNotify, i, pc, env);
    var h' := PerformAll(h, SetOutcome(config, ProfileName(i), env).effects);
    assert h'.fanProfile == DecimalString(i) && h'.turbo == DecimalString(if turbo then 1 else 0);
    FromSystemNoRangeCheck(i, if turbo then 1 else 0);
  }
}

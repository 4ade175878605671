/**
  Worked scenarios of the controller on a machine where the board is
  recognised and every write and curve application succeeds.
*/
module Scenarios {
  import opened Wrappers
  import opened Decimal
  import opened StateProbe
  import opened ProfileControl
  import opened ControlProperties

  /** A recognised board on which nothing fails, with the given process table and SIGRTMIN. */
  function Healthy(processes: seq<Process>, sigrtmin: int): Env {
    Env(Some(Board("GA401")), {}, {}, Some(processes), sigrtmin)
  }

  /** `set normal` with no `profiles` table writes `"0"` to the fan-profile file and does nothing else. */
  lemma SetNormalMinimal(ps: seq<Process>, sigrtmin: int)
    ensures SetOutcome(Config(None, NoProfiles), "normal", Healthy(ps, sigrtmin))
      == Outcome([Write(FanProfileFile, "0")], Ok(()))
  {
  }

  /** `set boost` with turbo and both curves: fan profile, turbo, CPU curve, GPU curve, in that order. */
  lemma SetBoostFull(c1: Curve, c2: Curve, ps: seq<Process>, sigrtmin: int)
    ensures var boost := ProfileConfig(Some(true), Some(c1), Some(c2));
      SetOutcome(Config(None, Profiles(None, Some(boost), None)), "boost", Healthy(ps, sigrtmin))
      == Outcome([Write(FanProfileFile, "1"), Write(TurboFile, "1"), ApplyCurve(Cpu, c1), ApplyCurve(Gpu, c2)], Ok(()))
  {
  }

  /** `toggle` from the silent profile moves to normal, whose configuration it then applies. */
  lemma ToggleFromSilent(config: Config, turbo: bool, env: Env)
    ensures ToggleOutcome(config, State(2, turbo), env)
      == Transition(config.waybarNotify, 0, config.profiles.normal, env)
    ensures env.board.Some? && FanProfileFile !in env.failingWrites ==>
      ToggleOutcome(config, State(2, turbo), env).effects[0] == Write(FanProfileFile, "0")
  {
    if env.board.Some? && FanProfileFile !in env.failingWrites {
      FanProfileWrittenFirst(config.waybarNotify, 0, config.profiles.normal, env);
    }
  }

  /** `set silent` with `waybar_notify = 3` and a running `waybar`: the signal SIGRTMIN + 3 goes to it last. */
  lemma SetSilentNotifies(pid: int, sigrtmin: int)
    ensures var silent := ProfileConfig(Some(false), None, None);
      SetOutcome(Config(Some(3), Profiles(None, None, Some(silent))), "silent",
                 Healthy([Process(Some(ProcStat(pid, "waybar")))], sigrtmin))
      == Outcome([Write(FanProfileFile, "2"), Write(TurboFile, "0"), Kill(pid, sigrtmin + 3)], Ok(()))
  {
  }

  /** The same without a `waybar` among the processes: the writes happen, no signal is sent, and it succeeds. */
  lemma SetSilentNoStatusBar(ps: seq<Process>, sigrtmin: int)
    requires forall i :: 0 <= i < |ps| ==> !IsWaybar(ps[i])
    ensures var silent := ProfileConfig(Some(false), None, None);
      SetOutcome(Config(Some(3), Profiles(None, None, Some(silent))), "silent", Healthy(ps, sigrtmin))
      == Outcome([Write(FanProfileFile, "2"), Write(TurboFile, "0")], Ok(()))
  {
    FirstWaybarNone(ps);
  }

  /** `set turbo_extreme` is an unknown profile, and nothing is written. */
  lemma SetUnknown(config: Config, env: Env)
    ensures SetOutcome(config, "turbo_extreme", env) == Outcome([], Err(UnknownProfile("turbo_extreme")))
  {
    SetUnknownName(config, "turbo_extreme", env);
  }

  /** The kernel reporting `1` and `1` is the boost profile with turbo on. */
  lemma ProbeBoost()
    ensures FromSystem(Some("1\n"), Some("1\n")) == Ok(State(1, true))
  {
    var one := DecimalString(1) + "\n";
    FromSystemNoRangeCheck(1, 1);
    assert one == "1\n";
  }

  /** The boost profile with turbo on, printed by `info --json`, is this exact line. */
  lemma BoostJson()
    ensures State(1, true).JsonString() == "{\"fan_profile\": \"boost\", \"turbo\": true}"
  {
  }
}

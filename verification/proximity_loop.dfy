/** One tick of the daemon's monitoring loop: the best average signal over
    all monitored devices, the periodic resynchronisation with the desktop's
    real lock state, the GONE/ACTIVE hysteresis that fires the lock and
    unlock commands, and the periodic proximity command. The clock, the
    per-device averages and the desktop's lock reading are inputs. */
module ProximityLoop {
  import opened Base
  import opened ConfigFile
  import Desktop

  /** The average a device with no usable reading reports, and the value
      the best average starts from. */
  const SENTINEL: real := -255.0

  /** Seconds between two lock-state checks. */
  const LOCK_CHECK_INTERVAL: int := 30

  datatype State = Gone | Active

  /** The commands a tick can launch. */
  datatype Command = LockCommand | UnlockCommand | ProximityCommand

  /** The loop's variables between two ticks. */
  datatype LoopState = LoopState(state: State, count: int, lastLockCheck: int, lastProxTime: int)

  /** The variables before the first tick. */
  function Initial(): LoopState
  {
    LoopState(Gone, 0, 0, 0)
  }

  /** What one tick observes: the clock, the best average, and what
      `is_desktop_locked` would report (`None` when the session is unknown
      and lock-state sync is disabled). */
  datatype Observation = Observation(now: int, best: real, desktopLocked: Option<bool>)

  // ---- The best average -------------------------------------------------

  function Max(a: real, b: real): real
  {
    if b > a then b else a
  }

  /** The best average after the first `|avgs|` monitors, starting from the sentinel. */
  function BestOf(avgs: seq<real>): (best: real)
    ensures best >= SENTINEL
    ensures forall i :: 0 <= i < |avgs| ==> best >= avgs[i]
    ensures best == SENTINEL || exists i :: 0 <= i < |avgs| && best == avgs[i]
  {
    if avgs == [] then SENTINEL
    else
      var prefix := BestOf(avgs[..|avgs| - 1]);
      assert forall i :: 0 <= i < |avgs| - 1 ==> avgs[..|avgs| - 1][i] == avgs[i];
      Max(prefix, avgs[|avgs| - 1])
  }

  /** The loop over the monitors: keep the larger of the best so far and
      each monitor's average. */
  method BestAverage(avgs: seq<real>) returns (best: real)
    ensures best == BestOf(avgs)
  {
    best := SENTINEL;
    var i := 0;
    while i < |avgs|
      invariant 0 <= i <= |avgs|
      invariant best == BestOf(avgs[..i])
    {
      var avg := avgs[i];
      assert avgs[..i + 1][..i] == avgs[..i];
      if avg > best {
        best := avg;
      }
      i := i + 1;
    }
    assert avgs[..i] == avgs;
  }

  // ---- The qualifying conditions ------------------------------------------

  /** A tick counts toward unlocking: the best average is at least
      `-unlock_distance` and is not the sentinel. */
  predicate UnlockQualifies(cfg: GlobalConfig, best: real)
  {
    best >= -(cfg.unlockDistance as real) && best != SENTINEL
  }

  /** A tick counts toward locking: the best average is at most `-lock_distance`. */
  predicate LockQualifies(cfg: GlobalConfig, best: real)
  {
    best <= -(cfg.lockDistance as real)
  }

  /** The number of consecutive qualifying ticks the current state needs. */
  function Required(cfg: GlobalConfig, state: State): int
  {
    if state == Active then cfg.lockDuration else cfg.unlockDuration
  }

  /** The sentinel never counts toward unlocking, whatever the threshold. */
  lemma SentinelNeverUnlocks(cfg: GlobalConfig)
    ensures !UnlockQualifies(cfg, SENTINEL)
  {
  }

  /** The sentinel counts toward locking whenever `lock_distance` is at most 255. */
  lemma SentinelCountsTowardLocking(cfg: GlobalConfig)
    requires cfg.lockDistance <= 255
    ensures LockQualifies(cfg, SENTINEL)
  {
  }

  // ---- The three parts of a tick ----------------------------------------

  /** Whether this tick checks the desktop's lock state. */
  predicate ResyncDue(s: LoopState, o: Observation)
  {
    o.desktopLocked.Some? && o.now - s.lastLockCheck >= LOCK_CHECK_INTERVAL
  }

  /** The lock-state check: on a mismatch the state follows the desktop; the
      counter restarts at 1 when an ACTIVE daemon finds the desktop locked
      while the signal is good enough to unlock, and at 0 otherwise. */
  function Resync(cfg: GlobalConfig, s: LoopState, o: Observation): (r: LoopState)
    ensures !ResyncDue(s, o) ==> r == s
    ensures ResyncDue(s, o) ==> r.lastLockCheck == o.now && r.lastProxTime == s.lastProxTime
    ensures ResyncDue(s, o) ==> r.state == (if o.desktopLocked.value then Gone else Active)
    ensures ResyncDue(s, o) && r.state == s.state ==> r.count == s.count
    ensures ResyncDue(s, o) && r.state != s.state ==>
      r.count == (if s.state == Active && UnlockQualifies(cfg, o.best) then 1 else 0)
  {
    if !ResyncDue(s, o) then s
    else
      var expected := if o.desktopLocked.value then Gone else Active;
      if s.state != expected then
        var count := if s.state == Active && expected == Gone && UnlockQualifies(cfg, o.best) then 1 else 0;
        s.(state := expected, count := count, lastLockCheck := o.now)
      else s.(lastLockCheck := o.now)
  }

  /** The hysteresis: a qualifying tick adds one to the counter and, when the
      counter reaches the required duration, switches state, fires the
      command and clears the counter; any other tick clears the counter. */
  function Hysteresis(cfg: GlobalConfig, s: LoopState, best: real): (r: (LoopState, Option<Command>))
    ensures r.0.lastLockCheck == s.lastLockCheck && r.0.lastProxTime == s.lastProxTime
    ensures s.count >= 0 && cfg.lockDuration >= 1 && cfg.unlockDuration >= 1 ==>
      0 <= r.0.count < Required(cfg, r.0.state)
    ensures s.count >= 0 ==> r.0.count >= 0
    ensures s.state == Active && !LockQualifies(cfg, best) ==> r == (s.(count := 0), None)
    ensures s.state == Gone && !UnlockQualifies(cfg, best) ==> r == (s.(count := 0), None)
    ensures r.1 == Some(LockCommand) <==>
      s.state == Active && LockQualifies(cfg, best) && s.count + 1 >= cfg.lockDuration
    ensures r.1 == Some(UnlockCommand) <==>
      s.state == Gone && UnlockQualifies(cfg, best) && s.count + 1 >= cfg.unlockDuration
    ensures r.1 != Some(ProximityCommand)
    ensures r.1.Some? <==> r.0.state != s.state
  {
    match s.state
    case Active =>
      if LockQualifies(cfg, best) then
        if s.count + 1 >= cfg.lockDuration then (s.(state := Gone, count := 0), Some(LockCommand))
        else (s.(count := s.count + 1), None)
      else (s.(count := 0), None)
    case Gone =>
      if UnlockQualifies(cfg, best) then
        if s.count + 1 >= cfg.unlockDuration then (s.(state := Active, count := 0), Some(UnlockCommand))
        else (s.(count := s.count + 1), None)
      else (s.(count := 0), None)
  }

  /** The proximity command: fired while ACTIVE, when configured, once
      `prox_interval` seconds have passed since it last fired. */
  function Proximity(cfg: GlobalConfig, s: LoopState, now: int): (r: (LoopState, bool))
    ensures r.1 <==> s.state == Active && cfg.proxCmd != [] && now - s.lastProxTime >= cfg.proxInterval
    ensures r.0 == (if r.1 then s.(lastProxTime := now) else s)
  {
    if s.state == Active && cfg.proxCmd != [] && now - s.lastProxTime >= cfg.proxInterval then
      (s.(lastProxTime := now), true)
    else (s, false)
  }

  /** The result of one tick: the new variables and the commands launched, in order. */
  datatype TickResult = TickResult(next: LoopState, commands: seq<Command>)

  /** The commands a tick launches: the hysteresis's, then the proximity command. */
  function Fired(switched: Option<Command>, prox: bool): seq<Command>
  {
    (if switched.Some? then [switched.value] else []) + (if prox then [ProximityCommand] else [])
  }

  /** One tick of the monitoring loop. */
  function Step(cfg: GlobalConfig, s: LoopState, o: Observation): (r: TickResult)
    ensures |r.commands| <= 2
    ensures ProximityCommand in r.commands ==> r.next.state == Active && r.next.lastProxTime == o.now
    ensures LockCommand in r.commands ==> r.next.state == Gone && r.next.count == 0
    ensures UnlockCommand in r.commands ==> r.next.state == Active && r.next.count == 0
    ensures ResyncDue(s, o) ==> r.next.lastLockCheck == o.now
    ensures !ResyncDue(s, o) ==> r.next.lastLockCheck == s.lastLockCheck
  {
    var s1 := Resync(cfg, s, o);
    var (s2, fired) := Hysteresis(cfg, s1, o.best);
    var (s3, prox) := Proximity(cfg, s2, o.now);
    TickResult(s3, Fired(fired, prox))
  }

  /** With both durations at least 1, every tick ends with
      0 <= counter < the duration the current state requires. */
  lemma StepKeepsCounterInRange(cfg: GlobalConfig, s: LoopState, o: Observation)
    requires cfg.lockDuration >= 1 && cfg.unlockDuration >= 1 && s.count >= 0
    ensures 0 <= Step(cfg, s, o).next.count < Required(cfg, Step(cfg, s, o).next.state)
  {
  }

  /** A tick whose condition fails for the state after the resync leaves the
      counter at 0: there is no partial credit. */
  lemma FailedTickClearsCounter(cfg: GlobalConfig, s: LoopState, o: Observation)
    requires var s1 := Resync(cfg, s, o);
      if s1.state == Active then !LockQualifies(cfg, o.best) else !UnlockQualifies(cfg, o.best)
    ensures Step(cfg, s, o).next.count == 0
    ensures Step(cfg, s, o).next.state == Resync(cfg, s, o).state
    ensures LockCommand !in Step(cfg, s, o).commands && UnlockCommand !in Step(cfg, s, o).commands
  {
  }

  /** The counter carried into the hysteresis after an ACTIVE daemon finds
      the desktop locked with a good signal is 1, so the same tick counts it
      again: a duration of 2 or less unlocks at once, a longer one ends the
      tick GONE with counter 2. */
  lemma ResyncPreload(cfg: GlobalConfig, s: LoopState, o: Observation)
    requires s.state == Active && o.desktopLocked == Some(true) && o.now - s.lastLockCheck >= LOCK_CHECK_INTERVAL
    requires UnlockQualifies(cfg, o.best)
    ensures Resync(cfg, s, o).state == Gone && Resync(cfg, s, o).count == 1
    ensures cfg.unlockDuration <= 2 ==> Step(cfg, s, o).next.state == Active && UnlockCommand in Step(cfg, s, o).commands
    ensures cfg.unlockDuration > 2 ==> Step(cfg, s, o).next.state == Gone && Step(cfg, s, o).next.count == 2
  {
    var s1 := Resync(cfg, s, o);
    var (s2, fired) := Hysteresis(cfg, s1, o.best);
    if cfg.unlockDuration <= 2 {
      assert fired == Some(UnlockCommand);
    }
  }

  /** The proximity command fires exactly when the state after the
      hysteresis is ACTIVE, a command is configured and the interval has
      passed, and then records the time. */
  lemma ProximityRule(cfg: GlobalConfig, s: LoopState, o: Observation)
    ensures var after := Hysteresis(cfg, Resync(cfg, s, o), o.best).0;
      && (ProximityCommand in Step(cfg, s, o).commands
          <==> after.state == Active && cfg.proxCmd != [] && o.now - after.lastProxTime >= cfg.proxInterval)
      && Step(cfg, s, o).next.lastProxTime == (if ProximityCommand in Step(cfg, s, o).commands then o.now else s.lastProxTime)
  {
  }

  // ---- Runs of ticks --------------------------------------------------------

  /** The variables after a run of ticks. */
  function Run(cfg: GlobalConfig, s: LoopState, obs: seq<Observation>): LoopState
    decreases |obs|
  {
    if obs == [] then s else Run(cfg, Step(cfg, s, obs[0]).next, obs[1..])
  }

  /** Ticks that all qualify for unlocking and do not resync. */
  predicate UnlockingTicks(cfg: GlobalConfig, obs: seq<Observation>)
  {
    forall i :: 0 <= i < |obs| ==> obs[i].desktopLocked.None? && UnlockQualifies(cfg, obs[i].best)
  }

  /** Ticks that all qualify for locking and do not resync. */
  predicate LockingTicks(cfg: GlobalConfig, obs: seq<Observation>)
  {
    forall i :: 0 <= i < |obs| ==> obs[i].desktopLocked.None? && LockQualifies(cfg, obs[i].best)
  }

  /** From GONE with counter `c`, fewer than `unlock_duration - c`
      consecutive qualifying ticks leave the daemon GONE with the counter
      raised by their number. */
  lemma {:induction false} UnlockCounting(cfg: GlobalConfig, s: LoopState, obs: seq<Observation>)
    requires s.state == Gone && s.count >= 0 && UnlockingTicks(cfg, obs)
    requires s.count + |obs| < cfg.unlockDuration
    ensures Run(cfg, s, obs).state == Gone && Run(cfg, s, obs).count == s.count + |obs|
    decreases |obs|
  {
    if obs != [] {
      var next := Step(cfg, s, obs[0]).next;
      assert UnlockingTicks(cfg, obs[1..]) by {
        forall i | 0 <= i < |obs[1..]| ensures obs[1..][i] == obs[i + 1] { }
      }
      UnlockCounting(cfg, next, obs[1..]);
    }
  }

  /** From GONE with counter 0, the state becomes ACTIVE on exactly the
      `unlock_duration`-th consecutive qualifying tick: not before, and that
      tick fires the unlock command and clears the counter. */
  lemma UnlockOnNthTick(cfg: GlobalConfig, s: LoopState, obs: seq<Observation>, last: Observation)
    requires s.state == Gone && s.count == 0 && cfg.unlockDuration >= 1
    requires |obs| == cfg.unlockDuration - 1 && UnlockingTicks(cfg, obs + [last])
    ensures forall k :: 0 <= k <= |obs| ==> Run(cfg, s, obs[..k]).state == Gone
    ensures Step(cfg, Run(cfg, s, obs), last).next.state == Active
    ensures Step(cfg, Run(cfg, s, obs), last).next.count == 0
    ensures UnlockCommand in Step(cfg, Run(cfg, s, obs), last).commands
  {
    assert UnlockingTicks(cfg, obs) by {
      forall i | 0 <= i < |obs| ensures (obs + [last])[i] == obs[i] { }
    }
    assert last.desktopLocked.None? && UnlockQualifies(cfg, last.best) by {
      assert (obs + [last])[|obs|] == last;
    }
    forall k | 0 <= k <= |obs|
      ensures Run(cfg, s, obs[..k]).state == Gone
    {
      assert UnlockingTicks(cfg, obs[..k]) by {
        forall i | 0 <= i < k ensures obs[..k][i] == obs[i] { }
      }
      UnlockCounting(cfg, s, obs[..k]);
    }
    UnlockCounting(cfg, s, obs);
  }

  /** From ACTIVE with counter `c`, fewer than `lock_duration - c`
      consecutive qualifying ticks leave the daemon ACTIVE with the counter
      raised by their number. */
  lemma {:induction false} LockCounting(cfg: GlobalConfig, s: LoopState, obs: seq<Observation>)
    requires s.state == Active && s.count >= 0 && LockingTicks(cfg, obs)
    requires s.count + |obs| < cfg.lockDuration
    ensures Run(cfg, s, obs).state == Active && Run(cfg, s, obs).count == s.count + |obs|
    decreases |obs|
  {
    if obs != [] {
      var next := Step(cfg, s, obs[0]).next;
      assert LockingTicks(cfg, obs[1..]) by {
        forall i | 0 <= i < |obs[1..]| ensures obs[1..][i] == obs[i + 1] { }
      }
      LockCounting(cfg, next, obs[1..]);
    }
  }

  /** From ACTIVE with counter 0, the state becomes GONE on exactly the
      `lock_duration`-th consecutive qualifying tick, which fires the lock
      command and clears the counter. */
  lemma LockOnNthTick(cfg: GlobalConfig, s: LoopState, obs: seq<Observation>, last: Observation)
    requires s.state == Active && s.count == 0 && cfg.lockDuration >= 1
    requires |obs| == cfg.lockDuration - 1 && LockingTicks(cfg, obs + [last])
    ensures forall k :: 0 <= k <= |obs| ==> Run(cfg, s, obs[..k]).state == Active
    ensures Step(cfg, Run(cfg, s, obs), last).next.state == Gone
    ensures Step(cfg, Run(cfg, s, obs), last).next.count == 0
    ensures LockCommand in Step(cfg, Run(cfg, s, obs), last).commands
  {
    assert LockingTicks(cfg, obs) by {
      forall i | 0 <= i < |obs| ensures (obs + [last])[i] == obs[i] { }
    }
    assert last.desktopLocked.None? && LockQualifies(cfg, last.best) by {
      assert (obs + [last])[|obs|] == last;
    }
    forall k | 0 <= k <= |obs|
      ensures Run(cfg, s, obs[..k]).state == Active
    {
      assert LockingTicks(cfg, obs[..k]) by {
        forall i | 0 <= i < k ensures obs[..k][i] == obs[i] { }
      }
      LockCounting(cfg, s, obs[..k]);
    }
    LockCounting(cfg, s, obs);
  }

  // ---- The loop as an object ------------------------------------------------

  /** The command line a launched command runs with. */
  function CommandText(cfg: GlobalConfig, c: Command): string
  {
    match c
    case LockCommand => cfg.lockCmd
    case UnlockCommand => cfg.unlockCmd
    case ProximityCommand => cfg.proxCmd
  }

  /** The shell lines `execute_command` launches for a tick's commands; an
      empty command launches nothing. */
  function ShellLines(cfg: GlobalConfig, cs: seq<Command>): (lines: seq<string>)
    ensures |lines| <= |cs|
  {
    if cs == [] then []
    else
      match Desktop.ShellLine(CommandText(cfg, cs[0]), cfg.display, cfg.xauthority)
      case None => ShellLines(cfg, cs[1..])
      case Some(line) => [line] + ShellLines(cfg, cs[1..])
  }

  /** The monitoring loop's variables (`current_state`, `duration_count`,
      `last_lock_check`, `last_prox_time`) and the configuration it reads. */
  class Supervisor {
    const config: GlobalConfig
    var state: State
    var durationCount: int
    var lastLockCheck: int
    var lastProxTime: int

    function Vars(): LoopState
      reads this
    {
      LoopState(state, durationCount, lastLockCheck, lastProxTime)
    }

    /** The counter invariant the loop keeps: never negative, and below the
        required duration when both durations are at least 1. */
    predicate Valid()
      reads this
    {
      && 0 <= durationCount
      && (config.lockDuration >= 1 && config.unlockDuration >= 1 ==>
            durationCount < Required(config, state))
    }

    constructor (cfg: GlobalConfig)
      ensures config == cfg && Vars() == Initial()
    {
      config := cfg;
      state := Gone;
      durationCount := 0;
      lastLockCheck := 0;
      lastProxTime := 0;
    }

    /** One pass of the loop body, given the clock, every monitor's
      average and the desktop's lock reading; returns the shell lines it
      launches. */
    method Tick(now: int, averages: seq<real>, desktopLocked: Option<bool>) returns (launched: seq<string>)
      requires Valid()
      modifies this
      ensures Valid()
      ensures var r := Step(config, old(Vars()), Observation(now, BestOf(averages), desktopLocked));
        Vars() == r.next && launched == ShellLines(config, r.commands)
    {
      var best := BestAverage(averages);
      var o := Observation(now, best, desktopLocked);
      CheckLockState(o);
      var switched := CountTick(best);
      var prox := ProximityTick(now);
      launched := LaunchAll(switched, prox);
      if config.lockDuration >= 1 && config.unlockDuration >= 1 {
        StepKeepsCounterInRange(config, old(Vars()), o);
      }
    }

    /** Launches the switching command, if any, then the proximity command, if due. */
    method LaunchAll(switched: Option<Command>, prox: bool) returns (launched: seq<string>)
      ensures launched == ShellLines(config, Fired(switched, prox))
    {
      ghost var commands: seq<Command> := [];
      launched := [];
      if switched.Some? {
        var shell := Desktop.ShellLine(CommandText(config, switched.value), config.display, config.xauthority);
        if shell.Some? {
          launched := [shell.value];
        }
        commands := [switched.value];
        assert launched == ShellLines(config, commands);
      }
      if prox {
        var shell := Desktop.ShellLine(config.proxCmd, config.display, config.xauthority);
        ShellLinesAppend(config, commands, [ProximityCommand]);
        if shell.Some? {
          launched := launched + [shell.value];
        }
        commands := commands + [ProximityCommand];
      }
      assert commands == Fired(switched, prox);
    }

    /** The lock-state check, when it is due. */
    method CheckLockState(o: Observation)
      modifies this
      ensures Vars() == Resync(config, old(Vars()), o)
    {
      var unlockThreshold: int := -(config.unlockDistance as int);
      if o.desktopLocked.Some? && o.now - lastLockCheck >= LOCK_CHECK_INTERVAL {
        var expected := if o.desktopLocked.value then Gone else Active;
        if state != expected {
          if state == Active && expected == Gone {
            if o.best >= unlockThreshold as real && o.best != SENTINEL {
              durationCount := 1;
            } else {
              durationCount := 0;
            }
          } else {
            durationCount := 0;
          }
          state := expected;
        }
        lastLockCheck := o.now;
      }
    }

    /** The hysteresis for one tick; returns the command it fires, if any. */
    method CountTick(best: real) returns (fired: Option<Command>)
      modifies this
      ensures (Vars(), fired) == Hysteresis(config, old(Vars()), best)
    {
      var lockThreshold: int := -(config.lockDistance as int);
      var unlockThreshold: int := -(config.unlockDistance as int);
      fired := None;
      if state == Active {
        if best <= lockThreshold as real {
          durationCount := durationCount + 1;
          if durationCount >= config.lockDuration {
            state := Gone;
            fired := Some(LockCommand);
            durationCount := 0;
          }
        } else {
          durationCount := 0;
        }
      } else {
        if best >= unlockThreshold as real && best != SENTINEL {
          durationCount := durationCount + 1;
          if durationCount >= config.unlockDuration {
            state := Active;
            fired := Some(UnlockCommand);
            durationCount := 0;
          }
        } else {
          durationCount := 0;
        }
      }
    }

    /** The proximity command's schedule; returns whether it fires. */
    method ProximityTick(now: int) returns (fire: bool)
      modifies this
      ensures (Vars(), fire) == Proximity(config, old(Vars()), now)
    {
      fire := false;
      if state == Active && config.proxCmd != [] {
        if now - lastProxTime >= config.proxInterval {
          fire := true;
          lastProxTime := now;
        }
      }
    }
  }

  lemma {:induction false} ShellLinesAppend(cfg: GlobalConfig, a: seq<Command>, b: seq<Command>)
    ensures ShellLines(cfg, a + b) == ShellLines(cfg, a) + ShellLines(cfg, b)
    decreases |a|
  {
    if a == [] {
      assert a + b == b;
    } else {
      assert (a + b)[0] == a[0] && (a + b)[1..] == a[1..] + b;
      ShellLinesAppend(cfg, a[1..], b);
    }
  }
}

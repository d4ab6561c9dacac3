/**
 The supervisor of the tunnel agent: it restarts the agent when it exits or when its route
 stays unhealthy, with a growing wait.

 The outside world is a sequence of signals; what the supervisor does is written to a log.
 Times are in seconds.
 */
module TunnelSupervisor {
  import opened Common

  const INITIAL_RESTART_WAIT: nat := 5
  const MAXIMUM_RESTART_WAIT: nat := 5 * 60

  // What the select statement receives, with what the rest of that iteration will meet: whether
  // shutdown interrupts the wait before a restart, and whether the agent process starts.
  datatype Signal =
    | Cancelled
    | Exited(shuttingDown: bool, interrupted: bool, starts: bool)
    | Ticked(healthy: bool, interrupted: bool, starts: bool)

  // Nothing shuts the supervisor down.
  predicate Calm(signal: Signal) {
    !signal.Cancelled? && (signal.Exited? ==> !signal.shuttingDown) && !signal.interrupted
  }

  datatype Entry =
    | Start(agent: nat, ok: bool)
    | Gone(agent: nat)                   // the agent was found to have exited
    | Stop(agent: nat)                   // terminated, or killed, and waited for
    | Probe(healthy: bool)
    | Wait(seconds: nat, unhealthy: bool)

  datatype Outcome = NoCommand | BadConfig | StartFailed | Stopped | Running

  type Log = seq<Entry>

  function Butlast(log: Log): Log
    requires log != []
  {
    log[..|log| - 1]
  }

  function Last(log: Log): Entry
    requires log != []
  {
    log[|log| - 1]
  }

  // ---------------------------------------------------------------- reading a log

  // The agents that have started and have neither exited nor been stopped.
  function Alive(log: Log): set<nat> {
    if log == [] then {} else AliveAfter(Alive(Butlast(log)), Last(log))
  }

  function AliveAfter(alive: set<nat>, e: Entry): set<nat> {
    match e
    case Start(a, ok) => if ok then alive + {a} else alive
    case Gone(a) => alive - {a}
    case Stop(a) => alive - {a}
    case _ => alive
  }

  // Failed probes in a row, with no healthy probe, exit or restart between.
  function Streak(log: Log): nat {
    if log == [] then 0 else StreakAfter(Streak(Butlast(log)), Last(log))
  }

  function StreakAfter(streak: nat, e: Entry): nat {
    match e
    case Probe(healthy) => if healthy then 0 else streak + 1
    case Stop(_) => streak
    case _ => 0
  }

  // Restarts since the last healthy probe, or since the beginning.
  function Restarts(log: Log): nat {
    if log == [] then 0
    else if Last(log) == Probe(true) then 0
    else Restarts(Butlast(log)) + (if Last(log).Wait? then 1 else 0)
  }

  // The first wait of a series of restarts: a healthy probe sets it to the built-in one.
  function FirstWait(log: Log, initialWait: nat): nat {
    if log == [] then initialWait
    else if Last(log) == Probe(true) then INITIAL_RESTART_WAIT
    else FirstWait(Butlast(log), initialWait)
  }

  function Doubled(wait: nat, k: nat): nat {
    if k == 0 then wait else 2 * Doubled(wait, k - 1)
  }

  // The wait before the restart that `k` others precede.
  function Backoff(first: nat, k: nat): nat {
    if k == 0 then first else Min(Doubled(first, k), MAXIMUM_RESTART_WAIT)
  }

  function NextRestartWait(wait: nat): nat {
    if wait * 2 > MAXIMUM_RESTART_WAIT then MAXIMUM_RESTART_WAIT else wait * 2
  }

  lemma BackoffGrows(first: nat, k: nat)
    ensures NextRestartWait(Backoff(first, k)) == Backoff(first, k + 1)
  {
    assert Doubled(first, k + 1) == 2 * Doubled(first, k);
  }

  function Starts(log: Log): nat {
    if log == [] then 0 else Starts(Butlast(log)) + (if Last(log).Start? then 1 else 0)
  }

  // What a log and a run of signals have in common: probe results and exits, in order.
  datatype Sight = Probed(healthy: bool) | Left

  function Seen(log: Log): seq<Sight> {
    if log == [] then [] else Seen(Butlast(log)) + SightOf(Last(log))
  }

  function SightOf(e: Entry): seq<Sight> {
    match e
    case Probe(healthy) => [Probed(healthy)]
    case Gone(_) => [Left]
    case _ => []
  }

  function Sights(feed: seq<Signal>): seq<Sight> {
    if feed == [] then [] else Sights(feed[..|feed| - 1]) + SightIn(feed[|feed| - 1])
  }

  function SightIn(signal: Signal): seq<Sight> {
    match signal
    case Cancelled => []
    case Exited(_, _, _) => [Left]
    case Ticked(healthy, _, _) => [Probed(healthy)]
  }

  // ---------------------------------------------------------------- reading the signals

  // Failed probes in a row at the end of the signals, since the last success, exit or restart.
  function Failing(feed: seq<Signal>, threshold: nat): nat {
    if feed == [] then 0
    else
      var before := Failing(feed[..|feed| - 1], threshold);
      match feed[|feed| - 1]
      case Cancelled => before
      case Exited(_, _, _) => 0
      case Ticked(healthy, _, _) => if healthy || before + 1 >= threshold then 0 else before + 1
  }

  // The k-th signal is the probe that makes the streak long enough for a restart.
  predicate Completes(feed: seq<Signal>, k: nat, threshold: nat)
    requires k < |feed|
  {
    feed[k].Ticked? && !feed[k].healthy && Failing(feed[..k], threshold) + 1 >= threshold
  }

  // The k-th signal shuts the supervisor down: the end of the context, an exit while it ends, or
  // the end of the context during the wait of a restart that this signal brings about.
  predicate Ends(feed: seq<Signal>, k: nat, threshold: nat)
    requires k < |feed|
  {
    match feed[k]
    case Cancelled => true
    case Exited(shuttingDown, interrupted, _) => shuttingDown || interrupted
    case Ticked(_, interrupted, _) => interrupted && Completes(feed, k, threshold)
  }

  // What one signal does, given the failed probes before it.
  predicate Stops(signal: Signal, failures: nat, threshold: nat) {
    match signal
    case Cancelled => true
    case Exited(shuttingDown, interrupted, _) => shuttingDown || interrupted
    case Ticked(healthy, interrupted, _) => !healthy && failures + 1 >= threshold && interrupted
  }

  lemma {:induction false} FailingGrows(feed: seq<Signal>, i: nat, threshold: nat)
    requires i < |feed|
    ensures Failing(feed[..i + 1], threshold) ==
      match feed[i]
      case Cancelled => Failing(feed[..i], threshold)
      case Exited(_, _, _) => 0
      case Ticked(healthy, _, _) =>
        if healthy || Failing(feed[..i], threshold) + 1 >= threshold then 0 else Failing(feed[..i], threshold) + 1
    ensures Ends(feed, i, threshold) <==> Stops(feed[i], Failing(feed[..i], threshold), threshold)
  {
    assert feed[..i + 1][..i] == feed[..i];
  }

  // ---------------------------------------------------------------- what an entry may follow

  /** A proper log: agents start one at a time and only at the beginning or after a wait, every
      exit leads to a wait, a streak of failed probes as long as the threshold leads to one too,
      and each wait is the next of its back-off series. */
  predicate Follows(log: Log, e: Entry, threshold: nat, initialWait: nat) {
    && (log != [] && Last(log).Wait? ==> e.Start?)
    && (log != [] && (Last(log).Gone? || Last(log).Stop?) ==> e.Wait?)
    && match e
       case Start(a, _) => Alive(log) == {} && a == Starts(log) && (log == [] || Last(log).Wait?)
       case Gone(a) => Alive(log) <= {a} && Streak(log) < threshold
       case Stop(a) => Alive(log) <= {a}
       case Probe(_) => Streak(log) < threshold
       case Wait(seconds, unhealthy) =>
         && Alive(log) == {} && log != []
         && seconds == Backoff(FirstWait(log, initialWait), Restarts(log))
         && (if unhealthy then Streak(log) == threshold else Last(log).Gone?)
  }

  predicate Proper(log: Log, threshold: nat, initialWait: nat) {
    log == [] ||
    (Proper(Butlast(log), threshold, initialWait) && Follows(Butlast(log), Last(log), threshold, initialWait))
  }

  lemma {:induction false} Grown(log: Log, e: Entry, threshold: nat, initialWait: nat)
    ensures var after := log + [e];
      && after != [] && Last(after) == e
      && Alive(after) == AliveAfter(Alive(log), e)
      && Streak(after) == StreakAfter(Streak(log), e)
      && Restarts(after) == (if e == Probe(true) then 0 else Restarts(log) + (if e.Wait? then 1 else 0))
      && FirstWait(after, initialWait)
           == (if e == Probe(true) then INITIAL_RESTART_WAIT else FirstWait(log, initialWait))
      && Starts(after) == Starts(log) + (if e.Start? then 1 else 0)
      && Seen(after) == Seen(log) + SightOf(e)
      && (Proper(after, threshold, initialWait) <==>
            Proper(log, threshold, initialWait) && Follows(log, e, threshold, initialWait))
  {
    assert Butlast(log + [e]) == log && Last(log + [e]) == e;
  }

  // ---------------------------------------------------------------- the supervisor

  // An agent is up or its last start failed; the supervisor is about to select.
  ghost predicate Selecting(log: Log, agent: nat, process: bool, failures: nat, restartWait: nat,
        threshold: nat, initialWait: nat) {
    && Proper(log, threshold, initialWait)
    && log != [] && (Last(log).Start? || Last(log).Probe?)
    && Alive(log) == (if process then {agent} else {}) && Starts(log) == agent + 1
    && failures == Streak(log) < threshold
    && restartWait == Backoff(FirstWait(log, initialWait), Restarts(log))
  }

  // The agent is gone or stopped; the wait comes next.
  ghost predicate Halted(log: Log, agent: nat, restartWait: nat, unhealthy: bool, threshold: nat, initialWait: nat) {
    && Proper(log, threshold, initialWait)
    && log != [] && !Last(log).Wait?
    && Alive(log) == {} && Starts(log) == agent + 1
    && restartWait == Backoff(FirstWait(log, initialWait), Restarts(log))
    && (if unhealthy then Streak(log) == threshold else Last(log).Gone?)
  }

  // The select statement received the end of the context, or the agent is to be restarted.
  method StopAgent(log: Log, agent: nat, process: bool, ghost threshold: nat, ghost initialWait: nat)
    returns (after: Log)
    requires Proper(log, threshold, initialWait) && log != [] && (Last(log).Start? || Last(log).Probe?)
    requires Alive(log) <= if process then {agent} else {}
    ensures Proper(after, threshold, initialWait) && Alive(after) == {}
    ensures after != [] && !Last(after).Wait? && Starts(after) == Starts(log)
    ensures Streak(log) == threshold ==> Streak(after) == threshold
    ensures Restarts(after) == Restarts(log) && FirstWait(after, initialWait) == FirstWait(log, initialWait)
    ensures Seen(after) == Seen(log)
  {
    hide Alive, Streak, Restarts, FirstWait, Starts, Seen, Proper;
    if !process {
      return log;
    }
    Grown(log, Stop(agent), threshold, initialWait);
    after := log + [Stop(agent)];
  }

  // Wait, start the next agent, and double the wait.
  method Restart(log: Log, agent: nat, restartWait: nat, unhealthy: bool, interrupted: bool, starts: bool,
                 ghost threshold: nat, ghost initialWait: nat)
    returns (after: Log, next: nat, wait: nat)
    requires Halted(log, agent, restartWait, unhealthy, threshold, initialWait) && threshold > 0
    ensures Seen(after) == Seen(log)
    ensures interrupted ==> Proper(after, threshold, initialWait) && Alive(after) == {}
    ensures !interrupted ==> Selecting(after, next, starts, 0, wait, threshold, initialWait)
  {
    hide Alive, Streak, Restarts, FirstWait, Starts, Seen, Proper, Backoff;
    after, next, wait := log + [Wait(restartWait, unhealthy)], agent, restartWait;
    Grown(log, Wait(restartWait, unhealthy), threshold, initialWait);
    if interrupted {
      return;
    }
    Grown(after, Start(agent + 1, starts), threshold, initialWait);
    next := agent + 1;
    after := after + [Start(next, starts)];
    BackoffGrows(FirstWait(log, initialWait), Restarts(log));
    wait := NextRestartWait(restartWait);
  }

  // case err := <-done.
  method OnExit(log: Log, agent: nat, process: bool, failures: nat, restartWait: nat, signal: Signal,
                ghost threshold: nat, ghost initialWait: nat)
    returns (stopped: bool, after: Log, next: nat, wait: nat)
    requires signal.Exited? && threshold > 0
    requires Selecting(log, agent, process, failures, restartWait, threshold, initialWait)
    ensures Seen(after) == Seen(log) + [Left]
    ensures stopped <==> signal.shuttingDown || signal.interrupted
    ensures stopped ==> Proper(after, threshold, initialWait) && Alive(after) == {}
    ensures !stopped ==> Selecting(after, next, signal.starts, 0, wait, threshold, initialWait)
  {
    hide Alive, Streak, Restarts, FirstWait, Starts, Seen, Proper;
    Grown(log, Gone(agent), threshold, initialWait);
    after, next, wait := log + [Gone(agent)], agent, restartWait;
    if signal.shuttingDown {
      return true, after, next, wait;
    }
    after, next, wait :=
      Restart(after, agent, restartWait, false, signal.interrupted, signal.starts, threshold, initialWait);
    stopped := signal.interrupted;
  }

  // case <-ticker.C.
  method OnTick(log: Log, agent: nat, process: bool, failures: nat, restartWait: nat, signal: Signal, threshold: nat,
                ghost initialWait: nat)
    returns (stopped: bool, after: Log, next: nat, up: bool, failed: nat, wait: nat)
    requires signal.Ticked? && threshold > 0
    requires Selecting(log, agent, process, failures, restartWait, threshold, initialWait)
    ensures Seen(after) == Seen(log) + [Probed(signal.healthy)]
    ensures stopped <==> !signal.healthy && failures + 1 >= threshold && signal.interrupted
    ensures !stopped ==> failed == if signal.healthy || failures + 1 >= threshold then 0 else failures + 1
    ensures stopped ==> Proper(after, threshold, initialWait) && Alive(after) == {}
    ensures !stopped ==> Selecting(after, next, up, failed, wait, threshold, initialWait)
  {
    hide Alive, Streak, Restarts, FirstWait, Starts, Seen, Proper;
    Grown(log, Probe(signal.healthy), threshold, initialWait);
    after := log + [Probe(signal.healthy)];
    stopped, next, up, failed, wait := false, agent, process, failures, restartWait;
    if !signal.healthy {
      failed := failed + 1;
    } else {
      failed := 0;
      wait := INITIAL_RESTART_WAIT;
    }
    if failed >= threshold {
      after := StopAgent(after, agent, process, threshold, initialWait);
      after, next, wait := Restart(after, agent, wait, true, signal.interrupted, signal.starts, threshold, initialWait);
      stopped, up, failed := signal.interrupted, signal.starts, 0;
    }
  }

  // One iteration of the loop.
  method React(log: Log, agent: nat, process: bool, failures: nat, restartWait: nat, signal: Signal, threshold: nat,
               ghost initialWait: nat)
    returns (stopped: bool, after: Log, next: nat, up: bool, failed: nat, wait: nat)
    requires threshold > 0 && Selecting(log, agent, process, failures, restartWait, threshold, initialWait)
    ensures Seen(after) == Seen(log) + SightIn(signal)
    ensures stopped <==> Stops(signal, failures, threshold)
    ensures stopped ==> Proper(after, threshold, initialWait) && Alive(after) == {}
    ensures !stopped ==> Selecting(after, next, up, failed, wait, threshold, initialWait)
    ensures !stopped ==>
      match signal
      case Cancelled => failed == failures
      case Exited(_, _, _) => failed == 0
      case Ticked(healthy, _, _) => failed == if healthy || failures + 1 >= threshold then 0 else failures + 1
  {
    hide Alive, Streak, Restarts, FirstWait, Starts, Seen, Proper;
    stopped, after, next, up, failed, wait := true, log, agent, process, failures, restartWait;
    match signal {
      case Cancelled =>
        after := StopAgent(log, agent, process, threshold, initialWait);
      case Exited(_, _, starts) =>
        stopped, after, next, wait :=
          OnExit(log, agent, process, failures, restartWait, signal, threshold, initialWait);
        up, failed := starts, 0;
      case Ticked(_, _, _) =>
        stopped, after, next, up, failed, wait :=
          OnTick(log, agent, process, failures, restartWait, signal, threshold, initialWait);
    }
  }

  method RunSupervisor(command: nat, interval: int, threshold: int, initialWait: nat, firstStarts: bool,
        feed: seq<Signal>)
    returns (outcome: Outcome, log: Log)
    ensures command == 0 ==> outcome == NoCommand && log == []
    ensures command > 0 && (interval <= 0 || threshold < 1) ==> outcome == BadConfig && log == []
    ensures command > 0 && interval > 0 && threshold >= 1 ==>
      && (if firstStarts then outcome == Running || outcome == Stopped
          else outcome == StartFailed && log == [Start(0, false)])
      && Proper(log, threshold, initialWait)
      && (outcome == Stopped ==> Alive(log) == {})
      && (outcome == Running ==>
            && (forall k :: 0 <= k < |feed| ==> !Ends(feed, k, threshold))
            && Seen(log) == Sights(feed)
            && log != [] && (Last(log).Start? || Last(log).Probe?) && Streak(log) < threshold)
      && (outcome == Stopped ==>
            exists k :: 0 <= k < |feed| && Ends(feed, k, threshold) && Seen(log) == Sights(feed[..k + 1])
                        && forall i :: 0 <= i < k ==> !Ends(feed, i, threshold))
      && ((forall k :: 0 <= k < |feed| ==> Calm(feed[k])) ==> outcome != Stopped)
  {
    hide *;
    log := [];
    if command == 0 {
      return NoCommand, log;
    }
    if interval <= 0 || threshold < 1 {
      return BadConfig, log;
    }
    var restartWait: nat, agent: nat, process, failures: nat := initialWait, 0, firstStarts, 0;
    FirstStart(process, threshold, initialWait);
    log := [Start(agent, process)];
    if !process {
      AtSelect(log, agent, process, failures, restartWait, threshold, initialWait);
      return StartFailed, log;
    }
    for i := 0 to |feed|
      invariant Selecting(log, agent, process, failures, restartWait, threshold, initialWait)
      invariant Seen(log) == Sights(feed[..i]) && failures == Failing(feed[..i], threshold)
      invariant forall k :: 0 <= k < i ==> !Ends(feed, k, threshold)
    {
      SightsGrow(feed, i);
      FailingGrows(feed, i, threshold);
      var stopped;
      stopped, log, agent, process, failures, restartWait :=
        React(log, agent, process, failures, restartWait, feed[i], threshold, initialWait);
      if stopped {
        CalmGoesOn(feed, i, threshold);
        return Stopped, log;
      }
    }
    assert feed[..|feed|] == feed;
    AtSelect(log, agent, process, failures, restartWait, threshold, initialWait);
    return Running, log;
  }

  lemma {:induction false} FirstStart(process: bool, threshold: nat, initialWait: nat)
    requires threshold > 0
    ensures Selecting([Start(0, process)], 0, process, 0, initialWait, threshold, initialWait)
    ensures Seen([Start(0, process)]) == [] && Sights([]) == [] && Failing([], threshold) == 0
  {
    hide Alive, Streak, Restarts, FirstWait, Starts, Seen, Proper, Sights, Failing;
    EmptyLog(threshold, initialWait);
    Grown([], Start(0, process), threshold, initialWait);
    assert [] + [Start(0, process)] == [Start(0, process)];
  }

  lemma {:induction false} EmptyLog(threshold: nat, initialWait: nat)
    ensures Alive([]) == {} && Streak([]) == 0 && Restarts([]) == 0 && FirstWait([], initialWait) == initialWait
    ensures Starts([]) == 0 && Seen([]) == [] && Proper([], threshold, initialWait)
    ensures Sights([]) == [] && Failing([], threshold) == 0
  {
  }

  lemma CalmGoesOn(feed: seq<Signal>, k: nat, threshold: nat)
    requires k < |feed|
    ensures Calm(feed[k]) ==> !Ends(feed, k, threshold)
  {
  }

  lemma {:induction false} AtSelect(
    log: Log, agent: nat, process: bool, failures: nat, restartWait: nat, threshold: nat, initialWait: nat)
    requires Selecting(log, agent, process, failures, restartWait, threshold, initialWait)
    ensures Proper(log, threshold, initialWait)
    ensures log != [] && (Last(log).Start? || Last(log).Probe?) && Streak(log) < threshold
  {
  }

  lemma SightsGrow(feed: seq<Signal>, i: nat)
    requires i < |feed|
    ensures Sights(feed[..i + 1]) == Sights(feed[..i]) + SightIn(feed[i])
  {
    assert feed[..i + 1][..i] == feed[..i];
  }

  // ---------------------------------------------------------------- theorems

  lemma {:induction false} ProperPrefix(log: Log, threshold: nat, initialWait: nat, n: nat)
    requires Proper(log, threshold, initialWait) && n <= |log|
    ensures Proper(log[..n], threshold, initialWait)
    ensures n < |log| ==> Follows(log[..n], log[n], threshold, initialWait)
    decreases |log|
  {
    if n < |log| {
      var shorter := Butlast(log);
      assert shorter[..n] == log[..n];
      ProperPrefix(shorter, threshold, initialWait, n);
      assert n == |log| - 1 ==> shorter == log[..n];
    } else {
      assert log[..n] == log;
    }
  }

  /** At every moment of every run at most one agent is alive. */
  lemma {:induction false} OneAgentAlive(log: Log, threshold: nat, initialWait: nat, n: nat)
    requires Proper(log, threshold, initialWait) && n <= |log|
    ensures |Alive(log[..n])| <= 1
  {
    ProperPrefix(log, threshold, initialWait, n);
    AliveIsCurrent(log[..n], threshold, initialWait);
  }

  lemma {:induction false} AliveIsCurrent(log: Log, threshold: nat, initialWait: nat)
    requires Proper(log, threshold, initialWait)
    ensures |Alive(log)| <= 1
    decreases |log|
  {
    if log != [] {
      AliveIsCurrent(Butlast(log), threshold, initialWait);
      var before := Alive(Butlast(log));
      match Last(log)
      case Start(a, ok) => assert before == {};
      case Gone(a) => assert Alive(log) == {};
      case Stop(a) => assert Alive(log) == {};
      case _ =>
    }
  }

  // The entries from m on are failed probes, `k` of them, and stops.
  predicate OnlyFailures(log: Log, m: nat, k: nat)
    requires m <= |log|
    decreases |log|
  {
    if m == |log| then k == 0
    else if Last(log) == Probe(false) then k > 0 && OnlyFailures(Butlast(log), m, k - 1)
    else Last(log).Stop? && OnlyFailures(Butlast(log), m, k)
  }

  lemma {:induction false} StreakIsARun(log: Log)
    ensures exists m: nat :: m <= |log| && OnlyFailures(log, m, Streak(log))
    decreases |log|
  {
    if log == [] || (Last(log) != Probe(false) && !Last(log).Stop?) {
      assert Streak(log) == 0 && OnlyFailures(log, |log|, 0);
    } else {
      StreakIsARun(Butlast(log));
      var m: nat :| m <= |Butlast(log)| && OnlyFailures(Butlast(log), m, Streak(Butlast(log)));
      assert OnlyFailures(log, m, Streak(log));
    }
  }

  /** The supervisor restarts a running agent only on `threshold` failed probes in a row, with no
      healthy probe, exit or restart between, and it never probes on after that many. */
  lemma {:induction false} HealthRestartNeedsStreak(log: Log, threshold: nat, initialWait: nat, n: nat)
    requires Proper(log, threshold, initialWait) && n < |log|
    ensures log[n].Wait? && log[n].unhealthy ==> exists m: nat :: m <= n && OnlyFailures(log[..n], m, threshold)
    ensures log[n].Wait? && !log[n].unhealthy ==> n > 0 && log[n - 1].Gone?
    ensures log[n].Probe? ==> Streak(log[..n]) < threshold
  {
    ProperPrefix(log, threshold, initialWait, n);
    StreakIsARun(log[..n]);
  }

  /** With the built-in first wait, the restart that k others precede since the last healthy
      probe waits five seconds doubled k times, at most five minutes. */
  lemma {:induction false} BackoffSchedule(log: Log, threshold: nat, n: nat)
    requires Proper(log, threshold, INITIAL_RESTART_WAIT) && n < |log| && log[n].Wait?
    ensures log[n].seconds == Min(Doubled(5, Restarts(log[..n])), 300)
  {
    ProperPrefix(log, threshold, INITIAL_RESTART_WAIT, n);
    FirstWaitIsBuiltIn(log[..n]);
  }

  lemma {:induction false} FirstWaitIsBuiltIn(log: Log)
    ensures FirstWait(log, INITIAL_RESTART_WAIT) == INITIAL_RESTART_WAIT
    decreases |log|
  {
    if log != [] {
      FirstWaitIsBuiltIn(Butlast(log));
    }
  }
}

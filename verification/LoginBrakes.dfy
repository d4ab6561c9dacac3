/**
 Brute-force brakes: an expiring failure counter, the cool-down slot of an account taken with
 SET NX, and the answers of the lockout.

 Times are in milliseconds; settings are in seconds.
 */
module LoginBrakes {
  import opened Common

  const MILLIS: nat := 1000

  // A counter key. Until EXPIRE has run on it, it has no deadline.
  datatype Counter = Counter(count: nat, deadline: Option<int>)

  predicate Live(c: Option<Counter>, now: nat) {
    c.Some? && (c.value.deadline.Some? ==> now < c.value.deadline.value)
  }

  // GET, with 0 for a missing key.
  function Count(c: Option<Counter>, now: nat): nat {
    if Live(c, now) then c.value.count else 0
  }

  // INCR keeps the deadline of a key that exists.
  function Incremented(c: Option<Counter>, now: nat): Option<Counter> {
    Some(if Live(c, now) then c.value.(count := c.value.count + 1) else Counter(1, None))
  }

  // EXPIRE.
  function Windowed(c: Option<Counter>, now: nat, window: nat): Option<Counter> {
    if Live(c, now) then Some(c.value.(deadline := Some(now + window * MILLIS))) else c
  }

  predicate Taken(slot: Option<int>, now: nat) {
    slot.Some? && now < slot.value
  }

  // SET slot 1 EX cooldown NX.
  function Took(slot: Option<int>, now: nat, cooldown: nat): Option<int> {
    if Taken(slot, now) then slot else Some(now + cooldown * MILLIS)
  }

  // TTL, which rounds to whole seconds.
  function Ttl(slot: Option<int>, now: nat): int {
    if Taken(slot, now) then (slot.value - now + 500) / MILLIS else -2
  }

  // account_cooldown_service.py, for one account.
  class Cooldown {
    const threshold: nat
    const cooldown: nat
    const window: nat
    var failures: Option<Counter>
    var slot: Option<int>

    constructor (threshold: nat, cooldown: nat, window: nat)
      ensures this.threshold == threshold && this.cooldown == cooldown && this.window == window
      ensures failures == None && slot == None
    {
      this.threshold, this.cooldown, this.window := threshold, cooldown, window;
      failures, slot := None, None;
    }

    /** 0 exactly when the attempt may proceed: below the threshold, or with the slot taken for
        it. Otherwise nothing changes, and the answer is the time the slot is still taken, rounded
        to the nearest second but never less than 1. */
    method RemainingSeconds(now: nat) returns (wait: nat)
      modifies this`slot
      ensures wait == 0 <==> Count(failures, now) < threshold || old(slot) == None || old(slot).value <= now
      ensures slot == if wait == 0 && Count(failures, now) >= threshold then Some(now + cooldown * 1000) else old(slot)
      ensures wait > 0 ==> slot.value - now - 500 < wait * 1000
      ensures wait > 1 ==> wait * 1000 <= slot.value - now + 500
    {
      if Count(failures, now) < threshold {
        return 0;
      }
      if !Taken(slot, now) {
        slot := Some(now + cooldown * MILLIS);
        return 0;
      }
      wait := Max(1, Ttl(slot, now));
    }

    method RecordFailure(now: nat) returns (crossed: bool)
      modifies this`failures
      ensures failures == Some(
        if Count(old(failures), now) > 0 then old(failures).value.(count := old(failures).value.count + 1)
        else Counter(1, Some(now + window * 1000)))
      ensures crossed <==> Count(old(failures), now) + 1 == threshold
      ensures window > 0 ==> Count(failures, now) == Count(old(failures), now) + 1
    {
      failures := Incremented(failures, now);
      var count := failures.value.count;
      if count == 1 {
        failures := Windowed(failures, now, window);
      }
      return count == threshold;
    }

    method Reset()
      modifies this
      ensures failures == None && slot == None
      ensures forall now: nat :: Count(failures, now) == 0 && !Taken(slot, now)
    {
      failures, slot := None, None;
    }
  }

  // login_protection_service.py, for one key.
  class Lockout {
    const maxAttempts: nat
    const window: nat
    var failures: Option<Counter>

    constructor (maxAttempts: nat, window: nat)
      ensures this.maxAttempts == maxAttempts && this.window == window && failures == None
    {
      this.maxAttempts, this.window := maxAttempts, window;
      failures := None;
    }

    method IsLocked(now: nat) returns (locked: bool)
      ensures locked <==> Live(failures, now) && Count(failures, now) >= maxAttempts
    {
      locked := Live(failures, now) && failures.value.count >= maxAttempts;
    }

    /** A failure is allowed while it is among the first `maxAttempts` of the counter; a success
        is refused by a full counter and clears it otherwise. */
    method CheckAndRecord(success: bool, now: nat) returns (allowed: bool)
      modifies this`failures
      ensures success ==> (allowed <==> !(Live(old(failures), now) && Count(old(failures), now) >= maxAttempts))
      ensures success ==> failures == if allowed then None else old(failures)
      ensures !success ==> (allowed <==> Count(old(failures), now) < maxAttempts)
      ensures !success ==> failures == Some(
        if Count(old(failures), now) > 0 then old(failures).value.(count := old(failures).value.count + 1)
        else Counter(1, Some(now + window * 1000)))
    {
      if success {
        var locked := IsLocked(now);
        if locked {
          return false;
        }
        failures := None;
        return true;
      }
      failures := Incremented(failures, now);
      var count := failures.value.count;
      if count == 1 {
        failures := Windowed(failures, now, window);
      }
      return count <= maxAttempts;
    }

    /** A handler asks IsLocked first, to save the expensive check, and records the outcome after
        it. Undisturbed, the first answer foretells the second: a locked key refuses success and
        failure alike, and an unlocked one allows either, save a failure with no attempts allowed. */
    method AskThenRecord(success: bool, now: nat) returns (locked: bool, allowed: bool)
      modifies this`failures
      ensures allowed <==> !locked && (success || maxAttempts > 0)
      ensures locked && success ==> failures == old(failures)
      ensures !locked && success ==> failures == None
    {
      locked := IsLocked(now);
      allowed := CheckAndRecord(success, now);
    }
  }
}

/**
 The brakes of one account under any interleaving of attempts, one key-value command at a time.
 */
module BrakeRuns {
  import opened Common
  import opened LoginBrakes

  datatype Config = Config(threshold: nat, cooldown: nat, maxAttempts: nat, window: nat)

  // `opening` counts the requests that created the counter and have yet to run EXPIRE on it.
  datatype State = State(now: nat, failures: Option<Counter>, slot: Option<int>, opening: nat)

  datatype Action =
    | Tick(millis: nat)
    | Check           // an attempt reads the counter
    | TakeSlot        // an attempt that read the threshold or more runs SET NX
    | Fail            // INCR
    | Open            // EXPIRE, by a request whose INCR answered 1
    | Die             // such a request dies before its EXPIRE
    | Clear           // a sign-in deletes the keys

  predicate Enabled(s: State, act: Action) {
    act.Open? || act.Die? ==> s.opening > 0
  }

  function Apply(cf: Config, s: State, act: Action): State
    requires Enabled(s, act)
  {
    match act
    case Tick(d) => s.(now := s.now + d)
    case Check => s
    case TakeSlot => s.(slot := Took(s.slot, s.now, cf.cooldown))
    case Fail =>
      var c := Incremented(s.failures, s.now);
      s.(failures := c, opening := s.opening + (if Count(c, s.now) == 1 then 1 else 0))
    case Open => s.(failures := Windowed(s.failures, s.now, cf.window), opening := s.opening - 1)
    case Die => s.(opening := s.opening - 1)
    case Clear => s.(failures := None, slot := None)
  }

  datatype Run = Run(states: seq<State>, actions: seq<Action>)

  // A run from any state.
  predicate IsRun(cf: Config, run: Run) {
    && |run.states| == |run.actions| + 1
    && (forall i :: 0 <= i < |run.actions| ==>
          Enabled(run.states[i], run.actions[i]) &&
          run.states[i + 1] == Apply(cf, run.states[i], run.actions[i]))
  }

  // ---------------------------------------------------------------- the cool-down

  // Whether the action lets its attempt proceed.
  predicate Admits(cf: Config, s: State, act: Action) {
    (act.Check? && Count(s.failures, s.now) < cf.threshold) || (act.TakeSlot? && !Taken(s.slot, s.now))
  }

  function Admitted(cf: Config, run: Run, i: nat, j: nat): nat
    requires IsRun(cf, run) && i <= j < |run.states|
    decreases j
  {
    if i == j then 0
    else Admitted(cf, run, i, j - 1) + (if Admits(cf, run.states[j - 1], run.actions[j - 1]) then 1 else 0)
  }

  // From i to j the account stays at or over the threshold and no sign-in clears it.
  predicate Braking(cf: Config, run: Run, i: nat, j: nat)
    requires IsRun(cf, run) && i <= j < |run.states|
  {
    forall k :: i <= k < j ==>
      Count(run.states[k].failures, run.states[k].now) >= cf.threshold && !run.actions[k].Clear?
  }

  // Each admission pushes the slot's deadline at least one cool-down further.
  lemma {:induction false} SlotMovesOn(cf: Config, run: Run, i: nat, j: nat)
    requires IsRun(cf, run) && i <= j < |run.states| && Braking(cf, run, i, j)
    ensures run.states[i].now <= run.states[j].now
    ensures var n := Admitted(cf, run, i, j); n > 0 ==>
      && run.states[j].slot.Some?
      && run.states[i].now + n * (cf.cooldown * MILLIS) <= run.states[j].slot.value
      && run.states[j].slot.value <= run.states[j].now + cf.cooldown * MILLIS
    decreases j
  {
    if i < j {
      SlotMovesOn(cf, run, i, j - 1);
      var s, act, n := run.states[j - 1], run.actions[j - 1], Admitted(cf, run, i, j - 1);
      assert run.states[j] == Apply(cf, s, act);
      if Admits(cf, s, act) {
        assert act.TakeSlot?;
        assert (n + 1) * (cf.cooldown * MILLIS) == n * (cf.cooldown * MILLIS) + cf.cooldown * MILLIS;
      }
    }
  }

  /** The rate bound: while an account is braked, n attempts admitted in a span of time have
      n - 1 whole cool-downs between them, so n is at most span / cooldown + 1. */
  lemma {:induction false} RateBound(cf: Config, run: Run, i: nat, j: nat)
    requires IsRun(cf, run) && i <= j < |run.states| && Braking(cf, run, i, j)
    ensures run.states[i].now <= run.states[j].now
    ensures var n := Admitted(cf, run, i, j);
      n > 0 ==> (n - 1) * (cf.cooldown * MILLIS) <= run.states[j].now - run.states[i].now
  {
    SlotMovesOn(cf, run, i, j);
    OneStepLess(Admitted(cf, run, i, j), cf.cooldown * MILLIS);
  }

  lemma OneStepLess(n: nat, step: nat)
    ensures (n - 1) * step == n * step - step
  {
  }

  // ---------------------------------------------------------------- one life of the counter

  // The counter does not exist in state i and exists in every state after it up to j.
  predicate Lifetime(cf: Config, run: Run, i: nat, j: nat)
    requires IsRun(cf, run) && i <= j < |run.states|
  {
    && !Live(run.states[i].failures, run.states[i].now)
    && (forall k :: i < k <= j ==> Live(run.states[k].failures, run.states[k].now))
  }

  function Answer(s: State): nat {
    Count(s.failures, s.now) + 1
  }

  // Failures from i to j that were told they crossed the threshold.
  function Crossings(cf: Config, run: Run, i: nat, j: nat): nat
    requires IsRun(cf, run) && i <= j < |run.states|
    decreases j
  {
    if i == j then 0
    else Crossings(cf, run, i, j - 1) +
         (if run.actions[j - 1].Fail? && Answer(run.states[j - 1]) == cf.threshold then 1 else 0)
  }

  // Failures from i to j that the lockout answered as allowed.
  function Allowed(cf: Config, run: Run, i: nat, j: nat): nat
    requires IsRun(cf, run) && i <= j < |run.states|
    decreases j
  {
    if i == j then 0
    else Allowed(cf, run, i, j - 1) +
         (if run.actions[j - 1].Fail? && Answer(run.states[j - 1]) <= cf.maxAttempts then 1 else 0)
  }

  function Failures(cf: Config, run: Run, i: nat, j: nat): nat
    requires IsRun(cf, run) && i <= j < |run.states|
    decreases j
  {
    if i == j then 0
    else Failures(cf, run, i, j - 1) + (if run.actions[j - 1].Fail? then 1 else 0)
  }

  /** In one life of the counter it counts every failure; exactly one of them is told it crossed
      the threshold, once enough of them came; and exactly the first `maxAttempts` are allowed. */
  lemma {:induction false} LifetimeAnswers(cf: Config, run: Run, i: nat, j: nat)
    requires IsRun(cf, run) && i <= j < |run.states| && Lifetime(cf, run, i, j)
    ensures Count(run.states[j].failures, run.states[j].now) == Failures(cf, run, i, j)
    ensures Crossings(cf, run, i, j) == if 0 < cf.threshold <= Failures(cf, run, i, j) then 1 else 0
    ensures Allowed(cf, run, i, j) == Min(Failures(cf, run, i, j), cf.maxAttempts)
    decreases j
  {
    if i < j {
      LifetimeAnswers(cf, run, i, j - 1);
      assert run.states[j] == Apply(cf, run.states[j - 1], run.actions[j - 1]);
    }
  }

  /** Later failures do not slide the window: a counter that has a deadline is gone by then,
      unless another EXPIRE runs on it. */
  lemma {:induction false} WindowDoesNotSlide(cf: Config, run: Run, i: nat, j: nat)
    requires IsRun(cf, run) && i <= j < |run.states|
    requires forall k :: i <= k <= j ==> Live(run.states[k].failures, run.states[k].now)
    requires forall k :: i <= k < j ==> !run.actions[k].Open?
    requires run.states[i].failures.Some? && run.states[i].failures.value.deadline.Some?
    ensures run.states[j].failures.Some?
    ensures run.states[j].failures.value.deadline == run.states[i].failures.value.deadline
    ensures run.states[j].now < run.states[i].failures.value.deadline.value
    decreases j
  {
    if i < j {
      WindowDoesNotSlide(cf, run, i, j - 1);
      assert run.states[j] == Apply(cf, run.states[j - 1], run.actions[j - 1]);
    }
  }

  /** A counter gets a deadline exactly when some request runs EXPIRE in its life. */
  lemma {:induction false} DeadlineIff(cf: Config, run: Run, i: nat, j: nat)
    requires IsRun(cf, run) && i < j < |run.states| && Lifetime(cf, run, i, j)
    ensures run.states[j].failures.Some?
    ensures run.states[j].failures.value.deadline.Some? <==> exists k :: i < k < j && run.actions[k].Open?
    decreases j
  {
    assert run.states[j] == Apply(cf, run.states[j - 1], run.actions[j - 1]);
    if j - 1 > i {
      DeadlineIff(cf, run, i, j - 1);
    }
  }

  /** The deadline is one window after the last EXPIRE of the counter's life, so after the one of
      the request that made the counter if no other request found itself first. */
  lemma {:induction false} DeadlineIsLastOpening(cf: Config, run: Run, i: nat, k: nat, j: nat)
    requires IsRun(cf, run) && i < k < j < |run.states| && Lifetime(cf, run, i, j)
    requires run.actions[k].Open? && forall n :: k < n < j ==> !run.actions[n].Open?
    ensures run.states[j].failures.Some?
    ensures run.states[j].failures.value.deadline == Some(run.states[k].now + cf.window * 1000)
    decreases j
  {
    assert run.states[j] == Apply(cf, run.states[j - 1], run.actions[j - 1]);
    if k < j - 1 {
      DeadlineIsLastOpening(cf, run, i, k, j - 1);
    }
  }

  /** A counter lapses at a time it had set for itself, or not at all: over one life, and with
      nobody left who would run EXPIRE, the counter is there after any wait, counting every
      failure, if and only if EXPIRE never ran on it; otherwise it has a deadline. */
  lemma {:induction false} LapsesIffOpened(cf: Config, run: Run, i: nat, j: nat, d: nat)
    requires IsRun(cf, run) && i < j < |run.states| && Lifetime(cf, run, i, j)
    ensures var s := run.states[j]; var later := Apply(cf, s, Tick(d));
      && (!(exists k :: i < k < j && run.actions[k].Open?) ==>
            Live(later.failures, later.now) && Count(later.failures, later.now) == Failures(cf, run, i, j))
      && ((exists k :: i < k < j && run.actions[k].Open?) ==>
            s.failures.value.deadline.Some? && (Live(later.failures, later.now) <==>
              s.now + d < s.failures.value.deadline.value))
  {
    DeadlineIff(cf, run, i, j);
    LifetimeAnswers(cf, run, i, j);
  }

  /** A sign-in wipes the brakes: until the next failure the counter is gone, and until the next
      braked attempt the cool-down slot is free. */
  lemma {:induction false} SignInReleases(cf: Config, run: Run, i: nat, j: nat)
    requires IsRun(cf, run) && i < j < |run.states| && run.actions[i].Clear?
    ensures (forall k :: i < k < j ==> !run.actions[k].Fail?) ==> !Live(run.states[j].failures, run.states[j].now)
    ensures (forall k :: i < k < j ==> !run.actions[k].TakeSlot?) ==> !Taken(run.states[j].slot, run.states[j].now)
    decreases j
  {
    assert run.states[j] == Apply(cf, run.states[j - 1], run.actions[j - 1]);
    if i + 1 < j {
      SignInReleases(cf, run, i, j - 1);
    }
  }

  /** A counter whose creator died before EXPIRE never lapses: without a sign-in it is there
      after any time, with every failure counted. */
  lemma {:induction false} UnopenedNeverLapses(cf: Config, run: Run, i: nat, j: nat)
    requires IsRun(cf, run) && i <= j < |run.states|
    requires run.states[i].failures.Some? && run.states[i].failures.value.deadline == None && run.states[i].opening == 0
    requires forall k :: i <= k < j ==> !run.actions[k].Clear?
    requires run.states[i].failures.value.count > 0
    ensures Live(run.states[j].failures, run.states[j].now) && run.states[j].opening == 0
    ensures run.states[j].failures.value.deadline == None
    ensures Count(run.states[j].failures, run.states[j].now)
         == Count(run.states[i].failures, run.states[i].now) + Failures(cf, run, i, j)
    decreases j
  {
    if i < j {
      UnopenedNeverLapses(cf, run, i, j - 1);
      assert run.states[j] == Apply(cf, run.states[j - 1], run.actions[j - 1]);
    }
  }

  /** The state that UnopenedNeverLapses starts from is reached: one failure on an empty account,
      and the death of its request before EXPIRE. After any wait the counter is still there. */
  lemma DeathLeavesCounter(cf: Config, now: nat, d: nat) returns (run: Run)
    ensures IsRun(cf, run) && run.actions == [Fail, Die, Tick(d)]
    ensures run.states[0] == State(now, None, None, 0)
    ensures run.states[2].failures == Some(Counter(1, None)) && run.states[2].opening == 0
    ensures Live(run.states[3].failures, run.states[3].now) && run.states[3].now == now + d
  {
    var s0 := State(now, None, None, 0);
    var s1 := Apply(cf, s0, Fail);
    var s2 := Apply(cf, s1, Die);
    run := Run([s0, s1, s2, Apply(cf, s2, Tick(d))], [Fail, Die, Tick(d)]);
    UnopenedNeverLapses(cf, run, 2, 3);
  }
}

/**
 What a refresh request does about a token that was used before, over whole runs.
 */
module RotationReplay {
  import opened Common
  import opened RevocationKeys
  import opened VersionStore
  import opened KeyMigration
  import opened TokenClaims
  import opened RotationSystem
  import opened RotationInvariants
  import opened RotationTheorems
  import opened RotationReturns

  /** The response to a replay is exactly scoped. Any bump that a refresh request runs names the
      chain of the token it was given, never the account; and when that bump commits, every token
      of that chain minted by then is dead for ever, with everything rotated from it, while every
      token of every other chain is as alive as it was. */
  lemma {:induction false} ReuseResponseIsScoped(
    cf: Config, run: Run, k: nat, m: nat, j: nat, id: nat, t: string, d: string, n: nat)
    requires Good(cf) && IsRun(cf, run) && k < m < j <= |run.actions|
    requires run.actions[k].StartRefresh? && run.actions[k].id == id
    requires run.actions[m].Step? && run.actions[m].id == id
    requires id in run.states[m].requests && run.states[m].requests[id].BumpRead?
    requires t in run.states[m].minted
    ensures var p := run.actions[k].p; var token := run.states[m].minted[t].token;
      && run.states[m].requests[id].target == Chain(p.email, p.chain)
      && (token.email == p.email && token.chain == p.chain && Rotated(run.states[j], d, t, n) ==>
            !Alive(cf, run.states[j], d))
      && (token.chain != p.chain ==> (Alive(cf, run.states[m + 1], t) <==> Alive(cf, run.states[m], t)))
  {
    hide Good, Initial, Enabled, Apply, Rotated, Alive;
    StaysServing(cf, run, k, m, id);
    var p, q := run.actions[k].p, run.states[m].requests[id];
    var target := Chain(p.email, p.chain);
    assert q == BumpRead(target, q.read);
    if Rotated(run.states[j], d, t, n) && InScope(run.states[m].minted[t].token, target) {
      RevocationIsHonest(cf, run, m, j, id, run.actions[m].choice, target, q.read, t, d, n);
    }
    if run.states[m].minted[t].token.chain != p.chain {
      SparedInRun(cf, run, m, id, p.email, p.chain, q.read, t);
    }
  }

  lemma SparedInRun(cf: Config, run: Run, m: nat, id: nat, e: string, ch: string, read: nat, t: string)
    requires Good(cf) && IsRun(cf, run) && m < |run.actions|
    requires run.actions[m].Step? && run.actions[m].id == id && At(run.states[m], id, BumpRead(Chain(e, ch), read))
    requires t in run.states[m].minted && run.states[m].minted[t].token.chain != ch
    ensures Alive(cf, run.states[m + 1], t) <==> Alive(cf, run.states[m], t)
  {
    hide Good, Initial, Apply, Enabled, Version, Bumped;
    Reached(cf, run, m);
    assert RequestOk(cf, run.states[m], run.states[m].requests[id]);
    BumpCommits(cf, run, m, id, run.actions[m].choice, Chain(e, ch), read);
    hide Inv, IsRun;
    ChainBumpSparesOthers(cf, run.states[m], e, ch, read, t);
  }

  // ---------------------------------------------------------------- a response needs a cause

  // The request takes its token for one that was used before.
  predicate Responding(q: Request) {
    q.RefreshDuplicate? || q.RefreshUnrecorded? || Bumping(q)
  }

  // The claim was on record, or a marker of an older release was.
  predicate UsedBefore(s: State, q: Request) {
    (q.RefreshUnmarked? && q.p.jti in s.consumed) || (q.RefreshCurrent? && q.p.jti in s.markers)
  }

  // Nothing excuses the replay at this moment.
  predicate Unexcused(cf: Config, s: State, q: Request) {
    || (q.RefreshDuplicate? && cf.grace <= 0)
    || (q.RefreshDuplicate? && q.p.jti in s.consumed && !Excused(cf, s.now, s.consumed[q.p.jti], q.ip))
    || (q.RefreshUnrecorded? && !ExcusedByMarker(cf, s, q.p.jti, q.ip))
  }

  lemma NextResponding(cf: Config, s: State, q: Request, c: Choice)
    requires Rotating(q) || Bumping(q) || q == Closed
    requires Responding(NextPoint(cf, s, q, c))
    ensures Responding(q) || UsedBefore(s, q)
    ensures Bumping(NextPoint(cf, s, q, c)) ==> Bumping(q) || Unexcused(cf, s, q)
  {
    hide AccountCheck, ChainCheck, Version, Bumped;
  }

  lemma StepResponding(cf: Config, s: State, act: Action, id: nat)
    requires Good(cf) && Enabled(cf, s, act) && id in s.requests
    requires Rotating(s.requests[id]) || Bumping(s.requests[id]) || s.requests[id] == Closed
    requires id in Apply(cf, s, act).requests && Responding(Apply(cf, s, act).requests[id])
    ensures Responding(s.requests[id]) || UsedBefore(s, s.requests[id])
    ensures Bumping(Apply(cf, s, act).requests[id]) ==> Bumping(s.requests[id]) || Unexcused(cf, s, s.requests[id])
  {
    hide Good, NextPoint, Effect, MovedAll, Batch, Unexcused;
    if act.Step? && act.id == id {
      NextResponding(cf, s, s.requests[id], act.choice);
    }
  }

  // A rotation in progress, as far as a response is concerned.
  lemma RotatesOrBumps(cf: Config, run: Run, k: nat, j: nat, id: nat)
    requires Good(cf) && IsRun(cf, run) && k < j <= |run.actions|
    requires run.actions[k].StartRefresh? && run.actions[k].id == id
    ensures id in run.states[j].requests
    ensures var q := run.states[j].requests[id];
      (Rotating(q) && q.p == run.actions[k].p) || Bumping(q) || q == Closed
    ensures j == k + 1 ==> !Responding(run.states[j].requests[id])
  {
    StaysServing(cf, run, k, j, id);
    if j == k + 1 {
      hide Good;
      assert run.states[j] == Apply(cf, run.states[k], run.actions[k]);
    }
  }

  /** A token that was never used is never answered by a revocation: a request responds to a
      replay only if, while it ran, the claim of its token was on record, or a marker was. */
  lemma {:induction false} ResponseNeedsUse(cf: Config, run: Run, k: nat, j: nat, id: nat) returns (m: nat)
    requires Good(cf) && IsRun(cf, run) && k < j <= |run.actions|
    requires run.actions[k].StartRefresh? && run.actions[k].id == id
    requires id in run.states[j].requests && Responding(run.states[j].requests[id])
    ensures k < m < j && id in run.states[m].requests
    ensures UsedBefore(run.states[m], run.states[m].requests[id])
    ensures run.states[m].requests[id].p == run.actions[k].p
    decreases j
  {
    hide Good, Initial, Enabled, Apply, UsedBefore;
    RotatesOrBumps(cf, run, k, j, id);
    RotatesOrBumps(cf, run, k, j - 1, id);
    StepResponding(cf, run.states[j - 1], run.actions[j - 1], id);
    if Responding(run.states[j - 1].requests[id]) {
      m := ResponseNeedsUse(cf, run, k, j - 1, id);
    } else {
      m := j - 1;
      UseNamesToken(run.states[m], run.states[m].requests[id]);
    }
  }

  lemma UseNamesToken(s: State, q: Request)
    requires UsedBefore(s, q)
    ensures Rotating(q) && !Bumping(q)
  {
  }

  /** A replay within the grace from the claiming address is never answered by a revocation: a
      refresh request bumps only if, while it ran, nothing excused it. */
  lemma {:induction false} BumpWasUnexcused(cf: Config, run: Run, k: nat, j: nat, id: nat) returns (m: nat)
    requires Good(cf) && IsRun(cf, run) && k < j <= |run.actions|
    requires run.actions[k].StartRefresh? && run.actions[k].id == id
    requires id in run.states[j].requests && Bumping(run.states[j].requests[id])
    ensures k < m < j && id in run.states[m].requests
    ensures Unexcused(cf, run.states[m], run.states[m].requests[id])
    ensures run.states[m].requests[id].p == run.actions[k].p
    decreases j
  {
    hide Good, Initial, Enabled, Apply, Unexcused;
    RotatesOrBumps(cf, run, k, j, id);
    RotatesOrBumps(cf, run, k, j - 1, id);
    StepResponding(cf, run.states[j - 1], run.actions[j - 1], id);
    if Bumping(run.states[j - 1].requests[id]) {
      m := BumpWasUnexcused(cf, run, k, j - 1, id);
    } else {
      m := j - 1;
      ExcuseNamesToken(cf, run.states[m], run.states[m].requests[id]);
    }
  }

  lemma ExcuseNamesToken(cf: Config, s: State, q: Request)
    requires Unexcused(cf, s, q)
    ensures Rotating(q) && !Bumping(q)
  {
  }
}

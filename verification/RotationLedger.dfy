/**
 Single use of refresh tokens and conservation along a chain, over whole runs.
 */
module RotationLedger {
  import opened Common
  import opened RevocationKeys
  import opened VersionStore
  import opened KeyMigration
  import opened TokenClaims
  import opened RotationSystem
  import opened RotationInvariants
  import opened RotationClaims
  import opened RotationConservation
  import opened RotationTheorems

  // ---------------------------------------------------------------- grants and purges in a run

  // Action i is a request's attempt to claim this jti.
  predicate ClaimsAt(run: Run, i: nat, jti: string)
    requires i < |run.actions| && i < |run.states|
  {
    var s, act := run.states[i], run.actions[i];
    && act.Step? && act.id in s.requests && s.requests[act.id].RefreshUnmarked?
    && s.requests[act.id].p.jti == jti
  }

  // It is granted.
  predicate GrantsAt(run: Run, i: nat, jti: string)
    requires i < |run.actions| && i < |run.states|
  {
    ClaimsAt(run, i, jti) && jti !in run.states[i].consumed
  }

  predicate PurgesAt(run: Run, i: nat, jti: string)
    requires i < |run.actions|
  {
    run.actions[i].Purge? && jti in run.actions[i].jtis
  }

  // Only a purge removes a row, and only a claim adds one.
  lemma RegistryStep(cf: Config, s: State, act: Action, jti: string)
    requires Good(cf) && Enabled(cf, s, act)
    ensures var s' := Apply(cf, s, act);
      && (jti in s.consumed ==> (jti !in s'.consumed <==> act.Purge? && jti in act.jtis))
      && (jti !in s.consumed ==>
           (jti in s'.consumed <==>
              act.Step? && s.requests[act.id].RefreshUnmarked? && s.requests[act.id].p.jti == jti))
  {
    hide Good, MovedAll, Batch, NextPoint, Effect;
    if act.Step? {
      var q := s.requests[act.id];
      if q.RefreshUnmarked? {
        ClaimStep(cf, s, act.id, act.choice);
      } else {
        EffectLedger(cf, s, q, act.choice, jti);
      }
    }
  }

  lemma RegistryStepInRun(cf: Config, run: Run, i: nat, jti: string)
    requires Good(cf) && IsRun(cf, run) && i < |run.actions|
    ensures jti in run.states[i].consumed ==> (jti !in run.states[i + 1].consumed <==> PurgesAt(run, i, jti))
    ensures jti !in run.states[i].consumed ==> (jti in run.states[i + 1].consumed <==> GrantsAt(run, i, jti))
  {
    hide Good, Apply, Initial;
    RegistryStep(cf, run.states[i], run.actions[i], jti);
    assert run.actions[i].Step? ==> run.actions[i].id in run.states[i].requests;
  }

  // A row that was there and is gone was purged, with no grant since.
  lemma {:induction false} LastPurge(cf: Config, run: Run, i: nat, j: nat, jti: string) returns (k: nat)
    requires Good(cf) && IsRun(cf, run) && i < j <= |run.actions|
    requires jti in run.states[i].consumed && jti !in run.states[j].consumed
    ensures i <= k < j && PurgesAt(run, k, jti) && jti in run.states[k].consumed
    ensures forall m :: k < m < j ==> !GrantsAt(run, m, jti)
    decreases j
  {
    hide Good, Apply, Initial, Enabled;
    RegistryStepInRun(cf, run, j - 1, jti);
    if jti in run.states[j - 1].consumed {
      k := j - 1;
    } else {
      k := LastPurge(cf, run, i, j - 1, jti);
    }
  }

  lemma {:induction false} FreeUntilGranted(cf: Config, run: Run, k: nat, j: nat, jti: string)
    requires Good(cf) && IsRun(cf, run) && k <= j <= |run.actions|
    requires jti !in run.states[k].consumed
    requires forall m :: k <= m < j ==> !GrantsAt(run, m, jti)
    ensures jti !in run.states[j].consumed
    decreases j
  {
    hide Good, Apply, Initial, Enabled, GrantsAt;
    if k < j {
      FreeUntilGranted(cf, run, k, j - 1, jti);
      RegistryStepInRun(cf, run, j - 1, jti);
    }
  }

  // A request in the window of an expired token has been in it all along.
  lemma WindowStep(cf: Config, s: State, act: Action, id: nat, jti: string)
    requires Good(cf) && Enabled(cf, s, act) && Expired(s, jti)
    requires id in Apply(cf, s, act).requests && Window(Apply(cf, s, act).requests[id], jti)
    ensures id in s.requests && Window(s.requests[id], jti)
  {
    hide Good, Effect, NextPoint, MovedAll, Batch;
    if act.Step? && id == act.id {
      PointStaysInWindow(cf, s, s.requests[id], act.choice, jti);
    }
  }

  lemma {:induction false} WindowSinceExpiry(cf: Config, run: Run, k: nat, j: nat, id: nat, jti: string)
    requires Good(cf) && IsRun(cf, run) && k <= j <= |run.actions| && Expired(run.states[k], jti)
    requires id in run.states[j].requests && Window(run.states[j].requests[id], jti)
    ensures id in run.states[k].requests && Window(run.states[k].requests[id], jti)
    decreases j
  {
    hide Good, Apply, Initial, Enabled, Window;
    if k < j {
      RunRises(cf, run, k, j - 1);
      RunAges(cf, run, k, j - 1);
      WindowStep(cf, run.states[j - 1], run.actions[j - 1], id, jti);
      WindowSinceExpiry(cf, run, k, j - 1, id, jti);
    }
  }

  lemma {:induction false} RunAges(cf: Config, run: Run, k: nat, j: nat)
    requires Good(cf) && IsRun(cf, run) && k <= j <= |run.actions|
    ensures run.states[k].now <= run.states[j].now
    decreases j
  {
    hide Good, Apply, Initial, Enabled;
    if k < j {
      RunAges(cf, run, k, j - 1);
      TimePasses(cf, run.states[j - 1], run.actions[j - 1]);
    }
  }

  // ---------------------------------------------------------------- single use

  // Action k purges the row of this jti under the request that claims it at j, and nobody is
  // granted the claim in between.
  ghost predicate Overtakes(run: Run, k: nat, j: nat, jti: string)
    requires k < j < |run.actions| && j < |run.states|
  {
    && PurgesAt(run, k, jti)
    && run.actions[j].Step? && run.actions[j].id in run.states[k].requests
    && Window(run.states[k].requests[run.actions[j].id], jti)
    && forall m :: k < m < j ==> !GrantsAt(run, m, jti)
  }

  /** Single use over whole runs, exactly: after a claim has been granted, a later attempt at it
      is granted if and only if, in between, the row was purged while that very request was
      between decoding the token and claiming it, and nobody else was granted the claim since. */
  lemma ClaimedAgainIff(cf: Config, run: Run, i: nat, j: nat, jti: string)
    requires Good(cf) && IsRun(cf, run) && i < j < |run.actions|
    requires GrantsAt(run, i, jti) && ClaimsAt(run, j, jti)
    ensures GrantsAt(run, j, jti) <==> exists k :: i < k < j && Overtakes(run, k, j, jti)
  {
    hide Good, Apply, Initial, Enabled, Window;
    RegistryStepInRun(cf, run, i, jti);
    if GrantsAt(run, j, jti) {
      var k := LastPurge(cf, run, i + 1, j, jti);
      PurgedIsExpired(cf, run, k, jti);
      InWindow(cf, run, j, jti);
      WindowSinceExpiry(cf, run, k, j, run.actions[j].id, jti);
      assert Overtakes(run, k, j, jti);
    }
    if k: nat :| i < k < j && Overtakes(run, k, j, jti) {
      AfterPurge(cf, run, k, jti);
      FreeUntilGranted(cf, run, k + 1, j, jti);
    }
  }

  lemma AfterPurge(cf: Config, run: Run, k: nat, jti: string)
    requires Good(cf) && IsRun(cf, run) && k < |run.actions| && PurgesAt(run, k, jti)
    ensures jti !in run.states[k + 1].consumed
  {
    assert Enabled(cf, run.states[k], run.actions[k]);
  }

  // The clean-up removes only claims of expired tokens.
  lemma PurgedIsExpired(cf: Config, run: Run, k: nat, jti: string)
    requires Good(cf) && IsRun(cf, run) && k < |run.actions|
    requires PurgesAt(run, k, jti) && jti in run.states[k].consumed
    ensures Expired(run.states[k], jti)
  {
    assert ClaimsOk(run.states[k]) by { Reached(cf, run, k); }
    assert Enabled(cf, run.states[k], run.actions[k]);
    hide IsRun, ClaimsOk, Good;
    LapsedClaim(run.states[k], jti);
  }

  lemma LapsedClaim(s: State, jti: string)
    requires ClaimsOk(s) && jti in s.consumed && s.consumed[jti].expires < s.now
    ensures Expired(s, jti)
  {
  }

  // A request about to claim is in the window of its token.
  lemma InWindow(cf: Config, run: Run, j: nat, jti: string)
    requires Good(cf) && IsRun(cf, run) && j < |run.actions| && ClaimsAt(run, j, jti)
    ensures Window(run.states[j].requests[run.actions[j].id], jti)
  {
    Reached(cf, run, j);
    var s, id := run.states[j], run.actions[j].id;
    assert RequestOk(cf, s, s.requests[id]);
    HeldIsOrdinary(cf, s, s.requests[id].p);
  }

  // ---------------------------------------------------------------- conservation

  // Action i issues a root refresh token of this chain.
  predicate RootAt(run: Run, i: nat, ch: string)
    requires i < |run.actions| && i < |run.states|
  {
    var s, act := run.states[i], run.actions[i];
    && act.Step? && act.id in s.requests && s.requests[act.id].MintRead?
    && s.requests[act.id].typ == Refresh && s.requests[act.id].chain == ch
  }

  // Action i grants a claim on this chain that was granted before.
  predicate RegrantAt(run: Run, i: nat, ch: string)
    requires i < |run.actions| && i < |run.states|
  {
    var s, act := run.states[i], run.actions[i];
    && act.Step? && act.id in s.requests && s.requests[act.id].RefreshUnmarked?
    && s.requests[act.id].p.chain == ch && GrantsAt(run, i, s.requests[act.id].p.jti)
    && exists k :: 0 <= k < i && GrantsAt(run, k, s.requests[act.id].p.jti)
  }

  function Roots(run: Run, j: nat, ch: string): nat
    requires j <= |run.actions| && j <= |run.states|
  {
    if j == 0 then 0 else Roots(run, j - 1, ch) + (if RootAt(run, j - 1, ch) then 1 else 0)
  }

  function Regrants(run: Run, j: nat, ch: string): nat
    requires j <= |run.actions| && j <= |run.states|
  {
    if j == 0 then 0 else Regrants(run, j - 1, ch) + (if RegrantAt(run, j - 1, ch) then 1 else 0)
  }

  lemma EffectHistory(cf: Config, s: State, q: Request, c: Choice, ch: string)
    ensures var h, h' := s.history, Effect(cf, s, q, c).history;
      && Count(h'.roots, ch) == Count(h.roots, ch) + (if q.MintRead? && q.typ == Refresh && q.chain == ch then 1 else 0)
      && Count(h'.regrants, ch) == Count(h.regrants, ch) +
           (if q.RefreshUnmarked? && q.p.jti !in s.consumed && q.p.chain == ch && Grants(s, q.p.jti) > 0 then 1 else 0)
  {
    hide Bumped, Child;
  }

  lemma HistoryStep(cf: Config, s: State, act: Action, ch: string, jti: string)
    requires Good(cf) && Enabled(cf, s, act)
    ensures var h, h' := s.history, Apply(cf, s, act).history;
      if act.Step? then
        var q := s.requests[act.id];
        && Count(h'.roots, ch)
             == Count(h.roots, ch) + (if q.MintRead? && q.typ == Refresh && q.chain == ch then 1 else 0)
        && Count(h'.regrants, ch) == Count(h.regrants, ch) +
             (if q.RefreshUnmarked? && q.p.jti !in s.consumed && q.p.chain == ch && Grants(s, q.p.jti) > 0
              then 1 else 0)
        && Count(h'.grants, jti) == Count(h.grants, jti) +
             (if q.RefreshUnmarked? && q.p.jti == jti && jti !in s.consumed then 1 else 0)
      else h'.roots == h.roots && h'.regrants == h.regrants && h'.grants == h.grants
  {
    hide Good, MovedAll, Batch, NextPoint, Effect;
    if act.Step? {
      EffectHistory(cf, s, s.requests[act.id], act.choice, ch);
      EffectGrants(cf, s, s.requests[act.id], act.choice, jti);
    }
  }

  lemma EffectGrants(cf: Config, s: State, q: Request, c: Choice, jti: string)
    ensures var granted := q.RefreshUnmarked? && q.p.jti == jti && jti !in s.consumed;
            Grants(Effect(cf, s, q, c), jti) == Grants(s, jti) + if granted then 1 else 0
  {
    hide Bumped, Child;
  }

  lemma {:induction false} GrantsInRun(cf: Config, run: Run, j: nat, jti: string)
    requires Good(cf) && IsRun(cf, run) && j <= |run.actions|
    ensures Grants(run.states[j], jti) > 0 <==> exists i :: 0 <= i < j && GrantsAt(run, i, jti)
    decreases j
  {
    hide Good, Apply;
    if j > 0 {
      GrantsInRun(cf, run, j - 1, jti);
      HistoryStep(cf, run.states[j - 1], run.actions[j - 1], "", jti);
      assert Enabled(cf, run.states[j - 1], run.actions[j - 1]);
      assert (exists i :: 0 <= i < j && GrantsAt(run, i, jti)) <==>
        (exists i :: 0 <= i < j - 1 && GrantsAt(run, i, jti)) || GrantsAt(run, j - 1, jti);
    }
  }

  lemma {:induction false} BudgetInRun(cf: Config, run: Run, j: nat, ch: string)
    requires Good(cf) && IsRun(cf, run) && j <= |run.actions|
    ensures Count(run.states[j].history.roots, ch) == Roots(run, j, ch)
    ensures Count(run.states[j].history.regrants, ch) == Regrants(run, j, ch)
    decreases j
  {
    hide Good, Apply;
    if j > 0 {
      BudgetInRun(cf, run, j - 1, ch);
      var s, act := run.states[j - 1], run.actions[j - 1];
      assert Enabled(cf, s, act);
      if act.Step? && s.requests[act.id].RefreshUnmarked? {
        GrantsInRun(cf, run, j - 1, s.requests[act.id].p.jti);
      }
      HistoryStep(cf, s, act, ch, "");
    }
  }

  /** Along every chain: refresh tokens handed out and never claimed, plus claims still being
      served, never exceed the root tokens of the chain plus the repeated grants on it; and each
      repeated grant is one that ClaimedAgainIff explains. */
  lemma {:induction false} ChainConservation(cf: Config, run: Run, j: nat, ch: string)
    requires Good(cf) && IsRun(cf, run) && j <= |run.actions|
    ensures var s := run.states[j];
      |Live(s, ch)| + |Holding(s, ch)| <= Roots(run, j, ch) + Regrants(run, j, ch)
  {
    hide Good, Initial, Enabled, Apply;
    Reached(cf, run, j);
    assert Conserved(run.states[j], ch);
    BudgetInRun(cf, run, j, ch);
  }

  // A repeated grant is always the work of a purge that overtook the very request it goes to.
  lemma RegrantIsOvertaken(cf: Config, run: Run, m: nat, ch: string)
    requires Good(cf) && IsRun(cf, run) && m < |run.actions| && RegrantAt(run, m, ch)
    ensures exists k :: 0 <= k < m && Overtakes(run, k, m, run.states[m].requests[run.actions[m].id].p.jti)
  {
    hide Good, Initial, Enabled, Apply, Window;
    var jti := run.states[m].requests[run.actions[m].id].p.jti;
    var i: nat :| i < m && GrantsAt(run, i, jti);
    ClaimedAgainIff(cf, run, i, m, jti);
  }

  // ---------------------------------------------------------------- the purge really can overtake

  ghost predicate Extends(cf: Config, run: Run, act: Action, next: Run)
    requires Good(cf)
  {
    && IsRun(cf, next)
    && |next.actions| == |run.actions| + 1 && |next.states| == |run.states| + 1
    && next.actions == run.actions + [act] && next.states[..|run.states|] == run.states
  }

  lemma Extend(cf: Config, run: Run, act: Action) returns (next: Run)
    requires Good(cf) && IsRun(cf, run) && Enabled(cf, run.states[|run.actions|], act)
    ensures Extends(cf, run, act, next)
    ensures next.states[|run.states|] == Apply(cf, run.states[|run.actions|], act)
  {
    hide Good, Enabled, Apply, Initial;
    next := Run(run.states + [Apply(cf, run.states[|run.actions|], act)], run.actions + [act]);
  }

  const NO_CHOICE := Choice(0, false, "", "")

  function Waiting(p: Payload): Request {
    RefreshUnmarked(p, None)
  }

  function Last(run: Run): State
    requires |run.states| == |run.actions| + 1
  {
    run.states[|run.actions|]
  }

  // A run that ends with one root refresh token handed out.
  lemma OneRoot(cf: Config) returns (run: Run, p: Payload)
    requires Good(cf) && cf.refreshLife > 0
    ensures IsRun(cf, run)
    ensures p == Payload("a@b", Refresh, "t", "c", Number(0), Number(0), cf.refreshLife, true)
    ensures var s := Last(run);
            && s.now == 0 && s.rows == map[] && s.consumed == map[] && s.markers == map[]
            && s.minted == map["t" := Minted(p, "")] && s.issued == {"t"} && s.requests == map[0 := Closed]
  {
    hide Separate, Sound, Safe, MovedAll, Batch;
    p := Payload("a@b", Refresh, "t", "c", Number(0), Number(0), cf.refreshLife, true);
    var s0 := State(0, map[], map[], map[], map[], {}, map[], History(map[], {}, map[], map[]));
    run := Run([s0], []);
    run := Extend(cf, run, StartMint(0, "a@b", "c", Refresh));
    run := Extend(cf, run, Step(0, NO_CHOICE));
    run := Extend(cf, run, Step(0, NO_CHOICE.(access := "t")));
  }

  lemma StepReading(cf: Config, run: Run, id: nat, q: Request) returns (next: Run)
    requires Good(cf) && IsRun(cf, run) && At(Last(run), id, q) && Quiet(q) && !q.BumpStart?
    ensures IsRun(cf, next)
    ensures Last(next) == Put(Last(run), id, NextPoint(cf, Last(run), q, NO_CHOICE))
  {
    hide Good, NextPoint;
    next := Extend(cf, run, Step(id, NO_CHOICE));
  }

  lemma PutTwice(s: State, id: nat, q: Request, r: Request)
    ensures Put(Put(s, id, q), id, r) == Put(s, id, r)
  {
    assert s.requests[id := q][id := r] == s.requests[id := r];
  }

  lemma StartsRefresh(cf: Config, run: Run, id: nat, p: Payload) returns (next: Run)
    requires Good(cf) && IsRun(cf, run)
    requires var s := Last(run);
             id !in s.requests && Presentable(s, p) && s.now < p.exp && p.trusted && p.jti != "" && p.typ == Refresh
    ensures IsRun(cf, next) && Last(next) == Put(Last(run), id, RefreshDecoded(p, None))
  {
    hide Good, Presentable, Initial;
    next := Extend(cf, run, StartRefresh(id, p, None));
  }

  // A request that presents a current token gets to the point of claiming it.
  lemma GetsToClaim(cf: Config, run: Run, id: nat, p: Payload) returns (next: Run)
    requires Good(cf) && IsRun(cf, run)
    requires var s := Last(run);
             && id !in s.requests && Presentable(s, p) && p.jti !in s.markers
             && s.now < p.exp && p.trusted && p.jti != "" && p.typ == Refresh
             && Current(cf.keys, s.rows, p)
    ensures IsRun(cf, next) && Last(next) == Put(Last(run), id, Waiting(p))
  {
    hide Good, Presentable, Initial, AccountCheck, ChainCheck, Apply, Enabled, BenignRow, BenignMarker, Bumped;
    var s := Last(run);
    next := StartsRefresh(cf, run, id, p);
    next := StepReading(cf, next, id, RefreshDecoded(p, None));
    PutTwice(s, id, RefreshDecoded(p, None), RefreshAccountOk(p, None));
    next := StepReading(cf, next, id, RefreshAccountOk(p, None));
    PutTwice(s, id, RefreshAccountOk(p, None), RefreshCurrent(p, None));
    next := StepReading(cf, next, id, RefreshCurrent(p, None));
    PutTwice(s, id, RefreshCurrent(p, None), Waiting(p));
  }

  lemma ClaimsNext(cf: Config, run: Run, id: nat, p: Payload) returns (next: Run)
    requires Good(cf) && IsRun(cf, run) && At(Last(run), id, Waiting(p)) && p.jti !in Last(run).consumed
    ensures IsRun(cf, next) && Extends(cf, run, Step(id, NO_CHOICE), next) && GrantsAt(next, |run.actions|, p.jti)
    ensures var s, s' := Last(run), Last(next);
            && s'.consumed == s.consumed[p.jti := NewRow(s, p, None)] && s'.now == s.now
            && (forall i :: i != id && i in s.requests ==> At(s', i, s.requests[i]))
  {
    hide Good, Granted;
    next := Extend(cf, run, Step(id, NO_CHOICE));
  }

  lemma ExpiresAndIsPurged(cf: Config, run: Run, jti: string) returns (next: Run)
    requires Good(cf) && IsRun(cf, run) && jti in Last(run).consumed
    requires Last(run).consumed[jti].expires >= 0
    ensures IsRun(cf, next) && |next.actions| == |run.actions| + 2
    ensures next.states[..|run.states|] == run.states && next.actions[..|run.actions|] == run.actions
    ensures jti !in Last(next).consumed && Last(next).requests == Last(run).requests
  {
    hide Good, Overtaken;
    var mid := Extend(cf, run, Tick(Last(run).consumed[jti].expires + 1));
    next := Extend(cf, mid, Purge({jti}));
  }

  /** The exception is real: if the token expires and its row is purged while a second request
      still sits between decoding and claiming, that request is granted the claim as well. */
  lemma PurgeCanOvertake(cf: Config) returns (run: Run, i: nat, j: nat)
    requires Good(cf) && cf.refreshLife > 0
    ensures IsRun(cf, run) && i < j < |run.actions|
    ensures GrantsAt(run, i, "t") && GrantsAt(run, j, "t")
  {
    hide Good, Initial, Enabled, Apply, Current, Presentable;
    var r0, p := OneRoot(cf);
    assert Current(cf.keys, Last(r0).rows, p) && Presentable(Last(r0), p) by { RootIsCurrent(cf, Last(r0), p); }
    var r1 := GetsToClaim(cf, r0, 1, p);
    assert Presentable(Last(r1), p) by { StillPresentable(Last(r0), Last(r1), p); }
    var r2 := GetsToClaim(cf, r1, 2, p);
    i := |r2.actions|;
    var r3 := ClaimsNext(cf, r2, 1, p);
    assert At(Last(r2), 2, Waiting(p)) && 2 in Last(r2).requests;
    assert At(Last(r3), 2, Waiting(p));
    var r4 := ExpiresAndIsPurged(cf, r3, "t");
    j := |r4.actions|;
    run := ClaimsNext(cf, r4, 2, p);
    assert run.states[i] == r2.states[i] && run.actions[i] == Step(1, NO_CHOICE);
  }

  lemma RootIsCurrent(cf: Config, s: State, p: Payload)
    requires s.rows == map[] && s.minted == map["t" := Minted(p, "")] && s.issued == {"t"}
    requires p.jti == "t" && p.accountVer == Number(0) && p.chainVer == Number(0)
    requires p.email != "" && p.chain != ""
    ensures Current(cf.keys, s.rows, p) && Presentable(s, p)
  {
  }

  lemma StillPresentable(s: State, s': State, p: Payload)
    requires Presentable(s, p) && s'.minted == s.minted && s'.issued == s.issued
    ensures Presentable(s', p)
  {
  }

  // ---------------------------------------------------------------- an outage after the claim

  lemma GivesUp(cf: Config, run: Run, id: nat) returns (next: Run)
    requires Good(cf) && IsRun(cf, run) && id in Last(run).requests
    ensures IsRun(cf, next) && Last(next) == Put(Last(run), id, Closed)
  {
    hide Good, Initial;
    next := Extend(cf, run, Abort(id));
  }

  lemma ClaimKeepsRest(cf: Config, run: Run, id: nat, p: Payload) returns (next: Run)
    requires Good(cf) && IsRun(cf, run) && At(Last(run), id, Waiting(p)) && p.jti !in Last(run).consumed
    ensures IsRun(cf, next)
    ensures var s, s' := Last(run), Last(next);
      && s'.consumed == s.consumed[p.jti := NewRow(s, p, None)] && s'.now == s.now && s'.markers == s.markers
      && s'.rows == s.rows && s'.minted == s.minted && s'.issued == s.issued
      && s'.requests.Keys == s.requests.Keys + {id}
  {
    hide Good, Granted, Initial;
    next := Extend(cf, run, Step(id, NO_CHOICE));
  }

  /** An outage after the claim costs the token: a request claims a fresh token and is cut off, and
      the retry with the same token, in the same instant and from the same address, is refused
      within the grace and revokes the chain without one. No pair was ever handed out. */
  lemma OutageBurnsToken(cf: Config) returns (run: Run)
    requires Good(cf) && cf.refreshLife > 0
    ensures IsRun(cf, run)
    ensures var s := Last(run);
      && s.issued == {"t"} && At(s, 1, Closed)
      && At(s, 2, if cf.grace > 0 then Closed else BumpStart(Chain("a@b", "c")))
  {
    hide Good, Initial, Enabled, Apply, Current, Presentable;
    var r0, p := OneRoot(cf);
    assert Current(cf.keys, Last(r0).rows, p) && Presentable(Last(r0), p) by { RootIsCurrent(cf, Last(r0), p); }
    var r1 := GetsToClaim(cf, r0, 1, p);
    var r2 := ClaimKeepsRest(cf, r1, 1, p);
    var r3 := GivesUp(cf, r2, 1);
    assert Presentable(Last(r3), p) by { StillPresentable(Last(r0), Last(r3), p); }
    var r4 := GetsToClaim(cf, r3, 2, p);
    run := RefusedRetry(cf, r4, p);
  }

  lemma RefusedRetry(cf: Config, before: Run, p: Payload) returns (run: Run)
    requires Good(cf) && IsRun(cf, before) && p.email == "a@b" && p.chain == "c"
    requires var s := Last(before);
      && At(s, 2, Waiting(p)) && At(s, 1, Closed) && s.issued == {"t"}
      && p.jti in s.consumed && s.consumed[p.jti].at == s.now && s.consumed[p.jti].ip == None
    ensures IsRun(cf, run)
    ensures var s := Last(run);
      && s.issued == {"t"} && At(s, 1, Closed)
      && At(s, 2, if cf.grace > 0 then Closed else BumpStart(Chain("a@b", "c")))
  {
    hide Good, Initial;
    run := Extend(cf, before, Step(2, NO_CHOICE));
    assert At(Last(run), 2, RefreshDuplicate(p, None));
    run := StepReading(cf, run, 2, RefreshDuplicate(p, None));
  }
}

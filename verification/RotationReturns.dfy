/**
 What the second version check of a rotation buys: no pair is returned that was already
 revoked when it was minted.
 */
module RotationReturns {
  import opened Common
  import opened RevocationKeys
  import opened VersionStore
  import opened KeyMigration
  import opened TokenClaims
  import opened RotationSystem
  import opened RotationInvariants
  import opened RotationClaims
  import opened RotationConservation
  import opened RotationTheorems

  // The re-check of the new refresh token has passed.
  predicate Rechecked(q: Request) {
    q.RefreshChecked? || q.RefreshReturned?
  }

  predicate SamePair(q: Request, r: Request)
    requires (q.RefreshMinted? || q.RefreshChildAccountOk? || Rechecked(q))
    requires (r.RefreshMinted? || r.RefreshChildAccountOk? || Rechecked(r))
  {
    q.p == r.p && q.access == r.access && q.refresh == r.refresh
  }

  lemma NextRechecked(cf: Config, s: State, q: Request, c: Choice)
    requires Rechecked(NextPoint(cf, s, q, c))
    ensures var n := NextPoint(cf, s, q, c);
      || (Rechecked(q) && SamePair(q, n))
      || (q.RefreshChildAccountOk? && SamePair(q, n) && n.refresh in s.minted
          && ChainCheck(cf.keys, s.rows, s.minted[n.refresh].token))
  {
    hide AccountCheck, ChainCheck, Version, BenignRow, BenignMarker, Bumped;
  }

  lemma NextHalfRechecked(cf: Config, s: State, q: Request, c: Choice)
    requires NextPoint(cf, s, q, c).RefreshChildAccountOk?
    ensures var n := NextPoint(cf, s, q, c);
      && q.RefreshMinted? && SamePair(q, n) && n.refresh in s.minted
      && AccountCheck(cf.keys, s.rows, s.minted[n.refresh].token)
  {
    hide AccountCheck, ChainCheck, Version, BenignRow, BenignMarker, Bumped;
  }

  lemma OnlyStepsRecheck(cf: Config, s: State, act: Action, id: nat)
    requires Good(cf) && Enabled(cf, s, act) && id in Apply(cf, s, act).requests
    requires var q := Apply(cf, s, act).requests[id]; Rechecked(q) || q.RefreshChildAccountOk?
    ensures id in s.requests
    ensures Apply(cf, s, act).requests[id] == s.requests[id] ||
      (act.Step? && act.id == id && Apply(cf, s, act).requests[id] == NextPoint(cf, s, s.requests[id], act.choice))
  {
    hide Good, NextPoint, Effect, MovedAll, Batch;
  }

  lemma {:induction false} HalfRecheckInstant(cf: Config, run: Run, id: nat, j: nat) returns (m: nat)
    requires Good(cf) && IsRun(cf, run) && j <= |run.actions|
    requires id in run.states[j].requests && run.states[j].requests[id].RefreshChildAccountOk?
    ensures m < j && id in run.states[m].requests
    ensures var q := run.states[m].requests[id]; var s := run.states[m];
      && q.RefreshMinted? && SamePair(q, run.states[j].requests[id])
      && q.refresh in s.minted && AccountCheck(cf.keys, s.rows, s.minted[q.refresh].token)
    ensures id in run.states[m + 1].requests && run.states[m + 1].requests[id].RefreshChildAccountOk?
    decreases j
  {
    hide Good, Enabled, Apply, AccountCheck, NextPoint;
    assert j > 0;
    OnlyStepsRecheck(cf, run.states[j - 1], run.actions[j - 1], id);
    if run.states[j].requests[id] == run.states[j - 1].requests[id] {
      m := HalfRecheckInstant(cf, run, id, j - 1);
    } else {
      NextHalfRechecked(cf, run.states[j - 1], run.states[j - 1].requests[id], run.actions[j - 1].choice);
      m := j - 1;
    }
  }

  lemma {:induction false} RecheckInstant(cf: Config, run: Run, id: nat, j: nat) returns (m: nat)
    requires Good(cf) && IsRun(cf, run) && j <= |run.actions|
    requires id in run.states[j].requests && Rechecked(run.states[j].requests[id])
    ensures m < j && id in run.states[m].requests
    ensures var q := run.states[m].requests[id]; var s := run.states[m];
      && q.RefreshChildAccountOk? && SamePair(q, run.states[j].requests[id])
      && q.refresh in s.minted && ChainCheck(cf.keys, s.rows, s.minted[q.refresh].token)
    decreases j
  {
    hide Good, Enabled, Apply, ChainCheck, NextPoint;
    assert j > 0;
    OnlyStepsRecheck(cf, run.states[j - 1], run.actions[j - 1], id);
    if run.states[j].requests[id] == run.states[j - 1].requests[id] {
      m := RecheckInstant(cf, run, id, j - 1);
    } else {
      NextRechecked(cf, run.states[j - 1], run.states[j - 1].requests[id], run.actions[j - 1].choice);
      if Rechecked(run.states[j - 1].requests[id]) {
        m := RecheckInstant(cf, run, id, j - 1);
      } else {
        m := j - 1;
      }
    }
  }

  /** Every pair that is returned was current, both versions in one table, at some instant after
      it was minted. */
  lemma ReturnHasAnInstant(cf: Config, run: Run, id: nat, j: nat) returns (m: nat)
    requires Good(cf) && IsRun(cf, run) && j <= |run.actions|
    requires id in run.states[j].requests && Rechecked(run.states[j].requests[id])
    ensures m < j
    ensures var q := run.states[j].requests[id]; var s := run.states[m];
      && At(s, id, RefreshMinted(q.p, q.access, q.refresh))
      && q.access in s.minted && s.minted[q.access].parent == q.p.jti && Alive(cf, s, q.access)
      && q.refresh in s.minted && s.minted[q.refresh].parent == q.p.jti && Alive(cf, s, q.refresh)
    ensures id in run.states[m + 1].requests && run.states[m + 1].requests[id].RefreshChildAccountOk?
  {
    hide Good, Initial, Enabled, Apply, Version, Inv;
    var q := run.states[j].requests[id];
    var n := RecheckInstant(cf, run, id, j);
    m := HalfRecheckInstant(cf, run, id, n);
    MintedThen(cf, run, m, id);
    RunRises(cf, run, m, n);
    var p := run.states[m].minted[q.refresh].token;
    assert TokenOk(cf, run.states[m].rows, q.refresh, run.states[m].minted[q.refresh]);
    assert Named(Chain(p.email, p.chain));
    PairLivesTogether(cf, run.states[m], q.p, q.access, q.refresh);
  }

  // Both children of one token carry its versions.
  lemma PairLivesTogether(cf: Config, s: State, p: Payload, a: string, r: string)
    requires TokensOk(cf, s) && LineageOk(s) && ChildrenOk(s, p, a, r) && p.jti != ""
    ensures Alive(cf, s, a) <==> Alive(cf, s, r)
  {
    hide Version;
    assert TokenOk(cf, s.rows, a, s.minted[a]) && TokenOk(cf, s.rows, r, s.minted[r]);
    assert SameLine(s.minted[a].token, s.minted[p.jti].token);
    assert SameLine(s.minted[r].token, s.minted[p.jti].token);
  }

  lemma MintedThen(cf: Config, run: Run, m: nat, id: nat)
    requires Good(cf) && IsRun(cf, run) && m <= |run.actions|
    requires id in run.states[m].requests && run.states[m].requests[id].RefreshMinted?
    ensures TokensOk(cf, run.states[m]) && LineageOk(run.states[m])
    ensures run.states[m].requests[id].p.jti != ""
    ensures ChildrenOk(run.states[m], run.states[m].requests[id].p, run.states[m].requests[id].access,
                       run.states[m].requests[id].refresh)
  {
    Reached(cf, run, m);
    assert RequestOk(cf, run.states[m], run.states[m].requests[id]);
    HeldIsOrdinary(cf, run.states[m], run.states[m].requests[id].p);
  }

  // Where a request with this token in hand can be: from its claim on, from its mint on, or from
  // the first read of its re-check on.
  datatype Stage = Claim | Mint | Recheck

  predicate FromStage(q: Request, p: Payload, from: Stage) {
    || q == Closed
    || (from == Claim && q.RefreshClaimed? && q.p == p)
    || (from != Recheck && q.RefreshMinted? && q.p == p)
    || ((q.RefreshChildAccountOk? || Rechecked(q)) && q.p == p)
  }

  lemma NextFromStage(cf: Config, s: State, q: Request, c: Choice, p: Payload, from: Stage)
    requires FromStage(q, p, from)
    ensures FromStage(NextPoint(cf, s, q, c), p, from)
  {
    hide AccountCheck, ChainCheck, Version;
  }

  lemma StepFromStage(cf: Config, s: State, act: Action, id: nat, p: Payload, from: Stage)
    requires Good(cf) && Enabled(cf, s, act) && id in s.requests && FromStage(s.requests[id], p, from)
    ensures id in Apply(cf, s, act).requests && FromStage(Apply(cf, s, act).requests[id], p, from)
  {
    hide Good, NextPoint, Effect, MovedAll, Batch;
    if act.Step? && act.id == id {
      NextFromStage(cf, s, s.requests[id], act.choice, p, from);
    }
  }

  lemma {:induction false} StaysFromStage(cf: Config, run: Run, i: nat, j: nat, id: nat, p: Payload, from: Stage)
    requires Good(cf) && IsRun(cf, run) && i <= j <= |run.actions|
    requires id in run.states[i].requests && FromStage(run.states[i].requests[id], p, from)
    ensures id in run.states[j].requests && FromStage(run.states[j].requests[id], p, from)
    decreases j
  {
    hide Good, Initial, Enabled, Apply, FromStage;
    if i < j {
      StaysFromStage(cf, run, i, j - 1, id, p, from);
      StepFromStage(cf, run.states[j - 1], run.actions[j - 1], id, p, from);
    }
  }

  /** A revocation that commits while a rotation is between its claim and the first read of its
      re-check stops it: the children carry the dead versions, and they are never returned. */
  lemma RevokedInFlightIsNotReturned(cf: Config, run: Run, i: nat, j: nat, id: nat)
    requires Good(cf) && IsRun(cf, run) && i <= j <= |run.actions|
    requires id in run.states[i].requests
    requires run.states[i].requests[id].RefreshClaimed? || run.states[i].requests[id].RefreshMinted?
    requires var t := run.states[i].requests[id].p.jti; t in run.states[i].minted && !Alive(cf, run.states[i], t)
    ensures id in run.states[j].requests && !Rechecked(run.states[j].requests[id])
  {
    hide Good, Initial, Enabled, Apply, Alive;
    var p := run.states[i].requests[id].p;
    StaysFromStage(cf, run, i, j, id, p, Claim);
    if Rechecked(run.states[j].requests[id]) {
      var m := ReturnHasAnInstant(cf, run, id, j);
      if m < i {
        StaysFromStage(cf, run, m + 1, i, id, run.states[m + 1].requests[id].p, Recheck);
        assert false;
      }
      var d := run.states[j].requests[id].refresh;
      RunRises(cf, run, i, m);
      assert Rotated(run.states[m], p.jti, p.jti, 0);
      HeldHasName(cf, run, i, id);
      NoResurrection(cf, run, i, m, p.jti, d, 1);
      assert false;
    }
  }

  // A token in rotation has an identifier.
  lemma HeldHasName(cf: Config, run: Run, i: nat, id: nat)
    requires Good(cf) && IsRun(cf, run) && i <= |run.actions|
    requires id in run.states[i].requests
    requires run.states[i].requests[id].RefreshClaimed? || run.states[i].requests[id].RefreshMinted?
    ensures run.states[i].requests[id].p.jti != ""
  {
    Reached(cf, run, i);
    assert RequestOk(cf, run.states[i], run.states[i].requests[id]);
    HeldIsOrdinary(cf, run.states[i], run.states[i].requests[id].p);
  }

  // ---------------------------------------------------------------- answers fit their questions

  // What a request can be at, given how it started.
  predicate Serves(act: Action, q: Request) {
    || q == Closed
    || (act.StartVerify? && act.p.trusted &&
          (|| q == VerifyDecoded(act.p, act.want) || q == VerifyUnmarked(act.p, act.want)
           || q == VerifyAccountOk(act.p, act.want)
           || (q == VerifyAccepted(act.p) && (act.want.None? || act.want.value == act.p.typ))))
    || (act.StartRefresh? && act.p.trusted && act.p.typ == Refresh && (q.RefreshDecoded? || Complete(act.p)) &&
          (if Bumping(q) then q.target == Chain(act.p.email, act.p.chain) else Rotating(q) && q.p == act.p))
  }

  predicate Bumping(q: Request) {
    q.BumpStart? || q.BumpRead? || q.BumpDone?
  }

  predicate Rotating(q: Request) {
    || q.RefreshDecoded? || q.RefreshAccountOk? || q.RefreshCurrent? || q.RefreshUnmarked? || q.RefreshDuplicate?
    || q.RefreshUnrecorded? || q.RefreshClaimed? || q.RefreshMinted? || q.RefreshChildAccountOk? || Rechecked(q)
  }

  lemma NextServes(cf: Config, s: State, act: Action, q: Request, c: Choice)
    requires Serves(act, q)
    ensures Serves(act, NextPoint(cf, s, q, c))
  {
    hide ChainCheck, Version, BenignRow, BenignMarker, Bumped;
  }

  lemma StepServes(cf: Config, s: State, act: Action, start: Action, id: nat)
    requires Good(cf) && Enabled(cf, s, act) && id in s.requests && Serves(start, s.requests[id])
    ensures id in Apply(cf, s, act).requests && Serves(start, Apply(cf, s, act).requests[id])
  {
    hide Good, NextPoint, Effect, MovedAll, Batch;
    if act.Step? && act.id == id {
      NextServes(cf, s, start, s.requests[id], act.choice);
    }
  }

  lemma {:induction false} StaysServing(cf: Config, run: Run, k: nat, j: nat, id: nat)
    requires Good(cf) && IsRun(cf, run) && k < j <= |run.actions| && Starts(run.actions[k], id)
    ensures id in run.states[j].requests && Serves(run.actions[k], run.states[j].requests[id])
    ensures run.states[j].requests[id] != Closed ==> run.states[k].now < run.actions[k].p.exp
    decreases j
  {
    hide Good, Initial, Enabled, Apply, Serves;
    if j == k + 1 {
      StartServes(cf, run.states[k], run.actions[k], id);
    } else {
      StaysServing(cf, run, k, j - 1, id);
      StepServes(cf, run.states[j - 1], run.actions[j - 1], run.actions[k], id);
      ClosedStays(cf, run.states[j - 1], run.actions[j - 1], id);
    }
  }

  lemma StartServes(cf: Config, s: State, act: Action, id: nat)
    requires Good(cf) && Enabled(cf, s, act) && Starts(act, id)
    ensures id in Apply(cf, s, act).requests && Serves(act, Apply(cf, s, act).requests[id])
    ensures Apply(cf, s, act).requests[id] != Closed ==> s.now < act.p.exp
  {
    hide Good;
  }

  lemma ClosedStays(cf: Config, s: State, act: Action, id: nat)
    requires Good(cf) && Enabled(cf, s, act) && id in s.requests
    ensures id in Apply(cf, s, act).requests
    ensures s.requests[id] == Closed ==> Apply(cf, s, act).requests[id] == Closed
  {
    hide Good, Effect, MovedAll, Batch;
  }

  /** A verification accepts the very token it was given, genuine, unexpired at the start and of
      the type asked for. */
  lemma AcceptsWhatWasAsked(cf: Config, run: Run, k: nat, j: nat, id: nat)
    requires Good(cf) && IsRun(cf, run) && k < j <= |run.actions|
    requires run.actions[k].StartVerify? && run.actions[k].id == id
    requires id in run.states[j].requests && run.states[j].requests[id].VerifyAccepted?
    ensures var start := run.actions[k];
      && run.states[j].requests[id].p == start.p && start.p.trusted && run.states[k].now < start.p.exp
      && (start.want.Some? ==> start.p.typ == start.want.value)
  {
    hide Good, IsRun;
    StaysServing(cf, run, k, j, id);
  }

  /** A rotation returns a fresh access and a fresh refresh token, both rotated from the very
      refresh token it was given and carrying its email, chain and versions. */
  lemma ReturnsChildrenOfWhatWasGiven(cf: Config, run: Run, k: nat, j: nat, id: nat)
    requires Good(cf) && IsRun(cf, run) && k < j <= |run.actions|
    requires run.actions[k].StartRefresh? && run.actions[k].id == id
    requires id in run.states[j].requests && run.states[j].requests[id].RefreshReturned?
    ensures var start, q, s := run.actions[k], run.states[j].requests[id], run.states[j];
      && start.p.trusted && start.p.typ == Refresh && run.states[k].now < start.p.exp
      && q.access in s.issued && IsChild(s, q.access, start.p, Access)
      && q.refresh in s.issued && IsChild(s, q.refresh, start.p, Refresh)
  {
    hide Good, IsRun;
    StaysServing(cf, run, k, j, id);
    ReturnedNow(cf, run, j, id);
  }

  predicate IsChild(s: State, j: string, p: Payload, typ: TokenType) {
    && j in s.minted && s.minted[j].parent == p.jti
    && s.minted[j].token.typ == typ && SameLine(s.minted[j].token, p)
  }

  lemma ReturnedNow(cf: Config, run: Run, j: nat, id: nat)
    requires Good(cf) && IsRun(cf, run) && j <= |run.actions|
    requires id in run.states[j].requests && run.states[j].requests[id].RefreshReturned?
    ensures var q, s := run.states[j].requests[id], run.states[j];
      && q.access in s.issued && IsChild(s, q.access, q.p, Access)
      && q.refresh in s.issued && IsChild(s, q.refresh, q.p, Refresh)
  {
    Reached(cf, run, j);
    var s := run.states[j];
    var q := s.requests[id];
    assert RequestOk(cf, s, q);
    hide IsRun, TokensOk, LineageOk, ClaimsOk, SingleUse, Conserved, CountersReached;
    HeldIsOrdinary(cf, s, q.p);
    ReturnedIn(s, q);
  }

  lemma ReturnedIn(s: State, q: Request)
    requires q.RefreshReturned? && HoldsTokens(s, q) && LineageOk(s) && q.p.jti != ""
    ensures q.access in s.issued && IsChild(s, q.access, q.p, Access)
    ensures q.refresh in s.issued && IsChild(s, q.refresh, q.p, Refresh)
  {
  }

  // ---------------------------------------------------------------- markers of older releases

  predicate PastMarker(q: Request) {
    q.VerifyUnmarked? || q.VerifyAccountOk? || q.VerifyAccepted?
  }

  lemma NextPastMarker(cf: Config, s: State, q: Request, c: Choice)
    requires PastMarker(NextPoint(cf, s, q, c))
    ensures var p := NextPoint(cf, s, q, c).p;
      (PastMarker(q) && q.p == p) || (q == VerifyDecoded(p, q.want) && (p.jti == "" || p.jti !in s.markers))
  {
    hide AccountCheck, ChainCheck, Version, BenignRow, BenignMarker, Bumped;
  }

  lemma OnlyStepsPassMarker(cf: Config, s: State, act: Action, id: nat)
    requires Good(cf) && Enabled(cf, s, act) && id in Apply(cf, s, act).requests
    requires PastMarker(Apply(cf, s, act).requests[id])
    ensures id in s.requests
    ensures Apply(cf, s, act).requests[id] == s.requests[id] ||
      (act.Step? && act.id == id && Apply(cf, s, act).requests[id] == NextPoint(cf, s, s.requests[id], act.choice))
  {
    hide Good, NextPoint, Effect, MovedAll, Batch;
  }

  /** A verified token carried no revocation marker of an older release at some instant of its
      verification. */
  lemma {:induction false} VerifiedWasUnmarked(cf: Config, run: Run, j: nat, id: nat) returns (m: nat)
    requires Good(cf) && IsRun(cf, run) && j <= |run.actions|
    requires id in run.states[j].requests && PastMarker(run.states[j].requests[id])
    ensures m < j && id in run.states[m].requests && run.states[m].requests[id].VerifyDecoded?
    ensures var p := run.states[j].requests[id].p;
      run.states[m].requests[id].p == p && (p.jti == "" || p.jti !in run.states[m].markers)
    decreases j
  {
    hide Good, Enabled, Apply, NextPoint;
    assert j > 0;
    OnlyStepsPassMarker(cf, run.states[j - 1], run.actions[j - 1], id);
    if run.states[j].requests[id] == run.states[j - 1].requests[id] {
      m := VerifiedWasUnmarked(cf, run, j - 1, id);
    } else {
      NextPastMarker(cf, run.states[j - 1], run.states[j - 1].requests[id], run.actions[j - 1].choice);
      if PastMarker(run.states[j - 1].requests[id]) {
        m := VerifiedWasUnmarked(cf, run, j - 1, id);
      } else {
        m := j - 1;
      }
    }
  }
}

/**
 What holds of whole runs of the rotation system, whatever the interleaving.
 */
module RotationTheorems {
  import opened Common
  import opened RevocationKeys
  import opened VersionStore
  import opened KeyMigration
  import opened TokenClaims
  import opened RotationSystem
  import opened RotationInvariants
  import opened RotationClaims
  import opened RotationConservation

  // ---------------------------------------------------------------- reachable states

  ghost predicate Inv(cf: Config, s: State) {
    && TokensOk(cf, s) && LineageOk(s) && RequestsOk(cf, s) && ClaimsOk(s) && SingleUse(s)
    && (forall ch :: Conserved(s, ch))
  }

  lemma InitialInv(cf: Config, s: State)
    requires Initial(s)
    ensures Inv(cf, s)
  {
    forall ch ensures Conserved(s, ch) {
      assert Live(s, ch) == {} && Holding(s, ch) == {};
    }
  }

  lemma InvStays(cf: Config, s: State, act: Action)
    requires Good(cf) && Enabled(cf, s, act) && Inv(cf, s)
    ensures Inv(cf, Apply(cf, s, act))
  {
    hide Good, Apply, TokensOk, LineageOk, RequestsOk, ClaimsOk, SingleUse, Conserved;
    TokensStayOk(cf, s, act);
    LineageStaysOk(cf, s, act);
    RequestsStayOk(cf, s, act);
    ClaimsStayOk(cf, s, act);
    SingleUseStays(cf, s, act);
    forall ch ensures Conserved(Apply(cf, s, act), ch) {
      ConservedStays(cf, s, act, ch);
    }
  }

  lemma {:induction false} Reached(cf: Config, run: Run, i: nat)
    requires Good(cf) && IsRun(cf, run) && i <= |run.actions|
    ensures Inv(cf, run.states[i])
    decreases i
  {
    hide Good, Inv, Initial, Enabled, Apply;
    if i == 0 {
      InitialInv(cf, run.states[0]);
    } else {
      Reached(cf, run, i - 1);
      InvStays(cf, run.states[i - 1], run.actions[i - 1]);
    }
  }

  // ---------------------------------------------------------------- monotonicity over runs

  lemma {:induction false} RunRises(cf: Config, run: Run, i: nat, j: nat)
    requires Good(cf) && IsRun(cf, run) && i <= j <= |run.actions|
    ensures Risen(cf, run.states[i].rows, run.states[j].rows)
    ensures Grown(run.states[i], run.states[j])
    decreases j
  {
    hide Good, Initial, Enabled, Apply, Version;
    if i < j {
      RunRises(cf, run, i, j - 1);
      RowsRise(cf, run.states[j - 1], run.actions[j - 1]);
      StateGrows(cf, run.states[j - 1], run.actions[j - 1]);
    }
  }

  // ---------------------------------------------------------------- no resurrection

  ghost predicate Alive(cf: Config, s: State, j: string) {
    j in s.minted && Current(cf.keys, s.rows, s.minted[j].token)
  }

  // A minted token that is not current has been overtaken by one of its counters.
  lemma DeadIsBehind(cf: Config, s: State, j: string)
    requires TokensOk(cf, s) && j in s.minted
    ensures var p := s.minted[j].token;
            !Alive(cf, s, j) <==>
              || Ver(p.accountVer) < AccountVersion(cf, s.rows, p.email)
              || Ver(p.chainVer) < ChainVersion(cf, s.rows, p.email, p.chain)
  {
    hide Version;
    assert TokenOk(cf, s.rows, j, s.minted[j]);
  }

  lemma DeadStaysDead(cf: Config, run: Run, i: nat, j: nat, t: string)
    requires Good(cf) && IsRun(cf, run) && i <= j <= |run.actions|
    requires t in run.states[i].minted && !Alive(cf, run.states[i], t)
    ensures t in run.states[j].minted && !Alive(cf, run.states[j], t)
  {
    hide Good, Initial, Enabled, Apply, Version, Alive;
    Reached(cf, run, i);
    Reached(cf, run, j);
    RunRises(cf, run, i, j);
    DeadIsBehind(cf, run.states[i], t);
    DeadIsBehind(cf, run.states[j], t);
    var p := run.states[i].minted[t].token;
    assert TokenOk(cf, run.states[i].rows, t, run.states[i].minted[t]);
    assert Named(Account(p.email)) && Named(Chain(p.email, p.chain));
  }

  // `d` was reached from `t` by n rotations.
  ghost predicate Rotated(s: State, d: string, t: string, n: nat)
    decreases n
  {
    d in s.minted &&
    if n == 0 then d == t
    else s.minted[d].parent != "" && Rotated(s, s.minted[d].parent, t, n - 1)
  }

  lemma {:induction false} DescendantsShareVersions(s: State, d: string, t: string, n: nat)
    requires LineageOk(s) && Rotated(s, d, t, n)
    ensures t in s.minted && SameLine(s.minted[d].token, s.minted[t].token)
    decreases n
  {
    if n > 0 {
      DescendantsShareVersions(s, s.minted[d].parent, t, n - 1);
    }
  }

  /** Once a token has been revoked, neither it nor anything rotated from it, however many
      rotations later, is ever current again: not what existed then, not what is minted after. */
  lemma {:induction false} NoResurrection(cf: Config, run: Run, i: nat, j: nat, t: string, d: string, n: nat)
    requires Good(cf) && IsRun(cf, run) && i <= j <= |run.actions|
    requires t in run.states[i].minted && !Alive(cf, run.states[i], t)
    requires Rotated(run.states[j], d, t, n)
    ensures !Alive(cf, run.states[j], d)
  {
    hide Good, Initial, Enabled, Apply, Version;
    DeadStaysDead(cf, run, i, j, t);
    Reached(cf, run, j);
    DescendantsShareVersions(run.states[j], d, t, n);
    assert TokenOk(cf, run.states[j].rows, t, run.states[j].minted[t]);
    assert TokenOk(cf, run.states[j].rows, d, run.states[j].minted[d]);
  }

  // ---------------------------------------------------------------- acceptance has an instant

  // Program points at which the account version has been found to match.
  predicate HalfChecked(q: Request) {
    q.VerifyAccountOk? || q.RefreshAccountOk?
  }

  // Program points at which both versions have been found to match.
  predicate Passed(q: Request) {
    || q.VerifyAccepted? || q.RefreshCurrent? || q.RefreshUnmarked? || q.RefreshDuplicate?
    || q.RefreshUnrecorded? || q.RefreshClaimed? || q.RefreshMinted? || q.RefreshChildAccountOk?
    || q.RefreshChecked? || q.RefreshReturned?
  }

  predicate At(s: State, id: nat, q: Request) {
    id in s.requests && s.requests[id] == q
  }

  lemma NextPassed(cf: Config, s: State, q: Request, c: Choice)
    requires Passed(NextPoint(cf, s, q, c))
    ensures var p := NextPoint(cf, s, q, c).p;
            (Passed(q) && q.p == p) || (HalfChecked(q) && q.p == p && ChainCheck(cf.keys, s.rows, p))
  {
    hide AccountCheck, ChainCheck, Version, BenignRow, BenignMarker, Bumped;
  }

  lemma NextHalfChecked(cf: Config, s: State, q: Request, c: Choice)
    requires HalfChecked(NextPoint(cf, s, q, c))
    ensures var p := NextPoint(cf, s, q, c).p;
            || (HalfChecked(q) && q.p == p)
            || ((q.VerifyUnmarked? || q.RefreshDecoded?) && q.p == p && AccountCheck(cf.keys, s.rows, p))
  {
    hide AccountCheck, ChainCheck, Version, BenignRow, BenignMarker, Bumped;
  }

  lemma StartsUnchecked(cf: Config, s: State, act: Action, id: nat)
    requires Good(cf) && Enabled(cf, s, act) && !act.Step?
    requires id in Apply(cf, s, act).requests
    ensures var q := Apply(cf, s, act).requests[id];
            (id in s.requests && s.requests[id] == q) || (!Passed(q) && !HalfChecked(q))
  {
    hide Good, MovedAll, Batch;
  }

  lemma EnterPassed(cf: Config, s: State, act: Action, id: nat)
    requires Good(cf) && Enabled(cf, s, act)
    requires id in Apply(cf, s, act).requests && Passed(Apply(cf, s, act).requests[id])
    ensures var p := Apply(cf, s, act).requests[id].p;
            id in s.requests &&
            var q := s.requests[id];
            (Passed(q) && q.p == p) || (HalfChecked(q) && q.p == p && ChainCheck(cf.keys, s.rows, p))
  {
    hide Good, NextPoint, Effect, MovedAll, Batch, ChainCheck;
    if !act.Step? {
      StartsUnchecked(cf, s, act, id);
    } else if id == act.id {
      NextPassed(cf, s, s.requests[id], act.choice);
    }
  }

  lemma EnterHalfChecked(cf: Config, s: State, act: Action, id: nat)
    requires Good(cf) && Enabled(cf, s, act)
    requires id in Apply(cf, s, act).requests && HalfChecked(Apply(cf, s, act).requests[id])
    ensures var p := Apply(cf, s, act).requests[id].p;
            id in s.requests &&
            var q := s.requests[id];
            || (HalfChecked(q) && q.p == p)
            || ((q.VerifyUnmarked? || q.RefreshDecoded?) && q.p == p && AccountCheck(cf.keys, s.rows, p))
  {
    hide Good, NextPoint, Effect, MovedAll, Batch, AccountCheck;
    if !act.Step? {
      StartsUnchecked(cf, s, act, id);
    } else if id == act.id {
      NextHalfChecked(cf, s, s.requests[id], act.choice);
    }
  }

  lemma {:induction false} AccountInstant(cf: Config, run: Run, id: nat, j: nat) returns (m: nat)
    requires Good(cf) && IsRun(cf, run) && j <= |run.actions|
    requires id in run.states[j].requests && HalfChecked(run.states[j].requests[id])
    ensures m < j && id in run.states[m].requests
    ensures var q := run.states[m].requests[id];
            && (q.VerifyUnmarked? || q.RefreshDecoded?) && q.p == run.states[j].requests[id].p
            && AccountCheck(cf.keys, run.states[m].rows, q.p)
    decreases j
  {
    hide Good, Enabled, Apply, AccountCheck;
    assert j > 0;
    EnterHalfChecked(cf, run.states[j - 1], run.actions[j - 1], id);
    if HalfChecked(run.states[j - 1].requests[id]) {
      m := AccountInstant(cf, run, id, j - 1);
    } else {
      m := j - 1;
    }
  }

  lemma {:induction false} ChainInstant(cf: Config, run: Run, id: nat, j: nat) returns (m: nat)
    requires Good(cf) && IsRun(cf, run) && j <= |run.actions|
    requires id in run.states[j].requests && Passed(run.states[j].requests[id])
    ensures m < j && id in run.states[m].requests
    ensures var q := run.states[m].requests[id];
            && HalfChecked(q) && q.p == run.states[j].requests[id].p
            && ChainCheck(cf.keys, run.states[m].rows, q.p)
    decreases j
  {
    hide Good, Enabled, Apply, ChainCheck;
    assert j > 0;
    EnterPassed(cf, run.states[j - 1], run.actions[j - 1], id);
    if Passed(run.states[j - 1].requests[id]) {
      m := ChainInstant(cf, run, id, j - 1);
    } else {
      m := j - 1;
    }
  }

  predicate Starts(act: Action, id: nat) {
    (act.StartVerify? || act.StartRefresh?) && act.id == id
  }

  lemma {:induction false} RequestsRemain(cf: Config, run: Run, i: nat, j: nat, id: nat)
    requires Good(cf) && IsRun(cf, run) && i <= j <= |run.actions|
    requires id in run.states[i].requests
    ensures id in run.states[j].requests
    decreases j
  {
    hide Good, Enabled, Apply, Initial;
    if i < j {
      RequestsRemain(cf, run, i, j - 1, id);
      OneStepRemains(cf, run.states[j - 1], run.actions[j - 1], id);
    }
  }

  lemma OneStepRemains(cf: Config, s: State, act: Action, id: nat)
    requires Good(cf) && Enabled(cf, s, act) && id in s.requests
    ensures id in Apply(cf, s, act).requests
  {
    hide Good, Effect, NextPoint, MovedAll, Batch;
  }

  /** The two versions are read by two queries, yet acceptance is as good as one atomic look:
      whenever a check started at action k has passed by state j, both versions matched in the
      very same table at some instant in between. */
  lemma AcceptanceHasAnInstant(cf: Config, run: Run, k: nat, j: nat, id: nat) returns (m: nat)
    requires Good(cf) && IsRun(cf, run) && k < |run.actions| && j <= |run.actions|
    requires Starts(run.actions[k], id)
    requires id in run.states[j].requests && Passed(run.states[j].requests[id])
    requires AppToken(run.states[j].requests[id].p)
    ensures k < m < j
    ensures Current(cf.keys, run.states[m].rows, run.states[j].requests[id].p)
    ensures Presentable(run.states[m], run.states[j].requests[id].p)
  {
    hide Good, Initial, Enabled, Apply, Version, Inv;
    var p := run.states[j].requests[id].p;
    var n := ChainInstant(cf, run, id, j);
    m := AccountInstant(cf, run, id, n);
    assert id !in run.states[k].requests by { StartIsFresh(cf, run, k, id); }
    if m <= k {
      RequestsRemain(cf, run, m, k, id);
      assert false;
    }
    PresentedThen(cf, run, m, id);
    RunRises(cf, run, m, n);
    assert Complete(p);
    assert TokenOk(cf, run.states[m].rows, p.jti, run.states[m].minted[p.jti]);
    assert Named(Chain(p.email, p.chain));
  }

  lemma StartIsFresh(cf: Config, run: Run, k: nat, id: nat)
    requires Good(cf) && IsRun(cf, run) && k < |run.actions| && Starts(run.actions[k], id)
    ensures id !in run.states[k].requests
  {
    assert Enabled(cf, run.states[k], run.actions[k]);
  }

  lemma PresentedThen(cf: Config, run: Run, m: nat, id: nat)
    requires Good(cf) && IsRun(cf, run) && m <= |run.actions|
    requires id in run.states[m].requests
    requires run.states[m].requests[id].VerifyUnmarked? || run.states[m].requests[id].RefreshDecoded?
    ensures Presentable(run.states[m], run.states[m].requests[id].p)
    ensures TokensOk(cf, run.states[m])
  {
    Reached(cf, run, m);
    assert RequestOk(cf, run.states[m], run.states[m].requests[id]);
  }

  lemma {:induction false} RotatedGrows(s: State, s': State, d: string, t: string, n: nat)
    requires Grown(s, s') && Rotated(s, d, t, n)
    ensures Rotated(s', d, t, n)
    decreases n
  {
    if n > 0 {
      RotatedGrows(s, s', s.minted[d].parent, t, n - 1);
    }
  }

  /** A request that starts after a revocation never gets the revoked token, or anything rotated
      from it, past the version check: it is neither verified nor rotated again. */
  lemma {:induction false} RevokedNeverAccepted(
    cf: Config, run: Run, i: nat, k: nat, j: nat, id: nat, t: string, d: string, n: nat)
    requires Good(cf) && IsRun(cf, run) && i <= k < |run.actions| && j <= |run.actions|
    requires t in run.states[i].minted && !Alive(cf, run.states[i], t)
    requires Starts(run.actions[k], id) && Rotated(run.states[k], d, t, n)
    requires id in run.states[j].requests
    ensures var q := run.states[j].requests[id];
            !(Passed(q) && AppToken(q.p) && q.p.jti == d)
  {
    assert |run.states| == |run.actions| + 1;
    hide Good, Initial, Enabled, Apply, IsRun, Rotated, Grown;
    var q := run.states[j].requests[id];
    if Passed(q) && AppToken(q.p) && q.p.jti == d {
      var m := AcceptanceHasAnInstant(cf, run, k, j, id);
      RunRises(cf, run, k, m);
      RotatedGrows(run.states[k], run.states[m], d, t, n);
      NoResurrection(cf, run, i, m, t, d, n);
      assert false;
    }
  }

  // ---------------------------------------------------------------- revocation

  predicate InScope(p: Payload, target: Target) {
    p.email == target.email && (target.Chain? ==> p.chain == target.chain)
  }

  /** A committed bump kills every token of its scope minted so far, and, for every target
      that is distinct from it, leaves the effective version exactly as it was. */
  lemma BumpIsExact(cf: Config, s: State, target: Target, read: nat)
    requires Good(cf) && TokensOk(cf, s) && CountersReached(cf, s.rows, BumpRead(target, read))
    ensures var s' := WriteBump(cf, s, target, read);
            && (forall t :: t in s.minted && InScope(s.minted[t].token, target) ==> !Alive(cf, s', t))
            && (forall u: Target :: Plain(u) && Distinct(cf.keys, target, u) ==>
                  Version(s'.rows, cf.keys.scope(u)) == Version(s.rows, cf.keys.scope(u)))
  {
    var s' := WriteBump(cf, s, target, read);
    BumpRaises(s.rows, cf.keys.scope(target), read);
    forall t | t in s.minted && InScope(s.minted[t].token, target) ensures !Alive(cf, s', t) {
      assert TokenOk(cf, s.rows, t, s.minted[t]);
    }
  }

  // A replay is excused within the grace period, from the address that made the claim.
  predicate Excused(cf: Config, now: nat, row: ClaimRow, ip: Option<string>) {
    cf.grace > 0 && row.at <= now <= row.at + cf.grace && row.ip == ip
  }

  // A marker of an older release excuses one if it is stamped, no older than the grace, and with
  // the same address. Such a marker wrote no address as an empty one.
  predicate ExcusedByMarker(cf: Config, s: State, jti: string, ip: Option<string>) {
    cf.grace > 0 && jti in s.markers &&
    match s.markers[jti]
    case Opaque => false
    case Stamped(at, from) => at <= s.now <= at + cf.grace && (ip == Some(from) || (ip == None && from == ""))
  }

  // How a request that presents a claimed token goes on: it is excused, or it bumps the chain of
  // its own token. Without a row on record only a marker of an older release can excuse it.
  lemma DuplicateResponse(cf: Config, s: State, q: Request, c: Choice)
    requires TokensOk(cf, s) && RequestOk(cf, s, q) && (q.RefreshDuplicate? || q.RefreshUnrecorded?)
    ensures var next := NextPoint(cf, s, q, c);
      && (q.RefreshDuplicate? && q.p.jti in s.consumed ==>
            next == if Excused(cf, s.now, s.consumed[q.p.jti], q.ip) then Closed
                    else BumpStart(Chain(q.p.email, q.p.chain)))
      && (q.RefreshDuplicate? && q.p.jti !in s.consumed && cf.grace > 0 ==> next == RefreshUnrecorded(q.p, q.ip))
      && (q.RefreshDuplicate? && cf.grace <= 0 ==> next == BumpStart(Chain(q.p.email, q.p.chain)))
      && (q.RefreshUnrecorded? ==>
            next == if ExcusedByMarker(cf, s, q.p.jti, q.ip) then Closed else BumpStart(Chain(q.p.email, q.p.chain)))
  {
    hide TokensOk;
    HeldIsOrdinary(cf, s, q.p);
  }

  lemma ChainBumpSparesOthers(cf: Config, s: State, e: string, ch: string, read: nat, t: string)
    requires Good(cf) && TokensOk(cf, s) && CountersReached(cf, s.rows, BumpRead(Chain(e, ch), read))
    requires t in s.minted && s.minted[t].token.chain != ch
    ensures Alive(cf, WriteBump(cf, s, Chain(e, ch), read), t) <==> Alive(cf, s, t)
  {
    hide Good, Bumped, Version, CountersReached;
    var p := s.minted[t].token;
    BumpIsExact(cf, s, Chain(e, ch), read);
    assert TokenOk(cf, s.rows, t, s.minted[t]);
    assert Plain(Account(p.email)) && Plain(Chain(p.email, p.chain));
    assert Distinct(cf.keys, Chain(e, ch), Account(p.email));
    assert Distinct(cf.keys, Chain(e, ch), Chain(p.email, p.chain));
  }

  /** Every bump that commits in a run strictly raises its target's effective version, whatever
      other bumps and migration batches it is interleaved with and however stale its read. */
  lemma BumpRaisesInRuns(cf: Config, run: Run, i: nat, id: nat, c: Choice, target: Target, read: nat)
    requires Good(cf) && IsRun(cf, run) && i < |run.actions|
    requires run.actions[i] == Step(id, c) && At(run.states[i], id, BumpRead(target, read))
    ensures Version(run.states[i + 1].rows, cf.keys.scope(target)) > Version(run.states[i].rows, cf.keys.scope(target))
  {
    hide Good, Initial, Bumped, Version;
    Reached(cf, run, i);
    assert RequestOk(cf, run.states[i], run.states[i].requests[id]);
    BumpCommits(cf, run, i, id, c, target, read);
    hide Inv, Enabled, Apply;
    BumpRaises(run.states[i].rows, cf.keys.scope(target), read);
  }

  lemma BumpCommits(cf: Config, run: Run, i: nat, id: nat, c: Choice, target: Target, read: nat)
    requires Good(cf) && IsRun(cf, run) && i < |run.actions|
    requires run.actions[i] == Step(id, c) && At(run.states[i], id, BumpRead(target, read))
    ensures run.states[i + 1].rows == WriteBump(cf, run.states[i], target, read).rows
    ensures run.states[i + 1].minted == run.states[i].minted
  {
    hide Good, Initial, Bumped, NextPoint;
    assert Enabled(cf, run.states[i], run.actions[i]);
  }

  /** A revocation that reports success is honest for ever: from the commit of its bump on, no
      token of its scope that existed by then, and nothing rotated from one, is current again. */
  lemma {:induction false} RevocationIsHonest(
    cf: Config, run: Run, i: nat, j: nat, id: nat, c: Choice, target: Target, read: nat,
    t: string, d: string, n: nat)
    requires Good(cf) && IsRun(cf, run) && i < j <= |run.actions|
    requires run.actions[i] == Step(id, c) && At(run.states[i], id, BumpRead(target, read))
    requires t in run.states[i].minted && InScope(run.states[i].minted[t].token, target)
    requires Rotated(run.states[j], d, t, n)
    ensures !Alive(cf, run.states[j], d)
  {
    hide Good, Initial, Rotated, Bumped;
    Reached(cf, run, i);
    assert Enabled(cf, run.states[i], run.actions[i]);
    var w := WriteBump(cf, run.states[i], target, read);
    assert run.states[i + 1] == Put(w, id, run.states[i + 1].requests[id]);
    assert RequestOk(cf, run.states[i], run.states[i].requests[id]);
    hide Inv, Enabled, Apply, CountersReached, Current;
    BumpIsExact(cf, run.states[i], target, read);
    NoResurrection(cf, run, i + 1, j, t, d, n);
  }
}

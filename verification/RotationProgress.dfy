/**
 What an undisturbed request comes to: exactly when a verification accepts, a rotation claims
 and returns, a bump commits, and a login's tokens are current.

 A request is undisturbed when it is not aborted; everything else runs between its steps.
 */
module RotationProgress {
  import opened Common
  import opened RevocationKeys
  import opened VersionStore
  import opened KeyMigration
  import opened TokenClaims
  import opened RotationSystem
  import opened RotationInvariants
  import opened RotationTheorems

  predicate Touches(act: Action, id: nat) {
    (act.Step? || act.Abort?) && act.id == id
  }

  // From state `from` on, the request takes its next step at m, and nothing else touches it before.
  predicate NextAt(run: Run, from: nat, m: nat, id: nat) {
    && from <= m < |run.actions| && run.actions[m].Step? && run.actions[m].id == id
    && (forall n :: from <= n < m ==> !Touches(run.actions[n], id))
  }

  lemma OneIdle(cf: Config, s: State, act: Action, id: nat)
    requires Good(cf) && Enabled(cf, s, act) && id in s.requests && !Touches(act, id)
    ensures id in Apply(cf, s, act).requests && Apply(cf, s, act).requests[id] == s.requests[id]
  {
    hide Good, Effect, NextPoint, MovedAll, Batch;
  }

  lemma {:induction false} Idle(cf: Config, run: Run, a: nat, b: nat, id: nat)
    requires Good(cf) && IsRun(cf, run) && a <= b <= |run.actions| && id in run.states[a].requests
    requires forall n :: a <= n < b ==> !Touches(run.actions[n], id)
    ensures id in run.states[b].requests && run.states[b].requests[id] == run.states[a].requests[id]
    decreases b
  {
    hide Good, Initial, Enabled, Apply, Touches;
    if a < b {
      Idle(cf, run, a, b - 1, id);
      OneIdle(cf, run.states[b - 1], run.actions[b - 1], id);
    }
  }

  lemma StepTaken(cf: Config, run: Run, m: nat, id: nat)
    requires Good(cf) && IsRun(cf, run) && m < |run.actions| && id in run.states[m].requests
    requires run.actions[m].Step? && run.actions[m].id == id
    ensures CanStep(cf, run.states[m], id, run.actions[m].choice)
    ensures run.states[m + 1] == Advance(cf, run.states[m], id, run.actions[m].choice)
    ensures id in run.states[m + 1].requests
    ensures run.states[m + 1].requests[id]
         == NextPoint(cf, run.states[m], run.states[m].requests[id], run.actions[m].choice)
  {
    hide Good, Effect, NextPoint;
    assert Enabled(cf, run.states[m], run.actions[m]);
  }

  // The request at its next step is where it was, and takes that step.
  lemma NextStep(cf: Config, run: Run, from: nat, m: nat, id: nat)
    requires Good(cf) && IsRun(cf, run) && NextAt(run, from, m, id) && id in run.states[from].requests
    ensures from <= m < |run.actions| && id in run.states[m].requests
    ensures run.states[m].requests[id] == run.states[from].requests[id]
    ensures CanStep(cf, run.states[m], id, run.actions[m].choice)
    ensures run.states[m + 1] == Advance(cf, run.states[m], id, run.actions[m].choice)
    ensures id in run.states[m + 1].requests
    ensures run.states[m + 1].requests[id]
         == NextPoint(cf, run.states[m], run.states[m].requests[id], run.actions[m].choice)
  {
    assert |run.states| == |run.actions| + 1;
    hide Good, Initial, Enabled, Apply, Advance, NextPoint, IsRun, CanStep;
    Idle(cf, run, from, m, id);
    StepTaken(cf, run, m, id);
  }

  // ---------------------------------------------------------------- verification

  // A claim that must equal a counter, when it is there.
  predicate Fits(claim: Claim, version: nat) {
    claim == Absent || claim == Number(version)
  }

  // Every claim an access or refresh token needs.
  predicate Whole(p: Payload) {
    && p.email != "" && p.chain != "" && p.jti != ""
    && p.accountVer.Number? && p.accountVer.value >= 0 && p.chainVer.Number? && p.chainVer.value >= 0
  }

  lemma AccountReadIff(ks: KeyScheme, rows: Rows, p: Payload)
    ensures AccountCheck(ks, rows, p) <==>
      && (AppToken(p) ==> Whole(p))
      && (p.email != "" ==> Fits(p.accountVer, Version(rows, ks.scope(Account(p.email)))))
  {
    hide Version;
  }

  lemma ChainReadIff(ks: KeyScheme, rows: Rows, p: Payload)
    ensures ChainCheck(ks, rows, p) <==>
      (p.email != "" && p.chain != "" ==> Fits(p.chainVer, Version(rows, ks.scope(Chain(p.email, p.chain)))))
  {
    hide Version;
  }

  /** Exactly when a verification accepts a token. An undisturbed one, of a genuine and unexpired
      token, accepts it if and only if it carries no marker of an older release when that is
      looked up, its claims are whole, its account version is current at the first read and its
      chain version at the second, and its type is the one asked for. */
  lemma VerificationIff(cf: Config, run: Run, k: nat, m1: nat, m2: nat, m3: nat, id: nat)
    requires Good(cf) && IsRun(cf, run) && k < m1 < m2 < m3 < |run.actions|
    requires run.actions[k].StartVerify? && run.actions[k].id == id
    requires NextAt(run, k + 1, m1, id) && NextAt(run, m1 + 1, m2, id) && NextAt(run, m2 + 1, m3, id)
    ensures id in run.states[m3 + 1].requests
    ensures var p, want := run.actions[k].p, run.actions[k].want;
      run.states[m3 + 1].requests[id] == VerifyAccepted(p) <==>
        && run.states[k].now < p.exp && p.trusted
        && (p.jti == "" || p.jti !in run.states[m1].markers)
        && (AppToken(p) ==> Whole(p))
        && (p.email != "" ==>
              Fits(p.accountVer, Version(run.states[m2].rows, cf.keys.scope(Account(p.email)))))
        && (p.email != "" && p.chain != "" ==>
              Fits(p.chainVer, Version(run.states[m3].rows, cf.keys.scope(Chain(p.email, p.chain)))))
        && (want == None || want == Some(p.typ))
  {
    assert |run.states| == |run.actions| + 1;
    hide Good, Initial, Enabled, Apply, AccountCheck, ChainCheck, Version, Advance, IsRun, NextAt, Fits, Whole,
      NextPoint, CanStep, AppToken;
    var p, want := run.actions[k].p, run.actions[k].want;
    VerifyStarts(cf, run, k, id);
    NextStep(cf, run, k + 1, m1, id);
    NextStep(cf, run, m1 + 1, m2, id);
    NextStep(cf, run, m2 + 1, m3, id);
    VerifyPoints(cf, run.states[m1], p, want, run.actions[m1].choice);
    VerifyPoints(cf, run.states[m2], p, want, run.actions[m2].choice);
    VerifyPoints(cf, run.states[m3], p, want, run.actions[m3].choice);
  }

  // The three steps of a verification.
  lemma VerifyPoints(cf: Config, s: State, p: Payload, want: Option<TokenType>, c: Choice)
    ensures NextPoint(cf, s, VerifyDecoded(p, want), c)
         == if p.jti == "" || p.jti !in s.markers then VerifyUnmarked(p, want) else Closed
    ensures NextPoint(cf, s, VerifyUnmarked(p, want), c)
         == if (AppToken(p) ==> Whole(p))
               && (p.email != "" ==> Fits(p.accountVer, Version(s.rows, cf.keys.scope(Account(p.email)))))
            then VerifyAccountOk(p, want) else Closed
    ensures NextPoint(cf, s, VerifyAccountOk(p, want), c)
         == if (p.email != "" && p.chain != "" ==>
                  Fits(p.chainVer, Version(s.rows, cf.keys.scope(Chain(p.email, p.chain)))))
               && (want == None || want == Some(p.typ))
            then VerifyAccepted(p) else Closed
    ensures NextPoint(cf, s, Closed, c) == Closed
  {
    AccountReadIff(cf.keys, s.rows, p);
    ChainReadIff(cf.keys, s.rows, p);
    hide AccountCheck, ChainCheck, Version, Fits, Whole, AppToken;
  }

  lemma VerifyStarts(cf: Config, run: Run, k: nat, id: nat)
    requires Good(cf) && IsRun(cf, run) && k < |run.actions|
    requires run.actions[k].StartVerify? && run.actions[k].id == id
    ensures var p := run.actions[k].p;
      At(run.states[k + 1], id,
         if run.states[k].now < p.exp && p.trusted then VerifyDecoded(p, run.actions[k].want) else Closed)
  {
    hide Good;
    assert Enabled(cf, run.states[k], run.actions[k]);
  }

  // ---------------------------------------------------------------- rotation

  // A refresh request that will not get the claim.
  predicate Off(q: Request) {
    q == Closed || q.RefreshDuplicate? || q.RefreshUnrecorded? || q.BumpStart? || q.BumpRead? || q.BumpDone?
  }

  lemma OffStays(cf: Config, s: State, q: Request, c: Choice)
    ensures Off(q) ==> Off(NextPoint(cf, s, q, c))
  {
    hide BenignRow, BenignMarker, Version, Bumped;
  }

  // The four steps up to the claim, on a refresh token.
  lemma ClaimPoints(cf: Config, s: State, p: Payload, ip: Option<string>, c: Choice)
    requires p.typ == Refresh
    ensures NextPoint(cf, s, RefreshDecoded(p, ip), c)
         == if Whole(p) && p.accountVer == Number(Version(s.rows, cf.keys.scope(Account(p.email))))
            then RefreshAccountOk(p, ip) else Closed
    ensures Whole(p) ==>
      NextPoint(cf, s, RefreshAccountOk(p, ip), c)
      == if p.chainVer == Number(Version(s.rows, cf.keys.scope(Chain(p.email, p.chain))))
         then RefreshCurrent(p, ip) else Closed
    ensures NextPoint(cf, s, RefreshCurrent(p, ip), c)
         == if p.jti in s.markers && !c.blind then RefreshDuplicate(p, ip) else RefreshUnmarked(p, ip)
    ensures Whole(p) ==>
      NextPoint(cf, s, RefreshUnmarked(p, ip), c)
      == if p.jti in s.consumed then RefreshDuplicate(p, ip)
         else RefreshClaimed(p, ClaimRow(s.now, p.exp, ip, p.accountVer.value, p.chainVer.value))
  {
    AccountReadIff(cf.keys, s.rows, p);
    ChainReadIff(cf.keys, s.rows, p);
    hide AccountCheck, ChainCheck, Version;
  }

  lemma RefreshStarts(cf: Config, run: Run, k: nat, id: nat)
    requires Good(cf) && IsRun(cf, run) && k < |run.actions|
    requires run.actions[k].StartRefresh? && run.actions[k].id == id
    ensures var p := run.actions[k].p;
      At(run.states[k + 1], id,
         if run.states[k].now < p.exp && p.trusted && p.jti != "" && p.typ == Refresh
         then RefreshDecoded(p, run.actions[k].ip) else Closed)
  {
    hide Good;
    assert Enabled(cf, run.states[k], run.actions[k]);
  }

  /** Exactly when a rotation is granted its claim. An undisturbed request, of a genuine, unexpired
      refresh token, gets it if and only if its account version is current at the first read and
      its chain version at the second, no marker of an older release is seen, and the claim is
      free when it is made; the claim then records the time, the expiry, the address and both
      versions. */
  lemma ClaimIff(cf: Config, run: Run, k: nat, m1: nat, m2: nat, m3: nat, m4: nat, id: nat)
    requires Good(cf) && IsRun(cf, run) && k < m1 < m2 < m3 < m4 < |run.actions|
    requires run.actions[k].StartRefresh? && run.actions[k].id == id
    requires NextAt(run, k + 1, m1, id) && NextAt(run, m1 + 1, m2, id)
    requires NextAt(run, m2 + 1, m3, id) && NextAt(run, m3 + 1, m4, id)
    ensures id in run.states[m4 + 1].requests
    ensures var p, ip := run.actions[k].p, run.actions[k].ip; var s4 := run.states[m4];
      run.states[m4 + 1].requests[id].RefreshClaimed? <==>
        && run.states[k].now < p.exp && p.trusted && p.typ == Refresh && Whole(p)
        && p.accountVer == Number(Version(run.states[m1].rows, cf.keys.scope(Account(p.email))))
        && p.chainVer == Number(Version(run.states[m2].rows, cf.keys.scope(Chain(p.email, p.chain))))
        && (p.jti !in run.states[m3].markers || run.actions[m3].choice.blind)
        && p.jti !in s4.consumed
    ensures var p, ip := run.actions[k].p, run.actions[k].ip; var s4, s5 := run.states[m4], run.states[m4 + 1];
      s5.requests[id].RefreshClaimed? ==>
        && s5.requests[id].p == p && Whole(p)
        && var row := ClaimRow(s4.now, p.exp, ip, p.accountVer.value, p.chainVer.value);
           s5.requests[id].row == row && s5.consumed == s4.consumed[p.jti := row]
  {
    assert |run.states| == |run.actions| + 1;
    hide Good, Initial, Enabled, Apply, Version, Advance, IsRun, NextAt, NextPoint, CanStep, Whole;
    VersionCheckIff(cf, run, k, m1, m2, id);
    ClaimFromCurrent(cf, run, m2 + 1, m3, m4, id, run.actions[k].p, run.actions[k].ip);
  }

  // The last two of them.
  lemma ClaimFromCurrent(cf: Config, run: Run, from: nat, m3: nat, m4: nat, id: nat, p: Payload, ip: Option<string>)
    requires Good(cf) && IsRun(cf, run) && from <= m3 < m4 < |run.actions| && id in run.states[from].requests
    requires var q := run.states[from].requests[id];
      (q == RefreshCurrent(p, ip) && Whole(p) && p.typ == Refresh) || Off(q)
    requires NextAt(run, from, m3, id) && NextAt(run, m3 + 1, m4, id)
    ensures id in run.states[m4 + 1].requests
    ensures var q, r := run.states[from].requests[id], run.states[m4 + 1].requests[id];
      r.RefreshClaimed? <==>
        && q == RefreshCurrent(p, ip) && (p.jti !in run.states[m3].markers || run.actions[m3].choice.blind)
        && p.jti !in run.states[m4].consumed
    ensures var s4, s5 := run.states[m4], run.states[m4 + 1];
      s5.requests[id].RefreshClaimed? ==>
        && s5.requests[id].p == p && Whole(p)
        && var row := ClaimRow(s4.now, p.exp, ip, p.accountVer.value, p.chainVer.value);
           s5.requests[id].row == row && s5.consumed == s4.consumed[p.jti := row]
  {
    assert |run.states| == |run.actions| + 1;
    hide Good, Initial, Enabled, Apply, Version, Advance, IsRun, NextAt, NextPoint, CanStep;
    NextStep(cf, run, from, m3, id);
    NextStep(cf, run, m3 + 1, m4, id);
    LastTwoPoints(cf, run.states[m3], run.states[m4], p, ip, run.states[from].requests[id],
                  run.actions[m3].choice, run.actions[m4].choice);
    if run.states[m4 + 1].requests[id].RefreshClaimed? {
      ClaimRecords(cf, run.states[m4], id, p, ip, run.actions[m4].choice);
    }
  }

  // The first two steps of a rotation: both versions are current, each at its own read.
  lemma VersionCheckIff(cf: Config, run: Run, k: nat, m1: nat, m2: nat, id: nat)
    requires Good(cf) && IsRun(cf, run) && k < m1 < m2 < |run.actions|
    requires run.actions[k].StartRefresh? && run.actions[k].id == id
    requires NextAt(run, k + 1, m1, id) && NextAt(run, m1 + 1, m2, id)
    ensures id in run.states[m2 + 1].requests
    ensures var p, q := run.actions[k].p, run.states[m2 + 1].requests[id];
      if run.states[k].now < p.exp && p.trusted && p.typ == Refresh && Whole(p)
         && p.accountVer == Number(Version(run.states[m1].rows, cf.keys.scope(Account(p.email))))
         && p.chainVer == Number(Version(run.states[m2].rows, cf.keys.scope(Chain(p.email, p.chain))))
      then q == RefreshCurrent(p, run.actions[k].ip)
      else Off(q)
  {
    assert |run.states| == |run.actions| + 1;
    hide Good, Initial, Enabled, Apply, Version, Advance, IsRun, NextAt, NextPoint, CanStep, Off;
    RefreshStarts(cf, run, k, id);
    NextStep(cf, run, k + 1, m1, id);
    NextStep(cf, run, m1 + 1, m2, id);
    FirstTwoPoints(cf, run.states[m1], run.states[m2], run.actions[k].p, run.actions[k].ip,
                   run.states[k + 1].requests[id], run.actions[m1].choice, run.actions[m2].choice);
  }

  lemma FirstTwoPoints(cf: Config, s1: State, s2: State, p: Payload, ip: Option<string>, q: Request, c1: Choice,
                       c2: Choice)
    requires (q == RefreshDecoded(p, ip) && p.typ == Refresh) || q == Closed
    ensures var r := NextPoint(cf, s2, NextPoint(cf, s1, q, c1), c2);
      if q == RefreshDecoded(p, ip) && Whole(p)
         && p.accountVer == Number(Version(s1.rows, cf.keys.scope(Account(p.email))))
         && p.chainVer == Number(Version(s2.rows, cf.keys.scope(Chain(p.email, p.chain))))
      then r == RefreshCurrent(p, ip)
      else Off(r)
  {
    OffStays(cf, s1, Closed, c1);
    OffStays(cf, s2, NextPoint(cf, s1, Closed, c1), c2);
    OffStays(cf, s2, Closed, c2);
    if q != Closed {
      ClaimPoints(cf, s1, p, ip, c1);
      ClaimPoints(cf, s2, p, ip, c2);
      hide NextPoint, Version, Whole;
    }
  }

  // From there to the claim, or off.
  lemma LastTwoPoints(cf: Config, s3: State, s4: State, p: Payload, ip: Option<string>, q: Request, c3: Choice,
                      c4: Choice)
    requires (q == RefreshCurrent(p, ip) && Whole(p) && p.typ == Refresh) || Off(q)
    ensures var r := NextPoint(cf, s4, NextPoint(cf, s3, q, c3), c4);
      if q == RefreshCurrent(p, ip) && (p.jti !in s3.markers || c3.blind) && p.jti !in s4.consumed
      then r == RefreshClaimed(p, ClaimRow(s4.now, p.exp, ip, p.accountVer.value, p.chainVer.value))
      else Off(r)
    ensures var r4 := NextPoint(cf, s3, q, c3);
      NextPoint(cf, s4, r4, c4).RefreshClaimed? ==> r4 == RefreshUnmarked(p, ip)
  {
    if Off(q) {
      OffStays(cf, s3, q, c3);
      OffStays(cf, s4, NextPoint(cf, s3, q, c3), c4);
      hide NextPoint;
    } else {
      ClaimPoints(cf, s3, p, ip, c3);
      ClaimPoints(cf, s4, p, ip, c4);
      OffStays(cf, s4, RefreshDuplicate(p, ip), c4);
      hide NextPoint, Version;
    }
  }

  lemma ClaimRecords(cf: Config, s: State, id: nat, p: Payload, ip: Option<string>, c: Choice)
    requires CanStep(cf, s, id, c) && At(s, id, RefreshUnmarked(p, ip)) && Whole(p) && p.jti !in s.consumed
    ensures Advance(cf, s, id, c).consumed
         == s.consumed[p.jti := ClaimRow(s.now, p.exp, ip, p.accountVer.value, p.chainVer.value)]
  {
    hide NextPoint, Granted;
  }

  /** How a replay is answered. An undisturbed request for a token that is current and already
      claimed comes to nothing, if the claim is no older than the grace and was made from the same
      address; otherwise it bumps the counter of the token's chain, and every token of that chain
      minted by then is dead from then on, with everything rotated from it. */
  lemma {:induction false} ReplayIsAnswered(
    cf: Config, run: Run, k: nat, m1: nat, m2: nat, m3: nat, m4: nat, m5: nat, m6: nat, m7: nat, id: nat, j: nat,
    t: string, d: string, n: nat)
    requires Good(cf) && IsRun(cf, run) && k < m1 < m2 < m3 < m4 < m5 < m6 < m7 < j <= |run.actions|
    requires run.actions[k].StartRefresh? && run.actions[k].id == id && run.actions[m3].Step?
    requires var p := run.actions[k].p;
      && run.states[k].now < p.exp && p.trusted && p.typ == Refresh && Whole(p)
      && p.accountVer == Number(Version(run.states[m1].rows, cf.keys.scope(Account(p.email))))
      && p.chainVer == Number(Version(run.states[m2].rows, cf.keys.scope(Chain(p.email, p.chain))))
      && (p.jti !in run.states[m3].markers || run.actions[m3].choice.blind)
      && p.jti in run.states[m4].consumed && p.jti in run.states[m5].consumed
    requires NextAt(run, k + 1, m1, id) && NextAt(run, m1 + 1, m2, id)
    requires NextAt(run, m2 + 1, m3, id) && NextAt(run, m3 + 1, m4, id)
    requires NextAt(run, m4 + 1, m5, id) && NextAt(run, m5 + 1, m6, id) && NextAt(run, m6 + 1, m7, id)
    ensures id in run.states[m7 + 1].requests
    ensures var p, s := run.actions[k].p, run.states[m5];
      var target, q := Chain(p.email, p.chain), run.states[m7 + 1].requests[id];
      if Excused(cf, s.now, s.consumed[p.jti], run.actions[k].ip) then q == Closed
      else
        && q == BumpDone(target, Version(run.states[m7 + 1].rows, cf.keys.scope(target)))
        && (t in run.states[m7].minted && InScope(run.states[m7].minted[t].token, target) ==>
              Rotated(run.states[j], d, t, n) ==>
                !Alive(cf, run.states[j], d))
  {
    assert |run.states| == |run.actions| + 1;
    hide Good, IsRun, NextAt, Whole, Version, Excused, InScope, Rotated, Alive, Off;
    var p, ip := run.actions[k].p, run.actions[k].ip;
    VersionCheckIff(cf, run, k, m1, m2, id);
    FindsClaim(cf, run, m2 + 1, m3, m4, id, p, ip);
    DuplicateIsAnswered(cf, run, m4 + 1, m5, m6, m7, id, p, ip, j, t, d, n);
  }

  // The two steps that find the claim taken.
  lemma FindsClaim(cf: Config, run: Run, from: nat, m3: nat, m4: nat, id: nat, p: Payload, ip: Option<string>)
    requires Good(cf) && IsRun(cf, run) && from <= m3 < m4 < |run.actions|
    requires At(run.states[from], id, RefreshCurrent(p, ip)) && Whole(p) && p.typ == Refresh
    requires NextAt(run, from, m3, id) && NextAt(run, m3 + 1, m4, id)
    requires p.jti !in run.states[m3].markers || run.actions[m3].choice.blind
    requires p.jti in run.states[m4].consumed
    ensures At(run.states[m4 + 1], id, RefreshDuplicate(p, ip))
  {
    assert |run.states| == |run.actions| + 1;
    hide Good, Initial, Enabled, Apply, Version, Advance, IsRun, NextAt, NextPoint, CanStep, Whole;
    NextStep(cf, run, from, m3, id);
    ClaimPoints(cf, run.states[m3], p, ip, run.actions[m3].choice);
    NextStep(cf, run, m3 + 1, m4, id);
    ClaimPoints(cf, run.states[m4], p, ip, run.actions[m4].choice);
  }

  // The same from the point at which the claim was found taken.
  lemma {:induction false} DuplicateIsAnswered(
    cf: Config, run: Run, from: nat, m5: nat, m6: nat, m7: nat, id: nat, p: Payload, ip: Option<string>, j: nat,
    t: string, d: string, n: nat)
    requires Good(cf) && IsRun(cf, run) && from <= |run.actions| && m5 < |run.actions| && m6 < |run.actions|
    requires m7 < j <= |run.actions| && NextAt(run, from, m5, id)
    requires NextAt(run, m5 + 1, m6, id) && NextAt(run, m6 + 1, m7, id)
    requires At(run.states[from], id, RefreshDuplicate(p, ip)) && p.jti in run.states[m5].consumed
    ensures id in run.states[m7 + 1].requests
    ensures var s, q, target := run.states[m5], run.states[m7 + 1].requests[id], Chain(p.email, p.chain);
      if Excused(cf, s.now, s.consumed[p.jti], ip) then q == Closed
      else
        && q == BumpDone(target, Version(run.states[m7 + 1].rows, cf.keys.scope(target)))
        && (t in run.states[m7].minted && InScope(run.states[m7].minted[t].token, target) ==>
              Rotated(run.states[j], d, t, n) ==>
                !Alive(cf, run.states[j], d))
  {
    assert |run.states| == |run.actions| + 1;
    hide Good, Initial, Enabled, Apply, Version, Advance, IsRun, NextAt, NextPoint, CanStep, Excused, Alive, InScope,
      Inv, TokensOk, RequestOk, Rotated;
    NextStep(cf, run, from, m5, id);
    NextStep(cf, run, m5 + 1, m6, id);
    NextStep(cf, run, m6 + 1, m7, id);
    AnswersDuplicate(cf, run, m5, id, run.actions[m5].choice);
    if Excused(cf, run.states[m5].now, run.states[m5].consumed[p.jti], ip) {
      AnswerPoints(cf, run.states[m6], p, "", "", run.actions[m6].choice);
      AnswerPoints(cf, run.states[m7], p, "", "", run.actions[m7].choice);
    } else {
      var target := Chain(p.email, p.chain);
      var read := BumpPoint(cf, run.states[m6], target, run.actions[m6].choice);
      BumpCommits(cf, run, m7, id, run.actions[m7].choice, target, read);
      BumpAnswers(cf, run.states[m7], target, read, run.actions[m7].choice);
      if t in run.states[m7].minted && InScope(run.states[m7].minted[t].token, target)
         && Rotated(run.states[j], d, t, n) {
        RevocationIsHonest(cf, run, m7, j, id, run.actions[m7].choice, target, read, t, d, n);
      }
    }
  }

  lemma AnswersDuplicate(cf: Config, run: Run, m: nat, id: nat, c: Choice)
    requires Good(cf) && IsRun(cf, run) && m < |run.states| && id in run.states[m].requests
    requires var q := run.states[m].requests[id]; q.RefreshDuplicate? && q.p.jti in run.states[m].consumed
    ensures var s := run.states[m]; var q := s.requests[id];
      NextPoint(cf, s, q, c) == if Excused(cf, s.now, s.consumed[q.p.jti], q.ip) then Closed
                                else BumpStart(Chain(q.p.email, q.p.chain))
  {
    assert |run.states| == |run.actions| + 1;
    hide Good, IsRun, TokensOk, NextPoint, Excused;
    Reached(cf, run, m);
    assert RequestOk(cf, run.states[m], run.states[m].requests[id]);
    DuplicateResponse(cf, run.states[m], run.states[m].requests[id], c);
  }

  // ---------------------------------------------------------------- from the claim to the pair

  // The token a rotation makes of the presented one.
  function ChildOf(p: Payload, typ: TokenType, jti: string, exp: int): Payload {
    p.(typ := typ, jti := jti, exp := exp, trusted := true)
  }

  // The four steps from the claim to the answer.
  lemma MintPoint(cf: Config, s: State, p: Payload, row: ClaimRow, c: Choice)
    ensures NextPoint(cf, s, RefreshClaimed(p, row), c)
         == if s.now < row.at + cf.refreshLife then RefreshMinted(p, c.access, c.refresh) else Closed
  {
  }

  lemma RecheckPoints(cf: Config, s: State, p: Payload, a: string, r: string, exp: int, c: Choice)
    requires Whole(p) && r != "" && r in s.minted && s.minted[r].token == ChildOf(p, Refresh, r, exp)
    ensures NextPoint(cf, s, RefreshMinted(p, a, r), c)
         == if p.accountVer == Number(Version(s.rows, cf.keys.scope(Account(p.email))))
            then RefreshChildAccountOk(p, a, r) else Closed
    ensures NextPoint(cf, s, RefreshChildAccountOk(p, a, r), c)
         == if p.chainVer == Number(Version(s.rows, cf.keys.scope(Chain(p.email, p.chain))))
            then RefreshChecked(p, a, r) else Closed
  {
    AccountReadIff(cf.keys, s.rows, s.minted[r].token);
    ChainReadIff(cf.keys, s.rows, s.minted[r].token);
    hide AccountCheck, ChainCheck, Version;
  }

  lemma AnswerPoints(cf: Config, s: State, p: Payload, a: string, r: string, c: Choice)
    ensures NextPoint(cf, s, RefreshChecked(p, a, r), c) == RefreshReturned(p, a, r)
    ensures NextPoint(cf, s, Closed, c) == Closed
  {
  }

  // The mint makes both tokens, with the claim's versions and expiries counted from the claim.
  lemma MintMakes(cf: Config, s: State, id: nat, p: Payload, row: ClaimRow, c: Choice)
    requires CanStep(cf, s, id, c) && At(s, id, RefreshClaimed(p, row)) && Whole(p)
    requires row.accountVer == p.accountVer.value && row.chainVer == p.chainVer.value
    ensures c.access != c.refresh && c.refresh != ""
    ensures var m := Advance(cf, s, id, c).minted;
      && c.access in m && m[c.access] == Minted(ChildOf(p, Access, c.access, row.at + cf.accessLife), p.jti)
      && c.refresh in m && m[c.refresh] == Minted(ChildOf(p, Refresh, c.refresh, row.at + cf.refreshLife), p.jti)
  {
    hide NextPoint;
  }

  /** Exactly when a claim is answered with a pair. An undisturbed request that holds the claim
      returns if and only if it mints before the new refresh token would be expired and the
      re-check finds the account version current at its first read and the chain version at its
      second; the pair then carries the presented token's claims, with new identifiers, and
      expires the configured lives after the claim. */
  lemma ReturnIff(cf: Config, run: Run, k: nat, m1: nat, m2: nat, m3: nat, m4: nat, id: nat, p: Payload, row: ClaimRow)
    requires Good(cf) && IsRun(cf, run) && k <= m1 < m2 < m3 < m4 < |run.actions|
    requires At(run.states[k], id, RefreshClaimed(p, row)) && Whole(p)
    requires row.accountVer == p.accountVer.value && row.chainVer == p.chainVer.value
    requires NextAt(run, k, m1, id) && NextAt(run, m1 + 1, m2, id)
    requires NextAt(run, m2 + 1, m3, id) && NextAt(run, m3 + 1, m4, id)
    ensures id in run.states[m4 + 1].requests
    ensures var s, c := run.states[m4 + 1], run.actions[m1].choice;
      s.requests[id] == RefreshReturned(p, c.access, c.refresh) <==>
        && run.states[m1].now < row.at + cf.refreshLife
        && p.accountVer == Number(Version(run.states[m2].rows, cf.keys.scope(Account(p.email))))
        && p.chainVer == Number(Version(run.states[m3].rows, cf.keys.scope(Chain(p.email, p.chain))))
    ensures var s, c := run.states[m4 + 1], run.actions[m1].choice;
      s.requests[id] == RefreshReturned(p, c.access, c.refresh) ==>
        && c.access != c.refresh && {c.access, c.refresh} <= s.issued
        && c.access in s.minted && s.minted[c.access].token == ChildOf(p, Access, c.access, row.at + cf.accessLife)
        && c.refresh in s.minted
        && s.minted[c.refresh].token == ChildOf(p, Refresh, c.refresh, row.at + cf.refreshLife)
  {
    assert |run.states| == |run.actions| + 1;
    hide Good, Initial, Enabled, Apply, Version, Advance, IsRun, NextAt, NextPoint, CanStep, Whole;
    var c := run.actions[m1].choice;
    NextStep(cf, run, k, m1, id);
    MintPoint(cf, run.states[m1], p, row, c);
    MintMakes(cf, run.states[m1], id, p, row, c);
    if run.states[m1].now < row.at + cf.refreshLife {
      RecheckIff(cf, run, m1 + 1, m2, m3, m4, id, p, c.access, c.refresh, row.at + cf.refreshLife);
      RunRises(cf, run, m1 + 1, m4 + 1);
      hide ChildOf;
    } else {
      ClosedForGood(cf, run, m1 + 1, m4 + 1, id);
    }
  }

  lemma {:induction false} ClosedForGood(cf: Config, run: Run, a: nat, b: nat, id: nat)
    requires Good(cf) && IsRun(cf, run) && a <= b <= |run.actions| && At(run.states[a], id, Closed)
    ensures At(run.states[b], id, Closed)
    decreases b
  {
    hide Good, Initial, Enabled, Apply;
    if a < b {
      ClosedForGood(cf, run, a, b - 1, id);
      ClosedStep(cf, run.states[b - 1], run.actions[b - 1], id);
    }
  }

  lemma ClosedStep(cf: Config, s: State, act: Action, id: nat)
    requires Good(cf) && Enabled(cf, s, act) && At(s, id, Closed)
    ensures At(Apply(cf, s, act), id, Closed)
  {
    hide Good, Effect, MovedAll, Batch;
  }

  // The re-check of a minted pair, and its return.
  lemma RecheckIff(
    cf: Config, run: Run, from: nat, m2: nat, m3: nat, m4: nat, id: nat, p: Payload, a: string, r: string, exp: int)
    requires Good(cf) && IsRun(cf, run) && from <= m2 < m3 < m4 < |run.actions|
    requires At(run.states[from], id, RefreshMinted(p, a, r)) && Whole(p) && r != ""
    requires r in run.states[from].minted && run.states[from].minted[r].token == ChildOf(p, Refresh, r, exp)
    requires NextAt(run, from, m2, id) && NextAt(run, m2 + 1, m3, id) && NextAt(run, m3 + 1, m4, id)
    ensures id in run.states[m4 + 1].requests
    ensures var s := run.states[m4 + 1];
      s.requests[id] == RefreshReturned(p, a, r) <==>
        && p.accountVer == Number(Version(run.states[m2].rows, cf.keys.scope(Account(p.email))))
        && p.chainVer == Number(Version(run.states[m3].rows, cf.keys.scope(Chain(p.email, p.chain))))
    ensures run.states[m4 + 1].requests[id] == RefreshReturned(p, a, r) ==> {a, r} <= run.states[m4 + 1].issued
  {
    assert |run.states| == |run.actions| + 1;
    hide Good, Initial, Enabled, Apply, Version, Advance, IsRun, NextAt, NextPoint, CanStep, Whole, ChildOf;
    NextStep(cf, run, from, m2, id);
    NextStep(cf, run, m2 + 1, m3, id);
    NextStep(cf, run, m3 + 1, m4, id);
    RunRises(cf, run, from, m2);
    RunRises(cf, run, from, m3);
    RecheckPoints(cf, run.states[m2], p, a, r, exp, run.actions[m2].choice);
    RecheckPoints(cf, run.states[m3], p, a, r, exp, run.actions[m3].choice);
    AnswerPoints(cf, run.states[m3], p, a, r, run.actions[m3].choice);
    AnswerPoints(cf, run.states[m4], p, a, r, run.actions[m4].choice);
    if At(run.states[m4], id, RefreshChecked(p, a, r)) {
      HandsOut(cf, run.states[m4], id, p, a, r, run.actions[m4].choice);
    }
  }

  lemma HandsOut(cf: Config, s: State, id: nat, p: Payload, a: string, r: string, c: Choice)
    requires CanStep(cf, s, id, c) && At(s, id, RefreshChecked(p, a, r))
    ensures {a, r} <= Advance(cf, s, id, c).issued
  {
    hide NextPoint;
  }

  // ---------------------------------------------------------------- bumps and logins

  /** A bump that is not disturbed commits at its second step: it raises its target's effective
      version strictly and answers with the version it left. */
  lemma BumpCompletes(cf: Config, run: Run, k: nat, m1: nat, m2: nat, id: nat)
    requires Good(cf) && IsRun(cf, run) && k < m1 < m2 < |run.actions|
    requires run.actions[k].StartBump? && run.actions[k].id == id
    requires NextAt(run, k + 1, m1, id) && NextAt(run, m1 + 1, m2, id)
    ensures id in run.states[m2 + 1].requests
    ensures var t := run.actions[k].target; var v := Version(run.states[m2 + 1].rows, cf.keys.scope(t));
      && run.states[m2 + 1].requests[id] == BumpDone(t, v)
      && v > Version(run.states[m2].rows, cf.keys.scope(t))
  {
    assert |run.states| == |run.actions| + 1;
    hide Good, Initial, Enabled, Apply, Version, IsRun, NextAt, NextPoint, CanStep, Advance;
    var t := run.actions[k].target;
    BumpStarts(cf, run, k, id);
    NextStep(cf, run, k + 1, m1, id);
    NextStep(cf, run, m1 + 1, m2, id);
    var read := BumpPoint(cf, run.states[m1], t, run.actions[m1].choice);
    BumpRaisesInRuns(cf, run, m2, id, run.actions[m2].choice, t, read);
    BumpCommits(cf, run, m2, id, run.actions[m2].choice, t, read);
    BumpAnswers(cf, run.states[m2], t, read, run.actions[m2].choice);
  }

  lemma BumpStarts(cf: Config, run: Run, k: nat, id: nat)
    requires Good(cf) && IsRun(cf, run) && k < |run.actions|
    requires run.actions[k].StartBump? && run.actions[k].id == id
    ensures At(run.states[k + 1], id, BumpStart(run.actions[k].target))
  {
    hide Good;
    assert Enabled(cf, run.states[k], run.actions[k]);
  }

  lemma BumpPoint(cf: Config, s: State, t: Target, c: Choice) returns (read: nat)
    ensures NextPoint(cf, s, BumpStart(t), c) == BumpRead(t, read)
  {
    read := NextPoint(cf, s, BumpStart(t), c).read;
  }

  lemma BumpAnswers(cf: Config, s: State, t: Target, read: nat, c: Choice)
    ensures NextPoint(cf, s, BumpRead(t, read), c)
         == BumpDone(t, Version(WriteBump(cf, s, t, read).rows, cf.keys.scope(t)))
  {
  }

  lemma MintStarts(cf: Config, run: Run, k: nat, id: nat)
    requires Good(cf) && IsRun(cf, run) && k < |run.actions|
    requires run.actions[k].StartMint? && run.actions[k].id == id
    ensures var act := run.actions[k];
      && At(run.states[k + 1], id, MintStart(act.email, act.chain, act.typ, run.states[k].now))
      && PlainEmail(act.email) && ChainName(act.chain) && (act.typ == Access || act.typ == Refresh)
  {
    hide Good;
    assert Enabled(cf, run.states[k], run.actions[k]);
  }

  lemma RootPoint(cf: Config, s: State, e: string, ch: string, typ: TokenType, at: nat, c: Choice)
    ensures NextPoint(cf, s, MintStart(e, ch, typ, at), c)
         == MintRead(e, ch, typ, at, Version(s.rows, cf.keys.scope(Account(e))),
                     Version(s.rows, cf.keys.scope(Chain(e, ch))))
  {
  }

  lemma RootMakes(cf: Config, s: State, id: nat, c: Choice)
    requires CanStep(cf, s, id, c) && id in s.requests && s.requests[id].MintRead?
    ensures c.access != ""
    ensures var q, s' := s.requests[id], Advance(cf, s, id, c);
      && c.access in s'.minted && c.access in s'.issued && s'.rows == s.rows
      && s'.minted[c.access] ==
           Minted(Payload(q.email, q.typ, c.access, q.chain, Number(q.accountVer), Number(q.chainVer),
                          q.at + (if q.typ == Refresh then cf.refreshLife else cf.accessLife), true), "")
  {
    hide NextPoint;
  }

  // The first step of a login reads both counters.
  lemma MintReads(cf: Config, run: Run, k: nat, m: nat, id: nat)
    requires Good(cf) && IsRun(cf, run) && k < m < |run.actions|
    requires run.actions[k].StartMint? && run.actions[k].id == id && NextAt(run, k + 1, m, id)
    ensures var act := run.actions[k];
      && At(run.states[m + 1], id,
            MintRead(act.email, act.chain, act.typ, run.states[k].now,
                     Version(run.states[m].rows, cf.keys.scope(Account(act.email))),
                     Version(run.states[m].rows, cf.keys.scope(Chain(act.email, act.chain)))))
      && PlainEmail(act.email) && ChainName(act.chain) && (act.typ == Access || act.typ == Refresh)
  {
    assert |run.states| == |run.actions| + 1;
    hide Good, Initial, Enabled, Apply, Version, IsRun, NextAt, NextPoint, CanStep, Advance, PlainEmail, ChainName;
    var act := run.actions[k];
    MintStarts(cf, run, k, id);
    NextStep(cf, run, k + 1, m, id);
    RootPoint(cf, run.states[m], act.email, act.chain, act.typ, run.states[k].now, run.actions[m].choice);
  }

  // The second hands out the token.
  lemma MintHandsOut(cf: Config, run: Run, from: nat, m: nat, id: nat)
    requires Good(cf) && IsRun(cf, run) && from <= m < |run.actions| && run.actions[m].Step?
    requires id in run.states[from].requests && run.states[from].requests[id].MintRead? && NextAt(run, from, m, id)
    ensures var q, jti, s := run.states[from].requests[id], run.actions[m].choice.access, run.states[m + 1];
      && jti != "" && jti in s.issued && jti in s.minted && s.rows == run.states[m].rows
      && s.minted[jti] ==
           Minted(Payload(q.email, q.typ, jti, q.chain, Number(q.accountVer), Number(q.chainVer),
                          q.at + (if q.typ == Refresh then cf.refreshLife else cf.accessLife), true), "")
  {
    assert |run.states| == |run.actions| + 1;
    hide Good, Initial, Enabled, Apply, IsRun, NextAt, NextPoint, CanStep, Advance;
    NextStep(cf, run, from, m, id);
    RootMakes(cf, run.states[m], id, run.actions[m].choice);
  }

  /** What a login hands out. An undisturbed mint reads both counters at its first step and hands out
      at its second a root token with those versions, expiring its type's configured life after
      the start. The token is current when it appears if and only if neither counter moved between
      the two; so without a revocation in between, a login is never dead on arrival. */
  lemma LoginTokenIsCurrentIff(cf: Config, run: Run, k: nat, m1: nat, m2: nat, id: nat)
    requires Good(cf) && IsRun(cf, run) && k < m1 < m2 < |run.actions|
    requires run.actions[k].StartMint? && run.actions[k].id == id
    requires run.actions[m2].Step? && NextAt(run, k + 1, m1, id) && NextAt(run, m1 + 1, m2, id)
    ensures var act, jti := run.actions[k], run.actions[m2].choice.access; var s := run.states[m2 + 1];
      var account, chain := cf.keys.scope(Account(act.email)), cf.keys.scope(Chain(act.email, act.chain));
      && jti in s.issued && jti in s.minted
      && s.minted[jti] ==
           Minted(Payload(act.email, act.typ, jti, act.chain,
                          Number(Version(run.states[m1].rows, account)), Number(Version(run.states[m1].rows, chain)),
                          run.states[k].now + (if act.typ == Refresh then cf.refreshLife else cf.accessLife), true), "")
      && (Alive(cf, s, jti) <==>
            && Version(run.states[m2].rows, account) == Version(run.states[m1].rows, account)
            && Version(run.states[m2].rows, chain) == Version(run.states[m1].rows, chain))
  {
    assert |run.states| == |run.actions| + 1;
    hide Good, IsRun, NextAt, Version, Alive;
    MintReads(cf, run, k, m1, id);
    MintHandsOut(cf, run, m1 + 1, m2, id);
    AliveIff(cf, run.states[m2 + 1], run.actions[m2].choice.access);
  }

  lemma AliveIff(cf: Config, s: State, j: string)
    requires j in s.minted && AppToken(s.minted[j].token) && Whole(s.minted[j].token)
    ensures var p := s.minted[j].token;
      Alive(cf, s, j) <==>
        && p.accountVer == Number(Version(s.rows, cf.keys.scope(Account(p.email))))
        && p.chainVer == Number(Version(s.rows, cf.keys.scope(Chain(p.email, p.chain))))
  {
    AccountReadIff(cf.keys, s.rows, s.minted[j].token);
    ChainReadIff(cf.keys, s.rows, s.minted[j].token);
    hide Version, AccountCheck, ChainCheck;
  }

  // ---------------------------------------------------------------- the environment

  lemma {:induction false} MarkersStay(cf: Config, run: Run, a: nat, b: nat)
    requires Good(cf) && IsRun(cf, run) && a <= b <= |run.actions|
    requires forall n :: a <= n < b ==> !run.actions[n].SetMarkers?
    ensures run.states[b].markers == run.states[a].markers
    decreases b
  {
    hide Good, Initial, Enabled, Apply;
    if a < b {
      MarkersStay(cf, run, a, b - 1);
      assert run.states[b] == Apply(cf, run.states[b - 1], run.actions[b - 1]);
      OneKeepsMarkers(cf, run.states[b - 1], run.actions[b - 1]);
    }
  }

  lemma OneKeepsMarkers(cf: Config, s: State, act: Action)
    requires Good(cf) && Enabled(cf, s, act) && !act.SetMarkers?
    ensures Apply(cf, s, act).markers == s.markers
  {
    hide Good, Effect, NextPoint, MovedAll, Batch;
  }

  /** A token that an older release revoked by a marker is refused for as long as the marker is
      there: a verification that looks it up in that time is closed, and stays closed. */
  lemma MarkedIsRefused(cf: Config, run: Run, i: nat, k: nat, m: nat, j: nat, id: nat)
    requires Good(cf) && IsRun(cf, run) && i < m < j <= |run.actions| && k < m
    requires run.actions[i].SetMarkers? && forall n :: i < n < m ==> !run.actions[n].SetMarkers?
    requires run.actions[k].StartVerify? && run.actions[k].id == id && NextAt(run, k + 1, m, id)
    requires run.actions[k].p.jti != "" && run.actions[k].p.jti in run.actions[i].markers
    ensures At(run.states[j], id, Closed)
  {
    assert |run.states| == |run.actions| + 1;
    assert run.states[i + 1].markers == run.actions[i].markers by {
      hide Good, Initial;
      assert run.states[i + 1] == Apply(cf, run.states[i], run.actions[i]);
    }
    hide Good, Initial, Enabled, Apply, Advance, IsRun, NextAt, NextPoint, CanStep;
    MarkersStay(cf, run, i + 1, m);
    VerifyStarts(cf, run, k, id);
    NextStep(cf, run, k + 1, m, id);
    VerifyPoints(cf, run.states[m], run.actions[k].p, run.actions[k].want, run.actions[m].choice);
    ClosedForGood(cf, run, m + 1, j, id);
  }

  /** A migration batch does its work in the middle of everything else: exactly its legacy rows go,
      those that are left keep their counters, and no target's effective version falls. */
  lemma BatchInRun(cf: Config, run: Run, i: nat, batch: seq<string>, t: Target)
    requires Good(cf) && IsRun(cf, run) && i < |run.actions| && run.actions[i] == MigrateBatch(batch) && Named(t)
    ensures LegacyKeys(cf.keys, run.states[i + 1].rows) == LegacyKeys(cf.keys, run.states[i].rows) - Elems(batch)
    ensures forall k :: k in LegacyKeys(cf.keys, run.states[i + 1].rows) ==>
              k in run.states[i].rows && run.states[i + 1].rows[k] == run.states[i].rows[k]
    ensures Version(run.states[i + 1].rows, cf.keys.scope(t)) >= Version(run.states[i].rows, cf.keys.scope(t))
  {
    assert Enabled(cf, run.states[i], run.actions[i]);
    assert run.states[i + 1] == Apply(cf, run.states[i], run.actions[i]);
    assert Sound(cf.keys) && Safe(cf.keys, cf.keys.scope(t));
    hide Good, IsRun, Version, Safe, Sound;
    BatchKeepsVersion(cf.keys, run.states[i].rows, batch, cf.keys.scope(t));
  }
}

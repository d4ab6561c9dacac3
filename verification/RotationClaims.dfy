/**
 Single use of refresh tokens: what every step keeps of the claim registry.
 */
module RotationClaims {
  import opened Common
  import opened RevocationKeys
  import opened VersionStore
  import opened KeyMigration
  import opened TokenClaims
  import opened RotationSystem
  import opened RotationInvariants

  ghost predicate Expired(s: State, jti: string) {
    jti in s.minted && s.minted[jti].token.exp < s.now
  }

  ghost predicate Windowed(s: State, jti: string) {
    exists id :: id in s.requests && Window(s.requests[id], jti)
  }

  function Grants(s: State, jti: string): nat {
    Count(s.history.grants, jti)
  }

  // Claims are made for handed-out refresh tokens, and a row of the registry carries the
  // expiry of its token.
  ghost predicate ClaimsOk(s: State) {
    && s.issued <= s.minted.Keys
    && (forall j :: Grants(s, j) > 0 ==> j in s.issued && s.minted[j].token.typ == Refresh)
    && (forall j :: j in s.consumed ==>
          j in s.minted && s.consumed[j].expires == s.minted[j].token.exp && Grants(s, j) > 0)
  }

  // A claim is granted at most once, unless the row was purged under a waiting request; and once
  // granted it stays blocked: by its row, or by the token having expired with nobody waiting on it.
  ghost predicate UsedOnce(s: State, j: string) {
    Grants(s, j) > 0 && j !in s.history.overtaken ==>
      && Grants(s, j) == 1
      && (j in s.consumed || (Expired(s, j) && !Windowed(s, j)))
  }

  ghost predicate SingleUse(s: State) {
    forall j :: UsedOnce(s, j)
  }

  // ---------------------------------------------------------------- the registry

  lemma GrowthKeepsClaims(s: State, s': State)
    requires ClaimsOk(s) && Grown(s, s') && s'.issued <= s'.minted.Keys
    requires s'.history.grants == s.history.grants
    requires forall j :: j in s'.consumed ==> j in s.consumed && s'.consumed[j] == s.consumed[j]
    ensures ClaimsOk(s')
  {
  }

  lemma RecordKeepsClaims(s: State, p: Payload, ip: Option<string>)
    requires ClaimsOk(s) && Held(s, p)
    ensures ClaimsOk(Record(s, p, ip))
  {
  }

  lemma EffectKeepsClaims(cf: Config, s: State, q: Request, c: Choice)
    requires RequestOk(cf, s, q) && ClaimsOk(s)
    requires q.RefreshClaimed? || q.MintRead? ==> c.access !in s.minted
    requires q.RefreshClaimed? ==> c.refresh !in s.minted
    ensures ClaimsOk(Effect(cf, s, q, c))
  {
    hide Bumped, ClaimsOk, Granted, Child, Record, CountersReached;
    var s' := Effect(cf, s, q, c);
    if q.RefreshUnmarked? {
      RecordKeepsClaims(s, q.p, q.ip);
    } else {
      IssuedAreMinted(s);
      GrowthKeepsClaims(s, s');
    }
  }

  lemma IssuedAreMinted(s: State)
    requires ClaimsOk(s)
    ensures s.issued <= s.minted.Keys
  {
  }

  lemma ClaimsIgnoreRequests(s: State, id: nat, q: Request)
    requires ClaimsOk(s)
    ensures ClaimsOk(Put(s, id, q))
  {
  }

  lemma ClaimsStayOk(cf: Config, s: State, act: Action)
    requires Good(cf) && Enabled(cf, s, act) && RequestsOk(cf, s) && ClaimsOk(s)
    ensures ClaimsOk(Apply(cf, s, act))
  {
    hide Good, Effect, NextPoint, ClaimsOk, RequestOk, MovedAll, Batch;
    if act.Step? {
      var q := s.requests[act.id];
      EffectKeepsClaims(cf, s, q, act.choice);
      ClaimsIgnoreRequests(Effect(cf, s, q, act.choice), act.id, NextPoint(cf, s, q, act.choice));
    } else {
      IssuedAreMinted(s);
      GrowthKeepsClaims(s, Apply(cf, s, act));
    }
  }

  // ---------------------------------------------------------------- single use

  lemma PointStaysInWindow(cf: Config, s: State, q: Request, c: Choice, j: string)
    requires Window(NextPoint(cf, s, q, c), j)
    ensures Window(q, j)
  {
    hide AccountCheck, ChainCheck, Version, BenignRow, BenignMarker;
  }

  // Nothing joins the window of an expired token.
  lemma WindowShrinks(cf: Config, s: State, act: Action, j: string)
    requires Good(cf) && Enabled(cf, s, act) && Expired(s, j)
    requires Windowed(Apply(cf, s, act), j)
    ensures Windowed(s, j)
  {
    hide Good, Effect, NextPoint, MovedAll, Batch;
    var s' := Apply(cf, s, act);
    var id :| id in s'.requests && Window(s'.requests[id], j);
    if act.Step? && id == act.id {
      PointStaysInWindow(cf, s, s.requests[id], act.choice, j);
    }
    assert id in s.requests && Window(s.requests[id], j);
  }

  // An action that leaves this jti's row and grants alone keeps it used once.
  lemma FrameUsedOnce(cf: Config, s: State, act: Action, j: string)
    requires Good(cf) && Enabled(cf, s, act) && UsedOnce(s, j)
    requires var s' := Apply(cf, s, act);
             && Grants(s', j) == Grants(s, j) && (j in s'.consumed <==> j in s.consumed)
             && s.history.overtaken <= s'.history.overtaken
    ensures UsedOnce(Apply(cf, s, act), j)
  {
    hide Good, Windowed;
    StateGrows(cf, s, act);
    hide Apply, Enabled;
    if Grants(s, j) > 0 && j !in s.history.overtaken && j !in s.consumed {
      TimePasses(cf, s, act);
      if Windowed(Apply(cf, s, act), j) {
        WindowShrinks(cf, s, act, j);
      }
    }
  }

  lemma TimePasses(cf: Config, s: State, act: Action)
    requires Good(cf) && Enabled(cf, s, act)
    ensures s.now <= Apply(cf, s, act).now
  {
    hide Good, MovedAll, Batch, NextPoint, Effect;
  }

  lemma PurgeUsedOnce(cf: Config, s: State, jtis: set<string>, j: string)
    requires Good(cf) && Enabled(cf, s, Purge(jtis)) && ClaimsOk(s) && UsedOnce(s, j)
    ensures UsedOnce(Apply(cf, s, Purge(jtis)), j)
  {
    hide Good;
    var s' := Apply(cf, s, Purge(jtis));
    assert s'.requests == s.requests;
    if j in jtis && Windowed(s, j) {
      assert j in Overtaken(s, jtis);
    }
    assert Windowed(s', j) ==> Windowed(s, j);
  }

  // A request about to claim is itself in the window, so a jti it finds free was never granted.
  lemma RecordUsedOnce(s: State, id: nat, p: Payload, ip: Option<string>)
    requires id in s.requests && s.requests[id] == RefreshUnmarked(p, ip)
    requires Complete(p) && UsedOnce(s, p.jti)
    ensures UsedOnce(Record(s, p, ip), p.jti)
  {
    assert Windowed(s, p.jti);
    if p.jti !in s.consumed {
      assert p.jti in s.history.overtaken || Grants(s, p.jti) == 0;
    } else {
      assert Record(s, p, ip) == s;
    }
  }

  // Only claims and purges touch the registry and what is known of its past.
  lemma EffectLedger(cf: Config, s: State, q: Request, c: Choice, j: string)
    requires !q.RefreshUnmarked? || q.p.jti != j
    ensures var s' := Effect(cf, s, q, c);
            && Grants(s', j) == Grants(s, j) && (j in s'.consumed <==> j in s.consumed)
    ensures s.history.overtaken == Effect(cf, s, q, c).history.overtaken
  {
    hide Bumped, Child;
  }

  lemma LedgerFrame(cf: Config, s: State, act: Action, j: string)
    requires Good(cf) && Enabled(cf, s, act) && !act.Purge?
    requires act.Step? ==> !s.requests[act.id].RefreshUnmarked? || s.requests[act.id].p.jti != j
    ensures var s' := Apply(cf, s, act);
            && Grants(s', j) == Grants(s, j) && (j in s'.consumed <==> j in s.consumed)
            && s.history.overtaken == s'.history.overtaken
  {
    hide Good, MovedAll, Batch, NextPoint, Effect;
    if act.Step? {
      EffectLedger(cf, s, s.requests[act.id], act.choice, j);
    }
  }

  lemma ClaimStep(cf: Config, s: State, id: nat, c: Choice)
    requires CanStep(cf, s, id, c) && s.requests[id].RefreshUnmarked?
    ensures var q := s.requests[id];
            Advance(cf, s, id, c) == Put(Record(s, q.p, q.ip), id, NextPoint(cf, s, q, c))
    ensures !Window(NextPoint(cf, s, s.requests[id], c), s.requests[id].p.jti)
  {
  }

  lemma ClaimUsedOnce(cf: Config, s: State, id: nat, c: Choice)
    requires CanStep(cf, s, id, c) && s.requests[id].RefreshUnmarked? && Complete(s.requests[id].p)
    requires UsedOnce(s, s.requests[id].p.jti)
    ensures UsedOnce(Advance(cf, s, id, c), s.requests[id].p.jti)
  {
    hide Advance, NextPoint;
    var q := s.requests[id];
    var r, s' := Record(s, q.p, q.ip), Advance(cf, s, id, c);
    RecordUsedOnce(s, id, q.p, q.ip);
    ClaimStep(cf, s, id, c);
    hide Record;
    assert Windowed(s', q.p.jti) ==> Windowed(r, q.p.jti) by {
      if Windowed(s', q.p.jti) {
        var i :| i in s'.requests && Window(s'.requests[i], q.p.jti);
        assert i in s.requests && r.requests[i] == s'.requests[i];
      }
    }
  }

  lemma SingleUseStays(cf: Config, s: State, act: Action)
    requires Good(cf) && Enabled(cf, s, act)
    requires TokensOk(cf, s) && RequestsOk(cf, s) && ClaimsOk(s) && SingleUse(s)
    ensures SingleUse(Apply(cf, s, act))
  {
    hide Good, Advance, UsedOnce, ClaimsOk, TokensOk, MovedAll, Batch;
    forall j ensures UsedOnce(Apply(cf, s, act), j) {
      assert UsedOnce(s, j);
      if act.Purge? {
        PurgeUsedOnce(cf, s, act.jtis, j);
      } else if act.Step? && s.requests[act.id].RefreshUnmarked? && s.requests[act.id].p.jti == j {
        assert RequestOk(cf, s, s.requests[act.id]);
        HeldIsOrdinary(cf, s, s.requests[act.id].p);
        ClaimUsedOnce(cf, s, act.id, act.choice);
      } else {
        LedgerFrame(cf, s, act, j);
        FrameUsedOnce(cf, s, act, j);
      }
    }
  }
}

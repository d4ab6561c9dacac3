/**
 What every step of the rotation system keeps, over all interleavings.
 */
module RotationInvariants {
  import opened Common
  import opened RevocationKeys
  import opened VersionStore
  import opened KeyMigration
  import opened TokenClaims
  import opened RotationSystem

  function AccountVersion(cf: Config, rows: Rows, email: string): nat {
    Version(rows, cf.keys.scope(Account(email)))
  }

  function ChainVersion(cf: Config, rows: Rows, email: string, chain: string): nat {
    Version(rows, cf.keys.scope(Chain(email, chain)))
  }

  // No effective version has gone down.
  ghost predicate Risen(cf: Config, rows: Rows, rows': Rows) {
    forall t: Target :: Named(t) ==> Version(rows, cf.keys.scope(t)) <= Version(rows', cf.keys.scope(t))
  }

  // No legacy row of an ordinary target has gone up.
  ghost predicate LegacyFallen(cf: Config, rows: Rows, rows': Rows) {
    forall t: Target :: Plain(t) ==> Get(rows', cf.keys.scope(t).legacy) <= Get(rows, cf.keys.scope(t).legacy)
  }

  // ---------------------------------------------------------------- tokens

  ghost predicate TokenOk(cf: Config, rows: Rows, j: string, m: Minted) {
    var p := m.token;
    && AppToken(p) && Complete(p) && p.jti == j && p.trusted
    && PlainEmail(p.email) && ChainName(p.chain)
    && Ver(p.accountVer) <= AccountVersion(cf, rows, p.email)
    && Ver(p.chainVer) <= ChainVersion(cf, rows, p.email, p.chain)
  }

  // No token was ever minted with a version the counters have not reached.
  ghost predicate TokensOk(cf: Config, s: State) {
    forall j :: j in s.minted ==> TokenOk(cf, s.rows, j, s.minted[j])
  }

  predicate SameLine(p: Payload, q: Payload) {
    p.email == q.email && p.chain == q.chain && p.accountVer == q.accountVer && p.chainVer == q.chainVer
  }

  ghost predicate LineageOk(s: State) {
    forall j :: j in s.minted && s.minted[j].parent != "" ==>
      && s.minted[j].parent in s.minted
      && SameLine(s.minted[j].token, s.minted[s.minted[j].parent].token)
      && s.minted[s.minted[j].parent].token.typ == Refresh
  }

  // ---------------------------------------------------------------- requests

  ghost predicate Held(s: State, p: Payload) {
    && p.typ == Refresh && p.jti in s.minted && s.minted[p.jti].token == p && p.jti in s.issued
  }

  ghost predicate ChildrenOk(s: State, p: Payload, a: string, r: string) {
    && a in s.minted && s.minted[a].parent == p.jti && s.minted[a].token.typ == Access
    && r in s.minted && s.minted[r].parent == p.jti && s.minted[r].token.typ == Refresh
  }

  // The tokens a request works on are real ones.
  ghost predicate HoldsTokens(s: State, q: Request) {
    match q
    case VerifyDecoded(p, _) => Presentable(s, p)
    case VerifyUnmarked(p, _) => Presentable(s, p)
    case VerifyAccountOk(p, _) => Presentable(s, p)
    case VerifyAccepted(p) => Presentable(s, p)
    case RefreshDecoded(p, _) => Presentable(s, p) && p.typ == Refresh
    case RefreshAccountOk(p, _) => Held(s, p)
    case RefreshCurrent(p, _) => Held(s, p)
    case RefreshUnmarked(p, _) => Held(s, p)
    case RefreshDuplicate(p, _) => Held(s, p)
    case RefreshUnrecorded(p, _) => Held(s, p)
    case RefreshClaimed(p, row) =>
      Held(s, p) && p.accountVer == Number(row.accountVer) && p.chainVer == Number(row.chainVer)
    case RefreshMinted(p, a, r) => Held(s, p) && ChildrenOk(s, p, a, r)
    case RefreshChildAccountOk(p, a, r) => Held(s, p) && ChildrenOk(s, p, a, r)
    case RefreshChecked(p, a, r) => Held(s, p) && ChildrenOk(s, p, a, r)
    case RefreshReturned(p, a, r) => Held(s, p) && ChildrenOk(s, p, a, r) && a in s.issued && r in s.issued
    case _ => true
  }

  // The versions a request has read or written are ones the counters have reached, and a bump's
  // read is no older than the legacy row.
  ghost predicate CountersReached(cf: Config, rows: Rows, q: Request) {
    if q.BumpStart? then Plain(q.target)
    else if q.BumpRead? then Plain(q.target) && Get(rows, cf.keys.scope(q.target).legacy) <= q.read
    else if q.BumpDone? then Plain(q.target) && q.version <= Version(rows, cf.keys.scope(q.target))
    else if q.MintStart? then PlainEmail(q.email) && ChainName(q.chain) && q.typ != OtherType
    else if q.MintRead? then
      && PlainEmail(q.email) && ChainName(q.chain) && q.typ != OtherType
      && q.accountVer <= AccountVersion(cf, rows, q.email)
      && q.chainVer <= ChainVersion(cf, rows, q.email, q.chain)
    else true
  }

  ghost predicate RequestOk(cf: Config, s: State, q: Request) {
    HoldsTokens(s, q) && CountersReached(cf, s.rows, q)
  }

  ghost predicate RequestsOk(cf: Config, s: State) {
    forall id :: id in s.requests ==> RequestOk(cf, s, s.requests[id])
  }

  // ---------------------------------------------------------------- preservation: counters

  lemma EffectRises(cf: Config, s: State, q: Request, c: Choice)
    ensures Risen(cf, s.rows, Effect(cf, s, q, c).rows)
  {
    hide Granted, Child;
  }

  lemma {:induction false} BatchRises(cf: Config, rows: Rows, batch: seq<string>)
    requires Good(cf) && Batch(cf.keys, rows, batch)
    ensures Risen(cf, rows, MovedAll(cf.keys, rows, batch))
  {
    hide MovedAll, Batch, Version;
    forall t: Target | Named(t)
      ensures Version(rows, cf.keys.scope(t)) <= Version(MovedAll(cf.keys, rows, batch), cf.keys.scope(t))
    {
      BatchKeepsVersion(cf.keys, rows, batch, cf.keys.scope(t));
    }
  }

  lemma RowsRise(cf: Config, s: State, act: Action)
    requires Good(cf) && Enabled(cf, s, act)
    ensures Risen(cf, s.rows, Apply(cf, s, act).rows)
  {
    hide Good, MovedAll, Batch, Effect, NextPoint;
    if act.MigrateBatch? {
      BatchRises(cf, s.rows, act.batch);
    } else if act.Step? {
      EffectRises(cf, s, s.requests[act.id], act.choice);
    }
  }

  lemma {:induction false} BatchKeepsLegacy(ks: KeyScheme, rows: Rows, batch: seq<string>, t: Target)
    requires Sound(ks) && Separate(ks) && Batch(ks, rows, batch) && Plain(t)
    ensures Get(MovedAll(ks, rows, batch), ks.scope(t).legacy) <= Get(rows, ks.scope(t).legacy)
    decreases |batch|
  {
    if batch != [] {
      var last := |batch| - 1;
      BatchKeepsLegacy(ks, rows, batch[..last], t);
      assert ks.translate(batch[last]) != Some(ks.scope(t).legacy);
    }
  }

  lemma EffectKeepsLegacy(cf: Config, s: State, q: Request, c: Choice)
    requires Good(cf)
    ensures LegacyFallen(cf, s.rows, Effect(cf, s, q, c).rows)
  {
    hide Granted, Child, Sound;
  }

  lemma LegacyFalls(cf: Config, s: State, act: Action)
    requires Good(cf) && Enabled(cf, s, act)
    ensures LegacyFallen(cf, s.rows, Apply(cf, s, act).rows)
  {
    hide MovedAll, Batch, Effect, NextPoint, Sound, Separate;
    if act.MigrateBatch? {
      forall t: Target | Plain(t)
        ensures Get(Apply(cf, s, act).rows, cf.keys.scope(t).legacy) <= Get(s.rows, cf.keys.scope(t).legacy)
      {
        BatchKeepsLegacy(cf.keys, s.rows, act.batch, t);
      }
    } else if act.Step? {
      EffectKeepsLegacy(cf, s, s.requests[act.id], act.choice);
    }
  }

  // ---------------------------------------------------------------- preservation: tokens

  // Tokens that exist stay exactly as they are, and stay handed out.
  ghost predicate Grown(s: State, s': State) {
    && s.issued <= s'.issued
    && (forall j :: j in s.minted ==> j in s'.minted && s'.minted[j] == s.minted[j])
  }

  lemma AdvanceGrows(cf: Config, s: State, id: nat, c: Choice)
    requires CanStep(cf, s, id, c)
    ensures Grown(s, Advance(cf, s, id, c))
  {
    hide NextPoint, Granted, Child, Bumped;
  }

  lemma StateGrows(cf: Config, s: State, act: Action)
    requires Good(cf) && Enabled(cf, s, act)
    ensures Grown(s, Apply(cf, s, act))
  {
    hide Good, MovedAll, Batch, Advance;
    if act.Step? {
      AdvanceGrows(cf, s, act.id, act.choice);
    }
  }

  lemma TokenStaysOk(cf: Config, rows: Rows, rows': Rows, j: string, m: Minted)
    requires TokenOk(cf, rows, j, m) && Risen(cf, rows, rows')
    ensures TokenOk(cf, rows', j, m)
  {
    hide Version;
    assert Named(Account(m.token.email)) && Named(Chain(m.token.email, m.token.chain));
  }

  // Only two program points mint, and neither writes a counter.
  lemma MintingPoints(cf: Config, s: State, q: Request, c: Choice, j: string)
    requires j in Effect(cf, s, q, c).minted && j !in s.minted
    ensures q.RefreshClaimed? || q.MintRead?
    ensures Effect(cf, s, q, c).rows == s.rows
  {
    hide Granted, Child, Bumped;
  }

  lemma ChildTokenOk(cf: Config, s: State, q: Request, a: string, r: string, j: string)
    requires q.RefreshClaimed? && TokensOk(cf, s) && RequestOk(cf, s, q) && a != "" && r != ""
    requires j in AddChildren(cf, s, q.p, q.row, a, r).minted && j !in s.minted
    ensures TokenOk(cf, s.rows, j, AddChildren(cf, s, q.p, q.row, a, r).minted[j])
    ensures var m := AddChildren(cf, s, q.p, q.row, a, r).minted[j];
            && m.parent == q.p.jti && SameLine(m.token, q.p)
  {
    hide Version;
    assert TokenOk(cf, s.rows, q.p.jti, s.minted[q.p.jti]);
  }

  lemma RootTokenOk(cf: Config, s: State, q: Request, jti: string)
    requires q.MintRead? && RequestOk(cf, s, q) && jti != ""
    ensures jti in AddRoot(cf, s, q, jti).minted
    ensures TokenOk(cf, s.rows, jti, AddRoot(cf, s, q, jti).minted[jti])
    ensures AddRoot(cf, s, q, jti).minted[jti].parent == ""
  {
    hide Version;
  }

  lemma NewTokenOk(cf: Config, s: State, id: nat, c: Choice, j: string)
    requires CanStep(cf, s, id, c) && TokensOk(cf, s) && RequestOk(cf, s, s.requests[id])
    requires j in Advance(cf, s, id, c).minted && j !in s.minted
    ensures TokenOk(cf, s.rows, j, Advance(cf, s, id, c).minted[j])
    ensures Advance(cf, s, id, c).rows == s.rows
    ensures var m := Advance(cf, s, id, c).minted[j];
            m.parent != "" ==>
              && m.parent in s.minted && SameLine(m.token, s.minted[m.parent].token)
              && s.minted[m.parent].token.typ == Refresh
  {
    var q := s.requests[id];
    MintingPoints(cf, s, q, c, j);
    hide NextPoint, TokenOk, TokensOk, AddChildren;
    if q.RefreshClaimed? {
      ChildTokenOk(cf, s, q, c.access, c.refresh, j);
    } else {
      RootTokenOk(cf, s, q, c.access);
    }
  }

  lemma TokensStayOk(cf: Config, s: State, act: Action)
    requires Good(cf) && Enabled(cf, s, act) && TokensOk(cf, s) && RequestsOk(cf, s)
    ensures TokensOk(cf, Apply(cf, s, act))
  {
    hide Good, TokenOk, MovedAll, Batch, Advance, RequestOk, Risen;
    var s' := Apply(cf, s, act);
    RowsRise(cf, s, act);
    StateGrows(cf, s, act);
    forall j | j in s'.minted ensures TokenOk(cf, s'.rows, j, s'.minted[j]) {
      if j in s.minted {
        TokenStaysOk(cf, s.rows, s'.rows, j, s.minted[j]);
      } else {
        NewTokenOk(cf, s, act.id, act.choice, j);
      }
    }
  }

  lemma LineageStaysOk(cf: Config, s: State, act: Action)
    requires Good(cf) && Enabled(cf, s, act) && TokensOk(cf, s) && RequestsOk(cf, s) && LineageOk(s)
    ensures LineageOk(Apply(cf, s, act))
  {
    hide Good, MovedAll, Batch, Advance, RequestOk, TokensOk;
    var s' := Apply(cf, s, act);
    StateGrows(cf, s, act);
    forall j | j in s'.minted && s'.minted[j].parent != ""
      ensures s'.minted[j].parent in s'.minted
      ensures SameLine(s'.minted[j].token, s'.minted[s'.minted[j].parent].token)
      ensures s'.minted[s'.minted[j].parent].token.typ == Refresh
    {
      if j !in s.minted {
        NewTokenOk(cf, s, act.id, act.choice, j);
      }
    }
  }

  // ---------------------------------------------------------------- preservation: requests

  lemma TokensRemain(s: State, s': State, q: Request)
    requires HoldsTokens(s, q) && Grown(s, s')
    ensures HoldsTokens(s', q)
  {
  }

  lemma CountersRemain(cf: Config, rows: Rows, rows': Rows, q: Request)
    requires CountersReached(cf, rows, q) && Risen(cf, rows, rows') && LegacyFallen(cf, rows, rows')
    ensures CountersReached(cf, rows', q)
  {
    hide Version, Get;
    if q.MintRead? {
      assert Named(Account(q.email)) && Named(Chain(q.email, q.chain));
    }
  }

  lemma RequestStaysOk(cf: Config, s: State, s': State, q: Request)
    requires RequestOk(cf, s, q)
    requires Risen(cf, s.rows, s'.rows) && LegacyFallen(cf, s.rows, s'.rows) && Grown(s, s')
    ensures RequestOk(cf, s', q)
  {
    TokensRemain(s, s', q);
    CountersRemain(cf, s.rows, s'.rows, q);
  }

  lemma HeldIsOrdinary(cf: Config, s: State, p: Payload)
    requires TokensOk(cf, s) && Held(s, p)
    ensures Plain(Chain(p.email, p.chain)) && Complete(p)
  {
    assert TokenOk(cf, s.rows, p.jti, s.minted[p.jti]);
  }

  // Steps that only read.
  predicate Quiet(q: Request) {
    !q.RefreshUnmarked? && !q.RefreshClaimed? && !q.RefreshChecked? && !q.BumpRead? && !q.MintRead?
  }

  // A reading request at its next program point, judged in the state it read.
  lemma NextPointOk(cf: Config, s: State, q: Request, c: Choice)
    requires TokensOk(cf, s) && Quiet(q) && RequestOk(cf, s, q)
    ensures RequestOk(cf, s, NextPoint(cf, s, q, c))
  {
    hide Version, BenignRow, BenignMarker, TokensOk;
    if q.RefreshDuplicate? || q.RefreshUnrecorded? {
      HeldIsOrdinary(cf, s, q.p);
    }
  }

  // A writing request at its next program point, judged in the state it leaves.
  lemma LoudPointOk(cf: Config, s: State, q: Request, c: Choice)
    requires TokensOk(cf, s) && !Quiet(q) && RequestOk(cf, s, q)
    requires q.RefreshClaimed? ==> c.access != c.refresh && c.access !in s.minted && c.refresh !in s.minted
    ensures RequestOk(cf, Effect(cf, s, q, c), NextPoint(cf, s, q, c))
  {
    hide Bumped, Granted, TokensOk;
    if q.RefreshUnmarked? {
      HeldIsOrdinary(cf, s, q.p);
    }
  }

  lemma MovedRequestOk(cf: Config, s: State, id: nat, c: Choice, s': State)
    requires TokensOk(cf, s) && CanStep(cf, s, id, c) && s' == Advance(cf, s, id, c)
    requires RequestOk(cf, s, s.requests[id])
    ensures id in s'.requests && RequestOk(cf, s', s'.requests[id])
  {
    hide RequestOk, TokensOk, NextPoint;
    var q := s.requests[id];
    if Quiet(q) {
      NextPointOk(cf, s, q, c);
      SameTablesOk(cf, s, s', NextPoint(cf, s, q, c));
    } else {
      LoudPointOk(cf, s, q, c);
      hide Effect;
      SameTablesOk(cf, Effect(cf, s, q, c), s', NextPoint(cf, s, q, c));
    }
  }

  lemma SameTablesOk(cf: Config, s: State, s': State, q: Request)
    requires RequestOk(cf, s, q) && s'.rows == s.rows && s'.minted == s.minted && s'.issued == s.issued
    ensures RequestOk(cf, s', q)
  {
    hide Version, Get;
  }

  lemma NewRequestOk(cf: Config, s: State, act: Action, id: nat)
    requires Good(cf) && Enabled(cf, s, act) && !act.Step?
    requires id in Apply(cf, s, act).requests
    requires id in s.requests ==> Apply(cf, s, act).requests[id] != s.requests[id]
    ensures RequestOk(cf, Apply(cf, s, act), Apply(cf, s, act).requests[id])
  {
    hide Good, MovedAll, Batch, Version;
  }

  lemma RequestsStayOk(cf: Config, s: State, act: Action)
    requires Good(cf) && Enabled(cf, s, act) && TokensOk(cf, s) && RequestsOk(cf, s)
    ensures RequestsOk(cf, Apply(cf, s, act))
  {
    hide Good, NextPoint, Effect, RequestOk, TokensOk, MovedAll, Batch, Risen, LegacyFallen, Grown;
    var s' := Apply(cf, s, act);
    RowsRise(cf, s, act);
    LegacyFalls(cf, s, act);
    StateGrows(cf, s, act);
    forall id | id in s'.requests ensures RequestOk(cf, s', s'.requests[id]) {
      if id in s.requests && s'.requests[id] == s.requests[id] {
        RequestStaysOk(cf, s, s', s.requests[id]);
      } else if act.Step? {
        MovedRequestOk(cf, s, id, act.choice, s');
      } else {
        NewRequestOk(cf, s, act, id);
      }
    }
  }
}

/**
 Conservation along a login chain: rotation turns one unused refresh token into at most one.
 */
module RotationConservation {
  import opened Common
  import opened RevocationKeys
  import opened VersionStore
  import opened KeyMigration
  import opened TokenClaims
  import opened RotationSystem
  import opened RotationInvariants
  import opened RotationClaims

  predicate LiveToken(s: State, ch: string, j: string) {
    && j in s.minted && s.minted[j].token.typ == Refresh && s.minted[j].token.chain == ch
    && Grants(s, j) == 0
  }

  // Refresh tokens of a chain that were handed out and never claimed.
  function Live(s: State, ch: string): set<string> {
    set j | j in s.issued && LiveToken(s, ch, j)
  }

  // The request has claimed a token of the chain and may still hand out its child.
  predicate Holds(q: Request, ch: string) {
    && (q.RefreshClaimed? || q.RefreshMinted? || q.RefreshChildAccountOk? || q.RefreshChecked?)
    && q.p.chain == ch
  }

  function Holding(s: State, ch: string): set<nat> {
    set id | id in s.requests && Holds(s.requests[id], ch)
  }

  function Budget(s: State, ch: string): nat {
    Count(s.history.roots, ch) + Count(s.history.regrants, ch)
  }

  ghost predicate Conserved(s: State, ch: string) {
    |Live(s, ch)| + |Holding(s, ch)| <= Budget(s, ch)
  }

  lemma SubsetSize<T>(a: set<T>, b: set<T>)
    requires a <= b
    ensures |a| <= |b|
  {
    assert b == a + (b - a);
  }

  lemma Shrunk(s: State, s': State, ch: string)
    requires Conserved(s, ch)
    requires Live(s', ch) <= Live(s, ch) && Holding(s', ch) <= Holding(s, ch)
    requires Budget(s, ch) <= Budget(s', ch)
    ensures Conserved(s', ch)
  {
    SubsetSize(Live(s', ch), Live(s, ch));
    SubsetSize(Holding(s', ch), Holding(s, ch));
  }

  // ---------------------------------------------------------------- the steps that matter

  // Whether the request holds a claim after its step.
  lemma HoldsNext(cf: Config, s: State, q: Request, c: Choice, ch: string)
    ensures q.RefreshUnmarked? ==>
              (Holds(NextPoint(cf, s, q, c), ch) <==> q.p.jti !in s.consumed && q.p.chain == ch)
    ensures !q.RefreshUnmarked? && Holds(NextPoint(cf, s, q, c), ch) ==> Holds(q, ch)
    ensures q.RefreshChecked? || q.MintRead? ==> !Holds(NextPoint(cf, s, q, c), ch)
  {
    hide AccountCheck, ChainCheck, Version, BenignRow, BenignMarker, Bumped;
  }

  lemma HoldingAfterPut(s: State, s': State, id: nat, q: Request, ch: string)
    requires id in s.requests && s'.requests == s.requests[id := q]
    ensures Holding(s', ch) == if Holds(q, ch) then Holding(s, ch) + {id} else Holding(s, ch) - {id}
  {
  }

  lemma LiveIgnoresRequests(s: State, id: nat, q: Request, ch: string)
    ensures Live(Put(s, id, q), ch) == Live(s, ch) && Budget(Put(s, id, q), ch) == Budget(s, ch)
  {
  }

  // What one step may add to the live tokens of a chain, and to its budget.
  lemma RecordTokens(s: State, p: Payload, ip: Option<string>, ch: string)
    requires Held(s, p)
    ensures p.jti in s.consumed || p.chain != ch ==>
              Live(Record(s, p, ip), ch) <= Live(s, ch) && Budget(s, ch) <= Budget(Record(s, p, ip), ch)
    ensures p.jti !in s.consumed && p.chain == ch ==>
              |Live(Record(s, p, ip), ch)| + 1 + Budget(s, ch) <= |Live(s, ch)| + Budget(Record(s, p, ip), ch)
  {
    var s' := Record(s, p, ip);
    if p.jti !in s.consumed && p.chain == ch {
      if Grants(s, p.jti) == 0 {
        assert p.jti in Live(s, ch);
        assert Live(s', ch) == Live(s, ch) - {p.jti};
      } else {
        assert Live(s', ch) == Live(s, ch);
      }
    }
  }

  lemma ChildrenTokens(cf: Config, s: State, q: Request, a: string, r: string, ch: string)
    requires q.RefreshClaimed? && s.issued <= s.minted.Keys && a !in s.minted && r !in s.minted
    ensures var s' := AddChildren(cf, s, q.p, q.row, a, r);
            Live(s', ch) == Live(s, ch) && Budget(s', ch) == Budget(s, ch)
  {
    var s' := AddChildren(cf, s, q.p, q.row, a, r);
    assert forall j :: j in s.issued ==> s'.minted[j] == s.minted[j];
  }

  lemma HandOutTokens(s: State, q: Request, ch: string)
    requires q.RefreshChecked? && HoldsTokens(s, q) && LineageOk(s) && q.p.jti != ""
    ensures var s' := HandOut(s, q.access, q.refresh);
            && Budget(s', ch) == Budget(s, ch)
            && Live(s', ch) <= Live(s, ch) + (if q.p.chain == ch then {q.refresh} else {})
  {
    assert SameLine(s.minted[q.refresh].token, q.p);
  }

  lemma RootTokens(cf: Config, s: State, q: Request, jti: string, ch: string)
    requires q.MintRead? && s.issued <= s.minted.Keys && jti !in s.minted
    ensures var s' := AddRoot(cf, s, q, jti);
            && Live(s', ch) <= Live(s, ch) + (if q.typ == Refresh && q.chain == ch then {jti} else {})
            && Budget(s', ch) == Budget(s, ch) + (if q.typ == Refresh && q.chain == ch then 1 else 0)
  {
    var s' := AddRoot(cf, s, q, jti);
    assert forall j :: j in s.issued ==> s'.minted[j] == s.minted[j];
  }

  // The balance of one step: the change in live tokens, against budget and released claims.
  lemma EffectBalance(cf: Config, s: State, q: Request, c: Choice, ch: string)
    requires HoldsTokens(s, q) && LineageOk(s) && ClaimsOk(s)
    requires q.RefreshChecked? ==> q.p.jti != ""
    requires q.RefreshClaimed? || q.MintRead? ==> c.access !in s.minted
    requires q.RefreshClaimed? ==> c.refresh !in s.minted
    ensures var s' := Effect(cf, s, q, c);
            var gained := if Holds(NextPoint(cf, s, q, c), ch) && !Holds(q, ch) then 1 else 0;
            var released := if q.RefreshChecked? && Holds(q, ch) then 1 else 0;
            |Live(s', ch)| + gained + Budget(s, ch) <= |Live(s, ch)| + released + Budget(s', ch)
  {
    hide NextPoint, Record, AddChildren, AddRoot, HandOut, Bumped, LineageOk, Live, Budget, ClaimsOk;
    HoldsNext(cf, s, q, c, ch);
    IssuedAreMinted(s);
    var s' := Effect(cf, s, q, c);
    if q.RefreshUnmarked? {
      RecordTokens(s, q.p, q.ip, ch);
      if q.p.jti in s.consumed || q.p.chain != ch {
        SubsetSize(Live(s', ch), Live(s, ch));
      }
    } else if q.RefreshClaimed? {
      ChildrenTokens(cf, s, q, c.access, c.refresh, ch);
    } else if q.RefreshChecked? {
      HandOutTokens(s, q, ch);
      SubsetSize(Live(s', ch), Live(s, ch) + (if q.p.chain == ch then {q.refresh} else {}));
    } else if q.MintRead? {
      RootTokens(cf, s, q, c.access, ch);
      SubsetSize(Live(s', ch), Live(s, ch) + (if q.typ == Refresh && q.chain == ch then {c.access} else {}));
    } else {
      SameTokens(s, s', ch);
    }
  }

  lemma SameTokens(s: State, s': State, ch: string)
    requires s'.issued == s.issued && s'.minted == s.minted && s'.history == s.history
    ensures Live(s', ch) == Live(s, ch) && Budget(s', ch) == Budget(s, ch)
  {
  }

  lemma StepConserves(cf: Config, s: State, id: nat, c: Choice, ch: string)
    requires CanStep(cf, s, id, c) && RequestOk(cf, s, s.requests[id])
    requires TokensOk(cf, s) && LineageOk(s) && ClaimsOk(s) && Conserved(s, ch)
    ensures Conserved(Advance(cf, s, id, c), ch)
  {
    hide NextPoint, Effect, TokensOk, LineageOk, ClaimsOk, Holds, Live, Holding, Budget, HoldsTokens;
    var q := s.requests[id];
    var e, next, s' := Effect(cf, s, q, c), NextPoint(cf, s, q, c), Advance(cf, s, id, c);
    if q.RefreshChecked? {
      assert Held(s, q.p) by { CheckedHeld(s, q); }
      HeldIsOrdinary(cf, s, q.p);
    }
    EffectBalance(cf, s, q, c, ch);
    LiveIgnoresRequests(e, id, next, ch);
    HoldingAfterPut(s, s', id, next, ch);
    HoldsNext(cf, s, q, c, ch);
    HoldingMember(s, id, ch);
  }

  lemma CheckedHeld(s: State, q: Request)
    requires q.RefreshChecked? && HoldsTokens(s, q)
    ensures Held(s, q.p)
  {
  }

  lemma HoldingMember(s: State, id: nat, ch: string)
    requires id in s.requests
    ensures id in Holding(s, ch) <==> Holds(s.requests[id], ch)
  {
  }

  lemma OtherConserves(cf: Config, s: State, act: Action, ch: string)
    requires Good(cf) && Enabled(cf, s, act) && !act.Step? && Conserved(s, ch)
    ensures Conserved(Apply(cf, s, act), ch)
  {
    hide Good, Conserved, MovedAll, Batch;
    var s' := Apply(cf, s, act);
    assert Live(s', ch) == Live(s, ch);
    assert Holding(s', ch) <= Holding(s, ch);
    Shrunk(s, s', ch);
  }

  lemma ConservedStays(cf: Config, s: State, act: Action, ch: string)
    requires Good(cf) && Enabled(cf, s, act) && RequestsOk(cf, s)
    requires TokensOk(cf, s) && LineageOk(s) && ClaimsOk(s) && Conserved(s, ch)
    ensures Conserved(Apply(cf, s, act), ch)
  {
    hide Good, Conserved, Advance, TokensOk, LineageOk, ClaimsOk, RequestOk, MovedAll, Batch;
    if act.Step? {
      StepConserves(cf, s, act.id, act.choice, ch);
    } else {
      OtherConserves(cf, s, act, ch);
    }
  }
}

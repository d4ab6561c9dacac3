/**
 The refresh endpoint and the revocation operations as sequential code over the tables they
 change. What concurrency adds is the subject of the rotation system; here each operation is
 proved against what it promises its caller.
 */
module RefreshService {
  import opened Common
  import opened RevocationKeys
  import opened VersionStore
  import opened TokenClaims
  import opened RotationSystem

  datatype Answer = Pair(access: Payload, refresh: Payload) | Rejected | Unavailable

  // How the store calls of one refresh are answered: the two reads of the version check, the
  // marker lookup, the claim, the two reads of the re-check, and what a replay needs.
  datatype Up = Up(account: bool, chain: bool, marker: bool, claim: Reply, accountAgain: bool, chainAgain: bool,
                   benign: bool, bump: Reply)

  predicate AllUp(up: Up) {
    up.account && up.chain && up.marker && up.claim.Committed? && up.accountAgain && up.chainAgain
    && up.benign && up.bump.Committed?
  }

  // The claim of an unused token is committed, whether or not its answer arrives.
  predicate Claims(up: Up) {
    up.account && up.chain && !up.claim.Down?
  }

  predicate Acceptable(cf: Config, rows: Rows, now: nat, p: Payload) {
    now < p.exp && p.trusted && p.jti != "" && p.typ == Refresh && Current(cf.keys, rows, p)
  }

  // A duplicate that is taken for a browser race rather than for theft.
  predicate Benign(cf: Config, consumed: map<string, ClaimRow>, markers: map<string, Marker>,
                   now: nat, jti: string, ip: Option<string>) {
    if jti in consumed then BenignRow(cf, now, consumed[jti], ip)
    else jti in markers && BenignMarker(cf, now, markers[jti], ip)
  }

  // Tokens of a target that carry versions it had reached.
  predicate Covered(ks: KeyScheme, rows: Rows, target: Target, p: Payload) {
    && AppToken(p) && Complete(p) && p.email == target.email
    && match target
       case Account(e) => Ver(p.accountVer) <= Version(rows, ks.scope(target))
       case Chain(e, ch) => p.chain == ch && Ver(p.chainVer) <= Version(rows, ks.scope(target))
  }

  // Tokens as this deployment mints them.
  predicate Ordinary(p: Payload) {
    AppToken(p) && Complete(p) && PlainEmail(p.email) && ChainName(p.chain)
  }

  // Bumping one counter leaves every distinct target's version alone.
  lemma BumpSparesTargets(cf: Config, rows: Rows, t: Target, read: nat)
    requires Good(cf)
    ensures forall u: Target :: Plain(u) && Distinct(cf.keys, t, u) ==>
      Version(Bumped(rows, cf.keys.scope(t), read), cf.keys.scope(u)) == Version(rows, cf.keys.scope(u))
  {
    forall u: Target | Plain(u) && Distinct(cf.keys, t, u)
      ensures Version(Bumped(rows, cf.keys.scope(t), read), cf.keys.scope(u)) == Version(rows, cf.keys.scope(u))
    {
      BumpKeepsOthers(rows, cf.keys.scope(t), read, cf.keys.scope(u));
    }
  }

  // What ending a chain leaves alone: every account, and every other chain, with its tokens. A
  // chain of the same name under another folded email is another chain.
  ghost predicate OnlyChainEnds(cf: Config, rows: Rows, rows': Rows, email: string, chain: string) {
    && (forall u: Target ::
          Plain(u) && (u.Account? || u.chain != chain || cf.keys.fold(u.email) != cf.keys.fold(email)) ==>
            Version(rows', cf.keys.scope(u)) == Version(rows, cf.keys.scope(u)))
    && (forall p :: Ordinary(p) && (p.chain != chain || cf.keys.fold(p.email) != cf.keys.fold(email)) ==>
          (Current(cf.keys, rows', p) <==> Current(cf.keys, rows, p)))
  }

  // What revoking an account leaves alone: every chain, and every account with another folded
  // email, with its tokens.
  ghost predicate OnlyAccountEnds(cf: Config, rows: Rows, rows': Rows, email: string) {
    && (forall u: Target :: Plain(u) && (u.Chain? || cf.keys.fold(u.email) != cf.keys.fold(email)) ==>
          Version(rows', cf.keys.scope(u)) == Version(rows, cf.keys.scope(u)))
    && (forall p :: Ordinary(p) && cf.keys.fold(p.email) != cf.keys.fold(email) ==>
          (Current(cf.keys, rows', p) <==> Current(cf.keys, rows, p)))
  }

  lemma ChainBumpIsScoped(cf: Config, rows: Rows, email: string, chain: string, read: nat)
    requires Good(cf)
    ensures OnlyChainEnds(cf, rows, Bumped(rows, cf.keys.scope(Chain(email, chain)), read), email, chain)
  {
    hide Bumped, Version;
    BumpSparesTargets(cf, rows, Chain(email, chain), read);
    forall p | Ordinary(p) && (p.chain != chain || cf.keys.fold(p.email) != cf.keys.fold(email))
      ensures Current(cf.keys, Bumped(rows, cf.keys.scope(Chain(email, chain)), read), p) <==> Current(cf.keys, rows, p)
    {
      assert Plain(Account(p.email)) && Plain(Chain(p.email, p.chain));
    }
  }

  lemma AccountBumpIsScoped(cf: Config, rows: Rows, email: string, read: nat)
    requires Good(cf)
    ensures OnlyAccountEnds(cf, rows, Bumped(rows, cf.keys.scope(Account(email)), read), email)
  {
    hide Bumped, Version;
    BumpSparesTargets(cf, rows, Account(email), read);
    forall p | Ordinary(p) && cf.keys.fold(p.email) != cf.keys.fold(email)
      ensures Current(cf.keys, Bumped(rows, cf.keys.scope(Account(email)), read), p) <==> Current(cf.keys, rows, p)
    {
      assert Plain(Account(p.email)) && Plain(Chain(p.email, p.chain));
    }
  }

  datatype Revocation = Revoked(count: nat) | Unconfirmed

  // A row of the session mirror; an empty chain stands for a missing one.
  datatype Session = Session(userId: nat, chain: string, expires: int)

  function SessionsOf(sessions: map<nat, Session>, user: Option<nat>): set<nat> {
    set id | id in sessions && user == Some(sessions[id].userId)
  }

  function ActiveOf(sessions: map<nat, Session>, user: Option<nat>, now: nat): set<nat> {
    set id | id in SessionsOf(sessions, user) && sessions[id].expires > now
  }

  datatype SessionEnd = Ended(session: Session) | NoSuchSession | EndUnconfirmed

  const PURGE_BATCH: nat := 5000

  class Service {
    const cf: Config
    const store: TokenVersionStore
    var consumed: map<string, ClaimRow>
    var markers: map<string, Marker>
    var sessions: map<nat, Session>

    constructor (cf: Config, store: TokenVersionStore)
      ensures this.cf == cf && this.store == store
      ensures consumed == map[] && markers == map[] && sessions == map[]
    {
      this.cf := cf;
      this.store := store;
      consumed, markers, sessions := map[], map[], map[];
    }

    method IsCurrentVersion(p: Payload, accountUp: bool, chainUp: bool) returns (r: Option<bool>)
      ensures r.Some? ==> r.value == Current(cf.keys, store.rows, p)
      ensures accountUp && chainUp ==> r.Some?
      ensures AppToken(p) && Current(cf.keys, store.rows, p) ==> (r.Some? <==> accountUp && chainUp)
    {
      if AppToken(p) && !Complete(p) {
        return Some(false);
      }
      if p.email == "" {
        return Some(true);
      }
      if p.accountVer != Absent {
        var v := store.GetVersion(cf.keys.scope(Account(p.email)), accountUp);
        if v.None? {
          return None;
        }
        if !Matches(p.accountVer, v.value) {
          return Some(false);
        }
      }
      if p.chain != "" && p.chainVer != Absent {
        var v := store.GetVersion(cf.keys.scope(Chain(p.email, p.chain)), chainUp);
        if v.None? {
          return None;
        }
        return Some(Matches(p.chainVer, v.value));
      }
      return Some(true);
    }

    // Whether this call inserted the row, and the row the registry holds, if the answer says so.
    method ClaimJti(p: Payload, ip: Option<string>, now: nat, up: Up) returns (claimed: bool, row: Option<ClaimRow>)
      modifies this`consumed
      ensures claimed ==>
        && p.jti !in old(consumed) && up.claim.Committed? && (up.marker ==> p.jti !in markers)
        && row == Some(ClaimRow(now, p.exp, ip, Ver(p.accountVer), Ver(p.chainVer)))
      ensures consumed ==
        if p.jti in old(consumed) || up.claim.Down? || (up.marker && p.jti in markers) then old(consumed)
        else old(consumed)[p.jti := ClaimRow(now, p.exp, ip, Ver(p.accountVer), Ver(p.chainVer))]
      ensures row.Some? <==> up.claim.Committed? && !(up.marker && p.jti in markers)
      ensures !claimed && row.Some? ==> p.jti in old(consumed) && row.value == consumed[p.jti]
      ensures up.claim.Committed? && (up.marker || p.jti !in markers) ==>
        claimed == (p.jti !in old(consumed) && p.jti !in markers)
    {
      if up.marker && p.jti in markers {
        return false, None;
      }
      if up.claim.Down? {
        return false, None;
      }
      var held := p.jti in consumed;
      if !held {
        consumed := consumed[p.jti := ClaimRow(now, p.exp, ip, Ver(p.accountVer), Ver(p.chainVer))];
      }
      if up.claim.AnswerLost? {
        return false, None;
      }
      return !held, Some(consumed[p.jti]);
    }

    method HandleReuse(p: Payload, reply: Reply) returns (confirmed: bool)
      modifies store
      ensures p.email == "" || reply.Down? ==> store.rows == old(store.rows)
      ensures p.email != "" ==> confirmed == reply.Committed?
      ensures p.email != "" && !reply.Down? ==>
        var target := if p.chain != "" then Chain(p.email, p.chain) else Account(p.email);
        store.rows == Bumped(old(store.rows), cf.keys.scope(target), Version(old(store.rows), cf.keys.scope(target)))
    {
      if p.email == "" {
        return true;
      }
      if p.chain != "" {
        confirmed := store.BumpVersion(cf.keys.scope(Chain(p.email, p.chain)), reply);
      } else {
        confirmed := store.BumpVersion(cf.keys.scope(Account(p.email)), reply);
      }
    }

    // A token that could not be claimed: a browser race is only rejected, theft ends the chain.
    method AnswerDuplicate(p: Payload, ip: Option<string>, now: nat, up: Up) returns (answer: Answer)
      requires p.email != "" && p.chain != ""
      modifies store
      ensures answer == if cf.grace > 0 && !up.benign then Unavailable else Rejected
      ensures
        var young := (at: int) => at <= now <= at + cf.grace;
        var excused := cf.grace > 0 &&
          if p.jti in consumed then young(consumed[p.jti].at) && consumed[p.jti].ip == ip
          else p.jti in markers && markers[p.jti].Stamped? && young(markers[p.jti].at)
               && (ip == Some(markers[p.jti].ip) || (ip == None && markers[p.jti].ip == ""));
        var sc := cf.keys.scope(Chain(p.email, p.chain));
        store.rows == if answer == Rejected && !excused && !up.bump.Down?
                      then Bumped(old(store.rows), sc, Version(old(store.rows), sc)) else old(store.rows)
    {
      if cf.grace > 0 {
        if !up.benign {
          return Unavailable;
        }
        if Benign(cf, consumed, markers, now, p.jti, ip) {
          return Rejected;
        }
      }
      var _ := HandleReuse(p, up.bump);
      return Rejected;
    }

    /** Rotate a refresh token. `a` and `r` are the fresh identifiers of the new pair. */
    method RefreshTokens(p: Payload, ip: Option<string>, now: nat, a: string, r: string, up: Up)
      returns (answer: Answer)
      requires a != "" && r != ""
      modifies this`consumed, store
      ensures answer.Pair? ==>
        && Acceptable(cf, old(store.rows), now, p) && p.jti !in old(consumed)
        && p.jti in consumed && consumed == old(consumed)[p.jti := consumed[p.jti]]
        && consumed[p.jti].at == now && consumed[p.jti].ip == ip && consumed[p.jti].expires == p.exp
        && store.rows == old(store.rows)
      ensures answer.Pair? ==>
        && Current(cf.keys, store.rows, answer.access) && Current(cf.keys, store.rows, answer.refresh)
        && answer.access.(typ := p.typ, jti := p.jti, exp := p.exp) == p
        && answer.refresh.(jti := p.jti, exp := p.exp) == p
        && answer.access.typ == Access && answer.access.jti == a && answer.refresh.jti == r
        && answer.access.exp == now + cf.accessLife && answer.refresh.exp == now + cf.refreshLife
      ensures AllUp(up) ==>
        (answer.Pair? <==>
          Acceptable(cf, old(store.rows), now, p) && p.jti !in old(consumed) && p.jti !in markers
          && cf.refreshLife > 0)
      ensures AllUp(up) ==> answer != Unavailable
      ensures Acceptable(cf, old(store.rows), now, p)
              && p.jti !in old(consumed) && !(up.marker && p.jti in markers) ==>
        && (p.jti in consumed <==> Claims(up))
        && (p.jti in consumed ==> consumed[p.jti].at == now && consumed[p.jti].ip == ip)
        && consumed - {p.jti} == old(consumed) && store.rows == old(store.rows)
        && (answer.Pair? <==>
              Claims(up) && up.claim.Committed? && up.accountAgain && up.chainAgain && cf.refreshLife > 0)
        && (cf.refreshLife > 0 && !answer.Pair? ==> answer == Unavailable)
      ensures !Acceptable(cf, old(store.rows), now, p) ==>
        !answer.Pair? && consumed == old(consumed) && store.rows == old(store.rows)
      // A replay: a token whose claim is on record, or that a marker of an older release names. It
      // is rejected if it can be told to be one and its record can be read; the chain is revoked
      // unless the record is no older than the grace and names the same address.
      ensures Acceptable(cf, old(store.rows), now, p) && (p.jti in old(consumed) || (up.marker && p.jti in markers)) ==>
        var told := up.account && up.chain && ((up.marker && p.jti in markers) || up.claim.Committed?);
        var young := (at: int) => at <= now <= at + cf.grace;
        var excused := cf.grace > 0 &&
          if p.jti in old(consumed) then young(old(consumed)[p.jti].at) && old(consumed)[p.jti].ip == ip
          else markers[p.jti].Stamped? && young(markers[p.jti].at)
               && (ip == Some(markers[p.jti].ip) || (ip == None && markers[p.jti].ip == ""));
        var sc := cf.keys.scope(Chain(p.email, p.chain));
        && consumed == old(consumed)
        && answer == (if told && (cf.grace <= 0 || up.benign) then Rejected else Unavailable)
        && store.rows == if answer == Rejected && !excused && !up.bump.Down?
                         then Bumped(old(store.rows), sc, Version(old(store.rows), sc)) else old(store.rows)
    {
      if !(now < p.exp) || !p.trusted || p.jti == "" {
        return Rejected;
      }
      if p.typ != Refresh {
        return Rejected;
      }
      var current := IsCurrentVersion(p, up.account, up.chain);
      if current.None? {
        return Unavailable;
      }
      if !current.value {
        return Rejected;
      }
      CurrentIsComplete(cf.keys, store.rows, store.rows, p);
      var claimed, row := ClaimJti(p, ip, now, up);
      if !claimed && row.None? && !(up.marker && p.jti in markers) {
        return Unavailable;
      }
      if !claimed {
        answer := AnswerDuplicate(p, ip, now, up);
        return;
      }
      var access := Child(p, Access, a, row.value, cf.accessLife);
      var refresh := Child(p, Refresh, r, row.value, cf.refreshLife);
      if !(now < refresh.exp) {
        return Rejected;
      }
      var still := IsCurrentVersion(refresh, up.accountAgain, up.chainAgain);
      if still.None? {
        return Unavailable;
      }
      if !still.value {
        return Rejected;
      }
      return Pair(access, refresh);
    }

    /** Present the same refresh token twice. The second call never yields a pair; it leaves the
        pair of the first call alone if it comes within the grace from the same address, and
        kills it otherwise. */
    method Replay(p: Payload, ip1: Option<string>, ip2: Option<string>, now1: nat, now2: nat,
                  ids: (string, string), more: (string, string), up: Up)
      returns (first: Answer, second: Answer)
      requires ids.0 != "" && ids.1 != "" && more.0 != "" && more.1 != "" && now1 <= now2
      modifies this`consumed, store
      ensures first.Pair? ==> !second.Pair?
      ensures first.Pair? && AllUp(up) && now2 < p.exp && (cf.grace <= 0 || now2 - now1 > cf.grace || ip1 != ip2) ==>
        !Current(cf.keys, store.rows, first.access) && !Current(cf.keys, store.rows, first.refresh)
      ensures first.Pair? && AllUp(up) && now2 < p.exp && 0 < cf.grace && now2 - now1 <= cf.grace && ip1 == ip2 ==>
        && second == Rejected
        && Current(cf.keys, store.rows, first.access) && Current(cf.keys, store.rows, first.refresh)
    {
      first := RefreshTokens(p, ip1, now1, ids.0, ids.1, up);
      ghost var between := store.rows;
      second := RefreshTokens(p, ip2, now2, more.0, more.1, up);
      if first.Pair? {
        var sc := cf.keys.scope(Chain(p.email, p.chain));
        BumpRaises(between, sc, Version(between, sc));
      }
    }

    /** Retry after an outage. A token that was good and unused when the first call answered 503 can
        still be exchanged if and only if the outage came before its claim was committed; after
        that the retry is taken for a replay, and outside the grace or from another address it
        ends the session that the 503 was meant to keep. */
    method Retry(p: Payload, ip1: Option<string>, ip2: Option<string>, now1: nat, now2: nat,
                 ids: (string, string), more: (string, string), up1: Up, up2: Up)
      returns (first: Answer, second: Answer)
      requires ids.0 != "" && ids.1 != "" && more.0 != "" && more.1 != "" && now1 <= now2
      modifies this`consumed, store
      ensures Acceptable(cf, old(store.rows), now1, p) && p.jti !in old(consumed) && p.jti !in markers
              && first == Unavailable && AllUp(up2) && now2 < p.exp && cf.refreshLife > 0 ==>
        && (second.Pair? <==> !Claims(up1))
        && (Claims(up1) ==>
              && second == Rejected
              && var sc := cf.keys.scope(Chain(p.email, p.chain));
                 store.rows == if 0 < cf.grace && now2 - now1 <= cf.grace && ip1 == ip2 then old(store.rows)
                               else Bumped(old(store.rows), sc, Version(old(store.rows), sc)))
    {
      first := RefreshTokens(p, ip1, now1, ids.0, ids.1, up1);
      second := RefreshTokens(p, ip2, now2, more.0, more.1, up2);
    }

    // ---------------------------------------------------------------- revocation

    // The account's counter moves on; what depends on it ends, and nothing else does.
    method EndAccount(email: string, reply: Reply) returns (ok: bool)
      modifies store
      ensures ok <==> reply.Committed?
      ensures reply.Down? ==> store.rows == old(store.rows)
      ensures !reply.Down? ==> forall p :: Covered(cf.keys, old(store.rows), Account(email), p) ==>
                                 !Current(cf.keys, store.rows, p)
      ensures Good(cf) ==> OnlyAccountEnds(cf, old(store.rows), store.rows, email)
    {
      if Good(cf) {
        AccountBumpIsScoped(cf, store.rows, email, Version(store.rows, cf.keys.scope(Account(email))));
      }
      ok := store.BumpVersion(cf.keys.scope(Account(email)), reply);
    }

    /** A return value means that every covered token is dead; an unconfirmed bump never returns
        one. The count is best effort, and so is the clean-up of the session mirror. */
    method RevokeAllTokens(email: string, user: Option<nat>, now: nat, counts: bool, mirrors: bool, reply: Reply)
      returns (r: Revocation)
      modifies this`sessions, store
      ensures r.Unconfirmed? <==> !reply.Committed?
      ensures reply.Down? ==> store.rows == old(store.rows)
      ensures r.Unconfirmed? ==> sessions == old(sessions)
      ensures !reply.Down? ==> forall p :: Covered(cf.keys, old(store.rows), Account(email), p) ==>
                                 !Current(cf.keys, store.rows, p)
      ensures Good(cf) ==> OnlyAccountEnds(cf, old(store.rows), store.rows, email)
      ensures r.Revoked? ==>
        && r.count == (if counts
                       then |set id | id in old(sessions) && user == Some(old(sessions)[id].userId)
                                      && old(sessions)[id].expires > now| else 0)
        && sessions == if mirrors
                       then map id | id in old(sessions) && user != Some(old(sessions)[id].userId) :: old(sessions)[id]
                       else old(sessions)
    {
      hide Covered, Current, OnlyAccountEnds;
      var ok := EndAccount(email, reply);
      if !ok {
        return Unconfirmed;
      }
      assert ActiveOf(sessions, user, now)
          == set id | id in sessions && user == Some(sessions[id].userId) && sessions[id].expires > now;
      var active := if counts then |ActiveOf(sessions, user, now)| else 0;
      if mirrors {
        sessions := sessions - SessionsOf(sessions, user);
      }
      return Revoked(active);
    }

    // Delete the user's mirrored sessions, but those of the exempt chain and those of no chain.
    method DropMirrored(user: Option<nat>, exempt: string)
      modifies this`sessions
      ensures forall id ::
        id in sessions <==>
          id in old(sessions) &&
          !(user == Some(old(sessions)[id].userId) &&
            (exempt == "" || (old(sessions)[id].chain != "" && old(sessions)[id].chain != exempt)))
      ensures forall id :: id in sessions ==> id in old(sessions) && sessions[id] == old(sessions)[id]
    {
      var mine := SessionsOf(sessions, user);
      if exempt == "" {
        sessions := sessions - mine;
      } else {
        sessions := sessions - (set id | id in mine && sessions[id].chain != "" && sessions[id].chain != exempt);
      }
    }

    /** The same for a password change: every old token dies, those of the exempt chain included,
        but its mirrored session stays. The count leaves out one session, so it is the number of
        other active sessions if and only if the exempt chain had exactly one, or there was none. */
    method RevokeAllTokensExceptChain(email: string, exempt: string, user: Option<nat>, now: nat, counts: bool,
                                      mirrors: bool, reply: Reply)
      returns (r: Revocation)
      modifies this`sessions, store
      ensures r.Unconfirmed? <==> !reply.Committed?
      ensures reply.Down? ==> store.rows == old(store.rows)
      ensures r.Unconfirmed? ==> sessions == old(sessions)
      ensures !reply.Down? ==> forall p :: Covered(cf.keys, old(store.rows), Account(email), p) ==>
                                 !Current(cf.keys, store.rows, p)
      ensures Good(cf) ==> OnlyAccountEnds(cf, old(store.rows), store.rows, email)
      ensures r.Revoked? && !counts ==> r.count == 0
      ensures r.Revoked? && counts ==>
        var active := set id | id in old(sessions) && user == Some(old(sessions)[id].userId)
                               && old(sessions)[id].expires > now;
        var kept := set id | id in active && exempt != "" && old(sessions)[id].chain == exempt;
        && r.count == Max(|active| - 1, 0)
        && (r.count == |active - kept| <==> |kept| == 1 || active == {})
      ensures r.Revoked? && !mirrors ==> sessions == old(sessions)
      ensures r.Revoked? && mirrors ==> forall id ::
        id in sessions <==>
          id in old(sessions) &&
          !(user == Some(old(sessions)[id].userId) &&
            (exempt == "" || (old(sessions)[id].chain != "" && old(sessions)[id].chain != exempt)))
      ensures forall id :: id in sessions ==> id in old(sessions) && sessions[id] == old(sessions)[id]
    {
      hide Covered, Current, OnlyAccountEnds;
      var ok := EndAccount(email, reply);
      if !ok {
        return Unconfirmed;
      }
      var active := ActiveOf(sessions, user, now);
      var others := Max(if counts then |active| - 1 else 0, 0);
      assert counts ==>
        var active := set id | id in sessions && user == Some(sessions[id].userId) && sessions[id].expires > now;
        var kept := set id | id in active && exempt != "" && sessions[id].chain == exempt;
        && others == Max(|active| - 1, 0)
        && (others == |active - kept| <==> |kept| == 1 || active == {})
      by {
        assert active == set id | id in sessions && user == Some(sessions[id].userId) && sessions[id].expires > now;
        KeptCount(active, set id | id in active && exempt != "" && sessions[id].chain == exempt);
      }
      if mirrors {
        DropMirrored(user, exempt);
      }
      return Revoked(others);
    }

    /** Returning means that every covered token of the chain is dead, and whatever the answer,
        nothing else is: every other chain, and the account, are as they were. */
    method RevokeChain(email: string, chain: string, reply: Reply) returns (r: Revocation)
      modifies store
      ensures r.Unconfirmed? <==> !reply.Committed?
      ensures reply.Down? ==> store.rows == old(store.rows)
      ensures !reply.Down? ==> forall p :: Covered(cf.keys, old(store.rows), Chain(email, chain), p) ==>
                                 !Current(cf.keys, store.rows, p)
      ensures Good(cf) ==> OnlyChainEnds(cf, old(store.rows), store.rows, email, chain)
    {
      if Good(cf) {
        ChainBumpIsScoped(cf, store.rows, email, chain, Version(store.rows, cf.keys.scope(Chain(email, chain))));
      }
      var ok := store.BumpVersion(cf.keys.scope(Chain(email, chain)), reply);
      if !ok {
        return Unconfirmed;
      }
      return Revoked(0);
    }

    /** End one session: the chain's counter first, the row second. A session that is reported
        ended is dead; so is one whose row another request deleted in between (`gone`), which is
        answered as not found. If the bump is unconfirmed the row is still there. */
    method RevokeOneSession(email: string, userId: Option<nat>, id: nat, reply: Reply, gone: bool)
      returns (r: SessionEnd)
      modifies this`sessions, store
      ensures var own := userId.Some? && id in old(sessions) && old(sessions)[id].userId == userId.value;
        && (!own ==> r == NoSuchSession && sessions == old(sessions) && store.rows == old(store.rows))
        && (own ==>
             var chain := old(sessions)[id].chain;
             && (r.EndUnconfirmed? <==> chain != "" && !reply.Committed?)
             && (r.Ended? <==> (chain == "" || reply.Committed?) && !gone)
             && (r.Ended? ==> r.session == old(sessions)[id])
             && sessions == (if r.EndUnconfirmed? then old(sessions) else old(sessions) - {id})
             && (chain == "" || reply.Down? ==> store.rows == old(store.rows))
             && (chain != "" && !reply.Down? ==>
                   forall p :: Covered(cf.keys, old(store.rows), Chain(email, chain), p) ==>
                     !Current(cf.keys, store.rows, p))
             && (Good(cf) ==> OnlyChainEnds(cf, old(store.rows), store.rows, email, chain)))
    {
      if userId.None? {
        return NoSuchSession;
      }
      if id !in sessions || sessions[id].userId != userId.value {
        return NoSuchSession;
      }
      var target := sessions[id];
      if target.chain != "" {
        var done := RevokeChain(email, target.chain, reply);
        if done.Unconfirmed? {
          return EndUnconfirmed;
        }
      }
      sessions := sessions - {id};
      if gone {
        return NoSuchSession;
      }
      return Ended(target);
    }

    // ---------------------------------------------------------------- cleanup

    // SELECT ... WHERE expires_at < now() ORDER BY expires_at LIMIT limit.
    method SelectExpired(now: nat, limit: nat) returns (batch: set<string>)
      ensures forall j :: j in batch ==> j in consumed && consumed[j].expires < now
      ensures |batch| <= limit
      ensures |batch| < limit ==> forall j :: j in consumed && consumed[j].expires < now ==> j in batch
      ensures forall i, j :: i in batch && j in consumed && j !in batch ==> consumed[i].expires <= consumed[j].expires
    {
      var left := set j | j in consumed && consumed[j].expires < now;
      batch := {};
      while left != {} && |batch| < limit
        invariant batch !! left
        invariant forall j :: j in batch || j in left <==> j in consumed && consumed[j].expires < now
        invariant |batch| <= limit
        invariant forall i, j :: i in batch && j in left ==> consumed[i].expires <= consumed[j].expires
        decreases |left|
      {
        EarliestExists(consumed, left);
        var j :| j in left && forall k :: k in left ==> consumed[j].expires <= consumed[k].expires;
        batch := batch + {j};
        left := left - {j};
      }
    }

    /** The sweep removes claims that have expired by the time of a batch, and when it ends none is
        left that had expired by the time of the last one: it removes exactly the claims expired
        by then, and reports how many. `clock` gives the time of each batch. */
    method PurgeConsumed(clock: nat -> nat) returns (deleted: nat, last: nat)
      requires forall i, j :: i <= j ==> clock(i) <= clock(j)
      modifies this`consumed
      ensures forall j :: j in consumed <==> j in old(consumed) && !(old(consumed)[j].expires < clock(last))
      ensures forall j :: j in consumed ==> consumed[j] == old(consumed)[j]
      ensures deleted == |old(consumed)| - |consumed|
    {
      ghost var removed: set<string> := {};
      deleted, last := 0, 0;
      assert consumed == old(consumed) - {};
      while true
        invariant consumed == old(consumed) - removed && |removed| == deleted
        invariant forall j :: j in removed ==> j in old(consumed) && old(consumed)[j].expires < clock(last)
        decreases |consumed|
      {
        var batch := SelectExpired(clock(last), PURGE_BATCH);
        RemovalCounts(consumed, batch);
        SweepStep(old(consumed), removed, batch);
        consumed := consumed - batch;
        removed := removed + batch;
        deleted := deleted + |batch|;
        if |batch| < PURGE_BATCH {
          break;
        }
        last := last + 1;
      }
      RemovalCounts(old(consumed), removed);
    }

    /** A sweep between two presentations of a token does not make it exchangeable again, unless it
        runs after the token has expired: no clock reading before the expiry lets the second
        presentation answer with a pair, however late the sweep and whatever fails. */
    method ReplayAfterSweep(p: Payload, ip1: Option<string>, ip2: Option<string>, now1: nat, now2: nat,
                            ids: (string, string), more: (string, string), clock: nat -> nat, up1: Up, up2: Up)
      returns (first: Answer, last: nat, second: Answer)
      requires ids.0 != "" && ids.1 != "" && more.0 != "" && more.1 != ""
      requires forall i, j :: i <= j ==> clock(i) <= clock(j)
      modifies this`consumed, store
      ensures first.Pair? && (clock(last) <= p.exp || clock(last) <= now2) ==> !second.Pair?
      ensures first.Pair? && AllUp(up2) && cf.refreshLife > 0 && now2 < p.exp && p.jti !in markers ==>
        (second.Pair? <==> p.exp < clock(last))
    {
      first := RefreshTokens(p, ip1, now1, ids.0, ids.1, up1);
      var deleted: nat;
      deleted, last := PurgeConsumed(clock);
      second := RefreshTokens(p, ip2, now2, more.0, more.1, up2);
    }
  }

  // The count that leaves out one session, against the sessions that are not on the chain.
  lemma KeptCount(active: set<nat>, kept: set<nat>)
    requires kept <= active
    ensures Max(|active| - 1, 0) == |active - kept| <==> |kept| == 1 || active == {}
  {
    assert active == (active - kept) + kept;
    assert active == {} ==> kept == {};
  }

  lemma SweepStep(was: map<string, ClaimRow>, removed: set<string>, batch: set<string>)
    requires removed <= was.Keys && batch <= (was - removed).Keys
    ensures |removed + batch| == |removed| + |batch|
    ensures (was - removed) - batch == was - (removed + batch)
  {
    assert removed !! batch;
  }

  lemma RemovalCounts(consumed: map<string, ClaimRow>, gone: set<string>)
    requires gone <= consumed.Keys
    ensures |consumed - gone| == |consumed| - |gone|
  {
    assert (consumed - gone).Keys == consumed.Keys - gone;
    assert consumed.Keys == (consumed.Keys - gone) + gone;
    assert |consumed - gone| == |(consumed - gone).Keys| && |consumed| == |consumed.Keys|;
  }

  lemma {:induction false} EarliestExists(consumed: map<string, ClaimRow>, left: set<string>)
    requires left != {} && left <= consumed.Keys
    ensures exists j :: j in left && forall k :: k in left ==> consumed[j].expires <= consumed[k].expires
    decreases |left|
  {
    var one :| one in left;
    if left == {one} {
      return;
    }
    EarliestExists(consumed, left - {one});
    var j :| j in left - {one} && forall k :: k in left - {one} ==> consumed[j].expires <= consumed[k].expires;
    var least := if consumed[one].expires <= consumed[j].expires then one else j;
    assert forall k :: k in left ==> k == one || k in left - {one};
    assert least in left && forall k :: k in left ==> consumed[least].expires <= consumed[k].expires;
  }
}

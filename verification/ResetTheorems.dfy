/**
 What holds in every run of the password-reset protocol, whatever the interleaving of
 requests, attempts and failures.
 */
module ResetTheorems {
  import opened Common
  import opened ResetLinks
  import opened ResetProtocol

  // ---------------------------------------------------------------- the newest link

  ghost predicate NewestOkFor(s: State, a: string) {
    a in s.newest && s.newest[a] !in s.spent ==>
      && Guarding(s, a, s.newest[a])
      && (s.newest[a] !in s.consumed ==> forall j :: Older(s, j, s.newest[a]) ==> Outlives(s, s.newest[a], j))
  }

  lemma NewestAfterTick(s: State, d: nat, a: string)
    requires KeysOk(s) && NewestOkFor(s, a)
    ensures NewestOkFor(s.(now := s.now + d), a)
  {
    var s' := s.(now := s.now + d);
    if a in s.newest && s.newest[a] !in s.spent && s.newest[a] !in s.consumed {
      forall j | Older(s', j, s.newest[a]) ensures Outlives(s', s.newest[a], j) {
        assert Older(s, j, s.newest[a]) && Outlives(s, s.newest[a], j);
      }
    }
  }

  lemma NewestAfterStore(life: nat, s: State, jti: string, at: nat, a: string)
    requires LinksOk(life, s) && StoredOk(s) && NewestOkFor(s, a) && jti in s.links && jti !in s.stored
    ensures NewestOkFor(Stored(life, s, s.links[jti], at), a)
  {
    var s' := Stored(life, s, s.links[jti], at);
    OwnLink(life, s, jti);
    if s' != s && a in s'.newest && s'.newest[a] !in s'.spent && s'.newest[a] !in s'.consumed {
      var n := s'.newest[a];
      forall j | Older(s', j, n) ensures Outlives(s', n, j) {
        OwnLink(life, s, j);
        if a != s.links[jti].account {
          assert Older(s, j, n) && Outlives(s, n, j);
        }
      }
    }
  }

  lemma NewestAfterConsume(s: State, id: nat, link: Link, a: string)
    requires KeysOk(s) && StoredOk(s) && NewestOkFor(s, a)
    requires link.jti in s.links && s.links[link.jti] == link
    ensures NewestOkFor(Consumed(s, id, link), a)
  {
    hide KeysOk, StoredOk;
    var s' := Consumed(s, id, link);
    if a in s'.newest && s'.newest[a] !in s'.spent {
      var n := s'.newest[a];
      assert Guarding(s, a, n);
      OtherAccountKept(s, link, a);
      if n !in s'.consumed {
        forall j | Older(s', j, n) ensures Outlives(s', n, j) {
          assert n != link.jti || s' == Put(s, id, Finished);
          assert Older(s, j, n) && Outlives(s, n, j);
        }
      }
    }
  }

  lemma OtherAccountKept(s: State, link: Link, a: string)
    requires KeysOk(s) && StoredOk(s) && link.jti in s.links && s.links[link.jti] == link
    ensures var k := ConsumeScript(s.keys, link.account, link.jti, s.now);
      && (a != link.account ==> Outstanding(k, a, s.now) == Outstanding(s.keys, a, s.now))
      && (a in s.newest && a != link.account ==> s.newest[a] != link.jti)
  {
  }

  lemma NewestAfterGiveBack(s: State, id: nat, link: Link, at: nat, a: string)
    requires KeysOk(s) && StoredOk(s) && NewestOkFor(s, a)
    requires link.jti in s.links && s.links[link.jti] == link && link.jti in s.consumed
    ensures NewestOkFor(GivenBack(s, id, link, at), a)
  {
    var s' := GivenBack(s, id, link, at);
    if a in s'.newest && s'.newest[a] !in s'.spent {
      var n := s'.newest[a];
      if n != link.jti {
        assert Guarding(s, a, n);
      }
      if n !in s'.consumed {
        forall j | Older(s', j, n) ensures Outlives(s', n, j) {
          assert Older(s, j, n) && Outlives(s, n, j);
        }
      }
    }
  }

  lemma NewestAfterOther(life: nat, s: State, act: Action, a: string)
    requires LinksOk(life, s) && StoredOk(s) && NewestOkFor(s, a) && Enabled(life, s, act)
    requires act.Create? || act.Start? || act.Fail? || act.Measure? || act.Write? || act.Abort?
    ensures NewestOkFor(Apply(life, s, act), a)
  {
    var s' := Apply(life, s, act);
    if a in s'.newest && s'.newest[a] !in s'.spent && s'.newest[a] !in s'.consumed {
      var n := s.newest[a];
      forall j | Older(s', j, n) ensures Outlives(s', n, j) {
        assert Older(s, j, n) && Outlives(s, n, j);
      }
    }
  }

  lemma NewestStaysOk(life: nat, s: State, act: Action)
    requires Inv(life, s) && Enabled(life, s, act)
    ensures NewestOk(Apply(life, s, act))
  {
    hide LinksOk, KeysOk, LapsesOk, StoredOk, PermitsOk, NewestOkFor;
    var s' := Apply(life, s, act);
    forall a ensures NewestOkFor(s', a) {
      NewestFor(s, a);
      if act.Tick? {
        NewestAfterTick(s, act.microseconds, a);
      } else if act.Store? {
        NewestAfterStore(life, s, act.jti, act.at, a);
      } else if act.Consume? {
        AttemptLink(life, s, act.id);
        NewestAfterConsume(s, act.id, s.attempts[act.id].link, a);
      } else if act.GiveBack? {
        AttemptLink(life, s, act.id);
        HeldIsConsumed(s, act.id);
        NewestAfterGiveBack(s, act.id, s.attempts[act.id].link, s.attempts[act.id].at, a);
      } else {
        NewestAfterOther(life, s, act, a);
      }
    }
    NewestForAll(s');
  }

  lemma NewestFor(s: State, a: string)
    requires NewestOk(s)
    ensures NewestOkFor(s, a)
  {
  }

  lemma NewestForAll(s: State)
    requires forall a :: NewestOkFor(s, a)
    ensures NewestOk(s)
  {
    forall a | a in s.newest && s.newest[a] !in s.spent
      ensures Guarding(s, a, s.newest[a])
      ensures s.newest[a] !in s.consumed ==> forall j :: Older(s, j, s.newest[a]) ==> Outlives(s, s.newest[a], j)
    {
      assert NewestOkFor(s, a);
    }
  }

  // ---------------------------------------------------------------- runs

  lemma InvStays(life: nat, s: State, act: Action)
    requires Inv(life, s) && Enabled(life, s, act)
    ensures Inv(life, Apply(life, s, act))
  {
    hide LinksOk, KeysOk, LapsesOk, StoredOk, PermitsOk, NewestOk, Apply, Enabled;
    LinksStayOk(life, s, act);
    KeysStayOk(life, s, act);
    LapsesStayOk(life, s, act);
    StoredStaysOk(life, s, act);
    PermitsStayOk(life, s, act);
    NewestStaysOk(life, s, act);
  }

  lemma {:induction false} Reached(life: nat, run: Run, i: nat)
    requires IsRun(life, run) && i < |run.states|
    ensures Inv(life, run.states[i])
  {
    hide Inv, Apply, Enabled;
    if i == 0 {
      InitialOk(life, run.states[0]);
    } else {
      Reached(life, run, i - 1);
      InvStays(life, run.states[i - 1], run.actions[i - 1]);
    }
  }

  lemma InitialOk(life: nat, s: State)
    requires Initial(s)
    ensures Inv(life, s)
  {
  }

  lemma {:induction false} WritesStay(life: nat, run: Run, i: nat, k: nat, jti: string)
    requires IsRun(life, run) && i <= k < |run.states|
    ensures Writes(run.states[i], jti) <= Writes(run.states[k], jti)
    ensures jti in run.states[i].links ==>
      jti in run.states[k].links && run.states[k].links[jti] == run.states[i].links[jti]
    decreases k
  {
    hide Initial, Enabled, Apply;
    if i < k {
      WritesStay(life, run, i, k - 1, jti);
      WritesGrow(life, run.states[k - 1], run.actions[k - 1], jti);
    }
  }

  lemma WritesGrow(life: nat, s: State, act: Action, jti: string)
    requires Enabled(life, s, act)
    ensures Writes(s, jti) <= Writes(Apply(life, s, act), jti)
    ensures jti in s.links ==> jti in Apply(life, s, act).links && Apply(life, s, act).links[jti] == s.links[jti]
  {
  }

  // ---------------------------------------------------------------- theorems

  /** Permit conservation: a link is redeemable, or held by one attempt, or has caused the one
      password change it will ever cause, and never two of these at once. */
  lemma PermitConservation(life: nat, run: Run, i: nat, link: Link)
    requires IsRun(life, run) && i < |run.states|
    requires link.jti in run.states[i].links && run.states[i].links[link.jti] == link
    ensures var s := run.states[i];
      (if Redeemable(s.keys, link, s.now) then 1 else 0) + |Holders(s, link.jti)| + Writes(s, link.jti) <= 1
  {
    Reached(life, run, i);
    assert Permits(run.states[i], link.jti) <= 1;
  }

  /** Once a link has changed a password it is dead in every later state: not redeemable, not
      held by any attempt, and it changes no password again. */
  lemma UsedLinkIsDead(life: nat, run: Run, i: nat, k: nat, link: Link)
    requires IsRun(life, run) && i <= k < |run.states|
    requires link.jti in run.states[i].links && run.states[i].links[link.jti] == link
    requires Writes(run.states[i], link.jti) > 0
    ensures var s := run.states[k];
      && Writes(s, link.jti) == 1 && Holders(s, link.jti) == {}
      && !Redeemable(s.keys, link, s.now)
  {
    hide IsRun;
    WritesStay(life, run, i, k, link.jti);
    PermitConservation(life, run, k, link);
  }

  /** No password is changed without its causes: the attempt that writes one had decoded a token
      of this link that was unexpired, and had then consumed its keys while both were live. */
  lemma WriteHasCauses(life: nat, run: Run, j: nat, id: nat) returns (k: nat, c: nat)
    requires IsRun(life, run) && j < |run.actions| && run.actions[j] == Write(id)
    ensures k < c < j && id in run.states[j].attempts && run.states[j].attempts[id].Holding?
    ensures var link, s := run.states[j].attempts[id].link, run.states[k];
      && run.actions[k] == Start(id, link.jti) && link.jti in s.links && s.links[link.jti] == link
      && s.now < link.exp
    ensures var link, s := run.states[j].attempts[id].link, run.states[c]; var keys := s.keys;
      && run.actions[c] == Consume(id)
      && link.account in keys.active && keys.active[link.account].jti == link.jti
      && s.now < keys.active[link.account].deadline
      && link.jti in keys.markers && s.now < keys.markers[link.jti]
  {
    assert Enabled(life, run.states[j], run.actions[j]);
    var link := run.states[j].attempts[id].link;
    c := HoldingWasConsumed(life, run, j, id, link);
    k := DecodedWasStarted(life, run, c, id, link);
  }

  lemma {:induction false} HoldingWasConsumed(life: nat, run: Run, j: nat, id: nat, link: Link) returns (c: nat)
    requires IsRun(life, run) && j < |run.states|
    requires id in run.states[j].attempts && run.states[j].attempts[id] == Holding(link)
    ensures c < j && run.actions[c] == Consume(id)
    ensures id in run.states[c].attempts && run.states[c].attempts[id] == Decoded(link)
    ensures CanConsume(run.states[c].keys, link.account, link.jti, run.states[c].now)
    decreases j
  {
    assert j > 0;
    var s, act := run.states[j - 1], run.actions[j - 1];
    assert Enabled(life, s, act) && run.states[j] == Apply(life, s, act);
    if id in s.attempts && s.attempts[id] == Holding(link) {
      c := HoldingWasConsumed(life, run, j - 1, id, link);
    } else {
      c := j - 1;
    }
  }

  lemma {:induction false} DecodedWasStarted(life: nat, run: Run, j: nat, id: nat, link: Link) returns (k: nat)
    requires IsRun(life, run) && j < |run.states|
    requires id in run.states[j].attempts && run.states[j].attempts[id] == Decoded(link)
    ensures k < j && run.actions[k] == Start(id, link.jti) && run.states[k].now < link.exp
    ensures link.jti in run.states[k].links && run.states[k].links[link.jti] == link
    decreases j
  {
    hide Enabled, Apply, LinksOk, KeysOk, LapsesOk;
    assert j > 0;
    var s, act := run.states[j - 1], run.actions[j - 1];
    assert Enabled(life, s, act) && run.states[j] == Apply(life, s, act);
    if id in s.attempts && s.attempts[id] == Decoded(link) {
      k := DecodedWasStarted(life, run, j - 1, id, link);
    } else {
      k := j - 1;
      Reached(life, run, j - 1);
      assert LinksOk(life, s);
      NewlyDecoded(life, s, act, id, link);
    }
  }

  lemma NewlyDecoded(life: nat, s: State, act: Action, id: nat, link: Link)
    requires LinksOk(life, s) && Enabled(life, s, act) && !(id in s.attempts && s.attempts[id] == Decoded(link))
    requires id in Apply(life, s, act).attempts && Apply(life, s, act).attempts[id] == Decoded(link)
    ensures act == Start(id, link.jti) && s.now < link.exp
    ensures link.jti in s.links && s.links[link.jti] == link
  {
    hide HandedBack, ConsumeScript, CanConsume, Restores, StoreScript;
  }

  /** At most one link of an account is redeemable at any moment. */
  lemma OneLinkPerAccount(life: nat, run: Run, i: nat, link: Link, other: Link)
    requires IsRun(life, run) && i < |run.states|
    requires link in run.states[i].links.Values && other in run.states[i].links.Values
    requires Redeemable(run.states[i].keys, link, run.states[i].now)
    requires Redeemable(run.states[i].keys, other, run.states[i].now)
    requires link.account == other.account
    ensures link == other
  {
    Reached(life, run, i);
  }

  // `newest` was the last link stored for its account, and it is not spent: it was never
  // consumed, or it was handed back. `older` was stored before it.
  predicate Succession(s: State, older: Link, newest: Link) {
    && newest.account in s.newest && s.newest[newest.account] == newest.jti
    && newest.jti in s.links && s.links[newest.jti] == newest && newest.jti !in s.spent
    && older.jti in s.links && s.links[older.jti] == older && Older(s, older.jti, newest.jti)
  }

  /** While the newest link of an account is not spent, an older one can be redeemable only after
      the newest was handed back and its keys have lapsed before the older token expires, which
      takes two tokens that expire less than a second apart. */
  lemma NewestKeepsOlderOut(life: nat, run: Run, i: nat, older: Link, newest: Link)
    requires IsRun(life, run) && i < |run.states| && Succession(run.states[i], older, newest)
    ensures var s := run.states[i];
      && newest.jti in s.keys.markers
      && (Redeemable(s.keys, older, s.now) ==>
            newest.jti in s.consumed && s.keys.markers[newest.jti] <= s.now < older.exp)
      && (newest.jti in s.consumed ==> newest.exp - SECOND < s.keys.markers[newest.jti])
      && (newest.jti !in s.consumed || older.exp + SECOND <= newest.exp ==> !Redeemable(s.keys, older, s.now))
  {
    Reached(life, run, i);
    var s := run.states[i];
    NewestFor(s, newest.account);
    LapseBounds(s, newest.jti);
    assert newest.jti !in s.consumed ==> Outlives(s, newest.jti, older.jti);
  }

  lemma LapseBounds(s: State, j: string)
    requires LapsesOk(s) && j in s.keys.markers && j in s.links
    ensures j in s.consumed ==> s.links[j].exp - SECOND < s.keys.markers[j]
  {
  }

  /** Exactly when handing a link back revives it: a whole second was left when that was measured,
      the token is still valid, and the account has no outstanding link. An older link can be
      revived only after the newest was consumed, and either is still spent or was handed back
      with keys that have lapsed by now. */
  lemma GiveBackRevivesIff(life: nat, run: Run, i: nat, id: nat)
    requires IsRun(life, run) && i < |run.states|
    requires id in run.states[i].attempts && run.states[i].attempts[id].Returning?
    ensures var s := run.states[i]; var link, at := s.attempts[id].link, s.attempts[id].at;
      var revived := Redeemable(Apply(life, s, GiveBack(id)).keys, link, s.now);
      && (revived <==>
            Remaining(link, at) > 0 && s.now < link.exp && Outstanding(s.keys, link.account, s.now) == None)
      && link.account in s.newest
      && var n := s.newest[link.account];
         (revived && n != link.jti ==>
            n in s.consumed && (n in s.spent || (n in s.keys.markers && s.keys.markers[n] <= s.now)))
  {
    hide IsRun, Redeemable, PermitsOk;
    Reached(life, run, i);
    var s := run.states[i];
    var link, at := s.attempts[id].link, s.attempts[id].at;
    AttemptLink(life, s, id);
    HeldIsNotUsable(s, id);
    NotOutstanding(s.keys, link, s.now);
    HandBackIff(s.keys, link, at, s.now);
    HeldHasNewest(s, id);
    if s.now < link.exp && Outstanding(s.keys, link.account, s.now) == None && s.newest[link.account] != link.jti {
      FreeMeansGone(s, link);
    }
  }

  lemma HeldHasNewest(s: State, id: nat)
    requires StoredOk(s) && id in s.attempts && Has(s.attempts[id])
    requires s.attempts[id].link.jti in s.links && s.links[s.attempts[id].link.jti] == s.attempts[id].link
    ensures s.attempts[id].link.account in s.newest && s.attempts[id].link.jti in s.stored
  {
    HeldIsConsumed(s, id);
    RecordsOk(s);
  }

  // With no link outstanding and an older one unexpired, the newest was consumed.
  lemma FreeMeansGone(s: State, link: Link)
    requires NewestOk(s) && StoredOk(s) && link.account in s.newest
    requires link.jti in s.links && s.links[link.jti] == link && link.jti in s.stored
    requires s.newest[link.account] != link.jti
    requires s.now < link.exp && Outstanding(s.keys, link.account, s.now) == None
    ensures var n := s.newest[link.account];
      n in s.consumed && (n in s.spent || (n in s.keys.markers && s.keys.markers[n] <= s.now))
  {
    NewestFor(s, link.account);
    var n := s.newest[link.account];
    RecordsOk(s);
    assert n !in s.spent && n !in s.consumed ==> Older(s, link.jti, n) && Outlives(s, n, link.jti);
  }

  /** The exact condition for an older link to get past an unspent newest one. A measured attempt
      that waits for any time d and then runs its script revives its link if and only if by then
      the keys of the newest link have lapsed and the older token has not expired. */
  lemma OlderRevivesAfterWaitIff(life: nat, run: Run, i: nat, id: nat, newest: Link, d: nat)
    requires IsRun(life, run) && i < |run.states|
    requires id in run.states[i].attempts && run.states[i].attempts[id].Returning?
    requires Succession(run.states[i], run.states[i].attempts[id].link, newest)
    requires newest.account in run.states[i].keys.active
    requires run.states[i].keys.active[newest.account].jti == newest.jti
    ensures var s := run.states[i]; var older, at := s.attempts[id].link, s.attempts[id].at;
      var waited := Apply(life, s, Tick(d));
      && newest.jti in s.keys.markers
      && (Redeemable(Apply(life, waited, GiveBack(id)).keys, older, s.now + d) <==>
            Remaining(older, at) > 0 && s.keys.markers[newest.jti] <= s.now + d < older.exp)
  {
    var s := run.states[i];
    assert KeysOk(s) by { Reached(life, run, i); }
    hide IsRun, Redeemable, KeysOk;
    WaitedOutstanding(s, newest, s.now + d);
    NotOutstanding(s.keys, s.attempts[id].link, s.now + d);
    HandBackIff(s.keys, s.attempts[id].link, s.attempts[id].at, s.now + d);
  }

  lemma WaitedOutstanding(s: State, n: Link, now: nat)
    requires KeysOk(s) && n.account in s.keys.active && s.keys.active[n.account].jti == n.jti
    ensures n.jti in s.keys.markers
    ensures Outstanding(s.keys, n.account, now) == if now < s.keys.markers[n.jti] then Some(n.jti) else None
  {
  }

  lemma HeldIsNotUsable(s: State, id: nat)
    requires KeysOk(s) && PermitsOk(s)
    requires id in s.attempts && Has(s.attempts[id])
    requires s.attempts[id].link.jti in s.links && s.links[s.attempts[id].link.jti] == s.attempts[id].link
    ensures Outstanding(s.keys, s.attempts[id].link.account, s.now) != Some(s.attempts[id].link.jti)
  {
    var jti := s.attempts[id].link.jti;
    assert id in Holders(s, jti);
    assert Holders(s, jti) == Holders(s, jti) - {id} + {id};
    assert Permits(s, jti) <= 1;
  }

  /** When the keys of a handed-back link lapse, in every reachable state: as long after its
      token's expiry as the script ran after the measurement, less the fraction of a second the
      measurement dropped. They outlive the token exactly when the script took longer than that
      fraction; the link itself is never redeemable past its token's expiry. */
  lemma HandedBackLapse(life: nat, run: Run, i: nat, link: Link)
    requires IsRun(life, run) && i < |run.states|
    requires var s := run.states[i];
      link.jti in s.links && s.links[link.jti] == link && link.jti in s.consumed && link.jti in s.keys.markers
    ensures var s := run.states[i];
      && link.jti in s.returned
      && var r, deadline := s.returned[link.jti], s.keys.markers[link.jti];
         && r.at <= r.ran && deadline == link.exp + (r.ran - r.at) - Fraction(link, r.at)
         && (deadline <= link.exp <==> r.ran - r.at <= Fraction(link, r.at))
         && link.exp - SECOND < deadline <= link.exp + (r.ran - r.at)
         && (Outstanding(s.keys, link.account, s.now) == Some(link.jti) ==>
               s.keys.active[link.account].deadline == deadline)
    ensures Redeemable(run.states[i].keys, link, run.states[i].now) ==> run.states[i].now < link.exp
  {
    Reached(life, run, i);
  }

  // ---------------------------------------------------------------- an older link revives

  function Last(run: Run): State
    requires |run.states| > 0
  {
    run.states[|run.states| - 1]
  }

  lemma Extend(life: nat, run: Run, act: Action) returns (r: Run)
    requires IsRun(life, run) && Enabled(life, Last(run), act)
    ensures IsRun(life, r) && Last(r) == Apply(life, Last(run), act)
    ensures run.states <= r.states
  {
    hide Initial, Enabled, Apply;
    r := Run(run.states + [Apply(life, Last(run), act)], run.actions + [act]);
  }

  // The first request of an account is answered.
  lemma FirstRequest(life: nat, link: Link) returns (run: Run)
    requires life > 0 && link.jti != "" && link.exp == life * SECOND
    ensures IsRun(life, run)
    ensures var s := Last(run);
      && s.now == 0 && s.links == map[link.jti := link] && s.stored == {link.jti}
      && s.attempts == map[] && s.writes == map[]
      && s.keys == Keys(map[link.account := Entry(link.jti, link.exp)], map[link.jti := link.exp])
  {
    var s0 := State(0, Keys(map[], map[]), map[], map[], map[], {}, map[], {}, {}, map[]);
    run := Run([s0], []);
    run := Extend(life, run, Create(link));
    run := Extend(life, run, Store(link.jti, 0));
  }

  // An attempt consumes its link and fails repairably.
  lemma FirstAttempt(life: nat, before: Run, link: Link) returns (run: Run)
    requires IsRun(life, before) && 0 < link.exp
    requires var s := Last(before);
      && s.now == 0 && s.links == map[link.jti := link] && s.stored == {link.jti}
      && s.attempts == map[] && s.writes == map[]
      && s.keys == Keys(map[link.account := Entry(link.jti, link.exp)], map[link.jti := link.exp])
    ensures IsRun(life, run)
    ensures var s := Last(run);
      && s.now == 0 && s.links == map[link.jti := link] && s.stored == {link.jti}
      && s.attempts == map[1 := Repairing(link)] && s.keys == Keys(map[], map[])
      && s.writes == map[]
  {
    hide IsRun;
    run := Extend(life, before, Start(1, link.jti));
    run := Extend(life, run, Consume(1));
    assert Last(run).keys == Keys(map[], map[]);
    run := Extend(life, run, Fail(1));
  }

  /** The keys of a handed-back link can outlive its token, with the link still redeemable: the
      script only has to run later than the life was measured, with no fraction dropped. */
  lemma KeysOutliveToken(life: nat, link: Link) returns (run: Run)
    requires life > 0 && link.jti != "" && link.exp == life * SECOND
    ensures IsRun(life, run)
    ensures var s := Last(run);
      && link.jti in s.keys.markers && s.keys.markers[link.jti] > link.exp
      && Redeemable(s.keys, link, s.now)
  {
    run := FirstRequest(life, link);
    run := FirstAttempt(life, run, link);
    hide IsRun;
    run := Extend(life, run, Measure(1));
    run := Extend(life, run, Tick(1));
    HandBackLapse(Last(run).keys, link, 0, 1);
    run := Extend(life, run, GiveBack(1));
  }

  // A later request for the same account is answered, `d` after the first, and its link consumed.
  lemma SecondRequest(life: nat, before: Run, older: Link, newer: Link, d: nat) returns (run: Run)
    requires IsRun(life, before) && life > 0 && newer.jti != "" && newer.jti != older.jti
    requires newer.exp == life * SECOND + d
    requires var s := Last(before);
      && s.now == 0 && s.links == map[older.jti := older] && s.stored == {older.jti}
      && s.attempts == map[1 := Repairing(older)] && s.keys == Keys(map[], map[])
      && s.writes == map[]
    ensures IsRun(life, run)
    ensures var s := Last(run);
      && s.now == d && newer.jti in s.links && s.links[newer.jti] == newer
      && s.keys == Keys(map[newer.account := Entry(newer.jti, newer.exp)], map[newer.jti := newer.exp])
      && s.attempts == map[1 := Repairing(older)]
      && newer.account in s.newest && s.newest[newer.account] == newer.jti && s.writes == map[]
  {
    hide IsRun;
    run := Extend(life, before, Tick(d));
    run := Extend(life, run, Create(newer));
    run := Extend(life, run, Store(newer.jti, d));
  }

  lemma SecondAttempt(life: nat, before: Run, older: Link, newer: Link) returns (run: Run)
    requires IsRun(life, before)
    requires var s := Last(before);
      && s.now < newer.exp && newer.jti in s.links && s.links[newer.jti] == newer
      && s.keys == Keys(map[newer.account := Entry(newer.jti, newer.exp)], map[newer.jti := newer.exp])
      && s.attempts == map[1 := Repairing(older)]
      && newer.account in s.newest && s.newest[newer.account] == newer.jti && s.writes == map[]
    ensures IsRun(life, run)
    ensures var s, s0 := Last(run), Last(before);
      && s.now == s0.now && s.keys == Keys(map[], map[]) && s.newest == s0.newest && s.writes == map[]
      && s.attempts == map[1 := Repairing(older), 2 := Holding(newer)]
  {
    hide IsRun;
    run := Extend(life, before, Start(2, newer.jti));
    run := Extend(life, run, Consume(2));
    assert Last(run).keys == Keys(map[], map[]);
  }

  /** A handed-back link can come back to life after a newer link was issued, and even after
      that newer link changed the password. */
  lemma OlderLinkRevives(life: nat, older: Link, newer: Link) returns (run: Run)
    requires life > 1 && older.jti != "" && newer.jti != "" && older.jti != newer.jti
    requires older.account == newer.account
    requires older.exp == life * SECOND && newer.exp == life * SECOND + 1
    ensures IsRun(life, run)
    ensures var s := Last(run);
      && newer.account in s.newest && s.newest[newer.account] == newer.jti
      && Writes(s, newer.jti) == 1
      && Redeemable(s.keys, older, s.now)
  {
    hide Redeemable, Initial;
    run := FirstRequest(life, older);
    run := FirstAttempt(life, run, older);
    run := SecondRequest(life, run, older, newer, 1);
    run := SecondAttempt(life, run, older, newer);
    run := Extend(life, run, Write(2));
    NotOutstanding(Last(run).keys, older, 1);
    HandBackIff(Last(run).keys, older, 1, 1);
    run := Extend(life, run, Measure(1));
    run := Extend(life, run, GiveBack(1));
  }

  // The newer attempt fails as well and hands its link back 1.7 seconds before the older token
  // expires, which is 1.9 seconds before its own expiry: its keys lapse 0.7 seconds before the
  // older token expires.
  lemma NewerHandedBack(life: nat, before: Run, older: Link, newer: Link) returns (run: Run)
    requires IsRun(life, before) && life > 1 && newer.jti != older.jti
    requires older.exp == life * SECOND && newer.exp == life * SECOND + 200_000
    requires var s := Last(before);
      && s.now == 200_000 && s.keys == Keys(map[], map[])
      && s.attempts == map[1 := Repairing(older), 2 := Holding(newer)]
    ensures IsRun(life, run)
    ensures var s, s0 := Last(run), Last(before);
      && s.now == life * SECOND - 1_700_000 && s.newest == s0.newest && newer.jti !in s.spent
      && s.attempts == map[1 := Repairing(older), 2 := Finished]
      && s.keys == Keys(map[newer.account := Entry(newer.jti, life * SECOND - 700_000)],
                        map[newer.jti := life * SECOND - 700_000])
  {
    hide IsRun;
    run := Extend(life, before, Fail(2));
    run := Extend(life, run, Tick(life * SECOND - 1_900_000));
    run := Extend(life, run, Measure(2));
    assert Remaining(newer, Last(run).now) == 1;
    run := Extend(life, run, GiveBack(2));
  }

  /** The exception of NewestKeepsOlderOut is real: an older link becomes redeemable while the
      newest one is not spent, because the newest was handed back with keys that lapse first. */
  lemma LapsedNewestLetsOlderBack(life: nat, older: Link, newer: Link) returns (run: Run)
    requires life > 1 && older.jti != "" && newer.jti != "" && older.jti != newer.jti
    requires older.account == newer.account
    requires older.exp == life * SECOND && newer.exp == life * SECOND + 200_000
    ensures IsRun(life, run)
    ensures var s := Last(run);
      && newer.account in s.newest && s.newest[newer.account] == newer.jti && newer.jti !in s.spent
      && Redeemable(s.keys, older, s.now)
  {
    run := FirstRequest(life, older);
    run := FirstAttempt(life, run, older);
    run := SecondRequest(life, run, older, newer, 200_000);
    run := SecondAttempt(life, run, older, newer);
    run := NewerHandedBack(life, run, older, newer);
    run := LastSecond(life, run, older, newer);
  }

  // The older link is measured 1.1 seconds before its expiry and handed back 0.6 before it.
  lemma LastSecond(life: nat, before: Run, older: Link, newer: Link) returns (run: Run)
    requires IsRun(life, before) && life > 1 && older.jti != newer.jti && older.account == newer.account
    requires older.exp == life * SECOND
    requires var s := Last(before);
      && s.now == life * SECOND - 1_700_000 && newer.jti !in s.spent
      && s.attempts == map[1 := Repairing(older), 2 := Finished]
      && s.keys == Keys(map[newer.account := Entry(newer.jti, life * SECOND - 700_000)],
                        map[newer.jti := life * SECOND - 700_000])
    ensures IsRun(life, run)
    ensures var s, s0 := Last(run), Last(before);
      s.newest == s0.newest && newer.jti !in s.spent && Redeemable(s.keys, older, s.now)
  {
    hide IsRun, Redeemable;
    run := Extend(life, before, Tick(600_000));
    run := Extend(life, run, Measure(1));
    assert Remaining(older, Last(run).now) == 1;
    run := Extend(life, run, Tick(500_000));
    NotOutstanding(Last(run).keys, older, Last(run).now);
    HandBackIff(Last(run).keys, older, life * SECOND - 1_100_000, Last(run).now);
    run := Extend(life, run, GiveBack(1));
  }
}

/**
 Concurrent password-reset attempts as a transition system over the three scripts.

 Each action is one script, one password commit, or one local stretch of code; any number of
 attempts are in flight, and several may carry the same link.
 */
module ResetProtocol {
  import opened Common
  import opened ResetLinks

  datatype Attempt =
    | Decoded(link: Link)      // the token is genuine and unexpired
    | Holding(link: Link)      // the consume script answered 1
    | Repairing(link: Link)    // a repairable failure; about to measure the life the token has left
    | Returning(link: Link, at: nat)  // measured at `at`; about to run the restore script
    | Finished

  // When a link was last handed back: when its life was measured, and when the script ran.
  datatype Return = Return(at: nat, ran: nat)

  // `stored` to `returned` are facts about the past that no code keeps.
  datatype State = State(
    now: nat,
    keys: Keys,
    links: map<string, Link>,        // every reset token signed, by jti
    attempts: map<nat, Attempt>,
    writes: map<string, nat>,        // password commits caused by each link
    stored: set<string>,             // links the store script was run for
    newest: map<string, string>,     // per account: the last link stored
    consumed: set<string>,           // links consumed at least once
    spent: set<string>,              // links consumed and not handed back since
    returned: map<string, Return>    // the last hand-back of each link
  )

  datatype Action =
    | Tick(microseconds: nat)
    | Create(link: Link)
    | Store(jti: string, at: nat)
    | Start(id: nat, jti: string)
    | Consume(id: nat)
    | Fail(id: nat)
    | Write(id: nat)
    | Measure(id: nat)
    | GiveBack(id: nat)
    | Abort(id: nat)

  function Writes(s: State, jti: string): nat {
    if jti in s.writes then s.writes[jti] else 0
  }

  function Put(s: State, id: nat, a: Attempt): State {
    s.(attempts := s.attempts[id := a])
  }

  // `life` is the configured lifetime in seconds, used for the token and for its keys.
  predicate Enabled(life: nat, s: State, act: Action) {
    match act
    case Tick(_) => true
    case Create(link) => link.jti !in s.links && link.exp == s.now + life * SECOND
    // the token is checked at `at`, before the script runs
    case Store(jti, at) => jti in s.links && jti !in s.stored && at <= s.now
    case Start(id, jti) => id !in s.attempts && jti in s.links
    case Consume(id) => id in s.attempts && s.attempts[id].Decoded?
    case Fail(id) => id in s.attempts && s.attempts[id].Holding?
    case Write(id) => id in s.attempts && s.attempts[id].Holding?
    case Measure(id) => id in s.attempts && s.attempts[id].Repairing?
    case GiveBack(id) => id in s.attempts && s.attempts[id].Returning?
    case Abort(id) => id in s.attempts
  }

  function Stored(life: nat, s: State, link: Link, at: nat): State {
    if at < link.exp && link.jti != "" then
      s.(keys := StoreScript(s.keys, link.account, link.jti, s.now, life),
         stored := s.stored + {link.jti},
         newest := s.newest[link.account := link.jti])
    else s
  }

  function Consumed(s: State, id: nat, link: Link): State {
    if CanConsume(s.keys, link.account, link.jti, s.now) then
      Put(s, id, Holding(link)).(
        keys := ConsumeScript(s.keys, link.account, link.jti, s.now),
        consumed := s.consumed + {link.jti},
        spent := s.spent + {link.jti})
    else Put(s, id, Finished)
  }

  predicate Restores(s: State, link: Link, at: nat) {
    Remaining(link, at) > 0 && CanRestore(s.keys, link.account, link.jti, s.now)
  }

  function GivenBack(s: State, id: nat, link: Link, at: nat): State {
    Put(s, id, Finished).(
      keys := HandedBack(s.keys, link, at, s.now),
      spent := if Restores(s, link, at) then s.spent - {link.jti} else s.spent,
      returned := if Restores(s, link, at) then s.returned[link.jti := Return(at, s.now)] else s.returned)
  }

  function Apply(life: nat, s: State, act: Action): State
    requires Enabled(life, s, act)
  {
    match act
    case Tick(d) => s.(now := s.now + d)
    case Create(link) => s.(links := s.links[link.jti := link])
    case Store(jti, at) => Stored(life, s, s.links[jti], at)
    case Start(id, jti) => Put(s, id, if s.now < s.links[jti].exp then Decoded(s.links[jti]) else Finished)
    case Consume(id) => Consumed(s, id, s.attempts[id].link)
    case Fail(id) => Put(s, id, Repairing(s.attempts[id].link))
    case Write(id) =>
      Put(s, id, Finished).(writes := s.writes[s.attempts[id].link.jti := Writes(s, s.attempts[id].link.jti) + 1])
    case Measure(id) => Put(s, id, Returning(s.attempts[id].link, s.now))
    case GiveBack(id) => GivenBack(s, id, s.attempts[id].link, s.attempts[id].at)
    case Abort(id) => Put(s, id, Finished)
  }

  predicate Initial(s: State) {
    && s.keys == Keys(map[], map[]) && s.links == map[] && s.attempts == map[] && s.writes == map[]
    && s.stored == {} && s.newest == map[] && s.consumed == {} && s.spent == {} && s.returned == map[]
  }

  datatype Run = Run(states: seq<State>, actions: seq<Action>)

  predicate IsRun(life: nat, run: Run) {
    && |run.states| == |run.actions| + 1
    && Initial(run.states[0])
    && (forall i :: 0 <= i < |run.actions| ==>
          Enabled(life, run.states[i], run.actions[i]) &&
          run.states[i + 1] == Apply(life, run.states[i], run.actions[i]))
  }

  // ---------------------------------------------------------------- invariants

  // The attempt has consumed its link and may still use it or hand it back.
  predicate Has(a: Attempt) {
    a.Holding? || a.Repairing? || a.Returning?
  }

  predicate Holds(a: Attempt, jti: string) {
    Has(a) && a.link.jti == jti
  }

  function Holders(s: State, jti: string): set<nat> {
    set id | id in s.attempts && Holds(s.attempts[id], jti)
  }

  // The consume script would answer 1 for this link.
  predicate Usable(s: State, jti: string) {
    jti in s.links && CanConsume(s.keys, s.links[jti].account, jti, s.now)
  }

  function Permits(s: State, jti: string): nat {
    (if Usable(s, jti) then 1 else 0) + |Holders(s, jti)| + Writes(s, jti)
  }

  ghost predicate LinksOk(life: nat, s: State) {
    && (forall j :: j in s.links ==> s.links[j].jti == j && s.links[j].exp <= s.now + life * SECOND)
    && (forall id :: id in s.attempts && !s.attempts[id].Finished? ==>
          s.attempts[id].link.jti in s.links && s.links[s.attempts[id].link.jti] == s.attempts[id].link)
  }

  // An active key and its marker lapse together.
  ghost predicate KeysOk(s: State) {
    forall a :: a in s.keys.active ==>
      var e := s.keys.active[a];
      && e.jti in s.stored && e.jti in s.links && s.links[e.jti].account == a
      && e.jti in s.keys.markers && s.keys.markers[e.jti] == e.deadline
  }

  // The keys of a handed-back link lapse when its last hand-back made them lapse.
  predicate Lapse(link: Link, r: Return, deadline: int) {
    && r.at <= r.ran && Remaining(link, r.at) > 0
    && deadline == link.exp + (r.ran - r.at) - Fraction(link, r.at)
  }

  ghost predicate LapsesOk(s: State) {
    && (forall id :: id in s.attempts && s.attempts[id].Returning? ==> s.attempts[id].at <= s.now)
    && (forall j :: j in s.keys.markers && j in s.consumed ==>
          j in s.links && j in s.returned && Lapse(s.links[j], s.returned[j], s.keys.markers[j]))
  }

  ghost predicate StoredOk(s: State) {
    && (forall j :: j in s.stored ==> j in s.links && s.links[j].account in s.newest)
    && (forall a :: a in s.newest ==>
          s.newest[a] in s.stored && s.newest[a] in s.links && s.links[s.newest[a]].account == a)
    && s.spent <= s.consumed <= s.stored
    && (forall id :: id in s.attempts && Has(s.attempts[id]) ==> s.attempts[id].link.jti in s.consumed)
    && (forall j :: j in s.writes ==> j in s.consumed)
  }

  ghost predicate PermitsOk(s: State) {
    forall j :: j in s.links ==> Permits(s, j) <= 1
  }

  // The link `j` was stored before the newest one of its account.
  predicate Older(s: State, j: string, newest: string) {
    && j in s.stored && j in s.links && newest in s.links && j != newest
    && s.links[j].account == s.links[newest].account
  }

  // While it is not spent, the newest link is the outstanding one until its keys lapse; as long
  // as it was never consumed, that is not before every older link has expired.
  ghost predicate NewestOk(s: State) {
    forall a :: a in s.newest && s.newest[a] !in s.spent ==>
      && Guarding(s, a, s.newest[a])
      && (s.newest[a] !in s.consumed ==> forall j :: Older(s, j, s.newest[a]) ==> Outlives(s, s.newest[a], j))
  }

  predicate Guarding(s: State, a: string, n: string) {
    && n in s.keys.markers
    && (s.now < s.keys.markers[n] ==> Outstanding(s.keys, a, s.now) == Some(n))
  }

  predicate Outlives(s: State, n: string, j: string) {
    j in s.links && n in s.keys.markers && s.links[j].exp <= s.keys.markers[n]
  }

  ghost predicate Inv(life: nat, s: State) {
    LinksOk(life, s) && KeysOk(s) && LapsesOk(s) && StoredOk(s) && PermitsOk(s) && NewestOk(s)
  }

  // ---------------------------------------------------------------- links and keys

  lemma LinksStayOk(life: nat, s: State, act: Action)
    requires LinksOk(life, s) && Enabled(life, s, act)
    ensures LinksOk(life, Apply(life, s, act))
  {
  }

  // Storing, consuming and giving back one link, as changes of one account's keys.
  lemma KeysAfterSet(s: State, s': State, link: Link, deadline: int)
    requires KeysOk(s)
    requires s'.links == s.links && link.jti in s.links && s.links[link.jti] == link
    requires s'.keys == SetBoth(s.keys, link.account, link.jti, deadline)
    requires s.stored <= s'.stored && link.jti in s'.stored
    requires forall a :: a in s.keys.active && s.keys.active[a].jti == link.jti ==> a == link.account
    ensures KeysOk(s')
  {
  }

  lemma KeysAfterConsume(s: State, s': State, link: Link)
    requires KeysOk(s)
    requires s'.links == s.links && link.jti in s.links && s.links[link.jti] == link
    requires s'.keys == ConsumeScript(s.keys, link.account, link.jti, s.now)
    requires s'.stored == s.stored
    ensures KeysOk(s')
  {
  }

  lemma KeysAfterGiveBack(s: State, id: nat, link: Link, at: nat)
    requires KeysOk(s) && link.jti in s.links && s.links[link.jti] == link && link.jti in s.stored
    ensures KeysOk(GivenBack(s, id, link, at))
  {
    var s' := GivenBack(s, id, link, at);
    if Restores(s, link, at) {
      hide KeysOk;
      KeyOwner(s, link);
      KeysAfterSet(s, s', link, s.now + Remaining(link, at) * SECOND);
    }
  }

  lemma KeysStayOk(life: nat, s: State, act: Action)
    requires LinksOk(life, s) && StoredOk(s) && KeysOk(s) && Enabled(life, s, act)
    ensures KeysOk(Apply(life, s, act))
  {
    hide KeysOk, StoredOk, HandedBack, Restores;
    var s' := Apply(life, s, act);
    if act.Store? {
      var link := s.links[act.jti];
      if act.at < link.exp && link.jti != "" {
        KeyOwner(s, link);
        KeysAfterSet(s, s', link, s.now + life * SECOND);
      } else {
        assert s' == s;
      }
    } else if act.Consume? {
      KeysAfterConsume(s, s', s.attempts[act.id].link);
    } else if act.GiveBack? {
      HeldIsConsumed(s, act.id);
      RecordsOk(s);
      KeysAfterGiveBack(s, act.id, s.attempts[act.id].link, s.attempts[act.id].at);
    } else {
      KeysFrame(s, s');
    }
  }

  lemma KeyOwner(s: State, link: Link)
    requires KeysOk(s) && link.jti in s.links && s.links[link.jti] == link
    ensures forall a :: a in s.keys.active && s.keys.active[a].jti == link.jti ==> a == link.account
  {
  }

  lemma KeysFrame(s: State, s': State)
    requires KeysOk(s) && s'.keys == s.keys && s'.stored == s.stored
    requires forall j :: j in s.links ==> j in s'.links && s'.links[j] == s.links[j]
    ensures KeysOk(s')
  {
  }

  lemma LapsesAfterGiveBack(s: State, id: nat, link: Link, at: nat)
    requires LapsesOk(s) && at <= s.now && link.jti in s.links && s.links[link.jti] == link
    ensures LapsesOk(GivenBack(s, id, link, at))
  {
    if Restores(s, link, at) {
      HandBackLapse(s.keys, link, at, s.now);
    }
  }

  lemma LapsesAfterConsume(s: State, id: nat, link: Link)
    requires LapsesOk(s) && KeysOk(s) && link.jti in s.links && s.links[link.jti] == link
    ensures LapsesOk(Consumed(s, id, link))
  {
  }

  lemma LapsesAfterStore(life: nat, s: State, jti: string, at: nat)
    requires LapsesOk(s) && jti in s.links && s.links[jti].jti == jti && jti !in s.consumed
    ensures LapsesOk(Stored(life, s, s.links[jti], at))
  {
  }

  lemma LapsesFrame(s: State, s': State)
    requires LapsesOk(s) && s'.keys == s.keys && s'.consumed == s.consumed && s'.returned == s.returned
    requires s.now <= s'.now
    requires forall j :: j in s.links ==> j in s'.links && s'.links[j] == s.links[j]
    requires forall id :: id in s'.attempts && s'.attempts[id].Returning? ==>
      s'.attempts[id].at == s'.now || (id in s.attempts && s.attempts[id] == s'.attempts[id])
    ensures LapsesOk(s')
  {
  }

  lemma LapsesStayOk(life: nat, s: State, act: Action)
    requires LinksOk(life, s) && StoredOk(s) && KeysOk(s) && LapsesOk(s) && Enabled(life, s, act)
    ensures LapsesOk(Apply(life, s, act))
  {
    hide LinksOk, StoredOk, KeysOk, LapsesOk;
    var s' := Apply(life, s, act);
    if act.Store? {
      OwnLink(life, s, act.jti);
      RecordsOk(s);
      LapsesAfterStore(life, s, act.jti, act.at);
    } else if act.Consume? {
      AttemptLink(life, s, act.id);
      LapsesAfterConsume(s, act.id, s.attempts[act.id].link);
    } else if act.GiveBack? {
      AttemptLink(life, s, act.id);
      MeasuredBefore(s, act.id);
      LapsesAfterGiveBack(s, act.id, s.attempts[act.id].link, s.attempts[act.id].at);
    } else {
      LapsesFrame(s, s');
    }
  }

  lemma MeasuredBefore(s: State, id: nat)
    requires LapsesOk(s)
    ensures id in s.attempts && s.attempts[id].Returning? ==> s.attempts[id].at <= s.now
  {
  }

  lemma StoredStaysOk(life: nat, s: State, act: Action)
    requires LinksOk(life, s) && KeysOk(s) && StoredOk(s) && Enabled(life, s, act)
    ensures StoredOk(Apply(life, s, act))
  {
    hide LinksOk, KeysOk, StoredOk;
    var s' := Apply(life, s, act);
    if act.Create? {
      StoredAfterCreate(s, s', act.link);
    } else if act.Store? {
      OwnLink(life, s, act.jti);
      StoredAfterStore(life, s, act.jti, act.at);
    } else if act.Tick? {
      StoredFrame(s, s');
    } else {
      AttemptLink(life, s, act.id);
      StoredAfterAttempt(s, s', act, life);
    }
  }

  lemma StoredFrame(s: State, s': State)
    requires StoredOk(s) && s' == s.(now := s'.now)
    ensures StoredOk(s')
  {
  }

  lemma StoredAfterCreate(s: State, s': State, link: Link)
    requires StoredOk(s) && link.jti !in s.links && s' == s.(links := s.links[link.jti := link])
    ensures StoredOk(s')
  {
  }

  lemma StoredAfterStore(life: nat, s: State, jti: string, at: nat)
    requires StoredOk(s) && jti in s.links && s.links[jti].jti == jti
    ensures StoredOk(Stored(life, s, s.links[jti], at))
  {
  }

  // An attempt moves to `a`; the records grow by its own link at most.
  lemma StoredAfterMove(s: State, s': State, id: nat, a: Attempt)
    requires StoredOk(s)
    requires s'.links == s.links && s'.newest == s.newest && s'.stored == s.stored
    requires s'.attempts == s.attempts[id := a]
    requires s.consumed <= s'.consumed <= s.stored && s'.spent <= s'.consumed
    requires Has(a) ==> a.link.jti in s'.consumed
    requires forall j :: j in s'.writes ==> j in s'.consumed
    ensures StoredOk(s')
  {
  }

  lemma StoredAfterAttempt(s: State, s': State, act: Action, life: nat)
    requires StoredOk(s) && KeysOk(s) && Enabled(life, s, act) && s' == Apply(life, s, act)
    requires !act.Tick? && !act.Create? && !act.Store?
    requires act.Start? || s.attempts[act.id].Finished? || s.attempts[act.id].link.jti in s.links
    ensures StoredOk(s')
  {
    hide KeysOk, StoredOk;
    if act.Start? || act.Abort? {
      RecordsOk(s);
    } else {
      var link := s.attempts[act.id].link;
      RecordsOk(s);
      HeldIsConsumed(s, act.id);
      if act.Consume? {
        if CanConsume(s.keys, link.account, link.jti, s.now) {
          ActiveIsStored(s, link.account);
        }
      }
    }
    StoredAfterMove(s, s', act.id, s'.attempts[act.id]);
  }

  lemma RecordsOk(s: State)
    requires StoredOk(s)
    ensures s.spent <= s.consumed <= s.stored
    ensures forall j :: j in s.writes ==> j in s.consumed
  {
  }

  lemma HeldIsConsumed(s: State, id: nat)
    requires StoredOk(s)
    ensures id in s.attempts && Has(s.attempts[id]) ==> s.attempts[id].link.jti in s.consumed
  {
  }

  lemma ActiveIsStored(s: State, a: string)
    requires KeysOk(s)
    ensures a in s.keys.active ==> s.keys.active[a].jti in s.stored
  {
  }

  lemma OwnLink(life: nat, s: State, jti: string)
    requires LinksOk(life, s) && jti in s.links
    ensures s.links[jti].jti == jti && s.links[jti].exp <= s.now + life * SECOND
  {
  }

  lemma AttemptLink(life: nat, s: State, id: nat)
    requires LinksOk(life, s)
    ensures id in s.attempts && !s.attempts[id].Finished? ==>
      s.attempts[id].link.jti in s.links && s.links[s.attempts[id].link.jti] == s.attempts[id].link
  {
  }

  // ---------------------------------------------------------------- permits

  lemma HoldersMove(s: State, s': State, id: nat, a: Attempt, jti: string)
    requires s'.attempts == s.attempts[id := a]
    ensures |Holders(s', jti)| + (if id in s.attempts && Holds(s.attempts[id], jti) then 1 else 0)
         == |Holders(s, jti)| + (if Holds(a, jti) then 1 else 0)
  {
    var rest := Holders(s, jti) - {id};
    HoldersSplit(s, id, jti, rest);
    HoldersSplit(s', id, jti, rest);
  }

  lemma HoldersSplit(s: State, id: nat, jti: string, rest: set<nat>)
    requires id in s.attempts || id !in Holders(s, jti)
    requires forall k :: k in rest <==> k in Holders(s, jti) && k != id
    ensures |Holders(s, jti)| == |rest| + (if id in s.attempts && Holds(s.attempts[id], jti) then 1 else 0)
  {
    if id in Holders(s, jti) {
      assert Holders(s, jti) == rest + {id};
    } else {
      assert Holders(s, jti) == rest;
    }
  }

  lemma UnstoredHasNoPermit(life: nat, s: State, jti: string)
    requires LinksOk(life, s) && KeysOk(s) && StoredOk(s) && jti !in s.stored
    ensures Permits(s, jti) == 0
  {
    assert Holders(s, jti) == {};
  }

  lemma PermitAfterNew(life: nat, s: State, act: Action, jti: string)
    requires Enabled(life, s, act) && (act.Create? || act.Store?)
    requires act.Store? ==> s.links[act.jti].jti == act.jti
    requires Permits(s, if act.Create? then act.link.jti else act.jti) == 0 && Permits(s, jti) <= 1
    ensures Permits(Apply(life, s, act), jti) <= 1
  {
    assert Holders(Apply(life, s, act), jti) == Holders(s, jti);
  }

  // Consuming moves the permit from the keys to the attempt.
  lemma PermitAfterConsume(s: State, id: nat, jti: string)
    requires id in s.attempts && s.attempts[id].Decoded?
    requires s.attempts[id].link.jti in s.links && s.links[s.attempts[id].link.jti] == s.attempts[id].link
    requires Permits(s, jti) <= 1
    ensures Permits(Consumed(s, id, s.attempts[id].link), jti) <= 1
  {
    var s' := Consumed(s, id, s.attempts[id].link);
    HoldersMove(s, s', id, s'.attempts[id], jti);
  }

  // Giving back moves it from the attempt to the keys, or drops it.
  lemma PermitAfterGiveBack(s: State, id: nat, jti: string)
    requires id in s.attempts && s.attempts[id].Returning?
    requires s.attempts[id].link.jti in s.links && s.links[s.attempts[id].link.jti] == s.attempts[id].link
    requires Permits(s, jti) <= 1
    ensures Permits(GivenBack(s, id, s.attempts[id].link, s.attempts[id].at), jti) <= 1
  {
    var s' := GivenBack(s, id, s.attempts[id].link, s.attempts[id].at);
    HoldersMove(s, s', id, Finished, jti);
    if jti != s.attempts[id].link.jti {
      assert Usable(s', jti) ==> Usable(s, jti);
    }
  }

  // Every other step leaves the keys alone.
  lemma PermitAfterOther(life: nat, s: State, act: Action, jti: string)
    requires Enabled(life, s, act) && Permits(s, jti) <= 1
    requires act.Tick? || act.Start? || act.Fail? || act.Measure? || act.Write? || act.Abort?
    ensures Permits(Apply(life, s, act), jti) <= 1
  {
    var s' := Apply(life, s, act);
    assert Usable(s', jti) ==> Usable(s, jti);
    if act.Tick? {
      assert Holders(s', jti) == Holders(s, jti);
    } else {
      HoldersMove(s, s', act.id, s'.attempts[act.id], jti);
    }
  }

  lemma PermitStays(life: nat, s: State, act: Action, jti: string)
    requires LinksOk(life, s) && KeysOk(s) && StoredOk(s) && PermitsOk(s) && Enabled(life, s, act)
    requires jti in Apply(life, s, act).links
    ensures Permits(Apply(life, s, act), jti) <= 1
  {
    hide LinksOk, KeysOk, StoredOk, Permits, Usable, CanConsume;
    if act.Create? || act.Store? {
      UnstoredIsNew(life, s, act);
      UnstoredHasNoPermit(life, s, if act.Create? then act.link.jti else act.jti);
      if act.Store? {
        OwnLink(life, s, act.jti);
      }
      PermitAfterNew(life, s, act, jti);
    } else if act.Consume? {
      AttemptLink(life, s, act.id);
      PermitAfterConsume(s, act.id, jti);
    } else if act.GiveBack? {
      AttemptLink(life, s, act.id);
      PermitAfterGiveBack(s, act.id, jti);
    } else {
      PermitAfterOther(life, s, act, jti);
    }
  }

  lemma UnstoredIsNew(life: nat, s: State, act: Action)
    requires StoredOk(s) && Enabled(life, s, act) && (act.Create? || act.Store?)
    ensures (if act.Create? then act.link.jti else act.jti) !in s.stored
  {
  }

  lemma PermitsStayOk(life: nat, s: State, act: Action)
    requires LinksOk(life, s) && KeysOk(s) && StoredOk(s) && PermitsOk(s) && Enabled(life, s, act)
    ensures PermitsOk(Apply(life, s, act))
  {
    forall j | j in Apply(life, s, act).links ensures Permits(Apply(life, s, act), j) <= 1 {
      PermitStays(life, s, act, j);
    }
  }
}

/**
 Connection leases of the session-event stream: two sorted sets per lease, one for the account
 and one for the client IP, changed by three atomic scripts.

 Scores are whole seconds read from a worker's clock before the script runs; the clock and the
 key deadlines count milliseconds.
 */
module EventLeases {
  import opened Common

  const LEASE: nat := 3 * 20
  const MILLIS: nat := 1000

  datatype Config = Config(accountLimit: nat, ipLimit: nat, grace: nat)

  // A sorted set, members to scores, and the deadline of its key.
  datatype Zset = Zset(members: map<string, int>, deadline: int)

  type Sets = map<string, Zset>

  datatype Leases = Leases(accounts: Sets, ips: Sets)

  // What a command sees under a key at this moment.
  function Members(m: Sets, key: string, now: nat): map<string, int> {
    if key in m && now < m[key].deadline then m[key].members else map[]
  }

  function Write(m: Sets, key: string, z: Zset): Sets {
    if z.members == map[] then m - {key} else m[key := z]
  }

  // ZREMRANGEBYSCORE key -inf at.
  function Pruned(m: Sets, key: string, now: nat, at: nat): Sets {
    var live := Members(m, key, now);
    if live == map[] then m - {key}
    else Write(m, key, Zset(map t | t in live && live[t] > at :: live[t], m[key].deadline))
  }

  // ZADD key score token; EXPIRE key ttl.
  function Joined(m: Sets, key: string, now: nat, token: string, score: int, ttl: nat): Sets {
    m[key := Zset(Members(m, key, now)[token := score], now + ttl * MILLIS)]
  }

  // ZADD key XX score token; EXPIRE key ttl.
  function Renewed(m: Sets, key: string, now: nat, token: string, score: int, ttl: nat): Sets {
    var live := Members(m, key, now);
    if live == map[] then m - {key}
    else m[key := Zset(if token in live then live[token := score] else live, now + ttl * MILLIS)]
  }

  // ZREM key token; DEL key when that empties it.
  function Left(m: Sets, key: string, now: nat, token: string): Sets {
    var live := Members(m, key, now);
    if live == map[] then m - {key} else Write(m, key, Zset(live - {token}, m[key].deadline))
  }

  function Ttl(cf: Config): nat {
    LEASE + cf.grace
  }

  // ---------------------------------------------------------------- the scripts

  predicate Admits(cf: Config, l: Leases, email: string, ip: string, now: nat, at: nat) {
    && |Members(Pruned(l.accounts, email, now, at), email, now)| < cf.accountLimit
    && |Members(Pruned(l.ips, ip, now, at), ip, now)| < cf.ipLimit
  }

  function Acquired(cf: Config, l: Leases, email: string, ip: string, token: string, now: nat, at: nat): Leases {
    var a := Pruned(l.accounts, email, now, at);
    var i := Pruned(l.ips, ip, now, at);
    if Admits(cf, l, email, ip, now, at) then
      Leases(Joined(a, email, now, token, at + LEASE, Ttl(cf)), Joined(i, ip, now, token, at + LEASE, Ttl(cf)))
    else Leases(a, i)
  }

  function Refreshed(cf: Config, l: Leases, email: string, ip: string, token: string, now: nat, at: nat): Leases {
    Leases(Renewed(l.accounts, email, now, token, at + LEASE, Ttl(cf)),
           Renewed(l.ips, ip, now, token, at + LEASE, Ttl(cf)))
  }

  function Released(l: Leases, email: string, ip: string, token: string, now: nat): Leases {
    Leases(Left(l.accounts, email, now, token), Left(l.ips, ip, now, token))
  }

  // The members that still count at `at`: the key is there, and their score is later.
  function Unlapsed(m: Sets, key: string, now: nat, at: nat): set<string> {
    if key in m && now < m[key].deadline then set t | t in m[key].members && at < m[key].members[t] else {}
  }

  lemma PrunedCount(m: Sets, key: string, now: nat, at: nat)
    ensures Members(Pruned(m, key, now, at), key, now).Keys == Unlapsed(m, key, now, at)
    ensures |Members(Pruned(m, key, now, at), key, now)| == |Unlapsed(m, key, now, at)|
  {
    assert Members(Pruned(m, key, now, at), key, now).Keys == Unlapsed(m, key, now, at);
  }

  class LeaseService {
    const cf: Config
    var leases: Leases

    constructor (cf: Config)
      ensures this.cf == cf && leases == Leases(map[], map[])
    {
      this.cf := cf;
      leases := Leases(map[], map[]);
    }

    /** A lease is granted exactly when both sets hold fewer unlapsed leases than their limit. */
    method Acquire(email: string, ip: string, token: string, now: nat, at: nat) returns (admitted: bool)
      modifies this`leases
      ensures leases == Acquired(cf, old(leases), email, ip, token, now, at)
      ensures admitted <==>
        && |Unlapsed(old(leases).accounts, email, now, at)| < cf.accountLimit
        && |Unlapsed(old(leases).ips, ip, now, at)| < cf.ipLimit
      ensures admitted ==>
        && token in Members(leases.accounts, email, now) && Members(leases.accounts, email, now)[token] == at + 60
        && token in Members(leases.ips, ip, now) && Members(leases.ips, ip, now)[token] == at + 60
    {
      PrunedCount(leases.accounts, email, now, at);
      PrunedCount(leases.ips, ip, now, at);
      hide Pruned, Unlapsed;
      leases := Leases(Pruned(leases.accounts, email, now, at), Pruned(leases.ips, ip, now, at));
      if |Members(leases.accounts, email, now)| >= cf.accountLimit {
        return false;
      }
      if |Members(leases.ips, ip, now)| >= cf.ipLimit {
        return false;
      }
      var expires := at + LEASE;
      leases := leases.(accounts := Joined(leases.accounts, email, now, token, expires, Ttl(cf)));
      leases := leases.(ips := Joined(leases.ips, ip, now, token, expires, Ttl(cf)));
      return true;
    }

    method Refresh(email: string, ip: string, token: string, now: nat, at: nat)
      modifies this`leases
      ensures leases == Refreshed(cf, old(leases), email, ip, token, now, at)
      ensures token in Members(leases.accounts, email, now) <==> token in Members(old(leases).accounts, email, now)
      ensures token in Members(leases.ips, ip, now) <==> token in Members(old(leases).ips, ip, now)
      ensures token in Members(leases.accounts, email, now) ==>
        Members(leases.accounts, email, now)[token] == at + 60 &&
        leases.accounts[email].deadline == now + (60 + cf.grace) * 1000
      ensures token in Members(leases.ips, ip, now) ==>
        Members(leases.ips, ip, now)[token] == at + 60 && leases.ips[ip].deadline == now + (60 + cf.grace) * 1000
    {
      leases := leases.(accounts := Renewed(leases.accounts, email, now, token, at + LEASE, Ttl(cf)));
      leases := leases.(ips := Renewed(leases.ips, ip, now, token, at + LEASE, Ttl(cf)));
    }

    method Release(email: string, ip: string, token: string, now: nat)
      modifies this`leases
      ensures leases == Released(old(leases), email, ip, token, now)
      ensures token !in Members(leases.accounts, email, now) && token !in Members(leases.ips, ip, now)
    {
      leases := leases.(accounts := Left(leases.accounts, email, now, token));
      leases := leases.(ips := Left(leases.ips, ip, now, token));
    }
  }
}

/** Runs of the lease scripts, over any accounts, client IPs and connections. */
module LeaseRuns {
  import opened Common
  import opened EventLeases

  // `used` holds the tokens ever passed to the acquire script.
  datatype State = State(now: nat, leases: Leases, used: set<string>)

  datatype Action =
    | Tick(millis: nat)
    | Acquire(email: string, ip: string, token: string, at: nat)
    | Refresh(email: string, ip: string, token: string, at: nat)
    | Release(email: string, ip: string, token: string)

  // A worker reads its clock before the script runs, possibly long before.
  predicate Enabled(s: State, act: Action) {
    match act
    case Acquire(_, _, token, at) => token !in s.used && at * MILLIS <= s.now
    case Refresh(_, _, _, at) => at * MILLIS <= s.now
    case _ => true
  }

  function Apply(cf: Config, s: State, act: Action): State {
    match act
    case Tick(d) => s.(now := s.now + d)
    case Acquire(email, ip, token, at) =>
      s.(leases := Acquired(cf, s.leases, email, ip, token, s.now, at), used := s.used + {token})
    case Refresh(email, ip, token, at) => s.(leases := Refreshed(cf, s.leases, email, ip, token, s.now, at))
    case Release(email, ip, token) => s.(leases := Released(s.leases, email, ip, token, s.now))
  }

  datatype Run = Run(states: seq<State>, actions: seq<Action>)

  predicate IsRun(cf: Config, run: Run) {
    && |run.states| == |run.actions| + 1
    && run.states[0].leases == Leases(map[], map[]) && run.states[0].used == {}
    && (forall i :: 0 <= i < |run.actions| ==>
          Enabled(run.states[i], run.actions[i]) &&
          run.states[i + 1] == Apply(cf, run.states[i], run.actions[i]))
  }

  // ---------------------------------------------------------------- one sorted set

  // No set is over its limit, and no key lapses before the grace after its last score.
  ghost predicate SetsOk(cf: Config, m: Sets, limit: nat, used: set<string>, now: nat) {
    forall k :: k in m ==>
      && |m[k].members| <= limit
      && m[k].members.Keys <= used
      && m[k].deadline <= now + Ttl(cf) * MILLIS
      && (forall t :: t in m[k].members ==> (m[k].members[t] + cf.grace) * MILLIS <= m[k].deadline)
  }

  ghost predicate Inv(cf: Config, s: State) {
    && SetsOk(cf, s.leases.accounts, cf.accountLimit, s.used, s.now)
    && SetsOk(cf, s.leases.ips, cf.ipLimit, s.used, s.now)
  }

  lemma {:induction false} SubmapCount<K, V>(small: map<K, V>, big: map<K, V>)
    requires small.Keys <= big.Keys
    ensures |small| <= |big|
    decreases |small|
  {
    if small != map[] {
      var k :| k in small;
      assert (small - {k}).Keys == small.Keys - {k} && (big - {k}).Keys == big.Keys - {k};
      assert |small - {k}| == |small| - 1 && |big - {k}| == |big| - 1;
      SubmapCount(small - {k}, big - {k});
    }
  }

  lemma PruneKeeps(cf: Config, m: Sets, limit: nat, used: set<string>, key: string, now: nat, at: nat)
    requires SetsOk(cf, m, limit, used, now)
    ensures SetsOk(cf, Pruned(m, key, now, at), limit, used, now)
  {
    var live := Members(m, key, now);
    SubmapCount(map t | t in live && live[t] > at :: live[t], live);
  }

  lemma JoinKeeps(cf: Config, m: Sets, limit: nat, used: set<string>, key: string, now: nat, token: string, at: nat)
    requires SetsOk(cf, m, limit, used, now) && |Members(m, key, now)| < limit && at * MILLIS <= now
    ensures SetsOk(cf, Joined(m, key, now, token, at + LEASE, Ttl(cf)), limit, used + {token}, now)
  {
  }

  lemma RenewKeeps(cf: Config, m: Sets, limit: nat, used: set<string>, key: string, now: nat, token: string, at: nat)
    requires SetsOk(cf, m, limit, used, now) && at * MILLIS <= now
    ensures SetsOk(cf, Renewed(m, key, now, token, at + LEASE, Ttl(cf)), limit, used, now)
  {
    var live := Members(m, key, now);
    if token in live {
      assert live[token := at + LEASE].Keys == live.Keys;
    }
  }

  lemma LeaveKeeps(cf: Config, m: Sets, limit: nat, used: set<string>, key: string, now: nat, token: string)
    requires SetsOk(cf, m, limit, used, now)
    ensures SetsOk(cf, Left(m, key, now, token), limit, used, now)
  {
    var live := Members(m, key, now);
    SubmapCount(live - {token}, live);
  }

  lemma MoreUsed(cf: Config, m: Sets, limit: nat, used: set<string>, now: nat, used': set<string>, now': nat)
    requires SetsOk(cf, m, limit, used, now) && used <= used' && now <= now'
    ensures SetsOk(cf, m, limit, used', now')
  {
  }

  lemma InvStays(cf: Config, s: State, act: Action)
    requires Inv(cf, s) && Enabled(s, act)
    ensures Inv(cf, Apply(cf, s, act))
  {
    hide SetsOk, Pruned, Joined, Renewed, Left, Members;
    var l := s.leases;
    match act
    case Tick(d) =>
      MoreUsed(cf, l.accounts, cf.accountLimit, s.used, s.now, s.used, s.now + d);
      MoreUsed(cf, l.ips, cf.ipLimit, s.used, s.now, s.used, s.now + d);
    case Acquire(email, ip, token, at) =>
      var a, i := Pruned(l.accounts, email, s.now, at), Pruned(l.ips, ip, s.now, at);
      PruneKeeps(cf, l.accounts, cf.accountLimit, s.used, email, s.now, at);
      PruneKeeps(cf, l.ips, cf.ipLimit, s.used, ip, s.now, at);
      if Admits(cf, l, email, ip, s.now, at) {
        JoinKeeps(cf, a, cf.accountLimit, s.used, email, s.now, token, at);
        JoinKeeps(cf, i, cf.ipLimit, s.used, ip, s.now, token, at);
      } else {
        MoreUsed(cf, a, cf.accountLimit, s.used, s.now, s.used + {token}, s.now);
        MoreUsed(cf, i, cf.ipLimit, s.used, s.now, s.used + {token}, s.now);
      }
    case Refresh(email, ip, token, at) =>
      RenewKeeps(cf, l.accounts, cf.accountLimit, s.used, email, s.now, token, at);
      RenewKeeps(cf, l.ips, cf.ipLimit, s.used, ip, s.now, token, at);
    case Release(email, ip, token) =>
      LeaveKeeps(cf, l.accounts, cf.accountLimit, s.used, email, s.now, token);
      LeaveKeeps(cf, l.ips, cf.ipLimit, s.used, ip, s.now, token);
  }

  lemma {:induction false} Reached(cf: Config, run: Run, i: nat)
    requires IsRun(cf, run) && i < |run.states|
    ensures Inv(cf, run.states[i])
  {
    hide Apply, Enabled;
    if i > 0 {
      Reached(cf, run, i - 1);
      InvStays(cf, run.states[i - 1], run.actions[i - 1]);
    }
  }

  // ---------------------------------------------------------------- theorems

  /** In every reachable state, each account and each IP holds at most its limit of leases,
      lapsed ones that were renewed late included. */
  lemma CapsHold(cf: Config, run: Run, i: nat, email: string, ip: string)
    requires IsRun(cf, run) && i < |run.states|
    ensures var s := run.states[i];
      && |Members(s.leases.accounts, email, s.now)| <= cf.accountLimit
      && |Members(s.leases.ips, ip, s.now)| <= cf.ipLimit
  {
    Reached(cf, run, i);
  }

  predicate Has(m: Sets, key: string, now: nat, token: string, score: int) {
    token in Members(m, key, now) && Members(m, key, now)[token] == score
  }

  // One step on one of the two sets, as seen by a lease in it whose score has not lapsed.
  lemma PruneSpares(m: Sets, key: string, now: nat, at: nat, k: string, token: string, score: int)
    requires Has(m, k, now, token, score) && at * MILLIS <= now < score * MILLIS
    ensures Has(Pruned(m, key, now, at), k, now, token, score)
  {
  }

  lemma JoinSpares(m: Sets, key: string, now: nat, other: string, s: int, ttl: nat, k: string, token: string,
        score: int)
    requires Has(m, k, now, token, score) && other != token && ttl > 0
    ensures Has(Joined(m, key, now, other, s, ttl), k, now, token, score)
  {
  }

  lemma RenewSpares(m: Sets, key: string, now: nat, other: string, s: int, ttl: nat, k: string, token: string,
        score: int)
    requires Has(m, k, now, token, score) && ttl > 0
    ensures Has(Renewed(m, key, now, other, s, ttl), k, now, token, if other == token && key == k then s else score)
  {
  }

  lemma LeaveSpares(m: Sets, key: string, now: nat, other: string, k: string, token: string, score: int)
    requires Has(m, k, now, token, score) && other != token
    ensures Has(Left(m, key, now, other), k, now, token, score)
  {
  }

  // The stream that owns the lease is the only one to renew it, and has not released it.
  predicate Owned(act: Action, email: string, ip: string, token: string) {
    && (act.Refresh? && act.token == token ==> act.email == email && act.ip == ip)
    && !(act.Release? && act.token == token)
  }

  // The token is in neither set, whether or not their keys are still there.
  predicate Outside(s: State, email: string, ip: string, token: string) {
    Lacks(s.leases.accounts, email, token) && Lacks(s.leases.ips, ip, token)
  }

  predicate Lacks(m: Sets, key: string, token: string) {
    key in m ==> token !in m[key].members
  }

  lemma PruneKeepsOut(m: Sets, key: string, now: nat, at: nat, k: string, token: string)
    requires Lacks(m, k, token)
    ensures Lacks(Pruned(m, key, now, at), k, token)
  {
  }

  lemma JoinKeepsOut(m: Sets, key: string, now: nat, other: string, s: int, ttl: nat, k: string, token: string)
    requires Lacks(m, k, token) && other != token
    ensures Lacks(Joined(m, key, now, other, s, ttl), k, token)
  {
  }

  lemma RenewKeepsOut(m: Sets, key: string, now: nat, other: string, s: int, ttl: nat, k: string, token: string)
    requires Lacks(m, k, token)
    ensures Lacks(Renewed(m, key, now, other, s, ttl), k, token)
  {
  }

  lemma LeaveKeepsOut(m: Sets, key: string, now: nat, other: string, k: string, token: string)
    requires Lacks(m, k, token)
    ensures Lacks(Left(m, key, now, other), k, token)
  {
  }

  lemma StepKeepsOut(cf: Config, s: State, act: Action, email: string, ip: string, token: string)
    requires Enabled(s, act) && token in s.used && Outside(s, email, ip, token)
    ensures var s' := Apply(cf, s, act); token in s'.used && Outside(s', email, ip, token)
  {
    hide Pruned, Joined, Renewed, Left, Admits, Lacks;
    var l, now := s.leases, s.now;
    match act
    case Tick(_) =>
    case Acquire(e, i, t, at) =>
      PruneKeepsOut(l.accounts, e, now, at, email, token);
      PruneKeepsOut(l.ips, i, now, at, ip, token);
      JoinKeepsOut(Pruned(l.accounts, e, now, at), e, now, t, at + LEASE, Ttl(cf), email, token);
      JoinKeepsOut(Pruned(l.ips, i, now, at), i, now, t, at + LEASE, Ttl(cf), ip, token);
    case Refresh(e, i, t, at) =>
      RenewKeepsOut(l.accounts, e, now, t, at + LEASE, Ttl(cf), email, token);
      RenewKeepsOut(l.ips, i, now, t, at + LEASE, Ttl(cf), ip, token);
    case Release(e, i, t) =>
      LeaveKeepsOut(l.accounts, e, now, t, email, token);
      LeaveKeepsOut(l.ips, i, now, t, ip, token);
  }

  /** A released lease never counts again: from its release on the token is in neither set,
      whatever refreshes of it are still under way. */
  lemma {:induction false} ReleasedStaysOut(
    cf: Config, run: Run, i: nat, k: nat, email: string, ip: string, token: string)
    requires IsRun(cf, run) && i < k <= |run.actions|
    requires run.actions[i] == Release(email, ip, token) && token in run.states[i].used
    ensures var s := run.states[k];
      && token in s.used && Outside(s, email, ip, token)
      && token !in Members(s.leases.accounts, email, s.now) && token !in Members(s.leases.ips, ip, s.now)
    decreases k
  {
    hide Enabled, Apply, Outside;
    if k == i + 1 {
      ReleaseTakesOut(cf, run.states[i], email, ip, token);
    } else {
      ReleasedStaysOut(cf, run, i, k - 1, email, ip, token);
      StepKeepsOut(cf, run.states[k - 1], run.actions[k - 1], email, ip, token);
    }
    OutsideBoth(run.states[k], email, ip, token);
  }

  lemma ReleaseTakesOut(cf: Config, s: State, email: string, ip: string, token: string)
    requires token in s.used
    ensures var s' := Apply(cf, s, Release(email, ip, token)); token in s'.used && Outside(s', email, ip, token)
  {
  }

  lemma OutsideBoth(s: State, email: string, ip: string, token: string)
    requires Outside(s, email, ip, token)
    ensures token !in Members(s.leases.accounts, email, s.now) && token !in Members(s.leases.ips, ip, s.now)
  {
  }

  // The moment to which the lease was last extended.
  function Expiry(act: Action, token: string, before: int): int {
    if act.Refresh? && act.token == token then act.at + LEASE else before
  }

  predicate HasBoth(s: State, email: string, ip: string, token: string, score: int) {
    Has(s.leases.accounts, email, s.now, token, score) && Has(s.leases.ips, ip, s.now, token, score)
  }

  lemma TickKeepsLease(s: State, d: nat, m: Sets, cf: Config, limit: nat, key: string, token: string, score: int)
    requires SetsOk(cf, m, limit, s.used, s.now) && Has(m, key, s.now, token, score)
    requires s.now + d < score * MILLIS
    ensures Has(m, key, s.now + d, token, score)
  {
    assert (m[key].members[token] + cf.grace) * MILLIS <= m[key].deadline;
  }

  // Acquire, on one of the two sets; `joins` says whether the other lease was admitted.
  lemma AcquireKeepsLease(cf: Config, m: Sets, now: nat, e: string, t: string, at: nat, joins: bool, key: string,
                          token: string, score: int)
    requires Has(m, key, now, token, score) && at * MILLIS <= now < score * MILLIS && t != token
    ensures var p := Pruned(m, e, now, at);
      Has(if joins then Joined(p, e, now, t, at + LEASE, Ttl(cf)) else p, key, now, token, score)
  {
    hide Has, Pruned, Joined;
    PruneSpares(m, e, now, at, key, token, score);
    JoinSpares(Pruned(m, e, now, at), e, now, t, at + LEASE, Ttl(cf), key, token, score);
  }

  lemma StepKeepsLease(cf: Config, s: State, act: Action, email: string, ip: string, token: string, score: int)
    requires Inv(cf, s) && Enabled(s, act) && Owned(act, email, ip, token)
    requires HasBoth(s, email, ip, token, score) && s.now < score * MILLIS
    requires act.Tick? ==> s.now + act.millis < score * MILLIS
    ensures HasBoth(Apply(cf, s, act), email, ip, token, Expiry(act, token, score))
  {
    hide Pruned, Joined, Renewed, Left, Admits, Has, SetsOk;
    var l, now := s.leases, s.now;
    if act.Tick? {
      TickKeepsLease(s, act.millis, l.accounts, cf, cf.accountLimit, email, token, score);
      TickKeepsLease(s, act.millis, l.ips, cf, cf.ipLimit, ip, token, score);
    } else if act.Acquire? {
      IsUsed(cf, s, email, ip, token, score);
      var joins := Admits(cf, l, act.email, act.ip, now, act.at);
      AcquireKeepsLease(cf, l.accounts, now, act.email, act.token, act.at, joins, email, token, score);
      AcquireKeepsLease(cf, l.ips, now, act.ip, act.token, act.at, joins, ip, token, score);
    } else if act.Refresh? {
      RenewSpares(l.accounts, act.email, now, act.token, act.at + LEASE, Ttl(cf), email, token, score);
      RenewSpares(l.ips, act.ip, now, act.token, act.at + LEASE, Ttl(cf), ip, token, score);
    } else {
      LeaveSpares(l.accounts, act.email, now, act.token, email, token, score);
      LeaveSpares(l.ips, act.ip, now, act.token, ip, token, score);
    }
  }

  lemma IsUsed(cf: Config, s: State, email: string, ip: string, token: string, score: int)
    requires Inv(cf, s) && HasBoth(s, email, ip, token, score)
    ensures token in s.used
  {
  }

  // The moment the lease granted by action i runs to in state k.
  function RunsTo(run: Run, i: nat, k: nat, token: string): int
    requires i < k <= |run.actions| && run.actions[i].Acquire?
  {
    if k == i + 1 then run.actions[i].at + LEASE else Expiry(run.actions[k - 1], token, RunsTo(run, i, k - 1, token))
  }

  /** A lease that is renewed before it lapses stays a member of both its sets, with the score
      of its last renewal, from admission until release: neither pruning nor the expiry of a
      whole key ever takes it. */
  lemma {:induction false} RenewedLeaseStays(cf: Config, run: Run, i: nat, k: nat, email: string, ip: string,
        token: string)
    requires IsRun(cf, run) && i < k <= |run.actions|
    requires run.actions[i].Acquire? && run.actions[i].email == email && run.actions[i].ip == ip
    requires run.actions[i].token == token
    requires Admits(cf, run.states[i].leases, email, ip, run.states[i].now, run.actions[i].at)
    requires forall j :: i < j < k ==> Owned(run.actions[j], email, ip, token)
    requires forall j :: i < j <= k ==> run.states[j].now < RunsTo(run, i, j, token) * MILLIS
    ensures HasBoth(run.states[k], email, ip, token, RunsTo(run, i, k, token))
    decreases k
  {
    hide HasBoth, Inv, Enabled, Apply, Admits, Owned, Expiry;
    if k == i + 1 {
      AdmittedHasBoth(cf, run.states[i], run.actions[i]);
    } else {
      RenewedLeaseStays(cf, run, i, k - 1, email, ip, token);
      Reached(cf, run, k - 1);
      StepInTime(cf, run, i, k, token);
      assert Owned(run.actions[k - 1], email, ip, token);
      StepKeepsLease(cf, run.states[k - 1], run.actions[k - 1], email, ip, token, RunsTo(run, i, k - 1, token));
    }
  }

  lemma AdmittedHasBoth(cf: Config, s: State, act: Action)
    requires act.Acquire? && Admits(cf, s.leases, act.email, act.ip, s.now, act.at)
    ensures HasBoth(Apply(cf, s, act), act.email, act.ip, act.token, act.at + LEASE)
  {
    hide Pruned;
  }

  lemma StepInTime(cf: Config, run: Run, i: nat, k: nat, token: string)
    requires IsRun(cf, run) && i + 1 < k <= |run.actions| && run.actions[i].Acquire?
    requires forall j :: i < j <= k ==> run.states[j].now < RunsTo(run, i, j, token) * MILLIS
    ensures run.states[k - 1].now < RunsTo(run, i, k - 1, token) * MILLIS
    ensures var act := run.actions[k - 1];
      act.Tick? ==> run.states[k - 1].now + act.millis < RunsTo(run, i, k - 1, token) * MILLIS
  {
    assert run.states[k] == Apply(cf, run.states[k - 1], run.actions[k - 1]);
    assert run.states[k].now < RunsTo(run, i, k, token) * MILLIS;
  }
}

/**
 Password-reset links: one outstanding link per account, used at most once, and handed back
 when the attempt that used it failed in a way the user can repair.

 Two Valkey keys carry a link: the account's active key names the newest link, and a marker
 key says that this link has not been used. Three atomic scripts work on them.
 */
module ResetLinks {
  import opened Common

  // The clock counts microseconds; key lifetimes are whole seconds.
  const SECOND: nat := 1_000_000

  datatype Entry = Entry(jti: string, deadline: int)

  // Active keys by account, marker deadlines by link.
  datatype Keys = Keys(active: map<string, Entry>, markers: map<string, int>)

  // A signed reset token.
  datatype Link = Link(jti: string, account: string, exp: int)

  // The link that GET on the account's active key returns. A key is gone from its deadline on.
  function Outstanding(k: Keys, account: string, now: nat): Option<string> {
    if account in k.active && now < k.active[account].deadline then Some(k.active[account].jti) else None
  }

  predicate Marked(k: Keys, jti: string, now: nat) {
    jti in k.markers && now < k.markers[jti]
  }

  // Whether presenting this link would be let through.
  predicate Redeemable(k: Keys, link: Link, now: nat) {
    now < link.exp && Outstanding(k, link.account, now) == Some(link.jti) && Marked(k, link.jti, now)
  }

  // ---------------------------------------------------------------- the scripts

  function SetBoth(k: Keys, account: string, jti: string, deadline: int): Keys {
    Keys(k.active[account := Entry(jti, deadline)], k.markers[jti := deadline])
  }

  function StoreScript(k: Keys, account: string, jti: string, now: nat, ttl: nat): Keys {
    SetBoth(k, account, jti, now + ttl * SECOND)
  }

  predicate CanConsume(k: Keys, account: string, jti: string, now: nat) {
    Outstanding(k, account, now) == Some(jti) && Marked(k, jti, now)
  }

  function ConsumeScript(k: Keys, account: string, jti: string, now: nat): Keys {
    if CanConsume(k, account, jti, now) then Keys(k.active - {account}, k.markers - {jti}) else k
  }

  predicate CanRestore(k: Keys, account: string, jti: string, now: nat) {
    Outstanding(k, account, now) == None || Outstanding(k, account, now) == Some(jti)
  }

  function RestoreScript(k: Keys, account: string, jti: string, now: nat, ttl: nat): Keys {
    if CanRestore(k, account, jti, now) then SetBoth(k, account, jti, now + ttl * SECOND) else k
  }

  // Whole seconds of life the token has left, as the code computes them.
  function Remaining(link: Link, now: nat): int {
    if link.exp >= now then (link.exp - now) / SECOND else -((now - link.exp) / SECOND)
  }

  // _restore_token: the life is measured at `at`, and the script runs at `now`.
  function HandedBack(k: Keys, link: Link, at: nat, now: nat): Keys {
    if Remaining(link, at) > 0 then RestoreScript(k, link.account, link.jti, now, Remaining(link, at)) else k
  }

  // The part of a second that measuring in whole seconds drops.
  function Fraction(link: Link, at: nat): nat {
    (link.exp - at) % SECOND
  }

  /** When the keys of a handed-back link lapse: the time the script took to run after its
      token's expiry, less the fraction of a second that was dropped. So they stay within the
      token's life exactly when the script ran within that fraction. */
  lemma HandBackLapse(k: Keys, link: Link, at: nat, now: nat)
    requires at <= now && Remaining(link, at) > 0 && CanRestore(k, link.account, link.jti, now)
    ensures var k' := HandedBack(k, link, at, now);
      && k'.active[link.account] == Entry(link.jti, link.exp + (now - at) - Fraction(link, at))
      && k'.markers[link.jti] == k'.active[link.account].deadline
      && (k'.active[link.account].deadline <= link.exp <==> now - at <= Fraction(link, at))
      && link.exp - SECOND < k'.active[link.account].deadline <= link.exp + (now - at)
  {
    assert Remaining(link, at) * SECOND + Fraction(link, at) == link.exp - at;
  }

  /** Exactly when a hand-back makes a link redeemable again. */
  lemma HandBackIff(k: Keys, link: Link, at: nat, now: nat)
    requires !Redeemable(k, link, now)
    ensures Redeemable(HandedBack(k, link, at, now), link, now) <==>
              Remaining(link, at) > 0 && now < link.exp && CanRestore(k, link.account, link.jti, now)
  {
    if Remaining(link, at) > 0 && CanRestore(k, link.account, link.jti, now) {
      assert now + Remaining(link, at) * SECOND > now;
    }
  }

  lemma NotOutstanding(k: Keys, link: Link, now: nat)
    requires Outstanding(k, link.account, now) != Some(link.jti)
    ensures !Redeemable(k, link, now)
  {
  }

  // ---------------------------------------------------------------- one attempt, start to end

  // What the steps of one attempt run into after the link has been consumed.
  datatype Trial = Trial(strong: bool, user: bool, same: bool, overload: bool, updated: bool, bump: bool, crash: Crash)

  // When the steps of one attempt run.
  datatype Clock = Clock(decode: nat, consume: nat, measure: nat, restore: nat)

  predicate Ordered(c: Clock) {
    c.decode <= c.consume <= c.measure <= c.restore
  }

  // An unexpected error: none, before the password is committed, or after it.
  datatype Crash = Clean | Early | Late

  datatype Reset =
    | Failed                       // answered "invalid link", or a validation error
    | Overloaded                   // 503, the link handed back
    | Succeeded(revoked: bool)

  predicate Repairable(t: Trial) {
    !t.crash.Early? && (!t.strong || !t.user || t.overload || t.same || !t.updated)
  }

  function Plus(writes: map<string, nat>, jti: string): map<string, nat> {
    writes[jti := (if jti in writes then writes[jti] else 0) + 1]
  }

  class ResetService {
    var keys: Keys
    var writes: map<string, nat>   // password writes caused by each link

    constructor ()
      ensures keys == Keys(map[], map[]) && writes == map[]
    {
      keys, writes := Keys(map[], map[]), map[];
    }

    method Consume(account: string, jti: string, now: nat) returns (ok: bool)
      modifies this`keys
      ensures ok == CanConsume(old(keys), account, jti, now)
      ensures keys == ConsumeScript(old(keys), account, jti, now)
    {
      if !(account in keys.active && now < keys.active[account].deadline && keys.active[account].jti == jti) {
        return false;
      }
      if !(jti in keys.markers && now < keys.markers[jti]) {
        return false;
      }
      keys := Keys(keys.active - {account}, keys.markers - {jti});
      return true;
    }

    method HandBack(link: Link, at: nat, now: nat)
      modifies this`keys
      ensures keys == HandedBack(old(keys), link, at, now)
      ensures at <= now && Outstanding(old(keys), link.account, now) == None && Remaining(link, at) > 0 ==>
        && Outstanding(keys, link.account, now) == Some(link.jti)
        && (keys.active[link.account].deadline <= link.exp <==> now - at <= Fraction(link, at))
    {
      if at <= now && Remaining(link, at) > 0 && Outstanding(keys, link.account, now) == None {
        HandBackLapse(keys, link, at, now);
      }
      var remaining := Remaining(link, at);
      if remaining > 0 {
        var live := ActiveLive(link.account, now);
        if live && keys.active[link.account].jti != link.jti {
          return;
        }
        keys := SetBoth(keys, link.account, link.jti, now + remaining * SECOND);
        assert now + remaining * SECOND > now;
      }
    }

    predicate ActiveLive(account: string, now: nat)
      reads this`keys
      ensures ActiveLive(account, now) <==> Outstanding(keys, account, now).Some?
      ensures ActiveLive(account, now) ==> account in keys.active
    {
      account in keys.active && now < keys.active[account].deadline
    }

    // Store the link of a fresh request, whose token was checked at `at`; only a valid one is stored.
    method StoreLink(link: Link, at: nat, now: nat, ttl: nat) returns (ok: bool)
      modifies this`keys
      ensures ok == (at < link.exp && link.jti != "")
      ensures keys == if ok then StoreScript(old(keys), link.account, link.jti, now, ttl) else old(keys)
      ensures ok ==> keys.active[link.account] == Entry(link.jti, now + ttl * 1_000_000)
                     && keys.markers[link.jti] == now + ttl * 1_000_000
      ensures ok && ttl > 0 ==> (Redeemable(keys, link, now) <==> now < link.exp)
      ensures ok ==> forall other: Link :: other.account == link.account && other.jti != link.jti ==>
                !Redeemable(keys, other, now)
    {
      if !(at < link.exp) || link.jti == "" {
        return false;
      }
      keys := SetBoth(keys, link.account, link.jti, now + ttl * SECOND);
      assert ttl > 0 ==> now + ttl * SECOND > now;
      return true;
    }

    /** One reset attempt. The password is written only for a link whose token was valid when it
        was decoded and whose keys were live when it was consumed; the link is then gone, and
        success is reported exactly for a write that no late error followed. After a repairable
        failure the link is redeemable again exactly if a whole second was left when that was
        measured and the token is still valid; any other failure leaves it spent. An overload is
        answered as one exactly when the password was acceptable and the user was found. */
    method ResetPassword(link: Link, c: Clock, t: Trial) returns (r: Reset)
      requires Ordered(c)
      modifies this
      ensures var was := old(keys);
        var won := c.decode < link.exp
          && link.account in was.active && c.consume < was.active[link.account].deadline
          && was.active[link.account].jti == link.jti
          && link.jti in was.markers && c.consume < was.markers[link.jti];
        var repairable := t.crash != Early && (!t.strong || !t.user || t.overload || t.same || !t.updated);
        && (!won ==> keys == was)
        && writes == (if won && t.crash != Early && !repairable
                      then old(writes)[link.jti := (if link.jti in old(writes) then old(writes)[link.jti] else 0) + 1]
                      else old(writes))
        && r == (if !won || t.crash == Early then Failed
                 else if t.strong && t.user && t.overload then Overloaded
                 else if repairable || t.crash == Late then Failed
                 else Succeeded(t.bump))
        && (won && !repairable ==> forall now: nat :: !Redeemable(keys, link, now))
        && (won && repairable ==>
             (Redeemable(keys, link, c.restore) <==> link.exp - c.measure >= 1_000_000 && c.restore < link.exp))
    {
      if !(c.decode < link.exp) {
        return Failed;
      }
      var won := Consume(link.account, link.jti, c.consume);
      if !won {
        return Failed;
      }
      HandBackIff(keys, link, c.measure, c.restore);
      if t.crash.Early? {
        return Failed;
      }
      if !t.strong || !t.user {
        HandBack(link, c.measure, c.restore);
        return Failed;
      }
      if t.overload {
        HandBack(link, c.measure, c.restore);
        return Overloaded;
      }
      if t.same || !t.updated {
        HandBack(link, c.measure, c.restore);
        return Failed;
      }
      writes := Plus(writes, link.jti);
      if t.crash.Late? {
        return Failed;
      }
      return Succeeded(t.bump);
    }
  }
}

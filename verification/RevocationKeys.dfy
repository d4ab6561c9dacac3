/**
 Row identifiers of the revocation table, in both formats.

 A row holds one version counter. A counter belongs to a target: a whole account, or one
 login chain of an account. Rows written before the privacy migration are keyed by the raw
 email; current rows are keyed by a keyed digest of the normalised email.
 */
module RevocationKeys {
  import opened Common

  datatype Target = Account(email: string) | Chain(email: string, chain: string)

  // The two rows that may hold the counter of one target.
  datatype Scope = Scope(key: string, legacy: string)

  // HMAC-SHA256 in hexadecimal under the deployment's secret, and strip-then-casefold.
  datatype Crypto = Crypto(hmac: string -> string, fold: string -> string)

  // Hexadecimal digests hold no colon; distinct messages are taken to have distinct digests.
  ghost predicate Keyed(c: Crypto) {
    && (forall x, y :: c.hmac(x) == c.hmac(y) ==> x == y)
    && (forall x :: ':' !in c.hmac(x))
  }

  // Login chains are named by hexadecimal UUIDs.
  predicate ChainName(chain: string) {
    chain != "" && ':' !in chain
  }

  predicate PlainEmail(email: string) {
    email != "" && ':' !in email
  }

  // ---------------------------------------------------------------- key builders

  function Digest(c: Crypto, namespace: string, value: string): string {
    c.hmac("mystic-auth:token-revocation:v2:" + namespace + ":" + value)
  }

  function AccountVersionKey(c: Crypto, email: string): string {
    "account_ver:v2:" + Digest(c, "email", c.fold(email))
  }

  function ChainVersionKey(c: Crypto, email: string, chain: string): string {
    "chain_ver:v2:" + Digest(c, "email", c.fold(email)) + ":" + chain
  }

  function LegacyAccountVersionKey(email: string): string {
    "account_ver:" + email
  }

  function LegacyChainVersionKey(email: string, chain: string): string {
    "chain_ver:" + email + ":" + chain
  }

  // Index of the last colon, or -1: the split point of str.rpartition(":").
  function LastColon(s: string): (r: int)
    ensures -1 <= r < |s|
    ensures r >= 0 ==> s[r] == ':'
    ensures forall i :: r < i < |s| ==> s[i] != ':'
  {
    if s == "" then -1
    else if s[|s| - 1] == ':' then |s| - 1
    else LastColon(s[..|s| - 1])
  }

  function HmacKeyFromLegacyKey(c: Crypto, key: string): Option<string> {
    if "account_ver:" <= key && !("account_ver:v2:" <= key) then
      var email := key[12..];
      if email != "" then Some(AccountVersionKey(c, email)) else None
    else if "chain_ver:" <= key && !("chain_ver:v2:" <= key) then
      var value := key[10..];
      var i := LastColon(value);
      if i > 0 && value[i + 1..] != "" then
        Some(ChainVersionKey(c, value[..i], value[i + 1..]))
      else
        None
    else
      None
  }

  // The characters before the first colon, as SQL's split_part takes them.
  function UpToColon(s: string): (r: string)
    ensures r <= s && ':' !in r
    ensures |r| < |s| ==> s[|r|] == ':'
  {
    if s == "" || s[0] == ':' then ""
    else [s[0]] + UpToColon(s[1..])
  }

  // The row filter of the migration's SELECT.
  predicate IsLegacyRow(key: string) {
    || ("account_ver:" <= key && UpToColon(key[12..]) != "v2")
    || ("chain_ver:" <= key && UpToColon(key[10..]) != "v2")
  }

  // ---------------------------------------------------------------- string facts

  lemma AppendDropsPrefix(p: string, s: string)
    ensures p <= p + s && (p + s)[|p|..] == s
  {
  }

  lemma PrefixCancels(p: string, q: string, s: string)
    ensures p + q <= p + s <==> q <= s
  {
    assert q == (p + q)[|p|..] && s == (p + s)[|p|..];
    if p + q <= p + s {
      assert q == (p + s)[|p|..|p + q|] == s[..|q|];
    }
  }

  lemma {:induction false} UpToColonIsV2(s: string)
    ensures UpToColon(s) == "v2" <==> s == "v2" || "v2:" <= s
  {
    var r := UpToColon(s);
    assert forall i :: 0 <= i < |r| ==> r[i] == s[i];
    if s == "v2" {
      assert s[0] != ':' && s[1] != ':';
    }
    if "v2:" <= s {
      assert s[0] == 'v' && s[1] == '2' && s[2] == ':';
      assert r == s[..2];
    }
  }

  lemma {:induction false} LastColonOfJoin(e: string, ch: string)
    ensures LastColon(e + ":" + ch) >= |e|
    ensures LastColon(e + ":" + ch) == |e| <==> ':' !in ch
  {
    var s := e + ":" + ch;
    var r := LastColon(s);
    assert s[|e|] == ':';
    assert forall i :: |e| < i < |s| ==> s[i] == ch[i - |e| - 1];
    assert r >= |e|;
    if r > |e| { assert s[r] == ch[r - |e| - 1]; }
    if ':' in ch {
      var k :| 0 <= k < |ch| && ch[k] == ':';
      assert s[|e| + 1 + k] == ':';
    }
  }

  // Colon-free heads make a joined pair unambiguous.
  lemma SplitUnique(a: string, x: string, b: string, y: string)
    requires ':' !in a && ':' !in b
    requires a + ":" + x == b + ":" + y
    ensures a == b && x == y
  {
    var s, t := a + ":" + x, b + ":" + y;
    assert s[|a|] == ':' && t[|b|] == ':';
    assert forall i :: 0 <= i < |a| ==> s[i] == a[i] != ':';
    assert forall i :: 0 <= i < |b| ==> t[i] == b[i] != ':';
    assert a == s[..|a|] == t[..|b|] == b;
    assert x == s[|a| + 1..] == t[|b| + 1..] == y;
  }

  lemma ChainVersionKeyInjective(c: Crypto, e1: string, ch1: string, e2: string, ch2: string)
    requires Keyed(c)
    requires ChainVersionKey(c, e1, ch1) == ChainVersionKey(c, e2, ch2)
    ensures c.fold(e1) == c.fold(e2) && ch1 == ch2
  {
    var d1, d2 := Digest(c, "email", c.fold(e1)), Digest(c, "email", c.fold(e2));
    JoinAfterPrefix("chain_ver:v2:", d1, ch1, d2, ch2);
    DigestInjective(c, e1, e2);
  }

  lemma JoinAfterPrefix(p: string, a: string, x: string, b: string, y: string)
    requires ':' !in a && ':' !in b
    requires p + a + ":" + x == p + b + ":" + y
    ensures a == b && x == y
  {
    AppendDropsPrefix(p, a + ":" + x);
    AppendDropsPrefix(p, b + ":" + y);
    assert p + a + ":" + x == p + (a + ":" + x);
    assert p + b + ":" + y == p + (b + ":" + y);
    SplitUnique(a, x, b, y);
  }

  lemma DigestInjective(c: Crypto, e1: string, e2: string)
    requires Keyed(c)
    requires Digest(c, "email", c.fold(e1)) == Digest(c, "email", c.fold(e2))
    ensures c.fold(e1) == c.fold(e2)
  {
    var p := "mystic-auth:token-revocation:v2:" + "email" + ":";
    AppendDropsPrefix(p, c.fold(e1));
    AppendDropsPrefix(p, c.fold(e2));
  }

  // ---------------------------------------------------------------- exact translation

  /** A legacy account row is translated to the row that current code reads for that account,
      exactly when the email is not empty and does not itself start like a current key. */
  lemma AccountTranslationExact(c: Crypto, e: string)
    ensures HmacKeyFromLegacyKey(c, LegacyAccountVersionKey(e)) == Some(AccountVersionKey(c, e))
       <==> e != "" && !("v2:" <= e)
  {
    var key := LegacyAccountVersionKey(e);
    AppendDropsPrefix("account_ver:", e);
    assert key[0] == 'a';
    assert !("chain_ver:" <= key);
    PrefixCancels("account_ver:", "v2:", e);
    assert "account_ver:" + "v2:" == "account_ver:v2:";
  }

  // What the translation of a legacy chain key comes to, in terms of the part after the prefix.
  lemma {:induction false} ChainKeyTranslation(c: Crypto, value: string)
    ensures HmacKeyFromLegacyKey(c, "chain_ver:" + value) ==
      var i := LastColon(value);
      if !("v2:" <= value) && i > 0 && value[i + 1..] != "" then
        Some(ChainVersionKey(c, value[..i], value[i + 1..]))
      else
        None
  {
    var key := "chain_ver:" + value;
    AppendDropsPrefix("chain_ver:", value);
    PrefixCancels("chain_ver:", "v2:", value);
    assert "chain_ver:" + "v2:" == "chain_ver:v2:";
    assert key[0] == 'c';
    assert !("account_ver:" <= key);
  }

  lemma PlainChainTranslates(c: Crypto, e: string, ch: string)
    requires e != "" && ChainName(ch) && !("v2:" <= e + ":" + ch)
    ensures HmacKeyFromLegacyKey(c, LegacyChainVersionKey(e, ch)) == Some(ChainVersionKey(c, e, ch))
  {
    hide HmacKeyFromLegacyKey, LegacyChainVersionKey, ChainVersionKey;
    var value := e + ":" + ch;
    LegacyChainShape(e, ch);
    ChainKeyTranslation(c, value);
    LastColonOfJoin(e, ch);
    assert value[..|e|] == e && value[|e| + 1..] == ch;
  }

  lemma UnnamedChainUntranslated(c: Crypto, e: string, ch: string)
    requires ':' !in ch
    requires e == "" || ch == "" || "v2:" <= e + ":" + ch
    ensures HmacKeyFromLegacyKey(c, LegacyChainVersionKey(e, ch)) == None
  {
    hide HmacKeyFromLegacyKey, LegacyChainVersionKey, ChainVersionKey;
    LegacyChainShape(e, ch);
    ChainKeyTranslation(c, e + ":" + ch);
    LastColonOfJoin(e, ch);
    assert ch == "" ==> (e + ":" + ch)[|e| + 1..] == "";
  }

  lemma LegacyChainShape(e: string, ch: string)
    ensures LegacyChainVersionKey(e, ch) == "chain_ver:" + (e + ":" + ch)
  {
  }

  lemma ColonChainMistranslated(c: Crypto, e: string, ch: string)
    requires Keyed(c) && ':' in ch
    ensures HmacKeyFromLegacyKey(c, LegacyChainVersionKey(e, ch)) != Some(ChainVersionKey(c, e, ch))
  {
    hide HmacKeyFromLegacyKey, LegacyChainVersionKey, ChainVersionKey;
    var value := e + ":" + ch;
    var i := LastColon(value);
    LegacyChainShape(e, ch);
    ChainKeyTranslation(c, value);
    LastColonOfJoin(e, ch);
    assert |value[i + 1..]| < |ch|;
    if ChainVersionKey(c, value[..i], value[i + 1..]) == ChainVersionKey(c, e, ch) {
      ChainVersionKeyInjective(c, value[..i], value[i + 1..], e, ch);
      assert false;
    }
  }

  /** A legacy chain row is translated to the row that current code reads for that chain,
      exactly when both names are present, the chain name holds no colon (the key is split
      at its last colon), and the email does not make the key look like a current one. */
  lemma ChainTranslationExact(c: Crypto, e: string, ch: string)
    requires Keyed(c)
    ensures HmacKeyFromLegacyKey(c, LegacyChainVersionKey(e, ch)) == Some(ChainVersionKey(c, e, ch))
       <==> e != "" && ChainName(ch) && !("v2:" <= e + ":" + ch)
  {
    hide HmacKeyFromLegacyKey, LegacyChainVersionKey, ChainVersionKey;
    if ':' in ch {
      ColonChainMistranslated(c, e, ch);
    } else if e != "" && ch != "" && !("v2:" <= e + ":" + ch) {
      PlainChainTranslates(c, e, ch);
    } else {
      UnnamedChainUntranslated(c, e, ch);
    }
  }

  /** Two spellings of an email share an account's row exactly when they are equal once folded,
      and a chain's row exactly when the chain is the same as well. */
  lemma KeysSharedIff(c: Crypto, e1: string, ch1: string, e2: string, ch2: string)
    requires Keyed(c)
    ensures AccountVersionKey(c, e1) == AccountVersionKey(c, e2) <==> c.fold(e1) == c.fold(e2)
    ensures ChainVersionKey(c, e1, ch1) == ChainVersionKey(c, e2, ch2) <==> c.fold(e1) == c.fold(e2) && ch1 == ch2
  {
    AppendDropsPrefix("account_ver:v2:", Digest(c, "email", c.fold(e1)));
    AppendDropsPrefix("account_ver:v2:", Digest(c, "email", c.fold(e2)));
    if AccountVersionKey(c, e1) == AccountVersionKey(c, e2) {
      DigestInjective(c, e1, e2);
    }
    if ChainVersionKey(c, e1, ch1) == ChainVersionKey(c, e2, ch2) {
      ChainVersionKeyInjective(c, e1, ch1, e2, ch2);
    }
  }

  // ---------------------------------------------------------------- the scheme, abstractly

  /** What the version store and the protocols above it use of the key formats. */
  datatype KeyScheme = KeyScheme(
    scope: Target -> Scope,
    isLegacy: string -> bool,
    translate: string -> Option<string>,
    fold: string -> string
  )

  function Scheme(c: Crypto): KeyScheme {
    KeyScheme(
      (t: Target) => match t {
          case Account(e) => Scope(AccountVersionKey(c, e), LegacyAccountVersionKey(e))
          case Chain(e, ch) => Scope(ChainVersionKey(c, e, ch), LegacyChainVersionKey(e, ch))
        },
      k => IsLegacyRow(k),
      k => HmacKeyFromLegacyKey(c, k),
      c.fold)
  }

  predicate Named(t: Target) {
    t.Chain? ==> ChainName(t.chain)
  }

  predicate Plain(t: Target) {
    Named(t) && PlainEmail(t.email)
  }

  // The migration never moves a current row, and moves the legacy row of a target only
  // onto that target's current row.
  ghost predicate Safe(ks: KeyScheme, sc: Scope) {
    && !ks.isLegacy(sc.key)
    && (ks.isLegacy(sc.legacy) ==>
          ks.translate(sc.legacy) == None || ks.translate(sc.legacy) == Some(sc.key))
  }

  ghost predicate Sound(ks: KeyScheme) {
    && (forall t: Target :: Named(t) ==> Safe(ks, ks.scope(t)))
    && (forall k, n :: ks.isLegacy(k) && ks.translate(k) == Some(n) ==> !ks.isLegacy(n))
  }

  // Targets that must never share a counter.
  predicate Distinct(ks: KeyScheme, t: Target, u: Target) {
    match (t, u)
    case (Account(e), Account(f)) => ks.fold(e) != ks.fold(f)
    case (Chain(e, a), Chain(f, b)) => a != b || ks.fold(e) != ks.fold(f)
    case _ => true
  }

  // Distinct targets never share a current row, and no write to a current row ever lands on
  // the legacy row of an ordinary target.
  ghost predicate Separate(ks: KeyScheme) {
    && (forall t: Target, u: Target :: Distinct(ks, t, u) ==> ks.scope(t).key != ks.scope(u).key)
    && (forall t: Target, u: Target :: Plain(u) ==> ks.scope(t).key != ks.scope(u).legacy)
    && (forall k, u: Target :: ks.isLegacy(k) && Plain(u) ==> ks.translate(k) != Some(ks.scope(u).legacy))
  }

  lemma AccountScopeSafe(c: Crypto, e: string)
    ensures Safe(Scheme(c), Scheme(c).scope(Account(e)))
  {
    var d := Digest(c, "email", c.fold(e));
    var key, legacy := AccountVersionKey(c, e), LegacyAccountVersionKey(e);
    assert key == "account_ver:" + ("v2:" + d);
    AppendDropsPrefix("account_ver:", "v2:" + d);
    AppendDropsPrefix("account_ver:", e);
    UpToColonIsV2("v2:" + d);
    UpToColonIsV2(e);
    assert key[0] == legacy[0] == 'a';
    assert !("chain_ver:" <= key) && !("chain_ver:" <= legacy);
    assert !IsLegacyRow(key);
    if IsLegacyRow(legacy) && e != "" {
      AccountTranslationExact(c, e);
    }
  }

  lemma ChainKeyIsCurrent(c: Crypto, e: string, ch: string)
    ensures !IsLegacyRow(ChainVersionKey(c, e, ch))
  {
    var key := ChainVersionKey(c, e, ch);
    var tail := "v2:" + (Digest(c, "email", c.fold(e)) + ":" + ch);
    assert key == "chain_ver:" + tail;
    AppendDropsPrefix("chain_ver:", tail);
    UpToColonIsV2(tail);
    assert key[0] == 'c';
    assert !("account_ver:" <= key);
  }

  // The row filter and the translation agree on which chain rows are legacy ones.
  lemma LegacyChainFilter(e: string, ch: string)
    ensures IsLegacyRow(LegacyChainVersionKey(e, ch)) ==> !("v2:" <= e + ":" + ch)
  {
    LegacyChainShape(e, ch);
    AppendDropsPrefix("chain_ver:", e + ":" + ch);
    UpToColonIsV2(e + ":" + ch);
    assert LegacyChainVersionKey(e, ch)[0] == 'c';
  }

  lemma ChainScopeSafe(c: Crypto, e: string, ch: string)
    requires Keyed(c) && ChainName(ch)
    ensures Safe(Scheme(c), Scheme(c).scope(Chain(e, ch)))
  {
    hide HmacKeyFromLegacyKey, LegacyChainVersionKey, ChainVersionKey, IsLegacyRow;
    ChainKeyIsCurrent(c, e, ch);
    LegacyChainFilter(e, ch);
    if IsLegacyRow(LegacyChainVersionKey(e, ch)) {
      if e != "" {
        PlainChainTranslates(c, e, ch);
      } else {
        UnnamedChainUntranslated(c, e, ch);
      }
    }
  }

  lemma TranslationsAreCurrent(c: Crypto, k: string, n: string)
    requires HmacKeyFromLegacyKey(c, k) == Some(n)
    ensures !IsLegacyRow(n)
  {
    if "account_ver:" <= k && !("account_ver:v2:" <= k) {
      AccountScopeSafe(c, k[12..]);
    } else {
      var value := k[10..];
      var i := LastColon(value);
      ChainKeyIsCurrent(c, value[..i], value[i + 1..]);
    }
  }

  lemma CurrentKeysApart(c: Crypto, t: Target, u: Target)
    requires Keyed(c) && Distinct(Scheme(c), t, u)
    ensures Scheme(c).scope(t).key != Scheme(c).scope(u).key
  {
    match (t, u)
    case (Account(e), Account(f)) =>
      var d1, d2 := Digest(c, "email", c.fold(e)), Digest(c, "email", c.fold(f));
      AppendDropsPrefix("account_ver:v2:", d1);
      AppendDropsPrefix("account_ver:v2:", d2);
      if d1 == d2 { DigestInjective(c, e, f); }
    case (Chain(e, a), Chain(f, b)) =>
      if ChainVersionKey(c, e, a) == ChainVersionKey(c, f, b) {
        ChainVersionKeyInjective(c, e, a, f, b);
      }
    case (Account(e), Chain(f, b)) =>
      assert AccountVersionKey(c, e)[0] == 'a' && ChainVersionKey(c, f, b)[0] == 'c';
    case (Chain(e, a), Account(f)) =>
      assert ChainVersionKey(c, e, a)[0] == 'c' && AccountVersionKey(c, f)[0] == 'a';
  }

  lemma AccountKeyNeverLegacy(c: Crypto, e: string, f: string)
    requires PlainEmail(f)
    ensures AccountVersionKey(c, e) != LegacyAccountVersionKey(f)
  {
    var tail := "v2:" + Digest(c, "email", c.fold(e));
    assert AccountVersionKey(c, e) == "account_ver:" + tail;
    AppendDropsPrefix("account_ver:", tail);
    AppendDropsPrefix("account_ver:", f);
    assert tail[2] == ':';
  }

  lemma ChainKeyNeverLegacy(c: Crypto, e: string, ch: string, f: string, b: string)
    requires PlainEmail(f) && ChainName(b)
    ensures ChainVersionKey(c, e, ch) != LegacyChainVersionKey(f, b)
  {
    var d := Digest(c, "email", c.fold(e));
    if ChainVersionKey(c, e, ch) == LegacyChainVersionKey(f, b) {
      assert (d + ":" + ch)[|d|] == ':';
      assert ChainVersionKey(c, e, ch) == "chain_ver:" + "v2" + ":" + (d + ":" + ch);
      JoinAfterPrefix("chain_ver:", "v2", d + ":" + ch, f, b);
      assert false;
    }
  }

  lemma CurrentKeyNeverLegacy(c: Crypto, t: Target, u: Target)
    requires Plain(u)
    ensures Scheme(c).scope(t).key != Scheme(c).scope(u).legacy
  {
    match (t, u)
    case (Account(e), Account(f)) => AccountKeyNeverLegacy(c, e, f);
    case (Chain(e, ch), Chain(f, b)) => ChainKeyNeverLegacy(c, e, ch, f, b);
    case _ =>
      assert Scheme(c).scope(t).key[0] == (if t.Account? then 'a' else 'c');
      assert Scheme(c).scope(u).legacy[0] == (if u.Account? then 'a' else 'c');
  }

  lemma TranslationHasTarget(c: Crypto, k: string, u: Target)
    requires Plain(u)
    ensures HmacKeyFromLegacyKey(c, k) != Some(Scheme(c).scope(u).legacy)
  {
    hide ChainVersionKey, AccountVersionKey, LegacyChainVersionKey, LegacyAccountVersionKey;
    if "account_ver:" <= k && !("account_ver:v2:" <= k) {
      CurrentKeyNeverLegacy(c, Account(k[12..]), u);
    } else if "chain_ver:" <= k {
      var value := k[10..];
      var i := LastColon(value);
      if i > 0 {
        CurrentKeyNeverLegacy(c, Chain(value[..i], value[i + 1..]), u);
      }
    }
  }

  /** The migration selects the legacy row of an ordinary target and moves it to that target's
      current row, unless the email is the word that marks current rows. */
  lemma LegacyRowIsMovedIff(c: Crypto, t: Target)
    requires Keyed(c) && Plain(t)
    ensures IsLegacyRow(Scheme(c).scope(t).legacy)
            && HmacKeyFromLegacyKey(c, Scheme(c).scope(t).legacy) == Some(Scheme(c).scope(t).key)
       <==> t.email != "v2"
  {
    hide HmacKeyFromLegacyKey, ChainVersionKey, AccountVersionKey;
    match t
    case Account(e) =>
      AppendDropsPrefix("account_ver:", e);
      UpToColonIsV2(e);
      AccountTranslationExact(c, e);
      assert LegacyAccountVersionKey(e)[0] == 'a';
      NeverMarked(e);
    case Chain(e, ch) =>
      LegacyChainShape(e, ch);
      AppendDropsPrefix("chain_ver:", e + ":" + ch);
      UpToColonIsV2(e + ":" + ch);
      ChainTranslationExact(c, e, ch);
      MarkedByEmail(e, ch);
      assert LegacyChainVersionKey(e, ch)[0] == 'c';
  }

  lemma NeverMarked(e: string)
    requires PlainEmail(e)
    ensures !("v2:" <= e)
  {
    assert "v2:"[2] == ':';
  }

  lemma MarkedByEmail(e: string, ch: string)
    requires PlainEmail(e)
    ensures "v2:" <= e + ":" + ch <==> e == "v2"
    ensures e + ":" + ch != "v2"
  {
    assert (e + ":" + ch)[|e|] == ':';
    if "v2:" <= e + ":" + ch {
      SplitUnique("v2", (e + ":" + ch)[3..], e, ch);
    }
  }

  /** The deployed key formats keep every target's counter recoverable by the migration,
      and give distinct targets rows that never overlap. */
  lemma SchemeSound(c: Crypto)
    requires Keyed(c)
    ensures Sound(Scheme(c)) && Separate(Scheme(c))
  {
    hide HmacKeyFromLegacyKey, ChainVersionKey, AccountVersionKey, LegacyChainVersionKey,
      LegacyAccountVersionKey, IsLegacyRow;
    var ks := Scheme(c);
    forall t: Target | Named(t) ensures Safe(ks, ks.scope(t)) {
      match t
      case Account(e) => AccountScopeSafe(c, e);
      case Chain(e, ch) => ChainScopeSafe(c, e, ch);
    }
    forall k, n | ks.isLegacy(k) && ks.translate(k) == Some(n) ensures !ks.isLegacy(n) {
      TranslationsAreCurrent(c, k, n);
    }
    forall t: Target, u: Target | Distinct(ks, t, u) ensures ks.scope(t).key != ks.scope(u).key {
      CurrentKeysApart(c, t, u);
    }
    forall t: Target, u: Target | Plain(u) ensures ks.scope(t).key != ks.scope(u).legacy {
      CurrentKeyNeverLegacy(c, t, u);
    }
    forall k, u: Target | ks.isLegacy(k) && Plain(u) ensures ks.translate(k) != Some(ks.scope(u).legacy) {
      TranslationHasTarget(c, k, u);
    }
  }
}

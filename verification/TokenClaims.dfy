/**
 Decoded token claims and the check that compares them with the revocation counters.
 */
module TokenClaims {
  import opened Common
  import opened RevocationKeys
  import opened VersionStore

  // A version claim as found in a payload: missing, an integer, or any other JSON value.
  datatype Claim = Absent | Number(value: int) | Malformed

  // The "type" claim.
  datatype TokenType = Access | Refresh | OtherType

  // An empty string stands for a claim that is missing or empty; the code treats both alike.
  // `trusted` says that issuer and audience are the deployment's own.
  datatype Payload = Payload(
    email: string,
    typ: TokenType,
    jti: string,
    chain: string,
    accountVer: Claim,
    chainVer: Claim,
    exp: int,
    trusted: bool
  )

  predicate AppToken(p: Payload) {
    p.typ == Access || p.typ == Refresh
  }

  predicate Counter(c: Claim) {
    c.Number? && c.value >= 0
  }

  predicate Complete(p: Payload) {
    p.email != "" && p.chain != "" && p.jti != "" && Counter(p.accountVer) && Counter(p.chainVer)
  }

  function Ver(c: Claim): nat {
    if Counter(c) then c.value else 0
  }

  predicate Matches(c: Claim, version: nat) {
    match c
    case Absent => true
    case Number(v) => v == version
    case Malformed => false
  }

  // is_current_version up to and including its first query.
  predicate AccountCheck(ks: KeyScheme, rows: Rows, p: Payload) {
    if AppToken(p) && !Complete(p) then false
    else p.email == "" || Matches(p.accountVer, Version(rows, ks.scope(Account(p.email))))
  }

  // The rest of is_current_version, with its second query.
  predicate ChainCheck(ks: KeyScheme, rows: Rows, p: Payload) {
    p.email == "" || p.chain == "" || Matches(p.chainVer, Version(rows, ks.scope(Chain(p.email, p.chain))))
  }

  // What acceptance is meant to say: both versions match in one and the same table.
  predicate Current(ks: KeyScheme, rows: Rows, p: Payload) {
    AccountCheck(ks, rows, p) && ChainCheck(ks, rows, p)
  }

  /** For an access or refresh token that passes, every claim that names its account, chain and
      versions is present. In particular no chainless refresh payload gets past this check. */
  lemma CurrentIsComplete(ks: KeyScheme, rows: Rows, rows': Rows, p: Payload)
    requires AppToken(p)
    ensures Current(ks, rows, p) <==>
      && Complete(p)
      && p.accountVer == Number(Version(rows, ks.scope(Account(p.email))))
      && p.chainVer == Number(Version(rows, ks.scope(Chain(p.email, p.chain))))
    ensures AccountCheck(ks, rows, p) && ChainCheck(ks, rows', p) ==> p.chain != ""
  {
  }
}

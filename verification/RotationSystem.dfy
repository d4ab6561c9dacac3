/**
 Refresh-token rotation as a transition system.

 Any number of requests are in flight. Each request is at one program point, and each action
 is one SQL statement or transaction, one Valkey command, or one purely local stretch of code.
 */
module RotationSystem {
  import opened Common
  import opened RevocationKeys
  import opened VersionStore
  import opened KeyMigration
  import opened TokenClaims

  // Settings, and the key formats. Times are in seconds.
  datatype Config = Config(keys: KeyScheme, grace: int, accessLife: nat, refreshLife: nat)

  ghost predicate Good(cf: Config) {
    Sound(cf.keys) && Separate(cf.keys)
  }

  // A row of consumed_refresh_tokens.
  datatype ClaimRow = ClaimRow(at: nat, expires: int, ip: Option<string>, accountVer: nat, chainVer: nat)

  // A "revoked:<jti>" key left by older releases: opaque, or stamped "time|ip".
  datatype Marker = Opaque | Stamped(at: int, ip: string)

  // A token this deployment has signed. `parent` is the jti it was rotated from, "" for a root.
  datatype Minted = Minted(token: Payload, parent: string)

  datatype Request =
    // verify_token, after decoding
    | VerifyDecoded(p: Payload, want: Option<TokenType>)
    | VerifyUnmarked(p: Payload, want: Option<TokenType>)
    | VerifyAccountOk(p: Payload, want: Option<TokenType>)
    | VerifyAccepted(p: Payload)
    // refresh_tokens, after decoding and its local checks
    | RefreshDecoded(p: Payload, ip: Option<string>)
    | RefreshAccountOk(p: Payload, ip: Option<string>)
    | RefreshCurrent(p: Payload, ip: Option<string>)
    | RefreshUnmarked(p: Payload, ip: Option<string>)
    | RefreshDuplicate(p: Payload, ip: Option<string>)
    | RefreshUnrecorded(p: Payload, ip: Option<string>)
    | RefreshClaimed(p: Payload, row: ClaimRow)
    | RefreshMinted(p: Payload, access: string, refresh: string)
    | RefreshChildAccountOk(p: Payload, access: string, refresh: string)
    | RefreshChecked(p: Payload, access: string, refresh: string)
    | RefreshReturned(p: Payload, access: string, refresh: string)
    // a version bump: logout, logout-all, password change, or reuse response
    | BumpStart(target: Target)
    | BumpRead(target: Target, read: nat)
    | BumpDone(target: Target, version: nat)
    // one root token of a login or of a password-change reissue
    | MintStart(email: string, chain: string, typ: TokenType, at: nat)
    | MintRead(email: string, chain: string, typ: TokenType, at: nat, accountVer: nat, chainVer: nat)
    // answered with a rejection or an outage, or dead
    | Closed

  // Facts about the past that no code stores; they only serve to state properties.
  datatype History = History(
    grants: map<string, nat>,    // per jti: how many requests were granted its claim
    overtaken: set<string>,      // jtis whose row was purged while a request held the decoded token
    roots: map<string, nat>,     // per chain: root refresh tokens issued
    regrants: map<string, nat>   // per chain: claims granted for a jti granted before
  )

  datatype State = State(
    now: nat,
    rows: Rows,
    consumed: map<string, ClaimRow>,
    markers: map<string, Marker>,
    minted: map<string, Minted>,
    issued: set<string>,         // minted tokens that were handed to a client
    requests: map<nat, Request>,
    history: History
  )

  datatype Action =
    | Tick(seconds: nat)
    | SetMarkers(markers: map<string, Marker>)
    | MigrateBatch(batch: seq<string>)
    | Purge(jtis: set<string>)
    | StartVerify(id: nat, p: Payload, want: Option<TokenType>)
    | StartRefresh(id: nat, p: Payload, ip: Option<string>)
    | StartBump(id: nat, target: Target)
    | StartMint(id: nat, email: string, chain: string, typ: TokenType)
    | Step(id: nat, choice: Choice)
    | Abort(id: nat)

  // What the environment decides in a step: a stale view of a bump's current row, a failing
  // marker lookup, fresh identifiers.
  datatype Choice = Choice(stale: nat, blind: bool, access: string, refresh: string)

  function Count<T>(m: map<T, nat>, k: T): nat {
    if k in m then m[k] else 0
  }

  function Put(s: State, id: nat, r: Request): State {
    s.(requests := s.requests[id := r])
  }

  // Tokens are unforgeable: a complete access or refresh payload is one that was handed out.
  predicate Presentable(s: State, p: Payload) {
    AppToken(p) && Complete(p) ==>
      p.jti in s.issued && p.jti in s.minted && s.minted[p.jti].token == p
  }

  // The request holds a decoded refresh token whose claim it has yet to try.
  predicate Window(r: Request, jti: string) {
    && (r.RefreshDecoded? || r.RefreshAccountOk? || r.RefreshCurrent? || r.RefreshUnmarked?)
    && Complete(r.p) && r.p.jti == jti
  }

  function Overtaken(s: State, jtis: set<string>): set<string> {
    set j | j in jtis && exists id :: id in s.requests && Window(s.requests[id], j)
  }

  // ---------------------------------------------------------------- effects on the database

  function Granted(h: History, jti: string, chain: string): History {
    h.(grants := h.grants[jti := Count(h.grants, jti) + 1],
       regrants := if Count(h.grants, jti) == 0 then h.regrants
                   else h.regrants[chain := Count(h.regrants, chain) + 1])
  }

  function NewRow(s: State, p: Payload, ip: Option<string>): ClaimRow {
    ClaimRow(s.now, p.exp, ip, Ver(p.accountVer), Ver(p.chainVer))
  }

  // INSERT ... ON CONFLICT (jti) DO NOTHING.
  function Record(s: State, p: Payload, ip: Option<string>): State {
    if p.jti in s.consumed then s
    else s.(consumed := s.consumed[p.jti := NewRow(s, p, ip)], history := Granted(s.history, p.jti, p.chain))
  }

  function Child(p: Payload, typ: TokenType, jti: string, row: ClaimRow, life: nat): Payload {
    Payload(p.email, typ, jti, p.chain, Number(row.accountVer), Number(row.chainVer), row.at + life, true)
  }

  // Both tokens of a rotation.
  function AddChildren(cf: Config, s: State, p: Payload, row: ClaimRow, a: string, r: string): State {
    s.(minted := s.minted
         [a := Minted(Child(p, Access, a, row, cf.accessLife), p.jti)]
         [r := Minted(Child(p, Refresh, r, row, cf.refreshLife), p.jti)])
  }

  function HandOut(s: State, a: string, r: string): State {
    s.(issued := s.issued + {a, r})
  }

  // The upsert and commit of a bump.
  function WriteBump(cf: Config, s: State, t: Target, read: nat): State {
    s.(rows := Bumped(s.rows, cf.keys.scope(t), read))
  }

  function AddRoot(cf: Config, s: State, q: Request, jti: string): State
    requires q.MintRead?
  {
    var life := if q.typ == Refresh then cf.refreshLife else cf.accessLife;
    var token := Payload(q.email, q.typ, jti, q.chain, Number(q.accountVer), Number(q.chainVer), q.at + life, true);
    var roots := if q.typ == Refresh then s.history.roots[q.chain := Count(s.history.roots, q.chain) + 1]
                 else s.history.roots;
    s.(minted := s.minted[jti := Minted(token, "")], issued := s.issued + {jti},
       history := s.history.(roots := roots))
  }

  // ---------------------------------------------------------------- answers to a request

  // The row part of is_benign_duplicate_rotation.
  predicate BenignRow(cf: Config, now: nat, row: ClaimRow, ip: Option<string>) {
    cf.grace > 0 && 0 <= now - row.at <= cf.grace && row.ip == ip
  }

  // Its fallback on a marker of an older release.
  predicate BenignMarker(cf: Config, now: nat, m: Marker, ip: Option<string>) {
    cf.grace > 0 && m.Stamped? && 0 <= now - m.at <= cf.grace && m.ip == (if ip.Some? then ip.value else "")
  }

  // handle_reuse_detected: the scope it revokes.
  function ReuseResponse(p: Payload): Request {
    if p.email == "" then Closed
    else if p.chain != "" then BumpStart(Chain(p.email, p.chain))
    else BumpStart(Account(p.email))
  }

  // The program point after the next step, in terms of the state the step finds.
  function NextPoint(cf: Config, s: State, q: Request, c: Choice): Request {
    var ks := cf.keys;
    match q
    case VerifyDecoded(p, want) =>
      if p.jti != "" && p.jti in s.markers then Closed else VerifyUnmarked(p, want)
    case VerifyUnmarked(p, want) =>
      if AccountCheck(ks, s.rows, p) then VerifyAccountOk(p, want) else Closed
    case VerifyAccountOk(p, want) =>
      if ChainCheck(ks, s.rows, p) && (want.None? || p.typ == want.value) then VerifyAccepted(p) else Closed
    case RefreshDecoded(p, ip) =>
      if AccountCheck(ks, s.rows, p) then RefreshAccountOk(p, ip) else Closed
    case RefreshAccountOk(p, ip) =>
      if ChainCheck(ks, s.rows, p) then RefreshCurrent(p, ip) else Closed
    case RefreshCurrent(p, ip) =>
      if p.jti in s.markers && !c.blind then RefreshDuplicate(p, ip) else RefreshUnmarked(p, ip)
    case RefreshUnmarked(p, ip) =>
      if p.jti in s.consumed then RefreshDuplicate(p, ip) else RefreshClaimed(p, NewRow(s, p, ip))
    case RefreshDuplicate(p, ip) =>
      if cf.grace <= 0 then ReuseResponse(p)
      else if p.jti !in s.consumed then RefreshUnrecorded(p, ip)
      else if BenignRow(cf, s.now, s.consumed[p.jti], ip) then Closed
      else ReuseResponse(p)
    case RefreshUnrecorded(p, ip) =>
      if p.jti in s.markers && BenignMarker(cf, s.now, s.markers[p.jti], ip) then Closed else ReuseResponse(p)
    case RefreshClaimed(p, row) =>
      if s.now < row.at + cf.refreshLife then RefreshMinted(p, c.access, c.refresh) else Closed
    case RefreshMinted(p, a, r) =>
      if r in s.minted && AccountCheck(ks, s.rows, s.minted[r].token) then RefreshChildAccountOk(p, a, r) else Closed
    case RefreshChildAccountOk(p, a, r) =>
      if r in s.minted && ChainCheck(ks, s.rows, s.minted[r].token) then RefreshChecked(p, a, r) else Closed
    case RefreshChecked(p, a, r) =>
      RefreshReturned(p, a, r)
    case BumpStart(t) =>
      BumpRead(t, Max(c.stale, Get(s.rows, ks.scope(t).legacy)))
    case BumpRead(t, read) =>
      BumpDone(t, Version(Bumped(s.rows, ks.scope(t), read), ks.scope(t)))
    case MintStart(e, ch, typ, at) =>
      MintRead(e, ch, typ, at, Version(s.rows, ks.scope(Account(e))), Version(s.rows, ks.scope(Chain(e, ch))))
    case MintRead(_, _, _, _, _, _) => Closed
    case _ => q
  }

  // ---------------------------------------------------------------- steps of a request

  predicate CanStep(cf: Config, s: State, id: nat, c: Choice) {
    && id in s.requests
    && (s.requests[id].RefreshClaimed? ==>
          && c.access != "" && c.refresh != "" && c.access != c.refresh
          && c.access !in s.minted && c.refresh !in s.minted)
    && (s.requests[id].MintRead? ==> c.access != "" && c.access !in s.minted)
    && (s.requests[id].BumpStart? ==> c.stale <= Get(s.rows, cf.keys.scope(s.requests[id].target).key))
  }

  // What the step does to everything but the requests. All other program points only read.
  function Effect(cf: Config, s: State, q: Request, c: Choice): (r: State)
    ensures r.requests == s.requests && r.now == s.now && r.markers == s.markers
  {
    if q.RefreshUnmarked? then Record(s, q.p, q.ip)
    else if q.RefreshClaimed? then AddChildren(cf, s, q.p, q.row, c.access, c.refresh)
    else if q.RefreshChecked? then HandOut(s, q.access, q.refresh)
    else if q.BumpRead? then WriteBump(cf, s, q.target, q.read)
    else if q.MintRead? then AddRoot(cf, s, q, c.access)
    else s
  }

  function Advance(cf: Config, s: State, id: nat, c: Choice): State
    requires CanStep(cf, s, id, c)
  {
    Put(Effect(cf, s, s.requests[id], c), id, NextPoint(cf, s, s.requests[id], c))
  }

  // ---------------------------------------------------------------- the system

  ghost predicate Enabled(cf: Config, s: State, act: Action) {
    match act
    case Tick(_) => true
    case SetMarkers(_) => true
    case MigrateBatch(batch) => Batch(cf.keys, s.rows, batch)
    case Purge(jtis) => forall j :: j in jtis ==> j in s.consumed && s.consumed[j].expires < s.now
    case StartVerify(id, p, _) => id !in s.requests && Presentable(s, p)
    case StartRefresh(id, p, _) => id !in s.requests && Presentable(s, p)
    case StartBump(id, t) => id !in s.requests && Plain(t)
    case StartMint(id, e, ch, typ) =>
      id !in s.requests && PlainEmail(e) && ChainName(ch) && (typ == Access || typ == Refresh)
    case Step(id, c) => CanStep(cf, s, id, c)
    case Abort(id) => id in s.requests
  }

  ghost function Apply(cf: Config, s: State, act: Action): State
    requires Good(cf) && Enabled(cf, s, act)
  {
    match act
    case Tick(d) => s.(now := s.now + d)
    case SetMarkers(m) => s.(markers := m)
    case MigrateBatch(batch) => s.(rows := MovedAll(cf.keys, s.rows, batch))
    case Purge(jtis) =>
      s.(consumed := s.consumed - jtis,
         history := s.history.(overtaken := s.history.overtaken + Overtaken(s, jtis)))
    case StartVerify(id, p, want) =>
      Put(s, id, if s.now < p.exp && p.trusted then VerifyDecoded(p, want) else Closed)
    case StartRefresh(id, p, ip) =>
      Put(s, id, if s.now < p.exp && p.trusted && p.jti != "" && p.typ == Refresh
                 then RefreshDecoded(p, ip) else Closed)
    case StartBump(id, t) => Put(s, id, BumpStart(t))
    case StartMint(id, e, ch, typ) => Put(s, id, MintStart(e, ch, typ, s.now))
    case Step(id, c) => Advance(cf, s, id, c)
    case Abort(id) => Put(s, id, Closed)
  }

  predicate Initial(s: State) {
    && s.consumed == map[] && s.minted == map[] && s.issued == {} && s.requests == map[]
    && s.history == History(map[], {}, map[], map[])
  }

  // A run: states[i + 1] follows from states[i] by actions[i].
  datatype Run = Run(states: seq<State>, actions: seq<Action>)

  ghost predicate IsRun(cf: Config, run: Run)
    requires Good(cf)
  {
    && |run.states| == |run.actions| + 1
    && Initial(run.states[0])
    && (forall i :: 0 <= i < |run.actions| ==>
          Enabled(cf, run.states[i], run.actions[i]) &&
          run.states[i + 1] == Apply(cf, run.states[i], run.actions[i]))
  }
}

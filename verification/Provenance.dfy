/**
 * What every step keeps, whatever snapshot it reads: each row, each token and each request in progress
 * agrees with an `authorize` that checked the user's credentials.
 */
module Provenance {
  import opened Wrappers
  import opened Scopes
  import opened AuthTables
  import opened TokenService
  import opened OAuthFlow

  // ---------------------------------------------------------------- growth

  ghost predicate SubMap<X, Y>(a: map<X, Y>, b: map<X, Y>) {
    forall x | x in a :: x in b && b[x] == a[x]
  }

  /** Users and clients are only ever added. */
  ghost predicate Older(a: Tables, b: Tables) {
    SubMap(a.users, b.users) && SubMap(a.emails, b.emails) && SubMap(a.clients, b.clients)
  }

  ghost predicate Grows(a: Ledger, b: Ledger) {
    SubMap(a.grants, b.grants) && SubMap(a.mints, b.mints) && a.access <= b.access
  }

  // ---------------------------------------------------------------- soundness

  /** The client exists, the redirect is its own, and the scopes asked for are among those it registered. */
  ghost predicate ClientOk(m: Tables, clientId: string, redirectUri: string, scopes: string) {
    && clientId in m.clients
    && m.clients[clientId].redirectUri == redirectUri
    && Allowed(scopes, m.clients[clientId].scopes)
  }

  ghost predicate LoginOk(k: Config, m: Tables, userId: int, login: Login) {
    && userId in m.users
    && m.users[userId].email == login.email
    && k.verifyPassword(login.password, m.users[userId].passwordHash).Match?
  }

  ghost predicate GrantSound(k: Config, m: Tables, code: string, g: Grant) {
    && g.row.code == code && !g.row.used && g.row.expiresAt == g.at + CODE_TTL
    && LoginOk(k, m, g.row.userId, g.login)
    && ClientOk(m, g.row.clientId, g.row.redirectUri, g.row.scopes)
  }

  ghost predicate LineageSound(l: Ledger, lin: Lineage) {
    && lin.code in l.grants
    && match lin.source
       case FromCode(c) => lin.code == c && lin.rank == 0
       case FromToken(p) =>
         p in l.mints && lin.code == l.mints[p].lineage.code && lin.rank == l.mints[p].lineage.rank + 1
  }

  /** The user, the client and the scope string are those of the grant. */
  ghost predicate OfGrant(l: Ledger, code: string, userId: int, clientId: string, scopes: string) {
    && code in l.grants
    && var row := l.grants[code].row; row.userId == userId && row.clientId == clientId && row.scopes == scopes
  }

  ghost predicate MintSound(k: Config, l: Ledger, token: string, mint: Mint) {
    && mint.row.token == token && mint.row.expiresAt == mint.at + k.RefreshTtl()
    && LineageSound(l, mint.lineage)
    && OfGrant(l, mint.lineage.code, mint.row.userId, mint.row.clientId, mint.row.scopes)
  }

  ghost predicate UserAccessSound(k: Config, m: Tables, l: Ledger, lin: Lineage, claims: Claims, at: int) {
    && LineageSound(l, lin)
    && var row := l.grants[lin.code].row;
       row.userId in m.users && claims == UserClaims(k, at, m.users[row.userId], row.clientId, row.scopes)
  }

  ghost predicate ClientAccessSound(k: Config, m: Tables, claims: Claims, at: int) {
    && claims == ClientClaims(k, at, claims.clientId, claims.scopes)
    && claims.clientId in m.clients && Allowed(claims.scopes, m.clients[claims.clientId].scopes)
  }

  ghost predicate AccessSound(k: Config, m: Tables, l: Ledger, a: Access) {
    && k.encode(a.claims, k.jwtSecret) == Some(a.jwt)
    && if a.lineage.Some? then UserAccessSound(k, m, l, a.lineage.value, a.claims, a.at)
       else ClientAccessSound(k, m, a.claims, a.at)
  }

  ghost predicate LedgerSound(k: Config, m: Tables, l: Ledger) {
    && (forall c | c in l.grants :: GrantSound(k, m, c, l.grants[c]))
    && (forall t | t in l.mints :: MintSound(k, l, t, l.mints[t]))
    && (forall i | 0 <= i < |l.access| :: AccessSound(k, m, l, l.access[i]))
  }

  /** Every code and token row is the one that was issued, but for the `used` flag. */
  ghost predicate TablesSound(l: Ledger, t: Tables) {
    && t.WellKeyed()
    && (forall c | c in t.codes :: c in l.grants && t.codes[c].(used := false) == l.grants[c].row)
    && (forall r | r in t.tokens :: r in l.mints && t.tokens[r] == l.mints[r].row)
  }

  ghost predicate CodeRowSound(l: Ledger, g: CodeGrant, row: AuthCode) {
    && g.code in l.grants && row.(used := false) == l.grants[g.code].row
    && row.clientId == g.clientId
  }

  ghost predicate TokenRowSound(l: Ledger, r: RefreshGrant, stored: RefreshToken) {
    && r.token in l.mints && stored == l.mints[r.token].row
    && stored.clientId == r.clientId
  }

  ghost predicate IsUser(m: Tables, id: int, u: AuthUser) {
    id in m.users && m.users[id] == u && u.id == id
  }

  /** What a request in progress has established about the values it holds. */
  ghost predicate PhaseSound(k: Config, m: Tables, l: Ledger, ph: Phase) {
    match ph
    case CheckUser(p, _) => ClientOk(m, p.clientId, p.redirectUri, p.scope)
    case InsertCode(p, login, u) =>
      ClientOk(m, p.clientId, p.redirectUri, p.scope) && IsUser(m, u.id, u) && LoginOk(k, m, u.id, login)
    case MarkCode(g, row) => CodeRowSound(l, g, row)
    case ReadCodeUser(g, row) => CodeRowSound(l, g, row)
    case InsertFirst(g, row, u, _) => CodeRowSound(l, g, row) && IsUser(m, row.userId, u)
    case DropRotated(r, stored) => TokenRowSound(l, r, stored)
    case ReadTokenUser(r, stored) => TokenRowSound(l, r, stored)
    case InsertNext(r, stored, u, _) => TokenRowSound(l, r, stored) && IsUser(m, stored.userId, u)
    case _ => true
  }

  /** The current tables and the ledger agree; no granted code is ever forgotten. */
  ghost predicate StateSound(k: Config, s: State) {
    && LedgerSound(k, s.tables, s.ledger)
    && TablesSound(s.ledger, s.tables)
    && s.ledger.grants.Keys <= s.tables.codes.Keys
  }

  // ---------------------------------------------------------------- growth keeps soundness

  lemma LedgerSoundGrows(k: Config, m: Tables, m': Tables, l: Ledger)
    requires LedgerSound(k, m, l) && Older(m, m')
    ensures LedgerSound(k, m', l)
  {
  }

  lemma PhaseSoundGrows(k: Config, m: Tables, m': Tables, l: Ledger, l': Ledger, ph: Phase)
    requires PhaseSound(k, m, l, ph) && Older(m, m') && Grows(l, l')
    ensures PhaseSound(k, m', l', ph)
  {
  }

  lemma TablesSoundGrows(l: Ledger, l': Ledger, t: Tables)
    requires TablesSound(l, t) && Grows(l, l')
    ensures TablesSound(l', t)
  {
  }

  lemma MintSoundGrows(k: Config, l: Ledger, l': Ledger, token: string, mint: Mint)
    requires MintSound(k, l, token, mint) && Grows(l, l')
    ensures MintSound(k, l', token, mint)
  {
  }

  lemma AccessSoundGrows(k: Config, m: Tables, l: Ledger, l': Ledger, a: Access)
    requires AccessSound(k, m, l, a) && Grows(l, l')
    ensures AccessSound(k, m, l', a)
  {
  }

  /** A ledger that only gained entries is sound if the entries it gained are. */
  lemma LedgerSoundExtends(k: Config, m: Tables, l: Ledger, l': Ledger)
    requires LedgerSound(k, m, l) && Grows(l, l')
    requires forall c | c in l'.grants && c !in l.grants :: GrantSound(k, m, c, l'.grants[c])
    requires forall t | t in l'.mints && t !in l.mints :: MintSound(k, l', t, l'.mints[t])
    requires forall i | |l.access| <= i < |l'.access| :: AccessSound(k, m, l', l'.access[i])
    ensures LedgerSound(k, m, l')
  {
    hide GrantSound, MintSound, AccessSound;
    forall t | t in l.mints ensures MintSound(k, l', t, l'.mints[t]) {
      MintSoundGrows(k, l, l', t, l.mints[t]);
    }
    forall i | 0 <= i < |l.access| ensures AccessSound(k, m, l', l'.access[i]) {
      AccessSoundGrows(k, m, l, l', l.access[i]);
      assert l'.access[i] == l.access[i];
    }
  }

  lemma InsertCodeKeepsTables(l: Ledger, l': Ledger, t: Tables, row: AuthCode)
    requires TablesSound(l, t) && Grows(l, l') && t.InsertCode(row).Success?
    requires row.code in l'.grants && row.(used := false) == l'.grants[row.code].row
    ensures TablesSound(l', t.InsertCode(row).value) && Older(t, t.InsertCode(row).value)
  {
  }

  lemma InsertTokenKeepsTables(l: Ledger, l': Ledger, t: Tables, row: RefreshToken)
    requires TablesSound(l, t) && Grows(l, l') && t.InsertToken(row).Success?
    requires row.token in l'.mints && row == l'.mints[row.token].row
    ensures TablesSound(l', t.InsertToken(row).value) && Older(t, t.InsertToken(row).value)
  {
  }

  lemma GrantKeeps(k: Config, s: State, row: AuthCode, login: Login, now: int)
    requires StateSound(k, s) && GrantSound(k, s.tables, row.code, Grant(row, login, now))
    requires GrantCode(s, row, login, now).Success?
    ensures
      var s' := GrantCode(s, row, login, now).value;
      StateSound(k, s') && Older(s.tables, s'.tables) && Grows(s.ledger, s'.ledger)
  {
    var s' := GrantCode(s, row, login, now).value;
    assert row.(used := false) == row;
    hide GrantSound, MintSound, AccessSound, TablesSound, Older;
    LedgerSoundExtends(k, s.tables, s.ledger, s'.ledger);
    hide LedgerSound, Grows;
    InsertCodeKeepsTables(s.ledger, s'.ledger, s.tables, row);
    LedgerSoundGrows(k, s.tables, s'.tables, s'.ledger);
  }

  lemma RecordGrows(l: Ledger, row: RefreshToken, source: Source, now: int)
    requires row.token !in l.mints
    ensures Grows(l, RecordMint(l, row, source, now))
  {
  }

  lemma MintKeeps(k: Config, s: State, row: RefreshToken, source: Source, now: int)
    requires StateSound(k, s) && row.token !in s.ledger.mints
    requires MintSound(k, s.ledger, row.token, Mint(s.ledger.LineageFrom(source), row, now))
    requires MintToken(s, row, source, now).Success?
    ensures
      var s' := MintToken(s, row, source, now).value;
      StateSound(k, s') && Older(s.tables, s'.tables) && Grows(s.ledger, s'.ledger)
  {
    var s' := MintToken(s, row, source, now).value;
    hide GrantSound, MintSound, AccessSound, TablesSound, Older, LineageSound;
    RecordGrows(s.ledger, row, source, now);
    hide Grows;
    MintSoundGrows(k, s.ledger, s'.ledger, row.token, s'.ledger.mints[row.token]);
    LedgerSoundExtends(k, s.tables, s.ledger, s'.ledger);
    hide LedgerSound;
    InsertTokenKeepsTables(s.ledger, s'.ledger, s.tables, row);
    LedgerSoundGrows(k, s.tables, s'.tables, s'.ledger);
  }

  lemma AccessKeeps(k: Config, s: State, source: Option<Source>, claims: Claims, jwt: string, now: int)
    requires StateSound(k, s)
    requires
      var lineage := if source.Some? then Some(s.ledger.LineageFrom(source.value)) else None;
      AccessSound(k, s.tables, s.ledger, Access(lineage, claims, jwt, now))
    ensures
      var l := LogAccess(s.ledger, source, claims, jwt, now);
      StateSound(k, s.(ledger := l)) && Grows(s.ledger, l)
  {
    var l := LogAccess(s.ledger, source, claims, jwt, now);
    AccessSoundGrows(k, s.tables, s.ledger, l, l.access[|s.ledger.access|]);
    hide GrantSound, MintSound, AccessSound;
    LedgerSoundExtends(k, s.tables, s.ledger, l);
  }

  /** A change to the tables alone keeps the state sound if rows only keep, lose or mark what they had. */
  lemma TablesKeep(k: Config, s: State, t: Tables)
    requires StateSound(k, s) && Older(s.tables, t) && t.WellKeyed()
    requires t.codes.Keys == s.tables.codes.Keys
    requires forall c | c in t.codes :: t.codes[c].(used := false) == s.tables.codes[c].(used := false)
    requires forall r | r in t.tokens :: r in s.tables.tokens && t.tokens[r] == s.tables.tokens[r]
    ensures StateSound(k, s.(tables := t))
  {
    hide LedgerSound;
    LedgerSoundGrows(k, s.tables, t, s.ledger);
  }

  // ---------------------------------------------------------------- every step keeps soundness

  /** What one step is to keep: soundness, and everything already on record. */
  ghost predicate Kept(k: Config, s: State, s': State, ph': Phase) {
    && StateSound(k, s') && PhaseSound(k, s'.tables, s'.ledger, ph')
    && Older(s.tables, s'.tables) && Grows(s.ledger, s'.ledger)
  }

  lemma NothingChanged(t: Tables, l: Ledger)
    ensures Older(t, t) && Grows(l, l)
  {
  }

  lemma MintOnRecord(k: Config, s: State, token: string)
    requires StateSound(k, s) && token in s.ledger.mints
    ensures MintSound(k, s.ledger, token, s.ledger.mints[token])
  {
  }

  lemma SnapshotUser(l: Ledger, snap: Tables, m: Tables, id: int)
    requires TablesSound(l, snap) && Older(snap, m) && id in snap.users
    ensures IsUser(m, id, snap.users[id])
  {
  }

  lemma SnapshotClient(snap: Tables, m: Tables, id: string)
    requires Older(snap, m) && id in snap.clients
    ensures id in m.clients && m.clients[id] == snap.clients[id]
  {
  }

  lemma SnapshotCode(l: Ledger, snap: Tables, code: string)
    requires TablesSound(l, snap) && code in snap.codes
    ensures code in l.grants && snap.codes[code].(used := false) == l.grants[code].row
  {
  }

  lemma SnapshotToken(l: Ledger, snap: Tables, token: string)
    requires TablesSound(l, snap) && token in snap.tokens
    ensures token in l.mints && snap.tokens[token] == l.mints[token].row
  {
  }

  lemma InsertUserKeepsKeys(t: Tables, u: AuthUser)
    requires t.WellKeyed() && t.InsertUser(u).Success?
    ensures t.InsertUser(u).value.WellKeyed() && Older(t, t.InsertUser(u).value)
  {
  }

  lemma RegisterKeeps(k: Config, env: Env, s: State, email: string, password: string)
    requires StateSound(k, s)
    ensures var (s', ph') := StartRegister(k, env, s, email, password); Kept(k, s, s', ph')
  {
    NothingChanged(s.tables, s.ledger);
    hide LedgerSound, Older, Grows, Tables.WellKeyed;
    var (s', ph') := StartRegister(k, env, s, email, password);
    if s' != s {
      InsertUserKeepsKeys(s.tables, AuthUser(env.userId, email, k.hashPassword(password, env.salt).value));
      TablesKeep(k, s, s'.tables);
    }
  }

  lemma RegisterClientKeeps(k: Config, env: Env, s: State, name: string, redirectUri: string, scopes: string)
    requires StateSound(k, s)
    ensures var (s', ph') := StartRegisterClient(k, env, s, name, redirectUri, scopes); Kept(k, s, s', ph')
  {
    NothingChanged(s.tables, s.ledger);
    hide LedgerSound, Grows;
    var (s', ph') := StartRegisterClient(k, env, s, name, redirectUri, scopes);
    TablesKeep(k, s, s'.tables);
  }

  lemma ClientGrantKeeps(k: Config, env: Env, snap: Tables, s: State, r: TokenRequest)
    requires StateSound(k, s) && TablesSound(s.ledger, snap) && Older(snap, s.tables)
    ensures var (s', ph') := StartClientGrant(k, env, snap, s, r); Kept(k, s, s', ph')
  {
    NothingChanged(s.tables, s.ledger);
    hide StateSound, TablesSound, Grows, Allowed;
    var (s', ph') := StartClientGrant(k, env, snap, s, r);
    if s' != s {
      var scope := if r.scope.Some? then r.scope.value else "read";
      var claims := ClientClaims(k, env.now, r.clientId, scope);
      AccessKeeps(k, s, None, claims, k.encode(claims, k.jwtSecret).value, env.now);
    }
  }

  lemma StartKeeps(k: Config, env: Env, snap: Tables, s: State, req: Request)
    requires StateSound(k, s) && TablesSound(s.ledger, snap) && Older(snap, s.tables)
    ensures var (s', ph') := AtStart(k, env, snap, s, req); Kept(k, s, s', ph')
  {
    hide StateSound, TablesSound, Older, Grows, StartRegister, StartRegisterClient, StartClientGrant;
    NothingChanged(s.tables, s.ledger);
    match req
    case Register(email, password) => RegisterKeeps(k, env, s, email, password);
    case RegisterClient(name, uri, scopes) => RegisterClientKeeps(k, env, s, name, uri, scopes);
    case Token(r) => ClientGrantKeeps(k, env, snap, s, r);
    case Authorize(p, _) =>
      if p.clientId in snap.clients {
        SnapshotClient(snap, s.tables, p.clientId);
      }
    case Revoke(_, _, _) =>
  }

  lemma CheckUserKeeps(k: Config, snap: Tables, s: State, p: AuthorizeParams, login: Login)
    requires StateSound(k, s) && TablesSound(s.ledger, snap) && Older(snap, s.tables)
    requires PhaseSound(k, s.tables, s.ledger, CheckUser(p, login))
    ensures var (s', ph') := AtCheckUser(k, snap, s, p, login); Kept(k, s, s', ph')
  {
    hide StateSound;
    if CheckLogin(k, snap, login).Success? {
      var id := snap.emails[login.email];
      assert snap.users[id].id == id && snap.users[id].email == login.email;
      assert IsUser(s.tables, id, snap.users[id]);
    }
  }

  /** Logging an access token for a user of a grant, for that grant's client and scopes. */
  lemma UserAccessKeeps(k: Config, s: State, source: Source, u: AuthUser, clientId: string, scopes: string, jwt: string, now: int)
    requires StateSound(k, s) && IsUser(s.tables, u.id, u)
    requires LineageSound(s.ledger, s.ledger.LineageFrom(source))
    requires OfGrant(s.ledger, s.ledger.LineageFrom(source).code, u.id, clientId, scopes)
    requires k.encode(UserClaims(k, now, u, clientId, scopes), k.jwtSecret) == Some(jwt)
    ensures
      var l := LogAccess(s.ledger, Some(source), UserClaims(k, now, u, clientId, scopes), jwt, now);
      StateSound(k, s.(ledger := l)) && Grows(s.ledger, l)
  {
    hide StateSound, Grows;
    AccessKeeps(k, s, Some(source), UserClaims(k, now, u, clientId, scopes), jwt, now);
  }

  lemma CodeUserKeeps(k: Config, env: Env, snap: Tables, s: State, g: CodeGrant, row: AuthCode)
    requires StateSound(k, s) && TablesSound(s.ledger, snap) && Older(snap, s.tables)
    requires CodeRowSound(s.ledger, g, row)
    ensures var (s', ph') := AtReadCodeUser(k, env, snap, s, g, row); Kept(k, s, s', ph')
  {
    hide StateSound, TablesSound, Older, Grows, UserClaims, LogAccess;
    NothingChanged(s.tables, s.ledger);
    var (s', ph') := AtReadCodeUser(k, env, snap, s, g, row);
    if ph'.InsertFirst? {
      SnapshotUser(s.ledger, snap, s.tables, row.userId);
      UserAccessKeeps(k, s, FromCode(g.code), ph'.user, g.clientId, row.scopes, ph'.jwt, env.now);
      PhaseSoundGrows(k, s.tables, s.tables, s.ledger, s'.ledger, ph');
    }
  }

  lemma TokenUserKeeps(k: Config, env: Env, snap: Tables, s: State, r: RefreshGrant, stored: RefreshToken)
    requires StateSound(k, s) && TablesSound(s.ledger, snap) && Older(snap, s.tables)
    requires TokenRowSound(s.ledger, r, stored)
    ensures var (s', ph') := AtReadTokenUser(k, env, snap, s, r, stored); Kept(k, s, s', ph')
  {
    hide StateSound, TablesSound, Older, Grows, UserClaims, LogAccess;
    NothingChanged(s.tables, s.ledger);
    var (s', ph') := AtReadTokenUser(k, env, snap, s, r, stored);
    if ph'.InsertNext? {
      SnapshotUser(s.ledger, snap, s.tables, stored.userId);
      MintOnRecord(k, s, r.token);
      UserAccessKeeps(k, s, FromToken(r.token), ph'.user, r.clientId, stored.scopes, ph'.jwt, env.now);
      PhaseSoundGrows(k, s.tables, s.tables, s.ledger, s'.ledger, ph');
    }
  }

  lemma InsertCodeKeeps(k: Config, env: Env, s: State, p: AuthorizeParams, login: Login, u: AuthUser)
    requires StateSound(k, s) && PhaseSound(k, s.tables, s.ledger, InsertCode(p, login, u))
    ensures var (s', ph') := AtInsertCode(env, s, p, login, u); Kept(k, s, s', ph')
  {
    hide StateSound, Older, Grows, GrantCode;
    NothingChanged(s.tables, s.ledger);
    var row := NewCode(env.now, env.code, p, u);
    if GrantCode(s, row, login, env.now).Success? {
      GrantKeeps(k, s, row, login, env.now);
    }
  }

  lemma InsertFirstKeeps(k: Config, env: Env, s: State, g: CodeGrant, row: AuthCode, u: AuthUser, jwt: string)
    requires StateSound(k, s) && PhaseSound(k, s.tables, s.ledger, InsertFirst(g, row, u, jwt))
    requires env.token !in s.ledger.mints
    ensures var (s', ph') := AtInsertFirst(k, env, s, g, row, u, jwt); Kept(k, s, s', ph')
  {
    hide StateSound, Older, Grows, MintToken;
    NothingChanged(s.tables, s.ledger);
    var token := NewToken(k, env.now, env.token, g.clientId, u.id, row.scopes);
    if MintToken(s, token, FromCode(g.code), env.now).Success? {
      MintKeeps(k, s, token, FromCode(g.code), env.now);
    }
  }

  lemma InsertNextKeeps(k: Config, env: Env, s: State, r: RefreshGrant, stored: RefreshToken, u: AuthUser, jwt: string)
    requires StateSound(k, s) && PhaseSound(k, s.tables, s.ledger, InsertNext(r, stored, u, jwt))
    requires env.token !in s.ledger.mints
    ensures var (s', ph') := AtInsertNext(k, env, s, r, stored, u, jwt); Kept(k, s, s', ph')
  {
    hide StateSound, Older, Grows, MintToken;
    NothingChanged(s.tables, s.ledger);
    MintOnRecord(k, s, r.token);
    var token := NewToken(k, env.now, env.token, r.clientId, u.id, stored.scopes);
    if MintToken(s, token, FromToken(r.token), env.now).Success? {
      MintKeeps(k, s, token, FromToken(r.token), env.now);
    }
  }

  lemma MarkUsedKeeps(k: Config, s: State, code: string)
    requires StateSound(k, s)
    ensures var t := s.tables.MarkUsed(code); StateSound(k, s.(tables := t)) && Older(s.tables, t)
  {
    WellKeyedTables(k, s);
    hide LedgerSound, TablesSound, StateSound;
    MarkedTables(s.tables, code);
    hide Tables.MarkUsed, Tables.WellKeyed;
    TablesKeep(k, s, s.tables.MarkUsed(code));
  }

  lemma WellKeyedTables(k: Config, s: State)
    requires StateSound(k, s)
    ensures s.tables.WellKeyed()
  {
    hide LedgerSound;
  }

  lemma MarkedTables(t: Tables, code: string)
    requires t.WellKeyed()
    ensures
      var t' := t.MarkUsed(code);
      && Older(t, t') && t'.WellKeyed() && t'.codes.Keys == t.codes.Keys && t'.tokens == t.tokens
      && forall c | c in t'.codes :: t'.codes[c].(used := false) == t.codes[c].(used := false)
  {
  }

  lemma DropKeeps(k: Config, s: State, token: string)
    requires StateSound(k, s)
    ensures StateSound(k, Drop(s, token)) && Older(s.tables, Drop(s, token).tables)
  {
    hide LedgerSound;
    TablesKeep(k, s, s.tables.DeleteToken(token));
  }

  lemma UpdateKeeps(k: Config, env: Env, s: State, ph: Phase)
    requires StateSound(k, s) && PhaseSound(k, s.tables, s.ledger, ph)
    requires ph.MarkCode? || ph.DropExpired? || ph.DropRotated? || ph.DropRevoked?
    ensures var (s', ph') := Advance(k, env, s.tables, s, ph); Kept(k, s, s', ph')
  {
    hide StateSound, Older, Grows, Tables.MarkUsed, Tables.DeleteToken;
    NothingChanged(s.tables, s.ledger);
    match ph
    case MarkCode(g, _) => MarkUsedKeeps(k, s, g.code);
    case DropExpired(r) => DropKeeps(k, s, r.token);
    case DropRotated(r, _) => DropKeeps(k, s, r.token);
    case DropRevoked(token) => DropKeeps(k, s, token);
  }

  lemma ReadKeeps(k: Config, env: Env, snap: Tables, s: State, ph: Phase)
    requires StateSound(k, s) && TablesSound(s.ledger, snap) && Older(snap, s.tables)
    requires ph.ReadCode? || ph.ReadToken? || ph.Done?
    ensures var (s', ph') := Advance(k, env, snap, s, ph); Kept(k, s, s', ph')
  {
    hide StateSound, TablesSound, Older, Grows;
    NothingChanged(s.tables, s.ledger);
    if ph.ReadCode? && ph.g.code in snap.codes {
      SnapshotCode(s.ledger, snap, ph.g.code);
    } else if ph.ReadToken? && ph.r.token in snap.tokens {
      SnapshotToken(s.ledger, snap, ph.r.token);
    }
  }

  /**
   * A step of any request, reading any sound snapshot of the past, keeps everything sound and adds to the
   * ledger without altering it.
   */
  lemma StepKeeps(k: Config, env: Env, snap: Tables, s: State, ph: Phase)
    requires StateSound(k, s) && TablesSound(s.ledger, snap) && Older(snap, s.tables)
    requires PhaseSound(k, s.tables, s.ledger, ph) && env.token !in s.ledger.mints
    ensures var (s', ph') := Advance(k, env, snap, s, ph); Kept(k, s, s', ph')
  {
    hide StateSound, TablesSound, Older, Grows, Kept;
    match ph
    case Start(req) => StartKeeps(k, env, snap, s, req);
    case CheckUser(p, login) => CheckUserKeeps(k, snap, s, p, login);
    case InsertCode(p, login, u) => InsertCodeKeeps(k, env, s, p, login, u);
    case ReadCodeUser(g, row) => CodeUserKeeps(k, env, snap, s, g, row);
    case InsertFirst(g, row, u, jwt) => InsertFirstKeeps(k, env, s, g, row, u, jwt);
    case ReadTokenUser(r, stored) => TokenUserKeeps(k, env, snap, s, r, stored);
    case InsertNext(r, stored, u, jwt) => InsertNextKeeps(k, env, s, r, stored, u, jwt);
    case _ =>
      if ph.ReadCode? || ph.ReadToken? || ph.Done? {
        ReadKeeps(k, env, snap, s, ph);
      } else {
        UpdateKeeps(k, env, s, ph);
      }
  }
}

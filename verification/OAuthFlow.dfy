/**
 * The OAuth service as a small-step machine: a request advances through phases, and between two phases
 * it has awaited one statement on the database. Reads go to a snapshot, writes to the current tables.
 */
module OAuthFlow {
  import opened Wrappers
  import opened Text
  import opened Scopes
  import opened AuthTables
  import opened TokenService
  import opened Errors

  datatype AuthorizeParams = AuthorizeParams(
    responseType: string, clientId: string, redirectUri: string, scope: string, state: string,
    challenge: string, challengeMethod: string)

  datatype Login = Login(email: string, password: string)

  datatype TokenRequest = TokenRequest(
    grantType: string, code: Option<string>, redirectUri: Option<string>, clientId: string,
    clientSecret: string, verifier: Option<string>, refreshToken: Option<string>, scope: Option<string>)

  datatype Request =
    | Register(email: string, password: string)
    | RegisterClient(name: string, redirectUri: string, scopes: string)
    | Authorize(params: AuthorizeParams, login: Login)
    | Token(req: TokenRequest)
    | Revoke(token: string, clientId: string, clientSecret: string)

  datatype TokenResponse = TokenResponse(
    accessToken: string, refreshToken: Option<string>, expiresIn: int, scope: string)

  datatype Reply =
    | UserRegistered(id: int, email: string)
    | ClientRegistered(clientId: string, secret: string, name: string, redirectUri: string, scopes: string)
    | CodeIssued(code: string, state: string)
    | TokenIssued(resp: TokenResponse)
    | Revoked

  type Answer = Result<Reply, Error>

  /** What a step draws from its surroundings: the clock, random strings, and the next user id. */
  datatype Env = Env(
    now: int, code: string, token: string, clientId: string, secret: string, salt: string, userId: int)

  const CODE_TTL := 600

  // ---------------------------------------------------------------- the ledger

  /** An `authorize` that issued a code: the row inserted, the login presented, and when. */
  datatype Grant = Grant(row: AuthCode, login: Login, at: int)

  datatype Source = FromCode(code: string) | FromToken(token: string)

  /** Where a token comes from, the code its chain starts at, and how many refreshes lie in between. */
  datatype Lineage = Lineage(source: Source, code: string, rank: nat)

  datatype Mint = Mint(lineage: Lineage, row: RefreshToken, at: int)

  /** An access token; one issued for client credentials has no lineage. */
  datatype Access = Access(lineage: Option<Lineage>, claims: Claims, jwt: string, at: int)

  /** Everything issued so far. The service never reads it. */
  datatype Ledger = Ledger(grants: map<string, Grant>, mints: map<string, Mint>, access: seq<Access>)
  {
    function LineageFrom(source: Source): Lineage {
      match source
      case FromCode(c) => Lineage(source, c, 0)
      case FromToken(p) =>
        if p in mints then Lineage(source, mints[p].lineage.code, mints[p].lineage.rank + 1)
        else Lineage(source, "", 0)
    }
  }

  const NO_LEDGER := Ledger(map[], map[], [])

  datatype State = State(tables: Tables, ledger: Ledger)

  function RecordGrant(l: Ledger, row: AuthCode, login: Login, now: int): Ledger {
    l.(grants := l.grants[row.code := Grant(row, login, now)])
  }

  function RecordMint(l: Ledger, row: RefreshToken, source: Source, now: int): Ledger {
    l.(mints := l.mints[row.token := Mint(l.LineageFrom(source), row, now)])
  }

  function GrantCode(s: State, row: AuthCode, login: Login, now: int): Result<State, DbError> {
    match s.tables.InsertCode(row)
    case Failure(e) => Failure(e)
    case Success(t) => Success(State(t, RecordGrant(s.ledger, row, login, now)))
  }

  function MintToken(s: State, row: RefreshToken, source: Source, now: int): Result<State, DbError> {
    match s.tables.InsertToken(row)
    case Failure(e) => Failure(e)
    case Success(t) => Success(State(t, RecordMint(s.ledger, row, source, now)))
  }

  function LogAccess(l: Ledger, source: Option<Source>, claims: Claims, jwt: string, now: int): Ledger {
    var lineage := if source.Some? then Some(l.LineageFrom(source.value)) else None;
    l.(access := l.access + [Access(lineage, claims, jwt, now)])
  }

  // ---------------------------------------------------------------- checks

  function FromDb(e: DbError): Error {
    if e.RowNotFound? then NotFound else InternalError("database error")
  }

  function LookupClient(t: Tables, clientId: string): Result<OAuthClient, Error> {
    match t.FindClient(clientId)
    case None => Failure(InvalidClient("Client not found"))
    case Some(c) => Success(c)
  }

  function CheckSecret(k: Config, secret: string, stored: string): Result<(), Error> {
    match k.verifyPassword(secret, stored)
    case Match => Success(())
    case Mismatch => Failure(InvalidClient("Client authentication failed"))
    case Unparsable => Failure(InternalError("Hash parse error"))
  }

  function AuthenticateClient(k: Config, t: Tables, clientId: string, secret: string): Result<OAuthClient, Error> {
    match LookupClient(t, clientId)
    case Failure(e) => Failure(e)
    case Success(c) =>
      match CheckSecret(k, secret, c.secretHash)
      case Failure(e) => Failure(e)
      case Success(_) => Success(c)
  }

  function CheckLogin(k: Config, t: Tables, login: Login): Result<AuthUser, Error> {
    match t.FindUserByEmail(login.email)
    case None => Failure(Unauthorized("Invalid credentials"))
    case Some(u) =>
      match k.verifyPassword(login.password, u.passwordHash)
      case Match => Success(u)
      case Mismatch => Failure(Unauthorized("Invalid credentials"))
      case Unparsable => Failure(InternalError("Hash parse error"))
  }

  function CheckAuthorize(t: Tables, p: AuthorizeParams): Result<OAuthClient, Error> {
    if p.responseType != "code" then Failure(InvalidRequest("response_type must be 'code'"))
    else if p.challengeMethod != "S256" then Failure(InvalidRequest("code_challenge_method must be 'S256'"))
    else
      match LookupClient(t, p.clientId)
      case Failure(e) => Failure(e)
      case Success(c) =>
        if c.redirectUri != p.redirectUri then Failure(InvalidRequest("redirect_uri mismatch"))
        else if !Allowed(p.scope, c.scopes) then Failure(InvalidRequest("Scope not allowed"))
        else Success(c)
  }

  /** The parameters of a code exchange, once they are known to be present. */
  datatype CodeGrant = CodeGrant(code: string, redirectUri: string, verifier: string, clientId: string)

  datatype RefreshGrant = RefreshGrant(token: string, clientId: string)

  function ParseCodeGrant(r: TokenRequest): Result<CodeGrant, Error> {
    if r.code.None? then Failure(InvalidRequest("Missing 'code'"))
    else if r.redirectUri.None? then Failure(InvalidRequest("Missing 'redirect_uri'"))
    else if r.verifier.None? then Failure(InvalidRequest("Missing 'code_verifier'"))
    else Success(CodeGrant(r.code.value, r.redirectUri.value, r.verifier.value, r.clientId))
  }

  function ParseRefreshGrant(r: TokenRequest): Result<RefreshGrant, Error> {
    if r.refreshToken.None? then Failure(InvalidRequest("Missing 'refresh_token'"))
    else Success(RefreshGrant(r.refreshToken.value, r.clientId))
  }

  function CheckCode(k: Config, now: int, g: CodeGrant, row: AuthCode): Result<(), Error> {
    if row.used then Failure(InvalidGrant("Authorization code already used"))
    else if row.expiresAt < now then Failure(InvalidGrant("Authorization code expired"))
    else if row.clientId != g.clientId then Failure(InvalidGrant("client_id mismatch"))
    else if row.redirectUri != g.redirectUri then Failure(InvalidGrant("redirect_uri mismatch"))
    else if k.challengeOf(g.verifier) != row.challenge then Failure(InvalidGrant("PKCE verification failed"))
    else Success(())
  }

  function NewCode(now: int, code: string, p: AuthorizeParams, u: AuthUser): AuthCode {
    AuthCode(code, p.clientId, u.id, p.redirectUri, p.scope, p.challenge, p.challengeMethod, now + CODE_TTL, false)
  }

  function NewToken(k: Config, now: int, token: string, clientId: string, userId: int, scopes: string): RefreshToken {
    RefreshToken(token, clientId, userId, scopes, now + k.RefreshTtl())
  }

  function UserClaims(k: Config, now: int, u: AuthUser, clientId: string, scopes: string): Claims {
    AccessClaims(now, IntToString(u.id), Some(u.email), clientId, scopes, k.accessTtlSecs)
  }

  function ClientClaims(k: Config, now: int, clientId: string, scopes: string): Claims {
    AccessClaims(now, clientId, None, clientId, scopes, k.accessTtlSecs)
  }

  function Issued(k: Config, jwt: string, refresh: Option<string>, scope: string): Answer {
    Success(TokenIssued(TokenResponse(jwt, refresh, k.accessTtlSecs, scope)))
  }

  // ---------------------------------------------------------------- phases

  /** Where a request stands. Each phase holds what the request has in its local variables. */
  datatype Phase =
    | Start(req: Request)
    | CheckUser(params: AuthorizeParams, login: Login)
    | InsertCode(params: AuthorizeParams, login: Login, user: AuthUser)
    | ReadCode(g: CodeGrant)
    | MarkCode(g: CodeGrant, row: AuthCode)
    | ReadCodeUser(g: CodeGrant, row: AuthCode)
    | InsertFirst(g: CodeGrant, row: AuthCode, user: AuthUser, jwt: string)
    | ReadToken(r: RefreshGrant)
    | DropExpired(r: RefreshGrant)
    | DropRotated(r: RefreshGrant, stored: RefreshToken)
    | ReadTokenUser(r: RefreshGrant, stored: RefreshToken)
    | InsertNext(r: RefreshGrant, stored: RefreshToken, user: AuthUser, jwt: string)
    | DropRevoked(token: string)
    | Done(answer: Answer)
  {
    /** An upper bound on the phases still to come. */
    function Remaining(): nat {
      match this
      case Start(_) => 6
      case ReadCode(_) | ReadToken(_) => 5
      case MarkCode(_, _) | DropExpired(_) | DropRotated(_, _) => 4
      case ReadCodeUser(_, _) | ReadTokenUser(_, _) => 3
      case CheckUser(_, _) => 3
      case InsertCode(_, _, _) | InsertFirst(_, _, _, _) | InsertNext(_, _, _, _) | DropRevoked(_) => 2
      case Done(_) => 0
    }
  }

  function Fail(e: Error): Phase { Done(Failure(e)) }

  function StartRegister(k: Config, env: Env, s: State, email: string, password: string): (State, Phase) {
    if Utf8Length(password) < 8 then (s, Fail(InvalidRequest("Password must be at least 8 characters")))
    else
      match k.hashPassword(password, env.salt)
      case None => (s, Fail(InternalError("Hash error")))
      case Some(hash) =>
        match s.tables.InsertUser(AuthUser(env.userId, email, hash))
        case Failure(e) => (s, Fail(if e.UniqueViolation? then Conflict("Email already registered") else FromDb(e)))
        case Success(t) => (s.(tables := t), Done(Success(UserRegistered(env.userId, email))))
  }

  function StartRegisterClient(k: Config, env: Env, s: State, name: string, redirectUri: string, scopes: string)
    : (State, Phase)
  {
    match k.hashPassword(env.secret, env.salt)
    case None => (s, Fail(InternalError("Hash error")))
    case Some(hash) =>
      match s.tables.InsertClient(OAuthClient(env.clientId, hash, name, redirectUri, scopes))
      case Failure(e) => (s, Fail(FromDb(e)))
      case Success(t) =>
        (s.(tables := t), Done(Success(ClientRegistered(env.clientId, env.secret, name, redirectUri, scopes))))
  }

  function StartCodeGrant(k: Config, snap: Tables, r: TokenRequest): Phase {
    match ParseCodeGrant(r)
    case Failure(e) => Fail(e)
    case Success(g) =>
      match AuthenticateClient(k, snap, r.clientId, r.clientSecret)
      case Failure(e) => Fail(e)
      case Success(_) => ReadCode(g)
  }

  function StartRefreshGrant(k: Config, snap: Tables, r: TokenRequest): Phase {
    match ParseRefreshGrant(r)
    case Failure(e) => Fail(e)
    case Success(g) =>
      match AuthenticateClient(k, snap, r.clientId, r.clientSecret)
      case Failure(e) => Fail(e)
      case Success(_) => ReadToken(g)
  }

  function StartClientGrant(k: Config, env: Env, snap: Tables, s: State, r: TokenRequest): (State, Phase) {
    var scope := if r.scope.Some? then r.scope.value else "read";
    match AuthenticateClient(k, snap, r.clientId, r.clientSecret)
    case Failure(e) => (s, Fail(e))
    case Success(c) =>
      if !Allowed(scope, c.scopes) then (s, Fail(InvalidRequest("Scope not allowed")))
      else
        var claims := ClientClaims(k, env.now, r.clientId, scope);
        match k.encode(claims, k.jwtSecret)
        case None => (s, Fail(InternalError("JWT error")))
        case Some(jwt) =>
          (s.(ledger := LogAccess(s.ledger, None, claims, jwt, env.now)), Done(Issued(k, jwt, None, scope)))
  }

  function StartToken(k: Config, env: Env, snap: Tables, s: State, r: TokenRequest): (State, Phase) {
    if r.grantType == "authorization_code" then (s, StartCodeGrant(k, snap, r))
    else if r.grantType == "client_credentials" then StartClientGrant(k, env, snap, s, r)
    else if r.grantType == "refresh_token" then (s, StartRefreshGrant(k, snap, r))
    else (s, Fail(InvalidRequest("Unsupported grant_type")))
  }

  function AtStart(k: Config, env: Env, snap: Tables, s: State, req: Request): (r: (State, Phase))
    ensures r.1.Remaining() < 6
  {
    match req
    case Register(email, password) => StartRegister(k, env, s, email, password)
    case RegisterClient(name, uri, scopes) => StartRegisterClient(k, env, s, name, uri, scopes)
    case Authorize(p, login) =>
      (match CheckAuthorize(snap, p)
       case Failure(e) => (s, Fail(e))
       case Success(_) => (s, CheckUser(p, login)))
    case Token(req) => StartToken(k, env, snap, s, req)
    case Revoke(token, clientId, secret) =>
      match AuthenticateClient(k, snap, clientId, secret)
      case Failure(e) => (s, Fail(e))
      case Success(_) => (s, DropRevoked(token))
  }

  function AtCheckUser(k: Config, snap: Tables, s: State, p: AuthorizeParams, login: Login): (r: (State, Phase))
    ensures r.1.Remaining() < 3
  {
    match CheckLogin(k, snap, login)
    case Failure(e) => (s, Fail(e))
    case Success(u) => (s, InsertCode(p, login, u))
  }

  function AtInsertCode(env: Env, s: State, p: AuthorizeParams, login: Login, u: AuthUser): (r: (State, Phase))
    ensures r.1.Remaining() < 2
  {
    match GrantCode(s, NewCode(env.now, env.code, p, u), login, env.now)
    case Failure(e) => (s, Fail(FromDb(e)))
    case Success(s') => (s', Done(Success(CodeIssued(env.code, p.state))))
  }

  function AtReadCode(k: Config, env: Env, snap: Tables, s: State, g: CodeGrant): (r: (State, Phase))
    ensures r.1.Remaining() < 5
  {
    match snap.FindCode(g.code)
    case None => (s, Fail(InvalidGrant("Invalid authorization code")))
    case Some(row) =>
      match CheckCode(k, env.now, g, row)
      case Failure(e) => (s, Fail(e))
      case Success(_) => (s, MarkCode(g, row))
  }

  function AtReadCodeUser(k: Config, env: Env, snap: Tables, s: State, g: CodeGrant, row: AuthCode): (r: (State, Phase))
    ensures r.1.Remaining() < 3
  {
    match snap.FindUser(row.userId)
    case None => (s, Fail(NotFound))
    case Some(u) =>
      var claims := UserClaims(k, env.now, u, g.clientId, row.scopes);
      match k.encode(claims, k.jwtSecret)
      case None => (s, Fail(InternalError("JWT error")))
      case Some(jwt) =>
        (s.(ledger := LogAccess(s.ledger, Some(FromCode(g.code)), claims, jwt, env.now)), InsertFirst(g, row, u, jwt))
  }

  function AtInsertFirst(
    k: Config, env: Env, s: State, g: CodeGrant, row: AuthCode, u: AuthUser, jwt: string): (r: (State, Phase))
    ensures r.1.Remaining() < 2
  {
    match MintToken(s, NewToken(k, env.now, env.token, g.clientId, u.id, row.scopes), FromCode(g.code), env.now)
    case Failure(e) => (s, Fail(FromDb(e)))
    case Success(s') => (s', Done(Issued(k, jwt, Some(env.token), row.scopes)))
  }

  function AtReadToken(env: Env, snap: Tables, s: State, r: RefreshGrant): (p: (State, Phase))
    ensures p.1.Remaining() < 5
  {
    match snap.FindToken(r.token)
    case None => (s, Fail(InvalidGrant("Invalid refresh token")))
    case Some(row) =>
      if row.expiresAt < env.now then (s, DropExpired(r))
      else if row.clientId != r.clientId then (s, Fail(InvalidGrant("client_id mismatch")))
      else (s, DropRotated(r, row))
  }

  function AtReadTokenUser(
    k: Config, env: Env, snap: Tables, s: State, r: RefreshGrant, stored: RefreshToken): (p: (State, Phase))
    ensures p.1.Remaining() < 3
  {
    match snap.FindUser(stored.userId)
    case None => (s, Fail(NotFound))
    case Some(u) =>
      var claims := UserClaims(k, env.now, u, r.clientId, stored.scopes);
      match k.encode(claims, k.jwtSecret)
      case None => (s, Fail(InternalError("JWT error")))
      case Some(jwt) =>
        (s.(ledger := LogAccess(s.ledger, Some(FromToken(r.token)), claims, jwt, env.now)), InsertNext(r, stored, u, jwt))
  }

  function AtInsertNext(
    k: Config, env: Env, s: State, r: RefreshGrant, stored: RefreshToken, u: AuthUser, jwt: string): (p: (State, Phase))
    ensures p.1.Remaining() < 2
  {
    match MintToken(s, NewToken(k, env.now, env.token, r.clientId, u.id, stored.scopes), FromToken(r.token), env.now)
    case Failure(e) => (s, Fail(FromDb(e)))
    case Success(s') => (s', Done(Issued(k, jwt, Some(env.token), stored.scopes)))
  }

  function Drop(s: State, token: string): State {
    s.(tables := s.tables.DeleteToken(token))
  }

  /** One phase of one request: reads see `snap`, writes go to `s`. */
  function Advance(k: Config, env: Env, snap: Tables, s: State, ph: Phase): (r: (State, Phase))
    ensures !ph.Done? ==> r.1.Remaining() < ph.Remaining()
  {
    match ph
    case Start(req) => AtStart(k, env, snap, s, req)
    case CheckUser(p, login) => AtCheckUser(k, snap, s, p, login)
    case InsertCode(p, login, u) => AtInsertCode(env, s, p, login, u)
    case ReadCode(g) => AtReadCode(k, env, snap, s, g)
    case MarkCode(g, row) => (s.(tables := s.tables.MarkUsed(g.code)), ReadCodeUser(g, row))
    case ReadCodeUser(g, row) => AtReadCodeUser(k, env, snap, s, g, row)
    case InsertFirst(g, row, u, jwt) => AtInsertFirst(k, env, s, g, row, u, jwt)
    case ReadToken(r) => AtReadToken(env, snap, s, r)
    case DropExpired(r) => (Drop(s, r.token), Fail(InvalidGrant("Refresh token expired")))
    case DropRotated(r, stored) => (Drop(s, r.token), ReadTokenUser(r, stored))
    case ReadTokenUser(r, stored) => AtReadTokenUser(k, env, snap, s, r, stored)
    case InsertNext(r, stored, u, jwt) => AtInsertNext(k, env, s, r, stored, u, jwt)
    case DropRevoked(token) => (Drop(s, token), Done(Success(Revoked)))
    case Done(_) => (s, ph)
  }

  /** A request that runs alone from the phase given: every read is up to date. */
  function Drive(k: Config, env: Env, s: State, ph: Phase): (State, Answer)
    decreases ph.Remaining()
  {
    if ph.Done? then (s, ph.answer)
    else
      var (s', ph') := Advance(k, env, s.tables, s, ph);
      Drive(k, env, s', ph')
  }

  /** One unfolding of `Drive`, for proofs that follow a request phase by phase. */
  lemma DriveStep(k: Config, env: Env, s: State, ph: Phase)
    requires !ph.Done?
    ensures
      var (s', ph') := Advance(k, env, s.tables, s, ph);
      && Drive(k, env, s, ph) == Drive(k, env, s', ph')
      && (ph'.Done? ==> Drive(k, env, s, ph) == (s', ph'.answer))
  {
  }

  /** Only a code or refresh exchange goes past its first phase with anything to remember. */
  lemma StartPhases(k: Config, env: Env, snap: Tables, s: State, req: Request)
    ensures
      var ph := AtStart(k, env, snap, s, req).1;
      ph.Done? || ph.CheckUser? || ph.ReadCode? || ph.ReadToken? || ph.DropRevoked?
  {
    hide AuthenticateClient, CheckAuthorize, ClientClaims, LogAccess;
  }
}

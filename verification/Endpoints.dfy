/**
 * What each request needs to succeed, and what it then leaves, with up-to-date reads: flat conditions on
 * the tables and the parameters, and the round trip from `authorize` through exchange to refresh.
 */
module Endpoints {
  import opened Wrappers
  import opened Text
  import opened Scopes
  import opened AuthTables
  import opened TokenService
  import opened OAuthFlow
  import opened Errors
  import opened Provenance
  import opened AtomicRuns
  import Failures

  /** The client is registered and its secret verifies. */
  predicate Authentic(k: Config, t: Tables, clientId: string, secret: string) {
    clientId in t.clients && k.verifyPassword(secret, t.clients[clientId].secretHash) == Match
  }

  lemma AuthenticIff(k: Config, t: Tables, clientId: string, secret: string)
    ensures AuthenticateClient(k, t, clientId, secret).Success? <==> Authentic(k, t, clientId, secret)
    ensures Authentic(k, t, clientId, secret) ==>
              AuthenticateClient(k, t, clientId, secret) == Success(t.clients[clientId])
  {
  }

  // ---------------------------------------------------------------- registration

  /** A hash verifies the text it was made from. */
  ghost predicate HashesVerify(k: Config) {
    forall text: string, salt: string ::
      k.hashPassword(text, salt).Some? ==> k.verifyPassword(text, k.hashPassword(text, salt).value) == Match
  }

  /** The row of a new client, column by column, and the reply, which alone shows the secret. */
  lemma RegisterClientIff(k: Config, s: State, env: Env, name: string, redirectUri: string, scopes: string)
    ensures
      var (s', a) := Serve(k, s, Call(env, Request.RegisterClient(name, redirectUri, scopes)));
      var hash := k.hashPassword(env.secret, env.salt);
      if hash.Some? && env.clientId !in s.tables.clients then
        && a == Success(ClientRegistered(env.clientId, env.secret, name, redirectUri, scopes))
        && s'.ledger == s.ledger && env.clientId in s'.tables.clients
        && s'.tables == s.tables.(clients := s.tables.clients[env.clientId := s'.tables.clients[env.clientId]])
        && var row := s'.tables.clients[env.clientId];
           && row.clientId == env.clientId && row.secretHash == hash.value && row.name == name
           && row.redirectUri == redirectUri && row.scopes == scopes
      else a.Failure? && a.error.InternalError? && s' == s
  {
    hide Drive;
    DriveStep(k, env, s, Start(Request.RegisterClient(name, redirectUri, scopes)));
  }

  /**
   * Round trip: the returned secret authenticates the client, which may then be authorized for exactly the
   * redirect URI it registered, and for itself or a user to exactly the scopes it registered.
   */
  lemma RegisterClientThenUse(
    k: Config, s: State, env: Env, name: string, redirectUri: string, scopes: string, p: AuthorizeParams, login: Login,
    r: TokenRequest)
    requires HashesVerify(k) && k.hashPassword(env.secret, env.salt).Some? && env.clientId !in s.tables.clients
    requires p.clientId == env.clientId && p.responseType == "code" && p.challengeMethod == "S256"
    requires r.clientId == env.clientId && r.clientSecret == env.secret
    ensures
      var t := Serve(k, s, Call(env, Request.RegisterClient(name, redirectUri, scopes))).0.tables;
      && Authentic(k, t, env.clientId, env.secret)
      && (MayAuthorize(k, t, p, login) <==>
            p.redirectUri == redirectUri && Allowed(p.scope, scopes) && LogsIn(k, s.tables, login))
      && (MayActAlone(k, t, r) <==> Allowed(if r.scope.Some? then r.scope.value else "read", scopes))
  {
    RegisterClientIff(k, s, env, name, redirectUri, scopes);
    hide Serve, Allowed;
  }

  /** The address is a user's and the password is that user's. */
  predicate LogsIn(k: Config, t: Tables, login: Login) {
    && login.email in t.emails && t.emails[login.email] in t.users
    && k.verifyPassword(login.password, t.users[t.emails[login.email]].passwordHash) == Match
  }

  /** The row of a new user, and how a registration is refused. */
  lemma RegisterIff(k: Config, s: State, env: Env, email: string, password: string)
    ensures
      var (s', a) := Serve(k, s, Call(env, Request.Register(email, password)));
      var hash := k.hashPassword(password, env.salt);
      if Utf8Length(password) < 8 then a.Failure? && a.error.InvalidRequest? && s' == s
      else if hash.None? then a.Failure? && a.error.InternalError? && s' == s
      else if email in s.tables.emails || env.userId in s.tables.users then a.Failure? && a.error.Conflict? && s' == s
      else
        && a == Success(UserRegistered(env.userId, email)) && s'.ledger == s.ledger
        && s'.tables == s.tables.(users := s'.tables.users, emails := s.tables.emails[email := env.userId])
        && env.userId in s'.tables.users && s'.tables.users == s.tables.users[env.userId := s'.tables.users[env.userId]]
        && var row := s'.tables.users[env.userId];
           row.id == env.userId && row.email == email && row.passwordHash == hash.value
  {
    hide Drive, Utf8Length;
    DriveStep(k, env, s, Start(Request.Register(email, password)));
  }

  /** Round trip: the password registered, and the address, are the ones that log in afterwards. */
  lemma RegisterThenLogIn(k: Config, s: State, env: Env, email: string, password: string, other: string)
    requires HashesVerify(k) && k.hashPassword(password, env.salt).Some? && Utf8Length(password) >= 8
    requires email !in s.tables.emails && env.userId !in s.tables.users
    ensures
      var t := Serve(k, s, Call(env, Request.Register(email, password))).0.tables;
      && CheckLogin(k, t, Login(email, password)).Success?
      && CheckLogin(k, t, Login(email, password)).value.id == env.userId
      && (CheckLogin(k, t, Login(email, other)).Success? <==>
            k.verifyPassword(other, k.hashPassword(password, env.salt).value) == Match)
  {
    RegisterIff(k, s, env, email, password);
    hide Serve, Utf8Length;
  }

  // ---------------------------------------------------------------- how requests are refused

  /** An unknown client and a wrong secret are both `InvalidClient`. */
  ghost predicate ClientRefused(k: Config, t: Tables, clientId: string, secret: string, e: Error) {
    if clientId !in t.clients || k.verifyPassword(secret, t.clients[clientId].secretHash) == Mismatch
    then e.InvalidClient? else e.InternalError?
  }

  lemma ClientRefusal(k: Config, t: Tables, clientId: string, secret: string)
    requires !Authentic(k, t, clientId, secret)
    ensures
      var r := AuthenticateClient(k, t, clientId, secret);
      r.Failure? && ClientRefused(k, t, clientId, secret, r.error)
  {
  }

  lemma AuthorizeRefusal(k: Config, s: State, env: Env, p: AuthorizeParams, login: Login)
    requires s.tables.WellKeyed() && (!MayAuthorize(k, s.tables, p, login) || env.code in s.tables.codes)
    ensures
      var (s', a) := Serve(k, s, Call(env, Authorize(p, login)));
      && s' == s && a.Failure?
      && if p.responseType != "code" || p.challengeMethod != "S256" then a.error.InvalidRequest?
         else if p.clientId !in s.tables.clients then a.error.InvalidClient?
         else
           var client := s.tables.clients[p.clientId];
           if client.redirectUri != p.redirectUri || !Allowed(p.scope, client.scopes) then a.error.InvalidRequest?
           else if login.email !in s.tables.emails then a.error.Unauthorized?
           else
             match k.verifyPassword(login.password, s.tables.users[s.tables.emails[login.email]].passwordHash)
             case Mismatch => a.error.Unauthorized?
             case _ => a.error.InternalError?
  {
    hide Drive, Allowed;
    DriveStep(k, env, s, Start(Authorize(p, login)));
    if CheckAuthorize(s.tables, p).Success? {
      DriveStep(k, env, s, CheckUser(p, login));
      var user := CheckLogin(k, s.tables, login);
      if user.Success? {
        assert user.value.id == s.tables.emails[login.email];
        hide Tables.WellKeyed;
        DriveStep(k, env, s, InsertCode(p, login, user.value));
      }
    }
  }

  lemma ExchangeRefusal(k: Config, s: State, env: Env, r: TokenRequest)
    requires r.grantType == "authorization_code" && !MayExchange(k, s.tables, r, env.now)
    ensures
      var (s', a) := Serve(k, s, Call(env, Request.Token(r)));
      && s' == s && a.Failure?
      && if r.code.None? || r.redirectUri.None? || r.verifier.None? then a.error.InvalidRequest?
         else if !Authentic(k, s.tables, r.clientId, r.clientSecret)
         then ClientRefused(k, s.tables, r.clientId, r.clientSecret, a.error)
         else a.error.InvalidGrant?
  {
    hide Drive, AuthenticateClient, Authentic, ClientRefused;
    DriveStep(k, env, s, Start(Request.Token(r)));
    AuthenticIff(k, s.tables, r.clientId, r.clientSecret);
    if !Authentic(k, s.tables, r.clientId, r.clientSecret) {
      ClientRefusal(k, s.tables, r.clientId, r.clientSecret);
    } else if ParseCodeGrant(r).Success? {
      DriveStep(k, env, s, ReadCode(ParseCodeGrant(r).value));
    }
  }

  lemma RefreshRefusal(k: Config, s: State, env: Env, r: TokenRequest)
    requires r.grantType == "refresh_token" && !MayRefresh(k, s.tables, r, env.now)
    ensures
      var a := Serve(k, s, Call(env, Request.Token(r))).1;
      && a.Failure?
      && if r.refreshToken.None? then a.error.InvalidRequest?
         else if !Authentic(k, s.tables, r.clientId, r.clientSecret)
         then ClientRefused(k, s.tables, r.clientId, r.clientSecret, a.error)
         else a.error.InvalidGrant?
  {
    hide Drive, AuthenticateClient, Authentic, ClientRefused;
    DriveStep(k, env, s, Start(Request.Token(r)));
    AuthenticIff(k, s.tables, r.clientId, r.clientSecret);
    if !Authentic(k, s.tables, r.clientId, r.clientSecret) {
      ClientRefusal(k, s.tables, r.clientId, r.clientSecret);
    } else if ParseRefreshGrant(r).Success? {
      var g := ParseRefreshGrant(r).value;
      DriveStep(k, env, s, ReadToken(g));
      DriveStep(k, env, s, DropExpired(g));
    }
  }

  lemma ClientCredentialsRefusal(k: Config, s: State, env: Env, r: TokenRequest)
    requires r.grantType == "client_credentials" && !MayActAlone(k, s.tables, r)
    ensures
      var (s', a) := Serve(k, s, Call(env, Request.Token(r)));
      && s' == s && a.Failure?
      && if !Authentic(k, s.tables, r.clientId, r.clientSecret)
         then ClientRefused(k, s.tables, r.clientId, r.clientSecret, a.error)
         else a.error.InvalidRequest?
  {
    hide Drive, AuthenticateClient, ClientRefused, Allowed;
    DriveStep(k, env, s, Start(Request.Token(r)));
    AuthenticIff(k, s.tables, r.clientId, r.clientSecret);
    if !Authentic(k, s.tables, r.clientId, r.clientSecret) {
      ClientRefusal(k, s.tables, r.clientId, r.clientSecret);
    }
  }

  lemma RevokeRefusal(k: Config, s: State, env: Env, token: string, clientId: string, secret: string)
    requires !Authentic(k, s.tables, clientId, secret)
    ensures
      var (s', a) := Serve(k, s, Call(env, Request.Revoke(token, clientId, secret)));
      s' == s && a.Failure? && ClientRefused(k, s.tables, clientId, secret, a.error)
  {
    hide Drive, AuthenticateClient, ClientRefused;
    DriveStep(k, env, s, Start(Request.Revoke(token, clientId, secret)));
    ClientRefusal(k, s.tables, clientId, secret);
  }

  /** There are three grant types; any other is refused before anything is looked at. */
  lemma OtherGrantRefused(k: Config, s: State, env: Env, r: TokenRequest)
    requires r.grantType != "authorization_code" && r.grantType != "client_credentials" && r.grantType != "refresh_token"
    ensures
      var (s', a) := Serve(k, s, Call(env, Request.Token(r)));
      s' == s && a.Failure? && a.error.InvalidRequest?
  {
    hide Drive;
    DriveStep(k, env, s, Start(Request.Token(r)));
  }

  // ---------------------------------------------------------------- authorize

  predicate MayAuthorize(k: Config, t: Tables, p: AuthorizeParams, login: Login) {
    && p.responseType == "code" && p.challengeMethod == "S256"
    && p.clientId in t.clients && t.clients[p.clientId].redirectUri == p.redirectUri
    && Allowed(p.scope, t.clients[p.clientId].scopes)
    && login.email in t.emails && t.emails[login.email] in t.users
    && k.verifyPassword(login.password, t.users[t.emails[login.email]].passwordHash) == Match
  }

  /** The row that an `authorize` inserts. */
  predicate IsNewCode(row: AuthCode, code: string, p: AuthorizeParams, userId: int, now: int) {
    && row.code == code && row.clientId == p.clientId && row.userId == userId && row.redirectUri == p.redirectUri
    && row.scopes == p.scope && row.challenge == p.challenge && row.challengeMethod == "S256"
    && row.expiresAt == now + 600 && !row.used
  }

  ghost predicate Authorized(s: State, env: Env, p: AuthorizeParams, login: Login, s': State, a: Answer) {
    && a == Success(CodeIssued(env.code, p.state))
    && env.code in s'.tables.codes
    && s'.tables == s.tables.(codes := s.tables.codes[env.code := s'.tables.codes[env.code]])
    && login.email in s.tables.emails
    && IsNewCode(s'.tables.codes[env.code], env.code, p, s.tables.emails[login.email], env.now)
  }

  lemma CodeIsInserted(k: Config, s: State, env: Env, p: AuthorizeParams, login: Login, u: AuthUser)
    requires env.code !in s.tables.codes && u.id in s.tables.users && p.challengeMethod == "S256"
    requires login.email in s.tables.emails && s.tables.emails[login.email] == u.id
    ensures
      var (s', a) := Drive(k, env, s, InsertCode(p, login, u));
      Authorized(s, env, p, login, s', a)
  {
    hide Drive;
    DriveStep(k, env, s, InsertCode(p, login, u));
  }

  lemma AuthorizeIff(k: Config, s: State, env: Env, p: AuthorizeParams, login: Login)
    requires s.tables.WellKeyed() && env.code !in s.tables.codes
    ensures
      var (s', a) := Serve(k, s, Call(env, Authorize(p, login)));
      if MayAuthorize(k, s.tables, p, login) then Authorized(s, env, p, login, s', a) else a.Failure? && s' == s
  {
    hide Drive, Allowed, Authorized;
    DriveStep(k, env, s, Start(Authorize(p, login)));
    if CheckAuthorize(s.tables, p).Success? {
      DriveStep(k, env, s, CheckUser(p, login));
      var user := CheckLogin(k, s.tables, login);
      if user.Success? {
        assert user.value.id == s.tables.emails[login.email];
        CodeIsInserted(k, s, env, p, login, user.value);
      }
    }
  }

  // ---------------------------------------------------------------- exchange of a code

  predicate MayExchange(k: Config, t: Tables, r: TokenRequest, now: int) {
    && r.code.Some? && r.redirectUri.Some? && r.verifier.Some?
    && Authentic(k, t, r.clientId, r.clientSecret)
    && r.code.value in t.codes
    && var row := t.codes[r.code.value];
       && !row.used && now <= row.expiresAt && row.clientId == r.clientId
       && row.redirectUri == r.redirectUri.value && row.challenge == k.challengeOf(r.verifier.value)
  }

  /** A reply with an access token that carries these claims. */
  ghost predicate Replies(
    k: Config, a: Answer, now: int, sub: string, email: Option<string>, clientId: string, scopes: string,
    refresh: Option<string>)
  {
    && a.Success? && a.value.TokenIssued?
    && var resp := a.value.resp;
       && resp.scope == scopes && resp.refreshToken == refresh && resp.expiresIn == k.accessTtlSecs
       && exists c :: Carries(c, now, sub, email, clientId, scopes, k.accessTtlSecs)
                      && k.encode(c, k.jwtSecret) == Some(resp.accessToken)
  }

  ghost predicate Exchanged(k: Config, s: State, env: Env, code: string, s': State, a: Answer) {
    && code in s.tables.codes
    && var row := s.tables.codes[code];
       && row.userId in s.tables.users
       && var email := s.tables.users[row.userId].email;
          && Replies(k, a, env.now, IntToString(row.userId), Some(email), row.clientId, row.scopes, Some(env.token))
          && s'.tables == s.tables.(
               codes := s.tables.codes[code := row.(used := true)],
               tokens := s.tables.tokens[env.token :=
                 RefreshToken(env.token, row.clientId, row.userId, row.scopes, env.now + k.refreshTtlDays * 86400)])
  }

  lemma ExchangeStarts(k: Config, s: State, env: Env, r: TokenRequest)
    requires r.grantType == "authorization_code"
    ensures
      var (s', ph) := AtStart(k, env, s.tables, s, Request.Token(r));
      && s' == s
      && (ph.ReadCode? <==>
            r.code.Some? && r.redirectUri.Some? && r.verifier.Some? && Authentic(k, s.tables, r.clientId, r.clientSecret))
      && (ph.ReadCode? ==> ph.g == CodeGrant(r.code.value, r.redirectUri.value, r.verifier.value, r.clientId))
      && (!ph.ReadCode? ==> ph.Done? && ph.answer.Failure?)
  {
    AuthenticIff(k, s.tables, r.clientId, r.clientSecret);
    hide AuthenticateClient, Authentic;
  }

  /** Once the code is marked, the tokens are issued. */
  lemma FirstTokensIssued(k: Config, s: State, env: Env, g: CodeGrant, row: AuthCode)
    requires k.EncodeTotal() && env.token !in s.tables.tokens
    requires row.userId in s.tables.users && s.tables.users[row.userId].id == row.userId
    ensures
      var (s', a) := Drive(k, env, s, ReadCodeUser(g, row));
      && Replies(k, a, env.now, IntToString(row.userId), Some(s.tables.users[row.userId].email), g.clientId, row.scopes,
                 Some(env.token))
      && s'.tables == s.tables.(tokens := s.tables.tokens[env.token :=
           RefreshToken(env.token, g.clientId, row.userId, row.scopes, env.now + k.refreshTtlDays * 86400)])
  {
    hide Drive, IntToString, RecordMint, LogAccess;
    DriveStep(k, env, s, ReadCodeUser(g, row));
    var claims := UserClaims(k, env.now, s.tables.users[row.userId], g.clientId, row.scopes);
    assert k.encode(claims, k.jwtSecret).Some?;
    assert Carries(
      claims, env.now, IntToString(row.userId), Some(s.tables.users[row.userId].email), g.clientId, row.scopes, k.accessTtlSecs);
    hide Carries, UserClaims;
    var (s', ph) := AtReadCodeUser(k, env, s.tables, s, g, row);
    DriveStep(k, env, s', ph);
  }

  lemma MarkCodeStep(k: Config, s: State, env: Env, g: CodeGrant, row: AuthCode)
    ensures
      Drive(k, env, s, MarkCode(g, row)) == Drive(k, env, s.(tables := s.tables.MarkUsed(g.code)), ReadCodeUser(g, row))
  {
    hide Drive;
    DriveStep(k, env, s, MarkCode(g, row));
  }

  lemma ExchangeFinishes(k: Config, s: State, env: Env, g: CodeGrant)
    requires s.tables.WellKeyed() && k.EncodeTotal() && env.token !in s.tables.tokens
    requires g.code in s.tables.codes && s.tables.codes[g.code].clientId == g.clientId
    ensures
      var (s', a) := Drive(k, env, s, MarkCode(g, s.tables.codes[g.code]));
      Exchanged(k, s, env, g.code, s', a)
  {
    hide Drive, IntToString, Replies, Config.EncodeTotal, AtStart, AtReadCodeUser, AtInsertFirst;
    var row := s.tables.codes[g.code];
    assert row.userId in s.tables.users && s.tables.users[row.userId].id == row.userId;
    hide Tables.WellKeyed, Advance;
    MarkCodeStep(k, s, env, g, row);
    FirstTokensIssued(k, s.(tables := s.tables.MarkUsed(g.code)), env, g, row);
  }

  lemma ExchangeIff(k: Config, s: State, env: Env, r: TokenRequest)
    requires s.tables.WellKeyed() && k.EncodeTotal() && env.token !in s.tables.tokens
    requires r.grantType == "authorization_code"
    ensures
      var (s', a) := Serve(k, s, Call(env, Request.Token(r)));
      if MayExchange(k, s.tables, r, env.now) then Exchanged(k, s, env, r.code.value, s', a) else a.Failure? && s' == s
  {
    DriveStep(k, env, s, Start(Request.Token(r)));
    ExchangeStarts(k, s, env, r);
    hide AtStart, Drive, Exchanged, Authentic, Tables.WellKeyed, Config.EncodeTotal;
    var ph := AtStart(k, env, s.tables, s, Request.Token(r)).1;
    if ph.ReadCode? {
      DriveStep(k, env, s, ph);
      if ph.g.code in s.tables.codes && CheckCode(k, env.now, ph.g, s.tables.codes[ph.g.code]).Success? {
        ExchangeFinishes(k, s, env, ph.g);
      }
    }
  }

  // ---------------------------------------------------------------- refresh

  predicate MayRefresh(k: Config, t: Tables, r: TokenRequest, now: int) {
    && r.refreshToken.Some? && Authentic(k, t, r.clientId, r.clientSecret)
    && r.refreshToken.value in t.tokens
    && var row := t.tokens[r.refreshToken.value];
       now <= row.expiresAt && row.clientId == r.clientId
  }

  ghost predicate Refreshed(k: Config, s: State, env: Env, token: string, s': State, a: Answer) {
    && token in s.tables.tokens
    && var row := s.tables.tokens[token];
       && row.userId in s.tables.users
       && var email := s.tables.users[row.userId].email;
          && Replies(k, a, env.now, IntToString(row.userId), Some(email), row.clientId, row.scopes, Some(env.token))
          && s'.tables == s.tables.(
               tokens := (s.tables.tokens - {token})[env.token :=
                 RefreshToken(env.token, row.clientId, row.userId, row.scopes, env.now + k.refreshTtlDays * 86400)])
  }

  /** A refused refresh changes nothing, but for a token that has expired. */
  ghost predicate RefreshRefused(k: Config, s: State, env: Env, r: TokenRequest, s': State, a: Answer) {
    && a.Failure?
    && (s' == s ||
        (&& r.refreshToken.Some? && r.refreshToken.value in s.tables.tokens
         && s.tables.tokens[r.refreshToken.value].expiresAt < env.now && s' == Drop(s, r.refreshToken.value)))
  }

  lemma RefreshStarts(k: Config, s: State, env: Env, r: TokenRequest)
    requires r.grantType == "refresh_token"
    ensures
      var (s', ph) := AtStart(k, env, s.tables, s, Request.Token(r));
      && s' == s
      && (ph.ReadToken? <==> r.refreshToken.Some? && Authentic(k, s.tables, r.clientId, r.clientSecret))
      && (ph.ReadToken? ==> ph.r == RefreshGrant(r.refreshToken.value, r.clientId))
      && (!ph.ReadToken? ==> ph.Done? && ph.answer.Failure?)
  {
    AuthenticIff(k, s.tables, r.clientId, r.clientSecret);
    hide AuthenticateClient, Authentic;
  }

  /** Once the presented token is gone, its successor is issued. */
  lemma NextTokensIssued(k: Config, s: State, env: Env, g: RefreshGrant, row: RefreshToken)
    requires k.EncodeTotal() && env.token !in s.tables.tokens
    requires row.userId in s.tables.users && s.tables.users[row.userId].id == row.userId
    ensures
      var (s', a) := Drive(k, env, s, ReadTokenUser(g, row));
      && Replies(k, a, env.now, IntToString(row.userId), Some(s.tables.users[row.userId].email), g.clientId, row.scopes,
                 Some(env.token))
      && s'.tables == s.tables.(tokens := s.tables.tokens[env.token :=
           RefreshToken(env.token, g.clientId, row.userId, row.scopes, env.now + k.refreshTtlDays * 86400)])
  {
    NextTokenUserRead(k, s, env, g, row);
    ReadTokenUserStep(k, s, env, g, row);
    hide Drive, IntToString, AtReadTokenUser, Config.EncodeTotal, Carries;
    var (s', ph) := AtReadTokenUser(k, env, s.tables, s, g, row);
    NextTokenInserted(k, s', env, g, row, s.tables.users[row.userId], ph.jwt);
  }

  lemma ReadTokenUserStep(k: Config, s: State, env: Env, g: RefreshGrant, row: RefreshToken)
    ensures
      var (s', ph) := AtReadTokenUser(k, env, s.tables, s, g, row);
      Drive(k, env, s, ReadTokenUser(g, row)) == Drive(k, env, s', ph)
  {
    hide Drive, AtReadTokenUser;
    DriveStep(k, env, s, ReadTokenUser(g, row));
  }

  lemma NextTokenInserted(
    k: Config, s: State, env: Env, g: RefreshGrant, row: RefreshToken, u: AuthUser, jwt: string)
    requires env.token !in s.tables.tokens && u.id in s.tables.users
    ensures
      var (s', a) := Drive(k, env, s, InsertNext(g, row, u, jwt));
      && a == Issued(k, jwt, Some(env.token), row.scopes)
      && s'.tables == s.tables.(tokens := s.tables.tokens[env.token :=
           RefreshToken(env.token, g.clientId, u.id, row.scopes, env.now + k.refreshTtlDays * 86400)])
  {
    hide Drive, RecordMint;
    DriveStep(k, env, s, InsertNext(g, row, u, jwt));
  }

  lemma NextTokenUserRead(k: Config, s: State, env: Env, g: RefreshGrant, row: RefreshToken)
    requires k.EncodeTotal() && row.userId in s.tables.users && s.tables.users[row.userId].id == row.userId
    ensures
      var (s', ph) := AtReadTokenUser(k, env, s.tables, s, g, row);
      var u := s.tables.users[row.userId];
      && s'.tables == s.tables && ph.InsertNext? && ph == InsertNext(g, row, u, ph.jwt)
      && exists c :: Carries(c, env.now, IntToString(row.userId), Some(u.email), g.clientId, row.scopes, k.accessTtlSecs)
                     && k.encode(c, k.jwtSecret) == Some(ph.jwt)
  {
    hide IntToString;
    var claims := UserClaims(k, env.now, s.tables.users[row.userId], g.clientId, row.scopes);
    assert k.encode(claims, k.jwtSecret).Some?;
    assert Carries(
      claims, env.now, IntToString(row.userId), Some(s.tables.users[row.userId].email), g.clientId, row.scopes, k.accessTtlSecs);
  }

  lemma RefreshFinishes(k: Config, s: State, env: Env, g: RefreshGrant)
    requires s.tables.WellKeyed() && k.EncodeTotal() && env.token !in s.tables.tokens
    requires g.token in s.tables.tokens && s.tables.tokens[g.token].clientId == g.clientId
    ensures
      var (s', a) := Drive(k, env, s, DropRotated(g, s.tables.tokens[g.token]));
      Refreshed(k, s, env, g.token, s', a)
  {
    hide Drive, IntToString, Replies, Config.EncodeTotal;
    var row := s.tables.tokens[g.token];
    assert row.userId in s.tables.users && s.tables.users[row.userId].id == row.userId;
    hide Tables.WellKeyed;
    DriveStep(k, env, s, DropRotated(g, row));
    NextTokensIssued(k, Drop(s, g.token), env, g, row);
  }

  lemma RefreshFromLookup(k: Config, s: State, env: Env, g: RefreshGrant)
    requires s.tables.WellKeyed() && k.EncodeTotal() && env.token !in s.tables.tokens
    ensures
      var (s', a) := Drive(k, env, s, ReadToken(g));
      if g.token !in s.tables.tokens then a.Failure? && s' == s
      else
        var row := s.tables.tokens[g.token];
        if row.expiresAt < env.now then a.Failure? && s' == Drop(s, g.token)
        else if row.clientId != g.clientId then a.Failure? && s' == s
        else Refreshed(k, s, env, g.token, s', a)
  {
    hide Drive, Refreshed, Tables.WellKeyed, Config.EncodeTotal;
    DriveStep(k, env, s, ReadToken(g));
    if g.token in s.tables.tokens {
      if s.tables.tokens[g.token].expiresAt < env.now {
        DriveStep(k, env, s, DropExpired(g));
      } else if s.tables.tokens[g.token].clientId == g.clientId {
        RefreshFinishes(k, s, env, g);
      }
    }
  }

  lemma RefreshIff(k: Config, s: State, env: Env, r: TokenRequest)
    requires s.tables.WellKeyed() && k.EncodeTotal() && env.token !in s.tables.tokens
    requires r.grantType == "refresh_token"
    ensures
      var (s', a) := Serve(k, s, Call(env, Request.Token(r)));
      if MayRefresh(k, s.tables, r, env.now) then Refreshed(k, s, env, r.refreshToken.value, s', a)
      else RefreshRefused(k, s, env, r, s', a)
  {
    DriveStep(k, env, s, Start(Request.Token(r)));
    RefreshStarts(k, s, env, r);
    hide AtStart, Drive, Refreshed, Authentic, Tables.WellKeyed, Config.EncodeTotal, AtReadTokenUser;
    var ph := AtStart(k, env, s.tables, s, Request.Token(r)).1;
    if ph.ReadToken? {
      RefreshFromLookup(k, s, env, ph.r);
    }
  }

  // ---------------------------------------------------------------- client credentials

  predicate MayActAlone(k: Config, t: Tables, r: TokenRequest) {
    && Authentic(k, t, r.clientId, r.clientSecret)
    && Allowed(if r.scope.Some? then r.scope.value else "read", t.clients[r.clientId].scopes)
  }

  lemma ClientCredentialsIff(k: Config, s: State, env: Env, r: TokenRequest)
    requires k.EncodeTotal() && r.grantType == "client_credentials"
    ensures
      var (s', a) := Serve(k, s, Call(env, Request.Token(r)));
      && s'.tables == s.tables
      && if MayActAlone(k, s.tables, r)
         then Replies(k, a, env.now, r.clientId, None, r.clientId, if r.scope.Some? then r.scope.value else "read", None)
         else a.Failure? && s' == s
  {
    DriveStep(k, env, s, Start(Request.Token(r)));
    AuthenticIff(k, s.tables, r.clientId, r.clientSecret);
    hide Drive, AuthenticateClient, Allowed, LogAccess;
    var scope := if r.scope.Some? then r.scope.value else "read";
    var claims := ClientClaims(k, env.now, r.clientId, scope);
    assert k.encode(claims, k.jwtSecret).Some?;
    assert Carries(claims, env.now, r.clientId, None, r.clientId, scope, k.accessTtlSecs);
  }

  // ---------------------------------------------------------------- what a failure half-way leaves

  /** The access token for this user cannot be encoded. */
  ghost predicate EncodeFails(k: Config, t: Tables, now: int, userId: int, clientId: string, scopes: string) {
    && userId in t.users
    && exists c :: Carries(c, now, IntToString(userId), Some(t.users[userId].email), clientId, scopes, k.accessTtlSecs)
                   && k.encode(c, k.jwtSecret).None?
  }

  lemma FirstTokensFail(k: Config, s: State, env: Env, g: CodeGrant, row: AuthCode)
    requires row.userId in s.tables.users && s.tables.users[row.userId].id == row.userId
    requires EncodeFails(k, s.tables, env.now, row.userId, g.clientId, row.scopes) || env.token in s.tables.tokens
    ensures
      var (s', a) := Drive(k, env, s, ReadCodeUser(g, row));
      a.Failure? && a.error.InternalError? && s'.tables == s.tables
  {
    hide Drive, IntToString, RecordMint, LogAccess;
    DriveStep(k, env, s, ReadCodeUser(g, row));
    var (s', ph) := AtReadCodeUser(k, env, s.tables, s, g, row);
    if ph.InsertFirst? {
      hide Carries;
      DriveStep(k, env, s', ph);
    }
  }

  /**
   * An exchange that passes every check fails half-way if its access token cannot be encoded or its refresh token is
   * already taken; then the code is used up and no refresh token is issued.
   */
  lemma ExchangeHalfDone(k: Config, s: State, env: Env, r: TokenRequest)
    requires s.tables.WellKeyed() && r.grantType == "authorization_code" && MayExchange(k, s.tables, r, env.now)
    requires
      var row := s.tables.codes[r.code.value];
      EncodeFails(k, s.tables, env.now, row.userId, row.clientId, row.scopes) || env.token in s.tables.tokens
    ensures
      var (s', a) := Serve(k, s, Call(env, Request.Token(r)));
      && a.Failure? && a.error.InternalError?
      && s'.tables == s.tables.(codes := s.tables.codes[r.code.value := s.tables.codes[r.code.value].(used := true)])
  {
    ExchangeStarts(k, s, env, r);
    var g := CodeGrant(r.code.value, r.redirectUri.value, r.verifier.value, r.clientId);
    var row := s.tables.codes[g.code];
    assert row.userId in s.tables.users && s.tables.users[row.userId].id == row.userId;
    hide Drive, AtStart, Authentic, EncodeFails, Tables.WellKeyed, IntToString;
    DriveStep(k, env, s, Start(Request.Token(r)));
    DriveStep(k, env, s, ReadCode(g));
    MarkCodeStep(k, s, env, g, row);
    hide Advance;
    SameUsersFail(k, s.tables, s.tables.MarkUsed(g.code), env.now, row.userId, row.clientId, row.scopes);
    FirstTokensFail(k, s.(tables := s.tables.MarkUsed(g.code)), env, g, row);
  }

  lemma SameUsersFail(k: Config, t: Tables, t': Tables, now: int, userId: int, clientId: string, scopes: string)
    requires t'.users == t.users
    ensures EncodeFails(k, t', now, userId, clientId, scopes) == EncodeFails(k, t, now, userId, clientId, scopes)
  {
    hide Carries, IntToString;
  }

  lemma NextTokensFail(k: Config, s: State, env: Env, g: RefreshGrant, row: RefreshToken)
    requires row.userId in s.tables.users && s.tables.users[row.userId].id == row.userId
    requires EncodeFails(k, s.tables, env.now, row.userId, g.clientId, row.scopes) || env.token in s.tables.tokens
    ensures
      var (s', a) := Drive(k, env, s, ReadTokenUser(g, row));
      a.Failure? && a.error.InternalError? && s'.tables == s.tables
  {
    hide Drive, IntToString, RecordMint, LogAccess;
    DriveStep(k, env, s, ReadTokenUser(g, row));
    var (s', ph) := AtReadTokenUser(k, env, s.tables, s, g, row);
    if ph.InsertNext? {
      hide Carries;
      DriveStep(k, env, s', ph);
    }
  }

  /** And a refresh in the same cases; then the token presented is gone and has no successor. */
  lemma RefreshHalfDone(k: Config, s: State, env: Env, r: TokenRequest)
    requires s.tables.WellKeyed() && r.grantType == "refresh_token" && MayRefresh(k, s.tables, r, env.now)
    requires
      var row := s.tables.tokens[r.refreshToken.value];
      || EncodeFails(k, s.tables, env.now, row.userId, row.clientId, row.scopes)
      || env.token in s.tables.tokens - {r.refreshToken.value}
    ensures
      var (s', a) := Serve(k, s, Call(env, Request.Token(r)));
      && a.Failure? && a.error.InternalError?
      && s'.tables == s.tables.(tokens := s.tables.tokens - {r.refreshToken.value})
  {
    RefreshStarts(k, s, env, r);
    var g := RefreshGrant(r.refreshToken.value, r.clientId);
    var row := s.tables.tokens[g.token];
    assert row.userId in s.tables.users && s.tables.users[row.userId].id == row.userId;
    hide Drive, AtStart, Authentic, EncodeFails, Tables.WellKeyed, IntToString, AtReadTokenUser;
    DriveStep(k, env, s, Start(Request.Token(r)));
    DriveStep(k, env, s, ReadToken(g));
    DriveStep(k, env, s, DropRotated(g, row));
    hide Advance;
    SameUsersFail(k, s.tables, Drop(s, g.token).tables, env.now, row.userId, row.clientId, row.scopes);
    NextTokensFail(k, Drop(s, g.token), env, g, row);
  }

  /** A client grant whose access token cannot be encoded changes nothing. */
  lemma ClientCredentialsFail(k: Config, s: State, env: Env, r: TokenRequest)
    requires r.grantType == "client_credentials" && MayActAlone(k, s.tables, r)
    requires
      var scope := if r.scope.Some? then r.scope.value else "read";
      exists c :: Carries(c, env.now, r.clientId, None, r.clientId, scope, k.accessTtlSecs) && k.encode(c, k.jwtSecret).None?
    ensures
      var (s', a) := Serve(k, s, Call(env, Request.Token(r)));
      a.Failure? && a.error.InternalError? && s' == s
  {
    DriveStep(k, env, s, Start(Request.Token(r)));
    AuthenticIff(k, s.tables, r.clientId, r.clientSecret);
    hide Drive, AuthenticateClient, Allowed, LogAccess;
  }

  // ---------------------------------------------------------------- the round trip

  /**
   * A code that was just issued is exchanged exactly by the client it was issued to, with the redirect URI of
   * the `authorize` and a verifier of its challenge, within 600 s; the reply has the scope that was asked for.
   */
  lemma AuthorizeThenExchange(
    k: Config, s: State, env: Env, p: AuthorizeParams, login: Login, env': Env, r: TokenRequest)
    requires Inv(k, s) && k.EncodeTotal() && MayAuthorize(k, s.tables, p, login)
    requires env.code !in s.tables.codes && env.token !in s.ledger.mints && env'.token !in s.tables.tokens
    requires r.grantType == "authorization_code" && r.code == Some(env.code)
    ensures
      var s1 := Serve(k, s, Call(env, Authorize(p, login))).0;
      var a := Serve(k, s1, Call(env', Request.Token(r))).1;
      && (a.Success? <==>
            && r.clientId == p.clientId && Authentic(k, s.tables, p.clientId, r.clientSecret)
            && r.redirectUri == Some(p.redirectUri)
            && r.verifier.Some? && k.challengeOf(r.verifier.value) == p.challenge
            && env'.now <= env.now + 600)
      && (a.Success? ==> a.value.TokenIssued? && a.value.resp.scope == p.scope)
  {
    hide Once, StateSound, Serve, Config.EncodeTotal, MayAuthorize;
    WellKeyedTables(k, s);
    AuthorizeIff(k, s, env, p, login);
    ServeKeeps(k, s, env.now, Call(env, Authorize(p, login)));
    var s1 := Serve(k, s, Call(env, Authorize(p, login))).0;
    WellKeyedTables(k, s1);
    ExchangeIff(k, s1, env', r);
    hide Tables.WellKeyed;
  }

  /**
   * The refresh token of an exchange is accepted exactly from the same client until it expires, and the
   * token that comes back has the same scope.
   */
  lemma ExchangeThenRefresh(k: Config, s: State, env: Env, r: TokenRequest, env': Env, q: TokenRequest)
    requires Inv(k, s) && k.EncodeTotal() && MayExchange(k, s.tables, r, env.now)
    requires env.token !in s.ledger.mints && env'.token !in s.ledger.mints && env'.token != env.token
    requires r.grantType == "authorization_code"
    requires q.grantType == "refresh_token" && q.refreshToken == Some(env.token)
    ensures
      var (s1, a) := Serve(k, s, Call(env, Request.Token(r)));
      var b := Serve(k, s1, Call(env', Request.Token(q))).1;
      && (b.Success? <==>
            && q.clientId == r.clientId && Authentic(k, s.tables, r.clientId, q.clientSecret)
            && env'.now <= env.now + k.refreshTtlDays * 86400)
      && (b.Success? ==> a.Success? && b.value.TokenIssued? && a.value.TokenIssued? && b.value.resp.scope == a.value.resp.scope)
  {
    hide Once, StateSound, Serve, Config.EncodeTotal;
    WellKeyedTables(k, s);
    Failures.FreshTokenNotInTables(k, s, env.token);
    Failures.FreshTokenNotInTables(k, s, env'.token);
    ExchangeIff(k, s, env, r);
    ServeKeeps(k, s, env.now, Call(env, Request.Token(r)));
    var s1 := Serve(k, s, Call(env, Request.Token(r))).0;
    WellKeyedTables(k, s1);
    RefreshIff(k, s1, env', q);
    hide Tables.WellKeyed;
  }
}

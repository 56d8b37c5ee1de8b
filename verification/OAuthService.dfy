/**
 * The service's methods over the live database and the client cache. Each one is proved to have the effect
 * and the answer of the request run alone in `OAuthFlow`; the cache leaves no trace in either.
 */
module OAuthService {
  import opened Wrappers
  import opened Text
  import opened Scopes
  import opened Json
  import opened Redis
  import opened AuthTables
  import opened TokenService
  import opened OAuthFlow
  import opened Errors

  function ClientKey(clientId: string): string {
    "oauth_client:" + clientId
  }

  /** Serialization skips the secret hash. */
  function EncodeClient(c: OAuthClient): Json {
    Object(map[
      "client_id" := Str(c.clientId), "client_name" := Str(c.name),
      "redirect_uri" := Str(c.redirectUri), "scopes" := Str(c.scopes)])
  }

  /** Deserialization wants every field, the secret hash among them. */
  function DecodeClient(j: Json): Option<OAuthClient> {
    var id, hash := StrField(j, "client_id"), StrField(j, "client_secret_hash");
    var name, uri, scopes := StrField(j, "client_name"), StrField(j, "redirect_uri"), StrField(j, "scopes");
    if id.Some? && hash.Some? && name.Some? && uri.Some? && scopes.Some?
    then Some(OAuthClient(id.value, hash.value, name.value, uri.value, scopes.value))
    else None
  }

  /** So what was stored does not decode, and every lookup goes on to the database. */
  lemma StoredClientNeverDecodes(c: OAuthClient)
    ensures DecodeClient(EncodeClient(c)).None?
  {
    assert "client_secret_hash" !in EncodeClient(c).fields by {
      assert |"client_secret_hash"| == 18 && |"client_id"| == 9 && |"client_name"| == 11
          && |"redirect_uri"| == 12 && |"scopes"| == 6;
    }
  }

  /** It is the missing hash alone: with it the client would decode. */
  lemma HashIsAllThatIsMissing(c: OAuthClient)
    ensures DecodeClient(Object(EncodeClient(c).fields["client_secret_hash" := Str(c.secretHash)])) == Some(c)
  {
    var fields := EncodeClient(c).fields["client_secret_hash" := Str(c.secretHash)];
    assert |"client_secret_hash"| == 18 && |"client_id"| == 9 && |"client_name"| == 11
        && |"redirect_uri"| == 12 && |"scopes"| == 6;
  }

  lemma ClientKeysAreDistinct(a: string, b: string)
    requires ClientKey(a) == ClientKey(b)
    ensures a == b
  {
    assert ClientKey(a)[13..] == a && ClientKey(b)[13..] == b;
  }

  /** A cached client that decodes is the row in the database. */
  ghost predicate CacheAgrees(entries: Entries, clients: map<string, OAuthClient>) {
    forall id | ClientKey(id) in entries && DecodeClient(entries[ClientKey(id)].value).Some? ::
      id in clients && DecodeClient(entries[ClientKey(id)].value) == Some(clients[id])
  }

  /** No entry decodes, so that there are no cache hits. */
  ghost predicate NothingDecodes(entries: Entries) {
    forall key | key in entries :: DecodeClient(entries[key].value).None?
  }

  class OAuthService {
    const db: AuthDatabase
    const redis: RedisStore
    const k: Config
    ghost var ledger: Ledger

    ghost predicate Valid()
      reads redis, db
    {
      CacheAgrees(redis.entries, db.Snapshot().clients)
    }

    ghost function Current(): State
      reads this, db
    {
      State(db.Snapshot(), ledger)
    }

    constructor (k: Config)
      ensures Valid() && fresh(db) && fresh(redis) && NothingDecodes(redis.entries)
      ensures this.k == k && Current() == State(NO_TABLES, NO_LEDGER)
    {
      this.k := k;
      ledger := NO_LEDGER;
      db := new AuthDatabase();
      redis := new RedisStore();
    }

    /** The store may drop any of its entries at any time. */
    method Evict(gone: set<string>)
      requires Valid()
      modifies redis
      ensures Valid()
      ensures old(NothingDecodes(redis.entries)) ==> NothingDecodes(redis.entries)
      ensures redis.entries == old(redis.entries) - gone
    {
      redis.entries := redis.entries - gone;
    }

    method GetCached(key: string, now: int) returns (r: Option<OAuthClient>)
      ensures NothingDecodes(redis.entries) ==> r.None?
      ensures r.None? || (key in redis.entries && now <= redis.entries[key].expiresAt
                          && r == DecodeClient(redis.entries[key].value))
    {
      var up := *;
      var j := redis.Get(key, now, up);
      r := if j.Some? then DecodeClient(j.value) else None;
    }

    method SetCached(key: string, c: OAuthClient, now: int)
      requires Valid()
      modifies redis
      ensures Valid()
      ensures old(NothingDecodes(redis.entries)) ==> NothingDecodes(redis.entries)
      ensures redis.entries in {old(redis.entries), old(redis.entries)[key := Entry(EncodeClient(c), now + 600)]}
    {
      var up := *;
      StoredClientNeverDecodes(c);
      redis.SetEx(key, EncodeClient(c), 600, now, up);
    }

    /** Whatever the cache holds, the answer is the database's own. */
    method FindClientCached(clientId: string, now: int) returns (r: Result<OAuthClient, Error>)
      requires Valid()
      modifies redis
      ensures Valid()
      ensures old(NothingDecodes(redis.entries)) ==> NothingDecodes(redis.entries)
      ensures r == LookupClient(db.Snapshot(), clientId)
    {
      var key := ClientKey(clientId);
      var hit := GetCached(key, now);
      if hit.Some? {
        return Success(hit.value);
      }
      var found := db.FindClient(clientId);
      if found.None? {
        return Failure(InvalidClient("Client not found"));
      }
      SetCached(key, found.value, now);
      r := Success(found.value);
    }

    method Authenticate(clientId: string, secret: string, now: int) returns (r: Result<OAuthClient, Error>)
      requires Valid()
      modifies redis
      ensures Valid()
      ensures old(NothingDecodes(redis.entries)) ==> NothingDecodes(redis.entries)
      ensures r == AuthenticateClient(k, db.Snapshot(), clientId, secret)
    {
      r := FindClientCached(clientId, now);
      if r.Success? {
        var checked := CheckSecret(k, secret, r.value.secretHash);
        if checked.Failure? {
          r := Failure(checked.error);
        }
      }
    }

    method Register(env: Env, email: string, password: string) returns (a: Answer)
      requires Valid()
      modifies db
      ensures Valid()
      ensures (Current(), a) == Drive(k, env, old(Current()), Start(Request.Register(email, password)))
    {
      hide CacheAgrees, NothingDecodes;
      if Utf8Length(password) < 8 {
        return Failure(InvalidRequest("Password must be at least 8 characters"));
      }
      var hash := k.hashPassword(password, env.salt);
      if hash.None? {
        return Failure(InternalError("Hash error"));
      }
      var created := db.CreateUser(AuthUser(env.userId, email, hash.value));
      if created.Failure? {
        var e := created.error;
        return Failure(if e.UniqueViolation? then Conflict("Email already registered") else FromDb(e));
      }
      a := Success(UserRegistered(env.userId, email));
    }

    method RegisterClient(env: Env, name: string, redirectUri: string, scopes: string) returns (a: Answer)
      requires Valid()
      modifies db, redis
      ensures Valid()
      ensures old(NothingDecodes(redis.entries)) ==> NothingDecodes(redis.entries)
      ensures (Current(), a) == Drive(k, env, old(Current()), Start(Request.RegisterClient(name, redirectUri, scopes)))
    {
      var hash := k.hashPassword(env.secret, env.salt);
      if hash.None? {
        return Failure(InternalError("Hash error"));
      }
      var client := OAuthClient(env.clientId, hash.value, name, redirectUri, scopes);
      var created := db.CreateClient(client);
      if created.Failure? {
        return Failure(FromDb(created.error));
      }
      SetCached(ClientKey(client.clientId), client, env.now);
      a := Success(ClientRegistered(env.clientId, env.secret, name, redirectUri, scopes));
    }

    method VerifyCredentials(login: Login) returns (r: Result<AuthUser, Error>)
      ensures r == CheckLogin(k, db.Snapshot(), login)
    {
      var found := db.FindUserByEmail(login.email);
      if found.None? {
        return Failure(Unauthorized("Invalid credentials"));
      }
      match k.verifyPassword(login.password, found.value.passwordHash)
      case Match => r := Success(found.value);
      case Mismatch => r := Failure(Unauthorized("Invalid credentials"));
      case Unparsable => r := Failure(InternalError("Hash parse error"));
    }

    method Authorize(env: Env, p: AuthorizeParams, login: Login) returns (a: Answer)
      requires Valid()
      modifies db, redis, this
      ensures Valid()
      ensures old(NothingDecodes(redis.entries)) ==> NothingDecodes(redis.entries)
      ensures (Current(), a) == Drive(k, env, old(Current()), Start(Request.Authorize(p, login)))
    {
      hide Drive, CacheAgrees, NothingDecodes;
      DriveStep(k, env, Current(), Start(Request.Authorize(p, login)));
      if p.responseType != "code" {
        return Failure(InvalidRequest("response_type must be 'code'"));
      }
      if p.challengeMethod != "S256" {
        return Failure(InvalidRequest("code_challenge_method must be 'S256'"));
      }
      var client := FindClientCached(p.clientId, env.now);
      if client.Failure? {
        return Failure(client.error);
      }
      if client.value.redirectUri != p.redirectUri {
        return Failure(InvalidRequest("redirect_uri mismatch"));
      }
      var valid := ValidateScopes(p.scope, client.value.scopes);
      if valid.Failure? {
        return Failure(InvalidRequest("Scope not allowed"));
      }
      DriveStep(k, env, Current(), CheckUser(p, login));
      var user := VerifyCredentials(login);
      if user.Failure? {
        return Failure(user.error);
      }
      DriveStep(k, env, Current(), InsertCode(p, login, user.value));
      var row := NewCode(env.now, env.code, p, user.value);
      var created := db.CreateCode(row);
      if created.Failure? {
        return Failure(FromDb(created.error));
      }
      ledger := RecordGrant(ledger, row, login, env.now);
      a := Success(CodeIssued(env.code, p.state));
    }

    method Token(env: Env, req: TokenRequest) returns (a: Answer)
      requires Valid()
      modifies db, redis, this
      ensures Valid()
      ensures old(NothingDecodes(redis.entries)) ==> NothingDecodes(redis.entries)
      ensures (Current(), a) == Drive(k, env, old(Current()), Start(Request.Token(req)))
    {
      if req.grantType == "authorization_code" {
        a := ExchangeAuthorizationCode(env, req);
      } else if req.grantType == "client_credentials" {
        a := ExchangeClientCredentials(env, req);
      } else if req.grantType == "refresh_token" {
        a := ExchangeRefreshToken(env, req);
      } else {
        a := Failure(InvalidRequest("Unsupported grant_type"));
      }
    }

    method ExchangeAuthorizationCode(env: Env, req: TokenRequest) returns (a: Answer)
      requires Valid()
      requires req.grantType == "authorization_code"
      modifies db, redis, this
      ensures Valid()
      ensures old(NothingDecodes(redis.entries)) ==> NothingDecodes(redis.entries)
      ensures (Current(), a) == Drive(k, env, old(Current()), Start(Request.Token(req)))
    {
      hide Drive, CacheAgrees, NothingDecodes;
      DriveStep(k, env, Current(), Start(Request.Token(req)));
      var parsed := ParseCodeGrant(req);
      if parsed.Failure? {
        return Failure(parsed.error);
      }
      var g := parsed.value;
      var client := Authenticate(req.clientId, req.clientSecret, env.now);
      if client.Failure? {
        return Failure(client.error);
      }
      DriveStep(k, env, Current(), ReadCode(g));
      var found := db.FindCode(g.code);
      if found.None? {
        return Failure(InvalidGrant("Invalid authorization code"));
      }
      var row := found.value;
      var checked := CheckCode(k, env.now, g, row);
      if checked.Failure? {
        return Failure(checked.error);
      }
      DriveStep(k, env, Current(), MarkCode(g, row));
      var _ := db.MarkCodeUsed(g.code);
      a := IssueFirst(env, g, row);
    }

    /** The rest of a code exchange, from the moment the code is marked used. */
    method IssueFirst(env: Env, g: CodeGrant, row: AuthCode) returns (a: Answer)
      requires Valid()
      modifies db, this
      ensures Valid()
      ensures (Current(), a) == Drive(k, env, old(Current()), ReadCodeUser(g, row))
    {
      hide Drive, CacheAgrees, NothingDecodes;
      DriveStep(k, env, Current(), ReadCodeUser(g, row));
      var user := db.FindUserById(row.userId);
      if user.None? {
        return Failure(NotFound);
      }
      var u := user.value;
      var claims := UserClaims(k, env.now, u, g.clientId, row.scopes);
      var jwt := k.encode(claims, k.jwtSecret);
      if jwt.None? {
        return Failure(InternalError("JWT error"));
      }
      ledger := LogAccess(ledger, Some(FromCode(g.code)), claims, jwt.value, env.now);
      DriveStep(k, env, Current(), InsertFirst(g, row, u, jwt.value));
      var token := NewToken(k, env.now, env.token, g.clientId, u.id, row.scopes);
      var created := db.CreateToken(token);
      if created.Failure? {
        return Failure(FromDb(created.error));
      }
      ledger := RecordMint(ledger, token, FromCode(g.code), env.now);
      a := Issued(k, jwt.value, Some(env.token), row.scopes);
    }

    method ExchangeClientCredentials(env: Env, req: TokenRequest) returns (a: Answer)
      requires Valid()
      requires req.grantType == "client_credentials"
      modifies redis, this
      ensures Valid()
      ensures old(NothingDecodes(redis.entries)) ==> NothingDecodes(redis.entries)
      ensures (Current(), a) == Drive(k, env, old(Current()), Start(Request.Token(req)))
    {
      hide CacheAgrees, NothingDecodes;
      var scope := if req.scope.Some? then req.scope.value else "read";
      var client := Authenticate(req.clientId, req.clientSecret, env.now);
      if client.Failure? {
        return Failure(client.error);
      }
      var valid := ValidateScopes(scope, client.value.scopes);
      if valid.Failure? {
        return Failure(InvalidRequest("Scope not allowed"));
      }
      var claims := ClientClaims(k, env.now, req.clientId, scope);
      var jwt := k.encode(claims, k.jwtSecret);
      if jwt.None? {
        return Failure(InternalError("JWT error"));
      }
      ledger := LogAccess(ledger, None, claims, jwt.value, env.now);
      a := Issued(k, jwt.value, None, scope);
    }

    method ExchangeRefreshToken(env: Env, req: TokenRequest) returns (a: Answer)
      requires Valid()
      requires req.grantType == "refresh_token"
      modifies db, redis, this
      ensures Valid()
      ensures old(NothingDecodes(redis.entries)) ==> NothingDecodes(redis.entries)
      ensures (Current(), a) == Drive(k, env, old(Current()), Start(Request.Token(req)))
    {
      hide Drive, CacheAgrees, NothingDecodes;
      DriveStep(k, env, Current(), Start(Request.Token(req)));
      var parsed := ParseRefreshGrant(req);
      if parsed.Failure? {
        return Failure(parsed.error);
      }
      var g := parsed.value;
      var client := Authenticate(req.clientId, req.clientSecret, env.now);
      if client.Failure? {
        return Failure(client.error);
      }
      DriveStep(k, env, Current(), ReadToken(g));
      var found := db.FindToken(g.token);
      if found.None? {
        return Failure(InvalidGrant("Invalid refresh token"));
      }
      var row := found.value;
      if row.expiresAt < env.now {
        DriveStep(k, env, Current(), DropExpired(g));
        var _ := db.DeleteToken(g.token);
        return Failure(InvalidGrant("Refresh token expired"));
      }
      if row.clientId != req.clientId {
        return Failure(InvalidGrant("client_id mismatch"));
      }
      DriveStep(k, env, Current(), DropRotated(g, row));
      var _ := db.DeleteToken(g.token);
      a := IssueNext(env, g, row);
    }

    /** The rest of a refresh, from the moment the presented token is deleted. */
    method IssueNext(env: Env, g: RefreshGrant, row: RefreshToken) returns (a: Answer)
      requires Valid()
      modifies db, this
      ensures Valid()
      ensures (Current(), a) == Drive(k, env, old(Current()), ReadTokenUser(g, row))
    {
      hide Drive, CacheAgrees, NothingDecodes;
      DriveStep(k, env, Current(), ReadTokenUser(g, row));
      var user := db.FindUserById(row.userId);
      if user.None? {
        return Failure(NotFound);
      }
      var u := user.value;
      var claims := UserClaims(k, env.now, u, g.clientId, row.scopes);
      var jwt := k.encode(claims, k.jwtSecret);
      if jwt.None? {
        return Failure(InternalError("JWT error"));
      }
      ledger := LogAccess(ledger, Some(FromToken(g.token)), claims, jwt.value, env.now);
      DriveStep(k, env, Current(), InsertNext(g, row, u, jwt.value));
      var token := NewToken(k, env.now, env.token, g.clientId, u.id, row.scopes);
      var created := db.CreateToken(token);
      if created.Failure? {
        return Failure(FromDb(created.error));
      }
      ledger := RecordMint(ledger, token, FromToken(g.token), env.now);
      a := Issued(k, jwt.value, Some(env.token), row.scopes);
    }

    method Revoke(env: Env, token: string, clientId: string, secret: string) returns (a: Answer)
      requires Valid()
      modifies db, redis
      ensures Valid()
      ensures old(NothingDecodes(redis.entries)) ==> NothingDecodes(redis.entries)
      ensures (Current(), a) == Drive(k, env, old(Current()), Start(Request.Revoke(token, clientId, secret)))
    {
      hide Drive, CacheAgrees, NothingDecodes;
      DriveStep(k, env, Current(), Start(Request.Revoke(token, clientId, secret)));
      DriveStep(k, env, Current(), DropRevoked(token));
      var client := Authenticate(clientId, secret, env.now);
      if client.Failure? {
        return Failure(client.error);
      }
      var _ := db.DeleteToken(token);
      a := Success(Revoked);
    }
  }
}

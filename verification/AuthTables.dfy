/** The four tables of the authorization server and the statements its repositories run on them. */
module AuthTables {
  import opened Wrappers

  datatype AuthUser = AuthUser(id: int, email: string, passwordHash: string)

  datatype OAuthClient = OAuthClient(
    clientId: string, secretHash: string, name: string, redirectUri: string, scopes: string)

  datatype AuthCode = AuthCode(
    code: string, clientId: string, userId: int, redirectUri: string, scopes: string,
    challenge: string, challengeMethod: string, expiresAt: int, used: bool)

  datatype RefreshToken = RefreshToken(
    token: string, clientId: string, userId: int, scopes: string, expiresAt: int)

  datatype DbError = RowNotFound | UniqueViolation | ForeignKeyViolation

  /** The tables as a value: each map is keyed by the column its unique index is on. */
  datatype Tables = Tables(
    users: map<int, AuthUser>, emails: map<string, int>, clients: map<string, OAuthClient>,
    codes: map<string, AuthCode>, tokens: map<string, RefreshToken>)
  {
    function FindUser(id: int): Option<AuthUser> {
      if id in users then Some(users[id]) else None
    }

    function FindUserByEmail(email: string): Option<AuthUser> {
      if email in emails && emails[email] in users then Some(users[emails[email]]) else None
    }

    function FindClient(clientId: string): Option<OAuthClient> {
      if clientId in clients then Some(clients[clientId]) else None
    }

    function FindCode(code: string): Option<AuthCode> {
      if code in codes then Some(codes[code]) else None
    }

    function FindToken(token: string): Option<RefreshToken> {
      if token in tokens then Some(tokens[token]) else None
    }

    function InsertUser(u: AuthUser): Result<Tables, DbError> {
      if u.id in users || u.email in emails then Failure(UniqueViolation)
      else Success(this.(users := users[u.id := u], emails := emails[u.email := u.id]))
    }

    function InsertClient(c: OAuthClient): Result<Tables, DbError> {
      if c.clientId in clients then Failure(UniqueViolation)
      else Success(this.(clients := clients[c.clientId := c]))
    }

    function InsertCode(c: AuthCode): Result<Tables, DbError> {
      if c.code in codes then Failure(UniqueViolation)
      else if c.userId !in users then Failure(ForeignKeyViolation)
      else Success(this.(codes := codes[c.code := c]))
    }

    function MarkUsed(code: string): Tables {
      if code in codes then this.(codes := codes[code := codes[code].(used := true)]) else this
    }

    function InsertToken(r: RefreshToken): Result<Tables, DbError> {
      if r.token in tokens then Failure(UniqueViolation)
      else if r.userId !in users then Failure(ForeignKeyViolation)
      else Success(this.(tokens := tokens[r.token := r]))
    }

    function DeleteToken(token: string): Tables {
      this.(tokens := tokens - {token})
    }

    /** Every row sits under its own key, the email index is exact, and foreign keys resolve. */
    ghost predicate WellKeyed() {
      && (forall id | id in users :: users[id].id == id && users[id].email in emails && emails[users[id].email] == id)
      && (forall e | e in emails :: emails[e] in users && users[emails[e]].email == e)
      && (forall c | c in clients :: clients[c].clientId == c)
      && (forall c | c in codes :: codes[c].code == c && codes[c].userId in users)
      && (forall r | r in tokens :: tokens[r].token == r && tokens[r].userId in users)
    }
  }

  const NO_TABLES := Tables(map[], map[], map[], map[], map[])

  /** The database as the repositories see it: each method is one SQL statement. */
  class AuthDatabase {
    var users: map<int, AuthUser>
    var emails: map<string, int>
    var clients: map<string, OAuthClient>
    var codes: map<string, AuthCode>
    var tokens: map<string, RefreshToken>

    function Snapshot(): Tables
      reads this
    {
      Tables(users, emails, clients, codes, tokens)
    }

    constructor ()
      ensures Snapshot() == NO_TABLES
    {
      users, emails, clients, codes, tokens := map[], map[], map[], map[], map[];
    }

    method FindUserById(id: int) returns (r: Option<AuthUser>)
      ensures r == Snapshot().FindUser(id)
    {
      if id in users { r := Some(users[id]); } else { r := None; }
    }

    method FindUserByEmail(email: string) returns (r: Option<AuthUser>)
      ensures r == Snapshot().FindUserByEmail(email)
    {
      r := None;
      if email in emails {
        r := FindUserById(emails[email]);
      }
    }

    method FindClient(clientId: string) returns (r: Option<OAuthClient>)
      ensures r == Snapshot().FindClient(clientId)
    {
      if clientId in clients { r := Some(clients[clientId]); } else { r := None; }
    }

    method FindCode(code: string) returns (r: Option<AuthCode>)
      ensures r == Snapshot().FindCode(code)
    {
      if code in codes { r := Some(codes[code]); } else { r := None; }
    }

    method FindToken(token: string) returns (r: Option<RefreshToken>)
      ensures r == Snapshot().FindToken(token)
    {
      if token in tokens { r := Some(tokens[token]); } else { r := None; }
    }

    method CreateUser(u: AuthUser) returns (r: Result<(), DbError>)
      modifies this
      ensures match old(Snapshot()).InsertUser(u)
              case Success(t) => r == Success(()) && Snapshot() == t
              case Failure(e) => r == Failure(e) && Snapshot() == old(Snapshot())
    {
      if u.id in users || u.email in emails { return Failure(UniqueViolation); }
      users, emails := users[u.id := u], emails[u.email := u.id];
      r := Success(());
    }

    method CreateClient(c: OAuthClient) returns (r: Result<(), DbError>)
      modifies this
      ensures match old(Snapshot()).InsertClient(c)
              case Success(t) => r == Success(()) && Snapshot() == t
              case Failure(e) => r == Failure(e) && Snapshot() == old(Snapshot())
    {
      if c.clientId in clients { return Failure(UniqueViolation); }
      clients := clients[c.clientId := c];
      r := Success(());
    }

    method CreateCode(c: AuthCode) returns (r: Result<(), DbError>)
      modifies this
      ensures match old(Snapshot()).InsertCode(c)
              case Success(t) => r == Success(()) && Snapshot() == t
              case Failure(e) => r == Failure(e) && Snapshot() == old(Snapshot())
    {
      if c.code in codes { return Failure(UniqueViolation); }
      if c.userId !in users { return Failure(ForeignKeyViolation); }
      codes := codes[c.code := c];
      r := Success(());
    }

    method MarkCodeUsed(code: string) returns (rows: nat)
      modifies this
      ensures Snapshot() == old(Snapshot()).MarkUsed(code)
      ensures rows == if code in old(codes) then 1 else 0
    {
      rows := 0;
      if code in codes {
        codes, rows := codes[code := codes[code].(used := true)], 1;
      }
    }

    method CreateToken(t: RefreshToken) returns (r: Result<(), DbError>)
      modifies this
      ensures match old(Snapshot()).InsertToken(t)
              case Success(t') => r == Success(()) && Snapshot() == t'
              case Failure(e) => r == Failure(e) && Snapshot() == old(Snapshot())
    {
      if t.token in tokens { return Failure(UniqueViolation); }
      if t.userId !in users { return Failure(ForeignKeyViolation); }
      tokens := tokens[t.token := t];
      r := Success(());
    }

    method DeleteToken(token: string) returns (rows: nat)
      modifies this
      ensures Snapshot() == old(Snapshot()).DeleteToken(token)
      ensures rows == if token in old(tokens) then 1 else 0
    {
      rows := if token in tokens then 1 else 0;
      tokens := tokens - {token};
    }
  }
}

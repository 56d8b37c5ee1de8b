/** From a grant to the resource server: what user-service admits, the client had registered. */
module ScopeEnforcement {
  import opened Wrappers
  import opened Text
  import opened Scopes
  import opened AuthTables
  import opened TokenService
  import opened OAuthFlow
  import opened Errors
  import opened Provenance
  import opened Interleaving

  const BEARER := "Bearer "

  function StripPrefix(s: string, prefix: string): Option<string> {
    if prefix <= s then Some(s[|prefix|..]) else None
  }

  datatype AuthenticatedUser = AuthenticatedUser(
    userId: string, email: Option<string>, clientId: string, scopes: seq<string>)

  /** `extract_user`: from the configured secret and the Authorization header to an authenticated user. */
  function ExtractUser(k: Config, secret: Option<string>, header: Option<string>, now: int)
    : Result<AuthenticatedUser, Error>
  {
    if secret.None? then Failure(InternalError("JWT secret not configured"))
    else if header.None? then Failure(Unauthorized("Missing Authorization header"))
    else
      match StripPrefix(header.value, BEARER)
      case None => Failure(Unauthorized("Invalid Authorization format. Use: Bearer <token>"))
      case Some(token) =>
        match k.decode(token, secret.value, now)
        case None => Failure(Unauthorized("Invalid token"))
        case Some(c) => Success(AuthenticatedUser(c.sub, c.email, c.clientId, SplitWhitespace(c.scopes)))
  }

  function RequireScope(auth: AuthenticatedUser, required: string): Result<(), Error> {
    if required in auth.scopes then Success(()) else Failure(Forbidden("Insufficient scope"))
  }

  datatype Operation = ListUsers | GetUser | CreateUser | UpdateUser | DeleteUser

  function RequiredScope(op: Operation): string {
    if op.ListUsers? || op.GetUser? then "read" else "write"
  }

  /** What stands in front of every operation of the user controller. */
  function Admit(k: Config, secret: Option<string>, header: Option<string>, now: int, op: Operation): Result<(), Error> {
    match ExtractUser(k, secret, header, now)
    case Failure(e) => Failure(e)
    case Success(auth) => RequireScope(auth, RequiredScope(op))
  }

  /**
   * Who is refused, and how: no secret configured, no header, a header that is not "Bearer " and a token, a token
   * that does not decode. Otherwise the user is who the claims say.
   */
  lemma ExtractUserCases(k: Config, secret: Option<string>, header: Option<string>, now: int)
    ensures
      var r := ExtractUser(k, secret, header, now);
      var bearer := header.Some? && "Bearer " <= header.value;
      if secret.None? then r.Failure? && r.error.InternalError?
      else if !bearer then r.Failure? && r.error.Unauthorized?
      else
        match k.decode(header.value[7..], secret.value, now)
        case None => r.Failure? && r.error.Unauthorized?
        case Some(c) =>
          && r.Success? && r.value.userId == c.sub && r.value.email == c.email && r.value.clientId == c.clientId
          && r.value.scopes == SplitWhitespace(c.scopes)
  {
  }

  /** A user without the scope that the operation needs is forbidden it; whoever is refused otherwise stays refused. */
  lemma AdmitCases(k: Config, secret: Option<string>, header: Option<string>, now: int, op: Operation)
    ensures
      var user, r := ExtractUser(k, secret, header, now), Admit(k, secret, header, now, op);
      if user.Failure? then r == Failure(user.error)
      else if (if op.ListUsers? || op.GetUser? then "read" else "write") in user.value.scopes then r == Success(())
      else r.Failure? && r.error.Forbidden?
  {
  }

  /**
   * A token of the authorization server is admitted exactly when it decodes and its scopes include "read" for the
   * operations that only look, "write" for those that create, update or delete.
   */
  lemma AdmittedIffScoped(k: Config, m: Tables, l: Ledger, a: Access, now: int, op: Operation)
    requires AccessSound(k, m, l, a) && k.DecodesWhatWasEncoded()
    ensures
      Admit(k, Some(k.jwtSecret), Some("Bearer " + a.jwt), now, op).Success? <==>
      && k.decode(a.jwt, k.jwtSecret, now).Some?
      && (op.ListUsers? || op.GetUser? ==> "read" in Tokens(a.claims.scopes))
      && (op.CreateUser? || op.UpdateUser? || op.DeleteUser? ==> "write" in Tokens(a.claims.scopes))
  {
    assert ("Bearer " + a.jwt)[7..] == a.jwt;
    assert k.decode(a.jwt, k.jwtSecret, now).Some? ==> k.decode(a.jwt, k.jwtSecret, now).value == a.claims;
  }

  /** With the one scope a token opens the one half of the operations, with the other scope the other half. */
  lemma OneScopeOpensHalf(k: Config, m: Tables, l: Ledger, a: Access, now: int, op: Operation)
    requires AccessSound(k, m, l, a) && k.DecodesWhatWasEncoded() && k.decode(a.jwt, k.jwtSecret, now).Some?
    ensures
      var admitted := Admit(k, Some(k.jwtSecret), Some("Bearer " + a.jwt), now, op).Success?;
      && (Tokens(a.claims.scopes) == {"read"} ==> (admitted <==> op == ListUsers || op == GetUser))
      && (Tokens(a.claims.scopes) == {"write"} ==> (admitted <==> op == CreateUser || op == UpdateUser || op == DeleteUser))
  {
    AdmittedIffScoped(k, m, l, a, now, op);
    hide Admit, Config.DecodesWhatWasEncoded, AccessSound, Tokens;
    assert "read"[0] != "write"[0];
  }

  /** The scopes of a sound access token are all registered with its client. */
  lemma ClaimedScopesAreRegistered(k: Config, m: Tables, l: Ledger, a: Access)
    requires LedgerSound(k, m, l) && AccessSound(k, m, l, a)
    ensures a.claims.clientId in m.clients && Allowed(a.claims.scopes, m.clients[a.claims.clientId].scopes)
  {
    if a.lineage.Some? {
      var code := a.lineage.value.code;
      assert GrantSound(k, m, code, l.grants[code]);
    }
  }

  /**
   * In every run, however requests interleave: if user-service, under the shared secret, admits an operation
   * on a token the authorization server minted, by whatever grant and after however many refreshes, then the
   * operation's scope is among those the token's client registered.
   */
  lemma EndToEndScope(k: Config, acts: seq<Act>, i: nat, now: int, op: Operation)
    requires RunOk(k, INITIAL, acts) && i < |Run(k, INITIAL, acts).ledger.access| && k.DecodesWhatWasEncoded()
    requires
      var a := Run(k, INITIAL, acts).ledger.access[i];
      Admit(k, Some(k.jwtSecret), Some("Bearer " + a.jwt), now, op).Success?
    ensures
      var sys := Run(k, INITIAL, acts);
      && sys.history != []
      && var c := sys.ledger.access[i].claims.clientId;
         && c in sys.Current().clients
         && (op.ListUsers? || op.GetUser? ==> "read" in Tokens(sys.Current().clients[c].scopes))
         && (op.CreateUser? || op.UpdateUser? || op.DeleteUser? ==> "write" in Tokens(sys.Current().clients[c].scopes))
  {
    hide Admit, Config.DecodesWhatWasEncoded;
    InitialIsSound(k);
    RunKeepsSound(k, INITIAL, acts);
    var sys := Run(k, INITIAL, acts);
    var a := sys.ledger.access[i];
    SoundAccess(k, sys, i);
    hide SysSound, AccessSound, LedgerSound;
    AdmittedIffScoped(k, sys.Current(), sys.ledger, a, now, op);
    ClaimedScopesAreRegistered(k, sys.Current(), sys.ledger, a);
  }

  lemma SoundAccess(k: Config, sys: Sys, i: nat)
    requires SysSound(k, sys) && i < |sys.ledger.access|
    ensures AccessSound(k, sys.Current(), sys.ledger, sys.ledger.access[i])
    ensures LedgerSound(k, sys.Current(), sys.ledger)
  {
  }
}

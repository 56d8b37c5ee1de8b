/** Revoking a code's live refresh token ends everything that descends from the code. */
module Revocation {
  import opened Wrappers
  import opened AuthTables
  import opened TokenService
  import opened OAuthFlow
  import opened Provenance
  import opened AtomicRuns

  /** The code is used up and none of its refresh tokens is left. */
  ghost predicate Dead(s: State, code: string) {
    code in s.tables.codes && s.tables.codes[code].used && NoLive(s, code)
  }

  /** A request in progress that holds nothing of the code. */
  ghost predicate HoldsNothingOf(l: Ledger, code: string, ph: Phase) {
    match ph
    case MarkCode(g, _) => g.code != code
    case ReadCodeUser(g, _) => g.code != code
    case InsertFirst(g, _, _, _) => g.code != code
    case DropRotated(r, _) => r.token in l.mints && !MintOf(l, r.token, code)
    case ReadTokenUser(r, _) => r.token in l.mints && !MintOf(l, r.token, code)
    case InsertNext(r, _, _, _) => r.token in l.mints && !MintOf(l, r.token, code)
    case _ => true
  }

  /** Nothing more was issued that descends from the code. */
  ghost predicate NothingNew(l: Ledger, l': Ledger, code: string) {
    && |l.access| <= |l'.access|
    && (forall t | t in l'.mints && t !in l.mints :: !MintOf(l', t, code))
    && (forall i | |l.access| <= i < |l'.access| :: !AccessOf(l', i, code))
  }

  lemma NothingNewIsTransitive(a: Ledger, b: Ledger, c: Ledger, code: string)
    requires NothingNew(a, b, code) && NothingNew(b, c, code) && Grows(b, c)
    ensures NothingNew(a, c, code)
  {
    forall t | t in c.mints && t !in a.mints ensures !MintOf(c, t, code) {
      assert t in b.mints ==> !MintOf(b, t, code);
    }
    forall i | |a.access| <= i < |c.access| ensures !AccessOf(c, i, code) {
      assert i < |b.access| ==> c.access[i] == b.access[i] && !AccessOf(b, i, code);
    }
  }

  lemma NothingNewIsReflexive(l: Ledger, code: string)
    ensures NothingNew(l, l, code)
  {
  }

  /** Writes that issue something, of another code. */
  lemma MintOfAnother(s: State, row: RefreshToken, source: Source, now: int, code: string)
    requires Dead(s, code) && MintToken(s, row, source, now).Success?
    requires s.ledger.LineageFrom(source).code != code && row.token !in s.ledger.mints
    ensures var s' := MintToken(s, row, source, now).value; Dead(s', code) && NothingNew(s.ledger, s'.ledger, code)
  {
    var s' := MintToken(s, row, source, now).value;
    forall t | t in s'.tables.tokens ensures !MintOf(s'.ledger, t, code) {
      assert t in s.tables.tokens ==> !MintOf(s.ledger, t, code);
    }
  }

  lemma AccessOfAnother(s: State, source: Option<Source>, claims: Claims, jwt: string, now: int, code: string)
    requires Dead(s, code) && (source.Some? ==> s.ledger.LineageFrom(source.value).code != code)
    ensures
      var l := LogAccess(s.ledger, source, claims, jwt, now);
      Dead(s.(ledger := l), code) && NothingNew(s.ledger, l, code)
  {
    var l := LogAccess(s.ledger, source, claims, jwt, now);
    forall t | t in s.tables.tokens ensures !MintOf(l, t, code) {
      assert !MintOf(s.ledger, t, code);
    }
  }

  lemma TablesOfDead(s: State, t: Tables, code: string)
    requires Dead(s, code) && (forall r | r in t.tokens :: r in s.tables.tokens)
    requires code in t.codes && t.codes[code].used
    ensures Dead(s.(tables := t), code)
  {
    forall r | r in t.tokens ensures !MintOf(s.ledger, r, code) {
      assert r in s.tables.tokens;
    }
  }

  ghost predicate StaysDead(k: Config, env: Env, s: State, ph: Phase, code: string) {
    var (s', ph') := Advance(k, env, s.tables, s, ph);
    Dead(s', code) && NothingNew(s.ledger, s'.ledger, code) && HoldsNothingOf(s'.ledger, code, ph')
  }

  lemma StartStaysDead(k: Config, env: Env, s: State, req: Request, code: string)
    requires Dead(s, code)
    ensures StaysDead(k, env, s, Start(req), code)
  {
    hide Dead, NothingNew, StartRegister, StartRegisterClient, StartClientGrant;
    StartPhases(k, env, s.tables, s, req);
    NothingNewIsReflexive(s.ledger, code);
    if req.Register? || req.RegisterClient? {
      RegistrationStaysDead(k, env, s, req, code);
    } else if req.Token? {
      ClientGrantStaysDead(k, env, s, req.req, code);
    }
  }

  lemma RegistrationStaysDead(k: Config, env: Env, s: State, req: Request, code: string)
    requires Dead(s, code) && (req.Register? || req.RegisterClient?)
    ensures var s' := AtStart(k, env, s.tables, s, req).0; Dead(s', code) && s'.ledger == s.ledger
  {
    var s' := AtStart(k, env, s.tables, s, req).0;
    assert s'.tables.codes == s.tables.codes && s'.tables.tokens == s.tables.tokens && s'.ledger == s.ledger;
    TablesOfDead(s, s'.tables, code);
  }

  lemma ClientGrantStaysDead(k: Config, env: Env, s: State, r: TokenRequest, code: string)
    requires Dead(s, code)
    ensures
      var s' := StartClientGrant(k, env, s.tables, s, r).0; Dead(s', code) && NothingNew(s.ledger, s'.ledger, code)
  {
    hide Dead, NothingNew;
    NothingNewIsReflexive(s.ledger, code);
    var scope := if r.scope.Some? then r.scope.value else "read";
    var claims := ClientClaims(k, env.now, r.clientId, scope);
    var jwt := k.encode(claims, k.jwtSecret);
    if jwt.Some? {
      AccessOfAnother(s, None, claims, jwt.value, env.now, code);
    }
  }

  /** The phases that write to the tables without issuing a token. */
  lemma WriteStaysDead(k: Config, env: Env, s: State, ph: Phase, code: string)
    requires Dead(s, code) && HoldsNothingOf(s.ledger, code, ph)
    requires ph.InsertCode? || ph.MarkCode? || ph.DropExpired? || ph.DropRotated? || ph.DropRevoked?
    ensures StaysDead(k, env, s, ph, code)
  {
    var (s', ph') := Advance(k, env, s.tables, s, ph);
    assert code in s'.tables.codes && s'.tables.codes[code].used;
    assert s'.ledger.mints == s.ledger.mints && s'.ledger.access == s.ledger.access;
    forall t | t in s'.tables.tokens ensures !MintOf(s'.ledger, t, code) {
      assert !MintOf(s.ledger, t, code);
    }
  }

  lemma IssueStaysDead(k: Config, env: Env, s: State, ph: Phase, code: string)
    requires Dead(s, code) && HoldsNothingOf(s.ledger, code, ph) && env.token !in s.ledger.mints
    requires ph.ReadCodeUser? || ph.InsertFirst? || ph.ReadTokenUser? || ph.InsertNext?
    ensures StaysDead(k, env, s, ph, code)
  {
    hide Dead, NothingNew, UserClaims, MintToken, LogAccess;
    NothingNewIsReflexive(s.ledger, code);
    var (s', ph') := Advance(k, env, s.tables, s, ph);
    match ph
    case ReadCodeUser(g, row) =>
      if ph'.InsertFirst? {
        AccessOfAnother(s, Some(FromCode(g.code)), UserClaims(k, env.now, ph'.user, g.clientId, row.scopes), ph'.jwt, env.now, code);
      }
    case InsertFirst(g, row, u, _) =>
      var token := NewToken(k, env.now, env.token, g.clientId, u.id, row.scopes);
      if MintToken(s, token, FromCode(g.code), env.now).Success? {
        MintOfAnother(s, token, FromCode(g.code), env.now, code);
      }
    case ReadTokenUser(r, stored) =>
      if ph'.InsertNext? {
        var claims := UserClaims(k, env.now, ph'.user, r.clientId, stored.scopes);
        AccessOfAnother(s, Some(FromToken(r.token)), claims, ph'.jwt, env.now, code);
        LogKeepsMints(s.ledger, Some(FromToken(r.token)), claims, ph'.jwt, env.now);
      }
    case InsertNext(r, stored, u, _) =>
      var token := NewToken(k, env.now, env.token, r.clientId, u.id, stored.scopes);
      if MintToken(s, token, FromToken(r.token), env.now).Success? {
        MintOfAnother(s, token, FromToken(r.token), env.now, code);
      }
  }

  lemma LogKeepsMints(l: Ledger, source: Option<Source>, claims: Claims, jwt: string, now: int)
    ensures LogAccess(l, source, claims, jwt, now).mints == l.mints
  {
  }

  lemma ReadStaysDead(k: Config, env: Env, s: State, ph: Phase, code: string)
    requires Dead(s, code) && TablesSound(s.ledger, s.tables)
    requires ph.CheckUser? || ph.ReadCode? || ph.ReadToken? || ph.Done?
    ensures StaysDead(k, env, s, ph, code)
  {
    NothingNewIsReflexive(s.ledger, code);
    hide NothingNew, CheckLogin;
    if ph.ReadToken? {
      ReadTokenStaysDead(k, env, s, ph, code);
    } else {
      hide TablesSound;
    }
  }

  lemma ReadTokenStaysDead(k: Config, env: Env, s: State, ph: Phase, code: string)
    requires Dead(s, code) && TablesSound(s.ledger, s.tables) && ph.ReadToken?
    ensures StaysDead(k, env, s, ph, code)
  {
    NothingNewIsReflexive(s.ledger, code);
    hide NothingNew;
    if ph.r.token in s.tables.tokens {
      assert !MintOf(s.ledger, ph.r.token, code);
    }
  }

  lemma StepStaysDead(k: Config, env: Env, s: State, ph: Phase, code: string)
    requires Dead(s, code) && HoldsNothingOf(s.ledger, code, ph)
    requires TablesSound(s.ledger, s.tables) && env.token !in s.ledger.mints
    ensures StaysDead(k, env, s, ph, code)
  {
    hide Dead, StaysDead, TablesSound;
    if ph.Start? {
      StartStaysDead(k, env, s, ph.req, code);
    } else if ph.CheckUser? || ph.ReadCode? || ph.ReadToken? || ph.Done? {
      ReadStaysDead(k, env, s, ph, code);
    } else if ph.ReadCodeUser? || ph.InsertFirst? || ph.ReadTokenUser? || ph.InsertNext? {
      IssueStaysDead(k, env, s, ph, code);
    } else {
      WriteStaysDead(k, env, s, ph, code);
    }
  }

  lemma {:induction false} DriveStaysDead(k: Config, env: Env, s: State, ph: Phase, code: string)
    requires Solo(k, env, s, ph) && Dead(s, code) && HoldsNothingOf(s.ledger, code, ph)
    ensures var s' := Drive(k, env, s, ph).0; Dead(s', code) && NothingNew(s.ledger, s'.ledger, code)
    decreases ph.Remaining()
  {
    hide Dead, HoldsNothingOf, NothingNew, Once, PhaseOnce, PhaseSound, StateSound, TablesSound, Older, Grows, Advance;
    NothingNewIsReflexive(s.ledger, code);
    NothingChanged(s.tables, s.ledger);
    if !ph.Done? {
      var (s', ph') := Advance(k, env, s.tables, s, ph);
      DriveStep(k, env, s, ph);
      StateSoundParts(k, s);
      StepKeeps(k, env, s.tables, s, ph);
      StepOnce(k, env, s, ph);
      StepStaysDead(k, env, s, ph, code);
      if !ph'.Done? {
        FreshStays(k, env, s, ph);
        DriveStaysDead(k, env, s', ph', code);
        DriveOnce(k, env, s', ph');
        NothingNewIsTransitive(s.ledger, s'.ledger, Drive(k, env, s, ph).0.ledger, code);
      }
    }
  }

  lemma {:induction false} ServeAllStaysDead(k: Config, s: State, clock: int, calls: seq<Call>, code: string)
    requires Inv(k, s) && Dead(s, code) && CallsOk(k, s, clock, calls)
    ensures var s' := ServeAll(k, s, calls); Dead(s', code) && NothingNew(s.ledger, s'.ledger, code)
    decreases |calls|
  {
    hide Dead, NothingNew, StateSound, Once, Older, Grows;
    NothingNewIsReflexive(s.ledger, code);
    if calls != [] {
      var s' := Serve(k, s, calls[0]).0;
      DriveStaysDead(k, calls[0].env, s, Start(calls[0].req), code);
      ServeKeeps(k, s, clock, calls[0]);
      ServeAllStaysDead(k, s', calls[0].env.now, calls[1..], code);
      ServeAllKeeps(k, s', calls[0].env.now, calls[1..]);
      NothingNewIsTransitive(s.ledger, s'.ledger, ServeAll(k, s, calls).ledger, code);
    }
  }

  // ---------------------------------------------------------------- theorems

  /** What `revoke` answers and leaves, in closed form. */
  lemma RevokeInClosedForm(k: Config, s: State, env: Env, token: string, clientId: string, secret: string)
    ensures
      Serve(k, s, Call(env, Revoke(token, clientId, secret))) ==
      match AuthenticateClient(k, s.tables, clientId, secret)
      case Failure(e) => (s, Failure(e))
      case Success(_) => (Drop(s, token), Success(Revoked))
  {
    DriveStep(k, env, s, Start(Revoke(token, clientId, secret)));
    DriveStep(k, env, s, DropRevoked(token));
  }

  /**
   * Whose token it is makes no difference: a token of another client is deleted exactly if the revoking client
   * authenticates, and that client is then told that it succeeded.
   */
  lemma ForeignRevocationIff(k: Config, s: State, env: Env, token: string, clientId: string, secret: string)
    requires token in s.tables.tokens && s.tables.tokens[token].clientId != clientId
    ensures
      var (s', a) := Serve(k, s, Call(env, Revoke(token, clientId, secret)));
      && (token !in s'.tables.tokens <==>
            clientId in s.tables.clients && k.verifyPassword(secret, s.tables.clients[clientId].secretHash) == Match)
      && (token !in s'.tables.tokens <==> a == Success(Revoked))
  {
    hide Serve;
    RevokeInClosedForm(k, s, env, token, clientId, secret);
  }

  /** A revocation leaves the token's code without a live token. */
  lemma RevokeLeavesNone(s: State, token: string)
    requires OneLive(s) && UnusedUntouched(s) && token in s.tables.tokens && token in s.ledger.mints
    requires s.ledger.mints[token].lineage.code in s.tables.codes
    ensures Dead(Drop(s, token), s.ledger.mints[token].lineage.code)
  {
    TouchedIsUsed(s, token);
  }

  lemma CodeOnRecord(k: Config, s: State, token: string)
    requires StateSound(k, s) && token in s.tables.tokens
    ensures token in s.ledger.mints && s.ledger.mints[token].lineage.code in s.tables.codes
  {
    assert MintSound(k, s.ledger, token, s.ledger.mints[token]);
  }

  /**
   * Once a live refresh token is revoked, no later request in any run obtains an access or refresh token
   * that descends from its code.
   */
  lemma RevocationEndsTheGrant(
    k: Config, clock: int, before: seq<Call>, env: Env, token: string, clientId: string, secret: string, after: seq<Call>)
    requires CallsOk(k, EMPTY, clock, before)
    requires
      var s := ServeAll(k, EMPTY, before);
      var (s', a) := Serve(k, s, Call(env, Revoke(token, clientId, secret)));
      token in s.tables.tokens && a.Success? && CallsOk(k, s', env.now, after)
    ensures
      var s := ServeAll(k, EMPTY, before);
      var s' := Serve(k, s, Call(env, Revoke(token, clientId, secret))).0;
      && token in s.ledger.mints
      && NothingNew(s'.ledger, ServeAll(k, s', after).ledger, s.ledger.mints[token].lineage.code)
  {
    hide StateSound, Once, OneLive, UnusedUntouched, Dead, NothingNew, Serve, ServeAll, CallsOk;
    EmptyIsFine(k);
    ServeAllKeeps(k, EMPTY, clock, before);
    var s := ServeAll(k, EMPTY, before);
    RevokeInClosedForm(k, s, env, token, clientId, secret);
    OnceParts(k, s);
    CodeOnRecord(k, s, token);
    RevokeLeavesNone(s, token);
    DropOfSoundIsFine(k, s, token);
    ServeAllStaysDead(k, Drop(s, token), env.now, after, s.ledger.mints[token].lineage.code);
  }

  lemma DropOfSoundIsFine(k: Config, s: State, token: string)
    requires Inv(k, s)
    ensures Inv(k, Drop(s, token))
  {
    hide StateSound, Once;
    DropKeeps(k, s, token);
    OnceOfTables(k, s, Drop(s, token).tables);
  }

  /** Revoking again, or revoking a token that is not there, changes nothing and still succeeds. */
  lemma RevokeIsIdempotent(k: Config, s: State, env: Env, env': Env, token: string, clientId: string, secret: string)
    ensures
      var revoke := Revoke(token, clientId, secret);
      var (s', a) := Serve(k, s, Call(env, revoke));
      && (a.Success? ==> Serve(k, s', Call(env', revoke)) == (s', a))
      && (a.Success? && token !in s.tables.tokens ==> s' == s)
      && (a.Success? <==> AuthenticateClient(k, s.tables, clientId, secret).Success?)
  {
    var s' := Serve(k, s, Call(env, Revoke(token, clientId, secret))).0;
    RevokeInClosedForm(k, s, env, token, clientId, secret);
    RevokeInClosedForm(k, s', env', token, clientId, secret);
    assert token !in s.tables.tokens ==> s.tables.tokens - {token} == s.tables.tokens;
    assert (s.tables.tokens - {token}) - {token} == s.tables.tokens - {token};
  }
}

/** A request that fails leaves nothing half done. */
module Failures {
  import opened TokenService
  import opened OAuthFlow
  import opened Provenance
  import opened AtomicRuns

  /** What a failed request may leave behind: nothing, or the removal of a refresh token that had expired. */
  ghost predicate Clean(s: State, s': State, now: int) {
    || s' == s
    || exists t | t in s.tables.tokens :: s.tables.tokens[t].expiresAt < now && s' == Drop(s, t)
  }

  predicate Writing(ph: Phase) {
    ph.MarkCode? || ph.ReadCodeUser? || ph.InsertFirst? || ph.DropRotated? || ph.ReadTokenUser? || ph.InsertNext? || ph.DropRevoked?
  }

  /** The user a code or token was issued for still exists. */
  lemma UserExists(k: Config, s: State, ph: Phase)
    requires StateSound(k, s) && PhaseSound(k, s.tables, s.ledger, ph)
    ensures ph.ReadCodeUser? ==> ph.row.userId in s.tables.users
    ensures ph.ReadTokenUser? ==> ph.stored.userId in s.tables.users
  {
    if ph.ReadCodeUser? {
      GrantUserExists(k, s, ph.g.code);
    } else if ph.ReadTokenUser? {
      hide StateSound, TablesSound;
      MintOnRecord(k, s, ph.r.token);
      GrantUserExists(k, s, s.ledger.mints[ph.r.token].lineage.code);
    }
  }

  lemma GrantUserExists(k: Config, s: State, code: string)
    requires StateSound(k, s) && code in s.ledger.grants
    ensures s.ledger.grants[code].row.userId in s.tables.users
  {
    assert GrantSound(k, s.tables, code, s.ledger.grants[code]);
  }

  lemma FreshTokenNotInTables(k: Config, s: State, token: string)
    requires StateSound(k, s) && token !in s.ledger.mints
    ensures token !in s.tables.tokens
  {
  }

  /** Once a request has begun to write, no step of it fails. */
  lemma WritingStepSucceeds(k: Config, env: Env, s: State, ph: Phase)
    requires StateSound(k, s) && PhaseSound(k, s.tables, s.ledger, ph) && env.token !in s.ledger.mints
    requires k.EncodeTotal() && Writing(ph)
    ensures var ph' := Advance(k, env, s.tables, s, ph).1; Writing(ph') || (ph'.Done? && ph'.answer.Success?)
  {
    hide StateSound;
    UserExists(k, s, ph);
    FreshTokenNotInTables(k, s, env.token);
    match ph
    case ReadCodeUser(g, row) =>
      assert k.encode(UserClaims(k, env.now, s.tables.users[row.userId], g.clientId, row.scopes), k.jwtSecret).Some?;
    case ReadTokenUser(r, stored) =>
      assert k.encode(UserClaims(k, env.now, s.tables.users[stored.userId], r.clientId, stored.scopes), k.jwtSecret).Some?;
    case InsertFirst(g, row, u, jwt) =>
      assert u.id in s.tables.users;
    case InsertNext(r, stored, u, jwt) =>
      assert u.id in s.tables.users;
    case _ =>
  }

  lemma {:induction false} WritingSucceeds(k: Config, env: Env, s: State, ph: Phase)
    requires Solo(k, env, s, ph) && k.EncodeTotal() && (Writing(ph) || (ph.Done? && ph.answer.Success?))
    ensures Drive(k, env, s, ph).1.Success?
    decreases ph.Remaining()
  {
    hide StateSound, PhaseSound, Once, PhaseOnce, TablesSound, Older, Grows, Advance, Config.EncodeTotal;
    if !ph.Done? {
      var (s', ph') := Advance(k, env, s.tables, s, ph);
      DriveStep(k, env, s, ph);
      StateSoundParts(k, s);
      NothingChanged(s.tables, s.ledger);
      StepKeeps(k, env, s.tables, s, ph);
      StepOnce(k, env, s, ph);
      WritingStepSucceeds(k, env, s, ph);
      if !ph'.Done? {
        FreshStays(k, env, s, ph);
        WritingSucceeds(k, env, s', ph');
      }
    }
  }

  /** A step before the first write changes nothing, unless it is the last and succeeds, or drops an expired token. */
  lemma ReadingStep(k: Config, env: Env, s: State, ph: Phase)
    requires !Writing(ph)
    ensures
      var (s', ph') := Advance(k, env, s.tables, s, ph);
      && (s' == s || (ph'.Done? && ph'.answer.Success?) || (ph.DropExpired? && s' == Drop(s, ph.r.token)))
      && (ph'.DropExpired? ==> ph'.r.token in s.tables.tokens && s.tables.tokens[ph'.r.token].expiresAt < env.now)
      && (ph.DropExpired? ==> ph'.Done?)
  {
    if ph.Start? {
      ReadingStart(k, env, s, ph.req);
    }
    hide AtStart, Drop, CheckLogin, CheckCode, NewCode;
  }

  lemma ReadingStart(k: Config, env: Env, s: State, req: Request)
    ensures
      var (s', ph') := AtStart(k, env, s.tables, s, req);
      !ph'.DropExpired? && (s' == s || (ph'.Done? && ph'.answer.Success?))
  {
    hide AuthenticateClient, CheckAuthorize, ClientClaims, LogAccess;
  }

  lemma {:induction false} DriveFailsClean(k: Config, env: Env, s: State, ph: Phase)
    requires Solo(k, env, s, ph) && k.EncodeTotal()
    requires ph.DropExpired? ==> ph.r.token in s.tables.tokens && s.tables.tokens[ph.r.token].expiresAt < env.now
    ensures var (s', a) := Drive(k, env, s, ph); a.Failure? ==> Clean(s, s', env.now)
    decreases ph.Remaining()
  {
    hide StateSound, PhaseSound, Once, PhaseOnce, TablesSound, Older, Grows, Advance, Config.EncodeTotal;
    if Writing(ph) {
      WritingSucceeds(k, env, s, ph);
    } else if !ph.Done? {
      var (s', ph') := Advance(k, env, s.tables, s, ph);
      DriveStep(k, env, s, ph);
      StateSoundParts(k, s);
      NothingChanged(s.tables, s.ledger);
      StepKeeps(k, env, s.tables, s, ph);
      StepOnce(k, env, s, ph);
      ReadingStep(k, env, s, ph);
      if !ph'.Done? {
        FreshStays(k, env, s, ph);
        DriveFailsClean(k, env, s', ph');
      }
    }
  }

  /**
   * In every run of requests served one at a time, with encoding that never fails: a request that is
   * answered with an error changes none of the tables and issues nothing, except that presenting an expired
   * refresh token removes it.
   */
  lemma NothingHalfDone(k: Config, clock: int, before: seq<Call>, call: Call)
    requires CallsOk(k, EMPTY, clock, before) && k.EncodeTotal()
    requires call.env.token !in ServeAll(k, EMPTY, before).ledger.mints
    ensures
      var s := ServeAll(k, EMPTY, before);
      var (s', a) := Serve(k, s, call);
      a.Failure? ==> Clean(s, s', call.env.now)
  {
    hide StateSound, Once, ServeAll, CallsOk;
    EmptyIsFine(k);
    ServeAllKeeps(k, EMPTY, clock, before);
    DriveFailsClean(k, call.env, ServeAll(k, EMPTY, before), Start(call.req));
  }
}

/**
 * Requests served one at a time on one database, under a clock that never runs backwards. Each code is
 * redeemed at most once, at most one refresh token of its chain is live, and every issue time is bounded.
 */
module AtomicRuns {
  import opened Wrappers
  import opened AuthTables
  import opened TokenService
  import opened OAuthFlow
  import opened Provenance

  datatype Call = Call(env: Env, req: Request)

  /** Random tokens never repeat, and the clock does not run backwards. */
  ghost predicate CallOk(s: State, clock: int, call: Call) {
    clock <= call.env.now && call.env.token !in s.ledger.mints
  }

  function Serve(k: Config, s: State, call: Call): (State, Answer) {
    Drive(k, call.env, s, Start(call.req))
  }

  ghost predicate CallsOk(k: Config, s: State, clock: int, calls: seq<Call>)
    decreases |calls|
  {
    calls == [] ||
    (CallOk(s, clock, calls[0]) && CallsOk(k, Serve(k, s, calls[0]).0, calls[0].env.now, calls[1..]))
  }

  ghost function ServeAll(k: Config, s: State, calls: seq<Call>): State
    decreases |calls|
  {
    if calls == [] then s else ServeAll(k, Serve(k, s, calls[0]).0, calls[1..])
  }

  const EMPTY := State(NO_TABLES, NO_LEDGER)

  // ---------------------------------------------------------------- the invariant

  ghost predicate MintOf(l: Ledger, t: string, code: string) {
    t in l.mints && l.mints[t].lineage.code == code
  }

  ghost predicate AccessOf(l: Ledger, i: int, code: string) {
    0 <= i < |l.access| && l.access[i].lineage.Some? && l.access[i].lineage.value.code == code
  }

  /** Nothing was ever issued from the code. */
  ghost predicate Untouched(l: Ledger, code: string) {
    (forall t | t in l.mints :: !MintOf(l, t, code)) && (forall i | 0 <= i < |l.access| :: !AccessOf(l, i, code))
  }

  ghost predicate NoMintFrom(l: Ledger, source: Source) {
    forall t | t in l.mints :: l.mints[t].lineage.source != source
  }

  ghost predicate NoAccessFrom(l: Ledger, source: Source) {
    forall i | 0 <= i < |l.access| :: l.access[i].lineage.Some? ==> l.access[i].lineage.value.source != source
  }

  /** No refresh token in the tables descends from the code. */
  ghost predicate NoLive(s: State, code: string) {
    forall t | t in s.tables.tokens :: !MintOf(s.ledger, t, code)
  }

  /** The latest time at which a token of this rank can have been issued. */
  function Deadline(k: Config, grantedAt: int, rank: nat): int {
    grantedAt + CODE_TTL + rank * k.RefreshTtl()
  }

  ghost predicate InTime(k: Config, l: Ledger, lin: Lineage, at: int) {
    lin.code in l.grants && at <= Deadline(k, l.grants[lin.code].at, lin.rank)
  }

  /** At most one live refresh token descends from each code. */
  ghost predicate OneLive(s: State) {
    forall t, u | t in s.tables.tokens && u in s.tables.tokens && t in s.ledger.mints && u in s.ledger.mints
                  && s.ledger.mints[t].lineage.code == s.ledger.mints[u].lineage.code :: t == u
  }

  /** A code is exchanged, and a refresh token rotated, at most once. */
  ghost predicate SpentOnce(l: Ledger) {
    && (forall t, u | t in l.mints && u in l.mints && l.mints[t].lineage.source == l.mints[u].lineage.source :: t == u)
    && (forall i, j | 0 <= i < j < |l.access| && l.access[i].lineage.Some? && l.access[j].lineage.Some? ::
          l.access[i].lineage.value.source != l.access[j].lineage.value.source)
  }

  ghost predicate UnusedUntouched(s: State) {
    forall c | c in s.tables.codes && !s.tables.codes[c].used :: Untouched(s.ledger, c)
  }

  ghost predicate LiveUnspent(s: State) {
    forall t | t in s.tables.tokens :: NoMintFrom(s.ledger, FromToken(t)) && NoAccessFrom(s.ledger, FromToken(t))
  }

  ghost predicate AllInTime(k: Config, l: Ledger) {
    && (forall t | t in l.mints :: InTime(k, l, l.mints[t].lineage, l.mints[t].at))
    && (forall i | 0 <= i < |l.access| ::
          l.access[i].lineage.Some? ==> InTime(k, l, l.access[i].lineage.value, l.access[i].at))
  }

  ghost predicate Once(k: Config, s: State) {
    OneLive(s) && SpentOnce(s.ledger) && UnusedUntouched(s) && LiveUnspent(s) && AllInTime(k, s.ledger)
  }

  /** What holds besides, part of the way through a request that runs alone. */
  ghost predicate PhaseOnce(k: Config, env: Env, s: State, ph: Phase) {
    match ph
    case MarkCode(g, row) =>
      && g.code in s.tables.codes && !s.tables.codes[g.code].used
      && env.now <= row.expiresAt
    case ReadCodeUser(g, row) =>
      Untouched(s.ledger, g.code) && g.code in s.tables.codes && s.tables.codes[g.code].used && env.now <= row.expiresAt
    case InsertFirst(g, row, _, _) =>
      && (forall t | t in s.ledger.mints :: !MintOf(s.ledger, t, g.code))
      && g.code in s.tables.codes && s.tables.codes[g.code].used && env.now <= row.expiresAt
    case DropRotated(r, stored) =>
      r.token in s.tables.tokens && env.now <= stored.expiresAt
    case ReadTokenUser(r, stored) =>
      && r.token in s.ledger.mints && NoLive(s, s.ledger.mints[r.token].lineage.code)
      && NoMintFrom(s.ledger, FromToken(r.token)) && NoAccessFrom(s.ledger, FromToken(r.token))
      && env.now <= stored.expiresAt
    case InsertNext(r, stored, _, _) =>
      && r.token in s.ledger.mints && NoLive(s, s.ledger.mints[r.token].lineage.code)
      && NoMintFrom(s.ledger, FromToken(r.token))
      && env.now <= stored.expiresAt
    case _ => true
  }

  // ---------------------------------------------------------------- what each write keeps

  lemma OnceOfTables(k: Config, s: State, t: Tables)
    requires Once(k, s)
    requires forall c | c in t.codes && !t.codes[c].used :: c in s.tables.codes && !s.tables.codes[c].used
    requires forall r | r in t.tokens :: r in s.tables.tokens
    ensures Once(k, s.(tables := t))
  {
    hide Untouched, SpentOnce, AllInTime, NoMintFrom, NoAccessFrom;
  }

  /** No lineage on record leads to a code or token that is not on record. */
  lemma LineagesAreKnown(k: Config, s: State, code: string, token: string)
    requires StateSound(k, s)
    ensures code !in s.ledger.grants ==> Untouched(s.ledger, code)
    ensures token !in s.ledger.mints ==> NoMintFrom(s.ledger, FromToken(token)) && NoAccessFrom(s.ledger, FromToken(token))
  {
    hide TablesSound, GrantSound;
    forall t | t in s.ledger.mints ensures LineageSound(s.ledger, s.ledger.mints[t].lineage) {
      assert MintSound(k, s.ledger, t, s.ledger.mints[t]);
    }
    forall i | 0 <= i < |s.ledger.access| && s.ledger.access[i].lineage.Some?
      ensures LineageSound(s.ledger, s.ledger.access[i].lineage.value)
    {
      assert AccessSound(k, s.tables, s.ledger, s.ledger.access[i]);
    }
  }

  lemma SameIssues(l: Ledger, l': Ledger, code: string)
    requires Untouched(l, code) && l'.mints == l.mints && l'.access == l.access
    ensures Untouched(l', code)
  {
    forall i | 0 <= i < |l'.access| ensures !AccessOf(l', i, code) {
      assert !AccessOf(l, i, code);
    }
    forall t | t in l'.mints ensures !MintOf(l', t, code) {
      assert !MintOf(l, t, code);
    }
  }

  lemma RecordGrantOnce(k: Config, s: State, t: Tables, row: AuthCode, login: Login, now: int)
    requires Once(k, s) && row.code !in s.ledger.grants && Untouched(s.ledger, row.code)
    requires t.tokens == s.tables.tokens && t.codes == s.tables.codes[row.code := row]
    ensures Once(k, State(t, RecordGrant(s.ledger, row, login, now)))
  {
    var l, l' := s.ledger, RecordGrant(s.ledger, row, login, now);
    assert SpentOnce(l') && AllInTime(k, l');
    hide SpentOnce, AllInTime, Untouched;
    forall c | c in t.codes && !t.codes[c].used ensures Untouched(l', c) {
      SameIssues(l, l', c);
    }
    forall r | r in t.tokens ensures NoMintFrom(l', FromToken(r)) && NoAccessFrom(l', FromToken(r)) {
      assert NoMintFrom(l, FromToken(r)) && NoAccessFrom(l, FromToken(r));
    }
  }

  lemma GrantOnce(k: Config, s: State, row: AuthCode, login: Login, now: int)
    requires StateSound(k, s) && Once(k, s) && GrantCode(s, row, login, now).Success?
    ensures Once(k, GrantCode(s, row, login, now).value)
  {
    hide Once, TablesSound, LedgerSound, RecordGrant, Untouched;
    LineagesAreKnown(k, s, row.code, "");
    RecordGrantOnce(k, s, GrantCode(s, row, login, now).value.tables, row, login, now);
  }

  /** Issuing an access token from a source that has issued none, and whose code is used. */
  lemma LogOnce(k: Config, s: State, source: Source, claims: Claims, jwt: string, now: int)
    requires Once(k, s) && NoAccessFrom(s.ledger, source)
    requires
      var lin := s.ledger.LineageFrom(source);
      InTime(k, s.ledger, lin, now) && (lin.code in s.tables.codes ==> s.tables.codes[lin.code].used)
    requires source.FromToken? ==> source.token !in s.tables.tokens
    ensures Once(k, s.(ledger := LogAccess(s.ledger, Some(source), claims, jwt, now)))
  {
    var lin := s.ledger.LineageFrom(source);
    assert lin.source == source;
    var l := s.ledger;
    var l' := LogAccess(l, Some(source), claims, jwt, now);
    var s' := s.(ledger := l');
    assert l'.access == l.access + [Access(Some(lin), claims, jwt, now)];
    hide LogAccess;
    assert AllInTime(k, l');
    assert SpentOnce(l');
    hide SpentOnce, AllInTime;
    forall c | c in s.tables.codes && !s.tables.codes[c].used ensures Untouched(l', c) {
      assert Untouched(l, c);
      assert forall i | 0 <= i < |l.access| :: AccessOf(l', i, c) == AccessOf(l, i, c);
    }
    forall t | t in s.tables.tokens ensures NoMintFrom(l', FromToken(t)) && NoAccessFrom(l', FromToken(t)) {
      assert NoMintFrom(l, FromToken(t)) && NoAccessFrom(l, FromToken(t));
    }
  }

  lemma LogClientOnce(k: Config, s: State, claims: Claims, jwt: string, now: int)
    requires Once(k, s)
    ensures Once(k, s.(ledger := LogAccess(s.ledger, None, claims, jwt, now)))
  {
    var l := s.ledger;
    var l' := LogAccess(l, None, claims, jwt, now);
    assert l'.access == l.access + [Access(None, claims, jwt, now)];
    hide LogAccess;
    assert AllInTime(k, l') && SpentOnce(l');
    hide SpentOnce, AllInTime;
    forall c | c in s.tables.codes && !s.tables.codes[c].used ensures Untouched(l', c) {
      assert Untouched(l, c);
      assert forall i | 0 <= i < |l.access| :: AccessOf(l', i, c) == AccessOf(l, i, c);
    }
    forall t | t in s.tables.tokens ensures NoMintFrom(l', FromToken(t)) && NoAccessFrom(l', FromToken(t)) {
      assert NoMintFrom(l, FromToken(t)) && NoAccessFrom(l, FromToken(t));
    }
  }

  lemma MintLedgerOnce(k: Config, l: Ledger, row: RefreshToken, source: Source, now: int)
    requires SpentOnce(l) && AllInTime(k, l)
    requires row.token !in l.mints && NoMintFrom(l, source) && InTime(k, l, l.LineageFrom(source), now)
    ensures SpentOnce(RecordMint(l, row, source, now)) && AllInTime(k, RecordMint(l, row, source, now))
  {
  }

  lemma MintTouchesOneCode(l: Ledger, row: RefreshToken, source: Source, now: int, code: string)
    requires Untouched(l, code) && row.token !in l.mints && code != l.LineageFrom(source).code
    ensures Untouched(RecordMint(l, row, source, now), code)
  {
    var l' := RecordMint(l, row, source, now);
    forall i | 0 <= i < |l'.access| ensures !AccessOf(l', i, code) {
      assert !AccessOf(l, i, code);
    }
    forall t | t in l'.mints ensures !MintOf(l', t, code) {
      assert t in l.mints ==> !MintOf(l, t, code);
    }
  }

  lemma MintOneLive(s: State, row: RefreshToken, source: Source, now: int)
    requires OneLive(s) && row.token !in s.ledger.mints && NoLive(s, s.ledger.LineageFrom(source).code)
    ensures OneLive(State(s.tables.(tokens := s.tables.tokens[row.token := row]), RecordMint(s.ledger, row, source, now)))
  {
    var code, l := s.ledger.LineageFrom(source).code, s.ledger;
    assert forall t | t in s.tables.tokens && t in l.mints :: l.mints[t].lineage.code != code by {
      assert forall t | t in s.tables.tokens :: !MintOf(l, t, code);
    }
  }

  lemma MintLiveUnspent(s: State, row: RefreshToken, source: Source, now: int)
    requires LiveUnspent(s) && row.token !in s.ledger.mints
    requires NoMintFrom(s.ledger, FromToken(row.token)) && NoAccessFrom(s.ledger, FromToken(row.token))
    requires source.FromToken? ==> source.token !in s.tables.tokens && source.token != row.token
    ensures LiveUnspent(State(s.tables.(tokens := s.tables.tokens[row.token := row]), RecordMint(s.ledger, row, source, now)))
  {
    var l, l' := s.ledger, RecordMint(s.ledger, row, source, now);
    forall t | t in s.tables.tokens || t == row.token
      ensures NoMintFrom(l', FromToken(t)) && NoAccessFrom(l', FromToken(t))
    {
      assert NoMintFrom(l, FromToken(t)) && NoAccessFrom(l, FromToken(t));
      assert l.LineageFrom(source).source == source;
    }
  }

  /** Issuing a refresh token from a source that has minted none, whose code is used and has none live. */
  lemma MintOnce(k: Config, s: State, row: RefreshToken, source: Source, now: int)
    requires StateSound(k, s) && Once(k, s) && MintToken(s, row, source, now).Success?
    requires row.token !in s.ledger.mints && NoMintFrom(s.ledger, source)
    requires
      var lin := s.ledger.LineageFrom(source);
      && InTime(k, s.ledger, lin, now) && NoLive(s, lin.code)
      && (lin.code in s.tables.codes ==> s.tables.codes[lin.code].used)
    requires source.FromToken? ==> source.token !in s.tables.tokens && source.token in s.ledger.mints
    ensures Once(k, MintToken(s, row, source, now).value)
  {
    hide StateSound, OneLive, LiveUnspent, SpentOnce, AllInTime, Untouched, RecordMint;
    LineagesAreKnown(k, s, "", row.token);
    MintLedgerOnce(k, s.ledger, row, source, now);
    MintOneLive(s, row, source, now);
    MintLiveUnspent(s, row, source, now);
    var s' := MintToken(s, row, source, now).value;
    forall c | c in s'.tables.codes && !s'.tables.codes[c].used ensures Untouched(s'.ledger, c) {
      MintTouchesOneCode(s.ledger, row, source, now, c);
    }
    assert s'.tables == s.tables.(tokens := s.tables.tokens[row.token := row]);
  }

  // ---------------------------------------------------------------- what each step of a lone request keeps

  /** Nothing was issued straight from a code that no token descends from. */
  lemma NothingFromCode(k: Config, s: State, code: string)
    requires StateSound(k, s)
    ensures (forall t | t in s.ledger.mints :: !MintOf(s.ledger, t, code)) ==> NoMintFrom(s.ledger, FromCode(code))
    ensures Untouched(s.ledger, code) ==> NoAccessFrom(s.ledger, FromCode(code))
  {
    hide TablesSound, GrantSound;
    forall t | t in s.ledger.mints && s.ledger.mints[t].lineage.source == FromCode(code)
      ensures MintOf(s.ledger, t, code)
    {
      assert MintSound(k, s.ledger, t, s.ledger.mints[t]);
    }
    forall i | 0 <= i < |s.ledger.access| && s.ledger.access[i].lineage.Some?
               && s.ledger.access[i].lineage.value.source == FromCode(code)
      ensures AccessOf(s.ledger, i, code)
    {
      assert AccessSound(k, s.tables, s.ledger, s.ledger.access[i]);
    }
  }

  /** A code still within its expiry is within the deadline of rank 0, a refresh token within the next rank's. */
  lemma CodeInTime(k: Config, s: State, g: CodeGrant, row: AuthCode, now: int)
    requires StateSound(k, s) && CodeRowSound(s.ledger, g, row) && now <= row.expiresAt
    ensures InTime(k, s.ledger, s.ledger.LineageFrom(FromCode(g.code)), now)
  {
    assert GrantSound(k, s.tables, g.code, s.ledger.grants[g.code]);
  }

  lemma NextDeadline(k: Config, at: int, rank: nat)
    ensures Deadline(k, at, rank + 1) == Deadline(k, at, rank) + k.RefreshTtl()
  {
    hide Config.RefreshTtl;
    var ttl := k.RefreshTtl();
    assert (rank + 1) * ttl == rank * ttl + ttl;
  }

  lemma InTimeOnRecord(k: Config, l: Ledger, token: string)
    requires AllInTime(k, l) && token in l.mints
    ensures InTime(k, l, l.mints[token].lineage, l.mints[token].at)
  {
    hide InTime;
  }

  lemma TokenInTime(k: Config, s: State, r: RefreshGrant, stored: RefreshToken, now: int)
    requires StateSound(k, s) && AllInTime(k, s.ledger) && TokenRowSound(s.ledger, r, stored) && now <= stored.expiresAt
    ensures InTime(k, s.ledger, s.ledger.LineageFrom(FromToken(r.token)), now)
  {
    hide StateSound, AllInTime, Deadline, Config.RefreshTtl;
    var mint := s.ledger.mints[r.token];
    MintOnRecord(k, s, r.token);
    InTimeOnRecord(k, s.ledger, r.token);
    NextDeadline(k, s.ledger.grants[mint.lineage.code].at, mint.lineage.rank);
  }

  /** The code a token descends from is used. */
  lemma TouchedIsUsed(s: State, token: string)
    requires UnusedUntouched(s) && token in s.ledger.mints
    ensures var c := s.ledger.mints[token].lineage.code; c in s.tables.codes ==> s.tables.codes[c].used
  {
    var c := s.ledger.mints[token].lineage.code;
    assert MintOf(s.ledger, token, c);
  }

  lemma NotLive(s: State, token: string)
    requires token in s.ledger.mints && NoLive(s, s.ledger.mints[token].lineage.code)
    ensures token !in s.tables.tokens
  {
    assert MintOf(s.ledger, token, s.ledger.mints[token].lineage.code);
  }

  /** Deleting a live token leaves none of its code's, and nothing has been issued from it. */
  lemma RotationLeavesNone(s: State, token: string)
    requires OneLive(s) && LiveUnspent(s) && token in s.tables.tokens && token in s.ledger.mints
    ensures NoLive(Drop(s, token), s.ledger.mints[token].lineage.code)
    ensures NoMintFrom(s.ledger, FromToken(token)) && NoAccessFrom(s.ledger, FromToken(token))
  {
  }

  lemma OnceParts(k: Config, s: State)
    requires Once(k, s)
    ensures OneLive(s) && SpentOnce(s.ledger) && UnusedUntouched(s) && LiveUnspent(s) && AllInTime(k, s.ledger)
  {
    hide OneLive, SpentOnce, UnusedUntouched, LiveUnspent, AllInTime;
  }

  lemma NoLiveCarries(s: State, s': State, code: string)
    requires NoLive(s, code) && s'.tables == s.tables && s'.ledger.mints == s.ledger.mints
    ensures NoLive(s', code)
  {
    forall t | t in s'.tables.tokens ensures !MintOf(s'.ledger, t, code) {
      assert !MintOf(s.ledger, t, code);
    }
  }

  ghost predicate SoloStep(k: Config, env: Env, s: State, ph: Phase) {
    var (s', ph') := Advance(k, env, s.tables, s, ph);
    Once(k, s') && PhaseOnce(k, env, s', ph')
  }

  ghost predicate Solo(k: Config, env: Env, s: State, ph: Phase) {
    && StateSound(k, s) && PhaseSound(k, s.tables, s.ledger, ph)
    && Once(k, s) && PhaseOnce(k, env, s, ph) && env.token !in s.ledger.mints
  }

  lemma RegistrationOnce(k: Config, env: Env, s: State, req: Request)
    requires Once(k, s) && (req.Register? || req.RegisterClient?)
    ensures Once(k, AtStart(k, env, s.tables, s, req).0)
  {
    hide Once;
    SameRowsOnce(k, s, AtStart(k, env, s.tables, s, req).0.tables);
  }

  lemma ClientGrantOnce(k: Config, env: Env, s: State, r: TokenRequest)
    requires Once(k, s)
    ensures Once(k, StartClientGrant(k, env, s.tables, s, r).0)
  {
    hide Once;
    var scope := if r.scope.Some? then r.scope.value else "read";
    var claims := ClientClaims(k, env.now, r.clientId, scope);
    var jwt := k.encode(claims, k.jwtSecret);
    if jwt.Some? {
      LogClientOnce(k, s, claims, jwt.value, env.now);
    }
  }

  lemma StartOnce(k: Config, env: Env, s: State, req: Request)
    requires Solo(k, env, s, Start(req))
    ensures SoloStep(k, env, s, Start(req))
  {
    hide StateSound, Once, StartRegister, StartRegisterClient, StartClientGrant;
    StartPhases(k, env, s.tables, s, req);
    if req.Register? || req.RegisterClient? {
      RegistrationOnce(k, env, s, req);
    } else if req.Token? {
      ClientGrantOnce(k, env, s, req.req);
    }
  }

  lemma SameRowsOnce(k: Config, s: State, t: Tables)
    requires Once(k, s) && t.codes == s.tables.codes && t.tokens == s.tables.tokens
    ensures Once(k, s.(tables := t))
  {
    OnceOfTables(k, s, t);
  }

  lemma MarkCodeOnce(k: Config, env: Env, s: State, g: CodeGrant, row: AuthCode)
    requires Solo(k, env, s, MarkCode(g, row))
    ensures SoloStep(k, env, s, MarkCode(g, row))
  {
    hide StateSound, OneLive, SpentOnce, LiveUnspent, AllInTime, Untouched;
    OnceOfTables(k, s, s.tables.MarkUsed(g.code));
  }

  lemma CodeUserOnce(k: Config, env: Env, s: State, g: CodeGrant, row: AuthCode)
    requires Solo(k, env, s, ReadCodeUser(g, row))
    ensures SoloStep(k, env, s, ReadCodeUser(g, row))
  {
    hide StateSound, Once, InTime, NoAccessFrom, UserClaims;
    var (s', ph') := AtReadCodeUser(k, env, s.tables, s, g, row);
    if ph'.InsertFirst? {
      NothingFromCode(k, s, g.code);
      CodeInTime(k, s, g, row, env.now);
      LogOnce(k, s, FromCode(g.code), UserClaims(k, env.now, ph'.user, g.clientId, row.scopes), ph'.jwt, env.now);
      assert forall t | t in s.ledger.mints :: MintOf(s'.ledger, t, g.code) == MintOf(s.ledger, t, g.code);
    }
  }

  lemma InsertFirstOnce(k: Config, env: Env, s: State, g: CodeGrant, row: AuthCode, u: AuthUser, jwt: string)
    requires Solo(k, env, s, InsertFirst(g, row, u, jwt))
    ensures SoloStep(k, env, s, InsertFirst(g, row, u, jwt))
  {
    hide StateSound, Once, InTime, MintToken, NoMintFrom;
    var token := NewToken(k, env.now, env.token, g.clientId, u.id, row.scopes);
    if MintToken(s, token, FromCode(g.code), env.now).Success? {
      NothingFromCode(k, s, g.code);
      CodeInTime(k, s, g, row, env.now);
      forall t | t in s.tables.tokens ensures !MintOf(s.ledger, t, g.code) {
        assert t in s.ledger.mints ==> !MintOf(s.ledger, t, g.code);
      }
      MintOnce(k, s, token, FromCode(g.code), env.now);
    }
  }

  lemma DropRotatedOnce(k: Config, env: Env, s: State, r: RefreshGrant, stored: RefreshToken)
    requires Solo(k, env, s, DropRotated(r, stored))
    ensures SoloStep(k, env, s, DropRotated(r, stored))
  {
    hide StateSound, Once, OneLive, LiveUnspent, NoMintFrom, NoAccessFrom, NoLive;
    OnceParts(k, s);
    RotationLeavesNone(s, r.token);
    OnceOfTables(k, s, Drop(s, r.token).tables);
  }

  lemma TokenUserOnce(k: Config, env: Env, s: State, r: RefreshGrant, stored: RefreshToken)
    requires Solo(k, env, s, ReadTokenUser(r, stored))
    ensures SoloStep(k, env, s, ReadTokenUser(r, stored))
  {
    hide StateSound, Once, InTime, AllInTime, NoMintFrom, NoAccessFrom, UserClaims, UnusedUntouched, NoLive;
    OnceParts(k, s);
    var (s', ph') := AtReadTokenUser(k, env, s.tables, s, r, stored);
    if ph'.InsertNext? {
      TokenInTime(k, s, r, stored, env.now);
      TouchedIsUsed(s, r.token);
      NotLive(s, r.token);
      LogOnce(k, s, FromToken(r.token), UserClaims(k, env.now, ph'.user, r.clientId, stored.scopes), ph'.jwt, env.now);
      NoLiveCarries(s, s', s.ledger.mints[r.token].lineage.code);
      assert NoMintFrom(s'.ledger, FromToken(r.token)) by {
        NoMintCarries(s.ledger, s'.ledger, FromToken(r.token));
      }
    }
  }

  lemma NoMintCarries(l: Ledger, l': Ledger, source: Source)
    requires NoMintFrom(l, source) && l'.mints == l.mints
    ensures NoMintFrom(l', source)
  {
  }

  lemma InsertNextOnce(k: Config, env: Env, s: State, r: RefreshGrant, stored: RefreshToken, u: AuthUser, jwt: string)
    requires Solo(k, env, s, InsertNext(r, stored, u, jwt))
    ensures SoloStep(k, env, s, InsertNext(r, stored, u, jwt))
  {
    hide StateSound, Once, InTime, AllInTime, MintToken, NoMintFrom, NoLive, UnusedUntouched;
    OnceParts(k, s);
    var token := NewToken(k, env.now, env.token, r.clientId, u.id, stored.scopes);
    if MintToken(s, token, FromToken(r.token), env.now).Success? {
      TokenInTime(k, s, r, stored, env.now);
      TouchedIsUsed(s, r.token);
      NotLive(s, r.token);
      MintOnce(k, s, token, FromToken(r.token), env.now);
    }
  }

  lemma InsertCodeOnce(k: Config, env: Env, s: State, p: AuthorizeParams, login: Login, u: AuthUser)
    requires Solo(k, env, s, InsertCode(p, login, u))
    ensures SoloStep(k, env, s, InsertCode(p, login, u))
  {
    hide StateSound, Once, GrantCode;
    var row := NewCode(env.now, env.code, p, u);
    if GrantCode(s, row, login, env.now).Success? {
      GrantOnce(k, s, row, login, env.now);
    }
  }

  lemma DropOnce(k: Config, env: Env, s: State, ph: Phase)
    requires Solo(k, env, s, ph) && (ph.DropExpired? || ph.DropRevoked?)
    ensures SoloStep(k, env, s, ph)
  {
    hide StateSound, Once;
    OnceOfTables(k, s, Advance(k, env, s.tables, s, ph).0.tables);
  }

  lemma LoneReadOnce(k: Config, env: Env, s: State, ph: Phase)
    requires Solo(k, env, s, ph) && (ph.CheckUser? || ph.ReadCode? || ph.ReadToken? || ph.Done?)
    ensures SoloStep(k, env, s, ph)
  {
    hide StateSound, Once;
  }

  lemma StepOnce(k: Config, env: Env, s: State, ph: Phase)
    requires Solo(k, env, s, ph)
    ensures SoloStep(k, env, s, ph)
  {
    hide Solo, SoloStep;
    match ph
    case Start(req) => StartOnce(k, env, s, req);
    case InsertCode(p, login, u) => InsertCodeOnce(k, env, s, p, login, u);
    case MarkCode(g, row) => MarkCodeOnce(k, env, s, g, row);
    case ReadCodeUser(g, row) => CodeUserOnce(k, env, s, g, row);
    case InsertFirst(g, row, u, jwt) => InsertFirstOnce(k, env, s, g, row, u, jwt);
    case DropRotated(r, stored) => DropRotatedOnce(k, env, s, r, stored);
    case ReadTokenUser(r, stored) => TokenUserOnce(k, env, s, r, stored);
    case InsertNext(r, stored, u, jwt) => InsertNextOnce(k, env, s, r, stored, u, jwt);
    case _ =>
      if ph.DropExpired? || ph.DropRevoked? {
        DropOnce(k, env, s, ph);
      } else {
        LoneReadOnce(k, env, s, ph);
      }
  }

  lemma {:induction false} DriveOnce(k: Config, env: Env, s: State, ph: Phase)
    requires Solo(k, env, s, ph)
    ensures var s' := Drive(k, env, s, ph).0; StateSound(k, s') && Once(k, s') && Older(s.tables, s'.tables) && Grows(s.ledger, s'.ledger)
    decreases ph.Remaining()
  {
    hide StateSound, PhaseSound, Once, PhaseOnce, TablesSound, Older, Grows, Advance;
    NothingChanged(s.tables, s.ledger);
    if !ph.Done? {
      var (s', ph') := Advance(k, env, s.tables, s, ph);
      DriveStep(k, env, s, ph);
      StateSoundParts(k, s);
      StepKeeps(k, env, s.tables, s, ph);
      StepOnce(k, env, s, ph);
      if ph'.Done? {
      } else {
        FreshStays(k, env, s, ph);
        DriveOnce(k, env, s', ph');
        Transitive(s, s', Drive(k, env, s, ph).0);
      }
    }
  }

  lemma StateSoundParts(k: Config, s: State)
    requires StateSound(k, s)
    ensures TablesSound(s.ledger, s.tables)
  {
  }

  lemma Transitive(a: State, b: State, c: State)
    requires Older(a.tables, b.tables) && Older(b.tables, c.tables) && Grows(a.ledger, b.ledger) && Grows(b.ledger, c.ledger)
    ensures Older(a.tables, c.tables) && Grows(a.ledger, c.ledger)
  {
  }

  /** The random token is used up only by the last step. */
  lemma FreshStays(k: Config, env: Env, s: State, ph: Phase)
    requires env.token !in s.ledger.mints
    ensures var (s', ph') := Advance(k, env, s.tables, s, ph); ph'.Done? || env.token !in s'.ledger.mints
  {
  }

  /** The invariant of a run of requests served one at a time. */
  ghost predicate Inv(k: Config, s: State) {
    StateSound(k, s) && Once(k, s)
  }

  lemma ServeKeeps(k: Config, s: State, clock: int, call: Call)
    requires Inv(k, s) && CallOk(s, clock, call)
    ensures var s' := Serve(k, s, call).0; Inv(k, s') && Older(s.tables, s'.tables) && Grows(s.ledger, s'.ledger)
  {
    hide StateSound, Once;
    DriveOnce(k, call.env, s, Start(call.req));
  }

  lemma {:induction false} ServeAllKeeps(k: Config, s: State, clock: int, calls: seq<Call>)
    requires Inv(k, s) && CallsOk(k, s, clock, calls)
    ensures var s' := ServeAll(k, s, calls); Inv(k, s') && Older(s.tables, s'.tables) && Grows(s.ledger, s'.ledger)
    decreases |calls|
  {
    hide Inv, Older, Grows, Serve;
    NothingChanged(s.tables, s.ledger);
    if calls != [] {
      var s' := Serve(k, s, calls[0]).0;
      ServeKeeps(k, s, clock, calls[0]);
      ServeAllKeeps(k, s', calls[0].env.now, calls[1..]);
      Transitive(s, s', ServeAll(k, s, calls));
    }
  }

  lemma EmptyIsFine(k: Config)
    ensures Inv(k, EMPTY)
  {
  }

  // ---------------------------------------------------------------- theorems

  /**
   * In every run of requests served one at a time: each code is exchanged at most once, an unused code has
   * had nothing issued from it, each refresh token is rotated at most once, and at most one refresh token
   * descending from each code is live.
   */
  lemma SingleLiveDescendant(k: Config, clock: int, calls: seq<Call>)
    requires CallsOk(k, EMPTY, clock, calls)
    ensures
      var s := ServeAll(k, EMPTY, calls);
      && s.ledger.grants.Keys == s.tables.codes.Keys
      && OneLive(s) && SpentOnce(s.ledger) && UnusedUntouched(s)
      && (forall t | t in s.tables.tokens :: t in s.ledger.mints)
  {
    hide Once;
    EmptyIsFine(k);
    ServeAllKeeps(k, EMPTY, clock, calls);
    OnceParts(k, ServeAll(k, EMPTY, calls));
    hide OneLive, SpentOnce, UnusedUntouched;
  }

  /** An access token's claims carry its issue time, and expire the configured lifetime later. */
  ghost predicate Timed(k: Config, l: Ledger, a: Access) {
    && a.claims.iat == AsUsize(a.at)
    && a.claims.exp == WrappingAdd(AsUsize(a.at), AsUsize(k.accessTtlSecs))
    && (a.lineage.Some? ==>
          && InTime(k, l, a.lineage.value, a.at)
          && (a.lineage.value.source.FromCode? <==> a.lineage.value.rank == 0))
  }

  /**
   * Lifetimes: a code is exchanged (rank 0) at most 600 s after its `authorize`; the tokens of its n-th
   * refresh (rank n) are issued no later than 600 s and n refresh lifetimes after it.
   */
  lemma LifetimeBound(k: Config, clock: int, calls: seq<Call>)
    requires CallsOk(k, EMPTY, clock, calls)
    ensures
      var l := ServeAll(k, EMPTY, calls).ledger;
      && (forall t | t in l.mints :: InTime(k, l, l.mints[t].lineage, l.mints[t].at))
      && (forall i | 0 <= i < |l.access| :: Timed(k, l, l.access[i]))
  {
    hide Inv, InTime, Timed;
    EmptyIsFine(k);
    ServeAllKeeps(k, EMPTY, clock, calls);
    var s := ServeAll(k, EMPTY, calls);
    forall i | 0 <= i < |s.ledger.access| ensures Timed(k, s.ledger, s.ledger.access[i]) {
      AccessIsTimed(k, s, i);
    }
    forall t | t in s.ledger.mints ensures InTime(k, s.ledger, s.ledger.mints[t].lineage, s.ledger.mints[t].at) {
      MintIsTimed(k, s, t);
    }
  }

  lemma AccessIsTimed(k: Config, s: State, i: nat)
    requires Inv(k, s) && i < |s.ledger.access|
    ensures Timed(k, s.ledger, s.ledger.access[i])
  {
    hide InTime, TablesSound, GrantSound, MintSound;
    assert AccessSound(k, s.tables, s.ledger, s.ledger.access[i]);
  }

  lemma MintIsTimed(k: Config, s: State, t: string)
    requires Inv(k, s) && t in s.ledger.mints
    ensures InTime(k, s.ledger, s.ledger.mints[t].lineage, s.ledger.mints[t].at)
  {
    hide StateSound, InTime;
  }
}

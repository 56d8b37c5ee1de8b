/** Removing expired refresh tokens, at any time, is invisible to every client. */
module Cleanup {
  import opened AuthTables
  import opened TokenService
  import opened OAuthFlow
  import opened Provenance
  import opened AtomicRuns
  import Failures

  /** `b` is `a` without some refresh tokens that have expired by `now`. */
  ghost predicate Cleaned(a: Tables, b: Tables, now: int) {
    && b.users == a.users && b.emails == a.emails && b.clients == a.clients && b.codes == a.codes
    && (forall t | t in b.tokens :: t in a.tokens && b.tokens[t] == a.tokens[t])
    && (forall t | t in a.tokens && t !in b.tokens :: a.tokens[t].expiresAt < now)
  }

  ghost predicate CleanedState(a: State, b: State, now: int) {
    Cleaned(a.tables, b.tables, now) && a.ledger == b.ledger
  }

  /** The same reply, or an error of the same kind. */
  ghost predicate SameKind(x: Answer, y: Answer) {
    match (x, y)
    case (Success(r), Success(q)) => r == q
    case (Failure(e), Failure(f)) =>
      && e.NotFound? == f.NotFound? && e.InternalError? == f.InternalError? && e.Unauthorized? == f.Unauthorized?
      && e.Forbidden? == f.Forbidden? && e.Conflict? == f.Conflict? && e.InvalidClient? == f.InvalidClient?
      && e.InvalidGrant? == f.InvalidGrant? && e.InvalidRequest? == f.InvalidRequest?
    case _ => false
  }

  /** Two phases that end alike: the same one, or both about to answer `InvalidGrant` for a dead refresh token. */
  ghost predicate SamePhase(ph: Phase, qh: Phase) {
    || ph == qh
    || (ph.DropExpired? && qh.Done? && qh.answer.Failure? && qh.answer.error.InvalidGrant?)
  }

  /** The phases other than the lookup of a refresh token keep two such states in step. */
  lemma SameStep(k: Config, env: Env, a: State, b: State, ph: Phase)
    requires CleanedState(a, b, env.now) && env.token !in a.tables.tokens && !ph.ReadToken?
    ensures
      var (a', ph') := Advance(k, env, a.tables, a, ph);
      var (b', qh') := Advance(k, env, b.tables, b, ph);
      CleanedState(a', b', env.now) && ph' == qh'
  {
    if ph.Start? {
      SameStart(k, env, a, b, ph.req);
    } else if ph.InsertFirst? || ph.InsertNext? {
      SameInsert(k, env, a, b, ph);
    } else {
      SameOther(k, env, a, b, ph);
    }
  }

  lemma SameStart(k: Config, env: Env, a: State, b: State, req: Request)
    requires CleanedState(a, b, env.now)
    ensures
      var (a', ph') := AtStart(k, env, a.tables, a, req);
      var (b', qh') := AtStart(k, env, b.tables, b, req);
      CleanedState(a', b', env.now) && ph' == qh'
  {
    if req.Register? || req.RegisterClient? {
      SameRegistration(k, env, a, b, req);
    } else if req.Token? {
      SameTokenRequest(k, env, a, b, req.req);
    }
  }

  lemma SameRegistration(k: Config, env: Env, a: State, b: State, req: Request)
    requires CleanedState(a, b, env.now) && (req.Register? || req.RegisterClient?)
    ensures
      var (a', ph') := AtStart(k, env, a.tables, a, req);
      var (b', qh') := AtStart(k, env, b.tables, b, req);
      CleanedState(a', b', env.now) && ph' == qh'
  {
  }

  lemma SameTokenRequest(k: Config, env: Env, a: State, b: State, r: TokenRequest)
    requires CleanedState(a, b, env.now)
    ensures
      var (a', ph') := StartToken(k, env, a.tables, a, r);
      var (b', qh') := StartToken(k, env, b.tables, b, r);
      CleanedState(a', b', env.now) && ph' == qh'
  {
    assert AuthenticateClient(k, a.tables, r.clientId, r.clientSecret) ==
           AuthenticateClient(k, b.tables, r.clientId, r.clientSecret);
    hide AuthenticateClient, LogAccess;
  }

  lemma SameInsert(k: Config, env: Env, a: State, b: State, ph: Phase)
    requires CleanedState(a, b, env.now) && env.token !in a.tables.tokens && (ph.InsertFirst? || ph.InsertNext?)
    ensures
      var (a', ph') := Advance(k, env, a.tables, a, ph);
      var (b', qh') := Advance(k, env, b.tables, b, ph);
      CleanedState(a', b', env.now) && ph' == qh'
  {
  }

  /** The other phases: lookups see the same rows, and writes hit the same ones. */
  lemma SameOther(k: Config, env: Env, a: State, b: State, ph: Phase)
    requires CleanedState(a, b, env.now)
    requires !ph.Start? && !ph.InsertFirst? && !ph.InsertNext? && !ph.ReadToken?
    ensures
      var (a', ph') := Advance(k, env, a.tables, a, ph);
      var (b', qh') := Advance(k, env, b.tables, b, ph);
      CleanedState(a', b', env.now) && ph' == qh'
  {
    hide CleanedState, Advance;
    match ph
    case CheckUser(_, _) => SameLogin(k, env, a, b, ph);
    case InsertCode(_, _, _) => SameGrant(k, env, a, b, ph);
    case ReadCode(_) => SameCode(k, env, a, b, ph);
    case MarkCode(_, _) => SameMark(k, env, a, b, ph);
    case ReadCodeUser(_, _) => SameCodeUser(k, env, a, b, ph);
    case ReadTokenUser(_, _) => SameTokenUser(k, env, a, b, ph);
    case Done(_) => SameDone(k, env, a, b, ph);
    case _ => SameDropping(k, env, a, b, ph);
  }

  lemma SameLogin(k: Config, env: Env, a: State, b: State, ph: Phase)
    requires CleanedState(a, b, env.now) && ph.CheckUser?
    ensures
      var (a', ph') := Advance(k, env, a.tables, a, ph);
      var (b', qh') := Advance(k, env, b.tables, b, ph);
      CleanedState(a', b', env.now) && ph' == qh'
  {
  }

  lemma SameGrant(k: Config, env: Env, a: State, b: State, ph: Phase)
    requires CleanedState(a, b, env.now) && ph.InsertCode?
    ensures
      var (a', ph') := Advance(k, env, a.tables, a, ph);
      var (b', qh') := Advance(k, env, b.tables, b, ph);
      CleanedState(a', b', env.now) && ph' == qh'
  {
    hide NewCode;
  }

  lemma SameCode(k: Config, env: Env, a: State, b: State, ph: Phase)
    requires CleanedState(a, b, env.now) && ph.ReadCode?
    ensures
      var (a', ph') := Advance(k, env, a.tables, a, ph);
      var (b', qh') := Advance(k, env, b.tables, b, ph);
      CleanedState(a', b', env.now) && ph' == qh'
  {
    hide CheckCode;
  }

  lemma SameMark(k: Config, env: Env, a: State, b: State, ph: Phase)
    requires CleanedState(a, b, env.now) && ph.MarkCode?
    ensures
      var (a', ph') := Advance(k, env, a.tables, a, ph);
      var (b', qh') := Advance(k, env, b.tables, b, ph);
      CleanedState(a', b', env.now) && ph' == qh'
  {
  }

  lemma SameCodeUser(k: Config, env: Env, a: State, b: State, ph: Phase)
    requires CleanedState(a, b, env.now) && ph.ReadCodeUser?
    ensures
      var (a', ph') := Advance(k, env, a.tables, a, ph);
      var (b', qh') := Advance(k, env, b.tables, b, ph);
      CleanedState(a', b', env.now) && ph' == qh'
  {
    hide LogAccess, UserClaims;
  }

  lemma SameTokenUser(k: Config, env: Env, a: State, b: State, ph: Phase)
    requires CleanedState(a, b, env.now) && ph.ReadTokenUser?
    ensures
      var (a', ph') := Advance(k, env, a.tables, a, ph);
      var (b', qh') := Advance(k, env, b.tables, b, ph);
      CleanedState(a', b', env.now) && ph' == qh'
  {
    hide LogAccess, UserClaims;
  }

  lemma SameDone(k: Config, env: Env, a: State, b: State, ph: Phase)
    requires CleanedState(a, b, env.now) && ph.Done?
    ensures
      var (a', ph') := Advance(k, env, a.tables, a, ph);
      var (b', qh') := Advance(k, env, b.tables, b, ph);
      CleanedState(a', b', env.now) && ph' == qh'
  {
  }

  lemma SameDropping(k: Config, env: Env, a: State, b: State, ph: Phase)
    requires CleanedState(a, b, env.now) && (ph.DropExpired? || ph.DropRotated? || ph.DropRevoked?)
    ensures
      var (a', ph') := Advance(k, env, a.tables, a, ph);
      var (b', qh') := Advance(k, env, b.tables, b, ph);
      CleanedState(a', b', env.now) && ph' == qh'
  {
    hide CleanedState, Drop;
    SameDrop(a, b, if ph.DropRevoked? then ph.token else ph.r.token, env.now);
  }

  lemma SameDrop(a: State, b: State, token: string, now: int)
    requires CleanedState(a, b, now)
    ensures CleanedState(Drop(a, token), Drop(b, token), now)
  {
  }

  /** Looking up a refresh token: expiry is checked first, and a missing token is refused like an expired one. */
  lemma SameLookup(k: Config, env: Env, a: State, b: State, r: RefreshGrant)
    requires CleanedState(a, b, env.now)
    ensures
      var (a', ph') := AtReadToken(env, a.tables, a, r);
      var (b', qh') := AtReadToken(env, b.tables, b, r);
      && a' == a && b' == b && SamePhase(ph', qh')
      && (ph' != qh' ==> r.token in a.tables.tokens && r.token !in b.tables.tokens && ph' == DropExpired(r))
  {
  }

  lemma FreshInTables(k: Config, env: Env, s: State, ph: Phase)
    requires env.token !in s.tables.tokens
    ensures var (s', ph') := Advance(k, env, s.tables, s, ph); ph'.Done? || env.token !in s'.tables.tokens
  {
    if ph.Start? {
      FreshAtStart(k, env, s, ph.req);
    }
    hide AtStart;
  }

  lemma FreshAtStart(k: Config, env: Env, s: State, req: Request)
    requires env.token !in s.tables.tokens
    ensures var (s', ph') := AtStart(k, env, s.tables, s, req); ph'.Done? || env.token !in s'.tables.tokens
  {
    hide AuthenticateClient, CheckAuthorize, LogAccess;
  }

  /** A lone request takes two such states to two such states and is answered alike in both. */
  lemma {:induction false} SameDrive(k: Config, env: Env, a: State, b: State, ph: Phase)
    requires CleanedState(a, b, env.now) && env.token !in a.tables.tokens
    ensures
      var (a', x) := Drive(k, env, a, ph);
      var (b', y) := Drive(k, env, b, ph);
      CleanedState(a', b', env.now) && SameKind(x, y)
    decreases ph.Remaining()
  {
    hide CleanedState, Advance;
    if !ph.Done? {
      var (a', ph') := Advance(k, env, a.tables, a, ph);
      var (b', qh') := Advance(k, env, b.tables, b, ph);
      DriveStep(k, env, a, ph);
      DriveStep(k, env, b, ph);
      FreshInTables(k, env, a, ph);
      if ph.ReadToken? {
        LookupStep(k, env, a, b, ph.r);
        SameLookup(k, env, a, b, ph.r);
        if ph' != qh' {
          ExpiredStep(k, env, a, b, ph.r);
        } else if !ph'.Done? {
          SameDrive(k, env, a, b, ph');
        }
      } else {
        SameStep(k, env, a, b, ph);
        if !ph'.Done? {
          SameDrive(k, env, a', b', ph');
        }
      }
    }
  }

  lemma LookupStep(k: Config, env: Env, a: State, b: State, r: RefreshGrant)
    ensures Advance(k, env, a.tables, a, ReadToken(r)) == AtReadToken(env, a.tables, a, r)
    ensures Advance(k, env, b.tables, b, ReadToken(r)) == AtReadToken(env, b.tables, b, r)
  {
  }

  lemma ExpiredStep(k: Config, env: Env, a: State, b: State, r: RefreshGrant)
    requires CleanedState(a, b, env.now) && r.token in a.tables.tokens && r.token !in b.tables.tokens
    ensures
      var (a', x) := Drive(k, env, a, DropExpired(r));
      CleanedState(a', b, env.now) && x.Failure? && x.error.InvalidGrant?
  {
    DriveStep(k, env, a, DropExpired(r));
  }

  /** A housekeeping job: it removes those of the named tokens that have expired. */
  ghost function CleanUp(s: State, names: set<string>, now: int): State {
    var gone := set t | t in names && t in s.tables.tokens && s.tables.tokens[t].expiresAt < now;
    s.(tables := s.tables.(tokens := s.tables.tokens - gone))
  }

  lemma CleanUpOnly(a: State, b: State, names: set<string>, now: int)
    requires CleanedState(a, b, now)
    ensures CleanedState(a, CleanUp(b, names, now), now)
  {
  }

  ghost function Answers(k: Config, s: State, calls: seq<Call>): seq<Answer>
    decreases |calls|
  {
    if calls == [] then [] else var (s', a) := Serve(k, s, calls[0]); [a] + Answers(k, s', calls[1..])
  }

  /** The same calls, with housekeeping just before each of them. */
  ghost function AnswersWithCleanUp(k: Config, s: State, calls: seq<Call>, names: seq<set<string>>): seq<Answer>
    requires |names| == |calls|
    decreases |calls|
  {
    if calls == [] then []
    else
      var (s', a) := Serve(k, CleanUp(s, names[0], calls[0].env.now), calls[0]);
      [a] + AnswersWithCleanUp(k, s', calls[1..], names[1..])
  }

  lemma CleanedLater(a: State, b: State, now: int, later: int)
    requires CleanedState(a, b, now) && now <= later
    ensures CleanedState(a, b, later)
  {
  }

  lemma {:induction false} CleanUpSimulates(
    k: Config, a: State, b: State, clock: int, calls: seq<Call>, names: seq<set<string>>)
    requires Inv(k, a) && CleanedState(a, b, clock) && CallsOk(k, a, clock, calls) && |names| == |calls|
    ensures
      var xs, ys := Answers(k, a, calls), AnswersWithCleanUp(k, b, calls, names);
      |xs| == |ys| == |calls| && forall i | 0 <= i < |calls| :: SameKind(xs[i], ys[i])
    decreases |calls|
  {
    hide Inv, CleanedState, SameKind, CleanUp;
    if calls != [] {
      var now := calls[0].env.now;
      var c := CleanUp(b, names[0], now);
      CleanedLater(a, b, clock, now);
      CleanUpOnly(a, b, names[0], now);
      FreshCall(k, a, calls[0].env.token);
      SameDrive(k, calls[0].env, a, c, Start(calls[0].req));
      ServeKeeps(k, a, clock, calls[0]);
      var (a', x) := Serve(k, a, calls[0]);
      var (c', y) := Serve(k, c, calls[0]);
      CleanUpSimulates(k, a', c', now, calls[1..], names[1..]);
      var xs, ys := Answers(k, a, calls), AnswersWithCleanUp(k, b, calls, names);
      assert xs == [x] + Answers(k, a', calls[1..]);
      assert ys == [y] + AnswersWithCleanUp(k, c', calls[1..], names[1..]);
    }
  }

  lemma FreshCall(k: Config, s: State, token: string)
    requires Inv(k, s) && token !in s.ledger.mints
    ensures token !in s.tables.tokens
  {
    hide StateSound, Once;
    Failures.FreshTokenNotInTables(k, s, token);
  }

  /**
   * From every reachable state: any sequence of requests gets the same replies, and errors of the same kind,
   * whether or not expired refresh tokens are removed at any points in between.
   */
  lemma CleanUpIsInvisible(k: Config, clock: int, before: seq<Call>, later: int, calls: seq<Call>, names: seq<set<string>>)
    requires CallsOk(k, EMPTY, clock, before)
    requires CallsOk(k, ServeAll(k, EMPTY, before), later, calls) && |names| == |calls|
    ensures
      var s := ServeAll(k, EMPTY, before);
      var xs, ys := Answers(k, s, calls), AnswersWithCleanUp(k, s, calls, names);
      |xs| == |ys| == |calls| && forall i | 0 <= i < |calls| :: SameKind(xs[i], ys[i])
  {
    hide Inv, SameKind, ServeAll, CallsOk;
    EmptyIsFine(k);
    ServeAllKeeps(k, EMPTY, clock, before);
    var s := ServeAll(k, EMPTY, before);
    CleanUpSimulates(k, s, s, later, calls, names);
  }
}

/**
 * How old an answer can be. Requests interleave at every call to the database or to Redis, calls to Redis
 * may fail unnoticed, entries may be evicted, requests may stop anywhere, and reads of the table go to a
 * replica that lags behind by at most `lag`. A request writes to the cache at most `delay` after it went to
 * the database.
 */
module Staleness {
  import opened Wrappers
  import opened Json
  import opened Redis
  import opened UserFlow

  datatype Bounds = Bounds(delay: nat, lag: nat)

  /** The table as it stood from `at` until the next version. */
  datatype Version = Version(at: int, rows: Rows)

  /** What an answer showed: one user under an id, nobody under an id, or a list. */
  datatype Shown = ShownUser(id: int, user: User) | ShownNobody(id: int) | ShownList(users: seq<User>)

  datatype Served = Served(what: Shown, at: int)

  datatype Sys = Sys(
    versions: seq<Version>, cache: Entries, flights: map<nat, UserPhase>, now: int, served: seq<Served>)
  {
    function Rows(): Rows
      requires versions != []
    {
      versions[|versions| - 1].rows
    }
  }

  datatype Act =
    | Tick(now: int)
    | Begin(id: nat, req: UserRequest)
    | Step(id: nat, snap: nat, env: UserEnv)
    | Abandon(id: nat)
    | Evict(keys: set<string>)

  // ---------------------------------------------------------------- what was true when

  ghost predicate Shows(rows: Rows, what: Shown) {
    match what
    case ShownUser(id, u) => id in rows && rows[id] == u
    case ShownNobody(id) => id !in rows
    case ShownList(us) => IsListing(us, rows)
  }

  /** Version i was the table's at some instant between `from` and `to`. */
  predicate CurrentDuring(vs: seq<Version>, i: int, from: int, to: int) {
    0 <= i < |vs| && vs[i].at <= to && (i + 1 < |vs| ==> from <= vs[i + 1].at)
  }

  /** What was shown was what the table held at some instant between `from` and `to`. */
  ghost predicate WasTrue(vs: seq<Version>, what: Shown, from: int, to: int) {
    exists i :: CurrentDuring(vs, i, from, to) && Shows(vs[i].rows, what)
  }

  // ---------------------------------------------------------------- runs

  /** The last moment at which a request may still write what it read to the cache. */
  predicate InDelay(b: Bounds, ph: UserPhase, now: int) {
    ph.GetFill? || ph.ListFill? || ph.SetUser? ==> now <= ph.at + b.delay
  }

  ghost predicate Enabled(b: Bounds, sys: Sys, act: Act) {
    && sys.versions != []
    && match act
       case Tick(now) => sys.now <= now
       case Begin(id, _) => id !in sys.flights
       case Step(id, snap, env) =>
         && id in sys.flights && env.now == sys.now && InDelay(b, sys.flights[id], sys.now)
         && CurrentDuring(sys.versions, snap, sys.now - b.lag, sys.now)
         && IsListing(env.listing, sys.versions[snap].rows)
       case Abandon(id) => id in sys.flights
       case Evict(_) => true
  }

  /** What a lookup answers with, if this step ends one. */
  function ServedBy(ph: UserPhase, ph': UserPhase): Option<Shown> {
    if !ph'.Done? then None
    else if ph'.answer.Failure? then if ph.GetDb? then Some(ShownNobody(ph.id)) else None
    else
      match ph
      case Start(Get(id)) => if ph'.answer.value.OneUser? then Some(ShownUser(id, ph'.answer.value.user)) else None
      case Start(ListAll) => if ph'.answer.value.Users? then Some(ShownList(ph'.answer.value.users)) else None
      case GetFill(id, u, _) => Some(ShownUser(id, u))
      case ListFill(us, _) => Some(ShownList(us))
      case _ => None
  }

  ghost function TakeStep(b: Bounds, sys: Sys, id: nat, snap: nat, env: UserEnv): Sys
    requires Enabled(b, sys, Step(id, snap, env))
  {
    var ph := sys.flights[id];
    var (st', ph') := Advance(env, sys.versions[snap].rows, Store(sys.Rows(), sys.cache), ph);
    var what := ServedBy(ph, ph');
    Sys(sys.versions + [Version(sys.now, st'.rows)], st'.cache, sys.flights[id := ph'], sys.now,
        if what.Some? then sys.served + [Served(what.value, sys.now)] else sys.served)
  }

  ghost function Next(b: Bounds, sys: Sys, act: Act): Sys
    requires Enabled(b, sys, act)
  {
    match act
    case Tick(now) => sys.(now := now)
    case Begin(id, req) => sys.(flights := sys.flights[id := Start(req)])
    case Step(id, snap, env) => TakeStep(b, sys, id, snap, env)
    case Abandon(id) => sys.(flights := sys.flights - {id})
    case Evict(keys) => sys.(cache := sys.cache - keys)
  }

  ghost predicate RunOk(b: Bounds, sys: Sys, acts: seq<Act>)
    decreases |acts|
  {
    acts == [] || (Enabled(b, sys, acts[0]) && RunOk(b, Next(b, sys, acts[0]), acts[1..]))
  }

  ghost function Run(b: Bounds, sys: Sys, acts: seq<Act>): Sys
    requires RunOk(b, sys, acts)
    decreases |acts|
  {
    if acts == [] then sys else Run(b, Next(b, sys, acts[0]), acts[1..])
  }

  /** An empty table since the beginning, an empty cache, nobody at work. */
  function Initial(now: int): Sys {
    Sys([Version(now, map[])], map[], map[], now, [])
  }

  // ---------------------------------------------------------------- the invariant

  predicate EntryFor(key: string, value: Json, what: Shown) {
    match what
    case ShownUser(id, u) => key == UserKey(id) && value == EncodeUser(u)
    case ShownNobody(_) => false
    case ShownList(us) => key == LIST_KEY && value == EncodeUsers(us)
  }

  /** A cached value was true at most `delay + lag` before it was set. */
  ghost predicate EntryFresh(b: Bounds, vs: seq<Version>, key: string, e: Entry) {
    var setAt := e.expiresAt - DEFAULT_CACHE_TTL;
    exists what :: EntryFor(key, e.value, what) && WasTrue(vs, what, setAt - b.delay - b.lag, setAt)
  }

  /** What a request in progress holds was true at most `lag` before it went to the database. */
  ghost predicate PhaseFresh(b: Bounds, vs: seq<Version>, now: int, ph: UserPhase) {
    match ph
    case GetFill(id, u, at) => at <= now && WasTrue(vs, ShownUser(id, u), at - b.lag, at)
    case ListFill(us, at) => at <= now && WasTrue(vs, ShownList(us), at - b.lag, at)
    case SetUser(id, u, at, _) => at <= now && WasTrue(vs, ShownUser(id, u), at - b.lag, at)
    case _ => true
  }

  /** An answer was true at most this long before it was given; that nobody is there is never cached. */
  function Bound(b: Bounds, what: Shown): nat {
    if what.ShownNobody? then b.lag else DEFAULT_CACHE_TTL + b.delay + b.lag
  }

  ghost predicate AnswerFresh(b: Bounds, vs: seq<Version>, s: Served) {
    WasTrue(vs, s.what, s.at - Bound(b, s.what), s.at)
  }

  ghost predicate EntriesFresh(b: Bounds, vs: seq<Version>, now: int, cache: Entries) {
    forall key | key in cache ::
      EntryFresh(b, vs, key, cache[key]) && cache[key].expiresAt <= now + DEFAULT_CACHE_TTL
  }

  ghost predicate Inv(b: Bounds, sys: Sys) {
    && sys.versions != []
    && (forall i | 0 <= i < |sys.versions| :: sys.versions[i].at <= sys.now)
    && EntriesFresh(b, sys.versions, sys.now, sys.cache)
    && (forall id | id in sys.flights :: PhaseFresh(b, sys.versions, sys.now, sys.flights[id]))
    && (forall i | 0 <= i < |sys.served| :: sys.served[i].at <= sys.now && AnswerFresh(b, sys.versions, sys.served[i]))
  }

  // ---------------------------------------------------------------- later versions change nothing

  lemma WasTrueStays(vs: seq<Version>, v: Version, what: Shown, from: int, to: int)
    requires WasTrue(vs, what, from, to) && from <= v.at
    ensures WasTrue(vs + [v], what, from, to)
  {
    var i :| CurrentDuring(vs, i, from, to) && Shows(vs[i].rows, what);
    assert (vs + [v])[i] == vs[i];
    assert CurrentDuring(vs + [v], i, from, to);
  }

  lemma WasTrueWidens(vs: seq<Version>, what: Shown, from: int, to: int, from': int, to': int)
    requires WasTrue(vs, what, from, to) && from' <= from && to <= to'
    ensures WasTrue(vs, what, from', to')
  {
    var i :| CurrentDuring(vs, i, from, to) && Shows(vs[i].rows, what);
    assert CurrentDuring(vs, i, from', to');
  }

  lemma EntryFreshStays(b: Bounds, vs: seq<Version>, v: Version, key: string, e: Entry)
    requires EntryFresh(b, vs, key, e) && e.expiresAt <= v.at + DEFAULT_CACHE_TTL
    ensures EntryFresh(b, vs + [v], key, e)
  {
    hide WasTrue, EntryFor;
    var setAt := e.expiresAt - DEFAULT_CACHE_TTL;
    var what :| EntryFor(key, e.value, what) && WasTrue(vs, what, setAt - b.delay - b.lag, setAt);
    WasTrueStays(vs, v, what, setAt - b.delay - b.lag, setAt);
  }

  lemma PhaseFreshStays(b: Bounds, vs: seq<Version>, v: Version, now: int, ph: UserPhase)
    requires PhaseFresh(b, vs, now, ph) && now <= v.at
    ensures PhaseFresh(b, vs + [v], v.at, ph)
  {
    hide WasTrue;
    match ph
    case GetFill(id, u, at) => WasTrueStays(vs, v, ShownUser(id, u), at - b.lag, at);
    case ListFill(us, at) => WasTrueStays(vs, v, ShownList(us), at - b.lag, at);
    case SetUser(id, u, at, _) => WasTrueStays(vs, v, ShownUser(id, u), at - b.lag, at);
    case _ =>
  }

  lemma AnswerFreshStays(b: Bounds, vs: seq<Version>, v: Version, s: Served)
    requires AnswerFresh(b, vs, s) && s.at <= v.at
    ensures AnswerFresh(b, vs + [v], s)
  {
    WasTrueStays(vs, v, s.what, s.at - Bound(b, s.what), s.at);
  }

  // ---------------------------------------------------------------- one step

  lemma ReadIsTrue(vs: seq<Version>, snap: nat, what: Shown, from: int, to: int)
    requires CurrentDuring(vs, snap, from, to) && Shows(vs[snap].rows, what)
    ensures WasTrue(vs, what, from, to)
  {
  }

  /** What an entry decodes to is what was encoded. */
  lemma DecodedUserWasTrue(b: Bounds, vs: seq<Version>, id: int, e: Entry)
    requires EntryFresh(b, vs, UserKey(id), e) && DecodeUser(e.value).Some?
    ensures
      var setAt := e.expiresAt - DEFAULT_CACHE_TTL;
      WasTrue(vs, ShownUser(id, DecodeUser(e.value).value), setAt - b.delay - b.lag, setAt)
  {
    hide WasTrue;
    var setAt := e.expiresAt - DEFAULT_CACHE_TTL;
    var what :| EntryFor(UserKey(id), e.value, what) && WasTrue(vs, what, setAt - b.delay - b.lag, setAt);
    match what
    case ShownUser(id', u) =>
      KeysAreDistinct(id, id');
      UserRoundTrip(u);
    case ShownList(us) =>
      KeysAreDistinct(id, id);
  }

  lemma DecodedListWasTrue(b: Bounds, vs: seq<Version>, e: Entry)
    requires EntryFresh(b, vs, LIST_KEY, e) && DecodeUsers(e.value).Some?
    ensures
      var setAt := e.expiresAt - DEFAULT_CACHE_TTL;
      WasTrue(vs, ShownList(DecodeUsers(e.value).value), setAt - b.delay - b.lag, setAt)
  {
    hide WasTrue;
    var setAt := e.expiresAt - DEFAULT_CACHE_TTL;
    var what :| EntryFor(LIST_KEY, e.value, what) && WasTrue(vs, what, setAt - b.delay - b.lag, setAt);
    match what
    case ShownUser(id', u) => KeysAreDistinct(id', id');
    case ShownList(us) => UsersRoundTrip(us);
  }

  lemma SetIsFresh(b: Bounds, vs: seq<Version>, what: Shown, at: int, now: int, key: string, value: Json)
    requires WasTrue(vs, what, at - b.lag, at) && EntryFor(key, value, what) && !what.ShownNobody?
    requires at <= now <= at + b.delay
    ensures EntryFresh(b, vs, key, Entry(value, now + DEFAULT_CACHE_TTL))
    ensures AnswerFresh(b, vs, Served(what, now))
  {
    hide EntryFor;
    WasTrueWidens(vs, what, at - b.lag, at, now - b.delay - b.lag, now);
    WasTrueWidens(vs, what, at - b.lag, at, now - Bound(b, what), now);
    hide WasTrue;
  }

  /** What a step leaves behind: fresh entries, a fresh phase, and a fresh answer if it gave one. */
  ghost predicate StepFresh(b: Bounds, vs: seq<Version>, now: int, cache: Entries, ph: UserPhase, ph': UserPhase) {
    && EntriesFresh(b, vs, now, cache) && PhaseFresh(b, vs, now, ph')
    && var what := ServedBy(ph, ph');
       what.Some? ==> AnswerFresh(b, vs, Served(what.value, now))
  }

  lemma EntryIsFresh(b: Bounds, vs: seq<Version>, now: int, cache: Entries, key: string)
    requires EntriesFresh(b, vs, now, cache) && key in cache
    ensures EntryFresh(b, vs, key, cache[key]) && cache[key].expiresAt <= now + DEFAULT_CACHE_TTL
  {
    hide EntryFresh;
  }

  lemma HitWasTrue(b: Bounds, vs: seq<Version>, what: Shown, expiresAt: int, now: int)
    requires now <= expiresAt <= now + DEFAULT_CACHE_TTL && !what.ShownNobody?
    requires
      var setAt := expiresAt - DEFAULT_CACHE_TTL;
      WasTrue(vs, what, setAt - b.delay - b.lag, setAt)
    ensures AnswerFresh(b, vs, Served(what, now))
  {
    var setAt := expiresAt - DEFAULT_CACHE_TTL;
    WasTrueWidens(vs, what, setAt - b.delay - b.lag, setAt, now - Bound(b, what), now);
    hide WasTrue;
  }

  lemma LookupIsFresh(b: Bounds, vs: seq<Version>, env: UserEnv, st: Store, req: UserRequest)
    requires EntriesFresh(b, vs, env.now, st.cache) && (req.Get? || req.ListAll?)
    ensures
      var (st', ph') := AtStart(env, st, req);
      StepFresh(b, vs, env.now, st'.cache, Start(req), ph')
  {
    hide WasTrue, EntriesFresh, EntryFresh, AnswerFresh, DecodeUser, DecodeUsers, UserKey;
    match req
    case Get(id) =>
      var hit := Lookup(st.cache, UserKey(id), env.now, env.getUp);
      if hit.Some? && DecodeUser(hit.value).Some? {
        var e := st.cache[UserKey(id)];
        EntryIsFresh(b, vs, env.now, st.cache, UserKey(id));
        DecodedUserWasTrue(b, vs, id, e);
        HitWasTrue(b, vs, ShownUser(id, DecodeUser(e.value).value), e.expiresAt, env.now);
      }
    case ListAll =>
      var hit := Lookup(st.cache, LIST_KEY, env.now, env.getUp);
      if hit.Some? && DecodeUsers(hit.value).Some? {
        var e := st.cache[LIST_KEY];
        EntryIsFresh(b, vs, env.now, st.cache, LIST_KEY);
        DecodedListWasTrue(b, vs, e);
        HitWasTrue(b, vs, ShownList(DecodeUsers(e.value).value), e.expiresAt, env.now);
      }
    case _ =>
  }

  /** A write returns the row as the table now has it. */
  lemma WriteIsFresh(b: Bounds, vs: seq<Version>, env: UserEnv, st: Store, req: UserRequest)
    requires EntriesFresh(b, vs, env.now, st.cache) && !req.Get? && !req.ListAll?
    requires vs != [] && vs[|vs| - 1] == Version(env.now, AtStart(env, st, req).0.rows)
    ensures
      var (st', ph') := AtStart(env, st, req);
      StepFresh(b, vs, env.now, st'.cache, Start(req), ph')
  {
    hide EntriesFresh, WasTrue;
    var (st', ph') := AtStart(env, st, req);
    if ph'.SetUser? {
      var what := ShownUser(ph'.id, ph'.user);
      assert Shows(st'.rows, what);
      ReadIsTrue(vs, |vs| - 1, what, ph'.at - b.lag, ph'.at);
    }
  }

  lemma ReadIsFresh(
    b: Bounds, vs: seq<Version>, env: UserEnv, snap: nat, cache: Entries, rows: Rows, ph: UserPhase)
    requires EntriesFresh(b, vs, env.now, cache) && (ph.GetDb? || ph.ListDb?)
    requires CurrentDuring(vs, snap, env.now - b.lag, env.now) && IsListing(env.listing, vs[snap].rows)
    ensures
      var (st', ph') := Advance(env, vs[snap].rows, Store(rows, cache), ph);
      StepFresh(b, vs, env.now, st'.cache, ph, ph')
  {
    hide EntriesFresh, WasTrue, IsListing;
    var (st', ph') := Advance(env, vs[snap].rows, Store(rows, cache), ph);
    if ph'.GetFill? {
      ReadIsTrue(vs, snap, ShownUser(ph'.id, ph'.user), env.now - b.lag, env.now);
    } else if ph'.ListFill? {
      ReadIsTrue(vs, snap, ShownList(ph'.users), env.now - b.lag, env.now);
    } else {
      ReadIsTrue(vs, snap, ShownNobody(ph.id), env.now - b.lag, env.now);
    }
  }

  lemma StoredIsFresh(b: Bounds, vs: seq<Version>, now: int, cache: Entries, key: string, value: Json, up: bool)
    requires EntriesFresh(b, vs, now, cache) && EntryFresh(b, vs, key, Entry(value, now + DEFAULT_CACHE_TTL))
    ensures EntriesFresh(b, vs, now, Stored(cache, key, value, DEFAULT_CACHE_TTL, now, up))
  {
    hide EntryFresh;
  }

  lemma FewerAreFresh(b: Bounds, vs: seq<Version>, now: int, cache: Entries, keys: set<string>)
    requires EntriesFresh(b, vs, now, cache)
    ensures EntriesFresh(b, vs, now, cache - keys)
  {
    hide EntryFresh;
  }

  lemma FillIsFresh(b: Bounds, vs: seq<Version>, env: UserEnv, snap: Rows, st: Store, ph: UserPhase)
    requires EntriesFresh(b, vs, env.now, st.cache) && PhaseFresh(b, vs, env.now, ph) && InDelay(b, ph, env.now)
    requires ph.GetFill? || ph.ListFill? || ph.SetUser?
    ensures
      var (st', ph') := Advance(env, snap, st, ph);
      StepFresh(b, vs, env.now, st'.cache, ph, ph')
  {
    hide EntriesFresh, EntryFresh, WasTrue, EncodeUser, EncodeUsers, UserKey, AnswerFresh;
    var (key, value, what, at) :=
      match ph
      case GetFill(id, u, at) => (UserKey(id), EncodeUser(u), ShownUser(id, u), at)
      case SetUser(id, u, at, _) => (UserKey(id), EncodeUser(u), ShownUser(id, u), at)
      case ListFill(us, at) => (LIST_KEY, EncodeUsers(us), ShownList(us), at);
    SetIsFresh(b, vs, what, at, env.now, key, value);
    StoredIsFresh(b, vs, env.now, st.cache, key, value, env.setUp);
  }

  lemma DropIsFresh(b: Bounds, vs: seq<Version>, env: UserEnv, snap: Rows, st: Store, ph: UserPhase)
    requires EntriesFresh(b, vs, env.now, st.cache) && (ph.DropUser? || ph.DropList? || ph.Done?)
    ensures
      var (st', ph') := Advance(env, snap, st, ph);
      StepFresh(b, vs, env.now, st'.cache, ph, ph')
  {
    hide EntriesFresh, UserKey;
    FewerAreFresh(b, vs, env.now, st.cache, {LIST_KEY});
    if ph.DropUser? {
      FewerAreFresh(b, vs, env.now, st.cache, {UserKey(ph.id)});
    }
  }

  // ---------------------------------------------------------------- every run

  lemma NewVersionKeepsEntries(b: Bounds, vs: seq<Version>, v: Version, cache: Entries)
    requires EntriesFresh(b, vs, v.at, cache)
    ensures EntriesFresh(b, vs + [v], v.at, cache)
  {
    hide EntryFresh;
    forall key | key in cache ensures EntryFresh(b, vs + [v], key, cache[key]) {
      EntryFreshStays(b, vs, v, key, cache[key]);
    }
  }

  lemma NewVersionKeepsInv(b: Bounds, sys: Sys, rows: Rows)
    requires Inv(b, sys)
    ensures Inv(b, sys.(versions := sys.versions + [Version(sys.now, rows)]))
  {
    hide EntriesFresh, PhaseFresh, AnswerFresh;
    var v := Version(sys.now, rows);
    NewVersionKeepsEntries(b, sys.versions, v, sys.cache);
    forall id | id in sys.flights ensures PhaseFresh(b, sys.versions + [v], sys.now, sys.flights[id]) {
      PhaseFreshStays(b, sys.versions, v, sys.now, sys.flights[id]);
    }
    forall i | 0 <= i < |sys.served| ensures AnswerFresh(b, sys.versions + [v], sys.served[i]) {
      AnswerFreshStays(b, sys.versions, v, sys.served[i]);
    }
  }

  lemma StepIsFresh(b: Bounds, sys: Sys, id: nat, snap: nat, env: UserEnv)
    requires Inv(b, sys) && Enabled(b, sys, Step(id, snap, env))
    ensures
      var ph := sys.flights[id];
      var (st', ph') := Advance(env, sys.versions[snap].rows, Store(sys.Rows(), sys.cache), ph);
      && Inv(b, sys.(versions := sys.versions + [Version(sys.now, st'.rows)]))
      && StepFresh(b, sys.versions + [Version(sys.now, st'.rows)], sys.now, st'.cache, ph, ph')
  {
    hide EntriesFresh, PhaseFresh, AnswerFresh, StepFresh, IsListing, AtStart;
    var ph := sys.flights[id];
    var st := Store(sys.Rows(), sys.cache);
    var (st', ph') := Advance(env, sys.versions[snap].rows, st, ph);
    NewVersionKeepsInv(b, sys, st'.rows);
    var vs := sys.versions + [Version(sys.now, st'.rows)];
    assert vs[snap] == sys.versions[snap];
    match ph
    case Start(req) =>
      if req.Get? || req.ListAll? {
        LookupIsFresh(b, vs, env, st, req);
      } else {
        WriteIsFresh(b, vs, env, st, req);
      }
    case GetDb(_) => ReadIsFresh(b, vs, env, snap, sys.cache, sys.Rows(), ph);
    case ListDb => ReadIsFresh(b, vs, env, snap, sys.cache, sys.Rows(), ph);
    case DropUser(_) => DropIsFresh(b, vs, env, vs[snap].rows, st, ph);
    case DropList(_) => DropIsFresh(b, vs, env, vs[snap].rows, st, ph);
    case Done(_) => DropIsFresh(b, vs, env, vs[snap].rows, st, ph);
    case _ => FillIsFresh(b, vs, env, vs[snap].rows, st, ph);
  }

  lemma StepKeepsInv(b: Bounds, sys: Sys, id: nat, snap: nat, env: UserEnv)
    requires Inv(b, sys) && Enabled(b, sys, Step(id, snap, env))
    ensures Inv(b, TakeStep(b, sys, id, snap, env))
  {
    hide EntriesFresh, PhaseFresh, AnswerFresh, IsListing, Advance, ServedBy, InDelay, CurrentDuring;
    StepIsFresh(b, sys, id, snap, env);
  }

  lemma TickKeepsInv(b: Bounds, sys: Sys, now: int)
    requires Inv(b, sys) && sys.now <= now
    ensures Inv(b, sys.(now := now))
  {
    hide EntryFresh, AnswerFresh, WasTrue;
  }

  lemma NextKeepsInv(b: Bounds, sys: Sys, act: Act)
    requires Inv(b, sys) && Enabled(b, sys, act)
    ensures Inv(b, Next(b, sys, act))
  {
    hide EntriesFresh, AnswerFresh, WasTrue, IsListing, TakeStep, InDelay, CurrentDuring;
    match act
    case Tick(now) => TickKeepsInv(b, sys, now);
    case Step(id, snap, env) => StepKeepsInv(b, sys, id, snap, env);
    case Evict(keys) => FewerAreFresh(b, sys.versions, sys.now, sys.cache, keys);
    case _ =>
  }

  lemma InitialInv(b: Bounds, now: int)
    ensures Inv(b, Initial(now))
  {
  }

  lemma {:induction false} RunKeepsInv(b: Bounds, sys: Sys, acts: seq<Act>)
    requires Inv(b, sys) && RunOk(b, sys, acts)
    ensures Inv(b, Run(b, sys, acts))
    decreases |acts|
  {
    hide Inv, Enabled, Next;
    if acts != [] {
      NextKeepsInv(b, sys, acts[0]);
      RunKeepsInv(b, Next(b, sys, acts[0]), acts[1..]);
    }
  }

  /**
   * In every run every user and every list that a lookup returned was what the table held at some instant at
   * most 300 + delay + lag seconds before it was returned; and whoever was not found was not in the table at some
   * instant at most lag seconds before.
   */
  lemma BoundedStaleness(b: Bounds, now: int, acts: seq<Act>, i: nat)
    requires RunOk(b, Initial(now), acts) && i < |Run(b, Initial(now), acts).served|
    ensures
      var sys := Run(b, Initial(now), acts);
      var s := sys.served[i];
      WasTrue(sys.versions, s.what, s.at - (if s.what.ShownNobody? then b.lag else 300 + b.delay + b.lag), s.at)
  {
    hide RunOk, Run, WasTrue;
    InitialInv(b, now);
    RunKeepsInv(b, Initial(now), acts);
  }

  // ---------------------------------------------------------------- the bound is attained

  lemma {:induction false} RunOneMore(b: Bounds, sys: Sys, acts: seq<Act>, act: Act)
    requires RunOk(b, sys, acts) && Enabled(b, Run(b, sys, acts), act)
    ensures RunOk(b, sys, acts + [act]) && Run(b, sys, acts + [act]) == Next(b, Run(b, sys, acts), act)
    decreases |acts|
  {
    hide Enabled, Next;
    if acts == [] {
      assert acts + [act] == [act];
    } else {
      RunOneMore(b, Next(b, sys, acts[0]), acts[1..], act);
      assert (acts + [act])[1..] == acts[1..] + [act];
    }
  }

  lemma RunNothing(b: Bounds, sys: Sys)
    ensures RunOk(b, sys, []) && Run(b, sys, []) == sys
  {
  }

  /** Everything gets through; `newId` is 1. */
  function EnvAt(now: int, listing: seq<User>): UserEnv {
    UserEnv(now, 1, listing, true, true, true)
  }

  /** User 1 is created and updated at once; neither request gets as far as the cache. */
  lemma WrittenTwice(b: Bounds, now: int, n: NewUser, change: UserChange) returns (acts: seq<Act>)
    ensures
      var u := User(1, n.name, n.email);
      var rows := map[1 := Changed(u, change)];
      && RunOk(b, Initial(now), acts)
      && var sys := Run(b, Initial(now), acts);
      && sys.versions == [Version(now, map[]), Version(now, map[1 := u]), Version(now, rows)]
      && sys.cache == map[] && sys.flights.Keys == {0, 1} && sys.now == now && sys.served == []
  {
    hide RunOk, Run;
    acts := [];
    RunNothing(b, Initial(now));
    RunOneMore(b, Initial(now), acts, Begin(0, Create(n)));
    acts := acts + [Begin(0, Create(n))];
    RunOneMore(b, Initial(now), acts, Step(0, 0, EnvAt(now, [])));
    acts := acts + [Step(0, 0, EnvAt(now, []))];
    RunOneMore(b, Initial(now), acts, Begin(1, Update(1, change)));
    acts := acts + [Begin(1, Update(1, change))];
    RunOneMore(b, Initial(now), acts, Step(1, 0, EnvAt(now, [])));
    acts := acts + [Step(1, 0, EnvAt(now, []))];
    ghost var u := User(1, n.name, n.email);
    ghost var rows0: Rows := map[];
    assert rows0[1 := u] == map[1 := u];
    assert rows0[1 := u][1 := Changed(u, change)] == map[1 := Changed(u, change)];
  }

  lemma UpdatedListing(u: User, change: UserChange)
    ensures var u' := Changed(u, change); u'.id == u.id && IsListing([u'], map[u.id := u'])
  {
  }

  /** The table holds `u` for an instant only, and is never written again. */
  ghost predicate Overwritten(vs: seq<Version>, now: int, u: User, u': User) {
    && |vs| > 2 && vs[0] == Version(now, map[]) && vs[1] == Version(now, map[1 := u])
    && vs[2].at == now && forall i | 2 <= i < |vs| :: vs[i].rows == map[1 := u']
  }

  lemma StaysOverwritten(vs: seq<Version>, now: int, u: User, u': User, v: Version)
    requires Overwritten(vs, now, u, u') && v.rows == map[1 := u']
    ensures Overwritten(vs + [v], now, u, u')
  {
  }

  lemma OverwrittenIsNotShown(vs: seq<Version>, now: int, u: User, u': User, from: int, to: int)
    requires Overwritten(vs, now, u, u') && u != u' && from > now
    ensures !WasTrue(vs, ShownUser(1, u), from, to)
  {
    forall i | CurrentDuring(vs, i, from, to) ensures !Shows(vs[i].rows, ShownUser(1, u)) {
      assert i > 1;
    }
  }

  lemma LastIsCurrent(b: Bounds, now: int, acts: seq<Act>)
    requires RunOk(b, Initial(now), acts)
    ensures
      var sys := Run(b, Initial(now), acts);
      sys.versions != [] && CurrentDuring(sys.versions, |sys.versions| - 1, sys.now - b.lag, sys.now)
  {
    hide RunOk, Run, EntriesFresh, PhaseFresh, AnswerFresh;
    InitialInv(b, now);
    RunKeepsInv(b, Initial(now), acts);
  }

  /** Looks up user 1 at the replica, which still has the first row. */
  lemma ReadFromReplica(b: Bounds, now: int, n: NewUser, change: UserChange) returns (acts: seq<Act>)
    ensures
      var u := User(1, n.name, n.email);
      && RunOk(b, Initial(now), acts)
      && var sys := Run(b, Initial(now), acts);
      && Overwritten(sys.versions, now, u, Changed(u, change))
      && sys.cache == map[] && sys.flights.Keys == {0, 1, 2} && sys.flights[2] == GetFill(1, u, sys.now)
      && sys.now == now + b.lag && sys.served == []
  {
    hide RunOk, Run, Changed, UserKey, EncodeUser;
    ghost var u := User(1, n.name, n.email);
    acts := WrittenTwice(b, now, n, change);
    RunOneMore(b, Initial(now), acts, Tick(now + b.lag));
    acts := acts + [Tick(now + b.lag)];
    RunOneMore(b, Initial(now), acts, Begin(2, Get(1)));
    acts := acts + [Begin(2, Get(1))];
    RunOneMore(b, Initial(now), acts, Step(2, 1, EnvAt(now + b.lag, [u])));
    acts := acts + [Step(2, 1, EnvAt(now + b.lag, [u]))];
    RunOneMore(b, Initial(now), acts, Step(2, 1, EnvAt(now + b.lag, [u])));
    acts := acts + [Step(2, 1, EnvAt(now + b.lag, [u]))];
  }

  /** Caches that row at the last moment. */
  lemma CachedLate(b: Bounds, now: int, n: NewUser, change: UserChange) returns (acts: seq<Act>)
    ensures
      var u := User(1, n.name, n.email);
      && RunOk(b, Initial(now), acts)
      && var sys := Run(b, Initial(now), acts);
      && Overwritten(sys.versions, now, u, Changed(u, change))
      && sys.cache == map[UserKey(1) := Entry(EncodeUser(u), sys.now + DEFAULT_CACHE_TTL)]
      && 3 !in sys.flights && sys.now == now + b.lag + b.delay && |sys.served| == 1
  {
    hide RunOk, Run, Changed, UserKey, EncodeUser, IsListing;
    ghost var u := User(1, n.name, n.email);
    acts := ReadFromReplica(b, now, n, change);
    RunOneMore(b, Initial(now), acts, Tick(now + b.lag + b.delay));
    acts := acts + [Tick(now + b.lag + b.delay)];
    UpdatedListing(u, change);
    LastIsCurrent(b, now, acts);
    ghost var sys := Run(b, Initial(now), acts);
    ghost var env := EnvAt(sys.now, [Changed(u, change)]);
    RunOneMore(b, Initial(now), acts, Step(2, |sys.versions| - 1, env));
    acts := acts + [Step(2, |sys.versions| - 1, env)];
    StaysOverwritten(sys.versions, now, u, Changed(u, change), Version(sys.now, sys.Rows()));
  }

  /**
   * No smaller bound holds: for every delay and lag there is a run in which a lookup answers with a row
   * that was last true exactly 300 + delay + lag seconds before.
   */
  lemma BoundIsAttained(b: Bounds, now: int, n: NewUser, change: UserChange) returns (acts: seq<Act>)
    requires var u := User(1, n.name, n.email); Changed(u, change) != u
    ensures
      && RunOk(b, Initial(now), acts)
      && var sys := Run(b, Initial(now), acts);
      && |sys.served| == 2
      && var s := sys.served[1];
      && s == Served(ShownUser(1, User(1, n.name, n.email)), sys.now)
      && forall from | from > s.at - (300 + b.delay + b.lag) :: !WasTrue(sys.versions, s.what, from, s.at)
  {
    hide RunOk, Run, Changed, UserKey, EncodeUser, DecodeUser, IsListing, WasTrue;
    ghost var u := User(1, n.name, n.email);
    acts := CachedLate(b, now, n, change);
    ghost var later := now + b.lag + b.delay + DEFAULT_CACHE_TTL;
    RunOneMore(b, Initial(now), acts, Tick(later));
    acts := acts + [Tick(later)];
    RunOneMore(b, Initial(now), acts, Begin(3, Get(1)));
    acts := acts + [Begin(3, Get(1))];
    UpdatedListing(u, change);
    LastIsCurrent(b, now, acts);
    UserRoundTrip(u);
    ghost var sys := Run(b, Initial(now), acts);
    ghost var env := EnvAt(later, [Changed(u, change)]);
    RunOneMore(b, Initial(now), acts, Step(3, |sys.versions| - 1, env));
    acts := acts + [Step(3, |sys.versions| - 1, env)];
    StaysOverwritten(sys.versions, now, u, Changed(u, change), Version(sys.now, sys.Rows()));
    ghost var vs := Run(b, Initial(now), acts).versions;
    forall from | from > now ensures !WasTrue(vs, ShownUser(1, u), from, later) {
      OverwrittenIsNotShown(vs, now, u, Changed(u, change), from, later);
    }
  }
}

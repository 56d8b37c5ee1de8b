/**
 * The cached service answers exactly as a map from ids to users, as long as no call to Redis is lost that
 * leaves something stale behind; and which calls those are.
 */
module UserRefinement {
  import opened Wrappers
  import opened Errors
  import opened Json
  import opened Redis
  import opened UserFlow

  /** What the plain map answers; a list stands for the set of its rows. */
  datatype PlainReply = One(user: User) | All(rows: Rows) | Ok

  type PlainAnswer = Result<PlainReply, Error>

  function Plain(rows: Rows, newId: int, req: UserRequest): (Rows, PlainAnswer) {
    match req
    case Get(id) => (rows, if id in rows then Success(One(rows[id])) else Failure(NotFound))
    case ListAll => (rows, Success(All(rows)))
    case Create(n) =>
      var u := User(newId, n.name, n.email);
      if newId in rows then (rows, Failure(InternalError("duplicate key"))) else (rows[newId := u], Success(One(u)))
    case Update(id, change) =>
      if id !in rows then (rows, Failure(NotFound))
      else var u := Changed(rows[id], change); (rows[id := u], Success(One(u)))
    case Delete(id) => if id !in rows then (rows, Failure(NotFound)) else (rows - {id}, Success(Ok))
    case Consume(None) => (rows, Success(Ok))
    case Consume(Some(e)) =>
      if e.eventType != "user.registered" || newId in rows then (rows, Success(Ok))
      else (rows[newId := User(newId, BeforeAt(e.email), e.email)], Success(Ok))
  }

  ghost predicate SameAnswer(a: UserAnswer, p: PlainAnswer) {
    match (a, p)
    case (Failure(e), Failure(f)) => e == f
    case (Success(OneUser(u)), Success(One(v))) => u == v
    case (Success(Users(us)), Success(All(rows))) => IsListing(us, rows)
    case (Success(Deleted), Success(Ok)) => true
    case (Success(Handled), Success(Ok)) => true
    case _ => false
  }

  /** Every cached user is its row. */
  ghost predicate UsersCoherent(st: Store) {
    forall id | UserKey(id) in st.cache :: id in st.rows && st.cache[UserKey(id)].value == EncodeUser(st.rows[id])
  }

  /** A cached list is the table. */
  ghost predicate ListCoherent(st: Store) {
    LIST_KEY in st.cache ==> exists us :: IsListing(us, st.rows) && st.cache[LIST_KEY].value == EncodeUsers(us)
  }

  ghost predicate Coherent(st: Store) {
    WellKeyed(st.rows) && UsersCoherent(st) && ListCoherent(st)
  }

  /**
   * Whether the calls to Redis that a request loses do no harm. What is not cached cannot go stale, and an
   * update that changes nothing leaves nothing stale.
   */
  predicate LossIsHarmless(env: UserEnv, st: Store, req: UserRequest) {
    var listIsDropped := env.delUp || LIST_KEY !in st.cache;
    match req
    case Get(_) => true
    case ListAll => true
    case Create(_) => env.newId in st.rows || listIsDropped
    case Consume(event) =>
      event.None? || event.value.eventType != "user.registered" || env.newId in st.rows || listIsDropped
    case Update(id, change) =>
      || id !in st.rows || Changed(st.rows[id], change) == st.rows[id]
      || ((env.setUp || UserKey(id) !in st.cache) && listIsDropped)
    case Delete(id) => id !in st.rows || env.delUp || (UserKey(id) !in st.cache && LIST_KEY !in st.cache)
  }

  // ---------------------------------------------------------------- what the cache is after a write

  lemma WriteEnds(env: UserEnv, st: Store, id: int, u: User, reply: UserReply)
    ensures
      var set_ := Stored(st.cache, UserKey(id), EncodeUser(u), DEFAULT_CACHE_TTL, env.now, env.setUp);
      Drive(env, st, SetUser(id, u, env.now, reply)) ==
      (Store(st.rows, Redis.Deleted(set_, LIST_KEY, env.delUp)), Success(reply))
  {
    hide UserKey, EncodeUser;
    DriveStep(env, st, SetUser(id, u, env.now, reply));
    var set_ := Stored(st.cache, UserKey(id), EncodeUser(u), DEFAULT_CACHE_TTL, env.now, env.setUp);
    DriveStep(env, Store(st.rows, set_), DropList(reply));
  }

  lemma DeleteEnds(env: UserEnv, st: Store, id: int)
    ensures
      Drive(env, st, DropUser(id)) ==
      (Store(st.rows, Redis.Deleted(Redis.Deleted(st.cache, UserKey(id), env.delUp), LIST_KEY, env.delUp)),
       Success(Deleted))
  {
    hide UserKey;
    DriveStep(env, st, DropUser(id));
    DriveStep(env, Store(st.rows, Redis.Deleted(st.cache, UserKey(id), env.delUp)), DropList(Deleted));
  }

  /** Users stay coherent exactly if the row written reached the cache, or was not there, or is the old one. */
  lemma UsersAfterWrite(env: UserEnv, st: Store, id: int, u: User)
    requires UsersCoherent(st)
    ensures
      var set_ := Stored(st.cache, UserKey(id), EncodeUser(u), DEFAULT_CACHE_TTL, env.now, env.setUp);
      UsersCoherent(Store(st.rows[id := u], Redis.Deleted(set_, LIST_KEY, env.delUp))) <==>
      env.setUp || UserKey(id) !in st.cache || st.rows[id] == u
  {
    var set_ := Stored(st.cache, UserKey(id), EncodeUser(u), DEFAULT_CACHE_TTL, env.now, env.setUp);
    var cache := Redis.Deleted(set_, LIST_KEY, env.delUp);
    var rows := st.rows[id := u];
    KeysAreDistinct(id, id);
    UserRoundTrip(u);
    if UserKey(id) in st.cache {
      UserRoundTrip(st.rows[id]);
    }
    hide EncodeUser, UserKey;
    if env.setUp || UserKey(id) !in st.cache || st.rows[id] == u {
      forall i | UserKey(i) in cache ensures i in rows && cache[UserKey(i)].value == EncodeUser(rows[i]) {
        KeysAreDistinct(i, id);
      }
    }
  }

  lemma UsersAfterDelete(env: UserEnv, st: Store, id: int)
    requires UsersCoherent(st) && id in st.rows
    ensures
      var cache := Redis.Deleted(Redis.Deleted(st.cache, UserKey(id), env.delUp), LIST_KEY, env.delUp);
      UsersCoherent(Store(st.rows - {id}, cache)) <==> env.delUp || UserKey(id) !in st.cache
  {
    var cache := Redis.Deleted(Redis.Deleted(st.cache, UserKey(id), env.delUp), LIST_KEY, env.delUp);
    KeysAreDistinct(id, id);
    hide EncodeUser, UserKey;
    if env.delUp || UserKey(id) !in st.cache {
      forall i | UserKey(i) in cache
        ensures i in st.rows - {id} && cache[UserKey(i)].value == EncodeUser(st.rows[i])
      {
        assert i != id;
      }
    }
  }

  /** A list is a listing of one table only. */
  lemma ListingDetermines(us: seq<User>, rows: Rows, rows': Rows)
    requires IsListing(us, rows) && IsListing(us, rows') && WellKeyed(rows) && WellKeyed(rows')
    ensures rows == rows'
  {
    ListedRows(us, rows, rows');
    ListedRows(us, rows', rows);
    hide IsListing, WellKeyed;
    assert forall id :: id in rows.Keys <==> id in rows'.Keys;
    assert rows.Keys == rows'.Keys;
    assert forall id | id in rows.Keys :: rows[id] == rows'[id];
  }

  lemma ListedRows(us: seq<User>, rows: Rows, rows': Rows)
    requires IsListing(us, rows) && IsListing(us, rows') && WellKeyed(rows)
    ensures forall id | id in rows :: id in rows' && rows'[id] == rows[id]
  {
    forall id | id in rows ensures id in rows' && rows'[id] == rows[id] {
      assert rows[id] in us;
      var i :| 0 <= i < |us| && us[i] == rows[id];
      assert us[i].id == id;
    }
  }

  /** A cached list that is left alone stays coherent exactly if the table stays as it was. */
  lemma ListAfter(st: Store, rows: Rows, cache: Entries)
    requires WellKeyed(st.rows) && WellKeyed(rows) && ListCoherent(st)
    requires LIST_KEY in cache ==> LIST_KEY in st.cache && cache[LIST_KEY].value == st.cache[LIST_KEY].value
    ensures ListCoherent(Store(rows, cache)) <==> LIST_KEY !in cache || rows == st.rows
  {
    hide WellKeyed, IsListing, EncodeUsers;
    if LIST_KEY in cache && ListCoherent(Store(rows, cache)) {
      var us :| IsListing(us, st.rows) && st.cache[LIST_KEY].value == EncodeUsers(us);
      var us' :| IsListing(us', rows) && cache[LIST_KEY].value == EncodeUsers(us');
      UsersRoundTrip(us);
      UsersRoundTrip(us');
      ListingDetermines(us, st.rows, rows);
    }
  }

  // ---------------------------------------------------------------- each request

  /** One request: the table and the answer of the plain map. */
  ghost predicate Refines(env: UserEnv, st: Store, req: UserRequest) {
    var (st', a) := Drive(env, st, Start(req));
    var (rows', p) := Plain(st.rows, env.newId, req);
    st'.rows == rows' && SameAnswer(a, p)
  }

  /** And a cache that is coherent again exactly if the calls it lost do no harm. */
  ghost predicate StaysCoherent(env: UserEnv, st: Store, req: UserRequest) {
    Coherent(Drive(env, st, Start(req)).0) <==> LossIsHarmless(env, st, req)
  }

  lemma GetRefines(env: UserEnv, st: Store, id: int)
    requires Coherent(st)
    ensures Refines(env, st, Get(id)) && StaysCoherent(env, st, Get(id))
  {
    hide WellKeyed, IsListing, EncodeUser, DecodeUser, ListCoherent;
    DriveStep(env, st, Start(Get(id)));
    var hit := Lookup(st.cache, UserKey(id), env.now, env.getUp);
    if hit.Some? {
      UserRoundTrip(st.rows[id]);
    } else {
      DriveStep(env, st, GetDb(id));
      if id in st.rows {
        DriveStep(env, st, GetFill(id, st.rows[id], env.now));
        FilledUser(env, st, id);
      }
    }
  }

  lemma FilledUser(env: UserEnv, st: Store, id: int)
    requires UsersCoherent(st) && ListCoherent(st) && id in st.rows
    ensures
      var cache := Stored(st.cache, UserKey(id), EncodeUser(st.rows[id]), DEFAULT_CACHE_TTL, env.now, env.setUp);
      UsersCoherent(Store(st.rows, cache)) && ListCoherent(Store(st.rows, cache))
  {
    hide IsListing, EncodeUsers, EncodeUser;
    var cache := Stored(st.cache, UserKey(id), EncodeUser(st.rows[id]), DEFAULT_CACHE_TTL, env.now, env.setUp);
    forall i | UserKey(i) in cache ensures i in st.rows && cache[UserKey(i)].value == EncodeUser(st.rows[i]) {
      KeysAreDistinct(i, id);
    }
    KeysAreDistinct(id, id);
  }

  lemma ListRefines(env: UserEnv, st: Store)
    requires Coherent(st) && IsListing(env.listing, st.rows)
    ensures Refines(env, st, ListAll) && StaysCoherent(env, st, ListAll)
  {
    hide WellKeyed, IsListing, EncodeUsers, DecodeUsers, UsersCoherent;
    DriveStep(env, st, Start(ListAll));
    var hit := Lookup(st.cache, LIST_KEY, env.now, env.getUp);
    if hit.Some? {
      var us :| IsListing(us, st.rows) && st.cache[LIST_KEY].value == EncodeUsers(us);
      UsersRoundTrip(us);
    } else {
      DriveStep(env, st, ListDb);
      DriveStep(env, st, ListFill(env.listing, env.now));
      UsersUntouched(env, st, EncodeUsers(env.listing));
    }
  }

  lemma UsersUntouched(env: UserEnv, st: Store, value: Json)
    requires UsersCoherent(st)
    ensures UsersCoherent(st.(cache := Stored(st.cache, LIST_KEY, value, DEFAULT_CACHE_TTL, env.now, env.setUp)))
  {
    var cache := Stored(st.cache, LIST_KEY, value, DEFAULT_CACHE_TTL, env.now, env.setUp);
    forall i | UserKey(i) in cache ensures i in st.rows && cache[UserKey(i)].value == EncodeUser(st.rows[i]) {
      KeysAreDistinct(i, i);
    }
  }

  lemma DeleteRefines(env: UserEnv, st: Store, id: int)
    requires Coherent(st)
    ensures Refines(env, st, Delete(id)) && StaysCoherent(env, st, Delete(id))
  {
    hide UsersCoherent, ListCoherent;
    DriveStep(env, st, Start(Delete(id)));
    if id in st.rows {
      var rows := st.rows - {id};
      var cache := Redis.Deleted(Redis.Deleted(st.cache, UserKey(id), env.delUp), LIST_KEY, env.delUp);
      DeleteEnds(env, Store(rows, st.cache), id);
      UsersAfterDelete(env, st, id);
      KeysAreDistinct(id, id);
      ListAfter(st, rows, cache);
      assert rows != st.rows;
    }
  }

  /** The end of every request that wrote a row. */
  lemma WriteCoherence(env: UserEnv, st: Store, id: int, u: User)
    requires Coherent(st) && u.id == id
    ensures
      var set_ := Stored(st.cache, UserKey(id), EncodeUser(u), DEFAULT_CACHE_TTL, env.now, env.setUp);
      Coherent(Store(st.rows[id := u], Redis.Deleted(set_, LIST_KEY, env.delUp))) <==>
      || (id in st.rows && st.rows[id] == u)
      || ((env.setUp || UserKey(id) !in st.cache) && (env.delUp || LIST_KEY !in st.cache))
  {
    var set_ := Stored(st.cache, UserKey(id), EncodeUser(u), DEFAULT_CACHE_TTL, env.now, env.setUp);
    var cache := Redis.Deleted(set_, LIST_KEY, env.delUp);
    var rows := st.rows[id := u];
    assert rows == st.rows <==> id in st.rows && st.rows[id] == u;
    UsersAfterWrite(env, st, id, u);
    KeysAreDistinct(id, id);
    hide UsersCoherent, ListCoherent;
    ListAfter(st, rows, cache);
  }

  /** A write begins as the plain map does it, and then has the row to cache, or it is over. */
  lemma WriteStarts(env: UserEnv, st: Store, req: UserRequest)
    requires WellKeyed(st.rows) && UsersCoherent(st) && (req.Create? || req.Update? || req.Consume?)
    ensures
      var (st', ph) := AtStart(env, st, req);
      var (rows', p) := Plain(st.rows, env.newId, req);
      && st'.rows == rows' && st'.cache == st.cache
      && if ph.SetUser? then
           && ph.at == env.now && ph.user.id == ph.id && rows' == st.rows[ph.id := ph.user]
           && SameAnswer(Success(ph.reply), p)
           && (LossIsHarmless(env, st, req) <==>
                 || (ph.id in st.rows && st.rows[ph.id] == ph.user)
                 || ((env.setUp || UserKey(ph.id) !in st.cache) && (env.delUp || LIST_KEY !in st.cache)))
         else ph.Done? && rows' == st.rows && SameAnswer(ph.answer, p) && LossIsHarmless(env, st, req)
  {
    hide EncodeUser, UserKey, IsListing;
  }

  lemma WriteRefines(env: UserEnv, st: Store, req: UserRequest)
    requires Coherent(st) && (req.Create? || req.Update? || req.Consume?)
    ensures Refines(env, st, req) && StaysCoherent(env, st, req)
  {
    WriteStarts(env, st, req);
    hide WellKeyed, UsersCoherent, ListCoherent, UserKey, EncodeUser, AtStart, Plain, LossIsHarmless, SameAnswer;
    DriveStep(env, st, Start(req));
    var (st', ph) := AtStart(env, st, req);
    if ph.SetUser? {
      WriteEnds(env, st', ph.id, ph.user, ph.reply);
      WriteCoherence(env, st, ph.id, ph.user);
    }
  }

  /** One request, whatever calls to Redis get through. */
  lemma RequestRefines(env: UserEnv, st: Store, req: UserRequest)
    requires Coherent(st) && IsListing(env.listing, st.rows)
    ensures Refines(env, st, req)
    ensures Coherent(Drive(env, st, Start(req)).0) <==> LossIsHarmless(env, st, req)
  {
    hide Coherent, IsListing, Refines, LossIsHarmless;
    match req
    case Get(id) => GetRefines(env, st, id);
    case ListAll => ListRefines(env, st);
    case Delete(id) => DeleteRefines(env, st, id);
    case _ => WriteRefines(env, st, req);
  }

  // ---------------------------------------------------------------- what a write shows

  /** What a lookup right afterwards answers. */
  function Seen(env: UserEnv, st: Store, id: int): UserAnswer {
    Drive(env, st, Start(Get(id))).1
  }

  /** On a coherent cache a lookup answers with the row, or that there is none. */
  lemma SeenIsRow(env: UserEnv, st: Store, id: int)
    requires Coherent(st)
    ensures Seen(env, st, id) == if id in st.rows then Success(OneUser(st.rows[id])) else Failure(NotFound)
  {
    GetRefines(env, st, id);
    hide Coherent, StaysCoherent;
  }

  lemma WrittenAnswer(env: UserEnv, st: Store, req: UserRequest)
    requires Coherent(st) && env.setUp && env.delUp && (req.Create? || req.Update? || req.Delete? || req.Consume?)
    ensures Refines(env, st, req) && Coherent(Drive(env, st, Start(req)).0)
  {
    hide Coherent, Refines;
    if req.Delete? {
      DeleteRefines(env, st, req.id);
    } else {
      WriteRefines(env, st, req);
    }
  }

  /**
   * An update answers with the row as it is afterwards, each column that was given at its new value and each
   * other one as it was, and that is what the next lookup shows.
   */
  lemma UpdateIsSeen(env: UserEnv, env': UserEnv, st: Store, id: int, change: UserChange)
    requires Coherent(st) && env.setUp && env.delUp
    ensures
      var (st', a) := Drive(env, st, Start(Update(id, change)));
      if id !in st.rows then a == Failure(NotFound) && st'.rows == st.rows
      else
        && a.Success? && a.value.OneUser? && a.value.user.id == id && Seen(env', st', id) == a
        && (change.name.Some? ==> a.value.user.name == change.name.value)
        && (change.name.None? ==> a.value.user.name == st.rows[id].name)
        && (change.email.Some? ==> a.value.user.email == change.email.value)
        && (change.email.None? ==> a.value.user.email == st.rows[id].email)
        && st'.rows == st.rows[id := a.value.user]
  {
    WrittenAnswer(env, st, Update(id, change));
    var st' := Drive(env, st, Start(Update(id, change))).0;
    SeenIsRow(env', st', id);
    hide UsersCoherent, ListCoherent, Drive, Seen;
  }

  /**
   * A new user has the name and address given, under the new id, and the next lookup shows it; if the database
   * refuses the row nothing changes.
   */
  lemma CreateIsSeen(env: UserEnv, env': UserEnv, st: Store, name: string, email: string)
    requires Coherent(st) && env.setUp && env.delUp
    ensures
      var (st', a) := Drive(env, st, Start(Create(NewUser(name, email))));
      if env.newId in st.rows then a.Failure? && a.error.InternalError? && st'.rows == st.rows
      else
        && a == Success(OneUser(User(env.newId, name, email))) && Seen(env', st', env.newId) == a
        && st'.rows == st.rows[env.newId := User(env.newId, name, email)]
  {
    WrittenAnswer(env, st, Create(NewUser(name, email)));
    var st' := Drive(env, st, Start(Create(NewUser(name, email)))).0;
    SeenIsRow(env', st', env.newId);
    hide Coherent, Drive, Seen;
  }

  /** A deleted user is not found any more; deleting nobody is an error. */
  lemma DeleteIsSeen(env: UserEnv, env': UserEnv, st: Store, id: int)
    requires Coherent(st) && env.setUp && env.delUp
    ensures
      var (st', a) := Drive(env, st, Start(Delete(id)));
      && (if id in st.rows then a.Success? else a == Failure(NotFound))
      && Seen(env', st', id) == Failure(NotFound) && st'.rows == st.rows - {id}
  {
    WrittenAnswer(env, st, Delete(id));
    var st' := Drive(env, st, Start(Delete(id))).0;
    SeenIsRow(env', st', id);
    hide Coherent, Drive, Seen;
  }

  /** A registration event leaves a profile with its address, named by what stands before the '@'. */
  lemma EventIsSeen(env: UserEnv, env': UserEnv, st: Store, userId: int, name: string, domain: string)
    requires Coherent(st) && env.setUp && env.delUp && env.newId !in st.rows && '@' !in name
    ensures
      var email := name + "@" + domain;
      var st' := Drive(env, st, Start(Consume(Some(UserEvent("user.registered", userId, email))))).0;
      Seen(env', st', env.newId) == Success(OneUser(User(env.newId, name, email)))
  {
    var email := name + "@" + domain;
    var req := Consume(Some(UserEvent("user.registered", userId, email)));
    WrittenAnswer(env, st, req);
    SeenIsRow(env', Drive(env, st, Start(req)).0, env.newId);
    NameBeforeAt(name, domain);
    hide Coherent, Drive, Seen;
  }

  /** Any other event, and one whose profile the database refuses, leaves the table as it was. */
  lemma OtherEventIsIgnored(env: UserEnv, st: Store, event: Option<UserEvent>)
    requires Coherent(st) && env.setUp && env.delUp
    requires event.None? || event.value.eventType != "user.registered" || env.newId in st.rows
    ensures Drive(env, st, Start(Consume(event))).0.rows == st.rows
  {
    WrittenAnswer(env, st, Consume(event));
    hide Coherent, Drive;
  }

  lemma NameBeforeAt(name: string, domain: string)
    requires '@' !in name
    ensures BeforeAt(name + "@" + domain) == name
  {
    var s, r := name + "@" + domain, BeforeAt(name + "@" + domain);
    assert s[|name|] == '@' && forall i | 0 <= i < |name| :: s[i] == name[i];
    assert r == s[..|r|] && name == s[..|name|];
  }

  // ---------------------------------------------------------------- sequences of requests

  /** A request, its environment, and the cache entries that were evicted before it. */
  datatype UserCall = UserCall(env: UserEnv, req: UserRequest, evicted: set<string>)

  function Evict(st: Store, keys: set<string>): Store {
    st.(cache := st.cache - keys)
  }

  lemma EvictKeepsCoherent(st: Store, keys: set<string>)
    requires Coherent(st)
    ensures Coherent(Evict(st, keys))
  {
    hide IsListing, WellKeyed;
    forall id | UserKey(id) in Evict(st, keys).cache
      ensures id in st.rows && Evict(st, keys).cache[UserKey(id)].value == EncodeUser(st.rows[id])
    {
      assert UserKey(id) in st.cache;
    }
  }

  /** The calls to Redis that are lost on the way do no harm. */
  ghost predicate CallsOk(st: Store, calls: seq<UserCall>)
    decreases |calls|
  {
    calls == [] ||
    (&& IsListing(calls[0].env.listing, st.rows)
     && LossIsHarmless(calls[0].env, Evict(st, calls[0].evicted), calls[0].req)
     && CallsOk(Drive(calls[0].env, Evict(st, calls[0].evicted), Start(calls[0].req)).0, calls[1..]))
  }

  ghost function Cached(st: Store, calls: seq<UserCall>): seq<UserAnswer>
    decreases |calls|
  {
    if calls == [] then []
    else
      var (st', a) := Drive(calls[0].env, Evict(st, calls[0].evicted), Start(calls[0].req));
      [a] + Cached(st', calls[1..])
  }

  ghost function Uncached(rows: Rows, calls: seq<UserCall>): seq<PlainAnswer>
    decreases |calls|
  {
    if calls == [] then []
    else
      var (rows', p) := Plain(rows, calls[0].env.newId, calls[0].req);
      [p] + Uncached(rows', calls[1..])
  }

  /**
   * Any sequence of requests and handled events, with any entries evicted or expired in between, any read of
   * the cache failing and any write to it failing where that does no harm, is answered exactly as the plain
   * map answers it.
   */
  lemma {:induction false} CacheIsTransparent(st: Store, calls: seq<UserCall>)
    requires Coherent(st) && CallsOk(st, calls)
    ensures
      var xs, ps := Cached(st, calls), Uncached(st.rows, calls);
      |xs| == |ps| == |calls| && forall i | 0 <= i < |calls| :: SameAnswer(xs[i], ps[i])
    decreases |calls|
  {
    hide Coherent, IsListing, LossIsHarmless, SameAnswer, Plain, Drive;
    if calls != [] {
      var c := calls[0];
      var st0 := Evict(st, c.evicted);
      EvictKeepsCoherent(st, c.evicted);
      RequestRefines(c.env, st0, c.req);
      var (st', a) := Drive(c.env, st0, Start(c.req));
      var (rows', p) := Plain(st.rows, c.env.newId, c.req);
      CacheIsTransparent(st', calls[1..]);
      assert Cached(st, calls) == [a] + Cached(st', calls[1..]);
      assert Uncached(st.rows, calls) == [p] + Uncached(rows', calls[1..]);
    }
  }

  lemma NewStoreIsCoherent()
    ensures Coherent(Store(map[], map[]))
  {
  }

  /** From an empty table and an empty cache, the service is the plain map. */
  lemma ServiceIsPlainMap(calls: seq<UserCall>)
    requires CallsOk(Store(map[], map[]), calls)
    ensures
      var xs, ps := Cached(Store(map[], map[]), calls), Uncached(map[], calls);
      |xs| == |ps| == |calls| && forall i | 0 <= i < |calls| :: SameAnswer(xs[i], ps[i])
  {
    NewStoreIsCoherent();
    CacheIsTransparent(Store(map[], map[]), calls);
  }

  // ---------------------------------------------------------------- what a lookup can tell

  /** What the service writes to the cache: encoded users under users' keys, an encoded list under the list's. */
  ghost predicate HoldsEncodings(cache: Entries) {
    && (forall id | UserKey(id) in cache :: exists u :: cache[UserKey(id)].value == EncodeUser(u))
    && (LIST_KEY in cache ==> exists us :: cache[LIST_KEY].value == EncodeUsers(us))
  }

  /** A lookup made now, and answered as the plain map answers it. */
  ghost predicate LooksRight(env: UserEnv, st: Store, req: UserRequest) {
    SameAnswer(Drive(env, st, Start(req)).1, Plain(st.rows, env.newId, req).1)
  }

  lemma HitIsAnswer(env: UserEnv, st: Store, id: int, u: User)
    requires env.getUp && UserKey(id) in st.cache && env.now <= st.cache[UserKey(id)].expiresAt
    requires st.cache[UserKey(id)].value == EncodeUser(u)
    ensures LooksRight(env, st, Get(id)) <==> id in st.rows && st.rows[id] == u
  {
    UserRoundTrip(u);
    DriveStep(env, st, Start(Get(id)));
    hide EncodeUser, DecodeUser;
  }

  lemma ListHitIsAnswer(env: UserEnv, st: Store, us: seq<User>)
    requires env.getUp && LIST_KEY in st.cache && env.now <= st.cache[LIST_KEY].expiresAt
    requires st.cache[LIST_KEY].value == EncodeUsers(us)
    ensures LooksRight(env, st, ListAll) <==> IsListing(us, st.rows)
  {
    UsersRoundTrip(us);
    DriveStep(env, st, Start(ListAll));
    hide EncodeUsers, DecodeUsers, IsListing;
  }

  /** As long as no entry has expired, a cache is coherent exactly if every lookup is answered rightly. */
  lemma CoherentIffLookupsRight(env: UserEnv, st: Store)
    requires env.getUp && IsListing(env.listing, st.rows) && WellKeyed(st.rows) && HoldsEncodings(st.cache)
    requires forall key | key in st.cache :: env.now <= st.cache[key].expiresAt
    ensures Coherent(st) <==> LooksRight(env, st, ListAll) && forall id :: LooksRight(env, st, Get(id))
  {
    hide WellKeyed, IsListing, LooksRight, EncodeUser, EncodeUsers, UserKey;
    if Coherent(st) {
      RequestRefines(env, st, ListAll);
      RefinesLooksRight(env, st, ListAll);
      forall id ensures LooksRight(env, st, Get(id)) {
        RequestRefines(env, st, Get(id));
        RefinesLooksRight(env, st, Get(id));
      }
    }
    if LooksRight(env, st, ListAll) && forall id :: LooksRight(env, st, Get(id)) {
      forall id | UserKey(id) in st.cache
        ensures id in st.rows && st.cache[UserKey(id)].value == EncodeUser(st.rows[id])
      {
        var u :| st.cache[UserKey(id)].value == EncodeUser(u);
        HitIsAnswer(env, st, id, u);
        assert LooksRight(env, st, Get(id));
      }
      if LIST_KEY in st.cache {
        var us :| st.cache[LIST_KEY].value == EncodeUsers(us);
        ListHitIsAnswer(env, st, us);
      }
    }
  }

  lemma RefinesLooksRight(env: UserEnv, st: Store, req: UserRequest)
    requires Refines(env, st, req)
    ensures LooksRight(env, st, req)
  {
  }

  /**
   * One such loss: after an update whose write to Redis is lost, a cached user is still
   * answered as it was before the update.
   */
  lemma LostWriteShows(st: Store, env: UserEnv, env': UserEnv, id: int, change: UserChange)
    requires Coherent(st) && UserKey(id) in st.cache && !env.setUp
    requires env'.getUp && env'.now <= st.cache[UserKey(id)].expiresAt
    ensures
      var (st1, a1) := Drive(env, st, Start(Update(id, change)));
      var (st2, a2) := Drive(env', st1, Start(Get(id)));
      && id in st.rows && a1 == Success(OneUser(Changed(st.rows[id], change)))
      && a2 == Success(OneUser(st.rows[id]))
      && (SameAnswer(a2, Plain(st1.rows, env'.newId, Get(id)).1) <==> Changed(st.rows[id], change) == st.rows[id])
  {
    hide WellKeyed, ListCoherent, EncodeUser, DecodeUser, Changed;
    KeysAreDistinct(id, id);
    var u := Changed(st.rows[id], change);
    var st1 := Store(st.rows[id := u], st.cache);
    DriveStep(env, st, Start(Update(id, change)));
    DriveStep(env, st1, SetUser(id, u, env.now, OneUser(u)));
    DriveStep(env, st1, DropList(OneUser(u)));
    var st2 := Store(st1.rows, Redis.Deleted(st.cache, LIST_KEY, env.delUp));
    UserRoundTrip(st.rows[id]);
    DriveStep(env', st2, Start(Get(id)));
  }
}

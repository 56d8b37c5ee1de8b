/**
 * The user service as a small-step machine over a table and the cache in front of it. A request advances
 * through phases, and between two phases it has awaited one call to the database or to Redis.
 */
module UserFlow {
  import opened Wrappers
  import opened Text
  import opened Errors
  import opened Json
  import opened Redis

  datatype User = User(id: int, name: string, email: string)

  datatype NewUser = NewUser(name: string, email: string)

  datatype UserChange = UserChange(name: Option<string>, email: Option<string>)

  datatype UserEvent = UserEvent(eventType: string, userId: int, email: string)

  /** The users table; each row sits under its own id. */
  type Rows = map<int, User>

  ghost predicate WellKeyed(rows: Rows) {
    forall id | id in rows :: rows[id].id == id
  }

  /** A result of `SELECT ... FROM users`: every row once, in any order. */
  ghost predicate IsListing(us: seq<User>, rows: Rows) {
    && (forall i | 0 <= i < |us| :: us[i].id in rows && rows[us[i].id] == us[i])
    && (forall id | id in rows :: rows[id] in us)
    && (forall i, j | 0 <= i < j < |us| :: us[i].id != us[j].id)
  }

  /** COALESCE keeps the column where the change says nothing. */
  function Changed(u: User, c: UserChange): User {
    User(u.id,
         if c.name.Some? then c.name.value else u.name,
         if c.email.Some? then c.email.value else u.email)
  }

  /** Each column takes the value given for it, or keeps its own. */
  lemma ChangeSetsColumns(u: User, name: string, email: string)
    ensures Changed(u, UserChange(Some(name), Some(email))) == User(u.id, name, email)
    ensures Changed(u, UserChange(Some(name), None)) == User(u.id, name, u.email)
    ensures Changed(u, UserChange(None, Some(email))) == User(u.id, u.name, email)
    ensures Changed(u, UserChange(None, None)) == u
  {
  }

  function Merged(c: UserChange, d: UserChange): UserChange {
    UserChange(if d.name.Some? then d.name else c.name, if d.email.Some? then d.email else c.email)
  }

  /** A change that says nothing changes nothing, and of two changes the later one wins column by column. */
  lemma ChangesCompose(u: User, c: UserChange, d: UserChange)
    ensures Changed(u, UserChange(None, None)) == u
    ensures Changed(u, UserChange(Some(u.name), Some(u.email))) == u
    ensures Changed(Changed(u, c), d) == Changed(u, Merged(c, d))
  {
  }

  // ---------------------------------------------------------------- cache keys and values

  const DEFAULT_CACHE_TTL := 300

  const LIST_KEY := "users:list"

  function UserKey(id: int): string {
    "user:" + IntToString(id)
  }

  lemma KeysAreDistinct(id: int, id': int)
    ensures UserKey(id) == UserKey(id') ==> id == id'
    ensures UserKey(id) != LIST_KEY
  {
    assert UserKey(id)[4] == ':' && LIST_KEY[4] == 's';
    if UserKey(id) == UserKey(id') {
      assert UserKey(id)[5..] == IntToString(id) && UserKey(id')[5..] == IntToString(id');
      IntToStringInjective(id, id');
    }
  }

  function EncodeUser(u: User): Json {
    Object(map["id" := Num(u.id), "name" := Str(u.name), "email" := Str(u.email)])
  }

  function DecodeUser(j: Json): Option<User> {
    var id, name, email := NumField(j, "id"), StrField(j, "name"), StrField(j, "email");
    if id.Some? && name.Some? && email.Some? then Some(User(id.value, name.value, email.value)) else None
  }

  function EncodeAll(us: seq<User>): (js: seq<Json>)
    ensures |js| == |us| && forall i | 0 <= i < |us| :: js[i] == EncodeUser(us[i])
  {
    if us == [] then [] else [EncodeUser(us[0])] + EncodeAll(us[1..])
  }

  function EncodeUsers(us: seq<User>): Json {
    List(EncodeAll(us))
  }

  function DecodeAll(js: seq<Json>): Option<seq<User>> {
    if js == [] then Some([])
    else
      var u, rest := DecodeUser(js[0]), DecodeAll(js[1..]);
      if u.Some? && rest.Some? then Some([u.value] + rest.value) else None
  }

  function DecodeUsers(j: Json): Option<seq<User>> {
    if j.List? then DecodeAll(j.items) else None
  }

  lemma UserRoundTrip(u: User)
    ensures DecodeUser(EncodeUser(u)) == Some(u)
  {
    assert |"id"| == 2 && |"name"| == 4 && |"email"| == 5;
  }

  lemma DecodeAllOfMore(js: seq<Json>, u: User, us: seq<User>)
    requires js != [] && DecodeUser(js[0]) == Some(u) && DecodeAll(js[1..]) == Some(us)
    ensures DecodeAll(js) == Some([u] + us)
  {
    hide DecodeUser;
  }

  lemma {:induction false} AllRoundTrip(us: seq<User>)
    ensures DecodeAll(EncodeAll(us)) == Some(us)
  {
    if us != [] {
      UserRoundTrip(us[0]);
      AllRoundTrip(us[1..]);
      hide EncodeUser, DecodeUser, DecodeAll;
      var js := EncodeAll(us);
      assert js[1..] == EncodeAll(us[1..]);
      DecodeAllOfMore(js, us[0], us[1..]);
      assert us == [us[0]] + us[1..];
    }
  }

  /** A list decodes to the users it was made from. */
  lemma UsersRoundTrip(us: seq<User>)
    ensures DecodeUsers(EncodeUsers(us)) == Some(us)
  {
    hide DecodeAll, EncodeAll;
    AllRoundTrip(us);
  }

  // ---------------------------------------------------------------- requests and phases

  datatype UserRequest =
    | Get(id: int)
    | ListAll
    | Create(new_: NewUser)
    | Update(id: int, change: UserChange)
    | Delete(id: int)
    | Consume(event: Option<UserEvent>)

  datatype UserReply = OneUser(user: User) | Users(users: seq<User>) | Deleted | Handled

  type UserAnswer = Result<UserReply, Error>

  /** The clock, the next id, the order rows come in, and which calls to Redis get through. */
  datatype UserEnv = UserEnv(now: int, newId: int, listing: seq<User>, getUp: bool, setUp: bool, delUp: bool)

  datatype Store = Store(rows: Rows, cache: Entries)

  /** Where a request stands; `at` is when it went to the database. */
  datatype UserPhase =
    | Start(req: UserRequest)
    | GetDb(id: int)
    | GetFill(id: int, user: User, at: int)
    | ListDb
    | ListFill(users: seq<User>, at: int)
    | SetUser(id: int, user: User, at: int, reply: UserReply)
    | DropUser(id: int)
    | DropList(reply: UserReply)
    | Done(answer: UserAnswer)
  {
    function Remaining(): nat {
      match this
      case Start(_) => 4
      case GetDb(_) | ListDb => 3
      case SetUser(_, _, _, _) | DropUser(_) => 2
      case GetFill(_, _, _) | ListFill(_, _) | DropList(_) => 1
      case Done(_) => 0
    }
  }

  /** The part of an e-mail address before its first '@', or all of it. */
  function BeforeAt(s: string): (r: string)
    ensures r <= s && '@' !in r && (|r| < |s| ==> s[|r|] == '@')
  {
    if s == "" || s[0] == '@' then "" else [s[0]] + BeforeAt(s[1..])
  }

  function AtStart(env: UserEnv, st: Store, req: UserRequest): (r: (Store, UserPhase))
    ensures r.1.Remaining() < 4
  {
    match req
    case Get(id) =>
      (match Lookup(st.cache, UserKey(id), env.now, env.getUp)
       case None => (st, GetDb(id))
       case Some(j) =>
         match DecodeUser(j)
         case None => (st, GetDb(id))
         case Some(u) => (st, Done(Success(OneUser(u)))))
    case ListAll =>
      (match Lookup(st.cache, LIST_KEY, env.now, env.getUp)
       case None => (st, ListDb)
       case Some(j) =>
         match DecodeUsers(j)
         case None => (st, ListDb)
         case Some(us) => (st, Done(Success(Users(us)))))
    case Create(n) =>
      if env.newId in st.rows then (st, Done(Failure(InternalError("duplicate key"))))
      else
        var u := User(env.newId, n.name, n.email);
        (st.(rows := st.rows[u.id := u]), SetUser(u.id, u, env.now, OneUser(u)))
    case Update(id, change) =>
      if id !in st.rows then (st, Done(Failure(NotFound)))
      else
        var u := Changed(st.rows[id], change);
        (st.(rows := st.rows[id := u]), SetUser(id, u, env.now, OneUser(u)))
    case Delete(id) =>
      if id !in st.rows then (st, Done(Failure(NotFound)))
      else (st.(rows := st.rows - {id}), DropUser(id))
    case Consume(event) =>
      if event.None? || event.value.eventType != "user.registered" || env.newId in st.rows
      then (st, Done(Success(Handled)))
      else
        var u := User(env.newId, BeforeAt(event.value.email), event.value.email);
        (st.(rows := st.rows[u.id := u]), SetUser(u.id, u, env.now, Handled))
  }

  /** One phase of one request: reads of the table see `snap`, everything else is current. */
  function Advance(env: UserEnv, snap: Rows, st: Store, ph: UserPhase): (r: (Store, UserPhase))
    ensures !ph.Done? ==> r.1.Remaining() < ph.Remaining()
  {
    match ph
    case Start(req) => AtStart(env, st, req)
    case GetDb(id) => if id in snap then (st, GetFill(id, snap[id], env.now)) else (st, Done(Failure(NotFound)))
    case GetFill(id, u, _) =>
      (st.(cache := Stored(st.cache, UserKey(id), EncodeUser(u), DEFAULT_CACHE_TTL, env.now, env.setUp)),
       Done(Success(OneUser(u))))
    case ListDb => (st, ListFill(env.listing, env.now))
    case ListFill(us, _) =>
      (st.(cache := Stored(st.cache, LIST_KEY, EncodeUsers(us), DEFAULT_CACHE_TTL, env.now, env.setUp)),
       Done(Success(Users(us))))
    case SetUser(id, u, _, reply) =>
      (st.(cache := Stored(st.cache, UserKey(id), EncodeUser(u), DEFAULT_CACHE_TTL, env.now, env.setUp)),
       DropList(reply))
    case DropUser(id) => (st.(cache := Redis.Deleted(st.cache, UserKey(id), env.delUp)), DropList(Deleted))
    case DropList(reply) => (st.(cache := Redis.Deleted(st.cache, LIST_KEY, env.delUp)), Done(Success(reply)))
    case Done(_) => (st, ph)
  }

  /** A request that runs alone from the phase given. */
  function Drive(env: UserEnv, st: Store, ph: UserPhase): (Store, UserAnswer)
    decreases ph.Remaining()
  {
    if ph.Done? then (st, ph.answer)
    else
      var (st', ph') := Advance(env, st.rows, st, ph);
      Drive(env, st', ph')
  }

  lemma DriveStep(env: UserEnv, st: Store, ph: UserPhase)
    requires !ph.Done?
    ensures
      var (st', ph') := Advance(env, st.rows, st, ph);
      && Drive(env, st, ph) == Drive(env, st', ph')
      && (ph'.Done? ==> Drive(env, st, ph) == (st', ph'.answer))
  {
  }
}

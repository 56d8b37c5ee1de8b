/** The user service and the event handler as methods over the live table and cache, proved against `UserFlow`. */
module UserService {
  import opened Wrappers
  import opened Errors
  import opened Redis
  import opened UserFlow

  lemma HasMember(s: set<int>)
    requires s != {}
    ensures exists x :: x in s
  {
    if !exists x :: x in s {
      forall x | x in s ensures false {
      }
    }
  }

  lemma NothingIsListed()
    ensures forall rows: Rows | rows == map[] :: IsListing([], rows)
  {
  }

  lemma ListingGrows(us: seq<User>, rows: Rows, u: User)
    requires IsListing(us, rows) && u.id !in rows
    ensures IsListing(us + [u], rows[u.id := u])
  {
    assert (us + [u])[|us|] == u;
  }

  lemma {:induction false} ListingExists(rows: Rows) returns (us: seq<User>)
    requires WellKeyed(rows)
    ensures IsListing(us, rows)
    decreases rows.Keys
  {
    if rows.Keys == {} {
      us := [];
    } else {
      HasMember(rows.Keys);
      var id :| id in rows.Keys;
      us := ListingExists(rows - {id});
      ListingGrows(us, rows - {id}, rows[id]);
      assert (rows - {id})[id := rows[id]] == rows;
      us := us + [rows[id]];
    }
  }

  class UserDatabase {
    var rows: Rows

    ghost predicate Valid()
      reads this
    {
      WellKeyed(rows)
    }

    constructor ()
      ensures Valid() && rows == map[]
    {
      rows := map[];
    }

    method FindById(id: int) returns (r: Option<User>)
      ensures r == if id in rows then Some(rows[id]) else None
    {
      if id in rows { r := Some(rows[id]); } else { r := None; }
    }

    method FindAll() returns (us: seq<User>)
      requires Valid()
      ensures IsListing(us, rows)
    {
      hide IsListing;
      us := [];
      var ids := rows.Keys;
      NothingIsListed();
      while ids != {}
        invariant ids <= rows.Keys
        invariant IsListing(us, rows - ids)
      {
        HasMember(ids);
        var id :| id in ids;
        ListingGrows(us, rows - ids, rows[id]);
        us := us + [rows[id]];
        assert rows - (ids - {id}) == (rows - ids)[id := rows[id]];
        ids := ids - {id};
      }
      assert rows - ids == rows;
    }

    method Create(id: int, n: NewUser) returns (r: Option<User>)
      requires Valid()
      modifies this
      ensures Valid()
      ensures r.None? <==> id in old(rows)
      ensures r.None? ==> rows == old(rows)
      ensures r.Some? ==> r.value == User(id, n.name, n.email) && rows == old(rows)[id := r.value]
    {
      if id in rows { return None; }
      var u := User(id, n.name, n.email);
      rows := rows[id := u];
      r := Some(u);
    }

    method Update(id: int, change: UserChange) returns (r: Option<User>)
      requires Valid()
      modifies this
      ensures Valid()
      ensures r.None? <==> id !in old(rows)
      ensures r.None? ==> rows == old(rows)
      ensures r.Some? ==> r.value == Changed(old(rows)[id], change) && rows == old(rows)[id := r.value]
    {
      if id !in rows { return None; }
      var u := Changed(rows[id], change);
      rows := rows[id := u];
      r := Some(u);
    }

    method Delete(id: int) returns (count: nat)
      requires Valid()
      modifies this
      ensures Valid()
      ensures rows == old(rows) - {id} && count == if id in old(rows) then 1 else 0
    {
      count := if id in rows then 1 else 0;
      rows := rows - {id};
    }
  }

  class UserService {
    const db: UserDatabase
    const redis: RedisStore

    ghost predicate Valid()
      reads db
    {
      db.Valid()
    }

    function Current(): Store
      reads db, redis
    {
      Store(db.rows, redis.entries)
    }

    constructor ()
      ensures Valid() && fresh(db) && fresh(redis)
      ensures Current() == Store(map[], map[])
    {
      db := new UserDatabase();
      redis := new RedisStore();
    }

    method CreateUser(env: UserEnv, n: NewUser) returns (a: UserAnswer)
      requires Valid()
      modifies db, redis
      ensures Valid()
      ensures (Current(), a) == Drive(env, old(Current()), Start(Create(n)))
    {
      DriveStep(env, Current(), Start(Create(n)));
      var created := db.Create(env.newId, n);
      if created.None? {
        return Failure(InternalError("duplicate key"));
      }
      var u := created.value;
      DriveStep(env, Current(), SetUser(u.id, u, env.now, OneUser(u)));
      redis.SetEx(UserKey(u.id), EncodeUser(u), DEFAULT_CACHE_TTL, env.now, env.setUp);
      DriveStep(env, Current(), DropList(OneUser(u)));
      redis.Del(LIST_KEY, env.delUp);
      a := Success(OneUser(u));
    }

    method GetUserById(env: UserEnv, id: int) returns (a: UserAnswer)
      requires Valid()
      modifies redis
      ensures Valid()
      ensures (Current(), a) == Drive(env, old(Current()), Start(Get(id)))
    {
      var key := UserKey(id);
      DriveStep(env, Current(), Start(Get(id)));
      var hit := redis.Get(key, env.now, env.getUp);
      if hit.Some? {
        var decoded := DecodeUser(hit.value);
        if decoded.Some? {
          return Success(OneUser(decoded.value));
        }
      }
      DriveStep(env, Current(), GetDb(id));
      var found := db.FindById(id);
      if found.None? {
        return Failure(NotFound);
      }
      DriveStep(env, Current(), GetFill(id, found.value, env.now));
      redis.SetEx(key, EncodeUser(found.value), DEFAULT_CACHE_TTL, env.now, env.setUp);
      a := Success(OneUser(found.value));
    }

    /** The order in which the database lists the rows is its own choice; on a hit it is not asked. */
    method ListUsers(env: UserEnv) returns (a: UserAnswer, ghost listing: seq<User>)
      requires Valid()
      modifies redis
      ensures Valid()
      ensures IsListing(listing, db.rows)
      ensures (Current(), a) == Drive(env.(listing := listing), old(Current()), Start(ListAll))
    {
      var hit := redis.Get(LIST_KEY, env.now, env.getUp);
      if hit.Some? {
        var decoded := DecodeUsers(hit.value);
        if decoded.Some? {
          listing := ListingExists(db.rows);
          DriveStep(env.(listing := listing), Current(), Start(ListAll));
          a := Success(Users(decoded.value));
          return;
        }
      }
      var listed := db.FindAll();
      listing := listed;
      ghost var env' := env.(listing := listed);
      DriveStep(env', Current(), Start(ListAll));
      DriveStep(env', Current(), ListDb);
      DriveStep(env', Current(), ListFill(listed, env.now));
      redis.SetEx(LIST_KEY, EncodeUsers(listed), DEFAULT_CACHE_TTL, env.now, env.setUp);
      a := Success(Users(listed));
    }

    method UpdateUser(env: UserEnv, id: int, change: UserChange) returns (a: UserAnswer)
      requires Valid()
      modifies db, redis
      ensures Valid()
      ensures (Current(), a) == Drive(env, old(Current()), Start(Update(id, change)))
    {
      DriveStep(env, Current(), Start(Update(id, change)));
      var updated := db.Update(id, change);
      if updated.None? {
        return Failure(NotFound);
      }
      var u := updated.value;
      DriveStep(env, Current(), SetUser(id, u, env.now, OneUser(u)));
      redis.SetEx(UserKey(id), EncodeUser(u), DEFAULT_CACHE_TTL, env.now, env.setUp);
      DriveStep(env, Current(), DropList(OneUser(u)));
      redis.Del(LIST_KEY, env.delUp);
      a := Success(OneUser(u));
    }

    method DeleteUser(env: UserEnv, id: int) returns (a: UserAnswer)
      requires Valid()
      modifies db, redis
      ensures Valid()
      ensures (Current(), a) == Drive(env, old(Current()), Start(Delete(id)))
    {
      DriveStep(env, Current(), Start(Delete(id)));
      ghost var before := db.rows;
      var count := db.Delete(id);
      if count == 0 {
        assert before - {id} == before;
        return Failure(NotFound);
      }
      DriveStep(env, Current(), DropUser(id));
      redis.Del(UserKey(id), env.delUp);
      DriveStep(env, Current(), DropList(Deleted));
      redis.Del(LIST_KEY, env.delUp);
      a := Success(Deleted);
    }

    /** `handle_message`, once the payload is parsed. */
    method HandleEvent(env: UserEnv, event: Option<UserEvent>)
      requires Valid()
      modifies db, redis
      ensures Valid()
      ensures (Current(), Success(Handled)) == Drive(env, old(Current()), Start(Consume(event)))
    {
      DriveStep(env, Current(), Start(Consume(event)));
      if event.None? || event.value.eventType != "user.registered" {
        return;
      }
      var email := event.value.email;
      var created := db.Create(env.newId, NewUser(BeforeAt(email), email));
      if created.None? {
        return;
      }
      var u := created.value;
      DriveStep(env, Current(), SetUser(u.id, u, env.now, Handled));
      redis.SetEx(UserKey(u.id), EncodeUser(u), DEFAULT_CACHE_TTL, env.now, env.setUp);
      DriveStep(env, Current(), DropList(Handled));
      redis.Del(LIST_KEY, env.delUp);
    }
  }
}

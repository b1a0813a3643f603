/**
 * The stores as objects over one database and one Redis server. The database keeps its two partial
 * unique indexes explicitly; every store method is proved against the statement on the whole table.
 */
module Stores {
  import opened Domain
  import opened Service
  import opened Database
  import opened RedisStores
  import opened Environment
  import T = Tables

  class UserStore {
    const pool: Postgres

    constructor (pool: Postgres)
      ensures this.pool == pool
    {
      this.pool := pool;
    }

    method CreateGuest(name: string, display: string, c: Choice, now: nat) returns (r: Result<User>)
      requires pool.Valid() && c.uuid !in pool.users
      modifies pool`users
      ensures pool.Valid()
      ensures (pool.users, r)
                == Landed(c.fault, old(pool.users), T.CreateGuest(old(pool.users), c.uuid, name, display, now))
    {
      if c.fault.Lost? { return Err(StoreFailure); }
      var u := User(c.uuid, name, display, true, now, None);
      pool.users := pool.users[c.uuid := u];
      r := if c.fault.Ambiguous? then Err(StoreFailure) else Ok(u);
    }

    method CreateRegistered(name: string, display: string, c: Choice, now: nat) returns (r: Result<User>)
      requires pool.Valid() && c.uuid !in pool.users
      modifies pool`users, pool`names
      ensures pool.Valid()
      ensures (pool.users, r)
                == Landed(c.fault, old(pool.users), T.CreateRegistered(old(pool.users), c.uuid, name, display, now))
    {
      NameLookup(pool.names, pool.users, name);
      if c.fault.Lost? { return Err(StoreFailure); }
      if name in pool.names { return if c.fault.Ambiguous? then Err(StoreFailure) else Err(UsernameTaken); }
      var u := User(c.uuid, name, display, false, now, None);
      pool.users := pool.users[c.uuid := u];
      pool.names := pool.names[name := c.uuid];
      r := if c.fault.Ambiguous? then Err(StoreFailure) else Ok(u);
    }

    method GetByID(id: Uuid, c: Choice) returns (r: Result<User>)
      ensures (pool.users, r) == Landed(c.fault, pool.users, (pool.users, T.GetById(pool.users, id)))
    {
      if !c.fault.NoFault? { return Err(StoreFailure); }
      r := if id in pool.users then Ok(pool.users[id]) else Err(UserNotFound);
    }

    method GetByUsername(name: string, c: Choice) returns (r: Result<User>)
      requires pool.Valid()
      ensures (pool.users, r) == Landed(c.fault, pool.users, (pool.users, T.GetByUsername(pool.users, name)))
    {
      NameLookup(pool.names, pool.users, name);
      if !c.fault.NoFault? { return Err(StoreFailure); }
      r := if name in pool.names then Ok(pool.users[pool.names[name]]) else Err(UserNotFound);
    }

    /** No guest row under the id wins over a taken name: the update matches nothing, so the index is not consulted. */
    method PromoteGuest(id: Uuid, name: string, display: string, c: Choice, now: nat) returns (r: Result<User>)
      requires pool.Valid()
      modifies pool`users, pool`names
      ensures pool.Valid()
      ensures (pool.users, r)
                == Landed(c.fault, old(pool.users), T.PromoteGuest(old(pool.users), id, name, display, now))
    {
      NameLookup(pool.names, pool.users, name);
      if c.fault.Lost? { return Err(StoreFailure); }
      if id !in pool.users || !pool.users[id].isGuest {
        return if c.fault.Ambiguous? then Err(StoreFailure) else Err(UserNotFound);
      }
      if name in pool.names { return if c.fault.Ambiguous? then Err(StoreFailure) else Err(UsernameTaken); }
      var u := pool.users[id].(username := name, displayName := display, isGuest := false, promotedAt := Some(now));
      pool.users := pool.users[id := u];
      pool.names := pool.names[name := id];
      r := if c.fault.Ambiguous? then Err(StoreFailure) else Ok(u);
    }
  }

  lemma Oldest(rows: T.Rows, ids: set<Uuid>) returns (o: Uuid)
    requires ids != {} && ids <= rows.Keys
    ensures o in ids && forall r :: r in ids ==> rows[o].createdAt <= rows[r].createdAt
  {
    o :| o in ids;
    if ids != {o} {
      var q := Oldest(rows, ids - {o});
      if rows[q].createdAt < rows[o].createdAt { o := q; }
    }
  }

  ghost predicate Appears(list: seq<Credential>, r: Uuid) {
    exists i :: 0 <= i < |list| && list[i].id == r
  }

  lemma AppearsAfter(c: Credential, rest: seq<Credential>, r: Uuid)
    requires c.id == r || Appears(rest, r)
    ensures Appears([c] + rest, r)
  {
    if c.id == r {
      assert ([c] + rest)[0].id == r;
    } else {
      var i :| 0 <= i < |rest| && rest[i].id == r;
      assert ([c] + rest)[i + 1].id == r;
    }
  }

  lemma ByAge(rows: T.Rows, ids: set<Uuid>) returns (list: seq<Credential>)
    requires ids <= rows.Keys && forall r :: r in rows ==> rows[r].id == r
    ensures forall i :: 0 <= i < |list| ==> list[i].id in ids && list[i] == T.Scan(rows[list[i].id])
    ensures forall r :: r in ids ==> Appears(list, r)
    ensures forall i, j :: 0 <= i < j < |list| ==> list[i].id != list[j].id && list[i].createdAt <= list[j].createdAt
  {
    hide Appears;
    list := [];
    if ids != {} {
      var o := Oldest(rows, ids);
      var rest := ByAge(rows, ids - {o});
      list := [T.Scan(rows[o])] + rest;
      forall r | r in ids ensures Appears(list, r) {
        assert r == o || r in ids - {o};
        AppearsAfter(T.Scan(rows[o]), rest, r);
      }
    }
  }

  /** The list query always has an answer: the user's live rows can be put in order of age. */
  lemma ListingExists(rows: T.Rows, u: Uuid) returns (list: seq<Credential>)
    requires forall r :: r in rows ==> rows[r].id == r
    ensures T.IsListing(list, rows, u)
  {
    list := ByAge(rows, T.LiveOf(rows, u));
    assert forall r :: r in T.LiveOf(rows, u) ==> Appears(list, r);
  }

  class CredentialStore {
    const pool: Postgres

    constructor (pool: Postgres)
      ensures this.pool == pool
    {
      this.pool := pool;
    }

    method Insert(cred: Credential, c: Choice, now: nat) returns (r: Result<Credential>)
      requires pool.Valid() && c.uuid !in pool.rows
      modifies pool`rows, pool`liveIds
      ensures pool.Valid()
      ensures (pool.rows, r) == Landed(c.fault, old(pool.rows), T.Insert(pool.users, old(pool.rows), c.uuid, cred, now))
    {
      LiveLookup(pool.liveIds, pool.rows, cred.credentialId);
      if c.fault.Lost? { return Err(StoreFailure); }
      if cred.credentialId in pool.liveIds {
        return if c.fault.Ambiguous? then Err(StoreFailure) else Err(CredentialExists);
      }
      if cred.userId !in pool.users { return Err(StoreFailure); }
      var row := T.NewRow(cred, c.uuid, now);
      pool.rows := pool.rows[c.uuid := row];
      pool.liveIds := pool.liveIds[cred.credentialId := c.uuid];
      r := if c.fault.Ambiguous? then Err(StoreFailure) else Ok(T.Scan(row));
    }

    method GetByCredentialID(cid: Bytes, c: Choice) returns (r: Result<Credential>)
      requires pool.Valid()
      ensures (pool.rows, r) == Landed(c.fault, pool.rows, (pool.rows, T.GetByCredentialId(pool.rows, cid)))
    {
      LiveLookup(pool.liveIds, pool.rows, cid);
      if !c.fault.NoFault? { return Err(StoreFailure); }
      r := if cid in pool.liveIds then Ok(T.Scan(pool.rows[pool.liveIds[cid]])) else Err(CredentialNotFound);
    }

    /** c.list says in which order the query's cursor runs over the rows; the loop scans them one by one. */
    method ListByUserID(uid: Uuid, c: Choice) returns (r: Result<seq<Credential>>)
      requires T.IsListing(c.list, pool.rows, uid)
      ensures (pool.rows, r) == Landed(c.fault, pool.rows, (pool.rows, Ok(c.list)))
    {
      if !c.fault.NoFault? { return Err(StoreFailure); }
      var out: seq<Credential> := [];
      for i := 0 to |c.list|
        invariant out == c.list[..i]
      {
        var scanned := T.Scan(pool.rows[c.list[i].id]);
        out := out + [scanned];
      }
      assert c.list[..|c.list|] == c.list;
      r := Ok(out);
    }

    /** Waits while another transaction holds the row. */
    method UpdateAfterAssertion(id: Uuid, count: Uint32, be: bool, bs: bool, c: Choice, now: nat)
      returns (r: Result<()>)
      requires pool.Valid() && id !in pool.locks
      modifies pool`rows
      ensures pool.Valid()
      ensures (pool.rows, r)
                == Landed(c.fault, old(pool.rows), T.UpdateAfterAssertion(old(pool.rows), id, count, be, bs, now))
    {
      if c.fault.Lost? { return Err(StoreFailure); }
      var affected := 0;
      if id in pool.rows && pool.rows[id].deletedAt.None? {
        pool.rows := pool.rows[id := pool.rows[id].(signCount := count, backupEligible := be, backupState := bs,
            lastUsedAt := Some(now))];
        affected := 1;
      }
      if c.fault.Ambiguous? { return Err(StoreFailure); }
      r := if affected == 0 then Err(CredentialNotFound) else Ok(());
    }

    method Rename(id: Uuid, name: string, c: Choice) returns (r: Result<()>)
      requires pool.Valid() && id !in pool.locks
      modifies pool`rows
      ensures pool.Valid()
      ensures (pool.rows, r) == Landed(c.fault, old(pool.rows), T.Rename(old(pool.rows), id, name))
    {
      if c.fault.Lost? { return Err(StoreFailure); }
      var affected := 0;
      if id in pool.rows && pool.rows[id].deletedAt.None? {
        pool.rows := pool.rows[id := pool.rows[id].(name := Some(name))];
        affected := 1;
      }
      if c.fault.Ambiguous? { return Err(StoreFailure); }
      r := if affected == 0 then Err(CredentialNotFound) else Ok(());
    }

    /**
     * Four statements, between which other requests run. Whatever they do, the call takes the request
     * through lock, count, mark and commit to the answer its result stands for, and the row lock is
     * given back on every path.
     */
    method SoftDelete(id: Uuid, world: World, w: nat -> Beat, k: nat, p: Pid, ghost uid: Uuid, ghost j: Job)
      returns (r: Result<()>, ghost n: nat)
      requires world.pool == pool && Deleting(j, p, w)
      requires world.Reached(j, k, LockRow(uid, id))
      modifies world, pool, world.client
      ensures world.Reached(j, n, Answered(DeleteResponse(r)))
    {
      hide Exec, PcAfter, LeftBy, Trail, Scheduled, Fits, NameIndex, LiveIndex;
      hide Redis.Valid, Redis.Sessions, Redis.Guests, Redis.Challenges, DeleteResponse, T.LiveOf;
      world.Others(w(k), j, k, LockRow(uid, id));
      n := k + 1;
      if !w(k).c.fault.NoFault? {
        r := Err(StoreFailure);
        LockRefused(j, world, k, uid, id, StoreFailure);
      } else if id !in pool.rows || pool.rows[id].deletedAt.Some? {
        r := Err(CredentialNotFound);
        LockRefused(j, world, k, uid, id, CredentialNotFound);
      } else {
        var userId := pool.rows[id].userId;
        pool.locks := pool.locks[id := p];
        LockGranted(j, world, k, uid, id, userId);
        r, n := Counted(id, userId, world, w, k + 1, p, uid, j);
      }
    }

    /** The live rows are counted under the lock; too few, and the transaction rolls back. */
    method Counted(id: Uuid, userId: Uuid, world: World, w: nat -> Beat, k: nat, p: Pid, ghost uid: Uuid, ghost j: Job)
      returns (r: Result<()>, ghost n: nat)
      requires world.pool == pool && Deleting(j, p, w)
      requires world.Reached(j, k, CountLive(uid, id, userId))
      modifies world, pool, world.client
      ensures world.Reached(j, n, Answered(DeleteResponse(r)))
    {
      hide Exec, PcAfter, LeftBy, Trail, Scheduled, Fits, NameIndex, LiveIndex;
      hide Redis.Valid, Redis.Sessions, Redis.Guests, Redis.Challenges, DeleteResponse, T.LiveOf;
      world.Others(w(k), j, k, CountLive(uid, id, userId));
      n := k + 1;
      var live := set q | q in pool.rows && pool.rows[q].deletedAt.None? && pool.rows[q].userId == userId;
      CountedRows(pool.rows, userId, live);
      if !w(k).c.fault.NoFault? {
        pool.locks := pool.locks - {id};
        r := Err(StoreFailure);
        CountRefused(j, world, k, uid, id, userId, StoreFailure);
      } else if |live| <= 1 {
        pool.locks := pool.locks - {id};
        r := Err(LastCredential);
        CountRefused(j, world, k, uid, id, userId, LastCredential);
      } else {
        CountEnough(j, world, k, uid, id, userId);
        r, n := Marked(id, userId, world, w, k + 1, p, uid, j);
      }
    }

    /** The update, invisible to the others until the commit. */
    method Marked(id: Uuid, userId: Uuid, world: World, w: nat -> Beat, k: nat, p: Pid, ghost uid: Uuid, ghost j: Job)
      returns (r: Result<()>, ghost n: nat)
      requires world.pool == pool && Deleting(j, p, w)
      requires world.Reached(j, k, MarkRow(uid, id, userId))
      modifies world, pool, world.client
      ensures world.Reached(j, n, Answered(DeleteResponse(r)))
    {
      hide Exec, PcAfter, LeftBy, Trail, Scheduled, Fits, NameIndex, LiveIndex;
      hide Redis.Valid, Redis.Sessions, Redis.Guests, Redis.Challenges, DeleteResponse, T.LiveOf;
      world.Others(w(k), j, k, MarkRow(uid, id, userId));
      n := k + 1;
      if !w(k).c.fault.NoFault? {
        pool.locks := pool.locks - {id};
        r := Err(StoreFailure);
        MarkRefused(j, world, k, uid, id, userId);
      } else {
        MarkDone(j, world, k, uid, id, userId);
        r, n := Committed(id, userId, world, w, k + 1, p, uid, j);
      }
    }

    /** The commit makes the deletion time visible and takes the row out of the index of live ids. */
    method Committed(id: Uuid, userId: Uuid, world: World, w: nat -> Beat, k: nat, p: Pid, ghost uid: Uuid,
            ghost j: Job)
      returns (r: Result<()>, ghost n: nat)
      requires world.pool == pool && Deleting(j, p, w)
      requires world.Reached(j, k, CommitRow(uid, id, userId))
      modifies world, pool, world.client
      ensures world.Reached(j, n, Answered(DeleteResponse(r)))
    {
      hide Exec, PcAfter, LeftBy, Trail, Scheduled, Fits, NameIndex, LiveIndex;
      hide Redis.Valid, Redis.Sessions, Redis.Guests, Redis.Challenges, DeleteResponse, T.LiveOf;
      world.Others(w(k), j, k, CommitRow(uid, id, userId));
      if !w(k).c.fault.Lost? {
        BuryIndexed(pool.liveIds, pool.rows, id, w(k).d.now);
        if id in pool.rows {
          if pool.rows[id].deletedAt.None? { pool.liveIds := pool.liveIds - {pool.rows[id].credentialId}; }
          pool.rows := pool.rows[id := pool.rows[id].(deletedAt := Some(w(k).d.now))];
        }
      }
      pool.locks := pool.locks - {id};
      r := if w(k).c.fault.NoFault? then Ok(()) else Err(StoreFailure);
      CommitDone(j, world, k, uid, id, userId, r);
      n := k + 1;
    }
  }

  lemma CountedRows(rows: T.Rows, u: Uuid, live: set<Uuid>)
    requires live == set q | q in rows && rows[q].deletedAt.None? && rows[q].userId == u
    ensures live == T.LiveOf(rows, u)
  {
  }

  lemma BuryIndexed(ids: map<Bytes, Uuid>, rows: T.Rows, id: Uuid, now: nat)
    requires LiveIndex(ids, rows)
    ensures LiveIndex(if T.Live(rows, id) then ids - {rows[id].credentialId} else ids, T.Bury(rows, id, now))
  {
  }

  /**
   * A credential id is refused while a live row has it. Once that row is deleted the id can be inserted
   * again, even for another user: lookups find the new row and the dead row stays as it was.
   */
  lemma ReleasedId(us: T.Users, rows: T.Rows, id: Uuid, cred: Credential, uuid: Uuid, now: nat, later: nat)
    requires T.UniqueLiveIds(rows) && T.Live(rows, id) && rows[id].credentialId == cred.credentialId
    requires cred.userId in us && uuid !in rows
    ensures T.Insert(us, rows, uuid, cred, later) == (rows, Err(CredentialExists))
    ensures var buried := T.Bury(rows, id, now);
            var (again, r) := T.Insert(us, buried, uuid, cred, later);
            && r.Ok? && r.value.id == uuid && r.value.userId == cred.userId
            && T.GetByCredentialId(again, cred.credentialId) == r
            && again[id] == rows[id].(deletedAt := Some(now))
            && T.UniqueLiveIds(again)
  {
    var buried := T.Bury(rows, id, now);
    assert forall r :: T.Live(buried, r) ==> T.Live(rows, r) && r != id;
    assert !T.IdTaken(buried, cred.credentialId);
    var again := T.Insert(us, buried, uuid, cred, later).0;
    assert again == buried[uuid := T.NewRow(cred, uuid, later)];
    assert T.Live(again, uuid) && again[uuid].credentialId == cred.credentialId;
    assert forall r :: T.Live(again, r) && r != uuid ==>
        T.Live(buried, r) && again[r].credentialId != cred.credentialId;
  }
}

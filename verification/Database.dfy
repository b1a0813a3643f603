/**
 * The database server: what a faulty statement leaves behind, and the two partial unique indexes
 * beside their tables.
 */
module Database {
  import opened Domain
  import opened Service
  import T = Tables

  // ----- faults -----

  /**
   * What a statement leaves and reports: a lost one does nothing, an ambiguous one takes effect and
   * reports an error.
   */
  function Landed<S, R>(fault: Fault, before: S, done: (S, Result<R>)): (S, Result<R>) {
    match fault
    case NoFault => done
    case Lost => (before, Err(StoreFailure))
    case Ambiguous => (done.0, Err(StoreFailure))
  }

  // ----- the partial unique indexes -----

  /** users_username_unique_registered: exactly the registered rows, by username. */
  ghost predicate NameIndex(names: map<string, Uuid>, us: T.Users) {
    && (forall n :: n in names ==> T.Registered(us, names[n]) && us[names[n]].username == n)
    && (forall u :: T.Registered(us, u) ==> us[u].username in names && names[us[u].username] == u)
  }

  /** credentials_credential_id_unique_live: exactly the live rows, by credential id. */
  ghost predicate LiveIndex(ids: map<Bytes, Uuid>, rows: T.Rows) {
    && (forall cid :: cid in ids ==> T.Live(rows, ids[cid]) && rows[ids[cid]].credentialId == cid)
    && (forall r :: T.Live(rows, r) ==> rows[r].credentialId in ids && ids[rows[r].credentialId] == r)
  }

  /** A lookup through the index agrees with a scan of the table. */
  lemma NameLookup(names: map<string, Uuid>, us: T.Users, name: string)
    requires NameIndex(names, us)
    ensures T.UniqueNames(us)
    ensures T.NameTaken(us, name) <==> name in names
    ensures T.GetByUsername(us, name) == if name in names then Ok(us[names[name]]) else Err(UserNotFound)
  {
  }

  lemma LiveLookup(ids: map<Bytes, Uuid>, rows: T.Rows, cid: Bytes)
    requires LiveIndex(ids, rows)
    ensures T.UniqueLiveIds(rows)
    ensures T.IdTaken(rows, cid) <==> cid in ids
    ensures T.GetByCredentialId(rows, cid) == if cid in ids then Ok(T.Scan(rows[ids[cid]])) else Err(CredentialNotFound)
  {
  }

  class Postgres {
    var users: T.Users
    var names: map<string, Uuid>
    var rows: T.Rows
    var liveIds: map<Bytes, Uuid>
    var locks: map<Uuid, Pid>

    ghost predicate Valid()
      reads this
    {
      NameIndex(names, users) && LiveIndex(liveIds, rows)
    }

    constructor ()
      ensures Valid() && users == map[] && rows == map[] && locks == map[]
    {
      users, names, rows, liveIds, locks := map[], map[], map[], map[], map[];
    }
  }
}

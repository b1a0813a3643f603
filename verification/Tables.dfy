/** Every SQL statement of the two stores, as a function on the users and credentials tables. */
module Tables {
  import opened Domain

  type Users = map<Uuid, User>
  type Rows = map<Uuid, Row>

  // ----- users -----

  ghost predicate Registered(us: Users, u: Uuid) {
    u in us && !us[u].isGuest
  }

  /** The partial unique index on username: it constrains non-guest rows only. */
  ghost predicate UniqueNames(us: Users) {
    forall u, v :: Registered(us, u) && Registered(us, v) && us[u].username == us[v].username ==> u == v
  }

  ghost predicate NameTaken(us: Users, name: string) {
    exists u :: Registered(us, u) && us[u].username == name
  }

  ghost function CreateGuest(us: Users, id: Uuid, name: string, display: string, now: nat): (Users, Result<User>) {
    var u := User(id, name, display, true, now, None);
    (us[id := u], Ok(u))
  }

  ghost function CreateRegistered(us: Users, id: Uuid, name: string, display: string, now: nat): (Users, Result<User>) {
    if NameTaken(us, name) then (us, Err(UsernameTaken))
    else
      var u := User(id, name, display, false, now, None);
      (us[id := u], Ok(u))
  }

  /** UPDATE ... WHERE id = $1 AND is_guest: a missing or registered row wins over a taken name. */
  ghost function PromoteGuest(us: Users, id: Uuid, name: string, display: string, now: nat): (Users, Result<User>) {
    if id !in us || !us[id].isGuest then (us, Err(UserNotFound))
    else if NameTaken(us, name) then (us, Err(UsernameTaken))
    else
      var u := us[id].(username := name, displayName := display, isGuest := false, promotedAt := Some(now));
      (us[id := u], Ok(u))
  }

  function GetById(us: Users, id: Uuid): Result<User> {
    if id in us then Ok(us[id]) else Err(UserNotFound)
  }

  ghost function GetByUsername(us: Users, name: string): Result<User> {
    if NameTaken(us, name) then
      var u :| Registered(us, u) && us[u].username == name;
      Ok(us[u])
    else Err(UserNotFound)
  }

  // ----- credentials -----

  ghost predicate Live(rows: Rows, r: Uuid) {
    r in rows && rows[r].deletedAt.None?
  }

  /** The partial unique index on credential_id: it constrains live rows only. */
  ghost predicate UniqueLiveIds(rows: Rows) {
    forall r, q :: Live(rows, r) && Live(rows, q) && rows[r].credentialId == rows[q].credentialId ==> r == q
  }

  ghost predicate IdTaken(rows: Rows, cid: Bytes) {
    exists r :: Live(rows, r) && rows[r].credentialId == cid
  }

  ghost function LiveOf(rows: Rows, u: Uuid): set<Uuid> {
    set r | r in rows && rows[r].deletedAt.None? && rows[r].userId == u
  }

  /** The row an INSERT writes: the store binds the sign count as int64, the database adds id and time. */
  function NewRow(c: Credential, id: Uuid, now: nat): Row {
    Row(id, c.userId, c.credentialId, c.publicKey, c.handle, c.aaguid, c.signCount, c.transports,
        c.attestationFormat, c.attestationType, c.backupEligible, c.backupState, c.name, now, None, None)
  }

  /** scanCredential: the BIGINT count is cut to 32 bits, as Go's uint32 conversion does. */
  function Scan(r: Row): Credential {
    Credential(r.id, r.userId, r.credentialId, r.publicKey, r.handle, r.aaguid, r.signCount % 0x1_0000_0000,
               r.transports, r.attestationFormat, r.attestationType, r.backupEligible, r.backupState, r.name,
               r.createdAt, r.lastUsedAt)
  }

  ghost function Insert(us: Users, rows: Rows, id: Uuid, c: Credential, now: nat): (Rows, Result<Credential>) {
    if IdTaken(rows, c.credentialId) then (rows, Err(CredentialExists))
    else if c.userId !in us then (rows, Err(StoreFailure)) // the foreign key is checked at the end of the statement
    else (rows[id := NewRow(c, id, now)], Ok(Scan(NewRow(c, id, now))))
  }

  ghost function GetByCredentialId(rows: Rows, cid: Bytes): Result<Credential> {
    if IdTaken(rows, cid) then
      var r :| Live(rows, r) && rows[r].credentialId == cid;
      Ok(Scan(rows[r]))
    else Err(CredentialNotFound)
  }

  /** One possible answer to the list query: the user's live rows, each once, oldest first. */
  ghost predicate IsListing(list: seq<Credential>, rows: Rows, u: Uuid) {
    && (forall i :: 0 <= i < |list| ==> list[i].id in LiveOf(rows, u) && list[i] == Scan(rows[list[i].id]))
    && (forall r :: r in LiveOf(rows, u) ==> exists i :: 0 <= i < |list| && list[i].id == r)
    && (forall i, j :: 0 <= i < j < |list| ==> list[i].id != list[j].id && list[i].createdAt <= list[j].createdAt)
  }

  ghost function UpdateAfterAssertion(rows: Rows, id: Uuid, count: Uint32, be: bool, bs: bool, now: nat): (Rows,
          Result<()>) {
    if Live(rows, id) then
      (rows[id := rows[id].(signCount := count, backupEligible := be, backupState := bs, lastUsedAt := Some(now))],
          Ok(()))
    else (rows, Err(CredentialNotFound))
  }

  ghost function Rename(rows: Rows, id: Uuid, name: string): (Rows, Result<()>) {
    if Live(rows, id) then (rows[id := rows[id].(name := Some(name))], Ok(()))
    else (rows, Err(CredentialNotFound))
  }

  /** The UPDATE inside SoftDelete: by id alone. */
  function Bury(rows: Rows, id: Uuid, now: nat): Rows {
    if id in rows then rows[id := rows[id].(deletedAt := Some(now))] else rows
  }
}

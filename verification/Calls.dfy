/**
 * What one store call of a request does, said of the contents of the stores before and after it: the
 * words in which Outcomes says what each handler achieves.
 */
module Calls {
  import opened Domain
  import opened Tables
  import opened Service
  import BigEndian

  /** One store call: the stores it found, the choices made for it, the stores it left. */
  datatype Call = Call(before: Data, c: Choice, after: Data)

  predicate Faultless(k: Call) {
    k.c.fault.NoFault?
  }

  /** The call left d behind, row locks aside. */
  predicate Leaves(k: Call, d: Data) {
    k.after == d.(locks := k.after.locks)
  }

  predicate Reads(k: Call) {
    Leaves(k, k.before)
  }

  /** The call turned the stores into d, unless it was lost on the way. */
  predicate Does(k: Call, d: Data) {
    Leaves(k, if k.c.fault.Lost? then k.before else d)
  }

  /** Every row is filed under its id, counts fit 32 bits, and live credential ids are unique. */
  ghost predicate Orderly(d: Data) {
    && (forall u :: u in d.users ==> d.users[u].id == u)
    && (forall r :: r in d.rows ==> d.rows[r].id == r && 0 <= d.rows[r].signCount < 0x1_0000_0000)
    && UniqueLiveIds(d.rows)
  }

  // ----- the keyspace -----

  /** The key is there and has not run out. */
  predicate Current<T>(m: map<string, Timed<T>>, key: string, now: nat) {
    key in m && now < m[key].expires
  }

  predicate Outstanding(d: Data, sid: string) {
    Current(d.challenges, sid, d.now)
  }

  predicate Takes(k: Call, sid: string) {
    Does(k, if Outstanding(k.before, sid) then k.before.(challenges := k.before.challenges - {sid}) else k.before)
  }

  predicate Saves(k: Call, payload: Payload) {
    Does(k, k.before.(challenges :=
        k.before.challenges[k.c.token := Timed(payload, k.before.now + k.before.cfg.challengeTtl)]))
  }

  predicate MintsSession(k: Call, u: Uuid) {
    Does(k, k.before.(sessions :=
        k.before.sessions[k.c.token := Timed(u, k.before.now + k.before.cfg.sessionTtl)]))
  }

  predicate DropsSession(k: Call, token: string) {
    Does(k, k.before.(sessions := k.before.sessions - {token}))
  }

  predicate MintsGuest(k: Call, u: Uuid) {
    Does(k, k.before.(guests := k.before.guests[k.c.token := Timed(u, k.before.now + k.before.cfg.guestTtl)]))
  }

  predicate DropsGuest(k: Call, token: string) {
    Does(k, k.before.(guests := k.before.guests - {token}))
  }

  // ----- the users table -----

  predicate MakesGuest(k: Call) {
    Does(k, k.before.(users :=
        k.before.users[k.c.uuid := User(k.c.uuid, "guest-" + k.c.token, "Guest", true, k.before.now, None)]))
  }

  /** The user is born under the database's new id, unless a registered user has the name. */
  ghost predicate MakesUser(k: Call, name: string, display: string) {
    Does(k, if NameTaken(k.before.users, name) then k.before
        else k.before.(users :=
          k.before.users[k.c.uuid := User(k.c.uuid, name, display, false, k.before.now, None)]))
  }

  predicate GuestThere(d: Data, u: Uuid) {
    u in d.users && d.users[u].isGuest
  }

  /** The guest becomes a registered user, unless it is none any more or the name is taken. */
  ghost predicate MakesRegistered(k: Call, g: Uuid, name: string, display: string) {
    Does(k, if !GuestThere(k.before, g) || NameTaken(k.before.users, name) then k.before
        else k.before.(users :=
          k.before.users[g := User(k.before.users[g].id, name, display, false, k.before.users[g].createdAt,
              Some(k.before.now))]))
  }

  // ----- the credentials table -----

  /** The AAGUID is absent or a UUID's sixteen bytes. */
  predicate Convertible(made: LibCredential) {
    |made.aaguid| == 0 || |made.aaguid| == 16
  }

  /** The row of a credential as the library attested it, for a user and the handle of the ceremony. */
  function AttestedRow(id: Uuid, u: Uuid, handle: Bytes, made: LibCredential, now: nat): Row {
    Row(id, u, made.id, made.publicKey, handle,
        if |made.aaguid| == 0 then None else Some(BigEndian.Decode(made.aaguid)),
        made.signCount, made.transport, made.attestationFormat, made.attestationType,
        made.backupEligible, made.backupState, None, now, None, None)
  }

  /** The row is inserted, unless a live row has its credential id or the user is not there. */
  ghost predicate Inserts(k: Call, u: Uuid, handle: Bytes, made: LibCredential) {
    Does(k, if IdTaken(k.before.rows, made.id) || u !in k.before.users then k.before
        else k.before.(rows :=
          k.before.rows[k.c.uuid := AttestedRow(k.c.uuid, u, handle, made, k.before.now)]))
  }

  ghost predicate Presented(d: Data, cid: Bytes, row: Uuid) {
    Live(d.rows, row) && d.rows[row].credentialId == cid
  }

  function AssertedRow(row: Row, seen: LibCredential, now: nat): Row {
    row.(signCount := seen.signCount, backupEligible := seen.backupEligible, backupState := seen.backupState,
    lastUsedAt := Some(now))
  }

  /** Count, flags and last use of the row change, if it is live. */
  ghost predicate Records(k: Call, row: Uuid, seen: LibCredential) {
    Does(k, if Live(k.before.rows, row)
        then k.before.(rows := k.before.rows[row := AssertedRow(k.before.rows[row], seen, k.before.now)])
        else k.before)
  }

  ghost predicate Deletes(k: Call, row: Uuid) {
    Does(k, if row in k.before.rows
        then k.before.(rows := k.before.rows[row := k.before.rows[row].(deletedAt := Some(k.before.now))])
        else k.before)
  }

  // ----- the operations of the machine do that -----


  lemma ReleaseFrees(d: Data, p: Pid)
    ensures Release(d, p) == d.(locks := Release(d, p).locks)
  {
  }

  /** A fault loses the call or its answer; the rest is the operation itself. */
  lemma ExecParts(d: Data, p: Pid, op: Op, c: Choice)
    ensures var (d', a) := Exec(d, p, op, c);
            && Does(Call(d, c, d'), Apply(d, p, op, c).0)
            && a == if c.fault.NoFault? then Apply(d, p, op, c).1 else Failed(StoreFailure)
  {
    ReleaseFrees(d, p);
    ReleaseFrees(Apply(d, p, op, c).0, p);
    hide Release, Apply;
  }

  function Unless(c: Choice, a: Answer): Answer {
    if c.fault.NoFault? then a else Failed(StoreFailure)
  }

  lemma SkipDone(d: Data, p: Pid, c: Choice)
    ensures Reads(Call(d, c, Exec(d, p, Skip, c).0))
  {
    ExecParts(d, p, Skip, c);
    hide Exec;
  }

  lemma TakeDone(d: Data, p: Pid, sid: string, c: Choice)
    ensures var (d', a) := Exec(d, p, OnKeys(TakeChallenge(sid)), c);
            && Takes(Call(d, c, d'), sid)
            && a == Unless(c, if Outstanding(d, sid) then ThePayload(d.challenges[sid].value)
                else Failed(ChallengeNotFound))
  {
    ExecParts(d, p, OnKeys(TakeChallenge(sid)), c);
    hide Exec;
  }

  lemma SaveDone(d: Data, p: Pid, payload: Payload, c: Choice)
    ensures var (d', a) := Exec(d, p, OnKeys(SaveChallenge(payload)), c);
            Saves(Call(d, c, d'), payload) && a == Unless(c, Done)
  {
    ExecParts(d, p, OnKeys(SaveChallenge(payload)), c);
    hide Exec;
  }

  lemma SessionDone(d: Data, p: Pid, u: Uuid, c: Choice)
    ensures var (d', a) := Exec(d, p, OnKeys(CreateSession(u)), c);
            MintsSession(Call(d, c, d'), u) && a == Unless(c, TheToken(c.token))
  {
    ExecParts(d, p, OnKeys(CreateSession(u)), c);
    hide Exec;
  }

  lemma GateDone(d: Data, p: Pid, token: string, c: Choice)
    ensures var (d', a) := Exec(d, p, OnKeys(GetSession(token)), c);
            && Reads(Call(d, c, d'))
            && a == Unless(c, if Current(d.sessions, token, d.now) then TheUid(d.sessions[token].value)
                else Failed(SessionNotFound))
  {
    ExecParts(d, p, OnKeys(GetSession(token)), c);
    hide Exec;
  }

  lemma LogoutDone(d: Data, p: Pid, token: string, c: Choice)
    ensures DropsSession(Call(d, c, Exec(d, p, OnKeys(DeleteSession(token)), c).0), token)
  {
    ExecParts(d, p, OnKeys(DeleteSession(token)), c);
    hide Exec;
  }

  lemma GuestTokenDone(d: Data, p: Pid, u: Uuid, c: Choice)
    ensures var (d', a) := Exec(d, p, OnKeys(CreateGuestToken(u)), c);
            MintsGuest(Call(d, c, d'), u) && a == Unless(c, TheToken(c.token))
  {
    ExecParts(d, p, OnKeys(CreateGuestToken(u)), c);
    hide Exec;
  }

  lemma FindGuestDone(d: Data, p: Pid, token: string, c: Choice)
    ensures var (d', a) := Exec(d, p, OnKeys(GetGuest(token)), c);
            && Reads(Call(d, c, d'))
            && a == Unless(c, if Current(d.guests, token, d.now) then TheUid(d.guests[token].value)
                else Failed(GuestNotFound))
  {
    ExecParts(d, p, OnKeys(GetGuest(token)), c);
    hide Exec;
  }

  lemma DropGuestDone(d: Data, p: Pid, token: string, c: Choice)
    ensures DropsGuest(Call(d, c, Exec(d, p, OnKeys(DeleteGuest(token)), c).0), token)
  {
    ExecParts(d, p, OnKeys(DeleteGuest(token)), c);
    hide Exec;
  }

  lemma LookupDone(d: Data, p: Pid, name: string, c: Choice)
    ensures var (d', a) := Exec(d, p, OnUsers(GetByUsername(name)), c);
            && Reads(Call(d, c, d'))
            && (!c.fault.NoFault? ==> a == Failed(StoreFailure))
            && (c.fault.NoFault? ==> if NameTaken(d.users, name) then a.TheUser? else a == Failed(UserNotFound))
  {
    ExecParts(d, p, OnUsers(GetByUsername(name)), c);
    hide Exec;
  }

  lemma GetUserDone(d: Data, p: Pid, u: Uuid, c: Choice)
    ensures var (d', a) := Exec(d, p, OnUsers(GetById(u)), c);
            && Reads(Call(d, c, d'))
            && a == Unless(c, if u in d.users then TheUser(d.users[u]) else Failed(UserNotFound))
  {
    ExecParts(d, p, OnUsers(GetById(u)), c);
    hide Exec;
  }

  lemma GuestUserDone(d: Data, p: Pid, c: Choice)
    ensures var (d', a) := Exec(d, p, OnUsers(CreateGuest("guest-" + c.token, "Guest")), c);
            && MakesGuest(Call(d, c, d'))
            && a == Unless(c, TheUser(User(c.uuid, "guest-" + c.token, "Guest", true, d.now, None)))
  {
    ExecParts(d, p, OnUsers(CreateGuest("guest-" + c.token, "Guest")), c);
    hide Exec;
  }

  lemma CreateUserDone(d: Data, p: Pid, name: string, display: string, c: Choice)
    ensures var (d', a) := Exec(d, p, OnUsers(CreateRegistered(name, display)), c);
            && MakesUser(Call(d, c, d'), name, display)
            && a == Unless(c, if NameTaken(d.users, name) then Failed(UsernameTaken)
                else TheUser(User(c.uuid, name, display, false, d.now, None)))
  {
    ExecParts(d, p, OnUsers(CreateRegistered(name, display)), c);
    hide Exec;
  }

  lemma PromoteUserDone(d: Data, p: Pid, g: Uuid, name: string, display: string, c: Choice)
    requires Orderly(d)
    ensures var (d', a) := Exec(d, p, OnUsers(PromoteGuest(g, name, display)), c);
            && MakesRegistered(Call(d, c, d'), g, name, display)
            && (!c.fault.NoFault? ==> a == Failed(StoreFailure))
            && (c.fault.NoFault? ==>
                  if !GuestThere(d, g) then a == Failed(UserNotFound)
                  else if NameTaken(d.users, name) then a == Failed(UsernameTaken)
                  else a.TheUser? && a.user.id == g)
  {
    ExecParts(d, p, OnUsers(PromoteGuest(g, name, display)), c);
    hide Exec;
  }

  lemma InsertDone(d: Data, p: Pid, cred: Credential, u: Uuid, handle: Bytes, made: LibCredential, c: Choice)
    requires NewRow(cred, c.uuid, d.now) == AttestedRow(c.uuid, u, handle, made, d.now)
    ensures var (d', a) := Exec(d, p, OnRows(Insert(cred)), c);
            && Inserts(Call(d, c, d'), u, handle, made)
            && (!c.fault.NoFault? ==> a == Failed(StoreFailure))
            && (c.fault.NoFault? ==>
                  if IdTaken(d.rows, made.id) then a == Failed(CredentialExists)
                  else if u !in d.users then a == Failed(StoreFailure)
                  else a.TheCredential? && a.cred.id == c.uuid)
  {
    ExecParts(d, p, OnRows(Insert(cred)), c);
    hide Exec;
  }

  lemma ResolveDone(d: Data, p: Pid, cid: Bytes, c: Choice)
    requires Orderly(d)
    ensures var (d', a) := Exec(d, p, OnRows(GetByCredentialId(cid)), c);
            && Reads(Call(d, c, d'))
            && (a.TheCredential? <==> c.fault.NoFault? && IdTaken(d.rows, cid))
            && (a.TheCredential? ==> Presented(d, cid, a.cred.id) && a.cred.userId == d.rows[a.cred.id].userId)
  {
    ExecParts(d, p, OnRows(GetByCredentialId(cid)), c);
    hide Exec;
  }

  lemma ListDone(d: Data, p: Pid, u: Uuid, c: Choice)
    ensures var (d', a) := Exec(d, p, OnRows(ListByUserId(u)), c);
            Reads(Call(d, c, d')) && a == Unless(c, TheList(c.list))
  {
    ExecParts(d, p, OnRows(ListByUserId(u)), c);
    hide Exec;
  }

  lemma RecordDone(d: Data, p: Pid, row: Uuid, seen: LibCredential, c: Choice)
    ensures var op := UpdateAfterAssertion(row, seen.signCount, seen.backupEligible, seen.backupState);
            var (d', a) := Exec(d, p, OnRows(op), c);
            && Records(Call(d, c, d'), row, seen)
            && a == Unless(c, if Live(d.rows, row) then Done else Failed(CredentialNotFound))
  {
    var op := UpdateAfterAssertion(row, seen.signCount, seen.backupEligible, seen.backupState);
    ExecParts(d, p, OnRows(op), c);
    hide Exec;
  }

  lemma LockDone(d: Data, p: Pid, row: Uuid, c: Choice)
    ensures var (d', a) := Exec(d, p, InTx(Lock(row)), c);
            && Reads(Call(d, c, d'))
            && a == Unless(c, if Live(d.rows, row) then TheUid(d.rows[row].userId) else Failed(CredentialNotFound))
  {
    ExecParts(d, p, InTx(Lock(row)), c);
    hide Exec;
  }

  lemma CountDone(d: Data, p: Pid, row: Uuid, u: Uuid, c: Choice)
    ensures var (d', a) := Exec(d, p, InTx(Count(row, u)), c);
            && Reads(Call(d, c, d'))
            && a == Unless(c, if |LiveOf(d.rows, u)| <= 1 then Failed(LastCredential) else Done)
  {
    ExecParts(d, p, InTx(Count(row, u)), c);
    ReleaseFrees(d, p);
    hide Exec, Release, LiveOf;
  }

  lemma MarkDone(d: Data, p: Pid, row: Uuid, c: Choice)
    ensures var (d', a) := Exec(d, p, InTx(Mark(row)), c);
            Reads(Call(d, c, d')) && a == Unless(c, Done)
  {
    ExecParts(d, p, InTx(Mark(row)), c);
    hide Exec;
  }

  lemma CommitDone(d: Data, p: Pid, row: Uuid, c: Choice)
    ensures var (d', a) := Exec(d, p, InTx(Commit(row)), c);
            Deletes(Call(d, c, d'), row) && a == Unless(c, Done)
  {
    ExecParts(d, p, InTx(Commit(row)), c);
    ReleaseFrees(d.(rows := Bury(d.rows, row, d.now)), p);
    hide Exec, Release;
  }
}

/** The invariant of the service: tables and keyspace agree with the history, requests with their program point. */
module Invariant {
  import opened Domain
  import opened Tables
  import opened Service
  import opened History

  // ----- tables and keyspace against the history -----

  ghost predicate UsersTable(us: Users) {
    (forall u :: u in us ==> us[u].id == u) && UniqueNames(us)
  }

  /** Every recorded birth and promotion is visible in the table. */
  ghost predicate UsersLogged(us: Users, log: seq<Fact>) {
    && (forall f :: f in log && f.Born? ==> f.uid in us)
    && (forall f :: f in log && f.Born? && !f.guest ==>
          !us[f.uid].isGuest && us[f.uid].username == f.name && us[f.uid].promotedAt.None?)
    && (forall f :: f in log && f.Promoted? ==>
          f.uid in us && !us[f.uid].isGuest && us[f.uid].username == f.name && us[f.uid].promotedAt.Some?)
  }

  /** Every row of the table has a recorded birth, and a promotion exactly when promoted_at is set. */
  ghost predicate UsersExplained(us: Users, log: seq<Fact>) {
    && (forall u :: u in us ==> HasBirth(log, u, us[u].isGuest || us[u].promotedAt.Some?))
    && (forall u :: u in us && us[u].promotedAt.Some? ==> !us[u].isGuest && HasPromotion(log, u))
  }

  ghost predicate UsersInv(us: Users, log: seq<Fact>) {
    UsersTable(us) && UsersLogged(us, log) && UsersExplained(us, log)
  }

  ghost predicate RowsTable(us: Users, rows: Rows) {
    && (forall r :: r in rows ==>
         rows[r].id == r && Registered(us, rows[r].userId) && 0 <= rows[r].signCount < 0x1_0000_0000)
    && UniqueLiveIds(rows)
  }

  ghost predicate RowsLogged(rows: Rows, log: seq<Fact>) {
    && (forall f :: f in log && (f.Inserted? || f.Provided? || f.Asserted?) ==>
          f.row in rows && rows[f.row].userId == f.uid && rows[f.row].credentialId == f.cid)
    && (forall f :: f in log && f.Deleted? ==> f.row in rows && rows[f.row].userId == f.uid && !Live(rows, f.row))
  }

  ghost predicate RowsExplained(rows: Rows, log: seq<Fact>) {
    forall r :: r in rows ==> HasOrigin(log, r) && (Live(rows, r) || HasDeath(log, r))
  }

  ghost predicate RowsInv(us: Users, rows: Rows, log: seq<Fact>) {
    RowsTable(us, rows) && RowsLogged(rows, log) && RowsExplained(rows, log)
  }

  ghost predicate TokensStored(d: Data, log: seq<Fact>) {
    && (forall t :: t in d.sessions ==> MintedFor(log, t, d.sessions[t].value))
    && (forall t :: t in d.guests ==> GuestMintedFor(log, t, d.guests[t].value))
  }

  /** A session is for a user with a credential row, a guest token for a user born a guest. */
  ghost predicate TokensLogged(rows: Rows, log: seq<Fact>) {
    && (forall f :: f in log && f.Minted? ==> HasRow(rows, f.uid))
    && (forall f :: f in log && f.GuestMinted? ==> HasBirth(log, f.uid, true))
  }

  ghost predicate ChallengesInv(cs: map<string, Timed<Payload>>, log: seq<Fact>) {
    && (forall sid :: sid in cs ==> WasSaved(log, sid, cs[sid].value) && !WasTaken(log, sid))
    && (forall f :: f in log && f.Saved? && f.sid !in cs ==> WasTaken(log, f.sid))
    && (forall f :: f in log && f.Took? ==> WasSaved(log, f.sid, f.payload))
  }

  ghost predicate StoreInv(d: Data, log: seq<Fact>) {
    && UsersInv(d.users, log)
    && RowsInv(d.users, d.rows, log)
    && TokensStored(d, log)
    && TokensLogged(d.rows, log)
    && ChallengesInv(d.challenges, log)
    && Unrepeated(log)
  }

  // ----- requests -----

  /** The row a credential was read from is still there, under the same owner and WebAuthn id. */
  ghost predicate Points(rows: Rows, found: Credential, rawId: Bytes) {
    && found.id in rows
    && rows[found.id].userId == found.userId
    && rows[found.id].credentialId == found.credentialId == rawId
  }

  ghost predicate Targets(rows: Rows, log: seq<Fact>, req: Request, uid: Uuid, row: Uuid) {
    && req.DeleteCredential? && req.row == Some(row)
    && MintedFor(log, req.cookie, uid)
    && row in rows && rows[row].userId == uid
  }

  /** The request's transaction holds the lock on the live row it is about to delete. */
  ghost predicate Holds(d: Data, log: seq<Fact>, p: Pid, req: Request, uid: Uuid, row: Uuid, owner: Uuid) {
    && Targets(d.rows, log, req, uid, row)
    && owner == uid
    && Live(d.rows, row)
    && HeldBy(d.locks, row, p)
  }

  /** What a request's locals still say about the stores. */
  ghost predicate Context(d: Data, log: seq<Fact>, p: Pid, req: Request, pc: Pc) {
    match pc
    case ResolveUser(found) => req.CompleteLogin? && Points(d.rows, found, req.rawId)
    case RecordAssertion(user, found, _) =>
      req.CompleteLogin? && Points(d.rows, found, req.rawId) && user.id == found.userId
    case LoadGuest(uid) => (req.BeginPromote? || req.Guest?) && GuestMintedFor(log, req.cookie, uid)
    case SavePromotion(guest) => req.BeginPromote? && GuestMintedFor(log, req.cookie, guest)
    case LoadProfile(uid) => req.Me? && MintedFor(log, req.cookie, uid)
    case ListPasskeys(uid) => req.ListCredentials? && MintedFor(log, req.cookie, uid)
    case FindPasskey(uid, row) => req.DeleteCredential? && req.row == Some(row) && MintedFor(log, req.cookie, uid)
    case LockRow(uid, row) => Targets(d.rows, log, req, uid, row)
    case CountLive(uid, row, owner) => Holds(d, log, p, req, uid, row, owner)
    case MarkRow(uid, row, owner) => Holds(d, log, p, req, uid, row, owner)
    case CommitRow(uid, row, owner) => Holds(d, log, p, req, uid, row, owner)
    case _ => true
  }

  /** On whose authority a request saved a promotion or deleted a row. */
  ghost predicate Authority(log: seq<Fact>, req: Request, tr: seq<Fact>)
    requires Shape(req, tr)
  {
    && (req.BeginPromote? && |tr| == 1 ==> GuestMintedFor(log, req.cookie, tr[0].payload.promoteUserId))
    && (req.DeleteCredential? && |tr| == 1 ==> MintedFor(log, req.cookie, tr[0].uid))
  }

  ghost predicate ProcInv(d: Data, log: seq<Fact>, p: Pid, pr: Process) {
    var tr := Trace(log, p);
    && Shape(pr.req, tr)
    && At(pr.req, pr.pc, tr, pr.torn)
    && Context(d, log, p, pr.req, pr.pc)
    && Authority(log, pr.req, tr)
  }

  ghost predicate Inv(s: State) {
    && StoreInv(s.data, s.log)
    && (forall f :: f in s.log && !f.Provided? ==> f.who in s.procs)
    && (forall p :: p in s.procs ==> ProcInv(s.data, s.log, p, s.procs[p]))
  }

  // ----- how the stores may evolve -----

  ghost predicate UsersEvolve(us: Users, us': Users) {
    forall u :: u in us ==>
      && u in us'
      && us'[u].id == us[u].id && us'[u].createdAt == us[u].createdAt
      && (!us[u].isGuest ==> us'[u] == us[u])
      && (us'[u].isGuest ==> us'[u] == us[u])
  }

  ghost predicate RowsEvolve(rows: Rows, rows': Rows) {
    forall r :: r in rows ==>
      && r in rows'
      && rows'[r].userId == rows[r].userId && rows'[r].credentialId == rows[r].credentialId
      && rows'[r].aaguid == rows[r].aaguid && rows'[r].createdAt == rows[r].createdAt
      && (!Live(rows, r) ==> !Live(rows', r))
  }

  ghost predicate HeldBy(locks: map<Uuid, Pid>, r: Uuid, p: Pid) {
    r in locks && locks[r] == p
  }

  /** A step of request p leaves the other requests' locks alone. */
  ghost predicate LocksEvolve(locks: map<Uuid, Pid>, locks': map<Uuid, Pid>, p: Pid) {
    forall r, q :: q != p && HeldBy(locks, r, q) ==> HeldBy(locks', r, q)
  }

  /** Only the holder of a row's lock can delete the row. */
  ghost predicate DeathsEvolve(d: Data, d': Data, p: Pid) {
    forall r :: Live(d.rows, r) && !Live(d'.rows, r) ==> HeldBy(d.locks, r, p)
  }

  ghost predicate Evolves(d: Data, d': Data, p: Pid) {
    && UsersEvolve(d.users, d'.users)
    && RowsEvolve(d.rows, d'.rows)
    && LocksEvolve(d.locks, d'.locks, p)
    && DeathsEvolve(d, d', p)
  }

  /** What an operation relies on, all of it supplied by the request's own program point. */
  ghost predicate OpOk(d: Data, log: seq<Fact>, p: Pid, op: Op) {
    && (op.OnRows? && op.r.Insert? ==> Registered(d.users, op.r.cred.userId))
    && (op.InTx? && op.t.Commit? ==> Live(d.rows, op.t.row) && HeldBy(d.locks, op.t.row, p))
    && (op.OnKeys? && op.k.CreateSession? ==> HasRow(d.rows, op.k.uid))
    && (op.OnKeys? && op.k.CreateGuestToken? ==> HasBirth(log, op.k.uid, true))
  }

  lemma UserOpsEvolve(us: Users, op: UserOp, c: Choice, now: nat)
    requires c.uuid !in us
    ensures UsersEvolve(us, ApplyUsers(us, op, c, now).0)
  {
  }

  lemma RowOpsEvolve(us: Users, rows: Rows, op: RowOp, c: Choice, now: nat)
    requires c.uuid !in rows
    ensures RowsEvolve(rows, ApplyRows(us, rows, op, c, now).0)
    ensures forall r :: Live(rows, r) ==> Live(ApplyRows(us, rows, op, c, now).0, r)
  {
  }

  lemma ReleaseEvolves(d: Data, p: Pid)
    ensures LocksEvolve(d.locks, Release(d, p).locks, p)
  {
  }

  lemma TxEvolves(d: Data, p: Pid, op: TxOp)
    requires op.Commit? ==> Live(d.rows, op.row) && HeldBy(d.locks, op.row, p)
    requires op.Lock? ==> op.row !in d.locks
    ensures Evolves(d, ApplyTx(d, p, op).0, p)
  {
    ReleaseEvolves(d, p);
    match op {
      case Lock(row) =>
      case Count(_, _) =>
      case Mark(_) =>
      case Commit(row) => ReleaseEvolves(d.(rows := Bury(d.rows, row, d.now)), p);
    }
  }

  lemma KeyOpsKeepTables(d: Data, op: KeyOp, c: Choice)
    ensures var d' := ApplyKeys(d, op, c).0; d'.users == d.users && d'.rows == d.rows && d'.locks == d.locks
  {
    match op {
      case SaveChallenge(_) =>
      case TakeChallenge(_) =>
      case CreateSession(_) =>
      case GetSession(_) =>
      case DeleteSession(_) =>
      case CreateGuestToken(_) =>
      case GetGuest(_) =>
      case DeleteGuest(_) =>
    }
  }

  lemma ApplyEvolves(d: Data, log: seq<Fact>, p: Pid, op: Op, c: Choice)
    requires OpOk(d, log, p, op) && FreshId(d, c.uuid) && !Blocked(d, op)
    ensures Evolves(d, Apply(d, p, op, c).0, p)
  {
    var d' := Apply(d, p, op, c).0;
    match op {
      case Skip =>
      case OnUsers(u) =>
        assert d' == d.(users := ApplyUsers(d.users, u, c, d.now).0);
        UserOpsEvolve(d.users, u, c, d.now);
      case OnRows(r) =>
        assert d' == d.(rows := ApplyRows(d.users, d.rows, r, c, d.now).0);
        RowOpsEvolve(d.users, d.rows, r, c, d.now);
      case InTx(t) =>
        TxEvolves(d, p, t);
      case OnKeys(k) =>
        KeyOpsKeepTables(d, k, c);
    }
  }

  lemma ExecEvolves(d: Data, log: seq<Fact>, p: Pid, op: Op, c: Choice)
    requires OpOk(d, log, p, op) && FreshId(d, c.uuid) && !Blocked(d, op)
    ensures Evolves(d, Exec(d, p, op, c).0, p)
  {
    ApplyEvolves(d, log, p, op, c);
    ReleaseEvolves(d, p);
    ReleaseEvolves(Apply(d, p, op, c).0, p);
  }
}

/**
 * One request among others. A beat is what surrounds one of its store calls: whatever state the other
 * requests have left the stores in, and the choices made for the call. The machine says at which program
 * point the request then is and what it leaves behind; World lets handler code run against it.
 */
module Environment {
  import opened Domain
  import opened Service
  import opened Invariant
  import opened Keyspace
  import opened Database
  import opened RedisStores
  import Calls
  import T = Tables

  datatype Beat = Beat(c: Choice, d: Data, names: map<string, Uuid>, liveIds: map<Bytes, Uuid>, keys: Keys)

  /** Indexes and keyspace of a beat belong to its tables and timed maps; its rows are filed under their ids. */
  ghost predicate Consistent(b: Beat) {
    NameIndex(b.names, b.d.users) && LiveIndex(b.liveIds, b.d.rows) && Views(b.keys, b.d) && Calls.Orderly(b.d)
  }

  // ----- the request's own steps, whatever happens in between -----

  /** Where request p is after n store calls. */
  ghost function PcAfter(p: Pid, req: Request, w: nat -> Beat, n: nat): Pc {
    if n == 0 then Start(req)
    else
      var pc, b := PcAfter(p, req, w, n - 1), w(n - 1);
      Resume(req, pc, Exec(b.d, p, Plan(req, pc, b.c), b.c).1, b.c)
  }

  /** What the stores hold; the clock and the configuration are not stored. */
  function Contents(d: Data): Data {
    d.(cfg := Config(0, 0, 0), now := 0)
  }

  /** What the request leaves in the stores with its n-th call. */
  ghost function LeftBy(before: Data, p: Pid, req: Request, w: nat -> Beat, n: nat): Data {
    if n == 0 then before
    else
      var pc, b := PcAfter(p, req, w, n - 1), w(n - 1);
      Contents(Exec(b.d, p, Plan(req, pc, b.c), b.c).0)
  }

  /** What the others find each time they take over. */
  ghost function Trail(before: Data, p: Pid, req: Request, w: nat -> Beat, n: nat): seq<Data> {
    if n == 0 then [] else Trail(before, p, req, w, n - 1) + [LeftBy(before, p, req, w, n - 1)]
  }

  // ----- when the machine lets the request step -----

  predicate InTransaction(pc: Pc) {
    pc.CountLive? || pc.MarkRow? || pc.CommitRow?
  }

  /** Inside its transaction the request holds its row's lock; otherwise, and apart from that, none. */
  ghost predicate LocksMatch(locks: map<Uuid, Pid>, p: Pid, pc: Pc) {
    forall r :: HeldBy(locks, r, p) <==> InTransaction(pc) && r == pc.row
  }

  ghost predicate CanStep(b: Beat, p: Pid, req: Request, pc: Pc) {
    && FreshId(b.d, b.c.uuid)
    && LocksMatch(b.d.locks, p, pc)
    && var op := Plan(req, pc, b.c);
    && !Blocked(b.d, op)
    && (op.OnRows? && op.r.ListByUserId? ==> T.IsListing(b.c.list, b.d.rows, op.r.uid))
  }

  /** Every call of the request is made at a moment the machine allows. */
  ghost predicate Scheduled(cfg: Config, p: Pid, req: Request, w: nat -> Beat) {
    forall n: nat :: Fits(cfg, p, req, w(n), PcAfter(p, req, w, n))
  }

  ghost predicate Fits(cfg: Config, p: Pid, req: Request, b: Beat, pc: Pc) {
    Consistent(b) && b.d.cfg == cfg && (!pc.Answered? ==> CanStep(b, p, req, pc))
  }

  // ----- running code against it -----

  /** A request at work: its beats, and what had been handed over and was stored when it began. */
  datatype Job = Job(cfg: Config, p: Pid, req: Request, w: nat -> Beat, history: seq<Data>, before: Data)

  lemma TrailNext(j: Job, n: nat)
    ensures Trail(j.before, j.p, j.req, j.w, n + 1)
              == Trail(j.before, j.p, j.req, j.w, n) + [LeftBy(j.before, j.p, j.req, j.w, n)]
  {
    hide LeftBy;
  }

  lemma Parts(b: Beat)
    requires Consistent(b)
    ensures NameIndex(b.names, b.d.users) && LiveIndex(b.liveIds, b.d.rows) && Typed(b.keys)
    ensures b.d.sessions == UserIds(b.keys, SESSION_PREFIX) && b.d.guests == UserIds(b.keys, GUEST_PREFIX)
    ensures b.d.challenges == Ceremonies(b.keys)
  {
    hide NameIndex, LiveIndex, UserIds, Ceremonies, HoldsUsers, HoldsCeremonies;
  }

  class World {
    const pool: Postgres
    const client: Redis
    ghost var history: seq<Data>   // the state of the stores each time the others took over

    constructor (pool: Postgres, client: Redis)
      ensures this.pool == pool && this.client == client && history == []
    {
      this.pool, this.client, history := pool, client, [];
    }

    ghost predicate Valid()
      reads this, pool, client
    {
      pool.Valid() && client.Valid()
    }

    ghost function Snapshot(): Data
      reads pool, client
    {
      Data(Config(0, 0, 0), 0, pool.users, pool.rows, pool.locks, client.Sessions(), client.Guests(),
          client.Challenges())
    }

    /**
     * After n calls the request is at pc, the stores hold what its n-th call left, and at each hand-over
     * before the others found exactly what the machine says.
     */
    ghost predicate Reached(j: Job, n: nat, pc: Pc)
      reads this, pool, client
    {
      && Valid()
      && PcAfter(j.p, j.req, j.w, n) == pc
      && Snapshot() == LeftBy(j.before, j.p, j.req, j.w, n)
      && history == j.history + Trail(j.before, j.p, j.req, j.w, n)
    }

    /** The same in the middle of a call: the others have been, the call has not taken effect. */
    ghost predicate Calling(j: Job, n: nat, pc: Pc)
      reads this, pool, client
    {
      && Valid()
      && PcAfter(j.p, j.req, j.w, n) == pc
      && history == j.history + Trail(j.before, j.p, j.req, j.w, n + 1)
    }

    /** The other requests run until the next call. */
    method Others(b: Beat, ghost j: Job, ghost n: nat, ghost pc: Pc)
      requires Reached(j, n, pc) && Scheduled(j.cfg, j.p, j.req, j.w) && j.w(n) == b
      modifies this, pool, client
      ensures Calling(j, n, pc) && Fits(j.cfg, j.p, j.req, b, pc)
      ensures Snapshot() == Contents(b.d)
      ensures pool.users == b.d.users && pool.rows == b.d.rows && pool.locks == b.d.locks
    {
      hide PcAfter, LeftBy, Trail, CanStep, Consistent, Views, Typed, NameIndex, LiveIndex, UserIds, Ceremonies;
      assert Fits(j.cfg, j.p, j.req, b, PcAfter(j.p, j.req, j.w, n));
      Parts(b);
      TrailNext(j, n);
      history := history + [Snapshot()];
      pool.users, pool.names, pool.rows, pool.liveIds, pool.locks := b.d.users, b.names, b.d.rows, b.liveIds, b.d.locks;
      client.keys := b.keys;
    }
  }

  lemma Started(j: Job, world: World)
    requires world.Valid() && world.history == j.history && world.Snapshot() == j.before
    ensures world.Reached(j, 0, Start(j.req))
  {
  }

  lemma PointOf(j: Job, world: World, n: nat, pc: Pc)
    requires world.Reached(j, n, pc)
    ensures PcAfter(j.p, j.req, j.w, n) == pc
  {
  }

  /** A call that did to the stores what the machine's operation does moves the request on. */
  lemma Moved(j: Job, world: World, n: nat, pc: Pc, a: Answer)
    requires world.Calling(j, n, pc)
    requires var b := j.w(n);
             var done := Exec(b.d, j.p, Plan(j.req, pc, b.c), b.c);
             world.Snapshot() == Contents(done.0) && a == done.1
    ensures world.Reached(j, n + 1, Resume(j.req, pc, a, j.w(n).c))
  {
    hide Exec, Plan, Resume, Postgres.Valid, Redis.Valid;
  }

  // ----- one store call is one step -----

  lemma ReleaseNone(d: Data, p: Pid)
    requires forall r :: !HeldBy(d.locks, r, p)
    ensures Release(d, p) == d
  {
    assert forall r :: r in d.locks ==> HeldBy(d.locks, r, d.locks[r]);
  }

  /** Outside its transaction a request has no lock to release, whatever the fault. */
  lemma PlainExec(d: Data, p: Pid, op: Op, c: Choice)
    requires (forall r :: !HeldBy(d.locks, r, p)) && Apply(d, p, op, c).0.locks == d.locks
    ensures Exec(d, p, op, c) ==
              (if c.fault.Lost? then d else Apply(d, p, op, c).0, if c.fault.NoFault? then Apply(d, p, op, c).1
                  else Failed(StoreFailure))
  {
    ReleaseNone(d, p);
    ReleaseNone(Apply(d, p, op, c).0, p);
    hide Apply;
  }

  ghost function UserCall(us: T.Users, op: UserOp, c: Choice, now: nat): (T.Users, Result<User>) {
    match op
    case GetByUsername(name) => (us, T.GetByUsername(us, name))
    case GetById(id) => (us, T.GetById(us, id))
    case CreateGuest(name, display) => T.CreateGuest(us, c.uuid, name, display, now)
    case CreateRegistered(name, display) => T.CreateRegistered(us, c.uuid, name, display, now)
    case PromoteGuest(id, name, display) => T.PromoteGuest(us, id, name, display, now)
  }

  ghost function RowCall(us: T.Users, rows: T.Rows, op: RowOp, c: Choice, now: nat): (T.Rows, Result<Credential>)
    requires op.Insert? || op.GetByCredentialId?
  {
    match op
    case Insert(cred) => T.Insert(us, rows, c.uuid, cred, now)
    case GetByCredentialId(cid) => (rows, T.GetByCredentialId(rows, cid))
  }

  lemma UserExec(d: Data, p: Pid, op: UserOp, c: Choice, us: T.Users, r: Result<User>)
    requires forall q :: !HeldBy(d.locks, q, p)
    requires (us, r) == Landed(c.fault, d.users, UserCall(d.users, op, c, d.now))
    ensures Exec(d, p, OnUsers(op), c) == (d.(users := us), OfUser(r))
  {
    PlainExec(d, p, OnUsers(op), c);
    hide Exec;
  }

  lemma RowExec(d: Data, p: Pid, op: RowOp, c: Choice, rows: T.Rows, r: Result<Credential>)
    requires (forall q :: !HeldBy(d.locks, q, p)) && (op.Insert? || op.GetByCredentialId?)
    requires (rows, r) == Landed(c.fault, d.rows, RowCall(d.users, d.rows, op, c, d.now))
    ensures Exec(d, p, OnRows(op), c) == (d.(rows := rows), OfCredential(r))
  {
    PlainExec(d, p, OnRows(op), c);
    hide Exec;
  }

  lemma UpdateExec(d: Data, p: Pid, op: RowOp, c: Choice, rows: T.Rows, r: Result<()>)
    requires (forall q :: !HeldBy(d.locks, q, p)) && op.UpdateAfterAssertion?
    requires (rows, r) == Landed(c.fault, d.rows, T.UpdateAfterAssertion(d.rows, op.row, op.count, op.be, op.bs, d.now))
    ensures Exec(d, p, OnRows(op), c) == (d.(rows := rows), OfUnit(r))
  {
    PlainExec(d, p, OnRows(op), c);
    hide Exec;
  }

  lemma ListExec(d: Data, p: Pid, uid: Uuid, c: Choice, r: Result<seq<Credential>>)
    requires forall q :: !HeldBy(d.locks, q, p)
    requires (d.rows, r) == Landed(c.fault, d.rows, (d.rows, Ok(c.list)))
    ensures Exec(d, p, OnRows(ListByUserId(uid)), c) == (d, OfList(r))
  {
    PlainExec(d, p, OnRows(ListByUserId(uid)), c);
    hide Exec;
  }

  lemma KeyExec(d: Data, p: Pid, op: KeyOp, c: Choice)
    requires forall q :: !HeldBy(d.locks, q, p)
    ensures Exec(d, p, OnKeys(op), c) ==
              (if c.fault.Lost? then d else ApplyKeys(d, op, c).0, if c.fault.NoFault? then ApplyKeys(d, op, c).1
                  else Failed(StoreFailure))
  {
    KeysOnly(d, op, c);
    PlainExec(d, p, OnKeys(op), c);
    hide Exec, ApplyKeys;
  }

  function OfList(r: Result<seq<Credential>>): Answer {
    match r case Ok(list) => TheList(list) case Err(e) => Failed(e)
  }

  function OfPayload(r: Result<Payload>): Answer {
    match r case Ok(payload) => ThePayload(payload) case Err(e) => Failed(e)
  }

  function OfToken(r: Result<string>): Answer {
    match r case Ok(t) => TheToken(t) case Err(e) => Failed(e)
  }

  function OfUid(r: Result<Uuid>): Answer {
    match r case Ok(u) => TheUid(u) case Err(e) => Failed(e)
  }

  /** The request's state in the middle of call n, at a point outside any transaction. */
  ghost predicate Paused(j: Job, world: World, n: nat, pc: Pc)
    reads world, world.pool, world.client
  {
    world.Calling(j, n, pc) && !InTransaction(pc) && !pc.Answered? && Fits(j.cfg, j.p, j.req, j.w(n), pc)
  }

  lemma NoLocks(j: Job, world: World, n: nat, pc: Pc)
    requires Paused(j, world, n, pc)
    ensures forall r :: !HeldBy(j.w(n).d.locks, r, j.p)
  {
    hide Plan;
    assert LocksMatch(j.w(n).d.locks, j.p, pc);
  }

  lemma DidUser(j: Job, world: World, n: nat, pc: Pc, op: UserOp, r: Result<User>)
    requires Paused(j, world, n, pc) && Plan(j.req, pc, j.w(n).c) == OnUsers(op)
    requires var b := j.w(n);
             && (world.pool.users, r) == Landed(b.c.fault, b.d.users, UserCall(b.d.users, op, b.c, b.d.now))
             && world.Snapshot() == Contents(b.d).(users := world.pool.users)
    ensures world.Reached(j, n + 1, Resume(j.req, pc, OfUser(r), j.w(n).c))
  {
    hide Exec, Plan, Resume, UserCall, Landed, Postgres.Valid, Redis.Valid;
    NoLocks(j, world, n, pc);
    UserExec(j.w(n).d, j.p, op, j.w(n).c, world.pool.users, r);
    Moved(j, world, n, pc, OfUser(r));
  }

  lemma DidRow(j: Job, world: World, n: nat, pc: Pc, op: RowOp, r: Result<Credential>)
    requires Paused(j, world, n, pc) && Plan(j.req, pc, j.w(n).c) == OnRows(op) && (op.Insert? || op.GetByCredentialId?)
    requires var b := j.w(n);
             && (world.pool.rows, r) == Landed(b.c.fault, b.d.rows, RowCall(b.d.users, b.d.rows, op, b.c, b.d.now))
             && world.Snapshot() == Contents(b.d).(rows := world.pool.rows)
    ensures world.Reached(j, n + 1, Resume(j.req, pc, OfCredential(r), j.w(n).c))
  {
    hide Exec, Plan, Resume, RowCall, Landed, Postgres.Valid, Redis.Valid;
    NoLocks(j, world, n, pc);
    RowExec(j.w(n).d, j.p, op, j.w(n).c, world.pool.rows, r);
    Moved(j, world, n, pc, OfCredential(r));
  }

  lemma DidUpdate(j: Job, world: World, n: nat, pc: Pc, op: RowOp, r: Result<()>)
    requires Paused(j, world, n, pc) && Plan(j.req, pc, j.w(n).c) == OnRows(op) && op.UpdateAfterAssertion?
    requires var b := j.w(n);
             && (world.pool.rows, r)
                  == Landed(b.c.fault, b.d.rows,
                      T.UpdateAfterAssertion(b.d.rows, op.row, op.count, op.be, op.bs, b.d.now))
             && world.Snapshot() == Contents(b.d).(rows := world.pool.rows)
    ensures world.Reached(j, n + 1, Resume(j.req, pc, OfUnit(r), j.w(n).c))
  {
    hide Exec, Plan, Resume, Landed, T.UpdateAfterAssertion, Postgres.Valid, Redis.Valid;
    NoLocks(j, world, n, pc);
    UpdateExec(j.w(n).d, j.p, op, j.w(n).c, world.pool.rows, r);
    Moved(j, world, n, pc, OfUnit(r));
  }

  lemma DidList(j: Job, world: World, n: nat, pc: Pc, uid: Uuid, r: Result<seq<Credential>>)
    requires Paused(j, world, n, pc) && Plan(j.req, pc, j.w(n).c) == OnRows(ListByUserId(uid))
    requires var b := j.w(n);
             && (b.d.rows, r) == Landed(b.c.fault, b.d.rows, (b.d.rows, Ok(b.c.list)))
             && world.Snapshot() == Contents(b.d)
    ensures world.Reached(j, n + 1, Resume(j.req, pc, OfList(r), j.w(n).c))
  {
    hide Exec, Plan, Resume, Landed, Postgres.Valid, Redis.Valid;
    NoLocks(j, world, n, pc);
    ListExec(j.w(n).d, j.p, uid, j.w(n).c, r);
    Moved(j, world, n, pc, OfList(r));
  }

  lemma DidKeys(j: Job, world: World, n: nat, pc: Pc, op: KeyOp, a: Answer)
    requires Paused(j, world, n, pc) && Plan(j.req, pc, j.w(n).c) == OnKeys(op)
    requires var b := j.w(n);
             && world.Snapshot() == Contents(if b.c.fault.Lost? then b.d else ApplyKeys(b.d, op, b.c).0)
             && a == (if b.c.fault.NoFault? then ApplyKeys(b.d, op, b.c).1 else Failed(StoreFailure))
    ensures world.Reached(j, n + 1, Resume(j.req, pc, a, j.w(n).c))
  {
    hide Exec, Plan, Resume, ApplyKeys, Postgres.Valid, Redis.Valid;
    NoLocks(j, world, n, pc);
    KeyExec(j.w(n).d, j.p, op, j.w(n).c);
    Moved(j, world, n, pc, a);
  }

  /** A step that fails before any store call: random source, library or encoding. */
  lemma DidNothing(j: Job, world: World, n: nat, pc: Pc)
    requires Paused(j, world, n, pc) && Plan(j.req, pc, j.w(n).c) == Skip && world.Snapshot() == Contents(j.w(n).d)
    ensures world.Reached(j, n + 1,
              Resume(j.req, pc, if j.w(n).c.fault.NoFault? then Done else Failed(StoreFailure), j.w(n).c))
  {
    NoLocks(j, world, n, pc);
    PlainExec(j.w(n).d, j.p, Skip, j.w(n).c);
    hide Exec, Plan, Resume, Postgres.Valid, Redis.Valid;
    Moved(j, world, n, pc, if j.w(n).c.fault.NoFault? then Done else Failed(StoreFailure));
  }

  // ----- the statements of a delete -----

  lemma ReleaseOwn(d: Data, p: Pid, row: Uuid)
    requires forall r :: HeldBy(d.locks, r, p) <==> r == row
    ensures Release(d, p) == d.(locks := d.locks - {row})
  {
    assert forall r :: r in d.locks ==> (d.locks[r] == p <==> HeldBy(d.locks, r, p));
  }

  lemma LockExec(d: Data, p: Pid, row: Uuid, c: Choice)
    requires (forall r :: !HeldBy(d.locks, r, p)) && row !in d.locks
    ensures Exec(d, p, InTx(Lock(row)), c) ==
              if !c.fault.NoFault? then (d, Failed(StoreFailure))
              else if T.Live(d.rows, row) then (d.(locks := d.locks[row := p]), TheUid(d.rows[row].userId))
              else (d, Failed(CredentialNotFound))
  {
    var held := d.(locks := d.locks[row := p]);
    ReleaseNone(d, p);
    assert forall r :: r != row ==> (HeldBy(held.locks, r, p) <==> HeldBy(d.locks, r, p));
    ReleaseOwn(held, p, row);
    assert held.locks - {row} == d.locks;
    hide Release, HeldBy;
  }

  lemma CountExec(d: Data, p: Pid, row: Uuid, owner: Uuid, c: Choice)
    requires forall r :: HeldBy(d.locks, r, p) <==> r == row
    ensures Exec(d, p, InTx(Count(row, owner)), c) ==
              if !c.fault.NoFault? then (d.(locks := d.locks - {row}), Failed(StoreFailure))
              else if |T.LiveOf(d.rows, owner)| <= 1 then (d.(locks := d.locks - {row}), Failed(LastCredential))
              else (d, Done)
  {
    ReleaseOwn(d, p, row);
    var freed := d.(locks := d.locks - {row});
    assert forall r :: r != row ==> (HeldBy(freed.locks, r, p) <==> HeldBy(d.locks, r, p));
    ReleaseNone(freed, p);
    hide Release, T.LiveOf, HeldBy;
  }

  lemma MarkExec(d: Data, p: Pid, row: Uuid, c: Choice)
    requires forall r :: HeldBy(d.locks, r, p) <==> r == row
    ensures Exec(d, p, InTx(Mark(row)), c) == if c.fault.NoFault? then (d, Done)
              else (d.(locks := d.locks - {row}), Failed(StoreFailure))
  {
    ReleaseOwn(d, p, row);
    hide Release;
  }

  lemma CommitExec(d: Data, p: Pid, row: Uuid, c: Choice)
    requires forall r :: HeldBy(d.locks, r, p) <==> r == row
    ensures Exec(d, p, InTx(Commit(row)), c) ==
              (d.(locks := d.locks - {row}, rows := if c.fault.Lost? then d.rows else T.Bury(d.rows, row, d.now)),
               if c.fault.NoFault? then Done else Failed(StoreFailure))
  {
    ReleaseOwn(d, p, row);
    var buried := d.(rows := T.Bury(d.rows, row, d.now));
    ReleaseOwn(buried, p, row);
    var freed := buried.(locks := d.locks - {row});
    assert forall r :: r != row ==> (HeldBy(freed.locks, r, p) <==> HeldBy(d.locks, r, p));
    ReleaseNone(freed, p);
    hide Release, T.Bury, HeldBy;
  }

  /** What the request holds when its call n comes up. */
  lemma Holdings(j: Job, n: nat, pc: Pc)
    requires Fits(j.cfg, j.p, j.req, j.w(n), pc) && !pc.Answered?
    ensures !InTransaction(pc) ==> forall r :: !HeldBy(j.w(n).d.locks, r, j.p)
    ensures InTransaction(pc) ==> forall r :: HeldBy(j.w(n).d.locks, r, j.p) <==> r == pc.row
    ensures pc.LockRow? ==> pc.row !in j.w(n).d.locks
    ensures pc.RecordAssertion? ==> pc.found.id !in j.w(n).d.locks
  {
    assert LocksMatch(j.w(n).d.locks, j.p, pc);
    RowIsFree(j.w(n), j.req, pc);
    hide Consistent, FreshId, T.IsListing, Plan, Blocked;
  }

  /** A lock and an update wait until the row is free. */
  lemma RowIsFree(b: Beat, req: Request, pc: Pc)
    requires !Blocked(b.d, Plan(req, pc, b.c))
    ensures pc.LockRow? ==> pc.row !in b.d.locks
    ensures pc.RecordAssertion? ==> pc.found.id !in b.d.locks
  {
  }

  /** What the delete handler answers for each outcome of SoftDelete. */
  function DeleteResponse(r: Result<()>): Response {
    match r
    case Ok(_) => Response(204, Fine, None, None, NoBody)
    case Err(LastCredential) => Refuse(409, LastCredentialLeft)
    case Err(CredentialNotFound) => Refuse(404, NotFound)
    case Err(_) => Refuse(500, InternalError)
  }

  /** What the machine does around the four statements. */
  lemma DeletePlans(req: Request, uid: Uuid, row: Uuid, owner: Uuid, c: Choice)
    requires req.DeleteCredential?
    ensures Plan(req, LockRow(uid, row), c) == InTx(Lock(row))
    ensures Plan(req, CountLive(uid, row, owner), c) == InTx(Count(row, owner))
    ensures Plan(req, MarkRow(uid, row, owner), c) == InTx(Mark(row))
    ensures Plan(req, CommitRow(uid, row, owner), c) == InTx(Commit(row))
  {
  }

  lemma DeleteResumes(req: Request, uid: Uuid, row: Uuid, owner: Uuid, c: Choice)
    requires req.DeleteCredential?
    ensures Resume(req, LockRow(uid, row), TheUid(owner), c) == CountLive(uid, row, owner)
    ensures Resume(req, CountLive(uid, row, owner), Done, c) == MarkRow(uid, row, owner)
    ensures Resume(req, MarkRow(uid, row, owner), Done, c) == CommitRow(uid, row, owner)
    ensures Resume(req, CommitRow(uid, row, owner), Done, c) == Answered(DeleteResponse(Ok(())))
    ensures Resume(req, LockRow(uid, row), Failed(CredentialNotFound), c)
              == Answered(DeleteResponse(Err(CredentialNotFound)))
    ensures Resume(req, CountLive(uid, row, owner), Failed(LastCredential), c)
              == Answered(DeleteResponse(Err(LastCredential)))
    ensures Resume(req, LockRow(uid, row), Failed(StoreFailure), c) == Answered(DeleteResponse(Err(StoreFailure)))
    ensures Resume(req, CountLive(uid, row, owner), Failed(StoreFailure), c)
              == Answered(DeleteResponse(Err(StoreFailure)))
    ensures Resume(req, MarkRow(uid, row, owner), Failed(StoreFailure), c)
              == Answered(DeleteResponse(Err(StoreFailure)))
    ensures Resume(req, CommitRow(uid, row, owner), Failed(StoreFailure), c)
              == Answered(DeleteResponse(Err(StoreFailure)))
  {
    DeleteAfter(req, uid, row, owner);
    hide AfterAccount, DeleteResponse;
  }

  lemma DeleteAfter(req: Request, uid: Uuid, row: Uuid, owner: Uuid)
    requires req.DeleteCredential?
    ensures AfterAccount(LockRow(uid, row), req, TheUid(owner)) == CountLive(uid, row, owner)
    ensures AfterAccount(CountLive(uid, row, owner), req, Done) == MarkRow(uid, row, owner)
    ensures AfterAccount(MarkRow(uid, row, owner), req, Done) == CommitRow(uid, row, owner)
    ensures AfterAccount(CommitRow(uid, row, owner), req, Done) == Answered(DeleteResponse(Ok(())))
    ensures AfterAccount(LockRow(uid, row), req, Failed(CredentialNotFound))
              == Answered(DeleteResponse(Err(CredentialNotFound)))
    ensures AfterAccount(CountLive(uid, row, owner), req, Failed(LastCredential))
              == Answered(DeleteResponse(Err(LastCredential)))
    ensures AfterAccount(LockRow(uid, row), req, Failed(StoreFailure)) == Answered(DeleteResponse(Err(StoreFailure)))
    ensures AfterAccount(CountLive(uid, row, owner), req, Failed(StoreFailure))
              == Answered(DeleteResponse(Err(StoreFailure)))
    ensures AfterAccount(MarkRow(uid, row, owner), req, Failed(StoreFailure))
              == Answered(DeleteResponse(Err(StoreFailure)))
    ensures AfterAccount(CommitRow(uid, row, owner), req, Failed(StoreFailure))
              == Answered(DeleteResponse(Err(StoreFailure)))
  {
  }

  /** The request is a delete, scheduled as the machine allows. */
  ghost predicate Deleting(j: Job, p: Pid, w: nat -> Beat) {
    j.p == p && j.w == w && j.req.DeleteCredential? && Scheduled(j.cfg, p, j.req, w)
  }

  lemma LockRefused(j: Job, world: World, n: nat, uid: Uuid, row: Uuid, e: Error)
    requires var pc, b := LockRow(uid, row), j.w(n);
             && world.Calling(j, n, pc) && Fits(j.cfg, j.p, j.req, b, pc) && j.req.DeleteCredential?
             && world.Snapshot() == Contents(b.d)
             && (if b.c.fault.NoFault? then !T.Live(b.d.rows, row) && e == CredentialNotFound else e == StoreFailure)
    ensures world.Reached(j, n + 1, Answered(DeleteResponse(Err(e))))
  {
    Holdings(j, n, LockRow(uid, row));
    hide Exec, Plan, Resume, Fits, DeleteResponse, Postgres.Valid, Redis.Valid;
    LockExec(j.w(n).d, j.p, row, j.w(n).c);
    DeletePlans(j.req, uid, row, uid, j.w(n).c);
    DeleteResumes(j.req, uid, row, uid, j.w(n).c);
    Moved(j, world, n, LockRow(uid, row), Failed(e));
  }

  lemma LockGranted(j: Job, world: World, n: nat, uid: Uuid, row: Uuid, owner: Uuid)
    requires var pc, b := LockRow(uid, row), j.w(n);
             && world.Calling(j, n, pc) && Fits(j.cfg, j.p, j.req, b, pc) && j.req.DeleteCredential?
             && world.Snapshot() == Contents(b.d).(locks := b.d.locks[row := j.p])
             && b.c.fault.NoFault? && T.Live(b.d.rows, row) && owner == b.d.rows[row].userId
    ensures world.Reached(j, n + 1, CountLive(uid, row, owner))
  {
    Holdings(j, n, LockRow(uid, row));
    hide Exec, Plan, Resume, Fits, Postgres.Valid, Redis.Valid;
    LockExec(j.w(n).d, j.p, row, j.w(n).c);
    DeletePlans(j.req, uid, row, owner, j.w(n).c);
    DeleteResumes(j.req, uid, row, owner, j.w(n).c);
    Moved(j, world, n, LockRow(uid, row), TheUid(owner));
  }

  lemma CountRefused(j: Job, world: World, n: nat, uid: Uuid, row: Uuid, owner: Uuid, e: Error)
    requires var pc, b := CountLive(uid, row, owner), j.w(n);
             && world.Calling(j, n, pc) && Fits(j.cfg, j.p, j.req, b, pc) && j.req.DeleteCredential?
             && world.Snapshot() == Contents(b.d).(locks := b.d.locks - {row})
             && (if b.c.fault.NoFault? then |T.LiveOf(b.d.rows, owner)| <= 1
                  && e == LastCredential else e == StoreFailure)
    ensures world.Reached(j, n + 1, Answered(DeleteResponse(Err(e))))
  {
    Holdings(j, n, CountLive(uid, row, owner));
    hide Exec, Plan, Resume, Fits, DeleteResponse, T.LiveOf, Postgres.Valid, Redis.Valid;
    CountExec(j.w(n).d, j.p, row, owner, j.w(n).c);
    DeletePlans(j.req, uid, row, owner, j.w(n).c);
    DeleteResumes(j.req, uid, row, owner, j.w(n).c);
    Moved(j, world, n, CountLive(uid, row, owner), Failed(e));
  }

  lemma CountEnough(j: Job, world: World, n: nat, uid: Uuid, row: Uuid, owner: Uuid)
    requires var pc, b := CountLive(uid, row, owner), j.w(n);
             && world.Calling(j, n, pc) && Fits(j.cfg, j.p, j.req, b, pc) && j.req.DeleteCredential?
             && world.Snapshot() == Contents(b.d)
             && b.c.fault.NoFault? && |T.LiveOf(b.d.rows, owner)| > 1
    ensures world.Reached(j, n + 1, MarkRow(uid, row, owner))
  {
    Holdings(j, n, CountLive(uid, row, owner));
    hide Exec, Plan, Resume, Fits, T.LiveOf, Postgres.Valid, Redis.Valid;
    CountExec(j.w(n).d, j.p, row, owner, j.w(n).c);
    DeletePlans(j.req, uid, row, owner, j.w(n).c);
    DeleteResumes(j.req, uid, row, owner, j.w(n).c);
    Moved(j, world, n, CountLive(uid, row, owner), Done);
  }

  lemma MarkRefused(j: Job, world: World, n: nat, uid: Uuid, row: Uuid, owner: Uuid)
    requires var pc, b := MarkRow(uid, row, owner), j.w(n);
             && world.Calling(j, n, pc) && Fits(j.cfg, j.p, j.req, b, pc) && j.req.DeleteCredential?
             && world.Snapshot() == Contents(b.d).(locks := b.d.locks - {row}) && !b.c.fault.NoFault?
    ensures world.Reached(j, n + 1, Answered(DeleteResponse(Err(StoreFailure))))
  {
    Holdings(j, n, MarkRow(uid, row, owner));
    hide Exec, Plan, Resume, Fits, DeleteResponse, Postgres.Valid, Redis.Valid;
    MarkExec(j.w(n).d, j.p, row, j.w(n).c);
    DeletePlans(j.req, uid, row, owner, j.w(n).c);
    DeleteResumes(j.req, uid, row, owner, j.w(n).c);
    Moved(j, world, n, MarkRow(uid, row, owner), Failed(StoreFailure));
  }

  lemma MarkDone(j: Job, world: World, n: nat, uid: Uuid, row: Uuid, owner: Uuid)
    requires var pc, b := MarkRow(uid, row, owner), j.w(n);
             && world.Calling(j, n, pc) && Fits(j.cfg, j.p, j.req, b, pc) && j.req.DeleteCredential?
             && world.Snapshot() == Contents(b.d) && b.c.fault.NoFault?
    ensures world.Reached(j, n + 1, CommitRow(uid, row, owner))
  {
    Holdings(j, n, MarkRow(uid, row, owner));
    hide Exec, Plan, Resume, Fits, Postgres.Valid, Redis.Valid;
    MarkExec(j.w(n).d, j.p, row, j.w(n).c);
    DeletePlans(j.req, uid, row, owner, j.w(n).c);
    DeleteResumes(j.req, uid, row, owner, j.w(n).c);
    Moved(j, world, n, MarkRow(uid, row, owner), Done);
  }

  lemma CommitDone(j: Job, world: World, n: nat, uid: Uuid, row: Uuid, owner: Uuid, r: Result<()>)
    requires var pc, b := CommitRow(uid, row, owner), j.w(n);
             && world.Calling(j, n, pc) && Fits(j.cfg, j.p, j.req, b, pc) && j.req.DeleteCredential?
             && world.Snapshot() == Contents(b.d).(
                  locks := b.d.locks - {row},
                  rows := if b.c.fault.Lost? then b.d.rows else T.Bury(b.d.rows, row, b.d.now))
             && r == if b.c.fault.NoFault? then Ok(()) else Err(StoreFailure)
    ensures world.Reached(j, n + 1, Answered(DeleteResponse(r)))
  {
    Holdings(j, n, CommitRow(uid, row, owner));
    hide Exec, Plan, Resume, Fits, DeleteResponse, T.Bury, Postgres.Valid, Redis.Valid;
    CommitExec(j.w(n).d, j.p, row, j.w(n).c);
    DeletePlans(j.req, uid, row, owner, j.w(n).c);
    DeleteResumes(j.req, uid, row, owner, j.w(n).c);
    Moved(j, world, n, CommitRow(uid, row, owner), if r.Ok? then Done else Failed(StoreFailure));
  }

  // ----- what a handler may rely on -----

  ghost predicate Working(j: Job, w: nat -> Beat) {
    j.w == w && Scheduled(j.cfg, j.p, j.req, w)
  }

  lemma Configured(j: Job, n: nat, pc: Pc)
    requires Fits(j.cfg, j.p, j.req, j.w(n), pc)
    ensures j.w(n).d.cfg == j.cfg
  {
  }

  lemma Allowed(j: Job, n: nat, pc: Pc)
    requires Fits(j.cfg, j.p, j.req, j.w(n), pc) && !pc.Answered?
    ensures j.w(n).c.uuid !in j.w(n).d.users && j.w(n).c.uuid !in j.w(n).d.rows
    ensures var op := Plan(j.req, pc, j.w(n).c);
            && !Blocked(j.w(n).d, op)
            && (op.OnRows? && op.r.ListByUserId? ==> T.IsListing(j.w(n).c.list, j.w(n).d.rows, op.r.uid))
  {
    hide Plan, T.IsListing, LocksMatch;
  }
}

/**
 * The last-credential guard, user by user. What a delete between count and commit is about to take is
 * open; the guard keeps a user's last passkey exactly as long as every count made for that user and
 * passed finds more live rows than are open. A user whose deletes never overlap always has that,
 * whatever goes on with the others.
 */
module LastCredential {
  import opened Domain
  import opened Tables
  import opened Service
  import opened History
  import opened Invariant
  import opened StoreSteps
  import opened Soundness
  import opened Runs
  import opened Contexts

  ghost predicate HasLive(rows: Rows, u: Uuid) {
    exists r :: Live(rows, r) && rows[r].userId == u
  }

  /** Between the count and the commit of a delete. */
  predicate InWindow(pc: Pc) {
    pc.MarkRow? || pc.CommitRow?
  }

  /** The rows of u that deletes have counted for and not yet committed. */
  ghost function Open(s: State, u: Uuid): set<Uuid> {
    set p | p in s.procs && InWindow(s.procs[p].pc) && s.procs[p].pc.owner == u :: s.procs[p].pc.row
  }

  /** u has a live row that no delete is about to take. */
  ghost predicate Spared(s: State, u: Uuid) {
    exists r :: r in LiveOf(s.data.rows, u) && r !in Open(s, u)
  }

  /** If u owns a credential row, dead or alive, u has one to spare. */
  ghost predicate Covered(s: State, u: Uuid) {
    HasRow(s.data.rows, u) ==> Spared(s, u)
  }

  /** The event is a count for u that meets no fault and finds more than one live row. */
  ghost predicate CountPasses(s: State, e: Event, u: Uuid) {
    && e.Advance? && e.p in s.procs && s.procs[e.p].pc.CountLive? && s.procs[e.p].pc.owner == u
    && e.c.fault.NoFault? && |LiveOf(s.data.rows, u)| > 1
  }

  /** A count for u that passes finds a live row besides its own and those already open. */
  ghost predicate SafeCount(s: State, e: Event, u: Uuid) {
    CountPasses(s, e, u) ==> |LiveOf(s.data.rows, u)| > 1 + |Open(s, u)|
  }

  ghost predicate SafeCounts(cfg: Config, es: seq<Event>, u: Uuid) {
    forall k :: 0 <= k < |es| ==> SafeCount(Run(cfg, es[..k]), es[k], u)
  }

  ghost predicate AlwaysCovered(cfg: Config, es: seq<Event>, u: Uuid) {
    forall k :: 0 <= k <= |es| ==> Covered(Run(cfg, es[..k]), u)
  }

  /** No request counts u's live rows while another delete of a row of u is between count and commit. */
  ghost predicate Serial(s: State, e: Event, u: Uuid) {
    e.Advance? && e.p in s.procs && s.procs[e.p].pc.CountLive? && s.procs[e.p].pc.owner == u ==>
      forall q :: q in s.procs && q != e.p && InWindow(s.procs[q].pc) ==> s.procs[q].pc.owner != u
  }

  ghost predicate Serialised(cfg: Config, es: seq<Event>, u: Uuid) {
    forall k :: 0 <= k < |es| ==> Serial(Run(cfg, es[..k]), es[k], u)
  }

  // ----- how a step changes the rows -----

  /** No live row dies and no dead row appears. */
  ghost predicate LiveGrows(rows: Rows, rows': Rows) {
    && (forall r :: r in rows ==> r in rows' && rows'[r].userId == rows[r].userId && (Live(rows, r) ==> Live(rows', r)))
    && (forall r :: r in rows' && r !in rows ==> Live(rows', r))
  }

  lemma RowOpGrows(us: Users, rows: Rows, op: RowOp, c: Choice, now: nat)
    requires c.uuid !in rows
    ensures LiveGrows(rows, ApplyRows(us, rows, op, c, now).0)
  {
    match op {
      case Insert(_) =>
      case GetByCredentialId(_) =>
      case ListByUserId(_) =>
      case UpdateAfterAssertion(_, _, _, _) =>
    }
  }

  lemma StepRows(d: Data, p: Pid, op: Op, c: Choice)
    requires FreshId(d, c.uuid)
    ensures var rows' := Exec(d, p, op, c).0.rows;
            LiveGrows(d.rows, rows') || (op.InTx? && op.t.Commit? && rows' == Bury(d.rows, op.t.row, d.now))
  {
    hide ApplyUsers, ApplyRows, ApplyKeys, ApplyTx, LiveGrows;
    LiveStays(d.rows);
    match op {
      case Skip =>
      case OnUsers(_) =>
      case OnRows(r) => RowOpGrows(d.users, d.rows, r, c, d.now);
      case InTx(t) => TxRows(d, p, t);
      case OnKeys(k) => KeyOpsKeepTables(d, k, c);
    }
  }

  lemma LiveStays(rows: Rows)
    ensures LiveGrows(rows, rows)
  {
  }

  lemma TwoMeansAnother(s: set<Uuid>, x: Uuid) returns (y: Uuid)
    requires x in s && |s| >= 2
    ensures y in s && y != x
  {
    var rest := s - {x};
    assert |rest| == |s| - 1;
    y :| y in rest;
  }

  // ----- who enters the window -----

  /** The deletes of other handlers' program points: none. */
  lemma OutsideStays(req: Request, pc: Pc, a: Answer, c: Choice)
    requires !InWindow(pc) && !req.DeleteCredential? && !req.Me? && !req.ListCredentials?
    ensures !InWindow(Resume(req, pc, a, c))
  {
    hide AfterBegin, AfterRegister, AfterLogin, AfterPromote, AfterGuest, InWindow;
    match req {
      case BeginRegister(_, _) => BeginOutside(pc, req, a, c);
      case CompleteRegister(_, _) => RegisterOutside(pc, a, c);
      case BeginLogin => BeginOutside(pc, req, a, c);
      case CompleteLogin(_, _, _, _) => LoginOutside(pc, req, a, c);
      case Logout(_) => LogoutOutside();
      case Guest(_) => GuestOutside(pc, a);
      case BeginPromote(_, _, _) => BeginOutside(pc, req, a, c);
      case CompletePromote(_, _, _) => PromoteOutside(pc, req, a, c);
      case Malformed =>
    }
  }

  lemma BeginOutside(pc: Pc, req: Request, a: Answer, c: Choice)
    requires !InWindow(pc)
    ensures !InWindow(AfterBegin(pc, req, a, c))
  {
  }

  lemma RegisterOutside(pc: Pc, a: Answer, c: Choice)
    requires !InWindow(pc)
    ensures !InWindow(AfterRegister(pc, a, c))
  {
  }

  lemma LoginOutside(pc: Pc, req: Request, a: Answer, c: Choice)
    requires !InWindow(pc) && req.CompleteLogin?
    ensures !InWindow(AfterLogin(pc, req, a, c))
  {
  }

  lemma PromoteOutside(pc: Pc, req: Request, a: Answer, c: Choice)
    requires !InWindow(pc) && req.CompletePromote?
    ensures !InWindow(AfterPromote(pc, req, a, c))
  {
  }

  lemma GuestOutside(pc: Pc, a: Answer)
    requires !InWindow(pc)
    ensures !InWindow(AfterGuest(pc, a))
  {
  }

  lemma LogoutOutside()
    ensures forall r :: !InWindow(Answered(r))
  {
  }

  lemma AccountEntry(req: Request, pc: Pc, a: Answer)
    ensures var pc' := AfterAccount(pc, req, a);
            InWindow(pc') ==>
              && (pc.MarkRow? || (pc.CountLive? && a == Done) || pc' == pc)
              && pc'.row == pc.row && pc'.owner == pc.owner
  {
  }

  lemma CommitIsLeft(req: Request, row: Uuid, uid: Uuid, owner: Uuid, a: Answer)
    ensures !InWindow(AfterAccount(CommitRow(uid, row, owner), req, a))
  {
  }

  /** Only a count that answered Done lets a request into the window. */
  lemma WindowEntry(req: Request, pc: Pc, a: Answer, c: Choice)
    requires InWindow(pc) ==> req.DeleteCredential?
    ensures var pc' := Resume(req, pc, a, c);
            InWindow(pc') ==>
              && (pc.MarkRow? || (pc.CountLive? && a == Done))
              && pc'.row == pc.row && pc'.owner == pc.owner
  {
    if !req.DeleteCredential? && !req.Me? && !req.ListCredentials? {
      hide Resume;
      OutsideStays(req, pc, a, c);
    } else {
      hide AfterAccount;
      AccountEntry(req, pc, a);
      if pc.CommitRow? {
        CommitIsLeft(req, pc.row, pc.uid, pc.owner, a);
      }
    }
  }

  lemma CountPassed(d: Data, p: Pid, row: Uuid, owner: Uuid, c: Choice)
    requires Exec(d, p, InTx(Count(row, owner)), c).1 == Done
    ensures |LiveOf(d.rows, owner)| >= 2 && Exec(d, p, InTx(Count(row, owner)), c).0 == d
  {
  }

  lemma HeldRow(d: Data, log: seq<Fact>, p: Pid, req: Request, pc: Pc)
    requires Context(d, log, p, req, pc) && (InWindow(pc) || pc.CountLive?)
    ensures req.DeleteCredential? && Live(d.rows, pc.row) && d.rows[pc.row].userId == pc.owner
  {
  }

  lemma CommitsOnlyAt(req: Request, pc: Pc, c: Choice)
    ensures Plan(req, pc, c).InTx? && Plan(req, pc, c).t.Commit? ==> pc.CommitRow? && Plan(req, pc, c).t.row == pc.row
    ensures pc.CountLive? ==> Plan(req, pc, c) == InTx(Count(pc.row, pc.owner))
  {
  }

  lemma AdvanceFresh(s: State, p: Pid, c: Choice)
    requires Enabled(s, Advance(p, c))
    ensures p in s.procs && !s.procs[p].pc.Answered? && FreshId(s.data, c.uuid) && FreshString(s.log, c.token)
  {
  }

  lemma StartsOutside(req: Request)
    ensures !InWindow(Start(req))
  {
  }

  lemma ProvideGrows(us: Users, rows: Rows, id: Uuid, cred: Credential, now: nat)
    requires id !in rows
    ensures LiveGrows(rows, Tables.Insert(us, rows, id, cred, now).0)
  {
  }

  lemma RenameGrows(rows: Rows, row: Uuid, name: string)
    ensures LiveGrows(rows, Tables.Rename(rows, row, name).0)
  {
  }

  // ----- open deletes -----

  /** What is open is live, of that user, and locked. */
  lemma OpenIsLive(s: State, u: Uuid)
    requires Inv(s)
    ensures Open(s, u) <= LiveOf(s.data.rows, u)
  {
    hide StoreInv, Shape, At, Authority, Trace;
    forall p | p in s.procs && InWindow(s.procs[p].pc) && s.procs[p].pc.owner == u
      ensures s.procs[p].pc.row in LiveOf(s.data.rows, u)
    {
      assert ProcInv(s.data, s.log, p, s.procs[p]);
      HeldRow(s.data, s.log, p, s.procs[p].req, s.procs[p].pc);
    }
  }

  /** A request about to count holds a row no other delete has open. */
  lemma CountedIsNotOpen(s: State, p: Pid)
    requires Inv(s) && p in s.procs && s.procs[p].pc.CountLive?
    ensures s.procs[p].pc.row in LiveOf(s.data.rows, s.procs[p].pc.owner)
    ensures s.procs[p].pc.row !in Open(s, s.procs[p].pc.owner)
  {
    hide StoreInv, Shape, At, Authority, Trace;
    assert ProcInv(s.data, s.log, p, s.procs[p]);
    HeldRow(s.data, s.log, p, s.procs[p].req, s.procs[p].pc);
    LockHeld(s.data, s.log, p, s.procs[p].req, s.procs[p].pc);
    forall q | q in s.procs && InWindow(s.procs[q].pc) ensures s.procs[q].pc.row != s.procs[p].pc.row {
      assert ProcInv(s.data, s.log, q, s.procs[q]);
      LockHeld(s.data, s.log, q, s.procs[q].req, s.procs[q].pc);
    }
  }

  lemma LockHeld(d: Data, log: seq<Fact>, p: Pid, req: Request, pc: Pc)
    requires Context(d, log, p, req, pc) && (InWindow(pc) || pc.CountLive?)
    ensures HeldBy(d.locks, pc.row, p)
  {
  }

  /** A step opens at most the row of a count that passes. */
  lemma OpenAfter(s: State, p: Pid, c: Choice, u: Uuid)
    requires Inv(s) && Enabled(s, Advance(p, c))
    ensures var s', pc := Step(s, Advance(p, c)), s.procs[p].pc;
            if CountPasses(s, Advance(p, c), u)
            then Open(s', u) == Open(s, u) + {pc.row} && s'.data.rows == s.data.rows
            else Open(s', u) <= Open(s, u)
  {
    hide Exec, News, StoreInv, Shape, At, Resume, Enabled, Authority, Trace, Plan, LiveOf, Context;
    AdvanceFresh(s, p, c);
    SteppedTo(s, p, c);
    var pr := s.procs[p];
    var op := Plan(pr.req, pr.pc, c);
    var (d', a) := Exec(s.data, p, op, c);
    assert ProcInv(s.data, s.log, p, pr);
    CommitsOnlyAt(pr.req, pr.pc, c);
    if InWindow(pr.pc) || pr.pc.CountLive? {
      HeldRow(s.data, s.log, p, pr.req, pr.pc);
    }
    WindowEntry(pr.req, pr.pc, a, c);
    if pr.pc.CountLive? {
      CountDone(s.data, p, pr.pc.row, pr.pc.owner, c);
      AfterCount(pr.req, pr.pc, c);
    }
    assert forall q :: q in s.procs && q != p ==> Step(s, Advance(p, c)).procs[q] == s.procs[q];
    assert p in s.procs;
  }

  lemma CountDone(d: Data, p: Pid, row: Uuid, owner: Uuid, c: Choice)
    ensures var (d', a) := Exec(d, p, InTx(Count(row, owner)), c);
            d'.rows == d.rows && (a == Done <==> c.fault.NoFault? && |LiveOf(d.rows, owner)| > 1)
  {
    hide LiveOf;
  }

  lemma AfterCount(req: Request, pc: Pc, c: Choice)
    requires req.DeleteCredential? && pc.CountLive?
    ensures Resume(req, pc, Done, c) == MarkRow(pc.uid, pc.row, pc.owner)
  {
  }

  // ----- the guard, step by step -----

  /** Rows only grow and nothing opens. */
  lemma GrowthKeepsCovered(s: State, s': State, u: Uuid)
    requires Covered(s, u) && LiveGrows(s.data.rows, s'.data.rows)
    requires Open(s', u) <= Open(s, u) <= LiveOf(s.data.rows, u)
    ensures Covered(s', u)
  {
    hide Open;
    var rows, rows' := s.data.rows, s'.data.rows;
    if HasRow(rows', u) {
      var r :| r in rows' && rows'[r].userId == u;
      if r in rows {
        var l :| l in LiveOf(rows, u) && l !in Open(s, u);
        assert Live(rows, l) && l in LiveOf(rows', u) && l !in Open(s', u);
      } else {
        assert Live(rows', r) && r in LiveOf(rows', u) && r !in Open(s', u);
      }
    }
  }

  /** A count that passes leaves its user a row to spare exactly when it is safe. */
  lemma CountSpares(s: State, p: Pid, c: Choice, u: Uuid)
    requires Inv(s) && Enabled(s, Advance(p, c)) && CountPasses(s, Advance(p, c), u)
    ensures Spared(Step(s, Advance(p, c)), u) <==> SafeCount(s, Advance(p, c), u)
  {
    var s', row := Step(s, Advance(p, c)), s.procs[p].pc.row;
    OpenAfter(s, p, c, u);
    OpenIsLive(s, u);
    CountedIsNotOpen(s, p);
    hide Inv, Enabled, Step, Open, LiveOf;
    SpareLeft(LiveOf(s.data.rows, u), Open(s, u) + {row});
    assert |Open(s, u) + {row}| == |Open(s, u)| + 1;
  }

  lemma SpareLeft(live: set<Uuid>, taken: set<Uuid>)
    requires taken <= live
    ensures (exists r :: r in live && r !in taken) <==> |live| > |taken|
  {
    var rest := live - taken;
    assert live == taken + rest && |live| == |taken| + |rest|;
    if |rest| > 0 {
      var r :| r in rest;
      assert r in live && r !in taken;
    }
  }

  /** A delete takes a row that was open, so it spares what was to spare. */
  lemma BuryKeepsCovered(s: State, s': State, row: Uuid, u: Uuid)
    requires Covered(s, u) && Live(s.data.rows, row) && row in Open(s, s.data.rows[row].userId)
    requires s'.data.rows == Bury(s.data.rows, row, s.data.now) && Open(s', u) <= Open(s, u)
    ensures Covered(s', u)
  {
    hide Open;
    var rows, rows' := s.data.rows, s'.data.rows;
    if HasRow(rows', u) {
      var r :| r in rows' && rows'[r].userId == u;
      assert r in rows && rows[r].userId == u;
      var l :| l in LiveOf(rows, u) && l !in Open(s, u);
      assert l in LiveOf(rows', u) && l !in Open(s', u);
    }
  }

  lemma AdvanceKeepsCovered(s: State, p: Pid, c: Choice, u: Uuid)
    requires Inv(s) && Enabled(s, Advance(p, c)) && SafeCount(s, Advance(p, c), u) && Covered(s, u)
    ensures Covered(Step(s, Advance(p, c)), u)
  {
    hide Exec, News, StoreInv, Shape, At, Resume, Enabled, Authority, Trace, Context, Plan, Spared, HasRow;
    hide LiveGrows, Bury, Live, Open, LiveOf;
    AdvanceFresh(s, p, c);
    SteppedTo(s, p, c);
    var pr, s' := s.procs[p], Step(s, Advance(p, c));
    OpenIsLive(s, u);
    OpenAfter(s, p, c, u);
    if CountPasses(s, Advance(p, c), u) {
      CountSpares(s, p, c, u);
    } else {
      StepRows(s.data, p, Plan(pr.req, pr.pc, c), c);
      CommitsOnlyAt(pr.req, pr.pc, c);
      if LiveGrows(s.data.rows, s'.data.rows) {
        GrowthKeepsCovered(s, s', u);
      } else {
        CommitterIsOpen(s, p);
        BuryKeepsCovered(s, s', pr.pc.row, u);
      }
    }
  }

  lemma CommitterIsOpen(s: State, p: Pid)
    requires Inv(s) && p in s.procs && s.procs[p].pc.CommitRow?
    ensures var pc := s.procs[p].pc;
            Live(s.data.rows, pc.row) && s.data.rows[pc.row].userId == pc.owner && pc.row in Open(s, pc.owner)
  {
    hide StoreInv, Shape, At, Authority, Trace, Context;
    assert ProcInv(s.data, s.log, p, s.procs[p]);
    HeldRow(s.data, s.log, p, s.procs[p].req, s.procs[p].pc);
  }

  lemma QuietKeepsCovered(s: State, e: Event, u: Uuid)
    requires Inv(s) && !e.Advance? && Enabled(s, e) && Covered(s, u)
    ensures Covered(Step(s, e), u)
  {
    hide Inv, Covered, LiveGrows;
    LiveStays(s.data.rows);
    match e {
      case Arrive(p, req) => StartsOutside(req);
      case Tick(_) =>
      case Provide(cred, id) => ProvideGrows(s.data.users, s.data.rows, id, cred, s.data.now);
      case Relabel(row, name) => RenameGrows(s.data.rows, row, name);
    }
    OpenIsLive(s, u);
    GrowthKeepsCovered(s, Step(s, e), u);
  }

  lemma StepKeepsCovered(s: State, e: Event, u: Uuid)
    requires Inv(s) && Enabled(s, e) && SafeCount(s, e, u) && Covered(s, u)
    ensures Covered(Step(s, e), u)
  {
    hide Inv, Covered, Step, Enabled, SafeCount;
    if e.Advance? {
      AdvanceKeepsCovered(s, e.p, e.c, u);
    } else {
      QuietKeepsCovered(s, e, u);
    }
  }

  // ----- the guard over runs -----

  /** As long as the counts for u are safe, u, once the owner of a row, always has one to spare. */
  lemma {:induction false} GuardHolds(cfg: Config, es: seq<Event>, k: nat, u: Uuid)
    requires Legal(cfg, es) && SafeCounts(cfg, es, u) && k <= |es|
    ensures Covered(Run(cfg, es[..k]), u)
  {
    hide Step, Enabled, SafeCount, Inv, Covered;
    if k == 0 {
      NothingToSpare(cfg, u);
    } else {
      GuardHolds(cfg, es, k - 1, u);
      LegalPrefix(cfg, es, k);
      LegalPrefix(cfg, es, k - 1);
      assert es[..k][..k - 1] == es[..k - 1];
      Sound(cfg, es[..k - 1]);
      StepKeepsCovered(Run(cfg, es[..k - 1]), es[k - 1], u);
    }
  }

  lemma NothingToSpare(cfg: Config, u: Uuid)
    ensures Covered(Init(cfg), u)
  {
  }

  /** An unsafe count for u is where u has nothing left to spare. */
  lemma UnsafeCount(cfg: Config, es: seq<Event>, k: nat, u: Uuid)
    requires Legal(cfg, es) && k < |es| && !SafeCount(Run(cfg, es[..k]), es[k], u)
    ensures !Covered(Run(cfg, es[..k + 1]), u)
  {
    hide Run, Legal, Step, Enabled, Inv, Spared, Open, LiveOf;
    var s := Run(cfg, es[..k]);
    AdvancedWasThere(cfg, es, k);
    LegalPrefix(cfg, es, k);
    Sound(cfg, es[..k]);
    CountSpares(s, es[k].p, es[k].c, u);
    OpenAfter(s, es[k].p, es[k].c, u);
    CountedIsNotOpen(s, es[k].p);
    RunStep(cfg, es, k);
    OwnsRow(s.data.rows, s.procs[es[k].p].pc.row, u);
  }

  lemma OwnsRow(rows: Rows, row: Uuid, u: Uuid)
    requires row in LiveOf(rows, u)
    ensures HasRow(rows, u)
  {
    assert row in rows && rows[row].userId == u;
  }

  /**
   * Exactly, for each user: at every moment u, if the owner of a row, has a live row that no delete is
   * about to take, iff every count for u is safe.
   */
  lemma SparedExactly(cfg: Config, es: seq<Event>, u: Uuid)
    requires Legal(cfg, es)
    ensures AlwaysCovered(cfg, es, u) <==> SafeCounts(cfg, es, u)
  {
    hide Run, Legal, Covered, SafeCount;
    if SafeCounts(cfg, es, u) {
      forall k | 0 <= k <= |es| ensures Covered(Run(cfg, es[..k]), u) {
        GuardHolds(cfg, es, k, u);
      }
    } else {
      var k :| 0 <= k < |es| && !SafeCount(Run(cfg, es[..k]), es[k], u);
      UnsafeCount(cfg, es, k, u);
    }
  }

  /** Deletes of u's rows that do not overlap between count and commit count safely. */
  lemma SerialisedIsSafe(cfg: Config, es: seq<Event>, u: Uuid)
    requires Serialised(cfg, es, u)
    ensures SafeCounts(cfg, es, u)
  {
    hide Run;
    forall k | 0 <= k < |es| ensures SafeCount(Run(cfg, es[..k]), es[k], u) {
      SerialIsSafe(Run(cfg, es[..k]), es[k], u);
    }
  }

  lemma SerialIsSafe(s: State, e: Event, u: Uuid)
    requires Serial(s, e, u)
    ensures SafeCount(s, e, u)
  {
    hide LiveOf;
    if CountPasses(s, e, u) {
      assert Open(s, u) == {};
    }
  }

  /** A user who once has a live credential always keeps one, as long as every count for that user is safe. */
  lemma LastCredentialKept(cfg: Config, es: seq<Event>, k: nat, u: Uuid)
    requires Legal(cfg, es) && SafeCounts(cfg, es, u) && k <= |es|
    requires HasLive(Run(cfg, es[..k]).data.rows, u)
    ensures HasLive(Run(cfg, es).data.rows, u)
  {
    hide Run, Legal, SafeCounts, Open, Spared;
    assert es[..|es|] == es;
    GuardHolds(cfg, es, |es|, u);
    RunEvolves(cfg, es, k);
    var r :| Live(Run(cfg, es[..k]).data.rows, r) && Run(cfg, es[..k]).data.rows[r].userId == u;
    assert r in Run(cfg, es).data.rows && Run(cfg, es).data.rows[r].userId == u;
    SparedHasLive(Run(cfg, es), u);
  }

  lemma SparedHasLive(s: State, u: Uuid)
    requires Spared(s, u)
    ensures HasLive(s.data.rows, u)
  {
    hide Open;
    var r :| r in LiveOf(s.data.rows, u) && r !in Open(s, u);
    assert Live(s.data.rows, r);
  }

  /** In particular when that user's deletes do not overlap. */
  lemma SerialisedKeepsLast(cfg: Config, es: seq<Event>, k: nat, u: Uuid)
    requires Legal(cfg, es) && Serialised(cfg, es, u) && k <= |es|
    requires HasLive(Run(cfg, es[..k]).data.rows, u)
    ensures HasLive(Run(cfg, es).data.rows, u)
  {
    hide Run, Legal, Serialised, SafeCounts;
    SerialisedIsSafe(cfg, es, u);
    LastCredentialKept(cfg, es, k, u);
  }

  /**
   * As long as the counts for u are safe, each session token of u, stored or already read by a request
   * in flight, belongs to an existing registered user with a live credential.
   */
  lemma SessionsAreBacked(cfg: Config, es: seq<Event>, u: Uuid)
    requires Legal(cfg, es) && SafeCounts(cfg, es, u)
    ensures var s := Run(cfg, es);
            && (forall t :: t in s.data.sessions && s.data.sessions[t].value == u ==> MintedFor(s.log, t, u))
            && (forall t :: MintedFor(s.log, t, u) ==> Registered(s.data.users, u) && HasLive(s.data.rows, u))
  {
    hide Run, Legal, SafeCounts, UsersInv, Spared;
    assert es[..|es|] == es;
    GuardHolds(cfg, es, |es|, u);
    Sound(cfg, es);
    var s := Run(cfg, es);
    forall t | MintedFor(s.log, t, u) ensures Registered(s.data.users, u) && HasLive(s.data.rows, u) {
      SessionUser(s.data, s.log, t, u);
      SparedHasLive(s, u);
    }
  }
}

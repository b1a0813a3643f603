/** The invariant holds in every reachable state. */
module Soundness {
  import opened Domain
  import opened Tables
  import opened Service
  import opened History
  import opened Invariant
  import opened StoreSteps
  import opened Progress
  import opened Contexts
  import Calls

  // ----- a request's point and trace supply what its next store call relies on -----

  lemma TraceFacts(log: seq<Fact>, p: Pid, i: nat)
    requires i < |Trace(log, p)|
    ensures Trace(log, p)[i] in log && By(Trace(log, p)[i], p)
  {
    TraceMember(log, p, Trace(log, p)[i]);
  }

  lemma RowGivesUser(rows: Rows, log: seq<Fact>, f: Fact)
    requires RowsLogged(rows, log) && f in log && (f.Inserted? || f.Asserted?)
    ensures HasRow(rows, f.uid)
  {
    assert f.row in rows && rows[f.row].userId == f.uid;
  }

  lemma RegisterOpOk(d: Data, log: seq<Fact>, p: Pid, req: Request, pc: Pc, c: Choice, tr: seq<Fact>, torn: bool)
    requires req.CompleteRegister? && UsersLogged(d.users, log)
    requires ShapeRegister(req.sid, tr) && AtRegister(req.sid, pc, tr, torn)
    requires forall i :: 0 <= i < |tr| ==> tr[i] in log
    ensures OpOk(d, log, p, Plan(req, pc, c))
  {
    if |tr| >= 2 {
      assert tr[1] in log;
    }
  }

  lemma LoginOpOk(d: Data, log: seq<Fact>, p: Pid, req: Request, pc: Pc, c: Choice, tr: seq<Fact>, torn: bool)
    requires req.CompleteLogin? && RowsLogged(d.rows, log)
    requires ShapeLogin(req.sid, req.rawId, tr) && AtLogin(req.sid, req.rawId, pc, tr, torn)
    requires forall i :: 0 <= i < |tr| ==> tr[i] in log
    ensures OpOk(d, log, p, Plan(req, pc, c))
  {
    if |tr| >= 2 {
      RowGivesUser(d.rows, log, tr[1]);
    }
  }

  lemma PromoteOpOk(d: Data, log: seq<Fact>, p: Pid, req: Request, pc: Pc, c: Choice, tr: seq<Fact>, torn: bool)
    requires req.CompletePromote? && UsersLogged(d.users, log) && RowsLogged(d.rows, log)
    requires ShapePromote(req.sid, tr) && AtPromote(req.sid, pc, tr, torn)
    requires forall i :: 0 <= i < |tr| ==> tr[i] in log
    ensures OpOk(d, log, p, Plan(req, pc, c))
  {
    if |tr| >= 2 {
      assert tr[1] in log;
    }
    if |tr| >= 3 {
      RowGivesUser(d.rows, log, tr[2]);
    }
  }

  lemma GuestOpOk(d: Data, log: seq<Fact>, p: Pid, req: Request, pc: Pc, c: Choice, tr: seq<Fact>, torn: bool)
    requires req.Guest?
    requires ShapeGuest(tr) && AtGuest(pc, tr, torn)
    requires forall i :: 0 <= i < |tr| ==> tr[i] in log
    ensures OpOk(d, log, p, Plan(req, pc, c))
  {
    if |tr| >= 1 {
      assert tr[0] in log;
    }
  }

  lemma DeleteOpOk(d: Data, log: seq<Fact>, p: Pid, req: Request, pc: Pc, c: Choice, tr: seq<Fact>, torn: bool)
    requires req.DeleteCredential?
    requires AtDelete(pc, tr, torn) && Context(d, log, p, req, pc)
    ensures OpOk(d, log, p, Plan(req, pc, c))
  {
  }

  lemma BeginOpOk(d: Data, log: seq<Fact>, p: Pid, req: Request, pc: Pc, c: Choice, tr: seq<Fact>, torn: bool)
    requires req.BeginRegister? || req.BeginLogin? || req.BeginPromote?
    requires ShapeBegin(req, tr) && AtBegin(req, pc, tr, torn)
    ensures OpOk(d, log, p, Plan(req, pc, c))
  {
  }

  lemma ReadOpOk(d: Data, log: seq<Fact>, p: Pid, req: Request, pc: Pc, c: Choice)
    requires AtRead(req, pc)
    ensures OpOk(d, log, p, Plan(req, pc, c))
  {
  }

  lemma RequestOpOk(d: Data, log: seq<Fact>, p: Pid, pr: Process, c: Choice)
    requires StoreInv(d, log) && ProcInv(d, log, p, pr)
    ensures OpOk(d, log, p, Plan(pr.req, pr.pc, c))
  {
    hide OpOk, AtBegin, AtRegister, AtLogin, AtPromote, AtGuest, AtDelete, AtRead;
    hide ShapeBegin, ShapeRegister, ShapeLogin, ShapePromote, ShapeGuest, ShapeDelete;
    hide Plan, Context, UsersTable, UsersLogged, UsersExplained, RowsTable, RowsLogged, RowsExplained;
    var tr := Trace(log, p);
    forall i | 0 <= i < |tr| ensures tr[i] in log {
      TraceFacts(log, p, i);
    }
    match pr.req {
      case BeginRegister(_, _) => BeginOpOk(d, log, p, pr.req, pr.pc, c, tr, pr.torn);
      case BeginLogin => BeginOpOk(d, log, p, pr.req, pr.pc, c, tr, pr.torn);
      case BeginPromote(_, _, _) => BeginOpOk(d, log, p, pr.req, pr.pc, c, tr, pr.torn);
      case CompleteRegister(_, _) => RegisterOpOk(d, log, p, pr.req, pr.pc, c, tr, pr.torn);
      case CompleteLogin(_, _, _, _) => LoginOpOk(d, log, p, pr.req, pr.pc, c, tr, pr.torn);
      case CompletePromote(_, _, _) => PromoteOpOk(d, log, p, pr.req, pr.pc, c, tr, pr.torn);
      case Guest(_) => GuestOpOk(d, log, p, pr.req, pr.pc, c, tr, pr.torn);
      case DeleteCredential(_, _) => DeleteOpOk(d, log, p, pr.req, pr.pc, c, tr, pr.torn);
      case Logout(_) => ReadOpOk(d, log, p, pr.req, pr.pc, c);
      case Me(_) => ReadOpOk(d, log, p, pr.req, pr.pc, c);
      case ListCredentials(_) => ReadOpOk(d, log, p, pr.req, pr.pc, c);
      case Malformed => ReadOpOk(d, log, p, pr.req, pr.pc, c);
    }
  }

  // ----- the stores after a step -----

  lemma FactsKeepUnrepeated(log: seq<Fact>, fs: seq<Fact>)
    requires Unrepeated(log) && |fs| <= 1 && forall f :: f in fs ==> FreshKey(log, f)
    ensures Unrepeated(log + fs)
  {
    if fs == [] {
      assert log + fs == log;
    } else {
      assert fs[0] in fs && fs == [fs[0]];
      UnrepeatedSnoc(log, fs[0]);
    }
  }

  lemma UserOpKeepsStores(d: Data, log: seq<Fact>, p: Pid, op: UserOp, c: Choice)
    requires StoreInv(d, log) && FreshId(d, c.uuid)
    ensures var (us, a) := ApplyUsers(d.users, op, c, d.now);
            StoreInv(d.(users := us), log + NoteUsers(p, op, a))
  {
    hide UsersTable, UsersLogged, UsersExplained, RowsTable, RowsLogged, RowsExplained, TokensStored, TokensLogged;
    hide ChallengesInv;
    hide Unrepeated, ApplyUsers, UsersEvolve, RowsEvolve, FreshKey;
    var (us, a) := ApplyUsers(d.users, op, c, d.now);
    var fs := NoteUsers(p, op, a);
    UserOpsKeepUsers(d.users, log, p, op, c, d.now);
    UserFactsFresh(d.users, log, p, op, c, d.now);
    FactsKeepUnrepeated(log, fs);
    UserOpsEvolve(d.users, op, c, d.now);
    SameRows(d.rows);
    if fs == [] {
      assert log + fs == log;
      RowsFrame(d.users, us, d.rows, log, Born(p, 0, true, ""));
      TokensFrame(d, d.(users := us), log, Born(p, 0, true, ""));
    } else {
      assert fs == [fs[0]];
      RowsFrame(d.users, us, d.rows, log, fs[0]);
      TokensFrame(d, d.(users := us), log, fs[0]);
      ChallengesFrame(d.challenges, log, fs[0]);
    }
  }

  lemma SameRows(rows: Rows)
    ensures RowsEvolve(rows, rows)
  {
  }

  lemma SameUsers(us: Users)
    ensures UsersEvolve(us, us)
  {
  }

  /** A fact about rows leaves users, tokens and challenges as they are explained. */
  lemma RowFactKeepsRest(d: Data, rows: Rows, log: seq<Fact>, fs: seq<Fact>)
    requires StoreInv(d, log) && RowsEvolve(d.rows, rows)
    requires |fs| <= 1 && forall f :: f in fs ==> f.Inserted? || f.Provided? || f.Asserted? || f.Deleted?
    ensures UsersInv(d.users, log + fs)
    ensures TokensStored(d, log + fs) && TokensLogged(rows, log + fs)
    ensures ChallengesInv(d.challenges, log + fs)
  {
    hide UsersTable, UsersLogged, UsersExplained, RowsTable, RowsLogged, RowsExplained, TokensStored, TokensLogged;
    hide ChallengesInv;
    hide Unrepeated, RowsEvolve;
    var d' := d.(rows := rows);
    if fs == [] {
      assert log + fs == log;
      TokensFrame(d, d', log, Provided(0, 0, []));
      TokensSame(d', d, log);
    } else {
      assert fs[0] in fs && fs == [fs[0]];
      UsersFrame(d.users, log, fs[0]);
      TokensFrame(d, d', log, fs[0]);
      TokensSame(d', d, log + fs);
      ChallengesFrame(d.challenges, log, fs[0]);
    }
  }

  lemma TokensSame(d: Data, d': Data, log: seq<Fact>)
    requires TokensStored(d, log) && d'.sessions == d.sessions && d'.guests == d.guests
    ensures TokensStored(d', log)
  {
  }

  lemma RowOpKeepsStores(d: Data, log: seq<Fact>, p: Pid, op: RowOp, c: Choice)
    requires StoreInv(d, log) && FreshId(d, c.uuid)
    requires op.Insert? ==> Registered(d.users, op.cred.userId)
    ensures var (rows, a) := ApplyRows(d.users, d.rows, op, c, d.now);
            StoreInv(d.(rows := rows), log + NoteRows(d.rows, p, op, a))
  {
    hide UsersTable, UsersLogged, UsersExplained, RowsTable, RowsLogged, RowsExplained, TokensStored, TokensLogged;
    hide ChallengesInv;
    hide Unrepeated, ApplyRows, RowsEvolve, FreshKey;
    var (rows, a) := ApplyRows(d.users, d.rows, op, c, d.now);
    var fs := NoteRows(d.rows, p, op, a);
    RowOpsKeepRows(d.users, d.rows, log, p, op, c, d.now);
    RowFactsFresh(d.users, d.rows, log, p, op, c, d.now);
    FactsKeepUnrepeated(log, fs);
    RowOpsEvolve(d.users, d.rows, op, c, d.now);
    RowFactKeepsRest(d, rows, log, fs);
    TokensSame(d, d.(rows := rows), log + fs);
  }

  lemma CommitKeepsStores(d: Data, log: seq<Fact>, p: Pid, row: Uuid)
    requires StoreInv(d, log) && Live(d.rows, row)
    ensures StoreInv(d.(rows := Bury(d.rows, row, d.now)), log + [Deleted(p, row, d.rows[row].userId)])
  {
    hide UsersTable, UsersLogged, UsersExplained, RowsTable, RowsLogged, RowsExplained, TokensStored, TokensLogged;
    hide ChallengesInv;
    hide Unrepeated, RowsEvolve, FreshKey;
    var f := Deleted(p, row, d.rows[row].userId);
    DeathKeepsRows(d.users, d.rows, log, p, row, d.now);
    DeathFresh(d.rows, log, p, row, d.rows[row].userId);
    UnrepeatedSnoc(log, f);
    BuryEvolves(d.rows, row, d.now);
    RowFactKeepsRest(d, Bury(d.rows, row, d.now), log, [f]);
    TokensSame(d, d.(rows := Bury(d.rows, row, d.now)), log + [f]);
  }

  lemma BuryEvolves(rows: Rows, row: Uuid, now: nat)
    ensures RowsEvolve(rows, Bury(rows, row, now))
  {
  }

  lemma KeyOpKeepsStores(d: Data, log: seq<Fact>, p: Pid, op: KeyOp, c: Choice)
    requires StoreInv(d, log) && FreshString(log, c.token)
    requires op.CreateSession? ==> HasRow(d.rows, op.uid)
    requires op.CreateGuestToken? ==> HasBirth(log, op.uid, true)
    ensures StoreInv(ApplyKeys(d, op, c).0, log + NoteKeys(p, op, ApplyKeys(d, op, c).1, c))
  {
    hide UsersTable, UsersLogged, UsersExplained, RowsTable, RowsLogged, RowsExplained, TokensStored, TokensLogged;
    hide ChallengesInv;
    hide Unrepeated, ApplyKeys, FreshKey, UsersEvolve;
    var (d', a) := ApplyKeys(d, op, c);
    var fs := NoteKeys(p, op, a, c);
    KeyOpsKeepKeys(d, log, p, op, c);
    KeyFactsFresh(d, log, p, op, c);
    FactsKeepUnrepeated(log, fs);
    KeyOpsKeepTables(d, op, c);
    if fs == [] {
      assert log + fs == log;
    } else {
      assert fs == [fs[0]];
      UsersFrame(d.users, log, fs[0]);
      SameUsers(d.users);
      RowsFrame(d.users, d.users, d.rows, log, fs[0]);
    }
  }

  lemma SameTables(d: Data, d': Data, log: seq<Fact>)
    requires StoreInv(d, log)
    requires d'.users == d.users && d'.rows == d.rows && d'.sessions == d.sessions && d'.guests == d.guests
               && d'.challenges == d.challenges
    ensures StoreInv(d', log)
  {
  }

  lemma TxKeepsStores(d: Data, log: seq<Fact>, p: Pid, op: TxOp, c: Choice)
    requires StoreInv(d, log) && (op.Commit? ==> Live(d.rows, op.row))
    ensures StoreInv(ApplyTx(d, p, op).0, log + Note(d, p, InTx(op), ApplyTx(d, p, op).1, c))
  {
    hide StoreInv;
    if op.Commit? {
      CommitKeepsStores(d, log, p, op.row);
      SameTables(d.(rows := Bury(d.rows, op.row, d.now)), ApplyTx(d, p, op).0,
          log + [Deleted(p, op.row, d.rows[op.row].userId)]);
    } else {
      assert log + [] == log;
      SameTables(d, ApplyTx(d, p, op).0, log);
    }
  }

  lemma ApplyKeepsStores(d: Data, log: seq<Fact>, p: Pid, op: Op, c: Choice)
    requires StoreInv(d, log) && OpOk(d, log, p, op)
    requires FreshId(d, c.uuid) && FreshString(log, c.token)
    ensures StoreInv(Apply(d, p, op, c).0, log + Note(d, p, op, Apply(d, p, op, c).1, c))
  {
    hide StoreInv, ApplyUsers, ApplyRows, ApplyTx, ApplyKeys, NoteUsers, NoteRows, NoteKeys;
    assert log + [] == log;
    match op {
      case Skip =>
      case OnUsers(u) => UserOpKeepsStores(d, log, p, u, c);
      case OnRows(r) => RowOpKeepsStores(d, log, p, r, c);
      case InTx(t) =>
        TxKeepsStores(d, log, p, t, c);
      case OnKeys(k) => KeyOpKeepsStores(d, log, p, k, c);
    }
  }

  lemma ExecKeepsStores(d: Data, log: seq<Fact>, p: Pid, op: Op, c: Choice)
    requires StoreInv(d, log) && OpOk(d, log, p, op)
    requires FreshId(d, c.uuid) && FreshString(log, c.token)
    ensures StoreInv(Exec(d, p, op, c).0, log + News(d, p, op, c))
  {
    hide StoreInv, Apply, Note;
    assert log + [] == log;
    ApplyKeepsStores(d, log, p, op, c);
    var d' := Apply(d, p, op, c).0;
    match c.fault {
      case NoFault =>
      case Lost => SameTables(d, Release(d, p), log);
      case Ambiguous => SameTables(d', Release(d', p), log + News(d, p, op, c));
    }
  }

  // ----- the request itself, and the others -----

  lemma NextContext(d: Data, log: seq<Fact>, p: Pid, pr: Process, c: Choice)
    requires StoreInv(d, log) && ProcInv(d, log, p, pr) && !pr.pc.Answered?
    requires pr.pc.ListPasskeys? || pr.pc.FindPasskey? ==> IsListing(c.list, d.rows, pr.pc.uid)
    ensures ContextAfter(d, log, p, pr.req, pr.pc, c)
  {
    hide ContextAfter, Context, AtBegin, AtRegister, AtLogin, AtPromote, AtGuest, AtDelete, AtRead;
    hide ShapeBegin, ShapeRegister, ShapeLogin, ShapePromote, ShapeGuest, ShapeDelete, IsListing;
    hide UsersTable, UsersLogged, UsersExplained, RowsTable, RowsLogged, RowsExplained;
    var req, pc, tr := pr.req, pr.pc, Trace(log, p);
    match req {
      case BeginRegister(_, _) => BeginNext(d, log, p, req, pc, c, tr, pr.torn);
      case BeginLogin => BeginNext(d, log, p, req, pc, c, tr, pr.torn);
      case BeginPromote(_, _, _) => BeginNext(d, log, p, req, pc, c, tr, pr.torn);
      case CompleteRegister(_, _) => RegisterNext(d, log, p, req, pc, c, tr, pr.torn);
      case CompleteLogin(_, _, _, _) => LoginNext(d, log, p, req, pc, c, tr, pr.torn);
      case CompletePromote(_, _, _) => PromoteNext(d, log, p, req, pc, c, tr, pr.torn);
      case Guest(_) => GuestNext(d, log, p, req, pc, c, tr, pr.torn);
      case DeleteCredential(_, _) => DeleteNext(d, log, p, req, pc, c, tr, pr.torn);
      case Logout(_) => ReadNext(d, log, p, req, pc, c);
      case Me(_) => ReadNext(d, log, p, req, pc, c);
      case ListCredentials(_) => ReadNext(d, log, p, req, pc, c);
      case Malformed => ReadNext(d, log, p, req, pc, c);
    }
  }

  lemma PromotionAuthority(d: Data, log: seq<Fact>, p: Pid, req: Request, pc: Pc, c: Choice, a: Answer,
          fs: seq<Fact>, tr: seq<Fact>, torn: bool)
    requires req.BeginPromote? && !pc.Answered?
    requires ShapeBegin(req, tr) && AtBegin(req, pc, tr, torn) && Context(d, log, p, req, pc)
    requires Outcome(d.rows, p, Plan(req, pc, c), c, a, fs)
    requires ShapeBegin(req, tr + fs)
    ensures Authority(log + fs, req, tr + fs)
  {
    assert tr + fs == fs;
    TokensGrowBy(log, fs);
  }

  lemma DeletionAuthority(d: Data, log: seq<Fact>, p: Pid, req: Request, pc: Pc, c: Choice, a: Answer, fs: seq<Fact>,
          tr: seq<Fact>, torn: bool)
    requires req.DeleteCredential? && !pc.Answered?
    requires AtDelete(pc, tr, torn) && Context(d, log, p, req, pc)
    requires Outcome(d.rows, p, Plan(req, pc, c), c, a, fs)
    requires ShapeDelete(req.row, tr + fs)
    ensures Authority(log + fs, req, tr + fs)
  {
    assert tr + fs == fs;
    TokensGrowBy(log, fs);
  }

  lemma TokensGrowBy(log: seq<Fact>, fs: seq<Fact>)
    ensures forall t, u :: MintedFor(log, t, u) ==> MintedFor(log + fs, t, u)
    ensures forall t, u :: GuestMintedFor(log, t, u) ==> GuestMintedFor(log + fs, t, u)
  {
  }

  lemma NextAuthority(d: Data, log: seq<Fact>, p: Pid, pr: Process, c: Choice, a: Answer, fs: seq<Fact>)
    requires ProcInv(d, log, p, pr) && !pr.pc.Answered?
    requires Outcome(d.rows, p, Plan(pr.req, pr.pc, c), c, a, fs)
    requires Shape(pr.req, Trace(log, p) + fs)
    ensures Authority(log + fs, pr.req, Trace(log, p) + fs)
  {
    hide Outcome, Plan, AtBegin, AtRegister, AtLogin, AtPromote, AtGuest, AtDelete, AtRead;
    hide ShapeBegin, ShapeRegister, ShapeLogin, ShapePromote, ShapeGuest, ShapeDelete, Context;
    var tr := Trace(log, p);
    if pr.req.BeginPromote? {
      PromotionAuthority(d, log, p, pr.req, pr.pc, c, a, fs, tr, pr.torn);
    } else if pr.req.DeleteCredential? {
      DeletionAuthority(d, log, p, pr.req, pr.pc, c, a, fs, tr, pr.torn);
    }
  }

  // ----- one step of the machine -----

  lemma NewsIsOwn(d: Data, p: Pid, op: Op, c: Choice)
    ensures |News(d, p, op, c)| <= 1
    ensures forall f :: f in News(d, p, op, c) ==> By(f, p)
  {
    hide ApplyUsers, ApplyRows, ApplyTx, ApplyKeys;
  }

  lemma TraceAppend(log: seq<Fact>, fs: seq<Fact>, p: Pid, q: Pid)
    requires |fs| <= 1 && forall f :: f in fs ==> By(f, p)
    ensures Trace(log + fs, q) == Trace(log, q) + (if p == q then fs else [])
  {
    if fs == [] {
      assert log + fs == log;
    } else {
      assert fs[0] in fs && fs == [fs[0]];
      TraceSnoc(log, fs[0], q);
    }
  }

  lemma LocalsFromContext(d: Data, log: seq<Fact>, p: Pid, req: Request, pc: Pc)
    requires Context(d, log, p, req, pc)
    ensures LocalsOk(d.rows, req, pc)
  {
  }

  /** The request that takes the step. */
  lemma OwnStep(s: State, p: Pid, c: Choice)
    requires Inv(s) && Enabled(s, Advance(p, c))
    ensures var s' := Step(s, Advance(p, c)); ProcInv(s'.data, s'.log, p, s'.procs[p])
  {
    hide Exec, News, Plan, Outcome, StoreInv, Shape, At, Context, Authority, Resume, LocalsOk;
    hide Trace, FreshString, FreshId, Blocked, IsListing, UsersTable;
    var pr := s.procs[p];
    var op := Plan(pr.req, pr.pc, c);
    var fs := News(s.data, p, op, c);
    var a := Exec(s.data, p, op, c).1;
    var tr := Trace(s.log, p);
    assert ProcInv(s.data, s.log, p, pr);
    NewsIsOwn(s.data, p, op, c);
    TraceAppend(s.log, fs, p, p);
    UsersTableOf(s.data, s.log);
    Outcomes(s.data, p, op, c);
    LocalsFromContext(s.data, s.log, p, pr.req, pr.pc);
    RequestAdvances(s.data.rows, p, pr.req, pr.pc, c, a, fs, tr, pr.torn);
    ListingFor(s, p, c);
    NextContext(s.data, s.log, p, pr, c);
    NextAuthority(s.data, s.log, p, pr, c, a, fs);
  }

  lemma UsersTableOf(d: Data, log: seq<Fact>)
    requires StoreInv(d, log)
    ensures UsersTable(d.users)
  {
  }

  lemma ListingFor(s: State, p: Pid, c: Choice)
    requires Enabled(s, Advance(p, c))
    ensures s.procs[p].pc.ListPasskeys? || s.procs[p].pc.FindPasskey? ==>
              IsListing(c.list, s.data.rows, s.procs[p].pc.uid)
  {
    hide IsListing;
  }

  /** Every other request. */
  lemma OthersKept(s: State, d: Data, fs: seq<Fact>, p: Pid, q: Pid)
    requires Inv(s) && q in s.procs && p != q
    requires Evolves(s.data, d, p)
    requires |fs| <= 1 && forall f :: f in fs ==> By(f, p) || f.Provided?
    ensures ProcInv(d, s.log + fs, q, s.procs[q])
  {
    hide StoreInv, Shape, At, Context, Evolves;
    var pr := s.procs[q];
    assert ProcInv(s.data, s.log, q, pr);
    if fs == [] {
      assert s.log + fs == s.log;
    } else {
      assert fs[0] in fs && fs == [fs[0]];
      TraceSnoc(s.log, fs[0], q);
      assert Trace(s.log, q) + [] == Trace(s.log, q);
    }
    ContextKept(s.data, d, s.log, fs, p, q, pr.req, pr.pc);
    TokensGrowBy(s.log, fs);
  }

  lemma AdvanceKeepsInv(s: State, p: Pid, c: Choice)
    requires Inv(s) && Enabled(s, Advance(p, c))
    ensures Inv(Step(s, Advance(p, c)))
  {
    hide Exec, News, Plan, StoreInv, ProcInv, OpOk, Evolves, FreshString, FreshId, Blocked;
    var pr := s.procs[p];
    var op := Plan(pr.req, pr.pc, c);
    var s' := Step(s, Advance(p, c));
    var fs := News(s.data, p, op, c);
    assert ProcInv(s.data, s.log, p, pr);
    RequestOpOk(s.data, s.log, p, pr, c);
    ExecKeepsStores(s.data, s.log, p, op, c);
    ExecEvolves(s.data, s.log, p, op, c);
    NewsIsOwn(s.data, p, op, c);
    forall q | q in s'.procs ensures ProcInv(s'.data, s'.log, q, s'.procs[q]) {
      if q == p {
        OwnStep(s, p, c);
      } else {
        OthersKept(s, s'.data, fs, p, q);
      }
    }
  }

  lemma StartShape(req: Request)
    ensures Shape(req, []) && At(req, Start(req), [], false)
  {
    match req {
      case BeginRegister(_, _) =>
      case CompleteRegister(_, _) =>
      case BeginLogin =>
      case CompleteLogin(_, _, _, _) =>
      case Logout(_) =>
      case Guest(_) =>
      case BeginPromote(_, _, _) =>
      case CompletePromote(_, _, _) =>
      case Me(_) =>
      case ListCredentials(_) =>
      case DeleteCredential(_, _) =>
      case Malformed =>
    }
  }

  lemma StartContext(d: Data, log: seq<Fact>, p: Pid, req: Request)
    ensures Context(d, log, p, req, Start(req))
  {
  }

  lemma StartInv(d: Data, log: seq<Fact>, p: Pid, req: Request)
    requires Trace(log, p) == []
    ensures ProcInv(d, log, p, Process(req, Start(req), false))
  {
    hide Trace, Shape, At, Context, Start;
    StartShape(req);
    StartContext(d, log, p, req);
  }

  lemma ArriveKeepsInv(s: State, p: Pid, req: Request)
    requires Inv(s) && p !in s.procs
    ensures Inv(Step(s, Arrive(p, req)))
  {
    hide StoreInv, ProcInv;
    if Trace(s.log, p) != [] {
      TraceFacts(s.log, p, 0);
      assert false;
    }
    StartInv(s.data, s.log, p, req);
  }

  /** Events of no request: time passing, an operator's insert or rename. */
  lemma QuietKeepsInv(s: State, d: Data, fs: seq<Fact>)
    requires Inv(s) && StoreInv(d, s.log + fs)
    requires forall p :: Evolves(s.data, d, p)
    requires |fs| <= 1 && forall f :: f in fs ==> f.Provided?
    ensures Inv(State(d, s.log + fs, s.procs))
  {
    hide StoreInv, ProcInv, Evolves;
    forall q | q in s.procs ensures ProcInv(d, s.log + fs, q, s.procs[q]) {
      OthersKept(s, d, fs, q + 1, q);
    }
  }

  lemma TickKeepsInv(s: State, later: nat)
    requires Inv(s)
    ensures Inv(Step(s, Tick(later)))
  {
    hide StoreInv, ProcInv;
    var d := s.data.(now := s.data.now + later);
    SameTables(s.data, d, s.log);
    assert s.log + [] == s.log;
    QuietKeepsInv(s, d, []);
  }

  lemma ProvideKeepsInv(s: State, cred: Credential, id: Uuid)
    requires Inv(s) && Enabled(s, Provide(cred, id))
    ensures Inv(Step(s, Provide(cred, id)))
  {
    hide ProcInv, UsersInv, RowsTable, RowsLogged, RowsExplained, TokensStored, TokensLogged, ChallengesInv;
    hide Unrepeated, FreshKey;
    var rows := s.data.rows;
    var rows' := Tables.Insert(s.data.users, rows, id, cred, s.data.now).0;
    var d := s.data.(rows := rows');
    if !IdTaken(rows, cred.credentialId) {
      var f := Provided(id, cred.userId, cred.credentialId);
      InsertKeepsRows(s.data.users, rows, s.log, f, id, cred, s.data.now);
      RowFactKeepsRest(s.data, rows', s.log, [f]);
      TokensSame(s.data, d, s.log + [f]);
      ProvidedFresh(rows, s.log, f);
      UnrepeatedSnoc(s.log, f);
      QuietKeepsInv(s, d, [f]);
    }
  }

  lemma ProvidedFresh(rows: Rows, log: seq<Fact>, f: Fact)
    requires RowsLogged(rows, log) && f.Provided? && f.row !in rows
    ensures FreshKey(log, f)
  {
  }

  lemma RelabelKeepsInv(s: State, row: Uuid, name: string)
    requires Inv(s) && row !in s.data.locks
    ensures Inv(Step(s, Relabel(row, name)))
  {
    hide ProcInv, UsersInv, RowsTable, RowsLogged, RowsExplained, TokensStored, TokensLogged, ChallengesInv, Unrepeated;
    var rows := s.data.rows;
    if Live(rows, row) {
      RowIdOf(s.data.users, rows, row);
      var r' := rows[row].(name := Some(name));
      TouchKeepsRows(s.data.users, rows, s.log, r');
      assert s.log + [] == s.log;
      RowFactKeepsRest(s.data, rows[row := r'], s.log, []);
      TokensSame(s.data, s.data.(rows := rows[row := r']), s.log);
      QuietKeepsInv(s, s.data.(rows := rows[row := r']), []);
    }
  }

  lemma RowIdOf(us: Users, rows: Rows, row: Uuid)
    requires RowsTable(us, rows) && row in rows
    ensures rows[row].id == row && 0 <= rows[row].signCount < 0x1_0000_0000
  {
  }

  lemma StepKeepsInv(s: State, e: Event)
    requires Inv(s) && Enabled(s, e)
    ensures Inv(Step(s, e))
  {
    hide Inv, Step;
    match e {
      case Arrive(p, req) => ArriveKeepsInv(s, p, req);
      case Advance(p, c) => AdvanceKeepsInv(s, p, c);
      case Tick(later) => TickKeepsInv(s, later);
      case Provide(cred, id) => ProvideKeepsInv(s, cred, id);
      case Relabel(row, name) => RelabelKeepsInv(s, row, name);
    }
  }

  /** The invariant holds after every run. */
  lemma {:induction false} Sound(cfg: Config, es: seq<Event>)
    requires Legal(cfg, es)
    ensures Inv(Run(cfg, es))
  {
    if es == [] {
      assert Inv(Init(cfg));
    } else {
      Sound(cfg, es[..|es| - 1]);
      StepKeepsInv(Run(cfg, es[..|es| - 1]), es[|es| - 1]);
    }
  }

  // ----- reading it -----

  lemma ShapeOf(s: State, p: Pid)
    requires Inv(s) && p in s.procs
    ensures Shape(s.procs[p].req, Trace(s.log, p))
              && At(s.procs[p].req, s.procs[p].pc, Trace(s.log, p), s.procs[p].torn)
  {
    hide Shape, At, StoreInv;
    assert ProcInv(s.data, s.log, p, s.procs[p]);
  }

  lemma OrderlyInRuns(s: State)
    requires Inv(s)
    ensures Calls.Orderly(s.data)
  {
    hide ProcInv;
  }

  lemma DeletePosition(req: Request, pc: Pc, tr: seq<Fact>, torn: bool)
    requires Shape(req, tr) && At(req, pc, tr, torn) && req.DeleteCredential? && pc.Answered?
    ensures pc.r.status == 204 ==> |tr| == 1 && tr[0].Deleted? && req.row == Some(tr[0].row)
    ensures pc.r.status != 204 && !torn ==> tr == []
  {
  }
}

/** What a request's locals say about the stores: established by its own reads, kept by everyone else's writes. */
module Contexts {
  import opened Domain
  import opened Tables
  import opened Service
  import opened History
  import opened Invariant

  // ----- established by the request's own step -----

  /** The program point after a step, with its context in the stores the step leaves behind. */
  ghost predicate ContextAfter(d: Data, log: seq<Fact>, p: Pid, req: Request, pc: Pc, c: Choice) {
    var op := Plan(req, pc, c);
    var (d', a) := Exec(d, p, op, c);
    Context(d', log + News(d, p, op, c), p, req, Resume(req, pc, a, c))
  }

  lemma FindGuestContext(d: Data, log: seq<Fact>, p: Pid, req: Request, c: Choice)
    requires req.BeginPromote? || req.Guest?
    requires TokensStored(d, log)
    ensures ContextAfter(d, log, p, req, FindGuest, c)
  {
    assert log + [] == log;
  }

  lemma LoadGuestContext(d: Data, log: seq<Fact>, p: Pid, req: Request, uid: Uuid, c: Choice)
    requires req.BeginPromote? || req.Guest?
    requires UsersTable(d.users) && GuestMintedFor(log, req.cookie, uid)
    ensures ContextAfter(d, log, p, req, LoadGuest(uid), c)
  {
    assert log + [] == log;
  }

  lemma ResolveContext(d: Data, log: seq<Fact>, p: Pid, req: Request, c: Choice)
    requires req.CompleteLogin?
    requires RowsTable(d.users, d.rows)
    ensures ContextAfter(d, log, p, req, Resolve, c)
  {
  }

  lemma ResolveUserContext(d: Data, log: seq<Fact>, p: Pid, req: Request, found: Credential, c: Choice)
    requires req.CompleteLogin?
    requires UsersTable(d.users) && Points(d.rows, found, req.rawId)
    ensures ContextAfter(d, log, p, req, ResolveUser(found), c)
  {
  }

  /** A session token names a registered user. */
  lemma SessionUser(d: Data, log: seq<Fact>, t: string, u: Uuid)
    requires MintedFor(log, t, u) && TokensLogged(d.rows, log) && RowsTable(d.users, d.rows)
    ensures Registered(d.users, u) && HasRow(d.rows, u)
  {
  }

  lemma GateContext(d: Data, log: seq<Fact>, p: Pid, req: Request, c: Choice)
    requires req.Me? || req.ListCredentials? || req.DeleteCredential?
    requires TokensStored(d, log)
    ensures ContextAfter(d, log, p, req, Gate, c)
  {
    assert log + [] == log;
  }

  lemma FindPasskeyContext(d: Data, log: seq<Fact>, p: Pid, req: Request, uid: Uuid, row: Uuid, c: Choice)
    requires req.DeleteCredential? && req.row == Some(row) && MintedFor(log, req.cookie, uid)
    requires IsListing(c.list, d.rows, uid)
    ensures ContextAfter(d, log, p, req, FindPasskey(uid, row), c)
  {
    assert log + [] == log;
  }

  lemma LockRowContext(d: Data, log: seq<Fact>, p: Pid, req: Request, uid: Uuid, row: Uuid, c: Choice)
    requires req.DeleteCredential? && Context(d, log, p, req, LockRow(uid, row))
    ensures ContextAfter(d, log, p, req, LockRow(uid, row), c)
  {
    assert log + [] == log;
  }

  lemma CountLiveContext(d: Data, log: seq<Fact>, p: Pid, req: Request, uid: Uuid, row: Uuid, owner: Uuid, c: Choice)
    requires req.DeleteCredential? && Context(d, log, p, req, CountLive(uid, row, owner))
    ensures ContextAfter(d, log, p, req, CountLive(uid, row, owner), c)
  {
    assert log + [] == log;
  }

  lemma MarkRowContext(d: Data, log: seq<Fact>, p: Pid, req: Request, uid: Uuid, row: Uuid, owner: Uuid, c: Choice)
    requires req.DeleteCredential? && Context(d, log, p, req, MarkRow(uid, row, owner))
    ensures ContextAfter(d, log, p, req, MarkRow(uid, row, owner), c)
  {
    assert log + [] == log;
  }

  // ----- kept by other requests' steps -----

  lemma ContextKept(d: Data, d': Data, log: seq<Fact>, fs: seq<Fact>, p: Pid, q: Pid, req: Request, pc: Pc)
    requires p != q && Evolves(d, d', p)
    requires Context(d, log, q, req, pc)
    ensures Context(d', log + fs, q, req, pc)
  {
    assert forall t, u :: MintedFor(log, t, u) ==> MintedFor(log + fs, t, u);
    assert forall t, u :: GuestMintedFor(log, t, u) ==> GuestMintedFor(log + fs, t, u);
  }

  // ----- handler by handler -----

  lemma BeginNext(d: Data, log: seq<Fact>, p: Pid, req: Request, pc: Pc, c: Choice, tr: seq<Fact>, torn: bool)
    requires req.BeginRegister? || req.BeginLogin? || req.BeginPromote?
    requires ShapeBegin(req, tr) && AtBegin(req, pc, tr, torn) && !pc.Answered?
    requires TokensStored(d, log) && UsersTable(d.users) && Context(d, log, p, req, pc)
    ensures ContextAfter(d, log, p, req, pc, c)
  {
    hide TokensStored, UsersTable, Exec, News;
    match pc {
      case Lookup =>
      case Save =>
      case FindGuest => FindGuestContext(d, log, p, req, c);
      case LoadGuest(uid) => LoadGuestContext(d, log, p, req, uid, c);
      case SavePromotion(_) =>
    }
  }

  lemma RegisterNext(d: Data, log: seq<Fact>, p: Pid, req: Request, pc: Pc, c: Choice, tr: seq<Fact>, torn: bool)
    requires req.CompleteRegister?
    requires ShapeRegister(req.sid, tr) && AtRegister(req.sid, pc, tr, torn)
    ensures ContextAfter(d, log, p, req, pc, c)
  {
    hide Exec, News;
  }

  lemma LoginNext(d: Data, log: seq<Fact>, p: Pid, req: Request, pc: Pc, c: Choice, tr: seq<Fact>, torn: bool)
    requires req.CompleteLogin?
    requires ShapeLogin(req.sid, req.rawId, tr) && AtLogin(req.sid, req.rawId, pc, tr, torn)
    requires RowsTable(d.users, d.rows) && UsersTable(d.users) && Context(d, log, p, req, pc)
    ensures ContextAfter(d, log, p, req, pc, c)
  {
    hide RowsTable, UsersTable, Exec, News;
    match pc {
      case Take =>
      case Resolve => ResolveContext(d, log, p, req, c);
      case ResolveUser(found) => ResolveUserContext(d, log, p, req, found, c);
      case RecordAssertion(_, _, _) =>
      case MintSession(_) =>
      case DropGuest(_, _) =>
      case Answered(_) =>
    }
  }

  lemma PromoteNext(d: Data, log: seq<Fact>, p: Pid, req: Request, pc: Pc, c: Choice, tr: seq<Fact>, torn: bool)
    requires req.CompletePromote?
    requires ShapePromote(req.sid, tr) && AtPromote(req.sid, pc, tr, torn)
    ensures ContextAfter(d, log, p, req, pc, c)
  {
    hide Exec, News;
  }

  lemma GuestNext(d: Data, log: seq<Fact>, p: Pid, req: Request, pc: Pc, c: Choice, tr: seq<Fact>, torn: bool)
    requires req.Guest?
    requires ShapeGuest(tr) && AtGuest(pc, tr, torn)
    requires TokensStored(d, log) && UsersTable(d.users) && Context(d, log, p, req, pc)
    ensures ContextAfter(d, log, p, req, pc, c)
  {
    hide TokensStored, UsersTable, Exec, News;
    match pc {
      case FindGuest => FindGuestContext(d, log, p, req, c);
      case LoadGuest(uid) => LoadGuestContext(d, log, p, req, uid, c);
      case CreateGuestUser =>
      case MintGuest(_) =>
      case Answered(_) =>
    }
  }

  lemma DeleteNext(d: Data, log: seq<Fact>, p: Pid, req: Request, pc: Pc, c: Choice, tr: seq<Fact>, torn: bool)
    requires req.DeleteCredential?
    requires AtDelete(pc, tr, torn)
    requires TokensStored(d, log) && Context(d, log, p, req, pc)
    requires pc.FindPasskey? ==> IsListing(c.list, d.rows, pc.uid)
    ensures ContextAfter(d, log, p, req, pc, c)
  {
    hide TokensStored, IsListing, Exec, News;
    match pc {
      case Gate => GateContext(d, log, p, req, c);
      case FindPasskey(uid, row) => FindPasskeyContext(d, log, p, req, uid, row, c);
      case LockRow(uid, row) => LockRowContext(d, log, p, req, uid, row, c);
      case CountLive(uid, row, owner) => CountLiveContext(d, log, p, req, uid, row, owner, c);
      case MarkRow(uid, row, owner) => MarkRowContext(d, log, p, req, uid, row, owner, c);
      case CommitRow(_, _, _) =>
      case Answered(_) =>
    }
  }

  lemma ReadNext(d: Data, log: seq<Fact>, p: Pid, req: Request, pc: Pc, c: Choice)
    requires AtRead(req, pc) && !pc.Answered?
    requires TokensStored(d, log)
    ensures ContextAfter(d, log, p, req, pc, c)
  {
    hide TokensStored, Exec, News;
    if pc.Gate? {
      GateContext(d, log, p, req, c);
    }
  }
}

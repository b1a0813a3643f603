/**
 * Nothing gets stuck. A request makes at most six store calls; one that must wait waits for a request
 * that can move; and from every reachable state the requests in flight can, by fault-free steps of
 * their own, all be answered, which leaves no row locked.
 */
module Liveness {
  import opened Domain
  import opened Tables
  import opened Service
  import opened History
  import opened Invariant
  import opened Soundness
  import opened Runs
  import opened Environment
  import opened Overlap
  import opened OpenDeletes
  import R = Refinement
  import S = Stores

  // ----- how many calls are left -----

  /** The most store calls a request can still make. */
  function Rank(pc: Pc): nat {
    match pc
    case Lookup => 2
    case Save => 1
    case SavePromotion(_) => 1
    case Take => 6
    case CreateUser(_, _) => 4
    case PromoteUser(_, _) => 4
    case InsertCredential(_, _) => 3
    case Resolve => 5
    case ResolveUser(_) => 4
    case RecordAssertion(_, _, _) => 3
    case MintSession(_) => 2
    case DropGuest(_, _) => 1
    case DropSession => 1
    case FindGuest => 4
    case LoadGuest(_) => 3
    case CreateGuestUser => 2
    case MintGuest(_) => 1
    case Gate => 6
    case LoadProfile(_) => 1
    case ListPasskeys(_) => 1
    case FindPasskey(_, _) => 5
    case LockRow(_, _) => 4
    case CountLive(_, _, _) => 3
    case MarkRow(_, _, _) => 2
    case CommitRow(_, _, _) => 1
    case Answered(_) => 0
  }

  lemma BeginLowers(pc: Pc, req: Request, a: Answer, c: Choice, tr: seq<Fact>, torn: bool)
    requires ShapeBegin(req, tr) && AtBegin(req, pc, tr, torn) && !pc.Answered?
    ensures Rank(AfterBegin(pc, req, a, c)) < Rank(pc)
  {
  }

  lemma RegisterLowers(sid: string, pc: Pc, a: Answer, c: Choice, tr: seq<Fact>, torn: bool)
    requires ShapeRegister(sid, tr) && AtRegister(sid, pc, tr, torn) && !pc.Answered?
    ensures Rank(AfterRegister(pc, a, c)) < Rank(pc)
  {
  }

  lemma LoginLowers(req: Request, pc: Pc, a: Answer, c: Choice, tr: seq<Fact>, torn: bool)
    requires req.CompleteLogin? && !pc.Answered?
    requires ShapeLogin(req.sid, req.rawId, tr) && AtLogin(req.sid, req.rawId, pc, tr, torn)
    ensures Rank(AfterLogin(pc, req, a, c)) < Rank(pc)
  {
  }

  lemma PromoteLowers(req: Request, pc: Pc, a: Answer, c: Choice, tr: seq<Fact>, torn: bool)
    requires req.CompletePromote? && !pc.Answered?
    requires ShapePromote(req.sid, tr) && AtPromote(req.sid, pc, tr, torn)
    ensures Rank(AfterPromote(pc, req, a, c)) < Rank(pc)
  {
  }

  lemma GuestLowers(pc: Pc, a: Answer, tr: seq<Fact>, torn: bool)
    requires ShapeGuest(tr) && AtGuest(pc, tr, torn) && !pc.Answered?
    ensures Rank(AfterGuest(pc, a)) < Rank(pc)
  {
  }

  lemma DeleteLowers(req: Request, pc: Pc, a: Answer, tr: seq<Fact>, torn: bool)
    requires req.DeleteCredential? && AtDelete(pc, tr, torn) && !pc.Answered?
    ensures Rank(AfterAccount(pc, req, a)) < Rank(pc)
  {
  }

  lemma ReadLowers(req: Request, pc: Pc, a: Answer, c: Choice)
    requires AtRead(req, pc) && !pc.Answered? && (req.Me? || req.ListCredentials? || req.Logout? || req.Malformed?)
    ensures Rank(Resume(req, pc, a, c)) < Rank(pc)
  {
  }

  /** Whatever a call answers, it brings the request nearer to its own answer. */
  lemma ResumeLowers(req: Request, pc: Pc, a: Answer, c: Choice, tr: seq<Fact>, torn: bool)
    requires Shape(req, tr) && At(req, pc, tr, torn) && !pc.Answered?
    ensures Rank(Resume(req, pc, a, c)) < Rank(pc)
  {
    hide Rank, AtBegin, AtRegister, AtLogin, AtPromote, AtGuest, AtDelete, AtRead;
    hide ShapeBegin, ShapeRegister, ShapeLogin, ShapePromote, ShapeGuest, ShapeDelete;
    hide AfterBegin, AfterRegister, AfterLogin, AfterPromote, AfterGuest, AfterAccount;
    match req {
      case BeginRegister(_, _) => BeginLowers(pc, req, a, c, tr, torn);
      case BeginLogin => BeginLowers(pc, req, a, c, tr, torn);
      case BeginPromote(_, _, _) => BeginLowers(pc, req, a, c, tr, torn);
      case CompleteRegister(sid, _) => RegisterLowers(sid, pc, a, c, tr, torn);
      case CompleteLogin(_, _, _, _) => LoginLowers(req, pc, a, c, tr, torn);
      case CompletePromote(_, _, _) => PromoteLowers(req, pc, a, c, tr, torn);
      case Guest(_) => GuestLowers(pc, a, tr, torn);
      case DeleteCredential(_, _) => DeleteLowers(req, pc, a, tr, torn);
      case Logout(_) => ReadLowers(req, pc, a, c);
      case Me(_) => ReadLowers(req, pc, a, c);
      case ListCredentials(_) => ReadLowers(req, pc, a, c);
      case Malformed => ReadLowers(req, pc, a, c);
    }
  }

  lemma StepLowers(s: State, p: Pid, c: Choice)
    requires Inv(s) && Enabled(s, Advance(p, c))
    ensures p in s.procs && p in Step(s, Advance(p, c)).procs
    ensures Rank(Step(s, Advance(p, c)).procs[p].pc) < Rank(s.procs[p].pc)
  {
    hide Inv, Exec, Plan, Resume, News, Shape, At, Rank, FreshString, FreshId;
    SteppedTo(s, p, c);
    ShapeOf(s, p);
    var pr := s.procs[p];
    ResumeLowers(pr.req, pr.pc, Exec(s.data, p, Plan(pr.req, pr.pc, c), c).1, c, Trace(s.log, p), pr.torn);
  }

  lemma RankIsSmall(pc: Pc)
    ensures Rank(pc) <= 6 && (pc.Answered? ==> Rank(pc) == 0)
  {
  }

  /** How often request p has moved. */
  function Calls(es: seq<Event>, p: Pid): nat {
    if es == [] then 0
    else Calls(es[..|es| - 1], p) + (if es[|es| - 1].Advance? && es[|es| - 1].p == p then 1 else 0)
  }

  lemma {:induction false} CallsBefore(cfg: Config, es: seq<Event>, p: Pid)
    requires Legal(cfg, es) && p !in Run(cfg, es).procs
    ensures Calls(es, p) == 0
  {
    hide Exec, Plan, Resume, News;
    if es != [] {
      CallsBefore(cfg, es[..|es| - 1], p);
    }
  }

  /**
   * In no run, however the others interfere and whatever fails, does a request make more than six store
   * calls; those it has made and those it may still make never exceed what its first point allows.
   */
  lemma {:induction false} CallsAreBounded(cfg: Config, es: seq<Event>, p: Pid)
    requires Legal(cfg, es) && p in Run(cfg, es).procs
    ensures Calls(es, p) + Rank(Run(cfg, es).procs[p].pc) <= Rank(Start(Run(cfg, es).procs[p].req)) <= 6
  {
    hide Step, Enabled, Inv, Rank, Start;
    assert es != [] by { R.InitIsEmpty(cfg); }
    var fs, e := es[..|es| - 1], es[|es| - 1];
    var s := Run(cfg, fs);
    RankIsSmall(Start(Run(cfg, es).procs[p].req));
    if p !in s.procs {
      CallsBefore(cfg, fs, p);
      ArrivesAtStart(s, e, p);
    } else {
      CallsAreBounded(cfg, fs, p);
      if e.Advance? && e.p == p {
        Sound(cfg, fs);
        StepLowers(s, p, e.c);
        SteppedTo(s, p, e.c);
      } else {
        StandsStill(s, e, p);
      }
    }
  }

  lemma ArrivesAtStart(s: State, e: Event, p: Pid)
    requires p !in s.procs && Enabled(s, e) && p in Step(s, e).procs
    ensures !(e.Advance? && e.p == p) && Step(s, e).procs[p].pc == Start(Step(s, e).procs[p].req)
  {
    hide Exec, Plan, Resume, News, Start;
  }

  // ----- waiting -----

  /** The row a blocked operation waits for. */
  function Wanted(op: Op): Option<Uuid> {
    if op.InTx? && op.t.Lock? then Some(op.t.row)
    else if op.OnRows? && op.r.UpdateAfterAssertion? then Some(op.r.row)
    else None
  }

  lemma WantsNothing(req: Request, pc: Pc, c: Choice)
    requires InTransaction(pc)
    ensures Wanted(Plan(req, pc, c)).None?
  {
  }

  lemma BlockedWants(d: Data, op: Op)
    ensures Blocked(d, op) <==> Wanted(op).Some? && Wanted(op).value in d.locks
  {
  }

  /** The request, not the one waiting, holds the row and nothing can hold it up. */
  ghost predicate HoldsUp(s: State, p: Pid, q: Pid, row: Uuid) {
    && q != p && HeldBy(s.data.locks, row, q)
    && q in s.procs && InTransaction(s.procs[q].pc) && s.procs[q].pc.row == row
    && forall c :: !Blocked(s.data, Plan(s.procs[q].req, s.procs[q].pc, c))
  }

  /**
   * In every reachable state a request that must wait waits for one other request, whose transaction
   * holds the row it wants and which itself never waits: there is no deadlock, and no longer chain.
   */
  lemma WaitsForOneThatMoves(cfg: Config, es: seq<Event>, p: Pid, c: Choice)
    requires Legal(cfg, es) && p in Run(cfg, es).procs
    requires var pr := Run(cfg, es).procs[p]; Blocked(Run(cfg, es).data, Plan(pr.req, pr.pc, c))
    ensures var s := Run(cfg, es);
            var op := Plan(s.procs[p].req, s.procs[p].pc, c);
            Wanted(op).Some? && exists q :: HoldsUp(s, p, q, Wanted(op).value)
  {
    hide Run, Legal, Inv, Plan, Blocked, Wanted;
    Sound(cfg, es);
    R.LocksHold(cfg, es);
    var s := Run(cfg, es);
    var op := Plan(s.procs[p].req, s.procs[p].pc, c);
    BlockedWants(s.data, op);
    var row := Wanted(op).value;
    var q := s.data.locks[row];
    if q == p {
      WantsNothing(s.procs[p].req, s.procs[p].pc, c);
      assert false;
    }
    forall c' ensures !Blocked(s.data, Plan(s.procs[q].req, s.procs[q].pc, c')) {
      WantsNothing(s.procs[q].req, s.procs[q].pc, c');
      BlockedWants(s.data, Plan(s.procs[q].req, s.procs[q].pc, c'));
    }
    assert HoldsUp(s, p, q, row);
  }

  // ----- every request can be answered -----

  /** Nothing holds the request up: it is inside its transaction, or nobody else is inside one. */
  ghost predicate Unhindered(s: State, p: Pid) {
    && p in s.procs
    && (InTransaction(s.procs[p].pc) || forall q :: q in s.procs && q != p ==> !InTransaction(s.procs[q].pc))
  }

  lemma UnhinderedMoves(s: State, p: Pid, op: Op, c: Choice)
    requires Inv(s) && R.LockInv(s) && Unhindered(s, p) && op == Plan(s.procs[p].req, s.procs[p].pc, c)
    ensures !Blocked(s.data, op)
  {
    hide Inv, Plan, Blocked, Wanted;
    BlockedWants(s.data, op);
    if InTransaction(s.procs[p].pc) {
      WantsNothing(s.procs[p].req, s.procs[p].pc, c);
    }
  }

  lemma ListsOwn(req: Request, pc: Pc, c: Choice)
    ensures Plan(req, pc, c).OnRows? && Plan(req, pc, c).r.ListByUserId? ==>
              (pc.ListPasskeys? || pc.FindPasskey?) && Plan(req, pc, c).r.uid == pc.uid
  {
  }

  /** Some fault-free choice lets the request make its next call. */
  lemma CanMove(s: State, p: Pid) returns (c: Choice)
    requires Inv(s) && R.LockInv(s) && Unhindered(s, p) && !s.procs[p].pc.Answered?
    ensures c.fault.NoFault? && Enabled(s, Advance(p, c))
  {
    hide R.LockInv, Plan, Blocked, IsListing, FreshString, FreshId, ProcInv, UsersInv;
    c := FreshChoice(s);
    var pc := s.procs[p].pc;
    if pc.ListPasskeys? || pc.FindPasskey? {
      var list := S.ListingExists(s.data.rows, pc.uid);
      c := c.(list := list);
    }
    UnhinderedMoves(s, p, Plan(s.procs[p].req, pc, c), c);
    ListsOwn(s.procs[p].req, pc, c);
  }

  /** Fault-free steps of requests in flight. */
  predicate Finishing(s: State, fs: seq<Event>) {
    forall e :: e in fs ==> e.Advance? && e.c.fault.NoFault? && e.p in s.procs
  }

  /** The other requests stay where they are. */
  ghost predicate OnlyMoves(s: State, s': State, p: Pid) {
    s'.procs.Keys == s.procs.Keys && forall q :: q in s.procs && q != p ==> s'.procs[q] == s.procs[q]
  }

  lemma MovesAlone(s: State, p: Pid, c: Choice)
    requires p in s.procs
    ensures OnlyMoves(s, Step(s, Advance(p, c)), p)
  {
    hide Exec, Plan, Resume, News;
  }

  /** A transaction is left by the answer alone. */
  lemma TransactionGoesOn(req: Request, pc: Pc, a: Answer, c: Choice)
    requires InTransaction(pc) && req.DeleteCredential?
    ensures var pc' := Resume(req, pc, a, c); InTransaction(pc') || pc'.Answered?
  {
  }

  lemma StaysUnhindered(s: State, p: Pid, c: Choice)
    requires Inv(s) && Unhindered(s, p) && Enabled(s, Advance(p, c))
    ensures Unhindered(Step(s, Advance(p, c)), p) || Step(s, Advance(p, c)).procs[p].pc.Answered?
  {
    hide Inv, Exec, Plan, Resume, News, Enabled;
    MovesAlone(s, p, c);
    SteppedTo(s, p, c);
    var pr := s.procs[p];
    if InTransaction(pr.pc) {
      R.InDelete(s, p);
      TransactionGoesOn(pr.req, pr.pc, Exec(s.data, p, Plan(pr.req, pr.pc, c), c).1, c);
    }
  }

  /** One request runs to its answer. */
  lemma Finish(s: State, p: Pid) returns (fs: seq<Event>)
    requires Inv(s) && R.LockInv(s) && Unhindered(s, p)
    ensures Finishing(s, fs) && LegalFrom(s, fs) && |fs| <= Rank(s.procs[p].pc)
    ensures var s' := RunFrom(s, fs);
            Inv(s') && R.LockInv(s') && OnlyMoves(s, s', p) && s'.procs[p].pc.Answered?
    decreases Rank(s.procs[p].pc)
  {
    hide Inv, R.LockInv, Enabled, Step, LegalFrom, RunFrom, Rank, Unhindered;
    assert p in s.procs by { assert Unhindered(s, p); HinderedIsThere(s, p); }
    if s.procs[p].pc.Answered? {
      fs := NoSteps(s);
    } else {
      var c := CanMove(s, p);
      var e := Advance(p, c);
      StepLowers(s, p, c);
      StepKeepsInv(s, e);
      R.StepKeepsLocks(s, e);
      MovesAlone(s, p, c);
      StaysUnhindered(s, p, c);
      OneStep(s, e);
      var s' := Step(s, e);
      if s'.procs[p].pc.Answered? {
        fs := [e];
      } else {
        var rest := Finish(s', p);
        Concat(s, [e], rest);
        fs := [e] + rest;
      }
    }
  }

  lemma HinderedIsThere(s: State, p: Pid)
    requires Unhindered(s, p)
    ensures p in s.procs
  {
  }

  ghost function Pending(s: State): set<Pid> {
    set p | p in s.procs && !s.procs[p].pc.Answered?
  }

  ghost predicate AllAnswered(s: State) {
    forall p :: p in s.procs ==> s.procs[p].pc.Answered?
  }

  /** Whoever is inside a transaction goes first. */
  lemma NextToFinish(s: State) returns (p: Pid)
    requires Pending(s) != {}
    ensures p in Pending(s) && Unhindered(s, p)
  {
    p :| p in Pending(s);
    if q :| q in s.procs && InTransaction(s.procs[q].pc) {
      p := q;
    }
  }

  lemma FewerPending(s: State, s': State, p: Pid)
    requires p in Pending(s) && OnlyMoves(s, s', p) && s'.procs[p].pc.Answered?
    ensures Pending(s') == Pending(s) - {p} && |Pending(s')| < |Pending(s)|
  {
  }

  lemma Drain(s: State) returns (fs: seq<Event>)
    requires Inv(s) && R.LockInv(s)
    ensures Finishing(s, fs) && LegalFrom(s, fs) && |fs| <= 6 * |Pending(s)|
    ensures var s' := RunFrom(s, fs);
            R.LockInv(s') && s'.procs.Keys == s.procs.Keys && AllAnswered(s')
    decreases |Pending(s)|
  {
    hide Inv, R.LockInv, LegalFrom, RunFrom, Unhindered;
    if Pending(s) == {} {
      fs := NoSteps(s);
      forall p | p in s.procs ensures s.procs[p].pc.Answered? {
        assert p !in Pending(s);
      }
    } else {
      var p := NextToFinish(s);
      var first := Finish(s, p);
      var s' := RunFrom(s, first);
      FewerPending(s, s', p);
      RankIsSmall(s.procs[p].pc);
      var rest := Drain(s');
      Concat(s, first, rest);
      fs := first + rest;
    }
  }

  lemma AnsweredMeansUnlocked(s: State)
    requires R.LockInv(s) && AllAnswered(s)
    ensures s.data.locks == map[]
  {
    assert forall r :: r !in s.data.locks;
  }

  /**
   * Every reachable state has a legal continuation, made of fault-free steps of the requests in flight
   * alone and no longer than six for each of these, after which every request has its answer and no row is locked.
   */
  lemma EveryRequestCanBeAnswered(cfg: Config, es: seq<Event>) returns (fs: seq<Event>)
    requires Legal(cfg, es)
    ensures Finishing(Run(cfg, es), fs) && Legal(cfg, es + fs) && |fs| <= 6 * |Pending(Run(cfg, es))|
    ensures var s' := Run(cfg, es + fs);
            s'.procs.Keys == Run(cfg, es).procs.Keys && AllAnswered(s') && s'.data.locks == map[]
  {
    hide Run, Legal, Inv, R.LockInv, LegalFrom, RunFrom, Finishing, AllAnswered, Pending;
    Sound(cfg, es);
    R.LocksHold(cfg, es);
    fs := Drain(Run(cfg, es));
    Continue(cfg, es, fs);
    AnsweredMeansUnlocked(Run(cfg, es + fs));
  }
}

/**
 * Runs of the routed handlers alone. Without an operator adding credentials a user never owns more
 * than the one row its own registration or promotion inserted, so no delete ever succeeds, and every
 * registered user is accounted for by the request that enrolled it.
 */
module ClosedSystem {
  import opened Domain
  import opened Tables
  import opened Service
  import opened History
  import opened Invariant
  import opened Soundness
  import opened LastCredential

  ghost predicate Closed(es: seq<Event>) {
    forall e :: e in es ==> !e.Provide?
  }

  ghost predicate NoProvided(log: seq<Fact>) {
    forall f :: f in log ==> !f.Provided?
  }

  // ----- enrolment -----

  /** The fact that made user u a registered one. */
  predicate Enrols(f: Fact, u: Uuid) {
    (f.Promoted? || (f.Born? && !f.guest)) && f.uid == u
  }

  lemma EnrolmentIsUnique(us: Users, log: seq<Fact>, f: Fact, g: Fact, u: Uuid)
    requires Unrepeated(log) && UsersLogged(us, log)
    requires f in log && g in log && Enrols(f, u) && Enrols(g, u)
    ensures f == g
  {
    if f.Born? == g.Born? {
      SameKey(log, f, g);
    }
  }

  /** Requests insert credentials only for users they enrolled, right after enrolling them. */
  lemma InsertPosition(req: Request, tr: seq<Fact>, i: nat)
    requires Shape(req, tr) && i < |tr| && tr[i].Inserted?
    ensures i == 2 && Enrols(tr[1], tr[2].uid) && (req.CompleteRegister? || req.CompletePromote?)
  {
  }

  lemma EnrolPosition(req: Request, tr: seq<Fact>, i: nat, u: Uuid)
    requires Shape(req, tr) && i < |tr| && Enrols(tr[i], u)
    ensures i == 1 && (req.CompleteRegister? || req.CompletePromote?)
  {
  }

  /** The request that inserted a row enrolled its owner, as the two middle facts of its trace. */
  lemma InserterEnrolled(s: State, f: Fact)
    requires Inv(s) && f in s.log && f.Inserted?
    ensures f.who in s.procs
    ensures var tr := Trace(s.log, f.who);
            && |tr| >= 3 && tr[2] == f
            && tr[1] in s.log && Enrols(tr[1], f.uid) && By(tr[1], f.who)
  {
    hide Shape, StoreInv, ProcInv;
    var p := f.who;
    ShapeOf(s, p);
    var i := TraceIndex(s.log, f, p);
    InsertPosition(s.procs[p].req, Trace(s.log, p), i);
    TraceFacts(s.log, p, 1);
  }

  lemma OneInsertPerUser(s: State, f: Fact, g: Fact)
    requires Inv(s) && f in s.log && g in s.log && f.Inserted? && g.Inserted? && f.uid == g.uid
    ensures f == g
  {
    InserterEnrolled(s, f);
    InserterEnrolled(s, g);
    hide ProcInv;
    var e1, e2 := Trace(s.log, f.who)[1], Trace(s.log, g.who)[1];
    EnrolmentIsUnique(s.data.users, s.log, e1, e2, f.uid);
  }

  ghost predicate SameOwner(rows: Rows, r1: Uuid, r2: Uuid) {
    r1 in rows && r2 in rows && rows[r1].userId == rows[r2].userId
  }

  /** Rows not provided by an operator: at most one per user, live or dead, in any run whatever. */
  lemma OneRowPerUser(s: State, r1: Uuid, r2: Uuid)
    requires Inv(s) && NoProvided(s.log)
    requires r1 in s.data.rows && r2 in s.data.rows && s.data.rows[r1].userId == s.data.rows[r2].userId
    ensures r1 == r2
  {
    var f := OriginOf(s, r1);
    var g := OriginOf(s, r2);
    OneInsertPerUser(s, f, g);
  }

  lemma OriginOf(s: State, r: Uuid) returns (f: Fact)
    requires Inv(s) && NoProvided(s.log) && r in s.data.rows
    ensures f in s.log && f.Inserted? && f.row == r && f.uid == s.data.rows[r].userId
  {
    hide ProcInv;
    assert HasOrigin(s.log, r);
    f :| f in s.log && (f.Inserted? || f.Provided?) && f.row == r;
  }

  // ----- deletes in a closed system -----

  ghost predicate Calm(s: State) {
    && NoProvided(s.log)
    && (forall f :: f in s.log ==> !f.Deleted?)
    && (forall p :: p in s.procs ==> !InWindow(s.procs[p].pc))
  }

  lemma NoSecondRow(s: State, owner: Uuid)
    requires Inv(s) && NoProvided(s.log)
    ensures |LiveOf(s.data.rows, owner)| <= 1
  {
    hide Inv;
    var live := LiveOf(s.data.rows, owner);
    if |live| >= 2 {
      var x :| x in live;
      var y := TwoMeansAnother(live, x);
      OneRowPerUser(s, x, y);
      assert false;
    }
  }

  lemma CommitNews(d: Data, p: Pid, op: Op, c: Choice)
    ensures forall f :: f in News(d, p, op, c) ==> !f.Provided? && (f.Deleted? ==> op.InTx? && op.t.Commit?)
  {
    hide ApplyUsers, ApplyRows, ApplyTx, ApplyKeys;
  }

  lemma AdvanceKeepsCalm(s: State, p: Pid, c: Choice)
    requires Inv(s) && Enabled(s, Advance(p, c)) && Calm(s)
    ensures Calm(Step(s, Advance(p, c)))
  {
    hide Inv, Exec, News, Plan, Resume, InWindow;
    var pr := s.procs[p];
    var op := Plan(pr.req, pr.pc, c);
    CommitNews(s.data, p, op, c);
    CommitsOnlyAt(pr.req, pr.pc, c);
    WindowEntryFor(pr, Exec(s.data, p, op, c).1, c);
    if pr.pc.CountLive? && Exec(s.data, p, op, c).1 == Done {
      CountPassed(s.data, p, pr.pc.row, pr.pc.owner, c);
      NoSecondRow(s, pr.pc.owner);
      assert false;
    }
    CommitIsWindow(pr.pc);
  }

  lemma CommitIsWindow(pc: Pc)
    ensures pc.CommitRow? || pc.MarkRow? ==> InWindow(pc)
  {
  }

  lemma WindowEntryFor(pr: Process, a: Answer, c: Choice)
    requires !InWindow(pr.pc)
    ensures InWindow(Resume(pr.req, pr.pc, a, c)) ==> pr.pc.CountLive? && a == Done
  {
    hide Resume;
    WindowEntry(pr.req, pr.pc, a, c);
  }

  lemma StepKeepsCalm(s: State, e: Event)
    requires Inv(s) && Enabled(s, e) && Calm(s) && !e.Provide?
    ensures Calm(Step(s, e))
  {
    hide Inv;
    match e {
      case Arrive(p, req) => StartsOutside(req);
      case Advance(p, c) => AdvanceKeepsCalm(s, p, c);
      case Tick(_) =>
      case Relabel(_, _) =>
    }
  }

  lemma {:induction false} ClosedIsCalm(cfg: Config, es: seq<Event>)
    requires Legal(cfg, es) && Closed(es)
    ensures Calm(Run(cfg, es))
  {
    hide Step, Enabled, Inv, Calm;
    if es == [] {
      InitIsCalm(cfg);
    } else {
      ClosedIsCalm(cfg, es[..|es| - 1]);
      Sound(cfg, es[..|es| - 1]);
      StepKeepsCalm(Run(cfg, es[..|es| - 1]), es[|es| - 1]);
    }
  }

  lemma InitIsCalm(cfg: Config)
    ensures Calm(Init(cfg))
  {
  }

  lemma NoNoContent(s: State, p: Pid)
    requires Inv(s) && Calm(s) && p in s.procs && s.procs[p].req.DeleteCredential? && s.procs[p].pc.Answered?
    ensures s.procs[p].pc.r.status != 204
  {
    hide Shape, At, StoreInv, ProcInv, InWindow;
    ShapeOf(s, p);
    if s.procs[p].pc.r.status == 204 {
      DeletePosition(s.procs[p].req, s.procs[p].pc, Trace(s.log, p), s.procs[p].torn);
      TraceFacts(s.log, p, 0);
      assert false;
    }
  }

  /**
   * With the routed handlers alone each user owns at most one credential row, every row stays live,
   * and no DELETE is ever answered 204.
   */
  lemma OneCredentialPerUser(cfg: Config, es: seq<Event>)
    requires Legal(cfg, es) && Closed(es)
    ensures var s := Run(cfg, es);
            && (forall r1, r2 :: SameOwner(s.data.rows, r1, r2) ==> r1 == r2)
            && (forall r :: r in s.data.rows ==> Live(s.data.rows, r))
            && (forall p :: p in s.procs && s.procs[p].req.DeleteCredential? && s.procs[p].pc.Answered? ==>
                 s.procs[p].pc.r.status != 204)
  {
    hide Run, Legal, ProcInv;
    Sound(cfg, es);
    ClosedIsCalm(cfg, es);
    var s := Run(cfg, es);
    forall r1, r2 | SameOwner(s.data.rows, r1, r2) ensures r1 == r2 {
      OneRowPerUser(s, r1, r2);
    }
    forall r | r in s.data.rows ensures Live(s.data.rows, r) {
      assert Live(s.data.rows, r) || HasDeath(s.log, r);
    }
    forall p | p in s.procs && s.procs[p].req.DeleteCredential? && s.procs[p].pc.Answered?
        ensures s.procs[p].pc.r.status != 204 {
      NoNoContent(s, p);
    }
  }

  // ----- accounting -----

  function RegisteredUsers(us: Users): set<Uuid> {
    set u | u in us && !us[u].isGuest
  }

  ghost function WithRow(s: State): set<Uuid> {
    set u | u in RegisteredUsers(s.data.users) && HasRow(s.data.rows, u)
  }

  /** Request p has enrolled u and is about to insert u's credential. */
  ghost predicate Inserting(s: State, p: Pid, u: Uuid) {
    p in s.procs && s.procs[p].pc.InsertCredential? && s.procs[p].pc.user.id == u
  }

  ghost function InFlight(s: State): set<Uuid> {
    set u | u in RegisteredUsers(s.data.users) && exists p :: Inserting(s, p, u)
  }

  /** Request p enrolled u and then gave up: credential_exists, a conversion failure or a store error. */
  ghost predicate GaveUp(s: State, p: Pid, u: Uuid) {
    && p in s.procs && s.procs[p].pc.Answered?
    && (s.procs[p].pc.r == Refuse(409, CredentialConflict) || s.procs[p].pc.r == Refuse(500, InternalError))
    && |Trace(s.log, p)| == 2 && Enrols(Trace(s.log, p)[1], u)
  }

  ghost function Stranded(s: State): set<Uuid> {
    set u | u in RegisteredUsers(s.data.users) && exists p :: GaveUp(s, p, u)
  }

  lemma Enroller(s: State, u: Uuid) returns (p: Pid)
    requires Inv(s) && Registered(s.data.users, u)
    ensures p in s.procs
    ensures var tr := Trace(s.log, p); |tr| >= 2 && Enrols(tr[1], u) && tr[1] in s.log && By(tr[1], p)
  {
    var f := EnrolmentOf(s.data.users, s.log, u);
    p := f.who;
    hide Shape, At, StoreInv, ProcInv;
    ShapeOf(s, p);
    var i := TraceIndex(s.log, f, p);
    EnrolPosition(s.procs[p].req, Trace(s.log, p), i, u);
  }

  lemma EnrolmentOf(us: Users, log: seq<Fact>, u: Uuid) returns (f: Fact)
    requires UsersInv(us, log) && Registered(us, u)
    ensures f in log && Enrols(f, u)
  {
    if us[u].promotedAt.Some? {
      assert HasPromotion(log, u);
      f :| f in log && f.Promoted? && f.uid == u;
    } else {
      assert HasBirth(log, u, false);
      f :| f in log && f.Born? && f.uid == u && f.guest == false;
    }
  }

  /** Where a request that enrolled u can be. */
  lemma AfterEnrolment(req: Request, pc: Pc, tr: seq<Fact>, torn: bool, u: Uuid)
    requires Shape(req, tr) && At(req, pc, tr, torn) && |tr| >= 2 && Enrols(tr[1], u)
    ensures |tr| >= 3 ==> tr[2].Inserted? && tr[2].uid == u
    ensures |tr| == 2 ==>
              || (pc.InsertCredential? && pc.user.id == u)
              || (pc.Answered? && (pc.r == Refuse(409, CredentialConflict) || pc.r == Refuse(500, InternalError)))
  {
  }

  lemma EnrolledTwiceIsOnce(s: State, p: Pid, q: Pid, u: Uuid)
    requires Inv(s) && p in s.procs && q in s.procs
    requires |Trace(s.log, p)| >= 2 && Enrols(Trace(s.log, p)[1], u)
    requires |Trace(s.log, q)| >= 2 && Enrols(Trace(s.log, q)[1], u)
    ensures p == q
  {
    hide ProcInv;
    TraceFacts(s.log, p, 1);
    TraceFacts(s.log, q, 1);
    EnrolmentIsUnique(s.data.users, s.log, Trace(s.log, p)[1], Trace(s.log, q)[1], u);
  }

  lemma RowMeansInserted(s: State, p: Pid, u: Uuid)
    requires Inv(s) && NoProvided(s.log) && p in s.procs && HasRow(s.data.rows, u)
    requires |Trace(s.log, p)| >= 2 && Enrols(Trace(s.log, p)[1], u)
    ensures |Trace(s.log, p)| >= 3
  {
    var r :| r in s.data.rows && s.data.rows[r].userId == u;
    var f := OriginOf(s, r);
    InserterEnrolled(s, f);
    EnrolledTwiceIsOnce(s, p, f.who, u);
  }

  lemma InsertedMeansRow(s: State, p: Pid, u: Uuid)
    requires Inv(s) && p in s.procs && |Trace(s.log, p)| >= 3
    requires Trace(s.log, p)[2].Inserted? && Trace(s.log, p)[2].uid == u
    ensures HasRow(s.data.rows, u)
  {
    hide ProcInv;
    TraceFacts(s.log, p, 2);
    RowGivesUser(s.data.rows, s.log, Trace(s.log, p)[2]);
  }

  lemma InsertingHasEnrolled(s: State, p: Pid, u: Uuid)
    requires Inv(s) && Inserting(s, p, u)
    ensures |Trace(s.log, p)| == 2 && Enrols(Trace(s.log, p)[1], u)
  {
    ShapeOf(s, p);
    hide Inv;
    InsertingPosition(s.procs[p].req, s.procs[p].pc, Trace(s.log, p), s.procs[p].torn);
  }

  lemma InsertingPosition(req: Request, pc: Pc, tr: seq<Fact>, torn: bool)
    requires Shape(req, tr) && At(req, pc, tr, torn) && pc.InsertCredential?
    ensures |tr| == 2 && Enrols(tr[1], pc.user.id)
  {
  }

  /** Where a registered user stands: exactly one of the three. */
  lemma UserAccounted(s: State, u: Uuid)
    requires Inv(s) && NoProvided(s.log) && Registered(s.data.users, u)
    ensures HasRow(s.data.rows, u) || (exists p :: Inserting(s, p, u)) || (exists p :: GaveUp(s, p, u))
    ensures HasRow(s.data.rows, u) ==> (forall p :: !Inserting(s, p, u)) && (forall p :: !GaveUp(s, p, u))
    ensures forall p, q :: !(Inserting(s, p, u) && GaveUp(s, q, u))
  {
    hide Inv, Shape, At;
    var p := Enroller(s, u);
    ShapeOf(s, p);
    AfterEnrolment(s.procs[p].req, s.procs[p].pc, Trace(s.log, p), s.procs[p].torn, u);
    if |Trace(s.log, p)| >= 3 {
      InsertedMeansRow(s, p, u);
    } else if s.procs[p].pc.InsertCredential? {
      assert Inserting(s, p, u);
    } else {
      assert GaveUp(s, p, u);
    }
    forall q | Inserting(s, q, u) || GaveUp(s, q, u) ensures q == p && !HasRow(s.data.rows, u) {
      if Inserting(s, q, u) {
        InsertingHasEnrolled(s, q, u);
      }
      EnrolledTwiceIsOnce(s, p, q, u);
      if HasRow(s.data.rows, u) {
        RowMeansInserted(s, q, u);
      }
    }
  }

  /**
   * Conservation of registered users in a closed system: each has a credential row, or its request
   * is about to insert one, or that request answered credential_exists or an internal error.
   */
  lemma RegisteredUsersAccounted(cfg: Config, es: seq<Event>)
    requires Legal(cfg, es) && Closed(es)
    ensures var s := Run(cfg, es);
            && RegisteredUsers(s.data.users) == WithRow(s) + InFlight(s) + Stranded(s)
            && |RegisteredUsers(s.data.users)| == |WithRow(s)| + |InFlight(s)| + |Stranded(s)|
            && (forall r :: r in s.data.rows ==> s.data.rows[r].userId in WithRow(s))
  {
    hide Run, Legal, Inv, HasRow, Inserting, GaveUp;
    Sound(cfg, es);
    ClosedIsCalm(cfg, es);
    var s := Run(cfg, es);
    forall u | u in RegisteredUsers(s.data.users)
      ensures u in WithRow(s) + InFlight(s) + Stranded(s)
      ensures u in WithRow(s) ==> u !in InFlight(s) && u !in Stranded(s)
      ensures u in InFlight(s) ==> u !in Stranded(s)
    {
      UserAccounted(s, u);
    }
    assert WithRow(s) !! InFlight(s) && (WithRow(s) + InFlight(s)) !! Stranded(s);
    forall r | r in s.data.rows ensures s.data.rows[r].userId in WithRow(s) {
      OwnerHasRow(s, r);
    }
  }

  lemma OwnerHasRow(s: State, r: Uuid)
    requires Inv(s) && r in s.data.rows
    ensures s.data.rows[r].userId in WithRow(s)
  {
    hide ProcInv;
  }
}

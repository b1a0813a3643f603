/** Guarantees about accounts over every legal run: promotion, usernames, user rows, deletes and profiles. */
module Accounts {
  import opened Domain
  import opened Tables
  import opened Service
  import opened History
  import opened Invariant
  import opened Soundness
  import opened Runs
  import opened ClosedSystem
  import opened Theorems

  // ----- no cross-flow -----

  lemma PromotionPosition(req: Request, tr: seq<Fact>, i: nat)
    requires Shape(req, tr) && i < |tr| && tr[i].Promoted?
    ensures req.CompletePromote? && i == 1 && tr[0].Took? && tr[0].sid == req.sid && tr[0].payload.promote
    ensures tr[1].uid == tr[0].payload.promoteUserId && tr[1].name == tr[0].payload.username
  {
  }

  lemma RegistrationPosition(req: Request, tr: seq<Fact>, i: nat)
    requires Shape(req, tr) && i < |tr| && tr[i].Born? && !tr[i].guest
    ensures req.CompleteRegister? && i == 1 && tr[0].Took? && tr[0].sid == req.sid && !tr[0].payload.promote
    ensures tr[1].name == tr[0].payload.username
  {
  }

  lemma PromotingBegin(req: Request, tr: seq<Fact>)
    requires Shape(req, tr) && |tr| == 1 && tr[0].Saved?
    ensures tr[0].payload.promote <==> req.BeginPromote?
    ensures req.BeginPromote? ==> tr[0].payload.username == req.username
    ensures req.BeginRegister? ==> tr[0].payload.username == req.username != ""
    ensures req.BeginLogin? ==> tr[0].payload.username == ""
    ensures Begins(req)
  {
  }

  /** Request b is a promotion begin that resolved guest u by its own guest cookie and saved payload under sid. */
  ghost predicate BegunFor(s: State, b: Pid, sid: string, payload: Payload, u: Uuid) {
    && b in s.procs && s.procs[b].req.BeginPromote?
    && Saved(b, sid, payload) in s.log
    && payload.promote && payload.promoteUserId == u && payload.username == s.procs[b].req.username
    && GuestMintedFor(s.log, s.procs[b].req.cookie, u)
  }

  /**
   * Whoever is promoted was promoted by a /promote/complete that consumed a payload /promote/begin
   * saved for exactly that guest, who was born a guest and held that begin's guest cookie.
   */
  lemma PromotionProvenance(cfg: Config, es: seq<Event>, f: Fact)
    requires Legal(cfg, es) && f in Run(cfg, es).log && f.Promoted?
    ensures var s := Run(cfg, es);
            && f.who in s.procs && s.procs[f.who].req.CompletePromote?
            && HasBirth(s.log, f.uid, true)
            && exists b, payload ::
                 && BegunFor(s, b, s.procs[f.who].req.sid, payload, f.uid)
                 && Took(f.who, s.procs[f.who].req.sid, payload) in s.log
                 && f.name == payload.username
  {
    hide Run, Legal, ProcInv, Shape, At, UsersInv, RowsInv;
    Sound(cfg, es);
    var s := Run(cfg, es);
    var p := f.who;
    ShapeOf(s, p);
    var i := TraceIndex(s.log, f, p);
    PromotionPosition(s.procs[p].req, Trace(s.log, p), i);
    TraceFacts(s.log, p, 0);
    var t := Trace(s.log, p)[0];
    var b := TakenWasSaved(s, t);
    BeginHadAuthority(s, b, t.sid, t.payload);
    assert BegunFor(s, b, s.procs[p].req.sid, t.payload, f.uid) && t == Took(p, t.sid, t.payload);
  }

  lemma BeginHadAuthority(s: State, b: Pid, sid: string, payload: Payload)
    requires Inv(s) && SavedBy(s, b, sid, payload) && payload.promote
    requires Trace(s.log, b) == [Saved(b, sid, payload)]
    ensures BegunFor(s, b, sid, payload, payload.promoteUserId) && HasBirth(s.log, payload.promoteUserId, true)
  {
    hide Shape, At, UsersInv, RowsInv, ChallengesInv, Context;
    var pr := s.procs[b];
    assert ProcInv(s.data, s.log, b, pr);
    PromotingBegin(pr.req, Trace(s.log, b));
    assert GuestMintedFor(s.log, pr.req.cookie, payload.promoteUserId);
  }

  /**
   * A user is registered afresh only from a payload that no promotion begin saved, under the name in
   * it. The payload has no mark for the login flow, so a login session would pass if the library
   * accepted it in a create ceremony; but the name tells: the user has a nonempty name exactly when
   * the payload came from /register/begin, and then it is the name asked for there.
   */
  lemma RegistrationProvenance(cfg: Config, es: seq<Event>, f: Fact)
    requires Legal(cfg, es) && f in Run(cfg, es).log && f.Born? && !f.guest
    ensures var s := Run(cfg, es);
            && f.who in s.procs && s.procs[f.who].req.CompleteRegister?
            && exists b, payload ::
                 && SavedBy(s, b, s.procs[f.who].req.sid, payload) && !s.procs[b].req.BeginPromote?
                 && Took(f.who, s.procs[f.who].req.sid, payload) in s.log
                 && !payload.promote && f.name == payload.username
                 && (f.name != "" <==> s.procs[b].req.BeginRegister?)
                 && (f.name != "" ==> f.name == s.procs[b].req.username)
  {
    hide Run, Legal, ProcInv, Shape, At, StoreInv;
    Sound(cfg, es);
    var s := Run(cfg, es);
    var p := f.who;
    ShapeOf(s, p);
    var i := TraceIndex(s.log, f, p);
    RegistrationPosition(s.procs[p].req, Trace(s.log, p), i);
    TraceFacts(s.log, p, 0);
    var t := Trace(s.log, p)[0];
    var b := TakenWasSaved(s, t);
    ShapeOf(s, b);
    PromotingBegin(s.procs[b].req, Trace(s.log, b));
    assert SavedBy(s, b, s.procs[p].req.sid, t.payload) && t == Took(p, t.sid, t.payload);
  }

  lemma CrossFlowPosition(req: Request, pc: Pc, tr: seq<Fact>, torn: bool)
    requires Shape(req, tr) && At(req, pc, tr, torn) && pc.Answered? && tr != []
    requires req.CompleteRegister? || req.CompletePromote?
    ensures tr[0].Took? && (tr[0].payload.promote != req.CompletePromote? ==>
              |tr| == 1 && (pc.r == Refuse(401, SessionInvalid) || (torn && pc.r == Refuse(500, InternalError))))
  {
  }

  /**
   * Completing the other flow's ceremony consumes its challenge and does nothing else: the answer is
   * 401 (500 if the take itself was torn) and the trace ends with the take.
   */
  lemma CrossFlowBurns(cfg: Config, es: seq<Event>, p: Pid, payload: Payload)
    requires Legal(cfg, es) && p in Run(cfg, es).procs && Run(cfg, es).procs[p].pc.Answered?
    requires Run(cfg, es).procs[p].req.CompleteRegister? || Run(cfg, es).procs[p].req.CompletePromote?
    requires Took(p, Run(cfg, es).procs[p].req.sid, payload) in Run(cfg, es).log
    requires payload.promote != Run(cfg, es).procs[p].req.CompletePromote?
    ensures var s := Run(cfg, es);
            && Trace(s.log, p) == [Took(p, s.procs[p].req.sid, payload)]
            && s.procs[p].req.sid !in s.data.challenges
            && (s.procs[p].pc.r == Refuse(401, SessionInvalid)
                 || (s.procs[p].torn && s.procs[p].pc.r == Refuse(500, InternalError)))
  {
    hide Run, Legal, Inv, Trace;
    Sound(cfg, es);
    CrossFlowTrace(Run(cfg, es), p, payload);
  }

  lemma CrossFlowTrace(s: State, p: Pid, payload: Payload)
    requires Inv(s) && p in s.procs && s.procs[p].pc.Answered?
    requires s.procs[p].req.CompleteRegister? || s.procs[p].req.CompletePromote?
    requires Took(p, s.procs[p].req.sid, payload) in s.log && payload.promote != s.procs[p].req.CompletePromote?
    ensures Trace(s.log, p) == [Took(p, s.procs[p].req.sid, payload)] && s.procs[p].req.sid !in s.data.challenges
    ensures s.procs[p].pc.r == Refuse(401, SessionInvalid)
              || (s.procs[p].torn && s.procs[p].pc.r == Refuse(500, InternalError))
  {
    hide ProcInv, Shape, At, UsersInv, RowsInv, TokensStored, TokensLogged, Trace, Unrepeated, WasSaved;
    var f := Took(p, s.procs[p].req.sid, payload);
    ShapeOf(s, p);
    var i := TraceIndex(s.log, f, p);
    TookPosition(s.procs[p].req, Trace(s.log, p), i);
    CrossFlowPosition(s.procs[p].req, s.procs[p].pc, Trace(s.log, p), s.procs[p].torn);
    assert WasTaken(s.log, f.sid);
  }

  lemma TookPosition(req: Request, tr: seq<Fact>, i: nat)
    requires Shape(req, tr) && i < |tr| && tr[i].Took?
    ensures i == 0
  {
  }

  /** From d to d' at most the challenge under sid went. */
  ghost predicate TakesOnly(d: Data, d': Data, sid: string) {
    && d'.users == d.users && d'.rows == d.rows && d'.sessions == d.sessions && d'.guests == d.guests
    && (d'.challenges == d.challenges || d'.challenges == d.challenges - {sid})
  }

  /** A completion that will have taken the other flow's payload is still at its take. */
  lemma CrossFlowPoint(req: Request, pc: Pc, tr: seq<Fact>, torn: bool, f: Fact)
    requires Shape(req, tr) && At(req, pc, tr, torn) && !pc.Answered? && tr <= [f] && f.Took?
    requires (req.CompleteRegister? || req.CompletePromote?) && f.payload.promote != req.CompletePromote?
    ensures pc.Take?
  {
  }

  lemma TakeApplies(d: Data, sid: string, c: Choice)
    ensures var d' := ApplyKeys(d, TakeChallenge(sid), c).0;
            d' == d || d' == d.(challenges := d.challenges - {sid})
  {
  }

  lemma TakeTouches(d: Data, p: Pid, sid: string, c: Choice)
    ensures TakesOnly(d, Exec(d, p, OnKeys(TakeChallenge(sid)), c).0, sid)
  {
    ReleaseFreesLocks(d, p);
    ReleaseFreesLocks(ApplyKeys(d, TakeChallenge(sid), c).0, p);
    TakeApplies(d, sid, c);
    hide Release, ApplyKeys;
  }

  lemma ReleaseFreesLocks(d: Data, p: Pid)
    ensures Release(d, p) == d.(locks := Release(d, p).locks)
  {
  }

  /**
   * Every step of such a completion, whatever it answers, leaves users, credentials, sessions and
   * guests as they were, and of the challenges takes at most its own.
   */
  lemma CrossFlowTouchesNothing(cfg: Config, es: seq<Event>, p: Pid, payload: Payload, k: nat)
    requires Legal(cfg, es) && p in Run(cfg, es).procs && Run(cfg, es).procs[p].pc.Answered?
    requires Run(cfg, es).procs[p].req.CompleteRegister? || Run(cfg, es).procs[p].req.CompletePromote?
    requires Took(p, Run(cfg, es).procs[p].req.sid, payload) in Run(cfg, es).log
    requires payload.promote != Run(cfg, es).procs[p].req.CompletePromote?
    requires k < |es| && es[k].Advance? && es[k].p == p
    ensures TakesOnly(Run(cfg, es[..k]).data, Run(cfg, es[..k + 1]).data, Run(cfg, es).procs[p].req.sid)
  {
    hide Run, Legal, Inv, Trace, Shape, At, Step, Exec, News, Plan, Resume, Enabled, TakesOnly, UsersEvolve, RowsEvolve;
    CrossFlowBurns(cfg, es, p, payload);
    AdvancedWasThere(cfg, es, k);
    LegalPrefix(cfg, es, k);
    Sound(cfg, es[..k]);
    RequestKept(cfg, es, p, k);
    RunEvolves(cfg, es, k);
    var s := Run(cfg, es[..k]);
    var pr := s.procs[p];
    ShapeOf(s, p);
    TraceGrows(s.log, Run(cfg, es).log, p);
    CrossFlowPoint(pr.req, pr.pc, Trace(s.log, p), pr.torn, Took(p, pr.req.sid, payload));
    RunStep(cfg, es, k);
    SteppedTo(s, p, es[k].c);
    TakePlan(pr.req, es[k].c);
    TakeTouches(s.data, p, pr.req.sid, es[k].c);
  }

  lemma TakePlan(req: Request, c: Choice)
    requires Completes(req)
    ensures Plan(req, Take, c) == OnKeys(TakeChallenge(req.sid))
  {
  }

  // ----- usernames -----

  /** Registered usernames are unique in every reachable state. */
  lemma NamesAreUnique(cfg: Config, es: seq<Event>, u: Uuid, v: Uuid)
    requires Legal(cfg, es) && Registered(Run(cfg, es).data.users, u) && Registered(Run(cfg, es).data.users, v)
    requires Run(cfg, es).data.users[u].username == Run(cfg, es).data.users[v].username
    ensures u == v
  {
    hide Run, Legal, ProcInv, RowsInv;
    Sound(cfg, es);
  }

  /** Of any registrations and promotions racing for one name, over a whole run at most one ever wins. */
  lemma OneWinnerPerName(cfg: Config, es: seq<Event>, f: Fact, g: Fact)
    requires Legal(cfg, es) && f in Run(cfg, es).log && g in Run(cfg, es).log
    requires f.Promoted? || (f.Born? && !f.guest)
    requires g.Promoted? || (g.Born? && !g.guest)
    requires f.name == g.name
    ensures f == g
  {
    hide Run, Legal, ProcInv, RowsInv;
    Sound(cfg, es);
    var s := Run(cfg, es);
    EnrolmentIsUnique(s.data.users, s.log, f, g, f.uid);
  }

  // ----- user rows -----

  /**
   * Between any two states of a run a user row keeps id and created_at, a guest row that is still a
   * guest is untouched, and a registered row never changes again. promoted_at is set exactly on rows
   * born as guests that no longer are.
   */
  lemma UserLifecycle(cfg: Config, es: seq<Event>, k: nat, u: Uuid)
    requires Legal(cfg, es) && k <= |es| && u in Run(cfg, es[..k]).data.users
    ensures var us, us' := Run(cfg, es[..k]).data.users, Run(cfg, es).data.users;
            && u in us' && us'[u].id == u && us'[u].createdAt == us[u].createdAt
            && (!us[u].isGuest || us'[u].isGuest ==> us'[u] == us[u])
            && (us'[u].promotedAt.Some? <==> HasBirth(Run(cfg, es).log, u, true) && !us'[u].isGuest)
  {
    hide Run, Legal, Inv, UsersInv, HasBirth;
    Sound(cfg, es);
    RunEvolves(cfg, es, k);
    StampedWhenPromoted(Run(cfg, es), u);
  }

  lemma StampedWhenPromoted(s: State, u: Uuid)
    requires Inv(s) && u in s.data.users
    ensures var us := s.data.users;
            us[u].id == u && (us[u].promotedAt.Some? <==> HasBirth(s.log, u, true) && !us[u].isGuest)
  {
    hide ProcInv, RowsInv, HasBirth, HasPromotion, UniqueNames, UsersLogged, TokensStored, TokensLogged, ChallengesInv;
    BornOnce(s.log, u);
  }

  /** However many promotions of one guest race, one of them at most changes the row. */
  lemma PromotedOnce(cfg: Config, es: seq<Event>, f: Fact, g: Fact)
    requires Legal(cfg, es) && f in Run(cfg, es).log && g in Run(cfg, es).log
    requires f.Promoted? && g.Promoted? && f.uid == g.uid
    ensures f == g
  {
    hide Run, Legal, ProcInv, RowsInv, UsersInv;
    Sound(cfg, es);
    SameKey(Run(cfg, es).log, f, g);
  }

  lemma BornOnce(log: seq<Fact>, u: Uuid)
    requires Unrepeated(log)
    ensures !(HasBirth(log, u, true) && HasBirth(log, u, false))
  {
    if HasBirth(log, u, true) && HasBirth(log, u, false) {
      var f :| f in log && f.Born? && f.uid == u && f.guest == true;
      var g :| g in log && g.Born? && g.uid == u && g.guest == false;
      SameKey(log, f, g);
    }
  }

  // ----- deletes -----

  /** From d to d' users, sessions, guests and challenges stay, and so do the rows unless one is marked deleted. */
  ghost predicate DeletesOnly(d: Data, d': Data, row: Uuid) {
    && d'.users == d.users && d'.sessions == d.sessions && d'.guests == d.guests && d'.challenges == d.challenges
    && (d'.rows == d.rows || d'.rows == Bury(d.rows, row, d.now))
  }

  /** At event k the row, live and owned by u, is marked deleted, and no other row changes. */
  ghost predicate Buries(cfg: Config, es: seq<Event>, k: nat, row: Uuid, u: Uuid) {
    && k < |es|
    && var d := Run(cfg, es[..k]).data;
    && Live(d.rows, row) && d.rows[row].userId == u
    && Run(cfg, es[..k + 1]).data.rows == Bury(d.rows, row, d.now)
  }

  ghost predicate KeepsRows(cfg: Config, es: seq<Event>, k: nat) {
    k < |es| && Run(cfg, es[..k + 1]).data.rows == Run(cfg, es[..k]).data.rows
  }

  predicate Looks(op: Op) {
    || (op.OnKeys? && op.k.GetSession?) || (op.OnRows? && op.r.ListByUserId?) || op.Skip?
    || (op.InTx? && !op.t.Commit?)
  }

  lemma LookChangesNothing(d: Data, p: Pid, op: Op, c: Choice)
    requires Looks(op)
    ensures var d' := Exec(d, p, op, c).0; d' == d.(locks := d'.locks) && News(d, p, op, c) == []
  {
    LookApplies(d, p, op, c);
    ReleaseFreesLocks(d, p);
    ReleaseFreesLocks(Apply(d, p, op, c).0, p);
    hide Apply, Release;
  }

  lemma LookApplies(d: Data, p: Pid, op: Op, c: Choice)
    requires Looks(op)
    ensures var d' := Apply(d, p, op, c).0; d' == d.(locks := d'.locks)
  {
    ReleaseFreesLocks(d, p);
    hide Release, LiveOf;
  }

  lemma CommitChangesRow(d: Data, p: Pid, row: Uuid, c: Choice)
    requires Live(d.rows, row)
    ensures var op, d' := InTx(Commit(row)), Exec(d, p, InTx(Commit(row)), c).0;
            if c.fault.Lost? then d' == d.(locks := d'.locks) && News(d, p, op, c) == []
            else d' == d.(locks := d'.locks, rows := Bury(d.rows, row, d.now))
                 && News(d, p, op, c) == [Deleted(p, row, d.rows[row].userId)]
  {
    var buried := d.(rows := Bury(d.rows, row, d.now));
    ReleaseFreesLocks(d, p);
    ReleaseFreesLocks(buried, p);
    ReleaseFreesLocks(Release(buried, p), p);
    hide Release, Bury;
  }

  /** One call of a delete request: only a commit that takes effect changes a table, and it is on record. */
  lemma DeleteCall(d: Data, p: Pid, req: Request, pc: Pc, c: Choice)
    requires req.DeleteCredential? && AtDelete(pc, [], false) && !pc.Answered?
    requires pc.CommitRow? ==> Live(d.rows, pc.row) && req.row == Some(pc.row)
    ensures var op, d' := Plan(req, pc, c), Exec(d, p, Plan(req, pc, c), c).0;
            if pc.CommitRow? && !c.fault.Lost?
            then d' == d.(locks := d'.locks, rows := Bury(d.rows, pc.row, d.now))
                 && News(d, p, op, c) == [Deleted(p, pc.row, d.rows[pc.row].userId)]
            else d' == d.(locks := d'.locks) && News(d, p, op, c) == []
  {
    hide Exec, News, Bury, Live, Plan, AtDelete, Looks;
    DeletePlan(req, pc, c);
    if pc.CommitRow? {
      CommitChangesRow(d, p, pc.row, c);
    } else {
      LookChangesNothing(d, p, Plan(req, pc, c), c);
    }
  }

  lemma DeletePlan(req: Request, pc: Pc, c: Choice)
    requires req.DeleteCredential? && AtDelete(pc, [], false) && !pc.Answered?
    ensures if pc.CommitRow? then Plan(req, pc, c) == InTx(Commit(pc.row)) else Looks(Plan(req, pc, c))
  {
  }

  lemma CommitPoint(s: State, p: Pid)
    requires Inv(s) && p in s.procs && s.procs[p].req.DeleteCredential? && !s.procs[p].pc.Answered?
    ensures var pr := s.procs[p];
            && AtDelete(pr.pc, [], false)
            && (pr.pc.CommitRow? ==>
                  && Live(s.data.rows, pr.pc.row) && pr.req.row == Some(pr.pc.row)
                  && MintedFor(s.log, pr.req.cookie, s.data.rows[pr.pc.row].userId))
  {
    hide StoreInv, Authority, Trace;
    assert ProcInv(s.data, s.log, p, s.procs[p]);
  }

  lemma CommitAnswers(req: Request, pc: Pc, a: Answer, c: Choice)
    requires pc.CommitRow? && req.DeleteCredential?
    ensures Resume(req, pc, a, c).Answered?
  {
  }

  /**
   * Step k of delete request p marks the row the request names, live until then, for the owner its
   * cookie was minted for; the delete is on record and the request has its answer.
   */
  ghost predicate Marks(cfg: Config, es: seq<Event>, p: Pid, k: nat, row: Uuid, u: Uuid) {
    && Buries(cfg, es, k, row, u)
    && es[k].Advance? && es[k].p == p
    && var s := Run(cfg, es);
    && p in s.procs && s.procs[p].req.DeleteCredential? && s.procs[p].req.row == Some(row)
    && MintedFor(s.log, s.procs[p].req.cookie, u)
    && Deleted(p, row, u) in s.log
    && p in Run(cfg, es[..k + 1]).procs && Run(cfg, es[..k + 1]).procs[p].pc.Answered?
  }

  /** A step of a delete request leaves users and keyspace alone, and marks its row or leaves the rows alone. */
  lemma DeleteStep(cfg: Config, es: seq<Event>, p: Pid, k: nat) returns (row: Uuid, u: Uuid)
    requires Legal(cfg, es) && p in Run(cfg, es).procs && Run(cfg, es).procs[p].req.DeleteCredential?
    requires k < |es| && es[k].Advance? && es[k].p == p
    ensures DeletesOnly(Run(cfg, es[..k]).data, Run(cfg, es[..k + 1]).data, row)
    ensures Marks(cfg, es, p, k, row, u) || (KeepsRows(cfg, es, k) && forall f :: !Entered(cfg, es, k, p, f))
  {
    hide Run, Legal, Inv, Trace, Step, Exec, News, Plan, Resume, Enabled, UsersEvolve, RowsEvolve, AtDelete, Bury;
    AdvancedWasThere(cfg, es, k);
    LegalPrefix(cfg, es, k);
    Sound(cfg, es[..k]);
    RequestKept(cfg, es, p, k);
    RunEvolves(cfg, es, k);
    RunEvolves(cfg, es, k + 1);
    var s := Run(cfg, es[..k]);
    var pr := s.procs[p];
    CommitPoint(s, p);
    RunStep(cfg, es, k);
    SteppedTo(s, p, es[k].c);
    DeleteCall(s.data, p, pr.req, pr.pc, es[k].c);
    row, u := NIL_UUID, NIL_UUID;
    if pr.pc.CommitRow? && !es[k].c.fault.Lost? {
      row, u := pr.pc.row, s.data.rows[pr.pc.row].userId;
      CommitAnswers(pr.req, pr.pc, Exec(s.data, p, Plan(pr.req, pr.pc, es[k].c), es[k].c).1, es[k].c);
      assert Deleted(p, row, u) in Run(cfg, es[..k + 1]).log;
      MintedStays(s.log, Run(cfg, es).log, pr.req.cookie, u);
    }
  }

  lemma MintedStays(log: seq<Fact>, log': seq<Fact>, t: string, u: Uuid)
    requires log <= log' && MintedFor(log, t, u)
    ensures MintedFor(log', t, u)
  {
    var f :| f in log && f.Minted? && f.token == t && f.uid == u;
    assert f in log';
  }

  /** A step that marked a row was the request's last. */
  lemma MarksOnce(cfg: Config, es: seq<Event>, p: Pid, k: nat, row: Uuid, u: Uuid, i: nat)
    requires Legal(cfg, es) && Marks(cfg, es, p, k, row, u)
    requires i < |es| && es[i].Advance? && es[i].p == p
    ensures i <= k
  {
    hide Run, Legal, Buries;
    if k < i {
      AdvancedWasThere(cfg, es, i);
      LegalPrefix(cfg, es, i);
      assert es[..i][..k + 1] == es[..k + 1];
      RequestKept(cfg, es[..i], p, k + 1);
      assert false;
    }
  }

  /** Step k of p marks the row, and no other step of p changes any row. */
  ghost predicate MarksOnly(cfg: Config, es: seq<Event>, p: Pid, k: nat, row: Uuid, u: Uuid) {
    && Marks(cfg, es, p, k, row, u)
    && forall i :: 0 <= i < |es| && i != k && es[i].Advance? && es[i].p == p ==> KeepsRows(cfg, es, i)
  }

  /**
   * A 204 from DELETE comes after exactly one step of the request changed a row: it marked the row the
   * request names, live and owned by the user its session cookie was minted for. After any other answer,
   * absent ambiguous errors, no step had changed any row.
   */
  lemma DeleteAnswers(cfg: Config, es: seq<Event>, p: Pid)
    requires Legal(cfg, es) && p in Run(cfg, es).procs
    requires Run(cfg, es).procs[p].req.DeleteCredential? && Run(cfg, es).procs[p].pc.Answered?
    ensures Run(cfg, es).procs[p].pc.r.status == 204 ==> exists k, row, u :: MarksOnly(cfg, es, p, k, row, u)
    ensures Run(cfg, es).procs[p].pc.r.status != 204 && !Run(cfg, es).procs[p].torn ==>
              forall i :: 0 <= i < |es| && es[i].Advance? && es[i].p == p ==> KeepsRows(cfg, es, i)
  {
    hide Run, Legal, Inv, Shape, At, Trace, Entered, Marks, KeepsRows;
    Sound(cfg, es);
    var s := Run(cfg, es);
    ShapeOf(s, p);
    DeletePosition(s.procs[p].req, s.procs[p].pc, Trace(s.log, p), s.procs[p].torn);
    if s.procs[p].pc.r.status == 204 {
      TraceFacts(s.log, p, 0);
      OneDelete(cfg, es, p, Trace(s.log, p)[0]);
    } else if !s.procs[p].torn {
      forall i | 0 <= i < |es| && es[i].Advance? && es[i].p == p ensures KeepsRows(cfg, es, i) {
        var row, u := DeleteStep(cfg, es, p, i);
        if Marks(cfg, es, p, i, row, u) {
          DeletedWasMarked(cfg, es, p, i, row, u);
          var t := TraceIndex(s.log, Deleted(p, row, u), p);
          assert false;
        }
      }
    }
  }

  lemma DeletedWasMarked(cfg: Config, es: seq<Event>, p: Pid, k: nat, row: Uuid, u: Uuid)
    requires Marks(cfg, es, p, k, row, u)
    ensures Deleted(p, row, u) in Run(cfg, es).log
  {
    hide Run;
  }

  lemma OneDelete(cfg: Config, es: seq<Event>, p: Pid, f: Fact)
    requires Legal(cfg, es) && p in Run(cfg, es).procs && Run(cfg, es).procs[p].req.DeleteCredential?
    requires f in Run(cfg, es).log && f.Deleted? && f.who == p
    ensures exists k, row, u :: MarksOnly(cfg, es, p, k, row, u)
  {
    hide Run, Legal, Entered, Marks, KeepsRows;
    var k := EntryOf(cfg, es, f);
    EnteredAt(cfg, es, k, p, f);
    var row, u := DeleteStep(cfg, es, p, k);
    forall i | 0 <= i < |es| && i != k && es[i].Advance? && es[i].p == p ensures KeepsRows(cfg, es, i) {
      var row', u' := DeleteStep(cfg, es, p, i);
      if Marks(cfg, es, p, i, row', u') {
        MarksOnce(cfg, es, p, i, row', u', k);
        MarksOnce(cfg, es, p, k, row, u, i);
        assert false;
      }
    }
    assert MarksOnly(cfg, es, p, k, row, u);
  }

  lemma EnteredAt(cfg: Config, es: seq<Event>, k: nat, p: Pid, f: Fact)
    requires Entered(cfg, es, k, p, f)
    ensures k < |es| && es[k].Advance? && es[k].p == p
  {
  }

  /** From the row lock alone: two deletes of one row never both commit. */
  lemma RowDeletedOnce(cfg: Config, es: seq<Event>, f: Fact, g: Fact)
    requires Legal(cfg, es) && f in Run(cfg, es).log && g in Run(cfg, es).log
    requires f.Deleted? && g.Deleted? && f.row == g.row
    ensures f == g && !Live(Run(cfg, es).data.rows, f.row)
  {
    hide Run, Legal, ProcInv, UsersInv;
    Sound(cfg, es);
    SameKey(Run(cfg, es).log, f, g);
  }

  ghost predicate SameLiveId(rows: Rows, q: Uuid, r: Uuid) {
    Live(rows, q) && Live(rows, r) && rows[q].credentialId == rows[r].credentialId
  }

  /**
   * A row in the table is dead exactly when a request's delete of it is on record, and live rows never
   * share a credential id.
   */
  lemma CredentialTable(cfg: Config, es: seq<Event>, r: Uuid)
    requires Legal(cfg, es) && r in Run(cfg, es).data.rows
    ensures var s := Run(cfg, es);
            && (!Live(s.data.rows, r) <==> HasDeath(s.log, r))
            && (forall q :: SameLiveId(s.data.rows, q, r) ==> q == r)
  {
    hide Run, Legal, ProcInv, UsersInv;
    Sound(cfg, es);
  }
}

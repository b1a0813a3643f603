/** The service's guarantees, for every legal run: any requests, any interleaving, any faults and expiries. */
module Theorems {
  import opened Domain
  import opened Tables
  import opened Service
  import opened History
  import opened Invariant
  import opened StoreSteps
  import opened Soundness
  import opened Runs

  // ----- when a fact entered the history -----

  /** Event k of the run is the step of request p that put f on record. */
  ghost predicate Entered(cfg: Config, es: seq<Event>, k: nat, p: Pid, f: Fact) {
    && k < |es| && es[k].Advance? && es[k].p == p && p in Run(cfg, es[..k]).procs
    && var s := Run(cfg, es[..k]);
    f in News(s.data, p, Plan(s.procs[p].req, s.procs[p].pc, es[k].c), es[k].c)
  }

  lemma StepAdds(s: State, e: Event, f: Fact)
    requires f in Step(s, e).log && f !in s.log && !f.Provided?
    ensures e.Advance? && e.p in s.procs && f in News(s.data, e.p, Plan(s.procs[e.p].req, s.procs[e.p].pc, e.c), e.c)
    ensures f.who == e.p
  {
    hide News, Plan, Exec, Resume;
    if e.Advance? && e.p in s.procs {
      NewsIsOwn(s.data, e.p, Plan(s.procs[e.p].req, s.procs[e.p].pc, e.c), e.c);
    }
  }

  lemma {:induction false} EntryOf(cfg: Config, es: seq<Event>, f: Fact) returns (k: nat)
    requires Legal(cfg, es) && f in Run(cfg, es).log && !f.Provided?
    ensures Entered(cfg, es, k, f.who, f)
  {
    hide Step, Enabled, News, Plan;
    var fs := es[..|es| - 1];
    if f in Run(cfg, fs).log {
      k := EntryOf(cfg, fs, f);
      assert fs[..k] == es[..k] && fs[k] == es[k];
    } else {
      StepAdds(Run(cfg, fs), es[|es| - 1], f);
      k := |es| - 1;
    }
  }

  // ----- login -----

  /**
   * At event k, request p stands at the update with the row it looked up; the row is live, owned by u
   * and registered under the presented id, and the update takes effect on it.
   */
  ghost predicate AssertsLiveRow(cfg: Config, es: seq<Event>, k: nat, p: Pid, row: Uuid, u: Uuid) {
    && k < |es| && es[k].Advance? && es[k].p == p && p in Run(cfg, es[..k]).procs
    && var s := Run(cfg, es[..k]);
    var pr := s.procs[p];
    && pr.req.CompleteLogin? && pr.pc.RecordAssertion?
    && pr.pc.found.id == row && pr.pc.user.id == u
    && Live(s.data.rows, row) && s.data.rows[row].userId == u && s.data.rows[row].credentialId == pr.req.rawId
    && var seen := pr.pc.seen;
    Run(cfg, es[..k + 1]).data.rows
      == Tables.UpdateAfterAssertion(s.data.rows, row, seen.signCount, seen.backupEligible, seen.backupState,
          s.data.now).0
  }

  /** Only the update after an assertion records one, and only when it takes effect on a live row. */
  lemma AssertionNews(d: Data, p: Pid, op: Op, c: Choice, f: Fact)
    requires f in News(d, p, op, c) && f.Asserted?
    ensures op.OnRows? && op.r.UpdateAfterAssertion? && op.r.row == f.row
    ensures Live(d.rows, f.row) && d.rows[f.row].userId == f.uid && d.rows[f.row].credentialId == f.cid
    ensures Exec(d, p, op, c).0.rows
              == Tables.UpdateAfterAssertion(d.rows, op.r.row, op.r.count, op.r.be, op.r.bs, d.now).0
    ensures !c.fault.NoFault? ==> Exec(d, p, op, c).1 == Failed(StoreFailure)
  {
    hide ApplyUsers, ApplyTx, ApplyKeys;
  }

  lemma UpdatesOnlyAt(req: Request, pc: Pc, c: Choice)
    ensures Plan(req, pc, c).OnRows? && Plan(req, pc, c).r.UpdateAfterAssertion? ==>
              && pc.RecordAssertion?
              && Plan(req, pc, c).r
                   == RowOp.UpdateAfterAssertion(pc.found.id, pc.seen.signCount, pc.seen.backupEligible,
                       pc.seen.backupState)
  {
  }

  lemma AssertionMoment(cfg: Config, es: seq<Event>, f: Fact) returns (k: nat)
    requires Legal(cfg, es) && f in Run(cfg, es).log && f.Asserted?
    ensures AssertsLiveRow(cfg, es, k, f.who, f.row, f.uid) && Entered(cfg, es, k, f.who, f)
  {
    hide Run, Legal, News, Plan, StoreInv, Shape, At, Step, Exec, Resume, Tables.UpdateAfterAssertion;
    k := EntryOf(cfg, es, f);
    LegalPrefix(cfg, es, k);
    Sound(cfg, es[..k]);
    var s := Run(cfg, es[..k]);
    var pr := s.procs[f.who];
    assert ProcInv(s.data, s.log, f.who, pr);
    AssertionNews(s.data, f.who, Plan(pr.req, pr.pc, es[k].c), es[k].c, f);
    UpdatesOnlyAt(pr.req, pr.pc, es[k].c);
    RunStep(cfg, es, k);
    SteppedTo(s, f.who, es[k].c);
  }

  /** A login that meets an error at the update gives up. */
  lemma FailedUpdateAnswers(req: Request, pc: Pc, c: Choice)
    requires req.CompleteLogin? && pc.RecordAssertion?
    ensures Resume(req, pc, Failed(StoreFailure), c).Answered?
  {
  }

  lemma UpdateWithoutFault(cfg: Config, es: seq<Event>, f: Fact, k: nat)
    requires Legal(cfg, es) && f.Asserted? && Entered(cfg, es, k, f.who, f)
               && AssertsLiveRow(cfg, es, k, f.who, f.row, f.uid)
    requires f.who in Run(cfg, es).procs && !Run(cfg, es).procs[f.who].pc.Answered?
    ensures es[k].c.fault.NoFault?
  {
    hide Run, Legal, News, Plan, Step, Exec, Resume;
    var s := Run(cfg, es[..k]);
    var pr := s.procs[f.who];
    AssertionNews(s.data, f.who, Plan(pr.req, pr.pc, es[k].c), es[k].c, f);
    RunStep(cfg, es, k);
    SteppedTo(s, f.who, es[k].c);
    if !es[k].c.fault.NoFault? {
      FailedUpdateAnswers(pr.req, pr.pc, es[k].c);
      RequestKept(cfg, es, f.who, k + 1);
      assert false;
    }
  }

  /** The assertion of event k went through and preceded event m, at which p put its token for u on record. */
  ghost predicate AssertsThenMints(cfg: Config, es: seq<Event>, p: Pid, token: string, u: Uuid, k: nat, row: Uuid,
          m: nat) {
    && k < m && AssertsLiveRow(cfg, es, k, p, row, u) && es[k].c.fault.NoFault?
    && Entered(cfg, es, m, p, Minted(p, token, u))
  }

  /**
   * A login mints a session for u only after an earlier step of its own wrote the assertion, without
   * an error, to the very row it had looked up, while that row was live, owned by u, and registered
   * under the presented credential id. This holds whatever other requests delete or re-register in
   * between.
   */
  lemma LoginSafety(cfg: Config, es: seq<Event>, p: Pid, token: string, u: Uuid)
    requires Legal(cfg, es) && p in Run(cfg, es).procs && Run(cfg, es).procs[p].req.CompleteLogin?
    requires Minted(p, token, u) in Run(cfg, es).log
    ensures exists k, row, m :: AssertsThenMints(cfg, es, p, token, u, k, row, m)
  {
    hide Run, Legal, ProcInv, Shape, At, StoreInv, AssertsLiveRow, News, Plan;
    var f := Minted(p, token, u);
    var m := EntryOf(cfg, es, f);
    var fs := es[..m];
    LegalPrefix(cfg, es, m);
    Sound(cfg, fs);
    RequestKept(cfg, es, p, m);
    var s := Run(cfg, fs);
    ShapeOf(s, p);
    MintNews(s.data, p, s.procs[p].req, s.procs[p].pc, es[m].c, f);
    LoginMints(s.procs[p].req, s.procs[p].pc, Trace(s.log, p), s.procs[p].torn);
    TraceFacts(s.log, p, 1);
    var g := Trace(s.log, p)[1];
    var k := AssertionMoment(cfg, fs, g);
    UpdateWithoutFault(cfg, fs, g, k);
    SameEvent(cfg, es, m, k, p, g.row, u);
    assert AssertsThenMints(cfg, es, p, token, u, k, g.row, m);
  }

  lemma SameEvent(cfg: Config, es: seq<Event>, m: nat, k: nat, p: Pid, row: Uuid, u: Uuid)
    requires m <= |es| && AssertsLiveRow(cfg, es[..m], k, p, row, u)
    ensures k < m && AssertsLiveRow(cfg, es, k, p, row, u) && es[k] == es[..m][k]
  {
    hide Run;
    assert es[..m][..k] == es[..k] && es[..m][..k + 1] == es[..k + 1];
  }

  lemma MintNews(d: Data, p: Pid, req: Request, pc: Pc, c: Choice, f: Fact)
    requires f in News(d, p, Plan(req, pc, c), c) && f.Minted?
    ensures pc.MintSession? && pc.user.id == f.uid
  {
    hide ApplyUsers, ApplyRows, ApplyTx, ApplyKeys;
  }

  lemma LoginMints(req: Request, pc: Pc, tr: seq<Fact>, torn: bool)
    requires req.CompleteLogin? && Shape(req, tr) && At(req, pc, tr, torn) && pc.MintSession?
    ensures |tr| == 2 && tr[1].Asserted? && tr[1].uid == pc.user.id
  {
  }

  // ----- what the answers mean -----

  /** 400, 401, or a conflict found before the user was written. */
  predicate EarlyFailure(r: Response) {
    r.status == 400 || r.status == 401 || (r.status == 409 && r.code != CredentialConflict)
  }

  /**
   * The answers of the three completions. A session cookie comes with 200 and with nothing else, and
   * it is a token this request minted for the account it reports; 400, 401 and the conflicts before
   * the user write leave nothing but a consumed challenge; untorn, only 200 means the work was done.
   */
  lemma CompletionAnswers(cfg: Config, es: seq<Event>, p: Pid)
    requires Legal(cfg, es) && p in Run(cfg, es).procs && Run(cfg, es).procs[p].pc.Answered?
    requires Completes(Run(cfg, es).procs[p].req)
    ensures var s := Run(cfg, es);
            var r, tr, req := s.procs[p].pc.r, Trace(s.log, p), s.procs[p].req;
            var full := if req.CompletePromote? then 4 else 3;
            && |tr| <= full
            && (r.cookie.Some? ==> r.status == 200 && r.body.Account? && Minted(p, r.cookie.value, r.body.uid) in s.log)
            && (r.status == 200 ==> |tr| == full && (r.cookie.Some? <==> !req.CompleteRegister?))
            && (!s.procs[p].torn && |tr| == full ==> r.status == 200)
            && (EarlyFailure(r) ==>
                  tr == [] || (|tr| == 1 && tr[0].Took?))
  {
    hide Run, Legal, ProcInv, Shape, At, StoreInv;
    Sound(cfg, es);
    var s := Run(cfg, es);
    ShapeOf(s, p);
    CompletionPosition(s.procs[p].req, s.procs[p].pc, Trace(s.log, p), s.procs[p].torn, p);
    forall i | 0 <= i < |Trace(s.log, p)| ensures Trace(s.log, p)[i] in s.log && By(Trace(s.log, p)[i], p) {
      TraceFacts(s.log, p, i);
    }
  }

  lemma CompletionPosition(req: Request, pc: Pc, tr: seq<Fact>, torn: bool, p: Pid)
    requires Completes(req)
    requires Shape(req, tr) && At(req, pc, tr, torn) && pc.Answered?
    ensures var full := if req.CompletePromote? then 4 else 3;
            var r := pc.r;
            && |tr| <= full
            && (r.cookie.Some? ==>
                  && r.status == 200 && !req.CompleteRegister?
                  && tr[full - 1].Minted? && r.cookie == Some(tr[full - 1].token)
                       && r.body == Account(tr[full - 1].uid))
            && (r.status == 200 ==> |tr| == full && (r.cookie.Some? <==> !req.CompleteRegister?))
            && (!torn && |tr| == full ==> r.status == 200)
            && (EarlyFailure(r) ==>
                  tr == [] || (|tr| == 1 && tr[0].Took?))
  {
    match req {
      case CompleteRegister(_, _) =>
      case CompleteLogin(_, _, _, _) =>
      case CompletePromote(_, _, _) =>
    }
  }

  predicate Writes(f: Fact) {
    f.Born? || f.Promoted? || f.Inserted? || f.Asserted? || f.Deleted?
  }

  lemma SilentUsers(d: Data, p: Pid, op: UserOp, c: Choice)
    requires News(d, p, OnUsers(op), c) == [] || !Writes(News(d, p, OnUsers(op), c)[0])
    ensures Exec(d, p, OnUsers(op), c).0.users == d.users
  {
    match op {
      case GetByUsername(_) =>
      case GetById(_) =>
      case CreateGuest(_, _) =>
      case CreateRegistered(_, _) =>
      case PromoteGuest(_, _, _) =>
    }
  }

  lemma SilentRows(d: Data, p: Pid, op: RowOp, c: Choice)
    requires News(d, p, OnRows(op), c) == [] || !Writes(News(d, p, OnRows(op), c)[0])
    ensures Exec(d, p, OnRows(op), c).0.rows == d.rows
  {
    match op {
      case Insert(_) =>
      case GetByCredentialId(_) =>
      case ListByUserId(_) =>
      case UpdateAfterAssertion(_, _, _, _) =>
    }
  }

  lemma TxUsers(d: Data, p: Pid, op: TxOp)
    ensures ApplyTx(d, p, op).0.users == d.users
  {
    match op {
      case Lock(_) =>
      case Count(_, _) =>
      case Mark(_) =>
      case Commit(_) =>
    }
  }

  lemma SilentTx(d: Data, p: Pid, op: TxOp, c: Choice)
    requires News(d, p, InTx(op), c) == [] || !Writes(News(d, p, InTx(op), c)[0])
    ensures Exec(d, p, InTx(op), c).0.rows == d.rows && Exec(d, p, InTx(op), c).0.users == d.users
  {
    hide ApplyTx;
    TxRows(d, p, op);
    TxUsers(d, p, op);
  }

  /** A step that records no write leaves both tables as they were. */
  lemma SilentStep(d: Data, p: Pid, op: Op, c: Choice)
    requires News(d, p, op, c) == [] || !Writes(News(d, p, op, c)[0])
    ensures Exec(d, p, op, c).0.users == d.users && Exec(d, p, op, c).0.rows == d.rows
  {
    match op {
      case Skip =>
      case OnUsers(u) =>
        SilentUsers(d, p, u, c);
        hide ApplyUsers;
      case OnRows(r) =>
        SilentRows(d, p, r, c);
        hide ApplyRows;
      case InTx(t) =>
        SilentTx(d, p, t, c);
        hide ApplyTx;
      case OnKeys(k) =>
        KeyOpsKeepTables(d, k, c);
        hide ApplyKeys;
    }
  }

  /** No user was born or promoted, no row inserted, updated or deleted. */
  ghost predicate Quiet(tr: seq<Fact>) {
    forall i :: 0 <= i < |tr| ==> !Writes(tr[i])
  }

  lemma EarlyFailureIsQuiet(cfg: Config, es: seq<Event>, p: Pid)
    requires Legal(cfg, es) && p in Run(cfg, es).procs && Run(cfg, es).procs[p].pc.Answered?
    requires Completes(Run(cfg, es).procs[p].req)
    requires EarlyFailure(Run(cfg, es).procs[p].pc.r)
    ensures Quiet(Trace(Run(cfg, es).log, p))
  {
    hide Run, Legal, Trace;
    CompletionAnswers(cfg, es, p);
  }

  /**
   * A request with no write on record, whatever it answered, changed neither table at any of its
   * steps: a completion answered 400, 401 or a conflict before the user write, and also one that ended
   * in a 500 before it.
   */
  lemma EarlyFailureWritesNothing(cfg: Config, es: seq<Event>, p: Pid, k: nat)
    requires Legal(cfg, es) && Quiet(Trace(Run(cfg, es).log, p))
    requires k < |es| && es[k].Advance? && es[k].p == p
    ensures Run(cfg, es[..k + 1]).data.users == Run(cfg, es[..k]).data.users
    ensures Run(cfg, es[..k + 1]).data.rows == Run(cfg, es[..k]).data.rows
  {
    hide Run, Legal, Step, Trace;
    RunStep(cfg, es, k);
    RunEvolves(cfg, es, k + 1);
    StepIsSilent(Run(cfg, es[..k]), Run(cfg, es), p, es[k].c);
  }

  lemma StepIsSilent(s: State, s'': State, p: Pid, c: Choice)
    requires Later(Step(s, Advance(p, c)), s'') && Quiet(Trace(s''.log, p))
    ensures var s' := Step(s, Advance(p, c)); s'.data.users == s.data.users && s'.data.rows == s.data.rows
  {
    hide News, Plan, Exec, Resume, Trace, UsersEvolve, RowsEvolve;
    if p in s.procs {
      var op := Plan(s.procs[p].req, s.procs[p].pc, c);
      var fs := News(s.data, p, op, c);
      NewsIsOwn(s.data, p, op, c);
      if fs != [] {
        assert fs[0] in fs && fs[0] in Step(s, Advance(p, c)).log;
        var i := TraceIndex(s''.log, fs[0], p);
      }
      SilentStep(s.data, p, op, c);
    }
  }

  // ----- challenges -----

  function SavedIds(log: seq<Fact>): set<string> {
    set f | f in log && f.Saved? :: f.sid
  }

  function TakenIds(log: seq<Fact>): set<string> {
    set f | f in log && f.Took? :: f.sid
  }

  function Outstanding(d: Data): set<string> {
    set sid | sid in d.challenges && d.now < d.challenges[sid].expires
  }

  function Expired(d: Data): set<string> {
    set sid | sid in d.challenges && d.challenges[sid].expires <= d.now
  }

  /** Conservation: every saved challenge is outstanding, taken or expired, and only one of these. */
  lemma ChallengesConserved(cfg: Config, es: seq<Event>)
    requires Legal(cfg, es)
    ensures var s := Run(cfg, es);
            && SavedIds(s.log) == Outstanding(s.data) + TakenIds(s.log) + Expired(s.data)
            && |SavedIds(s.log)| == |Outstanding(s.data)| + |TakenIds(s.log)| + |Expired(s.data)|
  {
    hide Run, Legal, ProcInv;
    Sound(cfg, es);
    var s := Run(cfg, es);
    ChallengeSets(s.data, s.log);
    assert Outstanding(s.data) !! TakenIds(s.log) && (Outstanding(s.data) + TakenIds(s.log)) !! Expired(s.data);
  }

  lemma ChallengeSets(d: Data, log: seq<Fact>)
    requires ChallengesInv(d.challenges, log)
    ensures SavedIds(log) == Outstanding(d) + TakenIds(log) + Expired(d)
    ensures Outstanding(d) !! TakenIds(log) && (Outstanding(d) + TakenIds(log)) !! Expired(d)
  {
    forall sid | sid in SavedIds(log) ensures sid in d.challenges || sid in TakenIds(log) {
      var f :| f in log && f.Saved? && f.sid == sid;
      if sid !in d.challenges {
        var g :| g in log && g.Took? && g.sid == sid;
      }
    }
    forall sid | sid in TakenIds(log) ensures sid in SavedIds(log) && sid !in d.challenges {
      var f :| f in log && f.Took? && f.sid == sid;
      assert WasSaved(log, sid, f.payload) && WasTaken(log, sid);
      var g :| g in log && g.Saved? && g.sid == sid && g.payload == f.payload;
    }
    forall sid | sid in d.challenges ensures sid in SavedIds(log) {
      var g :| g in log && g.Saved? && g.sid == sid && g.payload == d.challenges[sid].value;
    }
  }

  /** Of all the requests that ever present a session id at most one gets the payload, whatever it is. */
  lemma OneShot(cfg: Config, es: seq<Event>, f: Fact, g: Fact)
    requires Legal(cfg, es) && f in Run(cfg, es).log && g in Run(cfg, es).log
    requires f.Took? && g.Took? && f.sid == g.sid
    ensures f == g
  {
    hide Run, Legal, ProcInv;
    Sound(cfg, es);
    SameKey(Run(cfg, es).log, f, g);
  }

  predicate Begins(req: Request) {
    req.BeginRegister? || req.BeginLogin? || req.BeginPromote?
  }

  /** Request b is a begin that saved this payload under this session id. */
  ghost predicate SavedBy(s: State, b: Pid, sid: string, payload: Payload) {
    b in s.procs && Begins(s.procs[b].req) && Saved(b, sid, payload) in s.log
  }

  /** The request's trace opens with the payload it took, and a begin request saved that payload. */
  lemma TakenWasSaved(s: State, f: Fact) returns (b: Pid)
    requires Inv(s) && f in s.log && f.Took?
    ensures SavedBy(s, b, f.sid, f.payload)
    ensures |Trace(s.log, b)| == 1 && Trace(s.log, b)[0] == Saved(b, f.sid, f.payload)
  {
    assert WasSaved(s.log, f.sid, f.payload);
    var g :| g in s.log && g.Saved? && g.sid == f.sid && g.payload == f.payload;
    b := g.who;
    hide StoreInv, ProcInv, Shape, At;
    ShapeOf(s, b);
    var i := TraceIndex(s.log, g, b);
    SavePosition(s.procs[b].req, Trace(s.log, b), i);
  }

  lemma SavePosition(req: Request, tr: seq<Fact>, i: nat)
    requires Shape(req, tr) && i < |tr| && tr[i].Saved?
    ensures Begins(req) && i == 0 && |tr| == 1
  {
  }

  lemma TakePosition(req: Request, tr: seq<Fact>)
    requires Completes(req)
    requires Shape(req, tr) && tr != []
    ensures tr[0].Took? && tr[0].sid == req.sid
  {
  }

  /** The begin answered 200 with the session id, or an ambiguous error hid its save from it. */
  predicate Promised(pc: Pc, torn: bool, sid: string) {
    pc.Answered? && ((pc.r.status == 200 && pc.r.body == SessionId(sid)) || (torn && pc.r.status == 500))
  }

  lemma SavedPosition(req: Request, pc: Pc, tr: seq<Fact>, torn: bool)
    requires Shape(req, tr) && At(req, pc, tr, torn) && |tr| == 1 && tr[0].Saved?
    ensures Promised(pc, torn, tr[0].sid)
  {
  }

  /**
   * Request b is a begin that, by event k, had saved payload under sid; it answered 200 with sid, or met
   * an ambiguous error.
   */
  ghost predicate BegunBy(cfg: Config, es: seq<Event>, k: nat, b: Pid, sid: string, payload: Payload) {
    && k <= |es| && SavedBy(Run(cfg, es[..k]), b, sid, payload)
    && b in Run(cfg, es).procs && Promised(Run(cfg, es).procs[b].pc, Run(cfg, es).procs[b].torn, sid)
  }

  /** Completion p took, at event k, what begin b had saved before. */
  ghost predicate Matched(cfg: Config, es: seq<Event>, p: Pid, b: Pid, k: nat, payload: Payload) {
    && p in Run(cfg, es).procs && Completes(Run(cfg, es).procs[p].req)
    && Entered(cfg, es, k, p, Took(p, Run(cfg, es).procs[p].req.sid, payload))
    && BegunBy(cfg, es, k, b, Run(cfg, es).procs[p].req.sid, payload)
  }

  lemma TookNews(d: Data, p: Pid, op: Op, c: Choice, f: Fact)
    requires f in News(d, p, op, c) && f.Took?
    ensures op == OnKeys(TakeChallenge(f.sid)) && f.sid in d.challenges && d.challenges[f.sid].value == f.payload
  {
    hide ApplyUsers, ApplyRows, ApplyTx;
  }

  /** What a step takes, an earlier begin had saved. */
  lemma TakenWasStored(s: State, p: Pid, op: Op, c: Choice, f: Fact) returns (b: Pid)
    requires Inv(s) && f in News(s.data, p, op, c) && f.Took?
    ensures SavedBy(s, b, f.sid, f.payload)
    ensures |Trace(s.log, b)| == 1 && Trace(s.log, b)[0] == Saved(b, f.sid, f.payload)
    ensures Promised(s.procs[b].pc, s.procs[b].torn, f.sid)
  {
    hide ProcInv, Shape, At, UsersInv, RowsInv, TokensStored, TokensLogged, Unrepeated, News;
    TookNews(s.data, p, op, c, f);
    assert WasSaved(s.log, f.sid, f.payload);
    var g :| g in s.log && g.Saved? && g.sid == f.sid && g.payload == f.payload;
    b := g.who;
    ShapeOf(s, b);
    var i := TraceIndex(s.log, g, b);
    SavePosition(s.procs[b].req, Trace(s.log, b), i);
    SavedPosition(s.procs[b].req, s.procs[b].pc, Trace(s.log, b), s.procs[b].torn);
  }

  lemma TakeMatched(cfg: Config, es: seq<Event>, p: Pid, f: Fact) returns (b: Pid, k: nat)
    requires Legal(cfg, es) && f in Run(cfg, es).log && f.Took? && f.who == p
    requires p in Run(cfg, es).procs && Completes(Run(cfg, es).procs[p].req)
               && Run(cfg, es).procs[p].req.sid == f.sid
    ensures Matched(cfg, es, p, b, k, f.payload)
  {
    hide Run, Legal, News, Plan, Inv, Trace;
    k := EntryOf(cfg, es, f);
    LegalPrefix(cfg, es, k);
    Sound(cfg, es[..k]);
    var s := Run(cfg, es[..k]);
    b := TakenWasStored(s, p, Plan(s.procs[p].req, s.procs[p].pc, es[k].c), es[k].c, f);
    RequestKept(cfg, es, b, k);
  }

  /** A successful completion took, at some moment, what a successful begin had saved before that moment. */
  lemma CompletionsMatchBegins(cfg: Config, es: seq<Event>, p: Pid) returns (b: Pid, k: nat, payload: Payload)
    requires Legal(cfg, es) && p in Run(cfg, es).procs && Run(cfg, es).procs[p].pc.Answered?
    requires Completes(Run(cfg, es).procs[p].req) && Run(cfg, es).procs[p].pc.r.status == 200
    ensures Matched(cfg, es, p, b, k, payload)
  {
    CompletionAnswers(cfg, es, p);
    hide Run, Legal, ProcInv, Shape, At, StoreInv, Matched;
    Sound(cfg, es);
    var s := Run(cfg, es);
    ShapeOf(s, p);
    TakePosition(s.procs[p].req, Trace(s.log, p));
    TraceFacts(s.log, p, 0);
    var f := Trace(s.log, p)[0];
    b, k := TakeMatched(cfg, es, p, f);
    payload := f.payload;
  }

  /** No two completions are matched with one begin: the map from successful completions to begins is injective. */
  lemma MatchesAreInjective(cfg: Config, es: seq<Event>, p: Pid, q: Pid, b: Pid, k: nat, m: nat, payload: Payload,
          other: Payload)
    requires Legal(cfg, es) && Matched(cfg, es, p, b, k, payload) && Matched(cfg, es, q, b, m, other)
    ensures p == q
  {
    hide Run, Legal, News, Plan, Inv, BegunBy;
    var s := Run(cfg, es);
    MatchedFacts(cfg, es, p, b, k, payload);
    MatchedFacts(cfg, es, q, b, m, other);
    Sound(cfg, es);
    SavesOnce(s, b, s.procs[p].req.sid, payload, s.procs[q].req.sid, other);
    OneShot(cfg, es, Took(p, s.procs[p].req.sid, payload), Took(q, s.procs[q].req.sid, other));
  }

  /** What a match leaves on record at the end of the run. */
  lemma MatchedFacts(cfg: Config, es: seq<Event>, p: Pid, b: Pid, k: nat, payload: Payload)
    requires Legal(cfg, es) && Matched(cfg, es, p, b, k, payload)
    ensures var s := Run(cfg, es);
            && Took(p, s.procs[p].req.sid, payload) in s.log
            && b in s.procs && Saved(b, s.procs[p].req.sid, payload) in s.log
  {
    hide Run, Legal, News, Plan, UsersEvolve, RowsEvolve, Step;
    var f := Took(p, Run(cfg, es).procs[p].req.sid, payload);
    RunStep(cfg, es, k);
    SteppedTo(Run(cfg, es[..k]), p, es[k].c);
    RunEvolves(cfg, es, k + 1);
    RunEvolves(cfg, es, k);
    assert f in Run(cfg, es[..k + 1]).log;
  }

  lemma SavesOnce(s: State, b: Pid, sid: string, payload: Payload, sid': string, payload': Payload)
    requires Inv(s) && b in s.procs && Saved(b, sid, payload) in s.log && Saved(b, sid', payload') in s.log
    ensures sid == sid' && payload == payload'
  {
    hide StoreInv, ProcInv, Shape, At, Trace;
    ShapeOf(s, b);
    var i := TraceIndex(s.log, Saved(b, sid, payload), b);
    var j := TraceIndex(s.log, Saved(b, sid', payload'), b);
    SavePosition(s.procs[b].req, Trace(s.log, b), i);
    SavePosition(s.procs[b].req, Trace(s.log, b), j);
  }
}

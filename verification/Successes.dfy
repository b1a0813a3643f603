/**
 * What is promised can be had: from every reachable state, while the others pause, a request whose
 * credentials are in order runs to its 200 and leaves in the stores exactly what it should.
 */
module Successes {
  import opened Domain
  import opened Tables
  import opened Service
  import opened History
  import opened Invariant
  import opened Soundness
  import opened Runs
  import opened Calls
  import opened Outcomes
  import opened RunOutcomes
  import A = AssertionLog
  import E = Environment
  import L = Liveness
  import O = OpenDeletes
  import R = Refinement
  import S = Stores

  // ----- one request alone -----

  /** es' goes on from es with a new request's arrival and its faultless calls, all under verdict v, alone. */
  ghost predicate Alone(cfg: Config, es: seq<Event>, es': seq<Event>, p: Pid, req: Request, v: Verdict) {
    && Legal(cfg, es') && |es| < |es'| && es'[..|es|] == es && es'[|es|] == Arrive(p, req)
    && p !in Run(cfg, es).procs
    && (forall k :: |es| < k < |es'| ==> CalmCall(es'[k], p, v))
  }

  predicate CalmCall(e: Event, p: Pid, v: Verdict) {
    e.Advance? && e.p == p && e.c.fault.NoFault? && e.c.mint && e.c.verdict == v
  }

  /** No row the request may have to wait for is locked. */
  ghost predicate Unhindered(d: Data, req: Request) {
    && !req.DeleteCredential?
    && (req.CompleteLogin? ==> forall row :: Presented(d, req.rawId, row) ==> row !in d.locks)
  }

  /** While the request runs alone the locks stay, and it comes to want none of the locked rows. */
  ghost predicate Ahead(d: Data, s: State, p: Pid, req: Request) {
    && p in s.procs && s.procs[p].req == req && s.data.locks == d.locks
    && (req.CompleteLogin? ==>
          var pc := s.procs[p].pc;
          && (pc.Take? || pc.Resolve? ==> s.data.rows == d.rows)
          && (A.Finds(pc) ==> pc.found.id !in d.locks))
  }

  lemma PlanWaits(d: Data, req: Request, pc: Pc, c: Choice)
    requires Blocked(d, Plan(req, pc, c))
    ensures pc.LockRow? || (pc.RecordAssertion? && pc.found.id in d.locks)
  {
  }

  lemma WhoWaits(s: State, p: Pid)
    requires Inv(s) && p in s.procs
    ensures s.procs[p].pc.LockRow? ==> s.procs[p].req.DeleteCredential?
    ensures s.procs[p].pc.RecordAssertion? ==> s.procs[p].req.CompleteLogin?
  {
    hide StoreInv, Shape, At, Authority, Trace;
    assert ProcInv(s.data, s.log, p, s.procs[p]);
  }

  /** A faultless choice under verdict v with which the request can make its next call. */
  lemma CalmChoice(d: Data, s: State, p: Pid, req: Request, v: Verdict) returns (c: Choice)
    requires Inv(s) && Unhindered(d, req) && Ahead(d, s, p, req) && !s.procs[p].pc.Answered?
    ensures CalmCall(Advance(p, c), p, v) && Enabled(s, Advance(p, c))
  {
    hide Plan, Blocked, IsListing, FreshString, FreshId, ProcInv, UsersInv;
    c := O.FreshChoice(s);
    c := c.(mint := true, verdict := v);
    var pc := s.procs[p].pc;
    if pc.ListPasskeys? || pc.FindPasskey? {
      var list := S.ListingExists(s.data.rows, pc.uid);
      c := c.(list := list);
    }
    WhoWaits(s, p);
    if Blocked(s.data, Plan(req, pc, c)) {
      PlanWaits(s.data, req, pc, c);
    }
    L.ListsOwn(req, pc, c);
  }

  lemma LoginEntry(req: Request, pc: Pc, a: Answer, c: Choice)
    requires req.CompleteLogin?
    ensures var pc' := AfterLogin(pc, req, a, c);
            pc' != pc ==> !pc'.Take? && (pc'.Resolve? ==> pc.Take?)
  {
  }

  lemma LocksStay(s: State, p: Pid, c: Choice)
    requires Inv(s) && p in s.procs && !s.procs[p].req.DeleteCredential? && c.fault.NoFault?
    ensures Exec(s.data, p, Plan(s.procs[p].req, s.procs[p].pc, c), c).0.locks == s.data.locks
  {
    hide Inv, Plan, Apply;
    var pr := s.procs[p];
    R.PlanIsPlain(pr.req, pr.pc, c);
    if pr.pc.LockRow? || E.InTransaction(pr.pc) {
      R.InDelete(s, p);
    }
    R.PlainLocks(s.data, p, Plan(pr.req, pr.pc, c), c);
  }

  lemma StaysAhead(d: Data, s: State, p: Pid, req: Request, c: Choice)
    requires Inv(s) && Unhindered(d, req) && Ahead(d, s, p, req) && Enabled(s, Advance(p, c)) && c.fault.NoFault?
    ensures Ahead(d, Step(s, Advance(p, c)), p, req)
  {
    hide Inv, Exec, Plan, Resume, News, Enabled, Takes, Reads;
    SteppedTo(s, p, c);
    LocksStay(s, p, c);
    L.StepLowers(s, p, c);
    if req.CompleteLogin? {
      var pc := s.procs[p].pc;
      var a := Exec(s.data, p, Plan(req, pc, c), c).1;
      LoginResumes(req, pc, a, c);
      LoginEntry(req, pc, a, c);
      A.FoundFrom(req, pc, a, c);
      OrderlyInRuns(s);
      LoginPlans(req, pc, c);
      if pc.Take? {
        TakeDone(s.data, p, req.sid, c);
        TakeKeepsRows(s.data, c, Exec(s.data, p, Plan(req, pc, c), c).0, req.sid);
      }
      if pc.Resolve? {
        ResolveDone(s.data, p, req.rawId, c);
        if a.TheCredential? {
          SamePresented(s.data, d, req.rawId, a.cred.id);
        }
      }
    }
  }

  lemma SamePresented(d: Data, d': Data, cid: Bytes, row: Uuid)
    requires Presented(d, cid, row) && d'.rows == d.rows
    ensures Presented(d', cid, row)
  {
  }

  lemma LoginResumes(req: Request, pc: Pc, a: Answer, c: Choice)
    requires req.CompleteLogin?
    ensures Resume(req, pc, a, c) == AfterLogin(pc, req, a, c)
  {
  }

  lemma LoginPlans(req: Request, pc: Pc, c: Choice)
    requires req.CompleteLogin?
    ensures pc.Take? ==> Plan(req, pc, c) == OnKeys(TakeChallenge(req.sid))
    ensures pc.Resolve? ==> Plan(req, pc, c) == OnRows(GetByCredentialId(req.rawId))
  {
  }

  lemma TakeKeepsRows(d: Data, c: Choice, d': Data, sid: string)
    requires Takes(Call(d, c, d'), sid)
    ensures d'.rows == d.rows
  {
  }

  lemma GoAlone(cfg: Config, es: seq<Event>, es1: seq<Event>, p: Pid, req: Request, v: Verdict)
    returns (es': seq<Event>)
    requires Alone(cfg, es, es1, p, req, v) && Unhindered(Run(cfg, es).data, req)
    requires Ahead(Run(cfg, es).data, Run(cfg, es1), p, req)
    ensures Alone(cfg, es, es', p, req, v)
    ensures p in Run(cfg, es').procs && Run(cfg, es').procs[p].req == req && Run(cfg, es').procs[p].pc.Answered?
    decreases L.Rank(Run(cfg, es1).procs[p].pc)
  {
    hide Inv, Enabled, Step, Unhindered, L.Rank;
    var s := Run(cfg, es1);
    assert p in s.procs && s.procs[p].req == req;
    if s.procs[p].pc.Answered? {
      es' := es1;
    } else {
      Sound(cfg, es1);
      var c := CalmChoice(Run(cfg, es).data, s, p, req, v);
      L.StepLowers(s, p, c);
      StaysAhead(Run(cfg, es).data, s, p, req, c);
      var es2 := es1 + [Advance(p, c)];
      assert es2[..|es2| - 1] == es1 && es2[|es2| - 1] == Advance(p, c) && es2[..|es|] == es1[..|es|];
      es' := GoAlone(cfg, es, es2, p, req, v);
    }
  }

  lemma Arrives(s: State, p: Pid, req: Request)
    requires p !in s.procs && Unhindered(s.data, req)
    ensures Enabled(s, Arrive(p, req)) && Ahead(s.data, Step(s, Arrive(p, req)), p, req)
  {
  }

  /** From every reachable state a request that need not wait runs, alone and without a fault, to its answer. */
  lemma RunAlone(cfg: Config, es: seq<Event>, req: Request, v: Verdict) returns (es': seq<Event>, p: Pid)
    requires Legal(cfg, es) && Unhindered(Run(cfg, es).data, req)
    ensures Alone(cfg, es, es', p, req, v)
    ensures p in Run(cfg, es').procs && Run(cfg, es').procs[p].req == req && Run(cfg, es').procs[p].pc.Answered?
  {
    hide Enabled, Step, Unhindered, Ahead;
    p := O.LargestId(Run(cfg, es).procs.Keys);
    var es1 := es + [Arrive(p, req)];
    assert es1[..|es|] == es && es1[|es1| - 1] == Arrive(p, req);
    Arrives(Run(cfg, es), p, req);
    es' := GoAlone(cfg, es, es1, p, req, v);
  }

  // ----- its calls follow each other -----

  /** Faultless calls under verdict v, from d to d', each finding what the one before it left. */
  ghost predicate Chained(calls: seq<Call>, v: Verdict, d: Data, d': Data) {
    && (forall i :: 0 <= i < |calls| ==> Faultless(calls[i]) && calls[i].c.mint && calls[i].c.verdict == v)
    && (forall i :: 0 < i < |calls| ==> calls[i].before == calls[i - 1].after)
    && (if |calls| == 0 then d' == d else calls[0].before == d && calls[|calls| - 1].after == d')
  }

  lemma {:induction false} MomentsAlone(es: seq<Event>, es': seq<Event>, p: Pid)
    requires |es| < |es'| && es'[..|es|] == es && !es'[|es|].Advance?
    requires forall k :: 0 <= k < |es| ==> !(es[k].Advance? && es[k].p == p)
    requires forall k :: |es| < k < |es'| ==> es'[k].Advance? && es'[k].p == p
    ensures |MomentsOf(es', p)| == |es'| - |es| - 1
    ensures forall i :: 0 <= i < |MomentsOf(es', p)| ==> MomentsOf(es', p)[i] == |es| + 1 + i
  {
    var fs := es'[..|es'| - 1];
    if |es'| == |es| + 1 {
      assert fs == es;
      NoMoments(es, p);
    } else {
      assert fs[..|es|] == es;
      MomentsAlone(es, fs, p);
    }
  }

  lemma {:induction false} NoMoments(es: seq<Event>, p: Pid)
    requires forall k :: 0 <= k < |es| ==> !(es[k].Advance? && es[k].p == p)
    ensures MomentsOf(es, p) == []
  {
    if es != [] {
      NoMoments(es[..|es| - 1], p);
    }
  }

  /** A request that is not there has not moved. */
  lemma NotYet(cfg: Config, es: seq<Event>, p: Pid)
    requires Legal(cfg, es) && p !in Run(cfg, es).procs
    ensures forall k :: 0 <= k < |es| ==> !(es[k].Advance? && es[k].p == p)
  {
    hide Run, Legal;
    forall k | 0 <= k < |es| && es[k].Advance? ensures es[k].p in Run(cfg, es).procs {
      AdvancedWasThere(cfg, es, k);
      RequestKept(cfg, es, es[k].p, k);
    }
  }

  /** The i-th call is the i-th event after the arrival. */
  lemma CallsInTurn(cfg: Config, es: seq<Event>, es': seq<Event>, p: Pid, req: Request, v: Verdict)
    requires Legal(cfg, es) && Alone(cfg, es, es', p, req, v)
    ensures var n, calls := |es|, CallsOf(cfg, es', p);
            && |es'| == n + 1 + |calls|
            && forall i :: 0 <= i < |calls| ==>
                 && Faultless(calls[i]) && calls[i].c.mint && calls[i].c.verdict == v
                 && calls[i].before == Found(cfg, es', n + 1 + i) && calls[i].after == Found(cfg, es', n + 2 + i)
  {
    hide Run, Legal, MomentsOf, Found;
    NotYet(cfg, es, p);
    MomentsAlone(es, es', p);
    var n, calls := |es|, CallsOf(cfg, es', p);
    forall i | 0 <= i < |calls|
      ensures Faultless(calls[i]) && calls[i].c.mint && calls[i].c.verdict == v
      ensures calls[i].before == Found(cfg, es', n + 1 + i) && calls[i].after == Found(cfg, es', n + 2 + i)
    {
      assert CalmCall(es'[n + 1 + i], p, v);
    }
  }

  lemma AloneIsChained(cfg: Config, es: seq<Event>, es': seq<Event>, p: Pid, req: Request, v: Verdict)
    requires Legal(cfg, es) && Alone(cfg, es, es', p, req, v)
    ensures Chained(CallsOf(cfg, es', p), v, Run(cfg, es).data, Run(cfg, es').data)
  {
    hide Run, Legal, MomentsOf, CallsOf, Found, Faultless;
    CallsInTurn(cfg, es, es', p, req, v);
    AroundTheArrival(cfg, es, es', p, req, v);
    var n, calls := |es|, CallsOf(cfg, es', p);
    forall i | 0 < i < |calls| ensures calls[i].before == calls[i - 1].after {
      assert n + 1 + i == n + 2 + (i - 1);
    }
  }

  lemma AroundTheArrival(cfg: Config, es: seq<Event>, es': seq<Event>, p: Pid, req: Request, v: Verdict)
    requires Alone(cfg, es, es', p, req, v)
    ensures |es| < |es'| && Found(cfg, es', |es| + 1) == Run(cfg, es).data
    ensures Found(cfg, es', |es'|) == Run(cfg, es').data
  {
    hide Run, Legal;
    assert es'[..|es'|] == es';
    ArrivalKeepsData(cfg, es', |es|);
  }

  lemma ArrivalKeepsData(cfg: Config, es: seq<Event>, k: nat)
    requires k < |es| && es[k].Arrive?
    ensures Run(cfg, es[..k + 1]).data == Run(cfg, es[..k]).data
  {
    assert es[..k + 1][..k] == es[..k];
  }

  // ----- login -----

  /** The stores after a login: challenge gone, row updated, session there, presented guest token dropped. */
  ghost predicate SignedInto(d: Data, d': Data, sid: string, row: Uuid, seen: LibCredential, u: Uuid, cookie: string,
          token: string)
    requires row in d.rows
  {
    d' == d.(challenges := d.challenges - {sid},
             rows := d.rows[row := AssertedRow(d.rows[row], seen, d.now)],
             sessions := d.sessions[token := Timed(u, d.now + d.cfg.sessionTtl)],
             guests := if cookie == "" then d.guests else d.guests - {cookie},
             locks := d'.locks)
  }

  /** A faultless sign-in with nobody in between mints the session and drops the guest token. */
  lemma SignInData(calls: seq<Call>, v: Verdict, d: Data, d': Data, i: nat, u: Uuid, cookie: string, r: Response)
    requires Chained(calls, v, d, d') && SignInAnswered(calls, i, u, cookie, r)
    ensures |calls| > i && r.cookie.Some? && r == Response(200, Fine, r.cookie, None, Account(u))
    ensures var b := calls[i].before;
            d' == b.(sessions := b.sessions[r.cookie.value := Timed(u, b.now + b.cfg.sessionTtl)],
                     guests := if cookie == "" then b.guests else b.guests - {cookie}, locks := d'.locks)
  {
    assert Faultless(calls[i]);
    if cookie != "" {
      assert calls[i + 1].before == calls[i].after && Faultless(calls[i + 1]);
    }
  }

  lemma LoginLooksUp(req: Request, calls: seq<Call>, d: Data, d': Data, v: Verdict, row: Uuid, r: Response)
    requires req.CompleteLogin? && LoginAnswered(req, calls, r) && Chained(calls, v, d, d') && v.Asserts?
    requires req.sid != "" && req.hasCredential && Calls.Outstanding(d, req.sid)
    requires Orderly(d) && Presented(d, req.rawId, row)
    ensures |calls| >= 3 && Presented(calls[1].before, req.rawId, row) && AssertionAnswered(req, calls, row, r)
    ensures Leaves(Call(d, calls[0].c, calls[2].before), d.(challenges := d.challenges - {req.sid}))
    ensures calls[1].before.rows == d.rows
  {
    hide AssertionAnswered;
    assert calls[0].before == d && LookupAnswered(req, calls, r);
    assert calls[1].before == calls[0].after && Presented(calls[1].before, req.rawId, row);
    var row' :| Presented(calls[1].before, req.rawId, row') && AssertionAnswered(req, calls, row', r);
    assert row' == row;
    assert |calls| >= 3 by { AsksLibrary(req, calls, row, r); }
    assert calls[2].before == calls[1].after;
  }

  lemma AsksLibrary(req: Request, calls: seq<Call>, row: Uuid, r: Response)
    requires req.CompleteLogin? && |calls| >= 2 && Presented(calls[1].before, req.rawId, row)
    requires AssertionAnswered(req, calls, row, r)
    ensures |calls| >= 3
  {
    hide SignInAnswered, Records;
  }

  lemma LoginData(req: Request, calls: seq<Call>, d: Data, d': Data, row: Uuid, seen: LibCredential, r: Response)
    requires req.CompleteLogin? && LoginAnswered(req, calls, r) && Chained(calls, Asserts(seen), d, d')
    requires req.sid != "" && req.hasCredential && Calls.Outstanding(d, req.sid)
    requires Orderly(d) && Presented(d, req.rawId, row) && d.rows[row].userId in d.users
    ensures var u := d.rows[row].userId;
            && r.cookie.Some? && r == Response(200, Fine, r.cookie, None, Account(u))
            && SignedInto(d, d', req.sid, row, seen, u, req.cookie, r.cookie.value)
  {
    hide LoginAnswered, AssertedRow, SignInAnswered;
    LoginLooksUp(req, calls, d, d', Asserts(seen), row, r);
    assert calls[3].before == calls[2].after;
    SignInData(calls, Asserts(seen), d, d', 4, d.rows[row].userId, req.cookie, r);
    assert calls[4].before == calls[3].after;
  }

  lemma OwnerIsThere(s: State, row: Uuid)
    requires Inv(s) && row in s.data.rows
    ensures s.data.rows[row].userId in s.data.users
  {
    hide ProcInv;
  }

  /**
   * From every reachable state: with a challenge outstanding, a live unlocked credential presented and its
   * assertion accepted, a login that meets no fault and nobody else ends in a 200 whose cookie is a session
   * of the owner, the row carrying what the authenticator reported; the stores are otherwise as they were.
   */
  lemma LoginCanSucceed(cfg: Config, es: seq<Event>, sid: string, rawId: Bytes, cookie: string, row: Uuid,
          seen: LibCredential)
    returns (es': seq<Event>, p: Pid, token: string)
    requires Legal(cfg, es) && sid != "" && Calls.Outstanding(Run(cfg, es).data, sid)
    requires Presented(Run(cfg, es).data, rawId, row) && row !in Run(cfg, es).data.locks
    ensures Alone(cfg, es, es', p, CompleteLogin(sid, true, rawId, cookie), Asserts(seen))
    ensures var d, s' := Run(cfg, es).data, Run(cfg, es');
            var u := d.rows[row].userId;
            && p in s'.procs && s'.procs[p].pc == Answered(Response(200, Fine, Some(token), None, Account(u)))
            && SignedInto(d, s'.data, sid, row, seen, u, cookie, token)
  {
    hide Run, Legal, Inv, Alone, Chained, LoginAnswered, Orderly, MomentsOf;
    var req, d := CompleteLogin(sid, true, rawId, cookie), Run(cfg, es).data;
    Sound(cfg, es);
    OrderlyInRuns(Run(cfg, es));
    OwnerIsThere(Run(cfg, es), row);
    OnlyOnePresented(d, rawId, row);
    es', p := RunAlone(cfg, es, req, Asserts(seen));
    AloneIsChained(cfg, es, es', p, req, Asserts(seen));
    assert Legal(cfg, es') by { AloneIsLegal(cfg, es, es', p, req, Asserts(seen)); }
    RunsAnswer(cfg, es', p);
    var r := Run(cfg, es').procs[p].pc.r;
    LoginData(req, CallsOf(cfg, es', p), d, Run(cfg, es').data, row, seen, r);
    token := r.cookie.value;
  }

  lemma AloneIsLegal(cfg: Config, es: seq<Event>, es': seq<Event>, p: Pid, req: Request, v: Verdict)
    requires Alone(cfg, es, es', p, req, v)
    ensures Legal(cfg, es')
  {
  }

  lemma OnlyOnePresented(d: Data, cid: Bytes, row: Uuid)
    requires Orderly(d) && Presented(d, cid, row)
    ensures forall r :: Presented(d, cid, r) ==> r == row
  {
  }

  // ----- register -----

  /** The stores after a registration: challenge gone, user born, attested credential filed under it. */
  ghost predicate RegisteredInto(d: Data, d': Data, sid: string, payload: Payload, made: LibCredential, u: Uuid,
          row: Uuid) {
    d' == d.(challenges := d.challenges - {sid},
             users := d.users[u := User(u, payload.username, payload.displayName, false, d.now, None)],
             rows := d.rows[row := AttestedRow(row, u, payload.session.userHandle, made, d.now)],
             locks := d'.locks)
  }

  lemma RegisterData(req: Request, calls: seq<Call>, d: Data, d': Data, made: LibCredential, r: Response)
    returns (u: Uuid, row: Uuid)
    requires req.CompleteRegister? && RegisterAnswered(req, calls, r) && Chained(calls, Attests(made), d, d')
    requires req.sid != "" && req.hasCredential && Calls.Outstanding(d, req.sid)
    requires var payload := d.challenges[req.sid].value;
             !payload.promote && !NameTaken(d.users, payload.username)
    requires Convertible(made) && !IdTaken(d.rows, made.id)
    ensures r == Success(Enrolled(u, row))
    ensures RegisteredInto(d, d', req.sid, d.challenges[req.sid].value, made, u, row)
  {
    hide AttestedRow, IdTaken, NameTaken;
    assert calls[0].before == d && AttestedAt(calls[0], req.sid, false);
    assert calls[1].before == calls[0].after && calls[2].before == calls[1].after;
    u, row := calls[1].c.uuid, calls[2].c.uuid;
  }

  /**
   * From every reachable state: with a register payload outstanding under a free name and an attested
   * credential of a free id, a registration that meets no fault and nobody else ends in a 200, the user and
   * the credential in the tables.
   */
  lemma RegistrationCanSucceed(cfg: Config, es: seq<Event>, sid: string, made: LibCredential)
    returns (es': seq<Event>, p: Pid, u: Uuid, row: Uuid)
    requires Legal(cfg, es) && sid != "" && Calls.Outstanding(Run(cfg, es).data, sid)
    requires var payload := Run(cfg, es).data.challenges[sid].value;
             !payload.promote && !NameTaken(Run(cfg, es).data.users, payload.username)
    requires Convertible(made) && !IdTaken(Run(cfg, es).data.rows, made.id)
    ensures Alone(cfg, es, es', p, CompleteRegister(sid, true), Attests(made))
    ensures var d, s' := Run(cfg, es).data, Run(cfg, es');
            && p in s'.procs && s'.procs[p].pc == Answered(Success(Enrolled(u, row)))
            && RegisteredInto(d, s'.data, sid, d.challenges[sid].value, made, u, row)
  {
    hide Run, Legal, Alone, Chained, RegisterAnswered, MomentsOf, NameTaken, IdTaken, Convertible;
    var req, v := CompleteRegister(sid, true), Attests(made);
    es', p := RunAlone(cfg, es, req, v);
    AloneIsChained(cfg, es, es', p, req, v);
    AloneIsLegal(cfg, es, es', p, req, v);
    RunsAnswer(cfg, es', p);
    u, row := RegisterData(req, CallsOf(cfg, es', p), Run(cfg, es).data, Run(cfg, es').data, made,
        Run(cfg, es').procs[p].pc.r);
  }

  // ----- promote -----

  /** The stores after a promotion: the guest's row is a registered user's, with a credential and a session. */
  ghost predicate PromotedInto(d: Data, d': Data, sid: string, payload: Payload, made: LibCredential, cookie: string,
          row: Uuid, token: string)
    requires payload.promoteUserId in d.users
  {
    var g := payload.promoteUserId;
    d' == d.(challenges := d.challenges - {sid},
             users := d.users[g := User(d.users[g].id, payload.username, payload.displayName, false,
                 d.users[g].createdAt, Some(d.now))],
             rows := d.rows[row := AttestedRow(row, g, payload.session.userHandle, made, d.now)],
             sessions := d.sessions[token := Timed(g, d.now + d.cfg.sessionTtl)],
             guests := if cookie == "" then d.guests else d.guests - {cookie},
             locks := d'.locks)
  }

  lemma PromoteData(req: Request, calls: seq<Call>, d: Data, d': Data, made: LibCredential, r: Response)
    returns (row: Uuid)
    requires req.CompletePromote? && PromoteAnswered(req, calls, r) && Chained(calls, Attests(made), d, d')
    requires req.sid != "" && req.hasCredential && Calls.Outstanding(d, req.sid)
    requires var payload := d.challenges[req.sid].value;
             payload.promote && GuestThere(d, payload.promoteUserId) && !NameTaken(d.users, payload.username)
    requires Convertible(made) && !IdTaken(d.rows, made.id)
    ensures var payload := d.challenges[req.sid].value;
            && r.cookie.Some? && r == Response(200, Fine, r.cookie, None, Account(payload.promoteUserId))
            && PromotedInto(d, d', req.sid, payload, made, req.cookie, row, r.cookie.value)
  {
    hide AttestedRow, IdTaken, NameTaken, SignInAnswered;
    assert calls[0].before == d && AttestedAt(calls[0], req.sid, true);
    assert calls[1].before == calls[0].after && calls[2].before == calls[1].after;
    SignInData(calls, Attests(made), d, d', 3, d.challenges[req.sid].value.promoteUserId, req.cookie, r);
    assert calls[3].before == calls[2].after;
    row := calls[2].c.uuid;
  }

  /** The same of a promotion: with a promote payload outstanding for a guest that is still one. */
  lemma PromotionCanSucceed(cfg: Config, es: seq<Event>, sid: string, cookie: string, made: LibCredential)
    returns (es': seq<Event>, p: Pid, row: Uuid, token: string)
    requires Legal(cfg, es) && sid != "" && Calls.Outstanding(Run(cfg, es).data, sid)
    requires var d := Run(cfg, es).data;
             var payload := d.challenges[sid].value;
             payload.promote && GuestThere(d, payload.promoteUserId) && !NameTaken(d.users, payload.username)
    requires Convertible(made) && !IdTaken(Run(cfg, es).data.rows, made.id)
    ensures Alone(cfg, es, es', p, CompletePromote(sid, true, cookie), Attests(made))
    ensures var d, s' := Run(cfg, es).data, Run(cfg, es');
            var payload := d.challenges[sid].value;
            && p in s'.procs
            && s'.procs[p].pc == Answered(Response(200, Fine, Some(token), None, Account(payload.promoteUserId)))
            && PromotedInto(d, s'.data, sid, payload, made, cookie, row, token)
  {
    hide Run, Legal, Alone, Chained, PromoteAnswered, MomentsOf, NameTaken, IdTaken, Convertible;
    var req, v := CompletePromote(sid, true, cookie), Attests(made);
    es', p := RunAlone(cfg, es, req, v);
    AloneIsChained(cfg, es, es', p, req, v);
    AloneIsLegal(cfg, es, es', p, req, v);
    RunsAnswer(cfg, es', p);
    var r := Run(cfg, es').procs[p].pc.r;
    row := PromoteData(req, CallsOf(cfg, es', p), Run(cfg, es).data, Run(cfg, es').data, made, r);
    token := r.cookie.value;
  }
}

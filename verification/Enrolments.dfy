/** Nobody is enrolled without an attestation, and what is stored is what was attested; a recorded login succeeds. */
module Enrolments {
  import opened Domain
  import opened Tables
  import opened Service
  import opened History
  import opened Invariant
  import opened Soundness
  import opened Runs
  import opened Theorems
  import opened Accounts
  import opened Calls
  import opened Outcomes
  import opened RunOutcomes
  import opened Promises

  // ----- which call made a change -----

  /** A birth or promotion on record changed the users table, an insert the rows. */
  lemma NewsShows(d: Data, p: Pid, op: Op, c: Choice, f: Fact)
    requires f in News(d, p, op, c) && FreshId(d, c.uuid) && Orderly(d)
    ensures (f.Born? && !f.guest) || f.Promoted? ==> Exec(d, p, op, c).0.users != d.users
    ensures f.Inserted? ==> f.row !in d.rows && f.row in Exec(d, p, op, c).0.rows
  {
    ExecParts(d, p, op, c);
    hide Exec, ApplyTx, ApplyKeys;
    if f.Born? { assert c.uuid !in d.users && c.uuid in Apply(d, p, op, c).0.users; }
    if f.Promoted? { assert d.users[f.uid].isGuest && !Apply(d, p, op, c).0.users[f.uid].isGuest; }
  }

  lemma EntryShows(cfg: Config, es: seq<Event>, k: nat, p: Pid, f: Fact)
    requires Legal(cfg, es) && Entered(cfg, es, k, p, f)
    ensures (f.Born? && !f.guest) || f.Promoted? ==> CallAt(cfg, es, k).after.users != CallAt(cfg, es, k).before.users
    ensures f.Inserted? ==> f.row !in CallAt(cfg, es, k).before.rows && f.row in CallAt(cfg, es, k).after.rows
  {
    hide Run, Legal, News, Exec, Plan, Resume, Enabled, Inv, Orderly;
    AdvancedWasThere(cfg, es, k);
    LegalPrefix(cfg, es, k);
    Sound(cfg, es[..k]);
    OrderlyInRuns(Run(cfg, es[..k]));
    RunStep(cfg, es, k);
    var s := Run(cfg, es[..k]);
    SteppedTo(s, p, es[k].c);
    FreshIn(s, p, es[k].c);
    NewsShows(s.data, p, Plan(s.procs[p].req, s.procs[p].pc, es[k].c), es[k].c, f);
  }

  lemma FreshIn(s: State, p: Pid, c: Choice)
    requires Enabled(s, Advance(p, c))
    ensures FreshId(s.data, c.uuid)
  {
  }

  // ----- what the table says of an enrolling completion -----

  function Promotes(req: Request): bool {
    req.CompletePromote?
  }

  /** The table of register/complete and promote/complete, up to the insert. */
  ghost predicate EnrolledThrough(req: Request, calls: seq<Call>)
    requires req.CompleteRegister? || req.CompletePromote?
  {
    && (forall i :: 0 <= i < |calls| && i != 1 ==> calls[i].after.users == calls[i].before.users)
    && (forall i :: 0 <= i < |calls| && i != 2 ==> calls[i].after.rows == calls[i].before.rows)
    && (|calls| >= 2 ==> AttestedAt(calls[0], req.sid, Promotes(req)))
    && (|calls| >= 3 ==>
          var payload, made := calls[0].before.challenges[req.sid].value, calls[0].c.verdict.made;
          && Convertible(made)
          && exists u :: Inserts(calls[2], u, payload.session.userHandle, made))
  }

  lemma TakesTables(k: Call, sid: string)
    requires Takes(k, sid)
    ensures k.after.users == k.before.users && k.after.rows == k.before.rows
  {
  }

  lemma UserTables(k: Call, g: Uuid, name: string, display: string)
    requires MakesUser(k, name, display) || MakesRegistered(k, g, name, display)
    ensures k.after.rows == k.before.rows
  {
  }

  lemma InsertTables(k: Call, u: Uuid, handle: Bytes, made: LibCredential)
    requires Inserts(k, u, handle, made)
    ensures k.after.users == k.before.users
  {
    hide AttestedRow;
  }

  lemma SignInTables(calls: seq<Call>, i: nat, u: Uuid, cookie: string, r: Response)
    requires SignInAnswered(calls, i, u, cookie, r)
    ensures forall j :: i <= j < |calls| ==> calls[j].after.users == calls[j].before.users
    ensures forall j :: i <= j < |calls| ==> calls[j].after.rows == calls[j].before.rows
  {
  }

  lemma RegisterThrough(req: Request, calls: seq<Call>, r: Response)
    requires req.CompleteRegister? && RegisterAnswered(req, calls, r)
    ensures EnrolledThrough(req, calls)
  {
    hide AttestedRow, Inserts, MakesUser, NameTaken, InsertRefused, InsertRefusal;
    if calls != [] {
      TakesTables(calls[0], req.sid);
      if |calls| >= 2 {
        var payload := calls[0].before.challenges[req.sid].value;
        UserTables(calls[1], 0, payload.username, payload.displayName);
        if |calls| >= 3 {
          InsertTables(calls[2], calls[1].c.uuid, payload.session.userHandle, calls[0].c.verdict.made);
        }
      }
    }
    hide Takes;
  }

  lemma PromoteThrough(req: Request, calls: seq<Call>, r: Response)
    requires req.CompletePromote? && PromoteAnswered(req, calls, r)
    ensures EnrolledThrough(req, calls)
  {
    hide AttestedRow, Inserts, MakesRegistered, NameTaken, InsertRefused, InsertRefusal, SignInAnswered;
    if calls != [] {
      TakesTables(calls[0], req.sid);
      if |calls| >= 2 {
        var payload := calls[0].before.challenges[req.sid].value;
        UserTables(calls[1], payload.promoteUserId, payload.username, payload.displayName);
        if |calls| >= 3 {
          InsertTables(calls[2], payload.promoteUserId, payload.session.userHandle, calls[0].c.verdict.made);
          if |calls| >= 4 {
            SignInTables(calls, 3, payload.promoteUserId, req.cookie, r);
          }
        }
      }
    }
    hide Takes;
  }

  lemma AnswersThrough(req: Request, calls: seq<Call>, r: Response)
    requires Answers(req, calls, r) && (req.CompleteRegister? || req.CompletePromote?)
    ensures EnrolledThrough(req, calls)
  {
    hide RegisterAnswered, PromoteAnswered, EnrolledThrough;
    if req.CompleteRegister? {
      RegisterThrough(req, calls, r);
    } else {
      PromoteThrough(req, calls, r);
    }
  }

  /** The same of a request that may still be in flight. */
  lemma InFlightThrough(cfg: Config, es: seq<Event>, p: Pid)
    requires Legal(cfg, es) && p in Run(cfg, es).procs
    requires var req := Run(cfg, es).procs[p].req; req.CompleteRegister? || req.CompletePromote?
    ensures EnrolledThrough(Run(cfg, es).procs[p].req, CallsOf(cfg, es, p))
  {
    hide Run, Legal, Answers, MomentsOf, CallAt, Inserts, AttestedAt, Convertible;
    var fs, r := InFlightAnswers(cfg, es, p);
    var req := Run(cfg, es).procs[p].req;
    var calls, more := CallsOf(cfg, es, p), CallsOf(cfg, es + fs, p);
    AnswersThrough(req, more, r);
    forall i | 0 <= i < |calls| ensures calls[i] == more[i] {
      MomentsAreIn(es, p);
      MomentIsAdvance(es, p, i);
      SameCall(cfg, es, fs, MomentsOf(es, p)[i]);
    }
  }

  lemma MomentIsAdvance(es: seq<Event>, p: Pid, i: nat)
    requires i < |MomentsOf(es, p)|
    ensures MomentsOf(es, p)[i] < |es| && es[MomentsOf(es, p)[i]].Advance? && es[MomentsOf(es, p)[i]].p == p
  {
  }

  // ----- attestation -----

  /** At event j request p took a payload of its own flow and the library attested a credential. */
  ghost predicate AttestedIn(cfg: Config, es: seq<Event>, j: nat, p: Pid, promote: bool) {
    && j < |es| && es[j].Advance? && es[j].p == p && p in Run(cfg, es).procs
    && (Run(cfg, es).procs[p].req.CompleteRegister? || Run(cfg, es).procs[p].req.CompletePromote?)
    && AttestedAt(CallAt(cfg, es, j), Run(cfg, es).procs[p].req.sid, promote)
  }

  /** Every registration and every promotion on record was preceded by its own attested take. */
  lemma EnrolmentNeedsAttestation(cfg: Config, es: seq<Event>, f: Fact) returns (j: nat, k: nat)
    requires Legal(cfg, es) && f in Run(cfg, es).log && ((f.Born? && !f.guest) || f.Promoted?)
    ensures j < k && Entered(cfg, es, k, f.who, f) && AttestedIn(cfg, es, j, f.who, f.Promoted?)
  {
    hide Run, Legal, MomentsOf, CallAt, News, Plan, AttestedAt, Inserts;
    var p := f.who;
    WhoEnrols(cfg, es, f);
    k := EntryOf(cfg, es, f);
    EntryShows(cfg, es, k, p, f);
    var i := PlaceOf(es, p, k);
    InFlightThrough(cfg, es, p);
    assert CallsOf(cfg, es, p)[i] == CallAt(cfg, es, k);
    j := MomentsOf(es, p)[0];
    MomentIsAdvance(es, p, 0);
    MomentsInOrder(es, p, 0, i);
  }

  lemma WhoEnrols(cfg: Config, es: seq<Event>, f: Fact)
    requires Legal(cfg, es) && f in Run(cfg, es).log && ((f.Born? && !f.guest) || f.Promoted?)
    ensures f.who in Run(cfg, es).procs
    ensures var req := Run(cfg, es).procs[f.who].req;
            if f.Promoted? then req.CompletePromote? else req.CompleteRegister?
  {
    hide Run, Legal;
    if f.Promoted? {
      PromotionProvenance(cfg, es, f);
    } else {
      RegistrationProvenance(cfg, es, f);
    }
  }

  /**
   * The library's verdict decides: once a payload of the right flow is in hand, any verdict but an
   * attestation ends the request there with 400, attestation_rejected exactly for a rejected attestation,
   * and nothing but the take is on record.
   */
  lemma RefusedAttestation(cfg: Config, es: seq<Event>, p: Pid)
    requires Legal(cfg, es) && p in Run(cfg, es).procs && Run(cfg, es).procs[p].pc.Answered?
    requires var req := Run(cfg, es).procs[p].req; req.CompleteRegister? || req.CompletePromote?
    requires |MomentsOf(es, p)| > 0
    requires var k := CallsOf(cfg, es, p)[0];
             var req := Run(cfg, es).procs[p].req;
             && Faultless(k) && Calls.Outstanding(k.before, req.sid)
             && k.before.challenges[req.sid].value.promote == Promotes(req)
    ensures var verdict, r := CallsOf(cfg, es, p)[0].c.verdict, Run(cfg, es).procs[p].pc.r;
            && (!verdict.Attests? ==>
                  && r == Denied(400, if verdict.AttestationRejected? then AttestationRefused else InvalidRequest)
                  && |MomentsOf(es, p)| == 1
                  && forall f :: f in Trace(Run(cfg, es).log, p) ==> f.Took?)
            && (verdict.Attests? ==> r.status != 400)
  {
    hide Run, Legal, MomentsOf, CallAt, Trace;
    hide MakesUser, MakesRegistered, NameTaken, Inserts, InsertRefused, SignInAnswered, Convertible;
    RunsAnswer(cfg, es, p);
    CompletionAnswers(cfg, es, p);
    SignInStatus();
  }

  lemma SignInStatus()
    ensures forall calls, i, u, cookie, r :: SignInAnswered(calls, i, u, cookie, r) ==> r.status != 400
  {
  }

  // ----- what is stored -----

  /** Only the two enrolling completions insert credentials. */
  lemma WhoInserts(req: Request, tr: seq<Fact>, i: nat)
    requires Shape(req, tr) && i < |tr| && tr[i].Inserted?
    ensures req.CompleteRegister? || req.CompletePromote?
  {
  }

  /**
   * Every inserted credential is the attested one: the row that event k put in the table is, field by field,
   * the credential the library attested at the request's own take, event j, for the handle of the payload
   * taken, and no other row changed.
   */
  lemma EnrolmentStores(cfg: Config, es: seq<Event>, f: Fact) returns (j: nat, k: nat)
    requires Legal(cfg, es) && f in Run(cfg, es).log && f.Inserted?
    ensures j < k && Entered(cfg, es, k, f.who, f)
    ensures f.who in Run(cfg, es).procs && AttestedIn(cfg, es, j, f.who, Promotes(Run(cfg, es).procs[f.who].req))
    ensures var take := CallAt(cfg, es, j);
            var payload := take.before.challenges[Run(cfg, es).procs[f.who].req.sid].value;
            && Convertible(take.c.verdict.made)
            && Found(cfg, es, k + 1).rows == Found(cfg, es, k).rows[f.row :=
                 AttestedRow(f.row, f.uid, payload.session.userHandle, take.c.verdict.made, Found(cfg, es, k).now)]
  {
    hide Run, Legal, MomentsOf, News, Plan, Shape, At, StoreInv, Takes, Inserts, AttestedRow, Convertible, Trace;
    var p := f.who;
    Sound(cfg, es);
    ShapeOf(Run(cfg, es), p);
    var t := TraceIndex(Run(cfg, es).log, f, p);
    WhoInserts(Run(cfg, es).procs[p].req, Trace(Run(cfg, es).log, p), t);
    k := EntryOf(cfg, es, f);
    EntryShows(cfg, es, k, p, f);
    var i := PlaceOf(es, p, k);
    InFlightThrough(cfg, es, p);
    var calls, req := CallsOf(cfg, es, p), Run(cfg, es).procs[p].req;
    assert calls[i] == CallAt(cfg, es, k) && i == 2;
    j := MomentsOf(es, p)[0];
    MomentIsAdvance(es, p, 0);
    MomentsInOrder(es, p, 0, 2);
    var payload, made := calls[0].before.challenges[req.sid].value, calls[0].c.verdict.made;
    var u :| Inserts(calls[2], u, payload.session.userHandle, made);
    InsertedRow(calls[2], u, payload.session.userHandle, made, f.row);
    OwnerOnRecord(cfg, es, k, f);
    RowsUser(f.row, u, payload.session.userHandle, made, calls[2].before.now);
  }

  lemma InsertedRow(k: Call, u: Uuid, handle: Bytes, made: LibCredential, row: Uuid)
    requires Inserts(k, u, handle, made) && row !in k.before.rows && row in k.after.rows
    ensures row == k.c.uuid
    ensures k.after.rows == k.before.rows[row := AttestedRow(row, u, handle, made, k.before.now)]
  {
    hide AttestedRow;
  }

  lemma RowsUser(id: Uuid, u: Uuid, handle: Bytes, made: LibCredential, now: nat)
    ensures AttestedRow(id, u, handle, made, now).userId == u
  {
  }

  lemma OwnerOnRecord(cfg: Config, es: seq<Event>, k: nat, f: Fact)
    requires f.Inserted? && Legal(cfg, es) && Entered(cfg, es, k, f.who, f)
    ensures f.row in Found(cfg, es, k + 1).rows && Found(cfg, es, k + 1).rows[f.row].userId == f.uid
  {
    hide Run, Legal, News, Plan, Exec, Resume, ProcInv, UsersInv;
    RunStep(cfg, es, k);
    SteppedTo(Run(cfg, es[..k]), f.who, es[k].c);
    LegalPrefix(cfg, es, k + 1);
    Sound(cfg, es[..k + 1]);
  }
}

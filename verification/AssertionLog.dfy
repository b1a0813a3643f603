/** The anomaly log over the service's own runs: what the logins on one credential put there adds up. */
module AssertionLog {
  import opened Domain
  import opened Tables
  import opened Service
  import opened History
  import opened Invariant
  import opened StoreSteps
  import opened Soundness
  import opened Runs
  import opened Theorems
  import opened Anomalies
  import BigEndian

  // ----- logins on one row -----

  /** A login is about to write its assertion to the row; its warnings are logged first. */
  ghost predicate Updates(s: State, e: Event, row: Uuid) {
    e.Advance? && e.p in s.procs && s.procs[e.p].pc.RecordAssertion? && s.procs[e.p].pc.found.id == row
  }

  /** The write takes effect. */
  ghost predicate Lands(s: State, e: Event, row: Uuid) {
    Updates(s, e, row) && !e.c.fault.Lost? && Live(s.data.rows, row)
  }

  /** What authenticators reported at the writes that took effect, in order. */
  ghost function Seen(cfg: Config, es: seq<Event>, row: Uuid): seq<LibCredential> {
    if es == [] then []
    else
      var fs, e := es[..|es| - 1], es[|es| - 1];
      var s := Run(cfg, fs);
      Seen(cfg, fs, row) + (if Lands(s, e, row) then [s.procs[e.p].pc.seen] else [])
  }

  /** What the event logs: the warnings of a login that is about to write its assertion. */
  ghost function Logs(s: State, e: Event): seq<Warning> {
    if e.Advance? && e.p in s.procs && s.procs[e.p].pc.RecordAssertion?
    then Warnings(s.procs[e.p].pc.found, s.procs[e.p].pc.seen)
    else []
  }

  /** What request p logged. */
  ghost function LoggedBy(cfg: Config, es: seq<Event>, p: Pid): seq<Warning> {
    if es == [] then []
    else
      var fs, e := es[..|es| - 1], es[|es| - 1];
      LoggedBy(cfg, fs, p) + (if e.Advance? && e.p == p then Logs(Run(cfg, fs), e) else [])
  }

  /** What was logged about the row. */
  ghost function LoggedOn(cfg: Config, es: seq<Event>, row: Uuid): seq<Warning> {
    if es == [] then []
    else
      var fs, e := es[..|es| - 1], es[|es| - 1];
      var s := Run(cfg, fs);
      LoggedOn(cfg, fs, row) + (if Updates(s, e, row) then Logs(s, e) else [])
  }

  /** The row as it was registered. */
  ghost function BirthOf(cfg: Config, es: seq<Event>, row: Uuid): Row
    requires row in Run(cfg, es).data.rows
  {
    if row in Run(cfg, es[..|es| - 1]).data.rows then BirthOf(cfg, es[..|es| - 1], row) else Run(cfg, es).data.rows[row]
  }

  function Observed(r: Row): Observation {
    Observation(Scan(r).signCount, r.backupEligible, r.backupState)
  }

  // ----- how a step changes the row -----

  /** Only the row operations and a commit that take effect change the rows. */
  lemma RowsAfter(d: Data, p: Pid, op: Op, c: Choice)
    ensures Exec(d, p, op, c).0.rows ==
              if op.OnRows? && !c.fault.Lost? then ApplyRows(d.users, d.rows, op.r, c, d.now).0
              else if op.InTx? && op.t.Commit? && !c.fault.Lost? then Bury(d.rows, op.t.row, d.now)
              else d.rows
  {
    hide ApplyUsers, ApplyRows, ApplyTx, ApplyKeys, Bury;
    match op {
      case Skip =>
      case OnUsers(_) =>
      case OnRows(_) =>
      case InTx(t) => TxRows(d, p, t);
      case OnKeys(k) => KeyOpsKeepTables(d, k, c);
    }
  }

  lemma RowOpOn(us: Users, rows: Rows, op: RowOp, c: Choice, now: nat, row: Uuid)
    requires row in rows && c.uuid !in rows
    ensures var rows' := ApplyRows(us, rows, op, c, now).0;
            && row in rows' && rows'[row].aaguid == rows[row].aaguid
            && if op.UpdateAfterAssertion? && op.row == row && Live(rows, row)
               then Observed(rows'[row]) == Observation(op.count, op.be, op.bs)
               else Observed(rows'[row]) == Observed(rows[row])
  {
  }

  lemma BuryOn(rows: Rows, id: Uuid, now: nat, row: Uuid)
    requires row in rows
    ensures var rows' := Bury(rows, id, now);
            row in rows' && rows'[row].aaguid == rows[row].aaguid && Observed(rows'[row]) == Observed(rows[row])
  {
  }

  /** A step leaves the row's observation alone, unless it is a write that lands there. */
  lemma AdvanceOn(s: State, p: Pid, c: Choice, row: Uuid)
    requires Inv(s) && Enabled(s, Advance(p, c)) && row in s.data.rows
    ensures var e, rows, rows' := Advance(p, c), s.data.rows, Step(s, Advance(p, c)).data.rows;
            && row in rows' && rows'[row].aaguid == rows[row].aaguid
            && Observed(rows'[row]) ==
                 if Lands(s, e, row) then Seeing(s.procs[p].pc.seen) else Observed(rows[row])
  {
    hide Inv, Exec, News, Resume, Plan, Bury, ApplyRows, Observed, FreshString, IsListing;
    SteppedTo(s, p, c);
    var pr := s.procs[p];
    var op := Plan(pr.req, pr.pc, c);
    RowsAfter(s.data, p, op, c);
    UpdatesOnlyAt(pr.req, pr.pc, c);
    if pr.pc.RecordAssertion? {
      UpdatePlanned(pr.req, pr.pc, c);
    }
    if op.OnRows? {
      RowOpOn(s.data.users, s.data.rows, op.r, c, s.data.now, row);
    }
    if op.InTx? && op.t.Commit? {
      BuryOn(s.data.rows, op.t.row, s.data.now, row);
    }
  }

  function Seeing(seen: LibCredential): Observation {
    Observation(seen.signCount, seen.backupEligible, seen.backupState)
  }

  lemma UpdatePlanned(req: Request, pc: Pc, c: Choice)
    requires pc.RecordAssertion?
    ensures Plan(req, pc, c).OnRows? && Plan(req, pc, c).r.UpdateAfterAssertion?
  {
  }

  lemma QuietOn(s: State, e: Event, row: Uuid)
    requires !e.Advance? && Enabled(s, e) && row in s.data.rows
    ensures var rows, rows' := s.data.rows, Step(s, e).data.rows;
            row in rows' && rows'[row].aaguid == rows[row].aaguid && Observed(rows'[row]) == Observed(rows[row])
  {
  }

  lemma StepOn(s: State, e: Event, row: Uuid)
    requires Inv(s) && Enabled(s, e) && row in s.data.rows
    ensures var rows, rows' := s.data.rows, Step(s, e).data.rows;
            && row in rows' && rows'[row].aaguid == rows[row].aaguid
            && Observed(rows'[row]) ==
                 if Lands(s, e, row) then Seeing(s.procs[e.p].pc.seen) else Observed(rows[row])
  {
    hide Inv, Enabled, Step, Observed, Live;
    if e.Advance? {
      AdvanceOn(s, e.p, e.c, row);
    } else {
      QuietOn(s, e, row);
    }
  }

  lemma UpdateFindsRow(s: State, p: Pid)
    requires Inv(s) && p in s.procs && s.procs[p].pc.RecordAssertion?
    ensures s.procs[p].pc.found.id in s.data.rows
  {
    hide StoreInv, Shape, At, Authority, Trace;
    assert ProcInv(s.data, s.log, p, s.procs[p]);
  }

  /** Nothing lands on, or is logged about, a row that is not there yet. */
  lemma AbsentRow(s: State, e: Event, row: Uuid)
    requires Inv(s) && row !in s.data.rows
    ensures !Updates(s, e, row)
  {
    hide Inv;
    if e.Advance? && e.p in s.procs && s.procs[e.p].pc.RecordAssertion? {
      UpdateFindsRow(s, e.p);
    }
  }

  lemma {:induction false} NothingBeforeBirth(cfg: Config, es: seq<Event>, row: Uuid)
    requires Legal(cfg, es) && row !in Run(cfg, es).data.rows
    ensures Seen(cfg, es, row) == [] && LoggedOn(cfg, es, row) == []
  {
    hide Run, Legal, Inv, Lands, Updates;
    if es != [] {
      var fs := es[..|es| - 1];
      LegalPrefix(cfg, es, |fs|);
      RunEvolves(cfg, es, |fs|);
      NothingBeforeBirth(cfg, fs, row);
      Sound(cfg, fs);
      AbsentRow(Run(cfg, fs), es[|fs|], row);
      LandsUpdates(Run(cfg, fs), es[|fs|], row);
    }
  }

  lemma LandsUpdates(s: State, e: Event, row: Uuid)
    ensures Lands(s, e, row) ==> Updates(s, e, row)
  {
  }

  /** The row always holds what was last seen, and the AAGUID it was registered with. */
  lemma {:induction false} RowHoldsLastSeen(cfg: Config, es: seq<Event>, row: Uuid)
    requires Legal(cfg, es) && row in Run(cfg, es).data.rows
    ensures var r, born := Run(cfg, es).data.rows[row], BirthOf(cfg, es, row);
            && Observed(r) == Observations(born, Seen(cfg, es, row))[|Seen(cfg, es, row)|]
            && r.aaguid == born.aaguid
  {
    hide Run, Legal, Inv, Lands, Scan;
    assert es != [] by { EmptyTables(cfg); }
    var fs, e := es[..|es| - 1], es[|es| - 1];
    var s := Run(cfg, fs);
    LegalPrefix(cfg, es, |fs|);
    RunStep(cfg, es, |fs|);
    assert es[..|fs| + 1] == es;
    if row in s.data.rows {
      RowHoldsLastSeen(cfg, fs, row);
      Sound(cfg, fs);
      LastEnabled(cfg, es);
      StepOn(s, e, row);
    } else {
      NothingBeforeBirth(cfg, fs, row);
      Sound(cfg, fs);
      AbsentRow(s, e, row);
      LandsUpdates(s, e, row);
    }
  }

  lemma EmptyTables(cfg: Config)
    ensures Run(cfg, []).data.rows == map[]
  {
  }

  lemma LastEnabled(cfg: Config, es: seq<Event>)
    requires Legal(cfg, es) && es != []
    ensures Enabled(Run(cfg, es[..|es| - 1]), es[|es| - 1])
  {
    hide Run, Enabled;
  }

  // ----- what a login compares with -----

  /** At event j request p read found from the row under its id. */
  ghost predicate ResolvedAt(cfg: Config, es: seq<Event>, j: nat, p: Pid, found: Credential) {
    && j < |es| && es[j].Advance? && es[j].p == p
    && var s := Run(cfg, es[..j]);
    && p in s.procs && s.procs[p].pc.Resolve?
    && found.id in s.data.rows && found == Scan(s.data.rows[found.id])
  }

  lemma LookupScans(us: Users, rows: Rows, cid: Bytes)
    requires RowsTable(us, rows)
    ensures var r := Tables.GetByCredentialId(rows, cid);
            r.Ok? ==> r.value.id in rows && r.value == Scan(rows[r.value.id])
  {
    hide Scan;
    if IdTaken(rows, cid) {
      var r :| Live(rows, r) && rows[r].credentialId == cid;
      assert forall q :: Live(rows, q) && rows[q].credentialId == cid ==> q == r;
      ScanKeepsId(rows[r]);
    }
  }

  lemma ScanKeepsId(r: Row)
    ensures Scan(r).id == r.id
  {
  }

  /** Where a login's credential comes from. */
  lemma FoundFrom(req: Request, pc: Pc, a: Answer, c: Choice)
    ensures var pc' := Resume(req, pc, a, c);
            && (pc'.ResolveUser? && pc != pc' ==> pc.Resolve? && req.CompleteLogin? && a == TheCredential(pc'.found))
            && (pc'.RecordAssertion? && pc != pc' ==> pc.ResolveUser? && pc'.found == pc.found)
  {
    hide AfterBegin, AfterRegister, AfterPromote, AfterGuest, AfterAccount;
    BeginFindsNone(pc, req, a, c);
    RegisterFindsNone(pc, a, c);
    if req.CompletePromote? { PromoteFindsNone(pc, req, a, c); }
    GuestFindsNone(pc, req, a);
  }

  predicate Finds(pc: Pc) {
    pc.ResolveUser? || pc.RecordAssertion?
  }

  lemma BeginFindsNone(pc: Pc, req: Request, a: Answer, c: Choice)
    ensures Finds(AfterBegin(pc, req, a, c)) ==> AfterBegin(pc, req, a, c) == pc
  {
  }

  lemma RegisterFindsNone(pc: Pc, a: Answer, c: Choice)
    ensures Finds(AfterRegister(pc, a, c)) ==> AfterRegister(pc, a, c) == pc
  {
  }

  lemma PromoteFindsNone(pc: Pc, req: Request, a: Answer, c: Choice)
    requires req.CompletePromote?
    ensures Finds(AfterPromote(pc, req, a, c)) ==> AfterPromote(pc, req, a, c) == pc
  {
  }

  lemma GuestFindsNone(pc: Pc, req: Request, a: Answer)
    ensures Finds(AfterGuest(pc, a)) ==> AfterGuest(pc, a) == pc
    ensures Finds(AfterAccount(pc, req, a)) ==> AfterAccount(pc, req, a) == pc
  {
  }

  lemma ResolveAnswers(d: Data, p: Pid, req: Request, c: Choice)
    requires RowsTable(d.users, d.rows) && req.CompleteLogin?
    ensures var a := Exec(d, p, Plan(req, Pc.Resolve, c), c).1;
            a.TheCredential? ==> a.cred.id in d.rows && a.cred == Scan(d.rows[a.cred.id])
  {
    LookupScans(d.users, d.rows, req.rawId);
    hide Tables.GetByCredentialId, Scan, RowsTable;
  }

  /** A login past its lookup carries what it then read from the row. */
  lemma {:induction false} ResolveMoment(cfg: Config, es: seq<Event>, p: Pid) returns (j: nat)
    requires Legal(cfg, es) && p in Run(cfg, es).procs && Finds(Run(cfg, es).procs[p].pc)
    ensures ResolvedAt(cfg, es, j, p, Run(cfg, es).procs[p].pc.found)
  {
    hide Run, Legal, Inv, Step, Enabled, Exec, Plan, Resume, News, Scan;
    assert es != [] by { EmptyProcs(cfg); }
    var fs, e := es[..|es| - 1], es[|es| - 1];
    var s := Run(cfg, fs);
    LegalPrefix(cfg, es, |fs|);
    RunStep(cfg, es, |fs|);
    assert es[..|fs| + 1] == es && es[..|fs|] == fs;
    LastEnabled(cfg, es);
    if p !in s.procs {
      ArrivalFindsNone(s, e, p);
    } else if e.Advance? && e.p == p {
      SteppedTo(s, p, e.c);
      var pr := s.procs[p];
      FoundFrom(pr.req, pr.pc, Exec(s.data, p, Plan(pr.req, pr.pc, e.c), e.c).1, e.c);
      if pr.pc.Resolve? {
        Sound(cfg, fs);
        RowsTableOf(s);
        ResolveAnswers(s.data, p, pr.req, e.c);
        j := |fs|;
      } else {
        j := ResolveMoment(cfg, fs, p);
        assert fs[..j] == es[..j];
      }
    } else {
      StandsStill(s, e, p);
      j := ResolveMoment(cfg, fs, p);
      assert fs[..j] == es[..j];
    }
  }

  lemma EmptyProcs(cfg: Config)
    ensures Run(cfg, []).procs == map[]
  {
  }

  lemma RowsTableOf(s: State)
    requires Inv(s)
    ensures RowsTable(s.data.users, s.data.rows)
  {
    hide RowsTable, ProcInv;
  }

  lemma ArrivalFindsNone(s: State, e: Event, p: Pid)
    requires p !in s.procs && Enabled(s, e) && p in Step(s, e).procs
    ensures !Finds(Step(s, e).procs[p].pc)
  {
    hide Exec, Plan, Resume, News;
  }

  // ----- logins on a row, one at a time and without store errors -----

  /** Between p's lookup and event k nothing landed on the row. */
  ghost predicate Undisturbed(cfg: Config, es: seq<Event>, p: Pid, k: nat, row: Uuid)
    requires k <= |es|
  {
    forall j, i :: 0 <= j < i < k && LooksUp(cfg, es, p, j) ==> !Lands(Run(cfg, es[..i]), es[i], row)
  }

  /** At event j request p makes its lookup. */
  ghost predicate LooksUp(cfg: Config, es: seq<Event>, p: Pid, j: nat)
    requires j < |es|
  {
    es[j].Advance? && es[j].p == p && p in Run(cfg, es[..j]).procs && Run(cfg, es[..j]).procs[p].pc.Resolve?
  }

  /** The login at event k writes without an error to a live row nobody else wrote to since its lookup. */
  ghost predicate Clean(cfg: Config, es: seq<Event>, k: nat, row: Uuid)
    requires k < |es|
  {
    var s := Run(cfg, es[..k]);
    Updates(s, es[k], row) ==>
      es[k].c.fault.NoFault? && Live(s.data.rows, row) && Undisturbed(cfg, es, es[k].p, k, row)
  }

  /** The logins on the row are serialised and succeed. */
  ghost predicate OneAtATime(cfg: Config, es: seq<Event>, row: Uuid) {
    forall k :: 0 <= k < |es| ==> Clean(cfg, es, k, row)
  }

  /** While nothing lands on the row, nothing more is seen of it. */
  lemma {:induction false} SeenStays(cfg: Config, es: seq<Event>, j: nat, row: Uuid)
    requires j <= |es| && forall i :: j <= i < |es| ==> !Lands(Run(cfg, es[..i]), es[i], row)
    ensures Seen(cfg, es, row) == Seen(cfg, es[..j], row)
  {
    hide Run, Lands;
    if j < |es| {
      var fs := es[..|es| - 1];
      forall i | j <= i < |fs| ensures !Lands(Run(cfg, fs[..i]), fs[i], row) {
        assert fs[..i] == es[..i];
      }
      SeenStays(cfg, fs, j, row);
      assert fs[..j] == es[..j];
    } else {
      assert es[..j] == es;
    }
  }

  lemma {:induction false} BirthStays(cfg: Config, es: seq<Event>, j: nat, row: Uuid)
    requires Legal(cfg, es) && j <= |es| && row in Run(cfg, es[..j]).data.rows
    ensures row in Run(cfg, es).data.rows && BirthOf(cfg, es, row) == BirthOf(cfg, es[..j], row)
  {
    hide Run, Legal;
    RunEvolves(cfg, es, j);
    if j < |es| {
      var fs := es[..|es| - 1];
      LegalPrefix(cfg, es, |fs|);
      assert fs[..j] == es[..j];
      BirthStays(cfg, fs, j, row);
    } else {
      assert es[..j] == es;
    }
  }

  /**
   * Whatever happens in between: a login at its update compares with what was the last observation when
   * it made its lookup, at event j, and with the AAGUID of registration.
   */
  lemma ComparesWithLookup(cfg: Config, es: seq<Event>, p: Pid) returns (j: nat)
    requires Legal(cfg, es) && p in Run(cfg, es).procs && Run(cfg, es).procs[p].pc.RecordAssertion?
    ensures var found := Run(cfg, es).procs[p].pc.found;
            && ResolvedAt(cfg, es, j, p, found)
            && found.id in Run(cfg, es).data.rows
            && var seen, born := Seen(cfg, es[..j], found.id), BirthOf(cfg, es, found.id);
            && Observation(found.signCount, found.backupEligible, found.backupState) == Observations(born, seen)[|seen|]
            && found.aaguid == born.aaguid
  {
    hide Run, Legal, Lands, Seen, BirthOf, Observations;
    var found := Run(cfg, es).procs[p].pc.found;
    j := ResolveMoment(cfg, es, p);
    LegalPrefix(cfg, es, j);
    RowHoldsLastSeen(cfg, es[..j], found.id);
    BirthStays(cfg, es, j, found.id);
  }

  /** If nothing landed on the row since, that is the last observation of all. */
  lemma ComparesWithLast(cfg: Config, es: seq<Event>, p: Pid)
    requires Legal(cfg, es) && p in Run(cfg, es).procs && Run(cfg, es).procs[p].pc.RecordAssertion?
    requires Undisturbed(cfg, es, p, |es|, Run(cfg, es).procs[p].pc.found.id)
    ensures var found := Run(cfg, es).procs[p].pc.found;
            && found.id in Run(cfg, es).data.rows
            && var seen, born := Seen(cfg, es, found.id), BirthOf(cfg, es, found.id);
            && Observation(found.signCount, found.backupEligible, found.backupState) == Observations(born, seen)[|seen|]
            && found.aaguid == born.aaguid
  {
    hide Run, Legal, Lands, Seen, BirthOf, Observations;
    var row := Run(cfg, es).procs[p].pc.found.id;
    var j := ComparesWithLookup(cfg, es, p);
    forall i | j <= i < |es| ensures !Lands(Run(cfg, es[..i]), es[i], row) {
      if i == j {
        LookupLandsNothing(Run(cfg, es[..j]), es[j], row);
      } else {
        assert LooksUp(cfg, es, p, j);
      }
    }
    SeenStays(cfg, es, j, row);
  }

  /**
   * What a login logs, field by field: each warning names the row and its owner, gives as stored what was
   * the last observation when the login made its lookup (the AAGUID that of registration), and as asserted
   * what the authenticator reports.
   */
  lemma LogsSay(cfg: Config, es: seq<Event>, p: Pid, c: Choice) returns (j: nat)
    requires Legal(cfg, es) && p in Run(cfg, es).procs && Run(cfg, es).procs[p].pc.RecordAssertion?
    ensures var pc := Run(cfg, es).procs[p].pc;
            && ResolvedAt(cfg, es, j, p, pc.found) && pc.found.id in Run(cfg, es).data.rows
            && var row, seen := pc.found.id, pc.seen;
            var owner, born := Run(cfg, es).data.rows[row].userId, BirthOf(cfg, es, row);
            var before := Seen(cfg, es[..j], row);
            var last := Observations(born, before)[|before|];
            Logs(Run(cfg, es), Advance(p, c)) ==
              (if last.count > 0 && seen.signCount == 0 then [CounterReset(row, owner, last.count)] else [])
              + (if born.aaguid.Some? && |seen.aaguid| == 16 && BigEndian.Decode(seen.aaguid) != born.aaguid.value
                 then [AaguidMismatch(row, owner, born.aaguid.value, BigEndian.Decode(seen.aaguid))] else [])
              + (if last.be != seen.backupEligible || last.bs != seen.backupState
                 then [BackupFlagsChanged(row, owner, last.be, last.bs, seen.backupEligible, seen.backupState)] else [])
  {
    hide Run, Legal, Seen, BirthOf, Observations, Inv;
    j := ComparesWithLookup(cfg, es, p);
    Sound(cfg, es);
    FoundOwner(Run(cfg, es), p);
  }

  lemma FoundOwner(s: State, p: Pid)
    requires Inv(s) && p in s.procs && s.procs[p].pc.RecordAssertion?
    ensures var found := s.procs[p].pc.found; found.id in s.data.rows && s.data.rows[found.id].userId == found.userId
  {
    hide StoreInv, Shape, At, Authority, Trace;
    assert ProcInv(s.data, s.log, p, s.procs[p]);
  }

  lemma LookupLandsNothing(s: State, e: Event, row: Uuid)
    requires e.Advance? && e.p in s.procs && s.procs[e.p].pc.Resolve?
    ensures !Lands(s, e, row)
  {
  }

  lemma OneAtATimePrefix(cfg: Config, es: seq<Event>, row: Uuid)
    requires OneAtATime(cfg, es, row) && es != []
    ensures OneAtATime(cfg, es[..|es| - 1], row)
  {
    hide Run, Lands;
    var fs := es[..|es| - 1];
    forall k | 0 <= k < |fs| ensures Clean(cfg, fs, k, row) {
      assert Clean(cfg, es, k, row) && fs[..k] == es[..k];
      forall j, i | 0 <= j < i < k && Updates(Run(cfg, fs[..k]), fs[k], row) && fs[k].Advance?
          && LooksUp(cfg, fs, fs[k].p, j)
        ensures !Lands(Run(cfg, fs[..i]), fs[i], row)
      {
        assert fs[..j] == es[..j] && fs[..i] == es[..i];
        assert LooksUp(cfg, es, es[k].p, j);
      }
    }
  }

  /**
   * In any legal run whose logins on the row are serialised and succeed, whatever else goes on, the
   * log is exact: one backup-flag warning per change between adjacent observations, registration
   * included, one counter warning per drop from nonzero to zero, and every AAGUID is compared with the
   * registered one.
   */
  lemma {:induction false} RunLogIsExact(cfg: Config, es: seq<Event>, row: Uuid)
    requires Legal(cfg, es) && row in Run(cfg, es).data.rows && OneAtATime(cfg, es, row)
    ensures var born, seen, log := BirthOf(cfg, es, row), Seen(cfg, es, row), LoggedOn(cfg, es, row);
            var obs := Observations(born, seen);
            && Tally(log, Reset) == Drops(obs)
            && Tally(log, Mismatch) == Mismatches(born.aaguid, seen)
            && Tally(log, Flip) == FlagChanges(obs)
  {
    hide Run, Legal, Inv, Lands, Updates, Tally, Warnings, Scan, Clean, Observations, Drops, FlagChanges, Mismatches;
    assert es != [] by { EmptyTables(cfg); }
    var fs, e := es[..|es| - 1], es[|es| - 1];
    var s := Run(cfg, fs);
    LegalPrefix(cfg, es, |fs|);
    if row in s.data.rows {
      OneAtATimePrefix(cfg, es, row);
      RunLogIsExact(cfg, fs, row);
      assert Clean(cfg, es, |fs|, row);
      if Updates(s, e, row) {
        CleanLands(cfg, es, row);
        ComparesWithLast(cfg, fs, e.p);
        var pc := s.procs[e.p].pc;
        LoginAdds(pc.found, BirthOf(cfg, fs, row), Seen(cfg, fs, row), pc.seen);
        TallyAll(LoggedOn(cfg, fs, row), Warnings(pc.found, pc.seen));
      } else {
        LandsUpdates(s, e, row);
        assert LoggedOn(cfg, fs, row) + [] == LoggedOn(cfg, fs, row) && Seen(cfg, fs, row) + [] == Seen(cfg, fs, row);
      }
    } else {
      NothingBeforeBirth(cfg, fs, row);
      Sound(cfg, fs);
      AbsentRow(s, e, row);
      LandsUpdates(s, e, row);
      NothingSeen(BirthOf(cfg, es, row));
      NothingLogged();
    }
  }

  lemma NothingSeen(born: Row)
    ensures Drops(Observations(born, [])) == 0 && FlagChanges(Observations(born, [])) == 0
              && Mismatches(born.aaguid, []) == 0
  {
  }

  /** A clean last event that updates the row lands there, after an undisturbed lookup. */
  lemma CleanLands(cfg: Config, es: seq<Event>, row: Uuid)
    requires es != [] && Clean(cfg, es, |es| - 1, row)
    requires Updates(Run(cfg, es[..|es| - 1]), es[|es| - 1], row)
    ensures var fs, e := es[..|es| - 1], es[|es| - 1];
            && e.Advance? && Lands(Run(cfg, fs), e, row)
            && e.p in Run(cfg, fs).procs && Run(cfg, fs).procs[e.p].pc.RecordAssertion?
            && Run(cfg, fs).procs[e.p].pc.found.id == row
            && Undisturbed(cfg, fs, e.p, |fs|, row)
  {
    hide Run;
    var fs, e := es[..|es| - 1], es[|es| - 1];
    forall j, i | 0 <= j < i < |fs| && LooksUp(cfg, fs, e.p, j) ensures !Lands(Run(cfg, fs[..i]), fs[i], row) {
      assert fs[..j] == es[..j] && fs[..i] == es[..i];
      assert LooksUp(cfg, es, e.p, j);
    }
  }
}

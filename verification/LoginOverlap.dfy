/**
 * Why the anomaly log is exact only of serialised logins: two that both look a credential up before
 * either writes both compare with the same old row, and one change is logged twice. That can happen from
 * every reachable state with a live credential nobody is deleting.
 */
module LoginOverlap {
  import opened Domain
  import opened Tables
  import opened Service
  import opened History
  import opened Invariant
  import opened Soundness
  import opened OpenDeletes
  import opened Anomalies
  import opened AssertionLog
  import R = Refinement
  import W = Witness

  // ----- one login, call by call, with nobody in between -----

  ghost predicate Fresh(s: State, c: Choice) {
    c.fault.NoFault? && FreshString(s.log, c.token) && FreshId(s.data, c.uuid)
  }

  lemma BeginArrives(s: State, b: Pid)
    requires b !in s.procs
    ensures Enabled(s, Arrive(b, BeginLogin))
    ensures Step(s, Arrive(b, BeginLogin)) == s.(procs := s.procs[b := Process(BeginLogin, Save, false)])
  {
  }

  lemma BeginSaves(s: State, b: Pid, c: Choice)
    requires b in s.procs && s.procs[b] == Process(BeginLogin, Save, false) && Fresh(s, c) && c.mint
    ensures Enabled(s, Advance(b, c))
    ensures Step(s, Advance(b, c)) ==
              State(s.data.(challenges :=
                      s.data.challenges[c.token := Timed(LOGIN_PAYLOAD, s.data.now + s.data.cfg.challengeTtl)]),
                    s.log + [Saved(b, c.token, LOGIN_PAYLOAD)],
                    s.procs[b := Process(BeginLogin, Answered(Reply(SessionId(c.token))), false)])
  {
    hide FreshString, FreshId;
  }

  lemma LoginArrives(s: State, p: Pid, sid: string, cid: Bytes)
    requires p !in s.procs && sid != ""
    ensures var e := Arrive(p, CompleteLogin(sid, true, cid, ""));
            Enabled(s, e)
            && Step(s, e) == s.(procs := s.procs[p := Process(CompleteLogin(sid, true, cid, ""), Take, false)])
  {
  }

  lemma LoginTakes(s: State, p: Pid, c: Choice, sid: string, cid: Bytes)
    requires p in s.procs && s.procs[p] == Process(CompleteLogin(sid, true, cid, ""), Take, false)
    requires Fresh(s, c) && c.verdict.Asserts? && Fetch(s.data.challenges, sid, s.data.now) == Some(LOGIN_PAYLOAD)
    ensures Enabled(s, Advance(p, c))
    ensures Step(s, Advance(p, c)) ==
              State(s.data.(challenges := s.data.challenges - {sid}), s.log + [Took(p, sid, LOGIN_PAYLOAD)],
                    s.procs[p := Process(CompleteLogin(sid, true, cid, ""), Pc.Resolve, false)])
  {
    hide FreshString, FreshId;
  }

  lemma LoginResolves(s: State, p: Pid, c: Choice, sid: string, row: Uuid)
    requires Live(s.data.rows, row) && RowsTable(s.data.users, s.data.rows) && Fresh(s, c)
    requires p in s.procs
               && s.procs[p] == Process(CompleteLogin(sid, true, s.data.rows[row].credentialId, ""), Pc.Resolve, false)
    ensures Enabled(s, Advance(p, c))
    ensures Step(s, Advance(p, c)) ==
              s.(procs := s.procs[p := s.procs[p].(pc := ResolveUser(Scan(s.data.rows[row])))])
  {
    hide FreshString, FreshId;
    FindsLive(s.data.users, s.data.rows, row);
    hide RowsTable, Tables.GetByCredentialId, Scan;
    assert s.log + [] == s.log;
  }

  lemma FindsLive(us: Users, rows: Rows, row: Uuid)
    requires Live(rows, row) && RowsTable(us, rows)
    ensures Tables.GetByCredentialId(rows, rows[row].credentialId) == Ok(Scan(rows[row]))
  {
    hide Scan;
    assert IdTaken(rows, rows[row].credentialId);
  }

  lemma LoginResolvesUser(s: State, p: Pid, c: Choice, found: Credential, seen: LibCredential)
    requires p in s.procs && s.procs[p].req.CompleteLogin? && s.procs[p].pc == ResolveUser(found)
    requires !s.procs[p].torn && Fresh(s, c) && c.verdict == Asserts(seen) && found.userId in s.data.users
    ensures Enabled(s, Advance(p, c))
    ensures Step(s, Advance(p, c)) ==
              s.(procs := s.procs[p := s.procs[p].(pc := RecordAssertion(s.data.users[found.userId], found, seen))])
  {
    hide FreshString, FreshId;
    assert s.log + [] == s.log;
  }

  /** The update changes the row and nothing else of the tables, and is logged first. */
  lemma LoginRecords(s: State, p: Pid, c: Choice, row: Uuid)
    requires Fresh(s, c) && Live(s.data.rows, row) && row !in s.data.locks
    requires p in s.procs && s.procs[p].pc.RecordAssertion? && s.procs[p].pc.found.id == row
    ensures var e := Advance(p, c);
            Enabled(s, e) && Updates(s, e, row) && Lands(s, e, row)
    ensures var s' := Step(s, Advance(p, c));
            && Live(s'.data.rows, row) && s'.data.locks == s.data.locks
            && forall q :: q in s.procs && q != p ==> q in s'.procs && s'.procs[q] == s.procs[q]
  {
    hide FreshString, FreshId, Resume, News;
  }

  // ----- the run it makes -----

  /** es' goes on from es, and nothing has been logged about the row or has landed on it. */
  ghost predicate Silent(cfg: Config, es: seq<Event>, es': seq<Event>, row: Uuid) {
    && Legal(cfg, es') && |es| <= |es'| && es'[..|es|] == es
    && LoggedOn(cfg, es', row) == LoggedOn(cfg, es, row) && Seen(cfg, es', row) == Seen(cfg, es, row)
  }

  lemma GoOn(cfg: Config, es0: seq<Event>, es: seq<Event>, e: Event, row: Uuid) returns (es': seq<Event>)
    requires Silent(cfg, es0, es, row) && Enabled(Run(cfg, es), e) && !Updates(Run(cfg, es), e, row)
    ensures Silent(cfg, es0, es', row) && Run(cfg, es') == Step(Run(cfg, es), e)
  {
    hide Enabled, Step, Updates;
    es' := es + [e];
    assert es'[..|es'| - 1] == es && es'[|es'| - 1] == e;
    LandsUpdates(Run(cfg, es), e, row);
    assert LoggedOn(cfg, es, row) + [] == LoggedOn(cfg, es, row) && Seen(cfg, es, row) + [] == Seen(cfg, es, row);
  }

  /** Login p stands at its update with what it read from the row; tables and locks are as in s. */
  ghost predicate Stands(s: State, s': State, p: Pid, row: Uuid, seen: LibCredential) {
    && Live(s.data.rows, row) && s'.data == s.data
    && p !in s.procs && p in s'.procs && s'.procs[p].pc.RecordAssertion?
    && s'.procs[p].pc.found == Scan(s.data.rows[row]) && s'.procs[p].pc.seen == seen
    && forall q :: q in s.procs ==> q in s'.procs && s'.procs[q] == s.procs[q]
  }

  function Offer(c: Choice, seen: LibCredential): Choice {
    c.(mint := true, verdict := Asserts(seen))
  }

  /** A ceremony begins: a new session id is outstanding, for a payload of the login flow. */
  lemma Begins(cfg: Config, es0: seq<Event>, es: seq<Event>, row: Uuid) returns (es': seq<Event>, b: Pid, sid: string)
    requires Silent(cfg, es0, es, row) && cfg.challengeTtl > 0
    ensures Silent(cfg, es0, es', row)
    ensures var s, s' := Run(cfg, es), Run(cfg, es');
            && b !in s.procs && sid != "" && sid !in s.data.challenges
            && s'.procs == s.procs[b := Process(BeginLogin, Answered(Reply(SessionId(sid))), false)]
            && s'.data == s.data.(challenges :=
                 s.data.challenges[sid := Timed(LOGIN_PAYLOAD, s.data.now + cfg.challengeTtl)])
  {
    hide Run, Legal, Inv, Enabled, Step, LoggedOn, Seen, FreshString, FreshId, Updates;
    var s := Run(cfg, es);
    R.LocksHold(cfg, es);
    Sound(cfg, es);
    b := LargestId(s.procs.Keys);
    BeginArrives(s, b);
    NoUpdate(s, Arrive(b, BeginLogin), row);
    es' := GoOn(cfg, es0, es, Arrive(b, BeginLogin), row);
    var s1 := Run(cfg, es');
    var c := FreshChoice(s1);
    c := c.(mint := true);
    sid := c.token;
    BeginSaves(s1, b, c);
    NoUpdate(s1, Advance(b, c), row);
    es' := GoOn(cfg, es0, es', Advance(b, c), row);
    FreshIsNoChallenge(s, sid);
  }

  lemma NoUpdate(s: State, e: Event, row: Uuid)
    requires e.Advance? && e.p in s.procs ==> !s.procs[e.p].pc.RecordAssertion?
    ensures !Updates(s, e, row)
  {
  }

  lemma FreshIsNoChallenge(s: State, sid: string)
    requires Inv(s) && FreshString(s.log, sid)
    ensures sid != "" && sid !in s.data.challenges
  {
    hide ProcInv, UsersInv, RowsInv, TokensStored, TokensLogged;
    assert sid in s.data.challenges ==> WasSaved(s.log, sid, s.data.challenges[sid].value);
  }

  lemma OwnerThere(s: State, row: Uuid)
    requires Inv(s) && row in s.data.rows
    ensures RowsTable(s.data.users, s.data.rows) && Scan(s.data.rows[row]).userId in s.data.users
    ensures Scan(s.data.rows[row]).id == row
  {
    hide ProcInv;
  }

  /** From there the login takes its challenge. */
  lemma TakesUp(cfg: Config, es0: seq<Event>, es: seq<Event>, row: Uuid, sid: string, cid: Bytes, seen: LibCredential)
    returns (es': seq<Event>, p: Pid)
    requires Silent(cfg, es0, es, row) && sid != ""
    requires Fetch(Run(cfg, es).data.challenges, sid, Run(cfg, es).data.now) == Some(LOGIN_PAYLOAD)
    ensures Silent(cfg, es0, es', row)
    ensures var s, s' := Run(cfg, es), Run(cfg, es');
            && p !in s.procs && s'.data == s.data.(challenges := s.data.challenges - {sid})
            && s'.procs == s.procs[p := Process(CompleteLogin(sid, true, cid, ""), Pc.Resolve, false)]
  {
    hide Run, Legal, Inv, Enabled, Step, LoggedOn, Seen, FreshString, FreshId, Updates;
    var s := Run(cfg, es);
    p := LargestId(s.procs.Keys);
    LoginArrives(s, p, sid, cid);
    var e := Arrive(p, CompleteLogin(sid, true, cid, ""));
    NoUpdate(s, e, row);
    es' := GoOn(cfg, es0, es, e, row);
    var s1 := Run(cfg, es');
    var c := FreshChoice(s1);
    c := Offer(c, seen);
    LoginTakes(s1, p, c, sid, cid);
    NoUpdate(s1, Advance(p, c), row);
    es' := GoOn(cfg, es0, es', Advance(p, c), row);
  }

  /** It looks the row up and stands at its update. */
  lemma ResolvesRow(cfg: Config, es0: seq<Event>, es: seq<Event>, row: Uuid, sid: string, p: Pid, seen: LibCredential)
    returns (es': seq<Event>)
    requires Silent(cfg, es0, es, row) && Live(Run(cfg, es).data.rows, row) && p in Run(cfg, es).procs
    requires Run(cfg, es).procs[p]
               == Process(CompleteLogin(sid, true, Run(cfg, es).data.rows[row].credentialId, ""), Pc.Resolve, false)
    ensures Silent(cfg, es0, es', row)
    ensures var s, s' := Run(cfg, es), Run(cfg, es');
            && s'.data == s.data
            && p in s'.procs && s'.procs[p].pc.RecordAssertion?
            && s'.procs[p].pc.found == Scan(s.data.rows[row]) && s'.procs[p].pc.seen == seen
            && forall q :: q in s.procs && q != p ==> q in s'.procs && s'.procs[q] == s.procs[q]
  {
    hide Run, Legal, Inv, Enabled, Step, LoggedOn, Seen, FreshString, FreshId, Updates, Scan;
    var s := Run(cfg, es);
    Sound(cfg, es);
    OwnerThere(s, row);
    var c := FreshChoice(s);
    c := Offer(c, seen);
    LoginResolves(s, p, c, sid, row);
    NoUpdate(s, Advance(p, c), row);
    es' := GoOn(cfg, es0, es, Advance(p, c), row);
    var s1 := Run(cfg, es');
    c := FreshChoice(s1);
    c := Offer(c, seen);
    LoginResolvesUser(s1, p, c, Scan(s.data.rows[row]), seen);
    NoUpdate(s1, Advance(p, c), row);
    es' := GoOn(cfg, es0, es', Advance(p, c), row);
  }

  /** A whole login up to its update, with nobody in between. */
  lemma LoginStands(cfg: Config, es0: seq<Event>, es: seq<Event>, row: Uuid, seen: LibCredential)
    returns (es': seq<Event>, p: Pid)
    requires Silent(cfg, es0, es, row) && Live(Run(cfg, es).data.rows, row) && cfg.challengeTtl > 0
    ensures Silent(cfg, es0, es', row) && Stands(Run(cfg, es), Run(cfg, es'), p, row, seen)
  {
    hide Run, Legal, LoggedOn, Seen, Scan;
    var b, sid;
    es', b, sid := Begins(cfg, es0, es, row);
    var s1 := Run(cfg, es');
    var s := Run(cfg, es);
    es', p := TakesUp(cfg, es0, es', row, sid, s.data.rows[row].credentialId, seen);
    assert s1.data.(challenges := s1.data.challenges - {sid}) == s.data;
    es' := ResolvesRow(cfg, es0, es', row, sid, p, seen);
  }

  /** The write of a login that stands at its update. */
  lemma Writes(cfg: Config, es: seq<Event>, p: Pid, row: Uuid) returns (es': seq<Event>)
    requires Legal(cfg, es) && Live(Run(cfg, es).data.rows, row) && row !in Run(cfg, es).data.locks
    requires p in Run(cfg, es).procs && Run(cfg, es).procs[p].pc.RecordAssertion?
    requires Run(cfg, es).procs[p].pc.found.id == row
    ensures Legal(cfg, es') && |es| <= |es'| && es'[..|es|] == es
    ensures var s, s' := Run(cfg, es), Run(cfg, es');
            && Live(s'.data.rows, row) && row !in s'.data.locks
            && (forall q :: q in s.procs && q != p ==> q in s'.procs && s'.procs[q] == s.procs[q])
            && LoggedOn(cfg, es', row) == LoggedOn(cfg, es, row) + Warnings(s.procs[p].pc.found, s.procs[p].pc.seen)
            && Seen(cfg, es', row) == Seen(cfg, es, row) + [s.procs[p].pc.seen]
  {
    hide Enabled, Step, Updates, Lands, FreshString, FreshId, Warnings;
    var s := Run(cfg, es);
    var c := FreshChoice(s);
    LoginRecords(s, p, c, row);
    es' := es + [Advance(p, c)];
    assert es'[..|es'| - 1] == es && es'[|es'| - 1] == Advance(p, c);
  }

  // ----- one change, logged twice -----

  /**
   * From every reachable state with a live credential that nobody is deleting, two overlapping logins
   * that both report the same changed flags lead to a run with one change more and two warnings more.
   */
  lemma OverlapLogsTwice(cfg: Config, es: seq<Event>, row: Uuid, seen: LibCredential) returns (es': seq<Event>)
    requires Legal(cfg, es) && cfg.challengeTtl > 0
    requires Live(Run(cfg, es).data.rows, row) && row !in Run(cfg, es).data.locks
    requires var r := Run(cfg, es).data.rows[row];
             r.backupEligible != seen.backupEligible || r.backupState != seen.backupState
    ensures Legal(cfg, es') && row in Run(cfg, es').data.rows && Live(Run(cfg, es').data.rows, row)
    ensures BirthOf(cfg, es', row) == BirthOf(cfg, es, row)
    ensures Seen(cfg, es', row) == Seen(cfg, es, row) + [seen, seen]
    ensures Tally(LoggedOn(cfg, es', row), Flip) == Tally(LoggedOn(cfg, es, row), Flip) + 2
    ensures var born := BirthOf(cfg, es, row);
            FlagChanges(Observations(born, Seen(cfg, es', row)))
              == FlagChanges(Observations(born, Seen(cfg, es, row))) + 1
  {
    hide Run, Legal, Inv, LoggedOn, Seen, BirthOf, Tally, Warnings, FlagChanges, Observations;
    var s := Run(cfg, es);
    Sound(cfg, es);
    OwnerThere(s, row);
    NothingYet(cfg, es, row);
    var p, q, es1, es2;
    es1, p := LoginStands(cfg, es, es, row, seen);
    es2, q := LoginStands(cfg, es, es1, row, seen);
    es' := Writes(cfg, es2, p, row);
    var es3 := es';
    es' := Writes(cfg, es3, q, row);
    assert es'[..|es|] == es by { assert es'[..|es|] == es'[..|es3|][..|es2|][..|es|]; }
    BirthStays(cfg, es', |es|, row);
    var found := Scan(s.data.rows[row]);
    FlagsLogged(LoggedOn(cfg, es, row), found, seen);
    FlagsLogged(LoggedOn(cfg, es3, row), found, seen);
    RowHoldsLastSeen(cfg, es, row);
    ChangesOnce(BirthOf(cfg, es, row), Seen(cfg, es, row), s.data.rows[row], seen);
    assert Seen(cfg, es, row) + [seen] + [seen] == Seen(cfg, es, row) + [seen, seen];
  }

  lemma NothingYet(cfg: Config, es: seq<Event>, row: Uuid)
    requires Legal(cfg, es)
    ensures Silent(cfg, es, es, row)
  {
    assert es[..|es|] == es;
  }

  lemma FlagsLogged(log: seq<Warning>, found: Credential, seen: LibCredential)
    requires found.backupEligible != seen.backupEligible || found.backupState != seen.backupState
    ensures Tally(log + Warnings(found, seen), Flip) == Tally(log, Flip) + 1
  {
    TallyConcat(log, Warnings(found, seen), Flip);
    TallyWarnings(found, seen, Flip);
    hide Tally, Warnings;
  }

  lemma ChangesOnce(born: Row, before: seq<LibCredential>, r: Row, seen: LibCredential)
    requires Observed(r) == Observations(born, before)[|before|]
    requires r.backupEligible != seen.backupEligible || r.backupState != seen.backupState
    ensures FlagChanges(Observations(born, before + [seen, seen])) == FlagChanges(Observations(born, before)) + 1
  {
    hide Scan;
    var obs := Observations(born, before);
    var once, twice := Observations(born, before + [seen]), Observations(born, before + [seen, seen]);
    assert once[..|once| - 1] == obs && twice[..|twice| - 1] == once;
  }

  /**
   * A legal run from the empty service whose log is not exact: it counts other flag changes than there
   * were, and the logins on that row did not come one at a time.
   */
  lemma LogCanMiscount(cfg: Config) returns (es: seq<Event>, row: Uuid)
    requires W.Lasting(cfg)
    ensures Legal(cfg, es) && row in Run(cfg, es).data.rows && Live(Run(cfg, es).data.rows, row)
    ensures Tally(LoggedOn(cfg, es, row), Flip) != FlagChanges(Observations(BirthOf(cfg, es, row), Seen(cfg, es, row)))
    ensures !OneAtATime(cfg, es, row)
  {
    hide Run, Legal, LoggedOn, Seen, BirthOf, Tally, FlagChanges, Observations, OneAtATime;
    es := W.TwoPasskeys(cfg);
    row := W.FIRST_ROW;
    FirstIsLive(cfg);
    if Tally(LoggedOn(cfg, es, row), Flip) == FlagChanges(Observations(BirthOf(cfg, es, row), Seen(cfg, es, row))) {
      es := OverlapLogsTwice(cfg, es, row, W.MADE.(backupState := true));
    }
    if OneAtATime(cfg, es, row) {
      RunLogIsExact(cfg, es, row);
      assert false;
    }
  }

  lemma FirstIsLive(cfg: Config)
    ensures var d := W.WithTwoRows(cfg).data;
            && Live(d.rows, W.FIRST_ROW) && W.FIRST_ROW !in d.locks
            && !d.rows[W.FIRST_ROW].backupState && !W.MADE.backupState
  {
  }
}

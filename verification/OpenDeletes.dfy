/**
 * How far the last-credential guard reaches. The deletes that have counted and not committed can,
 * left to themselves, take all of a user's live rows exactly when all of them are open; so a user is
 * never in that danger, anywhere in a run, exactly when every count for that user is safe.
 */
module OpenDeletes {
  import opened Domain
  import opened Tables
  import opened Service
  import opened History
  import opened Invariant
  import opened Soundness
  import opened Runs
  import opened LastCredential
  import opened Overlap

  // ----- choices -----

  lemma {:induction false} LongestString(log: seq<Fact>) returns (n: nat)
    ensures forall f :: f in log ==> (f.Saved? ==> |f.sid| < n) && ((f.Minted? || f.GuestMinted?) ==> |f.token| < n)
    ensures n > 0
  {
    n := 1;
    if log != [] {
      var f := log[|log| - 1];
      n := LongestString(log[..|log| - 1]);
      var m := if f.Saved? then |f.sid| else if f.Minted? || f.GuestMinted? then |f.token| else 0;
      if m >= n { n := m + 1; }
      assert log == log[..|log| - 1] + [f];
    }
  }

  lemma LargestId(ids: set<Uuid>) returns (n: Uuid)
    ensures forall i :: i in ids ==> i < n
  {
    n := 0;
    if ids != {} {
      var largest :| largest in ids;
      n := LargestId(ids - {largest});
      if largest >= n { n := largest + 1; }
      assert forall i :: i in ids ==> i == largest || i in ids - {largest};
    }
  }

  /** The random source and the database can always supply something new. */
  lemma FreshChoice(s: State) returns (c: Choice)
    ensures c.fault.NoFault? && FreshString(s.log, c.token) && FreshId(s.data, c.uuid)
  {
    var n := LongestString(s.log);
    var id := LargestId(s.data.users.Keys + s.data.rows.Keys);
    c := Choice(NoFault, id, seq(n, i => 'x'), [], false, ParseFails, []);
    assert |c.token| == n;
  }

  // ----- continuations by open deletes -----

  predicate OpenDelete(s: State, p: Pid, u: Uuid) {
    p in s.procs && InWindow(s.procs[p].pc) && s.procs[p].pc.owner == u
  }

  /** Steps of requests whose delete of a row of u is open in s. */
  predicate OnlyOpen(s: State, u: Uuid, fs: seq<Event>) {
    forall e :: e in fs ==> e.Advance? && OpenDelete(s, e.p, u)
  }

  /** The open deletes can, by themselves, leave u without a live row. */
  ghost predicate Threatened(s: State, u: Uuid) {
    exists fs :: OnlyOpen(s, u, fs) && LegalFrom(s, fs) && LiveOf(RunFrom(s, fs).data.rows, u) == {}
  }

  // ----- what the open deletes cannot take -----

  /** The deletes open in s are, in s', still open on the same rows or answered. */
  ghost predicate Continues(s: State, s': State, u: Uuid) {
    forall p :: OpenDelete(s, p, u) ==>
      && p in s'.procs
      && (s'.procs[p].pc.Answered? || (OpenDelete(s', p, u) && s'.procs[p].pc.row == s.procs[p].pc.row))
  }

  lemma WindowMoves(req: Request, pc: Pc, a: Answer, c: Choice)
    requires InWindow(pc) && req.DeleteCredential?
    ensures var pc' := Resume(req, pc, a, c);
            pc'.Answered? || (InWindow(pc') && pc'.row == pc.row && pc'.owner == pc.owner)
  {
  }

  /** A step of an open delete takes at most its own row. */
  lemma OpenStep(s: State, p: Pid, c: Choice, u: Uuid)
    requires Inv(s) && Enabled(s, Advance(p, c)) && OpenDelete(s, p, u)
    ensures var s' := Step(s, Advance(p, c));
            && LiveOf(s.data.rows, u) - {s.procs[p].pc.row} <= LiveOf(s'.data.rows, u)
            && Continues(s, s', u)
            && forall q :: q in s.procs && q != p ==> q in s'.procs && s'.procs[q] == s.procs[q]
  {
    hide Exec, News, StoreInv, Shape, At, Resume, Enabled, Authority, Trace, Plan, Context, Live;
    AdvanceFresh(s, p, c);
    SteppedTo(s, p, c);
    var pr := s.procs[p];
    var op := Plan(pr.req, pr.pc, c);
    assert ProcInv(s.data, s.log, p, pr);
    HeldRow(s.data, s.log, p, pr.req, pr.pc);
    WindowMoves(pr.req, pr.pc, Exec(s.data, p, op, c).1, c);
    StepRows(s.data, p, op, c);
    CommitsOnlyAt(pr.req, pr.pc, c);
    RowsLeft(s.data.rows, Exec(s.data, p, op, c).0.rows, pr.pc.row, s.data.now, u);
  }

  lemma RowsLeft(rows: Rows, rows': Rows, row: Uuid, now: nat, u: Uuid)
    ensures LiveGrows(rows, rows') || rows' == Bury(rows, row, now) ==> LiveOf(rows, u) - {row} <= LiveOf(rows', u)
  {
    if LiveGrows(rows, rows') {
      forall r | r in LiveOf(rows, u) ensures r in LiveOf(rows', u) {
        assert Live(rows, r);
      }
    }
  }

  lemma {:induction false} SpareSurvives(s0: State, s: State, fs: seq<Event>, u: Uuid, l: Uuid)
    requires Inv(s) && Continues(s0, s, u) && OnlyOpen(s0, u, fs) && LegalFrom(s, fs)
    requires l in LiveOf(s.data.rows, u) && l !in Open(s0, u)
    ensures l in LiveOf(RunFrom(s, fs).data.rows, u)
    decreases |fs|
  {
    hide Inv, Enabled, Step, LiveOf;
    if fs != [] {
      var e := fs[0];
      assert e in fs && OpenDelete(s0, e.p, u);
      StillThere(s, e);
      assert OpenDelete(s, e.p, u) && s.procs[e.p].pc.row in Open(s0, u);
      OpenStep(s, e.p, e.c, u);
      StepKeepsInv(s, e);
      SpareSurvives(s0, Step(s, e), fs[1..], u, l);
    }
  }

  lemma StillThere(s: State, e: Event)
    requires Enabled(s, e) && e.Advance?
    ensures e.p in s.procs && !s.procs[e.p].pc.Answered?
  {
  }

  // ----- what they can take -----

  ghost function OpenPids(s: State, u: Uuid): set<Pid> {
    set p | p in s.procs && OpenDelete(s, p, u)
  }

  lemma MarkPasses(s: State, p: Pid, c: Choice)
    requires p in s.procs && s.procs[p].pc.MarkRow? && s.procs[p].req.DeleteCredential?
    requires c.fault.NoFault? && FreshString(s.log, c.token) && FreshId(s.data, c.uuid)
    ensures Enabled(s, Advance(p, c))
    ensures var pc := s.procs[p].pc;
            Step(s, Advance(p, c)) ==
              s.(procs := s.procs[p := s.procs[p].(pc := CommitRow(pc.uid, pc.row, pc.owner))])
  {
    hide FreshString, FreshId;
    assert s.log + [] == s.log;
  }

  lemma CommitPasses(s: State, p: Pid, c: Choice)
    requires p in s.procs && s.procs[p].pc.CommitRow? && s.procs[p].req.DeleteCredential?
    requires c.fault.NoFault? && FreshString(s.log, c.token) && FreshId(s.data, c.uuid)
    ensures Enabled(s, Advance(p, c))
    ensures var pr, s' := s.procs[p], Step(s, Advance(p, c));
            && s'.data.rows == Bury(s.data.rows, pr.pc.row, s.data.now)
            && s'.procs == s.procs[p := pr.(pc := Answered(Response(204, Fine, None, None, NoBody)))]
  {
    hide FreshString, FreshId, Bury;
  }

  lemma OneStep(s: State, e: Event)
    requires Enabled(s, e)
    ensures LegalFrom(s, [e]) && RunFrom(s, [e]) == Step(s, e)
  {
    hide Enabled, Step;
    assert [e][1..] == [];
  }

  /** One open delete runs to its end. */
  lemma CloseOne(s: State, u: Uuid, p: Pid) returns (fs: seq<Event>)
    requires Inv(s) && OpenDelete(s, p, u)
    ensures OnlyOpen(s, u, fs) && LegalFrom(s, fs)
    ensures var s' := RunFrom(s, fs);
            && Inv(s')
            && LiveOf(s'.data.rows, u) == LiveOf(s.data.rows, u) - {s.procs[p].pc.row}
            && p in s'.procs && s'.procs[p].pc.Answered?
            && OthersStay(s, s', p)
  {
    hide Inv, Enabled, Step, LiveOf, FreshString, FreshId, LegalFrom, RunFrom;
    IsDelete(s, p);
    var c := FreshChoice(s);
    var e := Advance(p, c);
    if s.procs[p].pc.MarkRow? {
      MarkPasses(s, p, c);
      StepKeepsInv(s, e);
      var s1 := Step(s, e);
      CommitPasses(s1, p, c);
      StepKeepsInv(s1, e);
      BuriedLive(s.data.rows, s.procs[p].pc.row, s.data.now, u);
      OneStep(s, e);
      OneStep(s1, e);
      Concat(s, [e], [e]);
      fs := [e] + [e];
    } else {
      CommitPasses(s, p, c);
      StepKeepsInv(s, e);
      BuriedLive(s.data.rows, s.procs[p].pc.row, s.data.now, u);
      OneStep(s, e);
      fs := [e];
    }
  }

  lemma BuriedLive(rows: Rows, row: Uuid, now: nat, u: Uuid)
    ensures LiveOf(Bury(rows, row, now), u) == LiveOf(rows, u) - {row}
  {
  }

  lemma IsDelete(s: State, p: Pid)
    requires Inv(s) && p in s.procs && InWindow(s.procs[p].pc)
    ensures s.procs[p].req.DeleteCredential?
  {
    hide StoreInv, Shape, At, Authority, Trace;
    assert ProcInv(s.data, s.log, p, s.procs[p]);
  }

  /** All open deletes of u run to their end, one after the other, and take exactly what was open. */
  lemma CloseAll(s: State, u: Uuid) returns (fs: seq<Event>)
    requires Inv(s)
    ensures OnlyOpen(s, u, fs) && LegalFrom(s, fs)
    ensures LiveOf(RunFrom(s, fs).data.rows, u) == LiveOf(s.data.rows, u) - Open(s, u)
    decreases |OpenPids(s, u)|
  {
    hide Inv, LegalFrom, RunFrom, LiveOf;
    if OpenPids(s, u) == {} {
      fs := NoSteps(s);
      NothingOpen(s, u);
    } else {
      var p :| p in OpenPids(s, u);
      var first := CloseOne(s, u, p);
      var s' := RunFrom(s, first);
      FewerOpen(s, s', u, p);
      var rest := CloseAll(s', u);
      Concat(s, first, rest);
      OpenShrinks(s, s', u, p);
      fs := first + rest;
    }
  }

  lemma NothingOpen(s: State, u: Uuid)
    requires OpenPids(s, u) == {}
    ensures Open(s, u) == {}
  {
    assert forall p :: OpenDelete(s, p, u) ==> p in OpenPids(s, u);
    assert forall p :: p in s.procs && InWindow(s.procs[p].pc) && s.procs[p].pc.owner == u ==> OpenDelete(s, p, u);
  }

  /** The deletes other than p's stay as they are. */
  ghost predicate OthersStay(s: State, s': State, p: Pid) {
    forall q :: q != p ==> (q in s'.procs <==> q in s.procs) && (q in s.procs ==> s'.procs[q] == s.procs[q])
  }

  lemma NoSteps(s: State) returns (fs: seq<Event>)
    ensures fs == [] && LegalFrom(s, fs) && RunFrom(s, fs) == s
  {
    fs := [];
  }

  lemma FewerOpen(s: State, s': State, u: Uuid, p: Pid)
    requires OpenDelete(s, p, u) && p in s'.procs && !OpenDelete(s', p, u) && OthersStay(s, s', p)
    ensures OpenPids(s', u) == OpenPids(s, u) - {p} && |OpenPids(s', u)| < |OpenPids(s, u)|
  {
    assert p in OpenPids(s, u);
    forall q ensures q in OpenPids(s', u) <==> q in OpenPids(s, u) - {p} {
    }
  }

  lemma OpenShrinks(s: State, s': State, u: Uuid, p: Pid)
    requires OpenDelete(s, p, u) && p in s'.procs && !OpenDelete(s', p, u)
    requires OthersStay(s, s', p)
    ensures Open(s, u) == Open(s', u) + {s.procs[p].pc.row}
  {
    forall r | r in Open(s, u) ensures r in Open(s', u) + {s.procs[p].pc.row} {
      var q :| q in s.procs && InWindow(s.procs[q].pc) && s.procs[q].pc.owner == u && s.procs[q].pc.row == r;
      assert q != p ==> q in s'.procs && s'.procs[q] == s.procs[q];
    }
    forall r | r in Open(s', u) ensures r in Open(s, u) {
      var q :| q in s'.procs && InWindow(s'.procs[q].pc) && s'.procs[q].pc.owner == u && s'.procs[q].pc.row == r;
      assert q != p && q in s.procs && s'.procs[q] == s.procs[q];
    }
  }

  // ----- exactly -----

  /**
   * In any reachable state the open deletes of u can leave u without a live row exactly when all live
   * rows of u are open.
   */
  lemma OpenDeletesDecide(cfg: Config, es: seq<Event>, u: Uuid)
    requires Legal(cfg, es)
    ensures Threatened(Run(cfg, es), u) <==> LiveOf(Run(cfg, es).data.rows, u) <= Open(Run(cfg, es), u)
  {
    hide Run, Legal, Inv, LegalFrom, RunFrom, LiveOf, Open;
    var s := Run(cfg, es);
    Sound(cfg, es);
    if Threatened(s, u) {
      var fs :| OnlyOpen(s, u, fs) && LegalFrom(s, fs) && LiveOf(RunFrom(s, fs).data.rows, u) == {};
      forall l | l in LiveOf(s.data.rows, u) ensures l in Open(s, u) {
        if l !in Open(s, u) {
          SpareSurvives(s, s, fs, u, l);
        }
      }
    }
    if LiveOf(s.data.rows, u) <= Open(s, u) {
      var fs := CloseAll(s, u);
      assert LiveOf(RunFrom(s, fs).data.rows, u) == {};
    }
  }

  /** At moment k of the run u owns a row and the open deletes could leave u without a live one. */
  ghost predicate Endangered(cfg: Config, es: seq<Event>, k: nat, u: Uuid) {
    k <= |es| && HasRow(Run(cfg, es[..k]).data.rows, u) && Threatened(Run(cfg, es[..k]), u)
  }

  /** The guard, exactly: u is never at the mercy of open deletes iff every count for u is safe. */
  lemma GuardExactly(cfg: Config, es: seq<Event>, u: Uuid)
    requires Legal(cfg, es)
    ensures (forall k: nat :: !Endangered(cfg, es, k, u)) <==> SafeCounts(cfg, es, u)
  {
    hide Run, Legal, Threatened, SafeCounts, Spared, HasRow;
    SparedExactly(cfg, es, u);
    forall k: nat | k <= |es| ensures Covered(Run(cfg, es[..k]), u) <==> !Endangered(cfg, es, k, u) {
      LegalPrefix(cfg, es, k);
      OpenDeletesDecide(cfg, es[..k], u);
      SpareOrNone(Run(cfg, es[..k]), u);
    }
  }

  lemma SpareOrNone(s: State, u: Uuid)
    ensures Spared(s, u) <==> !(LiveOf(s.data.rows, u) <= Open(s, u))
  {
    hide LiveOf, Open;
  }
}

/** A login whose assertion is on record succeeds, and one with good credentials can always be made to. */
module Logins {
  import opened Domain
  import opened Tables
  import opened Service
  import opened History
  import opened Invariant
  import opened Soundness
  import opened Runs
  import opened Theorems
  import opened Calls
  import opened Outcomes
  import opened Achieved
  import opened RunOutcomes
  import E = Enrolments
  import A = AssertionLog
  import H = HandlerLog

  // ----- which call was which -----

  lemma {:induction false} OnTrackAt(p: Pid, req: Request, calls: seq<Call>, pcs: seq<Pc>, i: nat)
    requires Way(p, req, calls, pcs) && req.CompleteLogin? && i <= |calls|
    ensures H.OnTrack(i, pcs[i])
  {
    hide Exec, Plan, Resume, H.OnTrack;
    if i == 0 {
      H.LoginStarts(req);
    } else {
      OnTrackAt(p, req, calls, pcs, i - 1);
      assert Moves(p, req, pcs[i - 1], calls[i - 1], pcs[i]);
      var k := calls[i - 1];
      H.TrackGoesOn(i - 1, req, pcs[i - 1], Exec(k.before, p, Plan(req, pcs[i - 1], k.c), k.c).1, k.c);
    }
  }

  /** The lookup is a login's second call, the update its fourth. */
  lemma PlaceInLogin(cfg: Config, es: seq<Event>, p: Pid, k: nat) returns (i: nat)
    requires Legal(cfg, es) && p in Run(cfg, es).procs && Run(cfg, es).procs[p].pc.Answered?
    requires Run(cfg, es).procs[p].req.CompleteLogin?
    requires k < |es| && es[k].Advance? && es[k].p == p && p in Run(cfg, es[..k]).procs
    ensures i < |MomentsOf(es, p)| && MomentsOf(es, p)[i] == k
    ensures Run(cfg, es[..k]).procs[p].pc.Resolve? ==> i == 1
    ensures Run(cfg, es[..k]).procs[p].pc.RecordAssertion? ==> i == 3
  {
    hide Run, Legal, Way, MomentsOf, CallAt, PointAt;
    i := PlaceOf(es, p, k);
    RunIsWay(cfg, es, p);
    OnTrackAt(p, Run(cfg, es).procs[p].req, CallsOf(cfg, es, p), PointsOf(cfg, es, p), i);
    PointThere(cfg, es, k, p);
  }

  /** The row an assertion was recorded on is the one the lookup presented. */
  lemma PresentedThen(cfg: Config, es: seq<Event>, f: Fact, k: nat) returns (j: nat)
    requires Legal(cfg, es) && f.Asserted? && AssertsLiveRow(cfg, es, k, f.who, f.row, f.uid)
    ensures j < k && es[j].Advance? && es[j].p == f.who
    ensures f.who in Run(cfg, es[..j]).procs && Run(cfg, es[..j]).procs[f.who].pc.Resolve?
    ensures Presented(Found(cfg, es, j), Run(cfg, es[..k]).procs[f.who].req.rawId, f.row)
    ensures Found(cfg, es, j).rows[f.row].userId == f.uid
  {
    hide Run, Legal, UsersEvolve, Scan;
    LegalPrefix(cfg, es, k);
    j := A.ResolveMoment(cfg, es[..k], f.who);
    assert es[..k][..j] == es[..j];
    RunEvolves(cfg, es[..k], j);
  }

  /**
   * A login with its assertion on record and no fault at any of its own calls answers 200, with a session
   * cookie it minted for the owner of the row asserted.
   */
  lemma RecordedLoginSucceeds(cfg: Config, es: seq<Event>, f: Fact)
    requires Legal(cfg, es) && f in Run(cfg, es).log && f.Asserted?
    requires f.who in Run(cfg, es).procs && Run(cfg, es).procs[f.who].pc.Answered?
    requires forall k :: 0 <= k < |es| && es[k].Advance? && es[k].p == f.who ==> es[k].c.fault.NoFault?
    ensures var r := Run(cfg, es).procs[f.who].pc.r;
            && r == Response(200, Fine, r.cookie, None, Account(f.uid)) && r.cookie.Some?
            && Minted(f.who, r.cookie.value, f.uid) in Run(cfg, es).log
  {
    hide Run, Legal, MomentsOf, CallAt, Trace, Way, Live, Orderly;
    var p := f.who;
    var k := AssertionMoment(cfg, es, f);
    var j := PresentedThen(cfg, es, f, k);
    RequestKept(cfg, es, p, k);
    var at := PlaceInLogin(cfg, es, p, k);
    var found := PlaceInLogin(cfg, es, p, j);
    var calls := CallsOf(cfg, es, p);
    assert calls[3] == CallAt(cfg, es, k) && calls[1] == CallAt(cfg, es, j);
    RunsAnswer(cfg, es, p);
    LegalPrefix(cfg, es, j);
    Sound(cfg, es[..j]);
    OrderlyInRuns(Run(cfg, es[..j]));
    FaultlessCalls(cfg, es, p);
    CallFinds(cfg, es, k);
    CallFinds(cfg, es, j);
    SignsIn(Run(cfg, es).procs[p].req, calls, f.row, f.uid, Run(cfg, es).procs[p].pc.r);
    CompletionAnswers(cfg, es, p);
  }

  lemma CallFinds(cfg: Config, es: seq<Event>, k: nat)
    requires k < |es| && es[k].Advance?
    ensures CallAt(cfg, es, k).before == Found(cfg, es, k) && CallAt(cfg, es, k).c == es[k].c
  {
  }

  lemma FaultlessCalls(cfg: Config, es: seq<Event>, p: Pid)
    requires forall k :: 0 <= k < |es| && es[k].Advance? && es[k].p == p ==> es[k].c.fault.NoFault?
    ensures forall i :: 0 <= i < |CallsOf(cfg, es, p)| ==> Faultless(CallsOf(cfg, es, p)[i])
  {
    hide Run, MomentsOf;
    forall i | 0 <= i < |CallsOf(cfg, es, p)| ensures Faultless(CallsOf(cfg, es, p)[i]) {
      E.MomentIsAdvance(es, p, i);
    }
  }

  /** Once a faultless login has made its fourth call on a live row, only signing in is left. */
  lemma SignsIn(req: Request, calls: seq<Call>, row: Uuid, u: Uuid, r: Response)
    requires req.CompleteLogin? && LoginAnswered(req, calls, r) && |calls| >= 4
    requires forall i :: 0 <= i < |calls| ==> Faultless(calls[i])
    requires Orderly(calls[1].before) && Presented(calls[1].before, req.rawId, row)
    requires calls[1].before.rows[row].userId == u && Live(calls[3].before.rows, row)
    ensures r == Response(200, Fine, r.cookie, None, Account(u)) && r.cookie.Some?
  {
    hide Takes, Records, MintsSession, DropsGuest, Reads;
    assert LookupAnswered(req, calls, r);
    var row' :| Presented(calls[1].before, req.rawId, row') && AssertionAnswered(req, calls, row', r);
    assert row' == row;
  }
}

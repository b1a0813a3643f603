/** The log of a run is the log of its handlers: what a login logged in the run is what its handler method logs. */
module HandlerLog {
  import opened Service
  import opened Runs
  import opened Environment
  import opened Refinement
  import opened Anomalies
  import opened AssertionLog
  import opened Handlers

  /** The warnings due at a program point. */
  function DueAt(pc: Pc): seq<Warning> {
    if pc.RecordAssertion? then Warnings(pc.found, pc.seen) else []
  }

  /** The warnings due along the first n calls of a schedule. */
  ghost function DueAlong(p: Pid, req: Request, w: nat -> Beat, n: nat): seq<Warning> {
    if n == 0 then [] else DueAlong(p, req, w, n - 1) + DueAt(PcAfter(p, req, w, n - 1))
  }

  lemma {:induction false} SameDue(p: Pid, req: Request, w: nat -> Beat, w': nat -> Beat, n: nat)
    requires forall i :: 0 <= i < n ==> w(i) == w'(i)
    ensures DueAlong(p, req, w, n) == DueAlong(p, req, w', n)
  {
    hide PcAfter, DueAt;
    if n > 0 {
      SameDue(p, req, w, w', n - 1);
      SamePoint(p, req, w, w', n - 1);
    }
  }

  // ----- the run's log of one request, call by call -----

  lemma {:induction false} NothingBeforeArrival(cfg: Config, es: seq<Event>, p: Pid)
    requires Legal(cfg, es) && p !in Run(cfg, es).procs
    ensures LoggedBy(cfg, es, p) == []
  {
    hide Exec, Plan, Resume, News, Logs;
    if es != [] {
      NothingBeforeArrival(cfg, es[..|es| - 1], p);
    }
  }

  lemma {:induction false} LoggedAlong(cfg: Config, es: seq<Event>, p: Pid, idle: Beat)
    requires Legal(cfg, es) && p in Run(cfg, es).procs
    ensures var bs := Beats(cfg, es, p);
            LoggedBy(cfg, es, p) == DueAlong(p, Run(cfg, es).procs[p].req, Playing(bs, idle), |bs|)
  {
    hide Step, Enabled, Follows, BeatOf, PcAfter, DueAt, Logs;
    assert es != [] by { InitIsEmpty(cfg); }
    var fs, e := es[..|es| - 1], es[|es| - 1];
    var s := Run(cfg, fs);
    if p !in s.procs {
      NothingBeforeArrival(cfg, fs, p);
      NoBeatsBefore(cfg, fs, p);
      ArrivalFollows(cfg, s, e, p, idle);
    } else {
      LoggedAlong(cfg, fs, p, idle);
      if e.Advance? && e.p == p {
        var bs, bs', req := Beats(cfg, fs, p), Beats(cfg, es, p), s.procs[p].req;
        SteppedTo(s, p, e.c);
        RequestFollows(cfg, fs, p, idle);
        FollowsTo(cfg, s, p, bs, idle);
        SamePoint(p, req, Playing(bs, idle), Playing(bs', idle), |bs|);
        SameDue(p, req, Playing(bs, idle), Playing(bs', idle), |bs|);
        LogsDue(s, e);
      } else {
        StandsStill(s, e, p);
      }
    }
  }

  lemma LogsDue(s: State, e: Event)
    requires e.Advance? && e.p in s.procs
    ensures Logs(s, e) == DueAt(s.procs[e.p].pc)
  {
  }

  // ----- a login asserts with its fourth call or not at all -----

  predicate OnTrack(i: nat, pc: Pc) {
    match i
    case 0 => pc.Answered? || pc.Take?
    case 1 => pc.Answered? || pc.Resolve?
    case 2 => pc.Answered? || pc.ResolveUser?
    case 3 => pc.Answered? || pc.RecordAssertion?
    case 4 => pc.Answered? || pc.MintSession?
    case _ => pc.Answered? || pc.DropGuest?
  }

  lemma TrackGoesOn(i: nat, req: Request, pc: Pc, a: Answer, c: Choice)
    requires req.CompleteLogin? && OnTrack(i, pc)
    ensures OnTrack(i + 1, Resume(req, pc, a, c))
  {
  }

  lemma {:induction false} StaysOnTrack(p: Pid, req: Request, w: nat -> Beat, i: nat)
    requires req.CompleteLogin?
    ensures OnTrack(i, PcAfter(p, req, w, i))
  {
    hide Exec, Plan, Resume, OnTrack;
    if i == 0 {
      assert OnTrack(0, Start(req)) by { LoginStarts(req); }
    } else {
      StaysOnTrack(p, req, w, i - 1);
      var pc, b := PcAfter(p, req, w, i - 1), w(i - 1);
      TrackGoesOn(i - 1, req, pc, Exec(b.d, p, Plan(req, pc, b.c), b.c).1, b.c);
    }
  }

  lemma LoginStarts(req: Request)
    requires req.CompleteLogin?
    ensures OnTrack(0, Start(req))
  {
  }

  lemma OffFourth(i: nat, pc: Pc)
    requires OnTrack(i, pc) && i != 3
    ensures DueAt(pc) == []
  {
  }

  lemma {:induction false} DueIsHeard(p: Pid, req: Request, w: nat -> Beat, n: nat)
    requires req.CompleteLogin?
    ensures DueAlong(p, req, w, n) == Heard(p, req, w, n)
  {
    hide PcAfter, OnTrack, Warnings;
    if n > 0 {
      DueIsHeard(p, req, w, n - 1);
      StaysOnTrack(p, req, w, n - 1);
      if n - 1 != 3 {
        OffFourth(n - 1, PcAfter(p, req, w, n - 1));
      }
    }
  }

  /**
   * For every login answered in any legal run: on the schedule cut out of the run, which the handler
   * method accepts and on which it gives the run's answer, it adds to its logger exactly what the run
   * says the login logged.
   */
  lemma RunsLogAsHandlers(cfg: Config, es: seq<Event>, p: Pid) returns (w: nat -> Beat, n: nat)
    requires Legal(cfg, es) && p in Run(cfg, es).procs && Run(cfg, es).procs[p].pc.Answered?
    requires Run(cfg, es).procs[p].req.CompleteLogin?
    ensures Scheduled(cfg, p, Run(cfg, es).procs[p].req, w)
    ensures PcAfter(p, Run(cfg, es).procs[p].req, w, n) == Run(cfg, es).procs[p].pc
    ensures forall i :: 0 <= i < n ==> HappensIn(cfg, es, p, Run(cfg, es).procs[p].req, w, i)
    ensures Heard(p, Run(cfg, es).procs[p].req, w, n) == LoggedBy(cfg, es, p)
  {
    hide Run, Legal, Scheduled, PcAfter, HappensIn, Beats, BeatOf, Heard, DueAlong, LoggedBy;
    w, n := RunsAreHandlerRuns(cfg, es, p);
    LoggedAlong(cfg, es, p, BeatOf(Run(cfg, es).data, IDLE));
    DueIsHeard(p, Run(cfg, es).procs[p].req, w, n);
  }
}

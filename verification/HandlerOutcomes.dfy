/** The handler methods achieve what Outcomes says: their contracts end at points of the machine, and those do. */
module HandlerOutcomes {
  import opened Service
  import opened Environment
  import opened Outcomes
  import opened Achieved
  import C = Calls
  import R = Refinement

  /** The first n calls on a schedule, with what each leaves. */
  ghost function CallsOn(p: Pid, req: Request, w: nat -> Beat, n: nat): seq<C.Call> {
    seq(n, i requires 0 <= i < n => CallOn(p, req, w, i))
  }

  ghost function CallOn(p: Pid, req: Request, w: nat -> Beat, i: nat): C.Call {
    var b := w(i);
    C.Call(b.d, b.c, Exec(b.d, p, Plan(req, PcAfter(p, req, w, i), b.c), b.c).0)
  }

  lemma MovesOnSchedule(cfg: Config, p: Pid, req: Request, w: nat -> Beat, i: nat)
    requires Scheduled(cfg, p, req, w) && !PcAfter(p, req, w, i).Answered?
    ensures Moves(p, req, PcAfter(p, req, w, i), CallOn(p, req, w, i), PcAfter(p, req, w, i + 1))
  {
    hide Exec, Resume, PcAfter, Consistent, C.Orderly, LocksMatch, Blocked;
    assert Fits(cfg, p, req, w(i), PcAfter(p, req, w, i));
    ConsistentIsOrderly(w(i));
    R.NextPoint(p, req, w, i);
    ListsOwn(req, PcAfter(p, req, w, i), w(i).c);
  }

  lemma ConsistentIsOrderly(b: Beat)
    requires Consistent(b)
    ensures C.Orderly(b.d)
  {
    hide C.Orderly;
  }

  lemma ListsOwn(req: Request, pc: Pc, c: Choice)
    ensures pc.ListPasskeys? || pc.FindPasskey? ==> Plan(req, pc, c) == OnRows(ListByUserId(pc.uid))
  {
  }

  lemma FirstAnswer(p: Pid, req: Request, w: nat -> Beat, n: nat) returns (m: nat)
    requires PcAfter(p, req, w, n).Answered?
    ensures m <= n && PcAfter(p, req, w, m).Answered?
    ensures forall i :: 0 <= i < m ==> !PcAfter(p, req, w, i).Answered?
  {
    hide PcAfter;
    m := 0;
    while !PcAfter(p, req, w, m).Answered?
      invariant m <= n && forall i :: 0 <= i < m ==> !PcAfter(p, req, w, i).Answered?
      decreases n - m
    {
      m := m + 1;
    }
  }

  /**
   * On any schedule a handler method accepts the answer it reaches comes with calls, effects and conditions
   * as the table has them: call i finds the state w(i) names and leaves what the schedule says it leaves.
   */
  lemma HandlersAnswer(cfg: Config, p: Pid, req: Request, w: nat -> Beat, n: nat, r: Response, before: Data)
    returns (calls: seq<C.Call>)
    requires Scheduled(cfg, p, req, w) && PcAfter(p, req, w, n) == Answered(r)
    ensures |calls| <= n && Answers(req, calls, r)
    ensures forall i :: 0 <= i < |calls| ==>
              && calls[i].before == w(i).d && calls[i].c == w(i).c
              && Contents(calls[i].after) == LeftBy(before, p, req, w, i + 1)
  {
    hide Exec, Plan, Resume, PcAfter, Scheduled, Answers, Moves, Start;
    var m := FirstAnswer(p, req, w, n);
    R.AnswerIsFinal(p, req, w, m, n, PcAfter(p, req, w, m).r);
    calls := CallsOn(p, req, w, m);
    var pcs := seq(m + 1, i requires 0 <= i < m + 1 => PcAfter(p, req, w, i));
    forall i | 0 <= i < m ensures Moves(p, req, pcs[i], calls[i], pcs[i + 1]) {
      MovesOnSchedule(cfg, p, req, w, i);
    }
    assert pcs[0] == Start(req) by { StartsThere(p, req, w); }
    WayMeets(p, req, calls, pcs);
  }

  lemma StartsThere(p: Pid, req: Request, w: nat -> Beat)
    ensures PcAfter(p, req, w, 0) == Start(req)
  {
    hide Start;
  }
}

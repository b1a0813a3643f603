/** Every request of every run, and every handler method, achieves what Outcomes says. */
module RunOutcomes {
  import opened Tables
  import opened Service
  import opened Invariant
  import opened Soundness
  import opened Runs
  import opened Calls
  import opened Outcomes
  import opened Achieved

  // ----- every request of every run -----

  /** The events at which request p moved, in order. */
  function MomentsOf(es: seq<Event>, p: Pid): (ks: seq<nat>)
    ensures forall i :: 0 <= i < |ks| ==> ks[i] < |es| && es[ks[i]].Advance? && es[ks[i]].p == p
  {
    if es == [] then []
    else
      var ks := MomentsOf(es[..|es| - 1], p);
      if es[|es| - 1].Advance? && es[|es| - 1].p == p then ks + [|es| - 1] else ks
  }

  lemma {:induction false} MomentsInOrder(es: seq<Event>, p: Pid, i: nat, j: nat)
    requires i < j < |MomentsOf(es, p)|
    ensures MomentsOf(es, p)[i] < MomentsOf(es, p)[j]
  {
    var fs := es[..|es| - 1];
    if j < |MomentsOf(fs, p)| {
      MomentsInOrder(fs, p, i, j);
    }
  }

  /** Every event of the request is one of its moments. */
  lemma {:induction false} PlaceOf(es: seq<Event>, p: Pid, k: nat) returns (i: nat)
    requires k < |es| && es[k].Advance? && es[k].p == p
    ensures i < |MomentsOf(es, p)| && MomentsOf(es, p)[i] == k
  {
    var fs := es[..|es| - 1];
    if k < |fs| {
      i := PlaceOf(fs, p, k);
    } else {
      i := |MomentsOf(fs, p)|;
    }
  }

  /** What the stores held when event k was due. */
  ghost function Found(cfg: Config, es: seq<Event>, k: nat): Data
    requires k <= |es|
  {
    Run(cfg, es[..k]).data
  }

  /** The call made at event k of the run, with the very stores of the run around it. */
  ghost function CallAt(cfg: Config, es: seq<Event>, k: nat): Call
    requires k < |es| && es[k].Advance?
  {
    Call(Found(cfg, es, k), es[k].c, Found(cfg, es, k + 1))
  }

  /** The calls request p made in the run. */
  ghost function CallsOf(cfg: Config, es: seq<Event>, p: Pid): (calls: seq<Call>)
    ensures |calls| == |MomentsOf(es, p)|
  {
    var ks := MomentsOf(es, p);
    seq(|ks|, i requires 0 <= i < |ks| => CallAt(cfg, es, ks[i]))
  }

  /** Where request p stood before each of its calls, and stands now. */
  ghost function PointsOf(cfg: Config, es: seq<Event>, p: Pid): seq<Pc>
    requires p in Run(cfg, es).procs
  {
    var ks := MomentsOf(es, p);
    seq(|ks|, i requires 0 <= i < |ks| => PointAt(cfg, es, ks[i], p)) + [Run(cfg, es).procs[p].pc]
  }

  ghost function PointAt(cfg: Config, es: seq<Event>, k: nat, p: Pid): Pc
    requires k < |es|
  {
    var s := Run(cfg, es[..k]);
    if p in s.procs then s.procs[p].pc else Answered(Denied(0, Fine))
  }

  lemma MovesInRuns(cfg: Config, es: seq<Event>, p: Pid, k: nat)
    requires Legal(cfg, es) && k < |es| && es[k].Advance? && es[k].p == p
    ensures p in Run(cfg, es[..k]).procs && p in Run(cfg, es[..k + 1]).procs
    ensures var req := Run(cfg, es[..k]).procs[p].req;
            && Run(cfg, es[..k + 1]).procs[p].req == req
            && Moves(p, req, PointAt(cfg, es, k, p), CallAt(cfg, es, k), Run(cfg, es[..k + 1]).procs[p].pc)
  {
    hide Run, Legal, Inv, Exec, Plan, Resume, Enabled, Orderly, IsListing;
    AdvancedWasThere(cfg, es, k);
    LegalPrefix(cfg, es, k);
    Sound(cfg, es[..k]);
    RunStep(cfg, es, k);
    SteppedTo(Run(cfg, es[..k]), p, es[k].c);
    ListingFor(Run(cfg, es[..k]), p, es[k].c);
    OrderlyInRuns(Run(cfg, es[..k]));
  }

  /** Between two of its moments, before the first and after the last, a request stays where it is. */
  lemma {:induction false} Waits(cfg: Config, es: seq<Event>, p: Pid, j: nat)
    requires Legal(cfg, es) && j <= |es| && p in Run(cfg, es[..j]).procs
    requires forall k :: j <= k < |es| ==> !(es[k].Advance? && es[k].p == p)
    ensures p in Run(cfg, es).procs && Run(cfg, es).procs[p] == Run(cfg, es[..j]).procs[p]
  {
    hide Step, Enabled;
    if j < |es| {
      var fs := es[..|es| - 1];
      assert fs[..j] == es[..j];
      Waits(cfg, fs, p, j);
      StandsStill(Run(cfg, fs), es[|es| - 1], p);
    } else {
      assert es[..j] == es;
    }
  }

  lemma {:induction false} StartsOnTheWay(cfg: Config, es: seq<Event>, p: Pid)
    requires Legal(cfg, es) && p in Run(cfg, es).procs
    requires forall k :: 0 <= k < |es| ==> !(es[k].Advance? && es[k].p == p)
    ensures Run(cfg, es).procs[p].pc == Start(Run(cfg, es).procs[p].req)
  {
    hide Exec, Plan, Resume, News, Start, Enabled;
    if es != [] && p in Run(cfg, es[..|es| - 1]).procs {
      StartsOnTheWay(cfg, es[..|es| - 1], p);
      StandsStill(Run(cfg, es[..|es| - 1]), es[|es| - 1], p);
    }
  }

  /** What a call leads to is where the request stands at its next call, or now. */
  lemma StandsUntilNext(cfg: Config, es: seq<Event>, p: Pid, i: nat)
    requires Legal(cfg, es) && p in Run(cfg, es).procs && i < |MomentsOf(es, p)|
    requires p in Run(cfg, es[..MomentsOf(es, p)[i] + 1]).procs
    ensures PointsOf(cfg, es, p)[i + 1] == Run(cfg, es[..MomentsOf(es, p)[i] + 1]).procs[p].pc
  {
    hide Run, Legal, MomentsOf, PointAt;
    var ks := MomentsOf(es, p);
    var j := if i + 1 < |ks| then ks[i + 1] else |es|;
    NoneBetween(es, p, i, j);
    LegalPrefix(cfg, es, j);
    assert es[..j][..ks[i] + 1] == es[..ks[i] + 1];
    Waits(cfg, es[..j], p, ks[i] + 1);
    if i + 1 < |ks| {
      PointThere(cfg, es, j, p);
    } else {
      assert es[..j] == es;
    }
  }

  /** From one call to the next the way is one move. */
  lemma LinkedOnTheWay(cfg: Config, es: seq<Event>, p: Pid, i: nat)
    requires Legal(cfg, es) && p in Run(cfg, es).procs && i < |MomentsOf(es, p)|
    ensures Moves(p, Run(cfg, es).procs[p].req, PointsOf(cfg, es, p)[i], CallsOf(cfg, es, p)[i],
                PointsOf(cfg, es, p)[i + 1])
  {
    hide Run, Legal, Moves, CallAt, PointAt, MomentsOf;
    var k := MomentsOf(es, p)[i];
    MovesInRuns(cfg, es, p, k);
    RequestKept(cfg, es, p, k);
    StandsUntilNext(cfg, es, p, i);
  }

  lemma FirstOnTheWay(cfg: Config, es: seq<Event>, p: Pid)
    requires Legal(cfg, es) && p in Run(cfg, es).procs
    ensures PointsOf(cfg, es, p)[0] == Start(Run(cfg, es).procs[p].req)
  {
    hide Run, Legal, Moves, Start, CallAt, PointAt, MomentsOf;
    var ks := MomentsOf(es, p);
    var j := if |ks| > 0 then ks[0] else |es|;
    if |ks| > 0 {
      MovesInRuns(cfg, es, p, j);
      PointThere(cfg, es, j, p);
      RequestKept(cfg, es, p, j);
    } else {
      assert es[..j] == es;
    }
    LegalPrefix(cfg, es, j);
    NoneBefore(es, p);
    StartsOnTheWay(cfg, es[..j], p);
  }

  lemma RunIsWay(cfg: Config, es: seq<Event>, p: Pid)
    requires Legal(cfg, es) && p in Run(cfg, es).procs && Run(cfg, es).procs[p].pc.Answered?
    ensures Way(p, Run(cfg, es).procs[p].req, CallsOf(cfg, es, p), PointsOf(cfg, es, p))
  {
    hide Run, Legal, Moves, Start, CallAt, PointAt, MomentsOf;
    forall i | 0 <= i < |CallsOf(cfg, es, p)|
      ensures Moves(p, Run(cfg, es).procs[p].req, PointsOf(cfg, es, p)[i], CallsOf(cfg, es, p)[i],
                  PointsOf(cfg, es, p)[i + 1])
    {
      LinkedOnTheWay(cfg, es, p, i);
    }
    FirstOnTheWay(cfg, es, p);
  }

  lemma PointThere(cfg: Config, es: seq<Event>, k: nat, p: Pid)
    requires k < |es| && p in Run(cfg, es[..k]).procs
    ensures PointAt(cfg, es, k, p) == Run(cfg, es[..k]).procs[p].pc
  {
    hide Run;
  }

  lemma NoneBetween(es: seq<Event>, p: Pid, i: nat, j: nat)
    requires i < |MomentsOf(es, p)| && j <= |es|
    requires j == if i + 1 < |MomentsOf(es, p)| then MomentsOf(es, p)[i + 1] else |es|
    ensures MomentsOf(es, p)[i] < j
    ensures forall k :: MomentsOf(es, p)[i] < k < j ==> !(es[k].Advance? && es[k].p == p)
  {
    if i + 1 < |MomentsOf(es, p)| {
      MomentsInOrder(es, p, i, i + 1);
    }
    forall k | 0 <= k < |es| && es[k].Advance? && es[k].p == p ensures k <= MomentsOf(es, p)[i] || j <= k {
      var m := PlaceOf(es, p, k);
      if m < i {
        MomentsInOrder(es, p, m, i);
      } else if m > i + 1 {
        MomentsInOrder(es, p, i + 1, m);
      }
    }
  }

  lemma NoneBefore(es: seq<Event>, p: Pid)
    ensures var ks := MomentsOf(es, p);
            forall k :: 0 <= k < (if |ks| > 0 then ks[0] else |es|) ==> !(es[k].Advance? && es[k].p == p)
  {
    var ks := MomentsOf(es, p);
    forall k | 0 <= k < |es| && es[k].Advance? && es[k].p == p ensures |ks| > 0 && ks[0] <= k {
      var m := PlaceOf(es, p, k);
      if m > 0 {
        MomentsInOrder(es, p, 0, m);
      }
    }
  }

  /** In every legal run every answered request made the calls, with the effects and the answer, of the table. */
  lemma RunsAnswer(cfg: Config, es: seq<Event>, p: Pid)
    requires Legal(cfg, es) && p in Run(cfg, es).procs && Run(cfg, es).procs[p].pc.Answered?
    ensures Answers(Run(cfg, es).procs[p].req, CallsOf(cfg, es, p), Run(cfg, es).procs[p].pc.r)
  {
    hide Run, Legal, Way, Answers, MomentsOf;
    RunIsWay(cfg, es, p);
    WayMeets(p, Run(cfg, es).procs[p].req, CallsOf(cfg, es, p), PointsOf(cfg, es, p));
  }
}

/** Runs and their prefixes: what an earlier state still says about a later one. */
module Runs {
  import opened Domain
  import opened Service
  import opened Invariant
  import opened Soundness

  lemma {:induction false} LegalPrefix(cfg: Config, es: seq<Event>, k: nat)
    requires Legal(cfg, es) && k <= |es|
    ensures Legal(cfg, es[..k])
  {
    if k < |es| {
      LegalPrefix(cfg, es[..|es| - 1], k);
      assert es[..|es| - 1][..k] == es[..k];
    } else {
      assert es[..k] == es;
    }
  }

  /** Rows and users persist, facts stay on record. */
  ghost predicate Later(s: State, s': State) {
    && UsersEvolve(s.data.users, s'.data.users)
    && RowsEvolve(s.data.rows, s'.data.rows)
    && s.log <= s'.log
  }

  lemma LaterIsTransitive(s: State, s': State, s'': State)
    requires Later(s, s') && Later(s', s'')
    ensures Later(s, s'')
  {
    assert forall u :: u in s.data.users ==> u in s'.data.users && u in s''.data.users;
  }

  lemma AdvanceIsLater(s: State, p: Pid, c: Choice)
    requires Inv(s) && Enabled(s, Advance(p, c))
    ensures Later(s, Step(s, Advance(p, c)))
  {
    hide StoreInv, ProcInv, Exec, News, Plan, OpOk, Blocked, UsersEvolve, RowsEvolve, FreshString, FreshId;
    var pr := s.procs[p];
    assert ProcInv(s.data, s.log, p, pr);
    RequestOpOk(s.data, s.log, p, pr, c);
    ExecEvolves(s.data, s.log, p, Plan(pr.req, pr.pc, c), c);
  }

  lemma ProvideIsLater(s: State, cred: Credential, id: Uuid)
    requires id !in s.data.rows
    ensures Later(s, Step(s, Provide(cred, id)))
  {
  }

  lemma RelabelIsLater(s: State, row: Uuid, name: string)
    ensures Later(s, Step(s, Relabel(row, name)))
  {
  }

  lemma StepIsLater(s: State, e: Event)
    requires Inv(s) && Enabled(s, e)
    ensures Later(s, Step(s, e))
  {
    hide Inv, Later;
    match e {
      case Arrive(_, _) => ArrivalIsLater(s, e);
      case Advance(p, c) => AdvanceIsLater(s, p, c);
      case Tick(_) => ArrivalIsLater(s, e);
      case Provide(cred, id) => ProvideIsLater(s, cred, id);
      case Relabel(row, name) => RelabelIsLater(s, row, name);
    }
  }

  lemma ArrivalIsLater(s: State, e: Event)
    requires e.Arrive? || e.Tick?
    ensures Later(s, Step(s, e))
  {
  }

  /** Every state of a run is later than the states before it. */
  lemma {:induction false} RunEvolves(cfg: Config, es: seq<Event>, k: nat)
    requires Legal(cfg, es) && k <= |es|
    ensures Later(Run(cfg, es[..k]), Run(cfg, es))
  {
    if k == |es| {
      assert es[..k] == es;
      LaterThanItself(Run(cfg, es));
    } else {
      hide Step, Enabled, Inv, Later;
      var fs := es[..|es| - 1];
      assert fs[..k] == es[..k];
      RunEvolves(cfg, fs, k);
      Sound(cfg, fs);
      StepIsLater(Run(cfg, fs), es[|es| - 1]);
      LaterIsTransitive(Run(cfg, es[..k]), Run(cfg, fs), Run(cfg, es));
    }
  }

  lemma LaterThanItself(s: State)
    ensures Later(s, s)
  {
  }

  /** A request stays the request it is, and an answer once given stays the answer. */
  lemma {:induction false} RequestKept(cfg: Config, es: seq<Event>, p: Pid, k: nat)
    requires Legal(cfg, es) && k <= |es| && p in Run(cfg, es[..k]).procs
    ensures p in Run(cfg, es).procs && Run(cfg, es).procs[p].req == Run(cfg, es[..k]).procs[p].req
    ensures Run(cfg, es[..k]).procs[p].pc.Answered? ==> Run(cfg, es).procs[p] == Run(cfg, es[..k]).procs[p]
  {
    if k < |es| {
      hide Exec, Plan, Resume, News;
      assert es[..|es| - 1][..k] == es[..k];
      RequestKept(cfg, es[..|es| - 1], p, k);
    } else {
      assert es[..k] == es;
    }
  }

  lemma RunStep(cfg: Config, es: seq<Event>, k: nat)
    requires k < |es|
    ensures Run(cfg, es[..k + 1]) == Step(Run(cfg, es[..k]), es[k])
  {
    assert es[..k + 1][..k] == es[..k];
  }

  /** The request whose step an event is was there, and had not answered. */
  lemma AdvancedWasThere(cfg: Config, es: seq<Event>, k: nat)
    requires Legal(cfg, es) && k < |es| && es[k].Advance?
    ensures es[k].p in Run(cfg, es[..k]).procs && !Run(cfg, es[..k]).procs[es[k].p].pc.Answered?
    ensures Enabled(Run(cfg, es[..k]), es[k])
  {
    hide Run, Plan, FreshString, FreshId;
    LegalPrefix(cfg, es, k + 1);
    assert es[..k + 1][..k] == es[..k];
  }

  lemma SteppedTo(s: State, p: Pid, c: Choice)
    requires p in s.procs
    ensures var pr, s' := s.procs[p], Step(s, Advance(p, c));
            && p in s'.procs && s'.procs[p].req == pr.req
            && s'.procs[p].pc == Resume(pr.req, pr.pc, Exec(s.data, p, Plan(pr.req, pr.pc, c), c).1, c)
            && s'.data == Exec(s.data, p, Plan(pr.req, pr.pc, c), c).0
            && s'.log == s.log + News(s.data, p, Plan(pr.req, pr.pc, c), c)
  {
    hide Exec, Plan, Resume, News;
  }

  lemma StandsStill(s: State, e: Event, p: Pid)
    requires Enabled(s, e) && !(e.Advance? && e.p == p) && p in s.procs
    ensures p in Step(s, e).procs && Step(s, e).procs[p] == s.procs[p]
  {
    hide Exec, Plan, Resume, News;
  }
}

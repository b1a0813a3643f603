/**
 * Why the guard needs its premise. The row lock does not keep apart deletes of different rows of one
 * user: any number of them may count before the first commits, and then all of them commit.
 */
module Overlap {
  import opened Domain
  import opened Tables
  import opened Service
  import opened Invariant

  // ----- continuing a run -----

  ghost function RunFrom(s: State, es: seq<Event>): State
    decreases |es|
  {
    if es == [] then s else RunFrom(Step(s, es[0]), es[1..])
  }

  ghost predicate LegalFrom(s: State, es: seq<Event>)
    decreases |es|
  {
    es == [] || (Enabled(s, es[0]) && LegalFrom(Step(s, es[0]), es[1..]))
  }

  lemma {:induction false} Continue(cfg: Config, es: seq<Event>, fs: seq<Event>)
    requires Legal(cfg, es) && LegalFrom(Run(cfg, es), fs)
    ensures Legal(cfg, es + fs) && Run(cfg, es + fs) == RunFrom(Run(cfg, es), fs)
    decreases |fs|
  {
    hide Step, Enabled;
    if fs == [] {
      assert es + fs == es;
    } else {
      var es' := es + [fs[0]];
      assert es'[..|es'| - 1] == es;
      Continue(cfg, es', fs[1..]);
      assert es' + fs[1..] == es + fs;
    }
  }

  lemma {:induction false} Concat(s: State, es: seq<Event>, fs: seq<Event>)
    requires LegalFrom(s, es) && LegalFrom(RunFrom(s, es), fs)
    ensures LegalFrom(s, es + fs) && RunFrom(s, es + fs) == RunFrom(RunFrom(s, es), fs)
    decreases |es|
  {
    hide Step, Enabled;
    if es == [] {
      assert es + fs == fs;
    } else {
      Concat(Step(s, es[0]), es[1..], fs);
      assert (es + fs)[1..] == es[1..] + fs;
    }
  }

  // ----- a delete request, stage by stage -----

  function PcAt(stage: nat, u: Uuid, row: Uuid): Pc {
    if stage <= 1 then Gate
    else if stage == 2 then FindPasskey(u, row)
    else if stage == 3 then LockRow(u, row)
    else if stage == 4 then CountLive(u, row, u)
    else if stage == 5 then MarkRow(u, row, u)
    else if stage == 6 then CommitRow(u, row, u)
    else Answered(Response(204, Fine, None, None, NoBody))
  }

  function Move(stage: nat, p: Pid, row: Uuid, cookie: string, c: Choice): Event {
    if stage == 0 then Arrive(p, DeleteCredential(cookie, Some(row))) else Advance(p, c)
  }

  /** The delete of row by request p stands at the given stage; it holds the row lock from 4 to 6. */
  ghost predicate Poised(s: State, stage: nat, p: Pid, row: Uuid, u: Uuid, cookie: string) {
    && (if stage == 0 then p !in s.procs
        else p in s.procs && s.procs[p] == Process(DeleteCredential(cookie, Some(row)), PcAt(stage, u, row), false))
    && (stage <= 3 ==> row !in s.data.locks)
    && (4 <= stage <= 6 ==> HeldBy(s.data.locks, row, p))
  }

  /** The cookie is a live session of u, u has at least two live rows, and c meets no fault. */
  ghost predicate Ready(s: State, u: Uuid, cookie: string, c: Choice) {
    && cookie != ""
    && Fetch(s.data.sessions, cookie, s.data.now) == Some(u)
    && c.fault == NoFault && FreshString(s.log, c.token) && FreshId(s.data, c.uuid)
    && IsListing(c.list, s.data.rows, u)
    && |LiveOf(s.data.rows, u)| >= 2
  }

  ghost predicate Moved(s: State, s': State, stage: nat, p: Pid, row: Uuid, u: Uuid, cookie: string) {
    && s'.log == s.log
    && s'.data == s.data.(locks := if stage == 3 then s.data.locks[row := p] else s.data.locks)
    && s'.procs == s.procs[p := Process(DeleteCredential(cookie, Some(row)), PcAt(stage + 1, u, row), false)]
  }

  lemma Arrives(s: State, p: Pid, row: Uuid, u: Uuid, cookie: string, c: Choice)
    requires Poised(s, 0, p, row, u, cookie) && cookie != ""
    ensures Enabled(s, Move(0, p, row, cookie, c))
    ensures Moved(s, Step(s, Move(0, p, row, cookie, c)), 0, p, row, u, cookie)
  {
  }

  lemma Passes(s: State, p: Pid, row: Uuid, u: Uuid, cookie: string, c: Choice)
    requires Poised(s, 1, p, row, u, cookie) && Ready(s, u, cookie, c)
    ensures Enabled(s, Move(1, p, row, cookie, c))
    ensures Moved(s, Step(s, Move(1, p, row, cookie, c)), 1, p, row, u, cookie)
  {
    hide IsListing, FreshString;
    assert s.log + [] == s.log;
  }

  lemma Finds(s: State, p: Pid, row: Uuid, u: Uuid, cookie: string, c: Choice)
    requires Poised(s, 2, p, row, u, cookie) && Ready(s, u, cookie, c)
    requires row in LiveOf(s.data.rows, u)
    ensures Enabled(s, Move(2, p, row, cookie, c))
    ensures Moved(s, Step(s, Move(2, p, row, cookie, c)), 2, p, row, u, cookie)
  {
    ListedIsOwned(s.data.rows, c.list, row, u);
    hide FreshString, IsListing, Owned, LiveOf;
    assert s.log + [] == s.log;
  }

  lemma ListedIsOwned(rows: Rows, list: seq<Credential>, row: Uuid, u: Uuid)
    requires IsListing(list, rows, u) && row in LiveOf(rows, u)
    ensures Owned(list, row)
  {
    var i :| 0 <= i < |list| && list[i].id == row;
  }

  lemma LocksRow(s: State, p: Pid, row: Uuid, u: Uuid, cookie: string, c: Choice)
    requires Poised(s, 3, p, row, u, cookie) && Ready(s, u, cookie, c)
    requires row in LiveOf(s.data.rows, u)
    ensures Enabled(s, Move(3, p, row, cookie, c))
    ensures Moved(s, Step(s, Move(3, p, row, cookie, c)), 3, p, row, u, cookie)
  {
    hide IsListing, FreshString;
    assert s.log + [] == s.log;
  }

  lemma Counts(s: State, p: Pid, row: Uuid, u: Uuid, cookie: string, c: Choice)
    requires Poised(s, 4, p, row, u, cookie) && Ready(s, u, cookie, c)
    requires row in LiveOf(s.data.rows, u)
    ensures Enabled(s, Move(4, p, row, cookie, c))
    ensures Moved(s, Step(s, Move(4, p, row, cookie, c)), 4, p, row, u, cookie)
  {
    hide IsListing, FreshString;
    assert s.log + [] == s.log;
  }

  lemma Marks(s: State, p: Pid, row: Uuid, u: Uuid, cookie: string, c: Choice)
    requires Poised(s, 5, p, row, u, cookie) && Ready(s, u, cookie, c)
    requires row in LiveOf(s.data.rows, u)
    ensures Enabled(s, Move(5, p, row, cookie, c))
    ensures Moved(s, Step(s, Move(5, p, row, cookie, c)), 5, p, row, u, cookie)
  {
    hide IsListing, FreshString;
    assert s.log + [] == s.log;
  }

  lemma Moves(s: State, stage: nat, p: Pid, row: Uuid, u: Uuid, cookie: string, c: Choice)
    requires stage <= 5 && Poised(s, stage, p, row, u, cookie) && Ready(s, u, cookie, c)
    requires row in LiveOf(s.data.rows, u)
    ensures Enabled(s, Move(stage, p, row, cookie, c))
    ensures Moved(s, Step(s, Move(stage, p, row, cookie, c)), stage, p, row, u, cookie)
  {
    hide Enabled, Step, Moved, Poised, Move;
    if stage == 0 {
      Arrives(s, p, row, u, cookie, c);
    } else if stage == 1 {
      Passes(s, p, row, u, cookie, c);
    } else if stage == 2 {
      Finds(s, p, row, u, cookie, c);
    } else if stage == 3 {
      LocksRow(s, p, row, u, cookie, c);
    } else if stage == 4 {
      Counts(s, p, row, u, cookie, c);
    } else {
      Marks(s, p, row, u, cookie, c);
    }
  }

  lemma ReadyStays(s: State, s': State, stage: nat, p: Pid, row: Uuid, u: Uuid, cookie: string, c: Choice)
    requires Ready(s, u, cookie, c) && Moved(s, s', stage, p, row, u, cookie)
    ensures Ready(s', u, cookie, c)
  {
  }

  lemma PoisedNext(s: State, s': State, stage: nat, p: Pid, row: Uuid, u: Uuid, cookie: string)
    requires stage <= 5 && Poised(s, stage, p, row, u, cookie) && Moved(s, s', stage, p, row, u, cookie)
    ensures Poised(s', stage + 1, p, row, u, cookie)
    ensures forall t: nat, q, r :: q != p && r != row && Poised(s, t, q, r, u, cookie) ==>
              Poised(s', t, q, r, u, cookie)
  {
  }

  // ----- rounds: every request of the batch makes the same move -----

  function Round(stage: nat, ps: seq<Pid>, rs: seq<Uuid>, cookie: string, c: Choice): seq<Event>
    requires |ps| == |rs|
  {
    if ps == [] then [] else [Move(stage, ps[0], rs[0], cookie, c)] + Round(stage, ps[1..], rs[1..], cookie, c)
  }

  function Elements(xs: seq<nat>): set<nat> {
    if xs == [] then {} else {xs[0]} + Elements(xs[1..])
  }

  predicate Distinct(xs: seq<nat>) {
    forall i, j :: 0 <= i < j < |xs| ==> xs[i] != xs[j]
  }

  ghost predicate AllPoised(s: State, stage: nat, ps: seq<Pid>, rs: seq<Uuid>, u: Uuid, cookie: string) {
    && |ps| == |rs| && Distinct(ps) && Distinct(rs)
    && (forall i :: 0 <= i < |rs| ==> rs[i] in LiveOf(s.data.rows, u))
    && (forall i :: 0 <= i < |ps| ==> Poised(s, stage, ps[i], rs[i], u, cookie))
  }

  /** Bystanders of a round keep their stage. */
  ghost predicate Untouched(s: State, s': State, ps: seq<Pid>, rs: seq<Uuid>, u: Uuid, cookie: string) {
    forall t: nat, q, r :: q !in ps && r !in rs && Poised(s, t, q, r, u, cookie) ==> Poised(s', t, q, r, u, cookie)
  }

  lemma {:induction false} Phase(s: State, stage: nat, ps: seq<Pid>, rs: seq<Uuid>, u: Uuid, cookie: string, c: Choice)
    requires stage <= 5 && AllPoised(s, stage, ps, rs, u, cookie) && Ready(s, u, cookie, c)
    ensures LegalFrom(s, Round(stage, ps, rs, cookie, c))
    ensures var s' := RunFrom(s, Round(stage, ps, rs, cookie, c));
            && AllPoised(s', stage + 1, ps, rs, u, cookie) && Ready(s', u, cookie, c)
            && s'.data.rows == s.data.rows && Untouched(s, s', ps, rs, u, cookie)
    decreases |ps|
  {
    hide Enabled, Step, Poised, Ready, Move;
    if ps != [] {
      var p, row := ps[0], rs[0];
      var s1 := Step(s, Move(stage, p, row, cookie, c));
      Moves(s, stage, p, row, u, cookie, c);
      ReadyStays(s, s1, stage, p, row, u, cookie, c);
      PoisedNext(s, s1, stage, p, row, u, cookie);
      Phase(s1, stage, ps[1..], rs[1..], u, cookie, c);
      var s' := RunFrom(s1, Round(stage, ps[1..], rs[1..], cookie, c));
      assert p !in ps[1..] && row !in rs[1..];
      forall i | 0 <= i < |ps| ensures Poised(s', stage + 1, ps[i], rs[i], u, cookie) {
        if i > 0 {
          assert ps[i] == ps[1..][i - 1] && rs[i] == rs[1..][i - 1];
        }
      }
    }
  }

  lemma Commits(s: State, p: Pid, row: Uuid, u: Uuid, cookie: string, c: Choice)
    requires Poised(s, 6, p, row, u, cookie)
    requires c.fault == NoFault && FreshString(s.log, c.token) && FreshId(s.data, c.uuid)
    requires row in LiveOf(s.data.rows, u)
    ensures Enabled(s, Move(6, p, row, cookie, c))
    ensures var s' := Step(s, Move(6, p, row, cookie, c));
            && s'.data.rows == Bury(s.data.rows, row, s.data.now)
            && Poised(s', 7, p, row, u, cookie)
            && (forall t: nat, q, r :: q != p && t >= 6 && Poised(s, t, q, r, u, cookie) ==>
                 Poised(s', t, q, r, u, cookie))
            && FreshString(s'.log, c.token) && FreshId(s'.data, c.uuid)
  {
  }

  lemma BuryRemoves(rows: Rows, row: Uuid, now: nat, u: Uuid)
    requires row in LiveOf(rows, u)
    ensures LiveOf(Bury(rows, row, now), u) == LiveOf(rows, u) - {row}
  {
  }

  lemma {:induction false} CommitPhase(s: State, ps: seq<Pid>, rs: seq<Uuid>, u: Uuid, cookie: string, c: Choice)
    requires AllPoised(s, 6, ps, rs, u, cookie)
    requires c.fault == NoFault && FreshString(s.log, c.token) && FreshId(s.data, c.uuid)
    ensures LegalFrom(s, Round(6, ps, rs, cookie, c))
    ensures var s' := RunFrom(s, Round(6, ps, rs, cookie, c));
            && (forall i :: 0 <= i < |ps| ==> Poised(s', 7, ps[i], rs[i], u, cookie))
            && LiveOf(s'.data.rows, u) == LiveOf(s.data.rows, u) - Elements(rs)
            && (forall q, r :: q !in ps && Poised(s, 7, q, r, u, cookie) ==> Poised(s', 7, q, r, u, cookie))
    decreases |ps|
  {
    hide Enabled, Step, Poised, Move, FreshString, FreshId, Bury, LiveOf;
    if ps != [] {
      var p, row := ps[0], rs[0];
      var s1 := Step(s, Move(6, p, row, cookie, c));
      Commits(s, p, row, u, cookie, c);
      BuryRemoves(s.data.rows, row, s.data.now, u);
      CommitPhase(s1, ps[1..], rs[1..], u, cookie, c);
      var s' := RunFrom(s1, Round(6, ps[1..], rs[1..], cookie, c));
      assert p !in ps[1..];
      forall i | 0 <= i < |ps| ensures Poised(s', 7, ps[i], rs[i], u, cookie) {
        if i > 0 {
          assert ps[i] == ps[1..][i - 1] && rs[i] == rs[1..][i - 1];
        }
      }
    }
  }

  // ----- the whole batch -----

  /** Rounds stage to 5, in order: by then every request has counted and marked, none has committed. */
  function Rounds(stage: nat, ps: seq<Pid>, rs: seq<Uuid>, cookie: string, c: Choice): seq<Event>
    requires |ps| == |rs|
    decreases 6 - stage
  {
    if stage >= 6 then Round(6, ps, rs, cookie, c)
    else Round(stage, ps, rs, cookie, c) + Rounds(stage + 1, ps, rs, cookie, c)
  }

  lemma {:induction false} Batch(s: State, stage: nat, ps: seq<Pid>, rs: seq<Uuid>, u: Uuid, cookie: string, c: Choice)
    requires stage <= 6 && |ps| == |rs| && AllPoised(s, stage, ps, rs, u, cookie) && Ready(s, u, cookie, c)
    ensures LegalFrom(s, Rounds(stage, ps, rs, cookie, c))
    ensures var s' := RunFrom(s, Rounds(stage, ps, rs, cookie, c));
            && (forall i :: 0 <= i < |ps| ==> Poised(s', 7, ps[i], rs[i], u, cookie))
            && LiveOf(s'.data.rows, u) == LiveOf(s.data.rows, u) - Elements(rs)
    decreases 6 - stage
  {
    hide Step, Enabled, AllPoised, IsListing, Poised;
    if stage == 6 {
      CommitPhase(s, ps, rs, u, cookie, c);
    } else {
      var es := Round(stage, ps, rs, cookie, c);
      Phase(s, stage, ps, rs, u, cookie, c);
      Batch(RunFrom(s, es), stage + 1, ps, rs, u, cookie, c);
      Concat(s, es, Rounds(stage + 1, ps, rs, cookie, c));
    }
  }

  lemma {:induction false} DistinctSize(xs: seq<nat>)
    requires Distinct(xs)
    ensures |Elements(xs)| == |xs|
    ensures forall x :: x in Elements(xs) <==> x in xs
  {
    if xs != [] {
      DistinctSize(xs[1..]);
      assert xs[0] !in xs[1..];
      assert xs == [xs[0]] + xs[1..];
    }
  }

  /**
   * Take any legal run that leaves user u with a session and at least two live rows, and any new
   * delete requests for distinct, unlocked live rows of u. If they all count before the first
   * commits, every one of them answers 204: the guard stops none, and u is left without a live
   * credential exactly when the batch names all of u's live rows.
   */
  lemma OverlappingDeletes(cfg: Config, es: seq<Event>, ps: seq<Pid>, rs: seq<Uuid>, u: Uuid, cookie: string, c: Choice)
    requires Legal(cfg, es) && Ready(Run(cfg, es), u, cookie, c)
    requires |ps| == |rs| && Distinct(ps) && Distinct(rs)
    requires forall i :: 0 <= i < |ps| ==>
               ps[i] !in Run(cfg, es).procs && rs[i] in LiveOf(Run(cfg, es).data.rows, u)
                   && rs[i] !in Run(cfg, es).data.locks
    ensures var es' := es + Rounds(0, ps, rs, cookie, c);
            var rows, rows' := Run(cfg, es).data.rows, Run(cfg, es').data.rows;
            && Legal(cfg, es')
            && (forall i :: 0 <= i < |ps| ==> Poised(Run(cfg, es'), 7, ps[i], rs[i], u, cookie))
            && |LiveOf(rows', u)| == |LiveOf(rows, u)| - |rs|
            && (LiveOf(rows', u) == {} <==> |rs| == |LiveOf(rows, u)|)
  {
    hide Run, Legal, Ready, LiveOf, LegalFrom, RunFrom, Rounds;
    var s := Run(cfg, es);
    assert AllPoised(s, 0, ps, rs, u, cookie);
    hide AllPoised, Poised;
    Batch(s, 0, ps, rs, u, cookie, c);
    Continue(cfg, es, Rounds(0, ps, rs, cookie, c));
    DifferenceSize(LiveOf(s.data.rows, u), rs);
  }

  lemma DifferenceSize(live: set<Uuid>, rs: seq<Uuid>)
    requires Distinct(rs) && forall i :: 0 <= i < |rs| ==> rs[i] in live
    ensures |live - Elements(rs)| == |live| - |rs|
    ensures live - Elements(rs) == {} <==> |rs| == |live|
  {
    var gone := Elements(rs);
    DistinctSize(rs);
    assert gone - live == {} && live * gone == gone && live + gone == live;
  }
}

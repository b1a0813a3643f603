/**
 * Every request of every run is a run of its handler: the store states the others leave it, cut out of
 * the run, form a schedule the handler methods accept, and the answer on it is the one the run gives.
 */
module Refinement {
  import opened Domain
  import opened Service
  import opened History
  import opened Invariant
  import opened Soundness
  import opened Runs
  import opened Keyspace
  import opened Database
  import opened RedisStores
  import opened Environment
  import Calls
  import T = Tables

  // ----- indexes and keyspace for a state of the machine -----

  ghost function NamesOf(us: T.Users): map<string, Uuid>
    requires T.UniqueNames(us)
  {
    map u | u in us && !us[u].isGuest :: us[u].username := u
  }

  lemma NamesAreIndex(us: T.Users)
    requires T.UniqueNames(us)
    ensures NameIndex(NamesOf(us), us)
  {
    forall u | T.Registered(us, u) ensures us[u].username in NamesOf(us) && NamesOf(us)[us[u].username] == u {
    }
  }

  ghost function LiveIdsOf(rows: T.Rows): map<Bytes, Uuid>
    requires T.UniqueLiveIds(rows)
  {
    map r | r in rows && rows[r].deletedAt.None? :: rows[r].credentialId := r
  }

  lemma LiveIdsAreIndex(rows: T.Rows)
    requires T.UniqueLiveIds(rows)
    ensures LiveIndex(LiveIdsOf(rows), rows)
  {
    forall r | T.Live(rows, r) ensures rows[r].credentialId in LiveIdsOf(rows)
        && LiveIdsOf(rows)[rows[r].credentialId] == r {
    }
  }

  /** A store's map, put into the keyspace under its prefix. */
  ghost function Prefixed(prefix: string, m: map<string, Timed<Value>>): (ks: Keys)
    ensures forall t :: prefix + t in ks <==> t in m
    ensures forall t :: t in m ==> ks[prefix + t] == m[t]
    ensures forall k :: k in ks ==> prefix <= k
  {
    assert forall s, t :: prefix + s == prefix + t ==> s == t by {
      forall s, t | prefix + s == prefix + t ensures s == t { PrefixCancels(prefix, s, t); }
    }
    map t | t in m :: prefix + t := m[t]
  }

  ghost function AsValues(m: map<string, Timed<Uuid>>): map<string, Timed<Value>> {
    map t | t in m :: Timed(UserText(m[t].value), m[t].expires)
  }

  ghost function KeysOf(d: Data): Keys {
    Prefixed(SESSION_PREFIX, AsValues(d.sessions)) + Prefixed(GUEST_PREFIX, AsValues(d.guests)) +
    Prefixed(CHALLENGE_PREFIX, map t | t in d.challenges ::
        Timed(Ceremony(d.challenges[t].value), d.challenges[t].expires))
  }

  lemma KeysApart(d: Data, t: string)
    ensures SESSION_PREFIX + t in KeysOf(d) <==> t in d.sessions
    ensures t in d.sessions ==>
              KeysOf(d)[SESSION_PREFIX + t] == Timed(UserText(d.sessions[t].value), d.sessions[t].expires)
    ensures GUEST_PREFIX + t in KeysOf(d) <==> t in d.guests
    ensures t in d.guests ==> KeysOf(d)[GUEST_PREFIX + t] == Timed(UserText(d.guests[t].value), d.guests[t].expires)
    ensures CHALLENGE_PREFIX + t in KeysOf(d) <==> t in d.challenges
    ensures t in d.challenges ==>
              KeysOf(d)[CHALLENGE_PREFIX + t] == Timed(Ceremony(d.challenges[t].value), d.challenges[t].expires)
  {
    assert (SESSION_PREFIX + t)[0] == 's' && (GUEST_PREFIX + t)[0] == 'g' && (CHALLENGE_PREFIX + t)[0] == 'c';
    hide Prefixed;
  }

  lemma UsersSeen(ks: Keys, prefix: string, m: map<string, Timed<Uuid>>)
    requires forall t :: prefix + t in ks <==> t in m
    requires forall t :: t in m ==> ks[prefix + t] == Timed(UserText(m[t].value), m[t].expires)
    ensures HoldsUsers(ks, prefix) && UserIds(ks, prefix) == m
  {
  }

  lemma CeremoniesSeen(ks: Keys, m: map<string, Timed<Payload>>)
    requires forall t :: CHALLENGE_PREFIX + t in ks <==> t in m
    requires forall t :: t in m ==> ks[CHALLENGE_PREFIX + t] == Timed(Ceremony(m[t].value), m[t].expires)
    ensures HoldsCeremonies(ks) && Ceremonies(ks) == m
  {
  }

  lemma KeysAreSeen(d: Data)
    ensures Views(KeysOf(d), d)
  {
    hide KeysOf, HoldsUsers, HoldsCeremonies, UserIds, Ceremonies;
    var ks := KeysOf(d);
    forall t ensures SESSION_PREFIX + t in ks <==> t in d.sessions
             ensures t in d.sessions ==>
                       ks[SESSION_PREFIX + t] == Timed(UserText(d.sessions[t].value), d.sessions[t].expires) {
      KeysApart(d, t);
    }
    UsersSeen(ks, SESSION_PREFIX, d.sessions);
    forall t ensures GUEST_PREFIX + t in ks <==> t in d.guests
             ensures t in d.guests ==> ks[GUEST_PREFIX + t] == Timed(UserText(d.guests[t].value), d.guests[t].expires) {
      KeysApart(d, t);
    }
    UsersSeen(ks, GUEST_PREFIX, d.guests);
    forall t ensures CHALLENGE_PREFIX + t in ks <==> t in d.challenges
             ensures t in d.challenges ==>
                       ks[CHALLENGE_PREFIX + t] == Timed(Ceremony(d.challenges[t].value), d.challenges[t].expires) {
      KeysApart(d, t);
    }
    CeremoniesSeen(ks, d.challenges);
  }

  // ----- locks -----

  /** A lock belongs to a request inside a transaction on that very row. */
  ghost predicate LockInv(s: State) {
    forall r :: r in s.data.locks ==>
      var p := s.data.locks[r];
      p in s.procs && InTransaction(s.procs[p].pc) && s.procs[p].pc.row == r
  }

  lemma LocksFit(s: State, p: Pid)
    requires Inv(s) && LockInv(s) && p in s.procs
    ensures LocksMatch(s.data.locks, p, s.procs[p].pc)
  {
    hide StoreInv, Shape, At, Authority;
    assert ProcInv(s.data, s.log, p, s.procs[p]);
  }

  /** An operation other than a lock or a later statement of the transaction leaves the locks as they are. */
  lemma PlainLocks(d: Data, p: Pid, op: Op, c: Choice)
    requires !op.InTx?
    ensures Apply(d, p, op, c).0.locks == d.locks
  {
    hide ApplyUsers, ApplyRows;
    if op.OnKeys? { KeyOpsKeepTables(d, op.k, c); }
  }

  lemma PlanIsPlain(req: Request, pc: Pc, c: Choice)
    ensures Plan(req, pc, c).InTx? <==> pc.LockRow? || InTransaction(pc)
  {
  }

  lemma AdvanceKeepsLocks(s: State, p: Pid, c: Choice)
    requires Inv(s) && LockInv(s) && Enabled(s, Advance(p, c))
    ensures LockInv(Step(s, Advance(p, c)))
  {
    hide Inv, Exec, Plan, Resume, News, FreshString, FreshId;
    var pr := s.procs[p];
    var op := Plan(pr.req, pr.pc, c);
    LocksFit(s, p);
    PlanIsPlain(pr.req, pr.pc, c);
    if op.InTx? {
      InDelete(s, p);
      TransactionLocks(s.data, p, pr.req, pr.pc, c);
    } else {
      PlainLocks(s.data, p, op, c);
      PlainExec(s.data, p, op, c);
    }
  }

  /**
   * Afterwards the request holds its row if it is inside its transaction, and nothing otherwise; other
   * locks are old ones.
   */
  ghost predicate Keeps(locks: map<Uuid, Pid>, locks': map<Uuid, Pid>, p: Pid, pc': Pc) {
    forall r :: r in locks' ==>
      (locks'[r] == p && InTransaction(pc') && pc'.row == r) || (locks'[r] != p && HeldBy(locks, r, locks'[r]))
  }

  lemma LockLocks(d: Data, p: Pid, req: Request, uid: Uuid, row: Uuid, c: Choice)
    requires req.DeleteCredential? && LocksMatch(d.locks, p, LockRow(uid, row)) && row !in d.locks
    ensures var (d', a) := Exec(d, p, InTx(Lock(row)), c);
            Keeps(d.locks, d'.locks, p, Resume(req, LockRow(uid, row), a, c))
  {
    hide Exec, Resume, DeleteResponse;
    var owner := if row in d.rows then d.rows[row].userId else NIL_UUID;
    DeleteResumes(req, uid, row, owner, c);
    assert forall r :: r in d.locks ==> HeldBy(d.locks, r, d.locks[r]);
    LockExec(d, p, row, c);
  }

  lemma CountLocks(d: Data, p: Pid, req: Request, uid: Uuid, row: Uuid, owner: Uuid, c: Choice)
    requires req.DeleteCredential? && LocksMatch(d.locks, p, CountLive(uid, row, owner))
    ensures var (d', a) := Exec(d, p, InTx(Count(row, owner)), c);
            Keeps(d.locks, d'.locks, p, Resume(req, CountLive(uid, row, owner), a, c))
  {
    hide Exec, Resume, DeleteResponse;
    DeleteResumes(req, uid, row, owner, c);
    assert forall r :: r in d.locks ==> HeldBy(d.locks, r, d.locks[r]);
    CountExec(d, p, row, owner, c);
  }

  lemma MarkLocks(d: Data, p: Pid, req: Request, uid: Uuid, row: Uuid, owner: Uuid, c: Choice)
    requires req.DeleteCredential? && LocksMatch(d.locks, p, MarkRow(uid, row, owner))
    ensures var (d', a) := Exec(d, p, InTx(Mark(row)), c);
            Keeps(d.locks, d'.locks, p, Resume(req, MarkRow(uid, row, owner), a, c))
  {
    hide Exec, Resume, DeleteResponse;
    DeleteResumes(req, uid, row, owner, c);
    assert forall r :: r in d.locks ==> HeldBy(d.locks, r, d.locks[r]);
    MarkExec(d, p, row, c);
  }

  lemma CommitLocks(d: Data, p: Pid, req: Request, uid: Uuid, row: Uuid, owner: Uuid, c: Choice)
    requires req.DeleteCredential? && LocksMatch(d.locks, p, CommitRow(uid, row, owner))
    ensures var (d', a) := Exec(d, p, InTx(Commit(row)), c);
            Keeps(d.locks, d'.locks, p, Resume(req, CommitRow(uid, row, owner), a, c))
  {
    hide Exec, Resume, DeleteResponse;
    DeleteResumes(req, uid, row, owner, c);
    assert forall r :: r in d.locks ==> HeldBy(d.locks, r, d.locks[r]);
    CommitExec(d, p, row, c);
  }

  lemma TransactionLocks(d: Data, p: Pid, req: Request, pc: Pc, c: Choice)
    requires req.DeleteCredential? && (pc.LockRow? || InTransaction(pc))
    requires LocksMatch(d.locks, p, pc) && !Blocked(d, Plan(req, pc, c))
    ensures var (d', a) := Exec(d, p, Plan(req, pc, c), c);
            Keeps(d.locks, d'.locks, p, Resume(req, pc, a, c))
  {
    hide Exec, Resume, Plan, LocksMatch, Keeps;
    match pc {
      case LockRow(uid, row) =>
        DeletePlans(req, uid, row, uid, c);
        LockLocks(d, p, req, uid, row, c);
      case CountLive(uid, row, owner) =>
        DeletePlans(req, uid, row, owner, c);
        CountLocks(d, p, req, uid, row, owner, c);
      case MarkRow(uid, row, owner) =>
        DeletePlans(req, uid, row, owner, c);
        MarkLocks(d, p, req, uid, row, owner, c);
      case CommitRow(uid, row, owner) =>
        DeletePlans(req, uid, row, owner, c);
        CommitLocks(d, p, req, uid, row, owner, c);
    }
  }

  lemma InDelete(s: State, p: Pid)
    requires Inv(s) && p in s.procs && (s.procs[p].pc.LockRow? || InTransaction(s.procs[p].pc))
    ensures s.procs[p].req.DeleteCredential?
  {
    hide StoreInv, Shape, At, Authority;
    assert ProcInv(s.data, s.log, p, s.procs[p]);
  }

  lemma StepKeepsLocks(s: State, e: Event)
    requires Inv(s) && LockInv(s) && Enabled(s, e)
    ensures LockInv(Step(s, e))
  {
    hide Inv, Enabled;
    match e {
      case Arrive(p, req) => StartsOutside(req); assert p !in s.procs by { Arrivals(s, p, req); }
      case Advance(p, c) => AdvanceKeepsLocks(s, p, c);
      case Tick(_) =>
      case Provide(_, _) =>
      case Relabel(_, _) =>
    }
  }

  lemma Arrivals(s: State, p: Pid, req: Request)
    requires Enabled(s, Arrive(p, req))
    ensures p !in s.procs
  {
  }

  lemma StartsOutside(req: Request)
    ensures !InTransaction(Start(req))
  {
  }

  lemma {:induction false} LocksHold(cfg: Config, es: seq<Event>)
    requires Legal(cfg, es)
    ensures LockInv(Run(cfg, es)) && Run(cfg, es).data.cfg == cfg
  {
    hide Step, Enabled, LockInv, Inv;
    if es == [] {
      assert LockInv(Init(cfg)) by { InitUnlocked(cfg); }
    } else {
      var fs := es[..|es| - 1];
      LocksHold(cfg, fs);
      Sound(cfg, fs);
      StepKeepsLocks(Run(cfg, fs), es[|es| - 1]);
      StepKeepsConfig(Run(cfg, fs), es[|es| - 1]);
    }
  }

  lemma InitUnlocked(cfg: Config)
    ensures LockInv(Init(cfg))
  {
  }

  lemma StepKeepsConfig(s: State, e: Event)
    ensures Step(s, e).data.cfg == s.data.cfg
  {
    hide Plan, News, Resume;
    if e.Advance? && e.p in s.procs {
      ExecKeepsConfig(s.data, e.p, Plan(s.procs[e.p].req, s.procs[e.p].pc, e.c), e.c);
      hide Exec;
    }
  }

  lemma ApplyKeepsConfig(d: Data, p: Pid, op: Op, c: Choice)
    ensures Apply(d, p, op, c).0.cfg == d.cfg
  {
    match op {
      case Skip =>
      case OnUsers(_) => hide ApplyUsers;
      case OnRows(_) => hide ApplyRows;
      case InTx(t) =>
        TxKeepsConfig(d, p, t);
        hide ApplyTx;
      case OnKeys(k) =>
        KeysOnly(d, k, c);
        hide ApplyKeys;
    }
  }

  lemma TxKeepsConfig(d: Data, p: Pid, op: TxOp)
    ensures ApplyTx(d, p, op).0.cfg == d.cfg
  {
    hide T.Bury;
    match op {
      case Lock(_) =>
      case Count(_, _) =>
      case Mark(_) =>
      case Commit(_) =>
    }
  }

  lemma ExecKeepsConfig(d: Data, p: Pid, op: Op, c: Choice)
    ensures Exec(d, p, op, c).0.cfg == d.cfg
  {
    ApplyKeepsConfig(d, p, op, c);
    hide Apply;
  }

  // ----- a request's beats, cut out of a run -----

  ghost function BeatOf(d: Data, c: Choice): Beat {
    Beat(c, d,
         if T.UniqueNames(d.users) then NamesOf(d.users) else map[],
         if T.UniqueLiveIds(d.rows) then LiveIdsOf(d.rows) else map[],
         KeysOf(d))
  }

  lemma BeatIsConsistent(s: State, c: Choice)
    requires Inv(s)
    ensures Consistent(BeatOf(s.data, c))
  {
    hide ProcInv, NamesOf, LiveIdsOf, KeysOf, NameIndex, LiveIndex, Views;
    OrderlyInRuns(s);
    hide Calls.Orderly;
    NamesAreIndex(s.data.users);
    LiveIdsAreIndex(s.data.rows);
    KeysAreSeen(s.data);
  }

  /** The moments request p moves in the run, with the state it finds each time. */
  ghost function Beats(cfg: Config, es: seq<Event>, p: Pid): seq<Beat> {
    if es == [] then []
    else
      var fs, e := es[..|es| - 1], es[|es| - 1];
      if e.Advance? && e.p == p then Beats(cfg, fs, p) + [BeatOf(Run(cfg, fs).data, e.c)] else Beats(cfg, fs, p)
  }

  function Playing(bs: seq<Beat>, idle: Beat): nat -> Beat {
    (n: nat) => if n < |bs| then bs[n] else idle
  }

  /** A program point depends on the beats before it alone. */
  lemma {:induction false} SamePoint(p: Pid, req: Request, w: nat -> Beat, w': nat -> Beat, n: nat)
    requires forall i :: 0 <= i < n ==> w(i) == w'(i)
    ensures PcAfter(p, req, w, n) == PcAfter(p, req, w', n)
  {
    hide Start, Exec, Plan, Resume;
    if n > 0 {
      SamePoint(p, req, w, w', n - 1);
    }
  }

  /** The request follows its beats, each of which the machine allowed. */
  ghost predicate Follows(cfg: Config, s: State, p: Pid, bs: seq<Beat>, idle: Beat) {
    && p in s.procs
    && PcAfter(p, s.procs[p].req, Playing(bs, idle), |bs|) == s.procs[p].pc
    && forall i :: 0 <= i < |bs| ==>
         Fits(cfg, p, s.procs[p].req, bs[i], PcAfter(p, s.procs[p].req, Playing(bs, idle), i))
  }

  lemma BeatFits(cfg: Config, s: State, p: Pid, c: Choice)
    requires Inv(s) && LockInv(s) && s.data.cfg == cfg && Enabled(s, Advance(p, c))
    ensures p in s.procs && Fits(cfg, p, s.procs[p].req, BeatOf(s.data, c), s.procs[p].pc)
  {
    hide Inv, LockInv, Plan, LocksMatch, Consistent, FreshString, NamesOf, LiveIdsOf, KeysOf;
    BeatIsConsistent(s, c);
    LocksFit(s, p);
  }

  lemma NextPoint(p: Pid, req: Request, w: nat -> Beat, n: nat)
    ensures var pc, b := PcAfter(p, req, w, n), w(n);
            PcAfter(p, req, w, n + 1) == Resume(req, pc, Exec(b.d, p, Plan(req, pc, b.c), b.c).1, b.c)
  {
    hide Start, Exec, Plan, Resume;
  }

  lemma AdvanceFollows(cfg: Config, s: State, p: Pid, c: Choice, bs: seq<Beat>, idle: Beat)
    requires Follows(cfg, s, p, bs, idle) && Fits(cfg, p, s.procs[p].req, BeatOf(s.data, c), s.procs[p].pc)
    ensures Follows(cfg, Step(s, Advance(p, c)), p, bs + [BeatOf(s.data, c)], idle)
  {
    hide Step, PcAfter, Exec, Plan, Resume, Fits, BeatOf, Start;
    BeatHolds(s.data, c);
    var b := BeatOf(s.data, c);
    var req, n := s.procs[p].req, |bs|;
    var w, w' := Playing(bs, idle), Playing(bs + [b], idle);
    SteppedTo(s, p, c);
    forall i: nat | i <= n ensures PcAfter(p, req, w, i) == PcAfter(p, req, w', i) {
      SamePoint(p, req, w, w', i);
    }
    NextPoint(p, req, w', n);
    assert w'(n) == b && w'(n).c == c && w'(n).d == s.data;
  }

  lemma BeatHolds(d: Data, c: Choice)
    ensures BeatOf(d, c).c == c && BeatOf(d, c).d == d
  {
  }

  // ----- over whole runs -----

  lemma {:induction false} NoBeatsBefore(cfg: Config, es: seq<Event>, p: Pid)
    requires Legal(cfg, es) && p !in Run(cfg, es).procs
    ensures Beats(cfg, es, p) == []
  {
    hide Exec, Plan, Resume, News, BeatOf;
    if es != [] {
      NoBeatsBefore(cfg, es[..|es| - 1], p);
    }
  }

  lemma {:induction false} RequestFollows(cfg: Config, es: seq<Event>, p: Pid, idle: Beat)
    requires Legal(cfg, es) && p in Run(cfg, es).procs
    ensures Follows(cfg, Run(cfg, es), p, Beats(cfg, es, p), idle)
  {
    hide Step, Enabled, Follows, BeatOf, Inv, LockInv;
    assert es != [] by { InitIsEmpty(cfg); }
    var fs, e := es[..|es| - 1], es[|es| - 1];
    var s := Run(cfg, fs);
    if p !in s.procs {
      NoBeatsBefore(cfg, fs, p);
      ArrivalFollows(cfg, s, e, p, idle);
    } else {
      RequestFollows(cfg, fs, p, idle);
      if e.Advance? && e.p == p {
        Sound(cfg, fs);
        LocksHold(cfg, fs);
        BeatFits(cfg, s, p, e.c);
        AdvanceFollows(cfg, s, p, e.c, Beats(cfg, fs, p), idle);
      } else {
        StandsStill(s, e, p);
        FollowsStill(cfg, s, Step(s, e), p, Beats(cfg, fs, p), idle);
      }
    }
  }

  lemma InitIsEmpty(cfg: Config)
    ensures Run(cfg, []).procs == map[]
  {
  }

  lemma ArrivalFollows(cfg: Config, s: State, e: Event, p: Pid, idle: Beat)
    requires p !in s.procs && Enabled(s, e) && p in Step(s, e).procs
    ensures !(e.Advance? && e.p == p) && Follows(cfg, Step(s, e), p, [], idle)
  {
    hide Exec, Plan, Resume, News, Start, Fits;
  }

  lemma FollowsStill(cfg: Config, s: State, s': State, p: Pid, bs: seq<Beat>, idle: Beat)
    requires Follows(cfg, s, p, bs, idle) && p in s'.procs && s'.procs[p] == s.procs[p]
    ensures Follows(cfg, s', p, bs, idle)
  {
    hide PcAfter, Fits;
  }

  /** Beat i was the moment k of the run. */
  lemma {:induction false} MomentOf(cfg: Config, es: seq<Event>, p: Pid, i: nat) returns (k: nat)
    requires i < |Beats(cfg, es, p)|
    ensures k < |es| && Beats(cfg, es[..k], p) == Beats(cfg, es, p)[..i]
    ensures es[k] == Advance(p, Beats(cfg, es, p)[i].c)
              && Beats(cfg, es, p)[i] == BeatOf(Run(cfg, es[..k]).data, Beats(cfg, es, p)[i].c)
  {
    hide Run, BeatOf;
    var fs, e := es[..|es| - 1], es[|es| - 1];
    BeatHolds(Run(cfg, fs).data, if e.Advance? then e.c else IDLE);
    if i < |Beats(cfg, fs, p)| {
      k := MomentOf(cfg, fs, p, i);
      assert fs[..k] == es[..k] && fs[k] == es[k];
    } else {
      k := |es| - 1;
    }
  }

  const IDLE := Choice(NoFault, NIL_UUID, "", [], false, ParseFails, [])

  /**
   * At event k the request makes its i-th call, in the state w(i) names, and leaves what the schedule
   * says it leaves.
   */
  ghost predicate Moment(cfg: Config, es: seq<Event>, p: Pid, req: Request, w: nat -> Beat, i: nat, k: nat) {
    && k < |es| && es[k] == Advance(p, w(i).c)
    && w(i).d == Run(cfg, es[..k]).data
    && LeftBy(w(i).d, p, req, w, i + 1) == Contents(Run(cfg, es[..k + 1]).data)
  }

  ghost predicate HappensIn(cfg: Config, es: seq<Event>, p: Pid, req: Request, w: nat -> Beat, i: nat) {
    exists k: nat :: Moment(cfg, es, p, req, w, i, k)
  }

  lemma MomentLeaves(cfg: Config, es: seq<Event>, p: Pid, req: Request, w: nat -> Beat, i: nat, k: nat)
    requires k < |es| && es[k] == Advance(p, w(i).c) && w(i).d == Run(cfg, es[..k]).data
    requires p in Run(cfg, es[..k]).procs && Run(cfg, es[..k]).procs[p].req == req
    requires PcAfter(p, req, w, i) == Run(cfg, es[..k]).procs[p].pc
    ensures Moment(cfg, es, p, req, w, i, k)
  {
    hide Exec, Plan, Resume, PcAfter, Step;
    assert es[..k + 1][..k] == es[..k];
    SteppedTo(Run(cfg, es[..k]), p, w(i).c);
  }

  lemma AnsweredStays(req: Request, r: Response, a: Answer, c: Choice)
    ensures Resume(req, Answered(r), a, c) == Answered(r)
  {
  }

  /** An answer, once reached, is the answer at every later point of the schedule. */
  lemma {:induction false} AnswerIsFinal(p: Pid, req: Request, w: nat -> Beat, n: nat, m: nat, r: Response)
    requires PcAfter(p, req, w, n) == Answered(r) && n <= m
    ensures PcAfter(p, req, w, m) == Answered(r)
    decreases m - n
  {
    hide Exec, Plan, Resume, PcAfter;
    if n < m {
      NextPoint(p, req, w, n);
      AnsweredStays(req, r, Exec(w(n).d, p, Plan(req, Answered(r), w(n).c), w(n).c).1, w(n).c);
      AnswerIsFinal(p, req, w, n + 1, m, r);
    }
  }

  /** A schedule determines the answer: a handler method run on it can give no other. */
  lemma AnswerIsUnique(p: Pid, req: Request, w: nat -> Beat, n: nat, m: nat, r: Response, r': Response)
    requires PcAfter(p, req, w, n) == Answered(r) && PcAfter(p, req, w, m) == Answered(r')
    ensures r == r'
  {
    hide PcAfter;
    if n <= m {
      AnswerIsFinal(p, req, w, n, m, r);
    } else {
      AnswerIsFinal(p, req, w, m, n, r');
    }
  }

  /** Fitting beats up to the answer, and any consistent ones after it, make a schedule. */
  lemma SchedulesToTheEnd(cfg: Config, s: State, p: Pid, bs: seq<Beat>, idle: Beat)
    requires Follows(cfg, s, p, bs, idle) && s.procs[p].pc.Answered? && Consistent(idle) && idle.d.cfg == cfg
    ensures Scheduled(cfg, p, s.procs[p].req, Playing(bs, idle))
  {
    hide PcAfter, CanStep, Consistent;
    var req, w := s.procs[p].req, Playing(bs, idle);
    forall n: nat ensures Fits(cfg, p, req, w(n), PcAfter(p, req, w, n)) {
      if n >= |bs| {
        AnswerIsFinal(p, req, w, |bs|, n, s.procs[p].pc.r);
      }
    }
  }

  /** The states and choices of p's steps in the run, in order. */
  ghost function ScheduleOf(cfg: Config, es: seq<Event>, p: Pid): nat -> Beat {
    Playing(Beats(cfg, es, p), BeatOf(Run(cfg, es).data, IDLE))
  }

  /**
   * For every request answered in any legal run there is a schedule, made of the very states and
   * choices of its steps in that run, on which it reaches exactly that answer; every call finds the
   * state the run had and leaves the state the run went on with. The handler methods accept the
   * schedule, so run on it they give that answer.
   */
  lemma RunsAreHandlerRuns(cfg: Config, es: seq<Event>, p: Pid) returns (w: nat -> Beat, n: nat)
    requires Legal(cfg, es) && p in Run(cfg, es).procs && Run(cfg, es).procs[p].pc.Answered?
    ensures Scheduled(cfg, p, Run(cfg, es).procs[p].req, w)
    ensures PcAfter(p, Run(cfg, es).procs[p].req, w, n) == Run(cfg, es).procs[p].pc
    ensures forall i :: 0 <= i < n ==> HappensIn(cfg, es, p, Run(cfg, es).procs[p].req, w, i)
    ensures w == ScheduleOf(cfg, es, p) && n == |Beats(cfg, es, p)|
  {
    hide Run, Legal, Beats, Follows, Scheduled, PcAfter, Moment, Inv, LockInv, Consistent, BeatOf;
    var s := Run(cfg, es);
    var bs, idle := Beats(cfg, es, p), BeatOf(s.data, IDLE);
    Sound(cfg, es);
    LocksHold(cfg, es);
    BeatIsConsistent(s, IDLE);
    BeatHolds(s.data, IDLE);
    RequestFollows(cfg, es, p, idle);
    FollowsTo(cfg, s, p, bs, idle);
    SchedulesToTheEnd(cfg, s, p, bs, idle);
    w, n := ScheduleOf(cfg, es, p), |bs|;
    forall i | 0 <= i < n ensures HappensIn(cfg, es, p, s.procs[p].req, w, i) {
      var k := MomentOf(cfg, es, p, i);
      MomentFits(cfg, es, p, i, k, idle);
      assert Moment(cfg, es, p, s.procs[p].req, w, i, k);
    }
  }

  lemma FollowsTo(cfg: Config, s: State, p: Pid, bs: seq<Beat>, idle: Beat)
    requires Follows(cfg, s, p, bs, idle)
    ensures PcAfter(p, s.procs[p].req, Playing(bs, idle), |bs|) == s.procs[p].pc
  {
  }

  lemma MomentFits(cfg: Config, es: seq<Event>, p: Pid, i: nat, k: nat, idle: Beat)
    requires Legal(cfg, es) && p in Run(cfg, es).procs && k < |es| && i < |Beats(cfg, es, p)|
    requires Beats(cfg, es[..k], p) == Beats(cfg, es, p)[..i] && es[k] == Advance(p, Beats(cfg, es, p)[i].c)
    requires Beats(cfg, es, p)[i] == BeatOf(Run(cfg, es[..k]).data, Beats(cfg, es, p)[i].c)
    ensures Moment(cfg, es, p, Run(cfg, es).procs[p].req, Playing(Beats(cfg, es, p), idle), i, k)
  {
    hide Run, Legal, Beats, Follows, PcAfter, Moment, BeatOf, LeftBy;
    var bs := Beats(cfg, es, p);
    BeatHolds(Run(cfg, es[..k]).data, bs[i].c);
    LegalPrefix(cfg, es, k);
    AdvancedWasThere(cfg, es, k);
    RequestKept(cfg, es, p, k);
    RequestFollows(cfg, es[..k], p, idle);
    FollowsTo(cfg, Run(cfg, es[..k]), p, bs[..i], idle);
    var req := Run(cfg, es).procs[p].req;
    SamePoint(p, req, Playing(bs, idle), Playing(bs[..i], idle), i);
    MomentLeaves(cfg, es, p, req, Playing(bs, idle), i, k);
  }
}

/** What the handlers promise, read off the table of outcomes for every legal run. */
module Promises {
  import opened Domain
  import opened Tables
  import opened Service
  import opened History
  import opened Invariant
  import opened Soundness
  import opened Contexts
  import opened Runs
  import opened Accounts
  import opened Calls
  import opened Outcomes
  import opened RunOutcomes
  import L = Liveness

  // ----- requests still in flight -----

  lemma {:induction false} MomentsGrow(es: seq<Event>, fs: seq<Event>, p: Pid)
    ensures MomentsOf(es, p) <= MomentsOf(es + fs, p)
  {
    if fs == [] {
      assert es + fs == es;
    } else {
      assert (es + fs)[..|es + fs| - 1] == es + fs[..|fs| - 1];
      MomentsGrow(es, fs[..|fs| - 1], p);
    }
  }

  /** An earlier part of a run shows the same calls. */
  lemma SameCall(cfg: Config, es: seq<Event>, fs: seq<Event>, k: nat)
    requires k < |es| && es[k].Advance?
    ensures CallAt(cfg, es + fs, k) == CallAt(cfg, es, k)
  {
    hide Run;
    assert (es + fs)[..k] == es[..k] && (es + fs)[..k + 1] == es[..k + 1];
  }

  /**
   * What the table says of a request in flight: it says it of the request's calls so far and some more,
   * because the request can be answered.
   */
  lemma InFlightAnswers(cfg: Config, es: seq<Event>, p: Pid) returns (fs: seq<Event>, r: Response)
    requires Legal(cfg, es) && p in Run(cfg, es).procs
    ensures Legal(cfg, es + fs) && MomentsOf(es, p) <= MomentsOf(es + fs, p)
    ensures Answers(Run(cfg, es).procs[p].req, CallsOf(cfg, es + fs, p), r)
  {
    hide Run, Legal, Answers, MomentsOf;
    fs := L.EveryRequestCanBeAnswered(cfg, es);
    RunsAnswer(cfg, es + fs, p);
    MomentsGrow(es, fs, p);
    assert (es + fs)[..|es|] == es;
    RequestKept(cfg, es + fs, p, |es|);
    r := Run(cfg, es + fs).procs[p].pc.r;
  }

  // ----- register/begin and promote/begin -----

  /**
   * The availability answer of register/begin: 409 exactly if the lookup, at the first moment, met no fault
   * and a registered user had the name in the state it found. A 200 means nobody had it there, and that
   * payload is saved which carries the names asked for and the random handle, under the session id answered;
   * and a free name, a mint and no fault make a 200.
   */
  lemma NameAvailability(cfg: Config, es: seq<Event>, p: Pid)
    requires Legal(cfg, es) && p in Run(cfg, es).procs && Run(cfg, es).procs[p].pc.Answered?
    requires Run(cfg, es).procs[p].req.BeginRegister?
    ensures var req, r, ks := Run(cfg, es).procs[p].req, Run(cfg, es).procs[p].pc.r, MomentsOf(es, p);
            if req.username == "" || req.displayName == "" then ks == [] && r == Denied(400, MissingFields)
            else
              && |ks| >= 1
              && var free := !NameTaken(Found(cfg, es, ks[0]).users, req.username);
              && (r == Denied(409, NameConflict) <==> es[ks[0]].c.fault.NoFault? && !free)
              && (r.status == 200 ==>
                    && free && |ks| == 2
                    && SavedAt(cfg, es, ks[1], r, RegisterOffer(req, es[ks[1]].c.handle)))
              && (es[ks[0]].c.fault.NoFault? && free ==>
                    |ks| == 2 && (es[ks[1]].c.mint && es[ks[1]].c.fault.NoFault? ==> r.status == 200))
  {
    hide Run, Legal, MomentsOf, NameTaken;
    RunsAnswer(cfg, es, p);
    MomentsAreIn(es, p);
  }

  /** Event k put the payload under the session id of the answer, to live for the configured time. */
  ghost predicate SavedAt(cfg: Config, es: seq<Event>, k: nat, r: Response, payload: Payload)
    requires k < |es|
  {
    && r.body.SessionId? && r == Success(SessionId(r.body.sid))
    && var d, d' := Found(cfg, es, k), Found(cfg, es, k + 1);
    d' == d.(challenges := d.challenges[r.body.sid := Timed(payload, d.now + d.cfg.challengeTtl)], locks := d'.locks)
  }

  lemma MomentsAreIn(es: seq<Event>, p: Pid)
    ensures forall i :: 0 <= i < |MomentsOf(es, p)| ==> MomentsOf(es, p)[i] < |es|
  {
  }

  /**
   * promote/begin: the guest is whoever the cookie resolves to at the first moment. 409 means that user was
   * registered when loaded, 200 that it was a guest, and the payload saved names it, the names asked for and
   * the random handle.
   */
  lemma PromotionOffer(cfg: Config, es: seq<Event>, p: Pid)
    requires Legal(cfg, es) && p in Run(cfg, es).procs && Run(cfg, es).procs[p].pc.Answered?
    requires Run(cfg, es).procs[p].req.BeginPromote?
    requires Run(cfg, es).procs[p].pc.r.status == 200 || Run(cfg, es).procs[p].pc.r.status == 409
    ensures var req, r, ks := Run(cfg, es).procs[p].req, Run(cfg, es).procs[p].pc.r, MomentsOf(es, p);
            && |ks| >= 2 && Current(Found(cfg, es, ks[0]).guests, req.cookie, Found(cfg, es, ks[0]).now)
            && var u := Found(cfg, es, ks[0]).guests[req.cookie].value;
            && u in Found(cfg, es, ks[1]).users
            && (r.status == 409 ==> !Found(cfg, es, ks[1]).users[u].isGuest && |ks| == 2)
            && (r.status == 200 ==>
                  && Found(cfg, es, ks[1]).users[u].isGuest && |ks| == 3
                  && SavedAt(cfg, es, ks[2], r, PromoteOffer(req, es[ks[2]].c.handle, u)))
  {
    hide Run, Legal, MomentsOf;
    RunsAnswer(cfg, es, p);
    MomentsAreIn(es, p);
  }

  // ----- logout -----

  ghost predicate Issued(log: seq<Fact>, t: string) {
    exists u :: MintedFor(log, t, u)
  }

  lemma SessionAppears(s: State, e: Event, t: string)
    requires Inv(s) && Enabled(s, e) && t !in s.data.sessions && t in Step(s, e).data.sessions
    ensures !Issued(s.log, t)
  {
    hide Inv, News, Resume, Plan, ApplyUsers, ApplyRows, ApplyTx;
    if e.Advance? {
      var op := Plan(s.procs[e.p].req, s.procs[e.p].pc, e.c);
      SessionsOfOp(s.data, e.p, op, e.c);
    }
  }

  lemma SessionsOfOp(d: Data, p: Pid, op: Op, c: Choice)
    ensures var d' := Exec(d, p, op, c).0; forall t :: t in d'.sessions && t !in d.sessions ==> t == c.token
  {
    ExecParts(d, p, op, c);
    if op.InTx? { TxSessions(d, p, op.t); }
    if op.OnKeys? { KeySessions(d, op.k, c); }
    hide Exec, ApplyUsers, ApplyRows, ApplyTx, ApplyKeys;
  }

  lemma KeySessions(d: Data, op: KeyOp, c: Choice)
    ensures var d' := ApplyKeys(d, op, c).0; forall t :: t in d'.sessions && t !in d.sessions ==> t == c.token
  {
  }

  lemma TxSessions(d: Data, p: Pid, t: TxOp)
    ensures ApplyTx(d, p, t).0.sessions == d.sessions
  {
    hide Bury, LiveOf;
  }

  /** A token that is out of the store and had been issued by then never comes back. */
  lemma {:induction false} StaysRevoked(cfg: Config, es: seq<Event>, k: nat, t: string)
    requires Legal(cfg, es) && k <= |es|
    requires t !in Found(cfg, es, k).sessions && Issued(Run(cfg, es[..k]).log, t)
    ensures t !in Run(cfg, es).data.sessions
  {
    hide Step, Enabled, Inv, Issued;
    if k < |es| {
      var fs := es[..|es| - 1];
      assert fs[..k] == es[..k];
      StaysRevoked(cfg, fs, k, t);
      Sound(cfg, fs);
      RunEvolves(cfg, fs, k);
      StaysIssued(Run(cfg, es[..k]).log, Run(cfg, fs).log, t);
      if t in Run(cfg, es).data.sessions {
        SessionAppears(Run(cfg, fs), es[|es| - 1], t);
        assert false;
      }
    } else {
      assert es[..k] == es;
    }
  }

  lemma StaysIssued(log: seq<Fact>, log': seq<Fact>, t: string)
    requires log <= log' && Issued(log, t)
    ensures Issued(log', t)
  {
    var u :| MintedFor(log, t, u);
    MintedStays(log, log', t, u);
  }

  /**
   * Logout is always answered 204. With a cookie it makes one call; unless that call was lost the token is
   * out of the sessions after it and nothing else has changed, and if the token had been issued it is never
   * in them again.
   */
  lemma LogoutRevokes(cfg: Config, es: seq<Event>, p: Pid)
    requires Legal(cfg, es) && p in Run(cfg, es).procs && Run(cfg, es).procs[p].pc.Answered?
    requires Run(cfg, es).procs[p].req.Logout?
    ensures var cookie, ks := Run(cfg, es).procs[p].req.cookie, MomentsOf(es, p);
            && Run(cfg, es).procs[p].pc.r == Response(204, Fine, None, None, NoBody)
            && (cookie == "" ==> ks == [])
            && (cookie != "" ==> |ks| == 1 && (!es[ks[0]].c.fault.Lost? ==> RevokedAt(cfg, es, ks[0], cookie)))
  {
    hide Run, Legal, MomentsOf, Issued;
    RunsAnswer(cfg, es, p);
    MomentsAreIn(es, p);
    var cookie, ks := Run(cfg, es).procs[p].req.cookie, MomentsOf(es, p);
    if cookie != "" && !es[ks[0]].c.fault.Lost? && Issued(Run(cfg, es[..ks[0]]).log, cookie) {
      NeverAgain(cfg, es, ks[0], cookie);
    }
  }

  ghost predicate RevokedAt(cfg: Config, es: seq<Event>, k: nat, t: string)
    requires k < |es|
  {
    var d, d' := Found(cfg, es, k), Found(cfg, es, k + 1);
    && d' == d.(sessions := d.sessions - {t}, locks := d'.locks)
    && (Issued(Run(cfg, es[..k]).log, t) ==> forall m :: k < m <= |es| ==> t !in Found(cfg, es, m).sessions)
  }

  lemma NeverAgain(cfg: Config, es: seq<Event>, k: nat, t: string)
    requires Legal(cfg, es) && k < |es| && t !in Found(cfg, es, k + 1).sessions && Issued(Run(cfg, es[..k]).log, t)
    ensures forall m :: k < m <= |es| ==> t !in Found(cfg, es, m).sessions
  {
    hide Run, Legal, Issued, UsersEvolve, RowsEvolve;
    LegalPrefix(cfg, es, k + 1);
    assert es[..k + 1][..k] == es[..k];
    RunEvolves(cfg, es[..k + 1], k);
    StaysIssued(Run(cfg, es[..k]).log, Run(cfg, es[..k + 1]).log, t);
    forall m | k < m <= |es| ensures t !in Found(cfg, es, m).sessions {
      LegalPrefix(cfg, es, m);
      assert es[..m][..k + 1] == es[..k + 1];
      StaysRevoked(cfg, es[..m], k + 1, t);
    }
  }

  /**
   * Whoever comes to the session gate with a token after its logout took effect is turned away: 401, or 500
   * if the gate's call met a fault.
   */
  lemma LoggedOutIsBarred(cfg: Config, es: seq<Event>, p: Pid, q: Pid)
    requires Legal(cfg, es) && p in Run(cfg, es).procs && Run(cfg, es).procs[p].pc.Answered?
    requires Run(cfg, es).procs[p].req.Logout? && Run(cfg, es).procs[p].req.cookie != ""
    requires var k := MomentsOf(es, p);
             && |k| == 1 && !es[k[0]].c.fault.Lost?
             && Issued(Run(cfg, es[..k[0]]).log, Run(cfg, es).procs[p].req.cookie)
    requires q in Run(cfg, es).procs && Run(cfg, es).procs[q].pc.Answered?
    requires var req := Run(cfg, es).procs[q].req;
             && (req.Me? || req.ListCredentials? || req.DeleteCredential?)
             && req.cookie == Run(cfg, es).procs[p].req.cookie
    requires |MomentsOf(es, q)| > 0 && MomentsOf(es, q)[0] > MomentsOf(es, p)[0]
    ensures |MomentsOf(es, q)| == 1
    ensures Run(cfg, es).procs[q].pc.r
              == if es[MomentsOf(es, q)[0]].c.fault.NoFault? then Denied(401, Unauthorized)
                 else Denied(500, InternalError)
  {
    hide Run, Legal, MomentsOf, Issued;
    hide ProfileAnswered, ListingAnswered, RemovalAnswered;
    LogoutRevokes(cfg, es, p);
    RunsAnswer(cfg, es, q);
    MomentsAreIn(es, q);
    assert RevokedAt(cfg, es, MomentsOf(es, p)[0], Run(cfg, es).procs[p].req.cookie);
    assert CallsOf(cfg, es, q)[0].before == Found(cfg, es, MomentsOf(es, q)[0]);
  }

  // ----- guest -----

  /** The cookie led to a guest row: both reads met no fault, and the second found u still a guest. */
  ghost predicate GuestKnown(cfg: Config, es: seq<Event>, p: Pid, cookie: string, u: Uuid) {
    var ks := MomentsOf(es, p);
    && cookie != "" && |ks| >= 2 && es[ks[0]].c.fault.NoFault? && es[ks[1]].c.fault.NoFault?
    && Current(Found(cfg, es, ks[0]).guests, cookie, Found(cfg, es, ks[0]).now)
    && Found(cfg, es, ks[0]).guests[cookie].value == u
    && GuestThere(Found(cfg, es, ks[1]), u)
  }

  /**
   * A guest cookie that leads to a guest row is answered with that user, sets no cookie and leaves nothing on
   * record. In every other case a 200 comes with a user born by this request and a token minted for it.
   */
  lemma GuestReused(cfg: Config, es: seq<Event>, p: Pid, u: Uuid)
    requires Legal(cfg, es) && p in Run(cfg, es).procs && Run(cfg, es).procs[p].pc.Answered?
    requires Run(cfg, es).procs[p].req.Guest?
    ensures var s := Run(cfg, es);
            var req, r := s.procs[p].req, s.procs[p].pc.r;
            && (GuestKnown(cfg, es, p, req.cookie, u) ==>
                  r == Success(Account(u)) && |MomentsOf(es, p)| == 2 && Trace(s.log, p) == [])
            && (r.status == 200 && (forall v :: !GuestKnown(cfg, es, p, req.cookie, v)) ==>
                  exists v, token :: NewGuestFor(s, p, r, v, token))
  {
    hide Run, Legal, MomentsOf, Shape, At, StoreInv, Authority, Trace;
    Sound(cfg, es);
    var s := Run(cfg, es);
    var req, r := s.procs[p].req, s.procs[p].pc.r;
    RunsAnswer(cfg, es, p);
    MomentsAreIn(es, p);
    ShapeOf(s, p);
    GuestPosition(req, s.procs[p].pc, Trace(s.log, p), s.procs[p].torn);
    if r.status == 200 && forall v :: !GuestKnown(cfg, es, p, req.cookie, v) {
      FreshGuest(cfg, es, p);
      TraceFacts(s.log, p, 0);
      TraceFacts(s.log, p, 1);
      var tr := Trace(s.log, p);
      assert NewGuestFor(s, p, r, tr[0].uid, tr[1].token);
    }
  }

  ghost predicate NewGuestFor(s: State, p: Pid, r: Response, u: Uuid, token: string) {
    && r == Response(200, Fine, None, Some(token), Account(u))
    && GuestMinted(p, token, u) in s.log
    && exists name :: Born(p, u, true, name) in s.log
  }

  lemma GuestPosition(req: Request, pc: Pc, tr: seq<Fact>, torn: bool)
    requires req.Guest? && Shape(req, tr) && At(req, pc, tr, torn) && pc.Answered?
    ensures pc.r.guestCookie.None? && pc.r.status == 200 ==> tr == []
    ensures pc.r.guestCookie.Some? ==>
              && |tr| == 2 && tr[0].Born? && tr[0].guest && tr[1].GuestMinted? && tr[1].uid == tr[0].uid
              && pc.r.guestCookie == Some(tr[1].token) && pc.r.body == Account(tr[0].uid)
  {
  }

  lemma FreshGuest(cfg: Config, es: seq<Event>, p: Pid)
    requires Legal(cfg, es) && p in Run(cfg, es).procs && Run(cfg, es).procs[p].pc.Answered?
    requires Run(cfg, es).procs[p].req.Guest? && Run(cfg, es).procs[p].pc.r.status == 200
    requires forall v :: !GuestKnown(cfg, es, p, Run(cfg, es).procs[p].req.cookie, v)
    ensures var r := Run(cfg, es).procs[p].pc.r;
            r.guestCookie.Some? && r.body.Account? && r == Response(200, Fine, None, r.guestCookie, r.body)
  {
    hide Run, Legal, MomentsOf;
    RunsAnswer(cfg, es, p);
    MomentsAreIn(es, p);
    var calls, ks, req := CallsOf(cfg, es, p), MomentsOf(es, p), Run(cfg, es).procs[p].req;
    if req.cookie != "" && !GuestMissed(calls[0], req.cookie) {
      var u :| GuestFound(calls[0], req.cookie, u) && KnownGuestAnswered(calls, u, Run(cfg, es).procs[p].pc.r);
      assert !GuestKnown(cfg, es, p, req.cookie, u);
    }
  }

  // ----- /users/me -----

  lemma SessionRegistered(s: State, t: string, u: Uuid)
    requires Inv(s) && MintedFor(s.log, t, u)
    ensures Registered(s.data.users, u)
  {
    hide ProcInv, UsersInv;
    SessionUser(s.data, s.log, t, u);
  }

  lemma LoadingIsMe(s: State, p: Pid)
    requires Inv(s) && p in s.procs && s.procs[p].pc.LoadProfile?
    ensures s.procs[p].req.Me? && MintedFor(s.log, s.procs[p].req.cookie, s.procs[p].pc.uid)
  {
    hide StoreInv, Shape, At, Authority, Trace, MintedFor;
    assert ProcInv(s.data, s.log, p, s.procs[p]);
  }

  /** Whoever the gate admits is, then and later, a registered user the cookie was minted for. */
  lemma AdmittedIsRegistered(cfg: Config, es: seq<Event>, j: nat, k: nat, cookie: string, u: Uuid)
    requires Legal(cfg, es) && j <= k <= |es|
    requires cookie in Found(cfg, es, j).sessions && Found(cfg, es, j).sessions[cookie].value == u
    ensures MintedFor(Run(cfg, es[..k]).log, cookie, u) && Registered(Found(cfg, es, k).users, u)
  {
    hide Run, Legal, MintedFor, ProcInv, UsersInv, RowsInv, UsersEvolve, RowsEvolve;
    LegalPrefix(cfg, es, j);
    LegalPrefix(cfg, es, k);
    Sound(cfg, es[..j]);
    Sound(cfg, es[..k]);
    assert es[..k][..j] == es[..j];
    RunEvolves(cfg, es[..k], j);
    MintedStays(Run(cfg, es[..j]).log, Run(cfg, es[..k]).log, cookie, u);
    SessionRegistered(Run(cfg, es[..k]), cookie, u);
  }

  /** At event k request p, whose cookie was minted for u, read exactly u's live rows, oldest first: its answer. */
  ghost predicate ListedAt(cfg: Config, es: seq<Event>, k: nat, p: Pid, u: Uuid) {
    && k < |es| && es[k].Advance? && es[k].p == p && p in Run(cfg, es).procs
    && var pr := Run(cfg, es).procs[p];
    && pr.req.ListCredentials? && MintedFor(Run(cfg, es[..k]).log, pr.req.cookie, u)
    && pr.pc.Answered? && pr.pc.r.body.Passkeys? && IsListing(pr.pc.r.body.list, Found(cfg, es, k).rows, u)
  }

  /** At event k request p, whose cookie was minted for u, read u's row, a registered user's: its answer. */
  ghost predicate ReportedAt(cfg: Config, es: seq<Event>, k: nat, p: Pid, u: Uuid) {
    && k < |es| && es[k].Advance? && es[k].p == p && p in Run(cfg, es).procs
    && var pr := Run(cfg, es).procs[p];
    && pr.req.Me? && MintedFor(Run(cfg, es[..k]).log, pr.req.cookie, u)
    && Registered(Found(cfg, es, k).users, u)
    && pr.pc.Answered? && pr.pc.r.body == Profile(Found(cfg, es, k).users[u])
  }

  /** GET /users/me answers the row a registered user has at one moment, never a guest's. */
  lemma ProfileIsRow(cfg: Config, es: seq<Event>, p: Pid)
    requires Legal(cfg, es) && p in Run(cfg, es).procs && Run(cfg, es).procs[p].req.Me?
    requires Run(cfg, es).procs[p].pc.Answered? && Run(cfg, es).procs[p].pc.r.status == 200
    ensures exists k, u :: ReportedAt(cfg, es, k, p, u)
  {
    hide Run, Legal, MomentsOf, MintedFor, Registered;
    RunsAnswer(cfg, es, p);
    MomentsAreIn(es, p);
    var calls, ks, cookie := CallsOf(cfg, es, p), MomentsOf(es, p), Run(cfg, es).procs[p].req.cookie;
    var u :| Admitted(calls[0], cookie, u) && ProfileAnswered(calls, u, Run(cfg, es).procs[p].pc.r);
    MomentsInOrder(es, p, 0, 1);
    AdmittedIsRegistered(cfg, es, ks[0], ks[1], cookie, u);
    assert ReportedAt(cfg, es, ks[1], p, u);
  }

  /** GET /users/me/credentials answers exactly the user's live credentials of one moment. */
  lemma ListIsLive(cfg: Config, es: seq<Event>, p: Pid)
    requires Legal(cfg, es) && p in Run(cfg, es).procs && Run(cfg, es).procs[p].req.ListCredentials?
    requires Run(cfg, es).procs[p].pc.Answered? && Run(cfg, es).procs[p].pc.r.status == 200
    ensures exists k, u :: ListedAt(cfg, es, k, p, u)
  {
    hide Run, Legal, MomentsOf, MintedFor, Registered, IsListing;
    RunsAnswer(cfg, es, p);
    MomentsAreIn(es, p);
    var calls, ks, cookie := CallsOf(cfg, es, p), MomentsOf(es, p), Run(cfg, es).procs[p].req.cookie;
    var u :| Admitted(calls[0], cookie, u) && ListingAnswered(calls, u, Run(cfg, es).procs[p].pc.r);
    MomentsInOrder(es, p, 0, 1);
    AdmittedIsRegistered(cfg, es, ks[0], ks[1], cookie, u);
    assert ListedAt(cfg, es, ks[1], p, u);
  }

  /**
   * A request past the session gate is for an existing, registered user: GET /users/me never reports a
   * guest and its deleted-user branch never runs; GET /users/me/credentials lists the user's live rows.
   */
  lemma ProfilesAreRegistered(cfg: Config, es: seq<Event>, p: Pid)
    requires Legal(cfg, es) && p in Run(cfg, es).procs
    ensures var s := Run(cfg, es);
            var req, pc := s.procs[p].req, s.procs[p].pc;
            && (pc.LoadProfile? ==>
                  req.Me? && Registered(s.data.users, pc.uid) && MintedFor(s.log, req.cookie, pc.uid))
            && (req.Me? && pc.Answered? && pc.r.status == 200 ==> exists k, u :: ReportedAt(cfg, es, k, p, u))
            && (req.ListCredentials? && pc.Answered? && pc.r.status == 200 ==>
                  exists k, u :: ListedAt(cfg, es, k, p, u))
  {
    hide Run, Legal, Inv, Registered, MintedFor, ListedAt, ReportedAt;
    Sound(cfg, es);
    var pr := Run(cfg, es).procs[p];
    if pr.pc.LoadProfile? {
      LoadingIsMe(Run(cfg, es), p);
      SessionRegistered(Run(cfg, es), pr.req.cookie, pr.pc.uid);
    }
    if pr.pc.Answered? && pr.pc.r.status == 200 {
      if pr.req.Me? { ProfileIsRow(cfg, es, p); }
      if pr.req.ListCredentials? { ListIsLive(cfg, es, p); }
    }
  }

  // ----- the operator -----

  /** An operator's rename touches the name of a live row, an operator's insert adds the row given. */
  lemma OperatorSteps(s: State, row: Uuid, name: string, cred: Credential, id: Uuid)
    ensures Step(s, Relabel(row, name)) ==
              if Live(s.data.rows, row)
              then s.(data := s.data.(rows := s.data.rows[row := s.data.rows[row].(name := Some(name))])) else s
    ensures Enabled(s, Provide(cred, id)) ==>
              Step(s, Provide(cred, id)) ==
                if IdTaken(s.data.rows, cred.credentialId) then s
                else s.(data := s.data.(rows := s.data.rows[id := Row(id, cred.userId, cred.credentialId,
                            cred.publicKey, cred.handle, cred.aaguid, cred.signCount, cred.transports,
                            cred.attestationFormat, cred.attestationType, cred.backupEligible, cred.backupState,
                            cred.name, s.data.now, None, None)]),
                        log := s.log + [Provided(id, cred.userId, cred.credentialId)])
  {
    hide IdTaken;
  }
}

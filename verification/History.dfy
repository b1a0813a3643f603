/**
 * The history of a run: the facts one request added to it (its trace), what each handler's trace
 * looks like, and what a request's program point says about how far its trace has got.
 */
module History {
  import opened Domain
  import opened Tables
  import opened Service

  predicate By(f: Fact, p: Pid) {
    !f.Provided? && f.who == p
  }

  /** The facts request p added, in order. */
  function Trace(log: seq<Fact>, p: Pid): seq<Fact> {
    if log == [] then []
    else Trace(log[..|log| - 1], p) + (if By(log[|log| - 1], p) then [log[|log| - 1]] else [])
  }

  lemma TraceSnoc(log: seq<Fact>, f: Fact, p: Pid)
    ensures Trace(log + [f], p) == Trace(log, p) + (if By(f, p) then [f] else [])
  {
    assert (log + [f])[..|log|] == log;
  }

  lemma {:induction false} TraceMember(log: seq<Fact>, p: Pid, f: Fact)
    ensures f in Trace(log, p) <==> f in log && By(f, p)
  {
    if log != [] {
      TraceMember(log[..|log| - 1], p, f);
      assert log == log[..|log| - 1] + [log[|log| - 1]];
    }
  }

  /** A longer log extends the trace. */
  lemma {:induction false} TraceGrows(log: seq<Fact>, log': seq<Fact>, p: Pid)
    requires log <= log'
    ensures Trace(log, p) <= Trace(log', p)
  {
    if log == log' {
    } else {
      TraceGrows(log, log'[..|log'| - 1], p);
    }
  }

  lemma TraceIndex(log: seq<Fact>, f: Fact, p: Pid) returns (i: nat)
    requires f in log && By(f, p)
    ensures i < |Trace(log, p)| && Trace(log, p)[i] == f
  {
    TraceMember(log, p, f);
    i :| 0 <= i < |Trace(log, p)| && Trace(log, p)[i] == f;
  }

  // ----- unrepeatable facts -----

  datatype Key =
    | Birth(u: Uuid)
    | Promotion(u: Uuid)
    | RowBirth(r: Uuid)
    | RowDeath(r: Uuid)
    | Secret(t: string)
    | Consumption(t: string)
    | Unkeyed

  function KeyOf(f: Fact): Key {
    match f
    case Saved(_, sid, _) => Secret(sid)
    case Took(_, sid, _) => Consumption(sid)
    case Born(_, u, _, _) => Birth(u)
    case Promoted(_, u, _) => Promotion(u)
    case Inserted(_, r, _, _) => RowBirth(r)
    case Provided(r, _, _) => RowBirth(r)
    case Asserted(_, _, _, _) => Unkeyed
    case Deleted(_, r, _) => RowDeath(r)
    case Minted(_, t, _) => Secret(t)
    case GuestMinted(_, t, _) => Secret(t)
  }

  /**
   * No user is born or promoted twice, no row inserted or deleted twice, no challenge taken twice, no
   * random string issued twice.
   */
  ghost predicate Unrepeated(log: seq<Fact>) {
    forall i, j :: 0 <= i < j < |log| && KeyOf(log[i]) == KeyOf(log[j]) ==> KeyOf(log[i]).Unkeyed?
  }

  lemma SameKey(log: seq<Fact>, f: Fact, g: Fact)
    requires Unrepeated(log) && f in log && g in log && KeyOf(f) == KeyOf(g) && !KeyOf(f).Unkeyed?
    ensures f == g
  {
  }

  // ----- what the log says -----

  ghost predicate HasBirth(log: seq<Fact>, u: Uuid, guest: bool) {
    exists f :: f in log && f.Born? && f.uid == u && f.guest == guest
  }

  ghost predicate HasPromotion(log: seq<Fact>, u: Uuid) {
    exists f :: f in log && f.Promoted? && f.uid == u
  }

  ghost predicate HasOrigin(log: seq<Fact>, r: Uuid) {
    exists f :: f in log && (f.Inserted? || f.Provided?) && f.row == r
  }

  ghost predicate HasDeath(log: seq<Fact>, r: Uuid) {
    exists f :: f in log && f.Deleted? && f.row == r
  }

  ghost predicate WasSaved(log: seq<Fact>, sid: string, payload: Payload) {
    exists f :: f in log && f.Saved? && f.sid == sid && f.payload == payload
  }

  ghost predicate WasTaken(log: seq<Fact>, sid: string) {
    exists f :: f in log && f.Took? && f.sid == sid
  }

  ghost predicate MintedFor(log: seq<Fact>, t: string, u: Uuid) {
    exists f :: f in log && f.Minted? && f.token == t && f.uid == u
  }

  ghost predicate GuestMintedFor(log: seq<Fact>, t: string, u: Uuid) {
    exists f :: f in log && f.GuestMinted? && f.token == t && f.uid == u
  }

  ghost predicate HasRow(rows: Rows, u: Uuid) {
    exists r :: r in rows && rows[r].userId == u
  }

  // ----- what each handler may do, in order -----

  predicate Completes(req: Request) {
    req.CompleteRegister? || req.CompleteLogin? || req.CompletePromote?
  }

  ghost predicate ShapeBegin(req: Request, tr: seq<Fact>) {
    && |tr| <= 1
    && (|tr| == 1 ==>
          && tr[0].Saved?
          && match req
             case BeginRegister(name, _) =>
               name != "" && tr[0].payload == RegisterPayload(req, tr[0].payload.session.userHandle)
             case BeginPromote(_, _, _) => tr[0].payload
                 == PromotePayload(req, tr[0].payload.session.userHandle, tr[0].payload.promoteUserId)
             case _ => tr[0].payload == LOGIN_PAYLOAD)
  }

  /** Take a payload that is not a promotion, create the user it names, insert one credential for that user. */
  ghost predicate ShapeRegister(sid: string, tr: seq<Fact>) {
    && |tr| <= 3
    && (|tr| >= 1 ==> tr[0].Took? && tr[0].sid == sid)
    && (|tr| >= 2 ==> !tr[0].payload.promote && tr[1].Born? && !tr[1].guest && tr[1].name == tr[0].payload.username)
    && (|tr| >= 3 ==> tr[2].Inserted? && tr[2].uid == tr[1].uid)
  }

  /** Take a payload, write the assertion to a live row of the presented id, mint a session for its owner. */
  ghost predicate ShapeLogin(sid: string, rawId: Bytes, tr: seq<Fact>) {
    && |tr| <= 3
    && (|tr| >= 1 ==> tr[0].Took? && tr[0].sid == sid)
    && (|tr| >= 2 ==> tr[1].Asserted? && tr[1].cid == rawId)
    && (|tr| >= 3 ==> tr[2].Minted? && tr[2].uid == tr[1].uid)
  }

  /** Take a promotion, promote exactly the guest it names, insert one credential, mint a session. */
  ghost predicate ShapePromote(sid: string, tr: seq<Fact>) {
    && |tr| <= 4
    && (|tr| >= 1 ==> tr[0].Took? && tr[0].sid == sid)
    && (|tr| >= 2 ==>
         tr[0].payload.promote && tr[1].Promoted? && tr[1].uid == tr[0].payload.promoteUserId
             && tr[1].name == tr[0].payload.username)
    && (|tr| >= 3 ==> tr[2].Inserted? && tr[2].uid == tr[1].uid)
    && (|tr| >= 4 ==> tr[3].Minted? && tr[3].uid == tr[1].uid)
  }

  ghost predicate ShapeGuest(tr: seq<Fact>) {
    && |tr| <= 2
    && (|tr| >= 1 ==> tr[0].Born? && tr[0].guest)
    && (|tr| >= 2 ==> tr[1].GuestMinted? && tr[1].uid == tr[0].uid)
  }

  ghost predicate ShapeDelete(row: Option<Uuid>, tr: seq<Fact>) {
    |tr| <= 1 && (|tr| == 1 ==> tr[0].Deleted? && row == Some(tr[0].row))
  }

  ghost predicate Shape(req: Request, tr: seq<Fact>) {
    match req
    case BeginRegister(_, _) => ShapeBegin(req, tr)
    case BeginLogin => ShapeBegin(req, tr)
    case BeginPromote(_, _, _) => ShapeBegin(req, tr)
    case CompleteRegister(sid, _) => ShapeRegister(sid, tr)
    case CompleteLogin(sid, _, rawId, _) => ShapeLogin(sid, rawId, tr)
    case CompletePromote(sid, _, _) => ShapePromote(sid, tr)
    case Guest(_) => ShapeGuest(tr)
    case DeleteCredential(_, row) => ShapeDelete(row, tr)
    case _ => tr == []
  }

  // ----- how far a request has got -----

  predicate Plain(r: Response) {
    r.cookie.None? && r.guestCookie.None?
  }

  /** An error answer: no cookie, no body, and 500 only for internal errors. */
  predicate Failure(r: Response) {
    r == Refuse(r.status, r.code) && (r.status == 500 <==> r.code == InternalError)
  }

  ghost predicate AtBegin(req: Request, pc: Pc, tr: seq<Fact>, torn: bool)
    requires ShapeBegin(req, tr)
  {
    match pc
    case Lookup => tr == [] && req.BeginRegister? && req.username != ""
    case Save => tr == [] && !req.BeginPromote? && (req.BeginRegister? ==> req.username != "")
    case FindGuest => tr == [] && req.BeginPromote?
    case LoadGuest(_) => tr == [] && req.BeginPromote?
    case SavePromotion(_) => tr == [] && req.BeginPromote?
    case Answered(r) =>
      && Plain(r)
      && (r.status == 200 ==> |tr| == 1 && r.body == SessionId(tr[0].sid))
      && (r.status != 200 && (r.status != 500 || !torn) ==> tr == [])
    case _ => false
  }

  ghost predicate AtRegister(sid: string, pc: Pc, tr: seq<Fact>, torn: bool)
    requires ShapeRegister(sid, tr)
  {
    match pc
    case Take => tr == []
    case CreateUser(payload, _) => |tr| == 1 && tr[0].payload == payload && !payload.promote
    case InsertCredential(user, cred) => |tr| == 2 && user.id == tr[1].uid && cred.userId == user.id
    case Answered(r) =>
      && Plain(r)
      && (r.status == 200 || r.status == 400 || r.status == 401 || r.status == 409 || r.status == 500)
      && (r.status == 200 ==> |tr| == 3 && r.body == Enrolled(tr[1].uid, tr[2].row))
      && (r.status != 200 ==> Failure(r))
      && ((r.status == 400 || r.status == 401) ==> |tr| <= 1)
      && (r.status == 409 ==> (r.code == NameConflict && |tr| == 1) || (r.code == CredentialConflict && |tr| == 2))
      && (!torn && r.status != 200 ==> |tr| < 3)
      && (|tr| >= 1 && tr[0].payload.promote ==>
           |tr| == 1 && (r == Refuse(401, SessionInvalid) || (torn && r.status == 500)))
    case _ => false
  }

  ghost predicate AtLogin(sid: string, rawId: Bytes, pc: Pc, tr: seq<Fact>, torn: bool)
    requires ShapeLogin(sid, rawId, tr)
  {
    match pc
    case Take => tr == []
    case Resolve => |tr| == 1
    case ResolveUser(_) => |tr| == 1
    case RecordAssertion(_, _, _) => |tr| == 1
    case MintSession(user) => |tr| == 2 && user.id == tr[1].uid
    case DropGuest(user, token) => |tr| == 3 && user.id == tr[1].uid && token == tr[2].token
    case Answered(r) =>
      && r.guestCookie.None?
      && (r.status == 200 || r.status == 400 || r.status == 401 || r.status == 500)
      && (r.status == 200 ==> |tr| == 3 && r.cookie == Some(tr[2].token) && r.body == Account(tr[1].uid))
      && (r.status != 200 ==> Failure(r))
      && ((r.status == 400 || r.status == 401) ==> |tr| <= 1)
      && (!torn && r.status != 200 ==> |tr| < 3)
    case _ => false
  }

  ghost predicate AtPromote(sid: string, pc: Pc, tr: seq<Fact>, torn: bool)
    requires ShapePromote(sid, tr)
  {
    match pc
    case Take => tr == []
    case PromoteUser(payload, _) => |tr| == 1 && tr[0].payload == payload && payload.promote
    case InsertCredential(user, cred) => |tr| == 2 && user.id == tr[1].uid && cred.userId == user.id
    case MintSession(user) => |tr| == 3 && user.id == tr[1].uid
    case DropGuest(user, token) => |tr| == 4 && user.id == tr[1].uid && token == tr[3].token
    case Answered(r) =>
      && r.guestCookie.None?
      && (r.status == 200 || r.status == 400 || r.status == 401 || r.status == 409 || r.status == 500)
      && (r.status == 200 ==> |tr| == 4 && r.cookie == Some(tr[3].token) && r.body == Account(tr[1].uid))
      && (r.status != 200 ==> Failure(r))
      && ((r.status == 400 || r.status == 401) ==> |tr| <= 1)
      && (r.status == 409 ==>
           ((r.code == NameConflict || r.code == NotAGuest) && |tr| == 1)
               || (r.code == CredentialConflict && |tr| == 2))
      && (!torn && r.status != 200 ==> |tr| < 4)
      && (|tr| >= 1 && !tr[0].payload.promote ==>
           |tr| == 1 && (r == Refuse(401, SessionInvalid) || (torn && r.status == 500)))
    case _ => false
  }

  ghost predicate AtGuest(pc: Pc, tr: seq<Fact>, torn: bool)
    requires ShapeGuest(tr)
  {
    match pc
    case FindGuest => tr == []
    case LoadGuest(_) => tr == []
    case CreateGuestUser => tr == []
    case MintGuest(user) => |tr| == 1 && user.id == tr[0].uid
    case Answered(r) =>
      && r.cookie.None?
      && (r.guestCookie.Some? ==>
           r.status == 200 && |tr| == 2 && r.guestCookie == Some(tr[1].token) && r.body == Account(tr[0].uid))
      && (r.guestCookie.None? && r.status == 200 ==> tr == [])
      && (!torn && r.status != 200 ==> |tr| < 2)
    case _ => false
  }

  ghost predicate AtDelete(pc: Pc, tr: seq<Fact>, torn: bool) {
    match pc
    case Answered(r) =>
      && Plain(r)
      && (r.status == 204 || r.status == 400 || r.status == 401 || r.status == 404 || r.status == 409
           || r.status == 500)
      && (r.status == 204 ==> |tr| == 1)
      && (r.status != 204 && (r.status != 500 || !torn) ==> tr == [])
    case _ =>
      tr == [] && (pc.Gate? || pc.FindPasskey? || pc.LockRow? || pc.CountLive? || pc.MarkRow? || pc.CommitRow?)
  }

  ghost predicate AtRead(req: Request, pc: Pc) {
    match pc
    case Gate => req.Me? || req.ListCredentials?
    case LoadProfile(_) => req.Me?
    case ListPasskeys(_) => req.ListCredentials?
    case DropSession => req.Logout?
    case Answered(r) => Plain(r) && (req.Me? ==> (r.status == 200 || r.status == 401 || r.status == 500))
    case _ => false
  }

  ghost predicate At(req: Request, pc: Pc, tr: seq<Fact>, torn: bool)
    requires Shape(req, tr)
  {
    match req
    case BeginRegister(_, _) => AtBegin(req, pc, tr, torn)
    case BeginLogin => AtBegin(req, pc, tr, torn)
    case BeginPromote(_, _, _) => AtBegin(req, pc, tr, torn)
    case CompleteRegister(sid, _) => AtRegister(sid, pc, tr, torn)
    case CompleteLogin(sid, _, rawId, _) => AtLogin(sid, rawId, pc, tr, torn)
    case CompletePromote(sid, _, _) => AtPromote(sid, pc, tr, torn)
    case Guest(_) => AtGuest(pc, tr, torn)
    case DeleteCredential(_, _) => AtDelete(pc, tr, torn)
    case _ => AtRead(req, pc)
  }
}

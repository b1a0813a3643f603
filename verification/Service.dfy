/**
 * The service as an interleaved state machine. A request is a process at a program point; each of
 * its steps is one SQL statement or Redis command (Plan, then Exec) followed by the handler's local
 * code up to the next store call (Resume). Requests interleave at every step.
 */
module Service {
  import opened Domain
  import opened Tables
  import opened Conversions

  type Pid = nat

  datatype Timed<+T> = Timed(value: T, expires: nat)

  datatype Config = Config(challengeTtl: nat, sessionTtl: nat, guestTtl: nat)

  /** Everything the requests share. A row lock names the request whose transaction holds it. */
  datatype Data = Data(
    cfg: Config,
    now: nat,
    users: Users,
    rows: Rows,
    locks: map<Uuid, Pid>,
    sessions: map<string, Timed<Uuid>>,
    guests: map<string, Timed<Uuid>>,
    challenges: map<string, Timed<Payload>>)

  // ----- requests and responses -----

  /** A missing cookie is the empty string, as is a missing session id or name. */
  datatype Request =
    | BeginRegister(username: string, displayName: string)
    | CompleteRegister(sid: string, hasCredential: bool)
    | BeginLogin
    | CompleteLogin(sid: string, hasCredential: bool, rawId: Bytes, cookie: string)
    | Logout(cookie: string)
    | Guest(cookie: string)
    | BeginPromote(username: string, displayName: string, cookie: string)
    | CompletePromote(sid: string, hasCredential: bool, cookie: string)
    | Me(cookie: string)
    | ListCredentials(cookie: string)
    | DeleteCredential(cookie: string, row: Option<Uuid>)
    | Malformed

  datatype Code =
    | Fine
    | InvalidRequest
    | MissingFields
    | NameConflict
    | SessionInvalid
    | AttestationRefused
    | CredentialConflict
    | InternalError
    | Unauthorized
    | GuestInvalid
    | NotAGuest
    | NotFound
    | LastCredentialLeft

  datatype Body =
    | NoBody
    | SessionId(sid: string)
    | Enrolled(uid: Uuid, row: Uuid)
    | Account(uid: Uuid)
    | Profile(user: User)
    | Passkeys(list: seq<Credential>)

  /** cookie and guestCookie are the tokens set on the client, if any. */
  datatype Response = Response(status: nat, code: Code, cookie: Option<string>, guestCookie: Option<string>, body: Body)

  function Refuse(status: nat, code: Code): Response {
    Response(status, code, None, None, NoBody)
  }

  function Reply(body: Body): Response {
    Response(200, Fine, None, None, body)
  }

  // ----- what the machine does not decide -----

  /** A store call may fail before it takes effect, or take effect and still report an error. */
  datatype Fault = NoFault | Lost | Ambiguous

  /** The WebAuthn library's verdicts, on both ceremonies. */
  datatype Verdict =
    | ParseFails
    | AttestationRejected
    | Refuses
    | BypassesResolver
    | Attests(made: LibCredential)
    | Asserts(seen: LibCredential)

  datatype Choice = Choice(
    fault: Fault,
    uuid: Uuid,            // gen_random_uuid()
    token: string,          // a random token or session id
    handle: Bytes,          // a random WebAuthn user handle
    mint: bool,             // random source, library begin call and JSON encoding succeeded
    verdict: Verdict,
    list: seq<Credential>)  // the order the database returns the live rows in

  // ----- store operations -----

  datatype UserOp =
    | GetByUsername(name: string)
    | GetById(id: Uuid)
    | CreateGuest(name: string, display: string)
    | CreateRegistered(name: string, display: string)
    | PromoteGuest(id: Uuid, name: string, display: string)

  datatype RowOp =
    | Insert(cred: Credential)
    | GetByCredentialId(cid: Bytes)
    | ListByUserId(uid: Uuid)
    | UpdateAfterAssertion(row: Uuid, count: Uint32, be: bool, bs: bool)

  /** The statements of the SoftDelete transaction; Count rolls it back when too few rows are live. */
  datatype TxOp =
    | Lock(row: Uuid)
    | Count(row: Uuid, owner: Uuid)
    | Mark(row: Uuid)
    | Commit(row: Uuid)

  datatype KeyOp =
    | SaveChallenge(payload: Payload)
    | TakeChallenge(sid: string)
    | CreateSession(uid: Uuid)
    | GetSession(token: string)
    | DeleteSession(token: string)
    | CreateGuestToken(uid: Uuid)
    | GetGuest(token: string)
    | DeleteGuest(token: string)

  datatype Op = Skip | OnUsers(u: UserOp) | OnRows(r: RowOp) | InTx(t: TxOp) | OnKeys(k: KeyOp)

  datatype Answer =
    | Done
    | Failed(error: Error)
    | TheUser(user: User)
    | TheCredential(cred: Credential)
    | TheList(list: seq<Credential>)
    | ThePayload(payload: Payload)
    | TheToken(token: string)
    | TheUid(uid: Uuid)

  function OfUser(r: Result<User>): Answer {
    match r case Ok(u) => TheUser(u) case Err(e) => Failed(e)
  }

  function OfCredential(r: Result<Credential>): Answer {
    match r case Ok(c) => TheCredential(c) case Err(e) => Failed(e)
  }

  function OfUnit(r: Result<()>): Answer {
    match r case Ok(_) => Done case Err(e) => Failed(e)
  }

  /** A timed key answers only before its expiry. */
  function Fetch<T>(m: map<string, Timed<T>>, k: string, now: nat): Option<T> {
    if k in m && now < m[k].expires then Some(m[k].value) else None
  }

  function Release(d: Data, p: Pid): Data {
    d.(locks := map r | r in d.locks && d.locks[r] != p :: d.locks[r])
  }

  ghost function ApplyUsers(us: Users, op: UserOp, c: Choice, now: nat): (Users, Answer) {
    match op
    case GetByUsername(name) => (us, OfUser(Tables.GetByUsername(us, name)))
    case GetById(id) => (us, OfUser(Tables.GetById(us, id)))
    case CreateGuest(name, display) =>
      var (us', r) := Tables.CreateGuest(us, c.uuid, name, display, now);
      (us', OfUser(r))
    case CreateRegistered(name, display) =>
      var (us', r) := Tables.CreateRegistered(us, c.uuid, name, display, now);
      (us', OfUser(r))
    case PromoteGuest(id, name, display) =>
      var (us', r) := Tables.PromoteGuest(us, id, name, display, now);
      (us', OfUser(r))
  }

  ghost function ApplyRows(us: Users, rows: Rows, op: RowOp, c: Choice, now: nat): (Rows, Answer) {
    match op
    case Insert(cred) =>
      var (rows', r) := Tables.Insert(us, rows, c.uuid, cred, now);
      (rows', OfCredential(r))
    case GetByCredentialId(cid) => (rows, OfCredential(Tables.GetByCredentialId(rows, cid)))
    case ListByUserId(uid) => (rows, TheList(c.list))
    case UpdateAfterAssertion(row, count, be, bs) =>
      var (rows', r) := Tables.UpdateAfterAssertion(rows, row, count, be, bs, now);
      (rows', OfUnit(r))
  }

  ghost function ApplyTx(d: Data, p: Pid, op: TxOp): (Data, Answer) {
    match op
    case Lock(row) =>
      if Live(d.rows, row) then (d.(locks := d.locks[row := p]), TheUid(d.rows[row].userId))
      else (d, Failed(CredentialNotFound))
    case Count(row, owner) =>
      if |LiveOf(d.rows, owner)| <= 1 then (Release(d, p), Failed(LastCredential)) else (d, Done)
    case Mark(row) => (d, Done) // visible to nobody before the commit
    case Commit(row) => (Release(d.(rows := Bury(d.rows, row, d.now)), p), Done)
  }

  function ApplyKeys(d: Data, op: KeyOp, c: Choice): (Data, Answer) {
    match op
    case SaveChallenge(payload) =>
      (d.(challenges := d.challenges[c.token := Timed(payload, d.now + d.cfg.challengeTtl)]), Done)
    case TakeChallenge(sid) =>
      var hit := Fetch(d.challenges, sid, d.now);
      if hit.Some? then (d.(challenges := d.challenges - {sid}), ThePayload(hit.value))
      else (d, Failed(ChallengeNotFound))
    case CreateSession(uid) =>
      (d.(sessions := d.sessions[c.token := Timed(uid, d.now + d.cfg.sessionTtl)]), TheToken(c.token))
    case GetSession(token) =>
      var hit := Fetch(d.sessions, token, d.now);
      (d, if hit.Some? then TheUid(hit.value) else Failed(SessionNotFound))
    case DeleteSession(token) => (d.(sessions := d.sessions - {token}), Done)
    case CreateGuestToken(uid) =>
      (d.(guests := d.guests[c.token := Timed(uid, d.now + d.cfg.guestTtl)]), TheToken(c.token))
    case GetGuest(token) =>
      var hit := Fetch(d.guests, token, d.now);
      (d, if hit.Some? then TheUid(hit.value) else Failed(GuestNotFound))
    case DeleteGuest(token) => (d.(guests := d.guests - {token}), Done)
  }

  /** The effect and answer of an operation that meets no fault. */
  ghost function Apply(d: Data, p: Pid, op: Op, c: Choice): (Data, Answer) {
    match op
    case Skip => (d, Done)
    case OnUsers(u) =>
      var (us, a) := ApplyUsers(d.users, u, c, d.now);
      (d.(users := us), a)
    case OnRows(r) =>
      var (rows, a) := ApplyRows(d.users, d.rows, r, c, d.now);
      (d.(rows := rows), a)
    case InTx(t) => ApplyTx(d, p, t)
    case OnKeys(k) => ApplyKeys(d, k, c)
  }

  /** An operation under the fault chosen for it; a transaction that sees an error rolls back. */
  ghost function Exec(d: Data, p: Pid, op: Op, c: Choice): (Data, Answer) {
    match c.fault
    case NoFault => Apply(d, p, op, c)
    case Lost => (Release(d, p), Failed(StoreFailure))
    case Ambiguous => (Release(Apply(d, p, op, c).0, p), Failed(StoreFailure))
  }

  // ----- program points -----

  datatype Pc =
    | Lookup                                            // BeginRegister: GetByUsername
    | Save                                              // begin handlers: challenges.Save
    | SavePromotion(guest: Uuid)
    | Take                                              // complete handlers: challenges.Take
    | CreateUser(payload: Payload, made: LibCredential)
    | PromoteUser(payload: Payload, made: LibCredential)
    | InsertCredential(user: User, cred: Credential)
    | Resolve                                           // CompleteLogin: the resolver's two reads
    | ResolveUser(found: Credential)
    | RecordAssertion(user: User, found: Credential, seen: LibCredential)
    | MintSession(user: User)
    | DropGuest(user: User, token: string)
    | DropSession
    | FindGuest
    | LoadGuest(uid: Uuid)
    | CreateGuestUser
    | MintGuest(user: User)
    | Gate                                              // RequireSession
    | LoadProfile(uid: Uuid)
    | ListPasskeys(uid: Uuid)
    | FindPasskey(uid: Uuid, row: Uuid)
    | LockRow(uid: Uuid, row: Uuid)                     // SoftDelete: four statements
    | CountLive(uid: Uuid, row: Uuid, owner: Uuid)
    | MarkRow(uid: Uuid, row: Uuid, owner: Uuid)
    | CommitRow(uid: Uuid, row: Uuid, owner: Uuid)
    | Answered(r: Response)

  /** The checks a handler makes before its first store call. */
  function Start(req: Request): Pc {
    match req
    case BeginRegister(name, display) =>
      if name == "" || display == "" then Answered(Refuse(400, MissingFields)) else Lookup
    case CompleteRegister(sid, cred) =>
      if sid == "" || !cred then Answered(Refuse(400, MissingFields)) else Take
    case BeginLogin => Save
    case CompleteLogin(sid, cred, _, _) =>
      if sid == "" || !cred then Answered(Refuse(400, MissingFields)) else Take
    case Logout(cookie) => if cookie == "" then Answered(Response(204, Fine, None, None, NoBody)) else DropSession
    case Guest(cookie) => if cookie == "" then CreateGuestUser else FindGuest
    case BeginPromote(name, display, cookie) =>
      if name == "" || display == "" then Answered(Refuse(400, MissingFields))
      else if cookie == "" then Answered(Refuse(401, GuestInvalid))
      else FindGuest
    case CompletePromote(sid, cred, _) =>
      if sid == "" || !cred then Answered(Refuse(400, MissingFields)) else Take
    case Me(cookie) => if cookie == "" then Answered(Refuse(401, Unauthorized)) else Gate
    case ListCredentials(cookie) => if cookie == "" then Answered(Refuse(401, Unauthorized)) else Gate
    case DeleteCredential(cookie, _) => if cookie == "" then Answered(Refuse(401, Unauthorized)) else Gate
    case Malformed => Answered(Refuse(400, InvalidRequest))
  }

  function RegisterPayload(req: Request, handle: Bytes): Payload
    requires req.BeginRegister?
  {
    Payload(SessionData(handle), req.username, req.displayName, NIL_UUID, false)
  }

  function PromotePayload(req: Request, handle: Bytes, guest: Uuid): Payload
    requires req.BeginPromote?
  {
    Payload(SessionData(handle), req.username, req.displayName, guest, true)
  }

  const LOGIN_PAYLOAD := Payload(SessionData([]), "", "", NIL_UUID, false)

  /** The store call a request makes next. */
  function Plan(req: Request, pc: Pc, c: Choice): Op {
    match pc
    case Lookup => if req.BeginRegister? then OnUsers(GetByUsername(req.username)) else Skip
    case Save =>
      if !c.mint then Skip
      else if req.BeginRegister? then OnKeys(SaveChallenge(RegisterPayload(req, c.handle)))
      else OnKeys(SaveChallenge(LOGIN_PAYLOAD))
    case SavePromotion(guest) =>
      if c.mint && req.BeginPromote? then OnKeys(SaveChallenge(PromotePayload(req, c.handle, guest))) else Skip
    case Take =>
      if req.CompleteRegister? || req.CompleteLogin?
          || req.CompletePromote? then OnKeys(TakeChallenge(req.sid)) else Skip
    case CreateUser(payload, _) => OnUsers(CreateRegistered(payload.username, payload.displayName))
    case PromoteUser(payload, _) => OnUsers(PromoteGuest(payload.promoteUserId, payload.username, payload.displayName))
    case InsertCredential(_, cred) => OnRows(Insert(cred))
    case Resolve => if req.CompleteLogin? then OnRows(GetByCredentialId(req.rawId)) else Skip
    case ResolveUser(found) => OnUsers(GetById(found.userId))
    case RecordAssertion(_, found, seen) =>
      OnRows(UpdateAfterAssertion(found.id, seen.signCount, seen.backupEligible, seen.backupState))
    case MintSession(user) => OnKeys(CreateSession(user.id))
    case DropGuest(_, _) => if req.CompleteLogin? || req.CompletePromote? then OnKeys(DeleteGuest(req.cookie)) else Skip
    case DropSession => if req.Logout? then OnKeys(DeleteSession(req.cookie)) else Skip
    case FindGuest => if req.Guest? || req.BeginPromote? then OnKeys(GetGuest(req.cookie)) else Skip
    case LoadGuest(uid) => OnUsers(GetById(uid))
    case CreateGuestUser => OnUsers(CreateGuest("guest-" + c.token, "Guest"))
    case MintGuest(user) => OnKeys(CreateGuestToken(user.id))
    case Gate =>
      if req.Me? || req.ListCredentials? || req.DeleteCredential? then OnKeys(GetSession(req.cookie)) else Skip
    case LoadProfile(uid) => OnUsers(GetById(uid))
    case ListPasskeys(uid) => OnRows(ListByUserId(uid))
    case FindPasskey(uid, _) => OnRows(ListByUserId(uid))
    case LockRow(_, row) => InTx(Lock(row))
    case CountLive(_, row, owner) => InTx(Count(row, owner))
    case MarkRow(_, row, _) => InTx(Mark(row))
    case CommitRow(_, row, _) => InTx(Commit(row))
    case Answered(_) => Skip
  }

  // ----- the handlers' code between store calls -----

  const BROKEN := Answered(Refuse(500, InternalError))

  function SignedIn(user: User, token: string): Pc {
    Answered(Response(200, Fine, Some(token), None, Account(user.id)))
  }

  function AfterBegin(pc: Pc, req: Request, a: Answer, c: Choice): Pc {
    match pc
    case Lookup =>
      (match a
       case TheUser(_) => Answered(Refuse(409, NameConflict))
       case Failed(UserNotFound) => Save
       case _ => BROKEN)
    case FindGuest => if a.TheUid? then LoadGuest(a.uid) else Answered(Refuse(401, GuestInvalid))
    case LoadGuest(_) =>
      if !a.TheUser? then Answered(Refuse(401, GuestInvalid))
      else if !a.user.isGuest then Answered(Refuse(409, NotAGuest))
      else SavePromotion(a.user.id)
    case Save => if c.mint && a == Done then Answered(Reply(SessionId(c.token))) else BROKEN
    case SavePromotion(_) => if c.mint && a == Done then Answered(Reply(SessionId(c.token))) else BROKEN
    case _ => pc
  }

  /** The two completions that create a credential; promotion says which of them is running. */
  function AfterTake(a: Answer, c: Choice, promotion: bool): Pc {
    match a
    case Failed(ChallengeNotFound) => Answered(Refuse(401, SessionInvalid))
    case ThePayload(payload) =>
      if payload.promote != promotion then Answered(Refuse(401, SessionInvalid))
      else (match c.verdict
            case AttestationRejected => Answered(Refuse(400, AttestationRefused))
            case Attests(made) => if promotion then PromoteUser(payload, made) else CreateUser(payload, made)
            case _ => Answered(Refuse(400, InvalidRequest)))
    case _ => BROKEN
  }

  function AfterUser(payload: Payload, made: LibCredential, a: Answer): Pc {
    match a
    case TheUser(user) =>
      (match FromLib(user.id, payload.session.userHandle, made)
       case Ok(cred) => InsertCredential(user, cred)
       case Err(_) => BROKEN)
    case Failed(UsernameTaken) => Answered(Refuse(409, NameConflict))
    case Failed(_) => BROKEN
    case _ => BROKEN
  }

  function AfterRegister(pc: Pc, a: Answer, c: Choice): Pc {
    match pc
    case Take => AfterTake(a, c, false)
    case CreateUser(payload, made) => AfterUser(payload, made, a)
    case InsertCredential(user, _) =>
      (match a
       case TheCredential(saved) => Answered(Reply(Enrolled(user.id, saved.id)))
       case Failed(CredentialExists) => Answered(Refuse(409, CredentialConflict))
       case _ => BROKEN)
    case _ => pc
  }

  function AfterPromote(pc: Pc, req: Request, a: Answer, c: Choice): Pc
    requires req.CompletePromote?
  {
    match pc
    case Take => AfterTake(a, c, true)
    case PromoteUser(payload, made) =>
      if a == Failed(UserNotFound) then Answered(Refuse(409, NotAGuest)) else AfterUser(payload, made, a)
    case InsertCredential(user, _) =>
      (match a
       case TheCredential(_) => MintSession(user)
       case Failed(CredentialExists) => Answered(Refuse(409, CredentialConflict))
       case _ => BROKEN)
    case MintSession(user) =>
      if !a.TheToken? then BROKEN
      else if req.cookie != "" then DropGuest(user, a.token)
      else SignedIn(user, a.token)
    case DropGuest(user, token) => SignedIn(user, token)
    case _ => pc
  }

  function AfterLogin(pc: Pc, req: Request, a: Answer, c: Choice): Pc
    requires req.CompleteLogin?
  {
    match pc
    case Take =>
      (match a
       case Failed(ChallengeNotFound) => Answered(Refuse(401, SessionInvalid))
       case ThePayload(_) =>
         (match c.verdict
          case ParseFails => Answered(Refuse(400, InvalidRequest))
          case Refuses => Answered(Refuse(401, Unauthorized))
          case BypassesResolver => BROKEN
          case _ => Resolve)
       case _ => BROKEN)
    case Resolve => if a.TheCredential? then ResolveUser(a.cred) else Answered(Refuse(401, Unauthorized))
    case ResolveUser(found) =>
      if a.TheUser? && c.verdict.Asserts? then RecordAssertion(a.user, found, c.verdict.seen)
      else Answered(Refuse(401, Unauthorized))
    case RecordAssertion(user, _, _) => if a == Done then MintSession(user) else BROKEN
    case MintSession(user) =>
      if !a.TheToken? then BROKEN
      else if req.cookie != "" then DropGuest(user, a.token)
      else SignedIn(user, a.token)
    case DropGuest(user, token) => SignedIn(user, token)
    case _ => pc
  }

  function AfterGuest(pc: Pc, a: Answer): Pc {
    match pc
    case FindGuest => if a.TheUid? then LoadGuest(a.uid) else CreateGuestUser
    case LoadGuest(_) =>
      if a.TheUser? && a.user.isGuest then Answered(Reply(Account(a.user.id))) else CreateGuestUser
    case CreateGuestUser => if a.TheUser? then MintGuest(a.user) else BROKEN
    case MintGuest(user) =>
      if a.TheToken? then Answered(Response(200, Fine, None, Some(a.token), Account(user.id))) else BROKEN
    case _ => pc
  }

  predicate Owned(list: seq<Credential>, row: Uuid) {
    exists i :: 0 <= i < |list| && list[i].id == row
  }

  function AfterGate(req: Request, a: Answer): Pc {
    match a
    case TheUid(uid) =>
      (match req
       case Me(_) => LoadProfile(uid)
       case ListCredentials(_) => ListPasskeys(uid)
       case DeleteCredential(_, row) =>
         if row.Some? then FindPasskey(uid, row.value) else Answered(Refuse(400, InvalidRequest))
       case _ => BROKEN)
    case Failed(SessionNotFound) => Answered(Refuse(401, Unauthorized))
    case _ => BROKEN
  }

  function AfterAccount(pc: Pc, req: Request, a: Answer): Pc {
    match pc
    case Gate => AfterGate(req, a)
    case LoadProfile(_) =>
      (match a
       case TheUser(user) => Answered(Reply(Profile(user)))
       case Failed(UserNotFound) => Answered(Refuse(401, Unauthorized))
       case _ => BROKEN)
    case ListPasskeys(_) => if a.TheList? then Answered(Reply(Passkeys(a.list))) else BROKEN
    case FindPasskey(uid, row) =>
      if !a.TheList? then BROKEN
      else if Owned(a.list, row) then LockRow(uid, row)
      else Answered(Refuse(404, NotFound))
    case LockRow(uid, row) =>
      (match a
       case TheUid(owner) => CountLive(uid, row, owner)
       case Failed(CredentialNotFound) => Answered(Refuse(404, NotFound))
       case _ => BROKEN)
    case CountLive(uid, row, owner) =>
      (match a
       case Done => MarkRow(uid, row, owner)
       case Failed(LastCredential) => Answered(Refuse(409, LastCredentialLeft))
       case _ => BROKEN)
    case MarkRow(uid, row, owner) => if a == Done then CommitRow(uid, row, owner) else BROKEN
    case CommitRow(_, _, _) => if a == Done then Answered(Response(204, Fine, None, None, NoBody)) else BROKEN
    case _ => pc
  }

  function Resume(req: Request, pc: Pc, a: Answer, c: Choice): Pc {
    match req
    case BeginRegister(_, _) => AfterBegin(pc, req, a, c)
    case BeginLogin => AfterBegin(pc, req, a, c)
    case BeginPromote(_, _, _) => AfterBegin(pc, req, a, c)
    case CompleteRegister(_, _) => AfterRegister(pc, a, c)
    case CompleteLogin(_, _, _, _) => AfterLogin(pc, req, a, c)
    case CompletePromote(_, _, _) => AfterPromote(pc, req, a, c)
    case Logout(_) => if pc.DropSession? then Answered(Response(204, Fine, None, None, NoBody)) else pc
    case Guest(_) => AfterGuest(pc, a)
    case Me(_) => AfterAccount(pc, req, a)
    case ListCredentials(_) => AfterAccount(pc, req, a)
    case DeleteCredential(_, _) => AfterAccount(pc, req, a)
    case Malformed => pc
  }

  // ----- history -----

  /** What a store call did, and for which request. Provided rows are added by an operator. */
  datatype Fact =
    | Saved(who: Pid, sid: string, payload: Payload)
    | Took(who: Pid, sid: string, payload: Payload)
    | Born(who: Pid, uid: Uuid, guest: bool, name: string)
    | Promoted(who: Pid, uid: Uuid, name: string)
    | Inserted(who: Pid, row: Uuid, uid: Uuid, cid: Bytes)
    | Asserted(who: Pid, row: Uuid, uid: Uuid, cid: Bytes)
    | Deleted(who: Pid, row: Uuid, uid: Uuid)
    | Minted(who: Pid, token: string, uid: Uuid)
    | GuestMinted(who: Pid, token: string, uid: Uuid)
    | Provided(row: Uuid, uid: Uuid, cid: Bytes)

  function NoteUsers(p: Pid, op: UserOp, a: Answer): seq<Fact> {
    if !a.TheUser? then []
    else match op
         case CreateGuest(_, _) => [Born(p, a.user.id, true, a.user.username)]
         case CreateRegistered(_, _) => [Born(p, a.user.id, false, a.user.username)]
         case PromoteGuest(_, _, _) => [Promoted(p, a.user.id, a.user.username)]
         case _ => []
  }

  function NoteRows(rows: Rows, p: Pid, op: RowOp, a: Answer): seq<Fact> {
    match op
    case Insert(_) => if a.TheCredential? then [Inserted(p, a.cred.id, a.cred.userId, a.cred.credentialId)] else []
    case UpdateAfterAssertion(row, _, _, _) =>
      if a == Done && row in rows then [Asserted(p, row, rows[row].userId, rows[row].credentialId)] else []
    case _ => []
  }

  function NoteKeys(p: Pid, op: KeyOp, a: Answer, c: Choice): seq<Fact> {
    match op
    case SaveChallenge(payload) => [Saved(p, c.token, payload)]
    case TakeChallenge(sid) => if a.ThePayload? then [Took(p, sid, a.payload)] else []
    case CreateSession(uid) => [Minted(p, c.token, uid)]
    case CreateGuestToken(uid) => [GuestMinted(p, c.token, uid)]
    case _ => []
  }

  /** The facts an operation adds when it takes effect on d with answer a. */
  function Note(d: Data, p: Pid, op: Op, a: Answer, c: Choice): seq<Fact> {
    match op
    case Skip => []
    case OnUsers(u) => NoteUsers(p, u, a)
    case OnRows(r) => NoteRows(d.rows, p, r, a)
    case InTx(t) => if t.Commit? && t.row in d.rows then [Deleted(p, t.row, d.rows[t.row].userId)] else []
    case OnKeys(k) => NoteKeys(p, k, a, c)
  }

  ghost function News(d: Data, p: Pid, op: Op, c: Choice): seq<Fact> {
    if c.fault.Lost? then [] else Note(d, p, op, Apply(d, p, op, c).1, c)
  }

  // ----- the machine -----

  /** torn records that some call of the request took effect and yet reported an error. */
  datatype Process = Process(req: Request, pc: Pc, torn: bool)

  datatype State = State(data: Data, log: seq<Fact>, procs: map<Pid, Process>)

  datatype Event =
    | Arrive(p: Pid, req: Request)
    | Advance(p: Pid, c: Choice)
    | Tick(later: nat)
    | Provide(cred: Credential, uuid: Uuid)   // a further credential for a registered user
    | Relabel(row: Uuid, name: string)         // CredentialStore.Rename

  ghost function Init(cfg: Config): State {
    State(Data(cfg, 0, map[], map[], map[], map[], map[], map[]), [], map[])
  }

  /** A random string that no token or session id has been. */
  predicate FreshString(log: seq<Fact>, t: string) {
    && t != ""
    && forall f :: f in log ==>
         !(f.Saved? && f.sid == t) && !(f.Minted? && f.token == t) && !(f.GuestMinted? && f.token == t)
  }

  predicate FreshId(d: Data, id: Uuid) {
    id !in d.users && id !in d.rows
  }

  /** A statement that needs a row some other transaction has locked must wait. */
  predicate Blocked(d: Data, op: Op) {
    || (op.InTx? && op.t.Lock? && op.t.row in d.locks)
    || (op.OnRows? && op.r.UpdateAfterAssertion? && op.r.row in d.locks)
  }

  ghost predicate Enabled(s: State, e: Event) {
    match e
    case Arrive(p, _) => p !in s.procs
    case Advance(p, c) =>
      && p in s.procs && !s.procs[p].pc.Answered?
      && FreshString(s.log, c.token) && FreshId(s.data, c.uuid)
      && var op := Plan(s.procs[p].req, s.procs[p].pc, c);
      && !Blocked(s.data, op)
      && (op.OnRows? && op.r.ListByUserId? ==> IsListing(c.list, s.data.rows, op.r.uid))
    case Tick(_) => true
    case Provide(cred, uuid) => Registered(s.data.users, cred.userId) && FreshId(s.data, uuid)
    case Relabel(row, _) => row !in s.data.locks
  }

  ghost function Step(s: State, e: Event): State {
    match e
    case Arrive(p, req) => s.(procs := s.procs[p := Process(req, Start(req), false)])
    case Advance(p, c) =>
      if p !in s.procs then s else
      var pr := s.procs[p];
      var op := Plan(pr.req, pr.pc, c);
      var (d, a) := Exec(s.data, p, op, c);
      State(d, s.log + News(s.data, p, op, c),
            s.procs[p := Process(pr.req, Resume(pr.req, pr.pc, a, c), pr.torn || c.fault.Ambiguous?)])
    case Tick(later) => s.(data := s.data.(now := s.data.now + later))
    case Provide(cred, uuid) =>
      var (rs, r) := Tables.Insert(s.data.users, s.data.rows, uuid, cred, s.data.now);
      s.(data := s.data.(rows := rs),
         log := if r.Ok? then s.log + [Provided(uuid, cred.userId, cred.credentialId)] else s.log)
    case Relabel(row, name) => s.(data := s.data.(rows := Tables.Rename(s.data.rows, row, name).0))
  }

  /** The state after the events of es, and whether each was enabled in its turn. */
  ghost function Run(cfg: Config, es: seq<Event>): State {
    if es == [] then Init(cfg) else Step(Run(cfg, es[..|es| - 1]), es[|es| - 1])
  }

  ghost predicate Legal(cfg: Config, es: seq<Event>) {
    es == [] || (Legal(cfg, es[..|es| - 1]) && Enabled(Run(cfg, es[..|es| - 1]), es[|es| - 1]))
  }
}

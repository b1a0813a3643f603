/**
 * What each handler must achieve: for every request the calls it makes, what each leaves in the stores
 * and the answer, decided by the stored facts the calls meet, the faults and the library's verdicts. The
 * tables know nothing of program points; every request of every run, and every handler method, meets them.
 */
module Outcomes {
  import opened Domain
  import opened Tables
  import opened Service
  import opened Calls

  // ----- answers -----

  function Denied(status: nat, code: Code): Response {
    Response(status, code, None, None, NoBody)
  }

  function Success(body: Body): Response {
    Response(200, Fine, None, None, body)
  }

  // ----- begin -----

  /** The last call of a begin: the session id goes out once its payload is saved. */
  predicate SaveAnswered(k: Call, payload: Payload, r: Response) {
    && (if k.c.mint then Saves(k, payload) else Reads(k))
    && r == if k.c.mint && Faultless(k) then Success(SessionId(k.c.token)) else Denied(500, InternalError)
  }

  ghost predicate BeginRegisterAnswered(req: Request, calls: seq<Call>, r: Response)
    requires req.BeginRegister?
  {
    if req.username == "" || req.displayName == "" then calls == [] && r == Denied(400, MissingFields)
    else
      && |calls| >= 1 && Reads(calls[0])
      && if !Faultless(calls[0]) then |calls| == 1 && r == Denied(500, InternalError)
         else if NameTaken(calls[0].before.users, req.username) then |calls| == 1 && r == Denied(409, NameConflict)
         else |calls| == 2 && SaveAnswered(calls[1], RegisterOffer(req, calls[1].c.handle), r)
  }

  function RegisterOffer(req: Request, handle: Bytes): Payload
    requires req.BeginRegister?
  {
    Payload(SessionData(handle), req.username, req.displayName, NIL_UUID, false)
  }

  ghost predicate BeginLoginAnswered(calls: seq<Call>, r: Response) {
    |calls| == 1 && SaveAnswered(calls[0], Payload(SessionData([]), "", "", NIL_UUID, false), r)
  }

  /** The guest cookie resolves, at its call, to u. */
  predicate GuestFound(k: Call, cookie: string, u: Uuid) {
    Reads(k) && Faultless(k) && Current(k.before.guests, cookie, k.before.now) && k.before.guests[cookie].value == u
  }

  predicate GuestMissed(k: Call, cookie: string) {
    Reads(k) && !(Faultless(k) && Current(k.before.guests, cookie, k.before.now))
  }

  ghost predicate BeginPromoteAnswered(req: Request, calls: seq<Call>, r: Response)
    requires req.BeginPromote?
  {
    if req.username == "" || req.displayName == "" then calls == [] && r == Denied(400, MissingFields)
    else if req.cookie == "" then calls == [] && r == Denied(401, GuestInvalid)
    else
      && |calls| >= 1
      && if GuestMissed(calls[0], req.cookie) then |calls| == 1 && r == Denied(401, GuestInvalid)
         else exists u :: GuestFound(calls[0], req.cookie, u) && GuestPromoteAnswered(req, calls, u, r)
  }

  ghost predicate GuestPromoteAnswered(req: Request, calls: seq<Call>, u: Uuid, r: Response)
    requires req.BeginPromote?
  {
    && |calls| >= 2 && Reads(calls[1])
    && if !Faultless(calls[1]) || u !in calls[1].before.users then |calls| == 2 && r == Denied(401, GuestInvalid)
       else if !calls[1].before.users[u].isGuest then |calls| == 2 && r == Denied(409, NotAGuest)
       else |calls| == 3 && SaveAnswered(calls[2], PromoteOffer(req, calls[2].c.handle, u), r)
  }

  function PromoteOffer(req: Request, handle: Bytes, u: Uuid): Payload
    requires req.BeginPromote?
  {
    Payload(SessionData(handle), req.username, req.displayName, u, true)
  }

  // ----- the attestation -----

  /** The take hands over a payload of the right flow and the library attests a credential. */
  predicate AttestedAt(k: Call, sid: string, promote: bool) {
    && Takes(k, sid) && Faultless(k) && Outstanding(k.before, sid)
    && k.before.challenges[sid].value.promote == promote && k.c.verdict.Attests?
  }

  predicate TakeRefused(k: Call, sid: string, promote: bool, r: Response) {
    && Takes(k, sid)
    && r == if !Faultless(k) then Denied(500, InternalError)
            else if !Outstanding(k.before, sid) then Denied(401, SessionInvalid)
            else if k.before.challenges[sid].value.promote != promote then Denied(401, SessionInvalid)
            else if k.c.verdict.AttestationRejected? then Denied(400, AttestationRefused)
            else Denied(400, InvalidRequest)
  }

  // ----- register -----

  ghost predicate RegisterAnswered(req: Request, calls: seq<Call>, r: Response)
    requires req.CompleteRegister?
  {
    if req.sid == "" || !req.hasCredential then calls == [] && r == Denied(400, MissingFields)
    else
      && |calls| >= 1
      && if !AttestedAt(calls[0], req.sid, false) then |calls| == 1 && TakeRefused(calls[0], req.sid, false, r)
         else EnrolAnswered(calls, calls[0].before.challenges[req.sid].value, calls[0].c.verdict.made, r)
  }

  /** Payload and credential in hand, the user is made and then the credential row. */
  ghost predicate EnrolAnswered(calls: seq<Call>, payload: Payload, made: LibCredential, r: Response) {
    && |calls| >= 2 && MakesUser(calls[1], payload.username, payload.displayName)
    && if !Faultless(calls[1]) then |calls| == 2 && r == Denied(500, InternalError)
       else if NameTaken(calls[1].before.users, payload.username) then |calls| == 2 && r == Denied(409, NameConflict)
       else if !Convertible(made) then |calls| == 2 && r == Denied(500, InternalError)
       else
         var u := calls[1].c.uuid;
         && |calls| == 3 && Inserts(calls[2], u, payload.session.userHandle, made)
         && if InsertRefused(calls[2], u, made) then InsertRefusal(calls[2], made, r)
            else r == Success(Enrolled(u, calls[2].c.uuid))
  }

  ghost predicate InsertRefused(k: Call, u: Uuid, made: LibCredential) {
    !Faultless(k) || IdTaken(k.before.rows, made.id) || u !in k.before.users
  }

  ghost predicate InsertRefusal(k: Call, made: LibCredential, r: Response) {
    r == if Faultless(k) && IdTaken(k.before.rows, made.id) then Denied(409, CredentialConflict)
         else Denied(500, InternalError)
  }

  // ----- sign-in -----

  /** From call i on: the session is minted, a presented guest token dropped, the cookie set. */
  ghost predicate SignInAnswered(calls: seq<Call>, i: nat, u: Uuid, cookie: string, r: Response) {
    && |calls| > i && MintsSession(calls[i], u)
    && if !Faultless(calls[i]) then |calls| == i + 1 && r == Denied(500, InternalError)
       else
         && r == Response(200, Fine, Some(calls[i].c.token), None, Account(u))
         && if cookie == "" then |calls| == i + 1 else |calls| == i + 2 && DropsGuest(calls[i + 1], cookie)
  }

  // ----- promote -----

  ghost predicate PromoteAnswered(req: Request, calls: seq<Call>, r: Response)
    requires req.CompletePromote?
  {
    if req.sid == "" || !req.hasCredential then calls == [] && r == Denied(400, MissingFields)
    else
      && |calls| >= 1
      && if !AttestedAt(calls[0], req.sid, true) then |calls| == 1 && TakeRefused(calls[0], req.sid, true, r)
         else FlipAnswered(calls, calls[0].before.challenges[req.sid].value, calls[0].c.verdict.made, req.cookie, r)
  }

  ghost predicate FlipAnswered(calls: seq<Call>, payload: Payload, made: LibCredential, cookie: string, r: Response) {
    var g := payload.promoteUserId;
    && |calls| >= 2 && MakesRegistered(calls[1], g, payload.username, payload.displayName)
    && if !Faultless(calls[1]) then |calls| == 2 && r == Denied(500, InternalError)
       else if !GuestThere(calls[1].before, g) then |calls| == 2 && r == Denied(409, NotAGuest)
       else if NameTaken(calls[1].before.users, payload.username) then |calls| == 2 && r == Denied(409, NameConflict)
       else if !Convertible(made) then |calls| == 2 && r == Denied(500, InternalError)
       else
         && |calls| >= 3 && Inserts(calls[2], g, payload.session.userHandle, made)
         && if InsertRefused(calls[2], g, made) then |calls| == 3 && InsertRefusal(calls[2], made, r)
            else SignInAnswered(calls, 3, g, cookie, r)
  }

  // ----- login -----

  ghost predicate LoginAnswered(req: Request, calls: seq<Call>, r: Response)
    requires req.CompleteLogin?
  {
    if req.sid == "" || !req.hasCredential then calls == [] && r == Denied(400, MissingFields)
    else
      && |calls| >= 1 && Takes(calls[0], req.sid)
      && if !Faultless(calls[0]) then |calls| == 1 && r == Denied(500, InternalError)
         else if !Outstanding(calls[0].before, req.sid) then |calls| == 1 && r == Denied(401, SessionInvalid)
         else if calls[0].c.verdict.ParseFails? then |calls| == 1 && r == Denied(400, InvalidRequest)
         else if calls[0].c.verdict.Refuses? then |calls| == 1 && r == Denied(401, Unauthorized)
         else if calls[0].c.verdict.BypassesResolver? then |calls| == 1 && r == Denied(500, InternalError)
         else LookupAnswered(req, calls, r)
  }

  ghost predicate LookupAnswered(req: Request, calls: seq<Call>, r: Response)
    requires req.CompleteLogin?
  {
    && |calls| >= 2 && Reads(calls[1])
    && if !Faultless(calls[1]) || !IdTaken(calls[1].before.rows, req.rawId)
       then |calls| == 2 && r == Denied(401, Unauthorized)
       else exists row :: Presented(calls[1].before, req.rawId, row) && AssertionAnswered(req, calls, row, r)
  }

  /** The row was found for its owner u; the library has its say, the row is updated, the owner signed in. */
  ghost predicate AssertionAnswered(req: Request, calls: seq<Call>, row: Uuid, r: Response)
    requires req.CompleteLogin? && |calls| >= 2 && Presented(calls[1].before, req.rawId, row)
  {
    var u := calls[1].before.rows[row].userId;
    && |calls| >= 3 && Reads(calls[2])
    && if !Faultless(calls[2]) || u !in calls[2].before.users || !calls[2].c.verdict.Asserts?
       then |calls| == 3 && r == Denied(401, Unauthorized)
       else
         && |calls| >= 4 && Records(calls[3], row, calls[2].c.verdict.seen)
         && if !Faultless(calls[3]) || !Live(calls[3].before.rows, row)
            then |calls| == 4 && r == Denied(500, InternalError)
            else SignInAnswered(calls, 4, u, req.cookie, r)
  }

  // ----- logout and guest -----

  ghost predicate LogoutAnswered(req: Request, calls: seq<Call>, r: Response)
    requires req.Logout?
  {
    && r == Response(204, Fine, None, None, NoBody)
    && if req.cookie == "" then calls == [] else |calls| == 1 && DropsSession(calls[0], req.cookie)
  }

  /** A guest row is made at call i and a token for it after that. */
  ghost predicate NewGuestAnswered(calls: seq<Call>, i: nat, r: Response) {
    && |calls| > i && MakesGuest(calls[i])
    && if !Faultless(calls[i]) then |calls| == i + 1 && r == Denied(500, InternalError)
       else
         && |calls| == i + 2 && MintsGuest(calls[i + 1], calls[i].c.uuid)
         && r == if !Faultless(calls[i + 1]) then Denied(500, InternalError)
                 else Response(200, Fine, None, Some(calls[i + 1].c.token), Account(calls[i].c.uuid))
  }

  ghost predicate GuestAnswered(req: Request, calls: seq<Call>, r: Response)
    requires req.Guest?
  {
    if req.cookie == "" then NewGuestAnswered(calls, 0, r)
    else
      && |calls| >= 1
      && if GuestMissed(calls[0], req.cookie) then NewGuestAnswered(calls, 1, r)
         else exists u :: GuestFound(calls[0], req.cookie, u) && KnownGuestAnswered(calls, u, r)
  }

  ghost predicate KnownGuestAnswered(calls: seq<Call>, u: Uuid, r: Response) {
    && |calls| >= 2 && Reads(calls[1])
    && if Faultless(calls[1]) && GuestThere(calls[1].before, u) then |calls| == 2 && r == Success(Account(u))
       else NewGuestAnswered(calls, 2, r)
  }

  // ----- behind the session gate -----

  /** The session cookie resolves, at its call, to u. */
  predicate Admitted(k: Call, cookie: string, u: Uuid) {
    Reads(k) && Faultless(k) && Current(k.before.sessions, cookie, k.before.now) && k.before.sessions[cookie].value == u
  }

  predicate Barred(k: Call, cookie: string) {
    Reads(k) && !(Faultless(k) && Current(k.before.sessions, cookie, k.before.now))
  }

  function Rebuff(k: Call): Response {
    if Faultless(k) then Denied(401, Unauthorized) else Denied(500, InternalError)
  }

  ghost predicate MeAnswered(req: Request, calls: seq<Call>, r: Response)
    requires req.Me?
  {
    if req.cookie == "" then calls == [] && r == Denied(401, Unauthorized)
    else
      && |calls| >= 1
      && if Barred(calls[0], req.cookie) then |calls| == 1 && r == Rebuff(calls[0])
         else exists u :: Admitted(calls[0], req.cookie, u) && ProfileAnswered(calls, u, r)
  }

  ghost predicate ProfileAnswered(calls: seq<Call>, u: Uuid, r: Response) {
    && |calls| == 2 && Reads(calls[1])
    && r == if !Faultless(calls[1]) then Denied(500, InternalError)
            else if u !in calls[1].before.users then Denied(401, Unauthorized)
            else Success(Profile(calls[1].before.users[u]))
  }

  ghost predicate ListAnswered(req: Request, calls: seq<Call>, r: Response)
    requires req.ListCredentials?
  {
    if req.cookie == "" then calls == [] && r == Denied(401, Unauthorized)
    else
      && |calls| >= 1
      && if Barred(calls[0], req.cookie) then |calls| == 1 && r == Rebuff(calls[0])
         else exists u :: Admitted(calls[0], req.cookie, u) && ListingAnswered(calls, u, r)
  }

  ghost predicate ListingAnswered(calls: seq<Call>, u: Uuid, r: Response) {
    && |calls| == 2 && Reads(calls[1])
    && if !Faultless(calls[1]) then r == Denied(500, InternalError)
       else r == Success(Passkeys(calls[1].c.list)) && IsListing(calls[1].c.list, calls[1].before.rows, u)
  }

  ghost predicate DeleteAnswered(req: Request, calls: seq<Call>, r: Response)
    requires req.DeleteCredential?
  {
    if req.cookie == "" then calls == [] && r == Denied(401, Unauthorized)
    else
      && |calls| >= 1
      && if Barred(calls[0], req.cookie) then |calls| == 1 && r == Rebuff(calls[0])
         else exists u :: Admitted(calls[0], req.cookie, u) && RemovalAnswered(req, calls, u, r)
  }

  /** The row must be among u's live ones; then lock, count, mark and commit. */
  ghost predicate RemovalAnswered(req: Request, calls: seq<Call>, u: Uuid, r: Response)
    requires req.DeleteCredential?
  {
    if req.row.None? then |calls| == 1 && r == Denied(400, InvalidRequest)
    else
      && |calls| >= 2 && Reads(calls[1])
      && if !Faultless(calls[1]) then |calls| == 2 && r == Denied(500, InternalError)
         else if req.row.value !in LiveOf(calls[1].before.rows, u) then |calls| == 2 && r == Denied(404, NotFound)
         else TransactionAnswered(calls, req.row.value, r)
  }

  ghost predicate TransactionAnswered(calls: seq<Call>, row: Uuid, r: Response) {
    && |calls| >= 3 && Reads(calls[2])
    && if !Faultless(calls[2]) then |calls| == 3 && r == Denied(500, InternalError)
       else if !Live(calls[2].before.rows, row) then |calls| == 3 && r == Denied(404, NotFound)
       else CountAnswered(calls, row, calls[2].before.rows[row].userId, r)
  }

  ghost predicate CountAnswered(calls: seq<Call>, row: Uuid, owner: Uuid, r: Response) {
    && |calls| >= 4 && Reads(calls[3])
    && if !Faultless(calls[3]) then |calls| == 4 && r == Denied(500, InternalError)
       else if |LiveOf(calls[3].before.rows, owner)| <= 1 then |calls| == 4 && r == Denied(409, LastCredentialLeft)
       else
         && |calls| >= 5 && Reads(calls[4])
         && if !Faultless(calls[4]) then |calls| == 5 && r == Denied(500, InternalError)
            else
              && |calls| == 6 && Deletes(calls[5], row)
              && r == if Faultless(calls[5]) then Response(204, Fine, None, None, NoBody)
                      else Denied(500, InternalError)
  }

  /** The table of all handlers. */
  ghost predicate Answers(req: Request, calls: seq<Call>, r: Response) {
    match req
    case BeginRegister(_, _) => BeginRegisterAnswered(req, calls, r)
    case CompleteRegister(_, _) => RegisterAnswered(req, calls, r)
    case BeginLogin => BeginLoginAnswered(calls, r)
    case CompleteLogin(_, _, _, _) => LoginAnswered(req, calls, r)
    case Logout(_) => LogoutAnswered(req, calls, r)
    case Guest(_) => GuestAnswered(req, calls, r)
    case BeginPromote(_, _, _) => BeginPromoteAnswered(req, calls, r)
    case CompletePromote(_, _, _) => PromoteAnswered(req, calls, r)
    case Me(_) => MeAnswered(req, calls, r)
    case ListCredentials(_) => ListAnswered(req, calls, r)
    case DeleteCredential(_, _) => DeleteAnswered(req, calls, r)
    case Malformed => calls == [] && r == Denied(400, InvalidRequest)
  }

  /** Given the calls, the table leaves no choice of answer. */
  lemma AnswerIsDecided(req: Request, calls: seq<Call>, r: Response, r': Response)
    requires Answers(req, calls, r) && Answers(req, calls, r')
    requires forall i :: 0 <= i < |calls| ==> Orderly(calls[i].before)
    ensures r == r'
  {
    hide Takes, Saves, MakesUser, MakesRegistered, MakesGuest, Inserts, Records, Deletes;
    hide MintsSession, MintsGuest, DropsSession, DropsGuest, NameTaken, IsListing;
    if req.CompleteLogin? {
      LoginIsDecided(req, calls, r, r');
    } else {
      hide LoginAnswered;
    }
  }

  lemma LoginIsDecided(req: Request, calls: seq<Call>, r: Response, r': Response)
    requires req.CompleteLogin? && LoginAnswered(req, calls, r) && LoginAnswered(req, calls, r')
    requires forall i :: 0 <= i < |calls| ==> Orderly(calls[i].before)
    ensures r == r'
  {
    hide Takes, Records, MintsSession, DropsGuest, Reads, IdTaken;
  }
}

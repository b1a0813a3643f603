/**
 * The HTTP handlers as methods over their collaborators, proved to be their requests' runs of the
 * machine in the midst of others: w(i) surrounds the i-th store call. On return the request has
 * reached the answer it gives, and each of its calls has left in the stores what the machine says.
 */
module Handlers {
  import opened Domain
  import opened Service
  import opened Conversions
  import opened Environment
  import opened Collaborators
  import opened Anomalies
  import BigEndian
  import Tables

  // ----- converters -----

  /** domainCredentialFromLib. */
  method DomainCredentialFromLib(userId: Uuid, handle: Bytes, cred: LibCredential) returns (r: Result<Credential>)
    ensures r == FromLib(userId, handle, cred)
  {
    var transports: seq<string> := [];
    for i := 0 to |cred.transport|
      invariant transports == cred.transport[..i]
    {
      transports := transports + [cred.transport[i]];
    }
    assert cred.transport[..|cred.transport|] == cred.transport;
    var out := Credential(NIL_UUID, userId, cred.id, cred.publicKey, handle, None, cred.signCount, transports,
                          cred.attestationFormat, cred.attestationType, cred.backupEligible, cred.backupState, None,
                              0, None);
    if |cred.aaguid| > 0 {
      var id := UuidFromBytes(cred.aaguid);
      if id.Err? { return Err(id.error); }
      out := out.(aaguid := Some(id.value));
    }
    r := Ok(out);
  }

  /** libCredentialFromDomain. */
  method LibCredentialFromDomain(c: Credential) returns (out: LibCredential)
    ensures out == ToLib(c)
  {
    out := LibCredential(c.credentialId, c.publicKey, "", "", [], c.backupEligible, c.backupState, [], c.signCount);
    if c.aaguid.Some? {
      out := out.(aaguid := BigEndian.Encode(c.aaguid.value, UUID_LENGTH));
    }
    for i := 0 to |c.transports|
      invariant out == ToLib(c).(transport := c.transports[..i])
    {
      out := out.(transport := out.transport + [c.transports[i]]);
    }
    assert c.transports[..|c.transports|] == c.transports;
  }

  /** The user as the resolver presents it to the library, with the one credential to check against. */
  datatype LibUser = LibUser(handle: Bytes, name: string, displayName: string, credentials: seq<LibCredential>)

  /** The warnings due in the first n steps of a login: those of its assertion, once the update has been tried. */
  ghost function Heard(p: Pid, req: Request, w: nat -> Beat, n: nat): seq<Warning> {
    var pc := PcAfter(p, req, w, 3);
    if n > 3 && pc.RecordAssertion? then Warnings(pc.found, pc.seen) else []
  }

  // ----- /auth -----

  class AuthHandler {
    const deps: Deps
    const logger: Logger

    constructor (deps: Deps, logger: Logger)
      ensures this.deps == deps && this.logger == logger
    {
      this.deps, this.logger := deps, logger;
    }

    method BeginRegister(username: string, displayName: string, w: nat -> Beat, ghost p: Pid)
      returns (r: Response, ghost n: nat)
      requires deps.Accepts(p, Request.BeginRegister(username, displayName), w)
      modifies deps.world, deps.world.pool, deps.world.client
      ensures deps.world.Reached(old(deps.JobFor(p, Request.BeginRegister(username, displayName), w)), n, Answered(r))
    {
      hide Exec, PcAfter, Scheduled, World.Reached, World.Snapshot, World.Valid;
      ghost var j := deps.JobFor(p, Request.BeginRegister(username, displayName), w);
      Started(j, deps.world);
      if username == "" || displayName == "" { return Refuse(400, MissingFields), 0; }
      var found := deps.GetByUsername(username, w(0), j, 0, Lookup);
      if found.Ok? { return Refuse(409, NameConflict), 1; }
      if found != Err(UserNotFound) { return Refuse(500, InternalError), 1; }
      if !w(1).c.mint {
        deps.GiveUp(w(1), j, 1, Pc.Save);
        return Refuse(500, InternalError), 2;
      }
      var payload := Payload(SessionData(w(1).c.handle), username, displayName, NIL_UUID, false);
      var saved := deps.Save(payload, w(1), j, 1, Pc.Save);
      if saved.Err? { return Refuse(500, InternalError), 2; }
      return Reply(SessionId(w(1).c.token)), 2;
    }

    method CompleteRegister(sid: string, hasCredential: bool, w: nat -> Beat, ghost p: Pid)
      returns (r: Response, ghost n: nat)
      requires deps.Accepts(p, Request.CompleteRegister(sid, hasCredential), w)
      modifies deps.world, deps.world.pool, deps.world.client
      ensures deps.world.Reached(old(deps.JobFor(p, Request.CompleteRegister(sid, hasCredential), w)), n, Answered(r))
    {
      hide Exec, PcAfter, Scheduled, World.Reached, World.Snapshot, World.Valid;
      ghost var j := deps.JobFor(p, Request.CompleteRegister(sid, hasCredential), w);
      Started(j, deps.world);
      if sid == "" || !hasCredential { return Refuse(400, MissingFields), 0; }
      var taken := deps.Take(sid, w(0), j, 0, Pc.Take);
      if taken == Err(ChallengeNotFound) { return Refuse(401, SessionInvalid), 1; }
      if taken.Err? { return Refuse(500, InternalError), 1; }
      var stored := taken.value;
      if stored.promote { return Refuse(401, SessionInvalid), 1; }
      if w(0).c.verdict.AttestationRejected? { return Refuse(400, AttestationRefused), 1; }
      if !w(0).c.verdict.Attests? { return Refuse(400, InvalidRequest), 1; }
      r, n := Enrol(stored, w(0).c.verdict.made, w, j);
    }

    /** CompleteRegister once the attestation is verified: the user row is born, then its credential. */
    method Enrol(stored: Payload, made: LibCredential, w: nat -> Beat, ghost j: Job) returns (r: Response, ghost n: nat)
      requires deps.Wired() && Working(j, w) && j.cfg == deps.Cfg() && j.req.CompleteRegister?
      requires deps.world.Reached(j, 1, CreateUser(stored, made))
      modifies deps.world, deps.world.pool, deps.world.client
      ensures deps.world.Reached(j, n, Answered(r))
    {
      hide Exec, PcAfter, Scheduled, World.Reached, World.Snapshot, World.Valid, FromLib;
      var user := deps.CreateRegistered(stored.username, stored.displayName, w(1), j, 1, CreateUser(stored, made));
      if user == Err(UsernameTaken) { return Refuse(409, NameConflict), 2; }
      if user.Err? { return Refuse(500, InternalError), 2; }
      var cred := DomainCredentialFromLib(user.value.id, stored.session.userHandle, made);
      if cred.Err? { return Refuse(500, InternalError), 2; }
      var saved := deps.Insert(cred.value, w(2), j, 2, InsertCredential(user.value, cred.value));
      if saved == Err(CredentialExists) { return Refuse(409, CredentialConflict), 3; }
      if saved.Err? { return Refuse(500, InternalError), 3; }
      return Reply(Enrolled(user.value.id, saved.value.id)), 3;
    }

    method BeginLogin(w: nat -> Beat, ghost p: Pid)
      returns (r: Response, ghost n: nat)
      requires deps.Accepts(p, Request.BeginLogin, w)
      modifies deps.world, deps.world.pool, deps.world.client
      ensures deps.world.Reached(old(deps.JobFor(p, Request.BeginLogin, w)), n, Answered(r))
    {
      hide Exec, PcAfter, Scheduled, World.Reached, World.Snapshot, World.Valid;
      ghost var j := deps.JobFor(p, Request.BeginLogin, w);
      Started(j, deps.world);
      if !w(0).c.mint {
        deps.GiveUp(w(0), j, 0, Pc.Save);
        return Refuse(500, InternalError), 1;
      }
      var saved := deps.Save(LOGIN_PAYLOAD, w(0), j, 0, Pc.Save);
      if saved.Err? { return Refuse(500, InternalError), 1; }
      return Reply(SessionId(w(0).c.token)), 1;
    }

    /** The logger gets the warnings of the assertion whose update is attempted, and no others. */
    method CompleteLogin(sid: string, hasCredential: bool, rawId: Bytes, cookie: string, w: nat -> Beat, ghost p: Pid)
      returns (r: Response, ghost n: nat)
      requires deps.Accepts(p, Request.CompleteLogin(sid, hasCredential, rawId, cookie), w)
      modifies deps.world, deps.world.pool, deps.world.client, logger
      ensures deps.world.Reached(old(deps.JobFor(p, Request.CompleteLogin(sid, hasCredential, rawId, cookie), w)),
                n, Answered(r))
      ensures logger.warnings
                == old(logger.warnings) + Heard(p, Request.CompleteLogin(sid, hasCredential, rawId, cookie), w, n)
    {
      hide Exec, PcAfter, Scheduled, World.Reached, World.Snapshot, World.Valid;
      ghost var j := deps.JobFor(p, Request.CompleteLogin(sid, hasCredential, rawId, cookie), w);
      Started(j, deps.world);
      if sid == "" || !hasCredential { return Refuse(400, MissingFields), 0; }
      var taken := deps.Take(sid, w(0), j, 0, Pc.Take);
      if taken == Err(ChallengeNotFound) { return Refuse(401, SessionInvalid), 1; }
      if taken.Err? { return Refuse(500, InternalError), 1; }
      if w(0).c.verdict.ParseFails? { return Refuse(400, InvalidRequest), 1; }
      if w(0).c.verdict.Refuses? { return Refuse(401, Unauthorized), 1; }
      if w(0).c.verdict.BypassesResolver? { return Refuse(500, InternalError), 1; }
      r, n := Record(rawId, cookie, w, j);
    }

    /** The resolver: the live credential under the presented id, then its owner; the library gets both. */
    method Resolver(rawId: Bytes, w: nat -> Beat, ghost j: Job)
      returns (resolved: Option<(User, Credential, LibUser)>, ghost n: nat)
      requires deps.Wired() && Working(j, w) && j.cfg == deps.Cfg() && j.req.CompleteLogin? && j.req.rawId == rawId
      requires deps.world.Reached(j, 1, Pc.Resolve)
      modifies deps.world, deps.world.pool, deps.world.client
      ensures n <= 3
      ensures resolved.None? ==> deps.world.Reached(j, n, Answered(Refuse(401, Unauthorized)))
      ensures resolved.Some? ==>
                var (user, found, handed), v := resolved.value, w(2).c.verdict;
                && deps.world.Reached(j, 3, if v.Asserts? then RecordAssertion(user, found, v.seen)
                     else Answered(Refuse(401, Unauthorized)))
                && handed == LibUser(found.handle, user.username, user.displayName, [ToLib(found)])
    {
      hide Exec, PcAfter, Scheduled, World.Reached, World.Snapshot, World.Valid;
      var found := deps.GetByCredentialID(rawId, w(1), j, 1, Pc.Resolve);
      if found.Err? { return None, 2; }
      var user := deps.GetByID(found.value.userId, w(2), j, 2, ResolveUser(found.value));
      if user.Err? { return None, 3; }
      var libCred := LibCredentialFromDomain(found.value);
      var handed := LibUser(found.value.handle, user.value.username, user.value.displayName, [libCred]);
      return Some((user.value, found.value, handed)), 3;
    }

    /** CompleteLogin from the resolver on: the library's verdict, the anomaly log, the update, the session. */
    method Record(rawId: Bytes, cookie: string, w: nat -> Beat, ghost j: Job) returns (r: Response, ghost n: nat)
      requires deps.Wired() && Working(j, w) && j.cfg == deps.Cfg() && j.req.CompleteLogin? && j.req.rawId == rawId
                 && j.req.cookie == cookie
      requires deps.world.Reached(j, 1, Pc.Resolve)
      modifies deps.world, deps.world.pool, deps.world.client, logger
      ensures deps.world.Reached(j, n, Answered(r))
      ensures logger.warnings == old(logger.warnings) + Heard(j.p, j.req, w, n)
    {
      hide Exec, PcAfter, Scheduled, World.Reached, World.Snapshot, World.Valid, Warnings;
      var resolved: Option<(User, Credential, LibUser)>;
      resolved, n := Resolver(rawId, w, j);
      if resolved.None? { return Refuse(401, Unauthorized), n; }
      if !w(2).c.verdict.Asserts? { return Refuse(401, Unauthorized), 3; }
      var (user, found, _) := resolved.value; // the third went to the library, which gave its verdict
      var cred := w(2).c.verdict.seen;
      logger.RecordCounterAnomalies(found, cred);
      PointOf(j, deps.world, 3, RecordAssertion(user, found, cred));
      var updated := deps.UpdateAfterAssertion(found.id, cred.signCount, cred.backupEligible, cred.backupState,
                                               w(3), j, 3, RecordAssertion(user, found, cred));
      if updated.Err? { return Refuse(500, InternalError), 4; }
      r, n := SignIn(user, cookie, w, 4, j);
    }

    /** The end of a login or promotion: mint the session, drop the presented guest token, set the cookie. */
    method SignIn(user: User, cookie: string, w: nat -> Beat, k: nat, ghost j: Job) returns (r: Response, ghost n: nat)
      requires deps.Wired() && Working(j, w) && j.cfg == deps.Cfg()
                 && (j.req.CompleteLogin? || j.req.CompletePromote?) && j.req.cookie == cookie
      requires deps.world.Reached(j, k, Pc.MintSession(user))
      modifies deps.world, deps.world.pool, deps.world.client
      ensures n > k && deps.world.Reached(j, n, Answered(r))
    {
      hide Exec, PcAfter, Scheduled, World.Reached, World.Snapshot, World.Valid;
      var token := deps.CreateSession(user.id, w(k), j, k, Pc.MintSession(user));
      if token.Err? { return Refuse(500, InternalError), k + 1; }
      n := k + 1;
      if cookie != "" {
        var dropped := deps.DeleteGuest(cookie, w(k + 1), j, k + 1,
            DropGuest(user, token.value)); // an error is only logged
        n := k + 2;
      }
      r := Response(200, Fine, Some(token.value), None, Account(user.id));
    }

    /** Idempotent: a store error is only logged. */
    method Logout(cookie: string, w: nat -> Beat, ghost p: Pid)
      returns (r: Response, ghost n: nat)
      requires deps.Accepts(p, Request.Logout(cookie), w)
      modifies deps.world, deps.world.pool, deps.world.client
      ensures deps.world.Reached(old(deps.JobFor(p, Request.Logout(cookie), w)), n, Answered(r))
    {
      hide Exec, PcAfter, Scheduled, World.Reached, World.Snapshot, World.Valid;
      ghost var j := deps.JobFor(p, Request.Logout(cookie), w);
      Started(j, deps.world);
      n := 0;
      if cookie != "" {
        var deleted := deps.DeleteSession(cookie, w(0), j, 0, DropSession);
        n := 1;
      }
      r := Response(204, Fine, None, None, NoBody);
    }

    /** A guest cookie that still resolves to a guest is reused; otherwise a new guest is made. */
    method Guest(cookie: string, w: nat -> Beat, ghost p: Pid)
      returns (r: Response, ghost n: nat)
      requires deps.Accepts(p, Request.Guest(cookie), w)
      modifies deps.world, deps.world.pool, deps.world.client
      ensures deps.world.Reached(old(deps.JobFor(p, Request.Guest(cookie), w)), n, Answered(r))
    {
      hide Exec, PcAfter, Scheduled, World.Reached, World.Snapshot, World.Valid;
      ghost var j := deps.JobFor(p, Request.Guest(cookie), w);
      Started(j, deps.world);
      var k := 0;
      if cookie != "" {
        var found := deps.GetGuest(cookie, w(0), j, 0, Pc.FindGuest);
        k := 1;
        if found.Ok? {
          var user := deps.GetByID(found.value, w(1), j, 1, Pc.LoadGuest(found.value));
          if user.Ok? && user.value.isGuest { return Reply(Account(user.value.id)), 2; }
          k := 2;
        }
      }
      r, n := NewGuest(w, k, j);
    }

    method NewGuest(w: nat -> Beat, k: nat, ghost j: Job) returns (r: Response, ghost n: nat)
      requires deps.Wired() && Working(j, w) && j.cfg == deps.Cfg() && j.req.Guest?
      requires deps.world.Reached(j, k, CreateGuestUser)
      modifies deps.world, deps.world.pool, deps.world.client
      ensures deps.world.Reached(j, n, Answered(r))
    {
      hide Exec, PcAfter, Scheduled, World.Reached, World.Snapshot, World.Valid;
      var user := deps.CreateGuest("guest-" + w(k).c.token, "Guest", w(k), j, k, CreateGuestUser);
      if user.Err? { return Refuse(500, InternalError), k + 1; }
      var token := deps.CreateGuestToken(user.value.id, w(k + 1), j, k + 1, MintGuest(user.value));
      if token.Err? { return Refuse(500, InternalError), k + 2; }
      return Response(200, Fine, None, Some(token.value), Account(user.value.id)), k + 2;
    }

    /** resolveGuest: the user row behind the guest cookie; any failure looks the same. */
    method ResolveGuest(cookie: string, w: nat -> Beat, ghost j: Job) returns (user: Option<User>, ghost n: nat)
      requires deps.Wired() && Working(j, w) && j.cfg == deps.Cfg() && j.req.BeginPromote?
                 && j.req.cookie == cookie && j.req.username != "" && j.req.displayName != ""
      requires deps.world.Reached(j, 0, Start(j.req))
      modifies deps.world, deps.world.pool, deps.world.client
      ensures user.None? ==> deps.world.Reached(j, n, Answered(Refuse(401, GuestInvalid)))
      ensures user.Some? ==>
                deps.world.Reached(j, 2, if user.value.isGuest then SavePromotion(user.value.id)
                    else Answered(Refuse(409, NotAGuest)))
    {
      hide Exec, PcAfter, Scheduled, World.Reached, World.Snapshot, World.Valid;
      if cookie == "" { return None, 0; }
      var userId := deps.GetGuest(cookie, w(0), j, 0, Pc.FindGuest);
      if userId.Err? { return None, 1; }
      var found := deps.GetByID(userId.value, w(1), j, 1, Pc.LoadGuest(userId.value));
      user := if found.Ok? then Some(found.value) else None;
      n := 2;
    }

    method BeginPromote(username: string, displayName: string, cookie: string, w: nat -> Beat, ghost p: Pid)
      returns (r: Response, ghost n: nat)
      requires deps.Accepts(p, Request.BeginPromote(username, displayName, cookie), w)
      modifies deps.world, deps.world.pool, deps.world.client
      ensures deps.world.Reached(old(deps.JobFor(p, Request.BeginPromote(username, displayName, cookie), w)), n,
                Answered(r))
    {
      hide Exec, PcAfter, Scheduled, World.Reached, World.Snapshot, World.Valid;
      ghost var j := deps.JobFor(p, Request.BeginPromote(username, displayName, cookie), w);
      Started(j, deps.world);
      if username == "" || displayName == "" { return Refuse(400, MissingFields), 0; }
      var guest: Option<User>;
      guest, n := ResolveGuest(cookie, w, j);
      if guest.None? { return Refuse(401, GuestInvalid), n; }
      if !guest.value.isGuest { return Refuse(409, NotAGuest), 2; }
      if !w(2).c.mint {
        deps.GiveUp(w(2), j, 2, SavePromotion(guest.value.id));
        return Refuse(500, InternalError), 3;
      }
      var payload := Payload(SessionData(w(2).c.handle), username, displayName, guest.value.id, true);
      var saved := deps.Save(payload, w(2), j, 2, SavePromotion(guest.value.id));
      if saved.Err? { return Refuse(500, InternalError), 3; }
      return Reply(SessionId(w(2).c.token)), 3;
    }

    method CompletePromote(sid: string, hasCredential: bool, cookie: string, w: nat -> Beat, ghost p: Pid)
      returns (r: Response, ghost n: nat)
      requires deps.Accepts(p, Request.CompletePromote(sid, hasCredential, cookie), w)
      modifies deps.world, deps.world.pool, deps.world.client
      ensures deps.world.Reached(old(deps.JobFor(p, Request.CompletePromote(sid, hasCredential, cookie), w)), n,
                Answered(r))
    {
      hide Exec, PcAfter, Scheduled, World.Reached, World.Snapshot, World.Valid;
      ghost var j := deps.JobFor(p, Request.CompletePromote(sid, hasCredential, cookie), w);
      Started(j, deps.world);
      if sid == "" || !hasCredential { return Refuse(400, MissingFields), 0; }
      var taken := deps.Take(sid, w(0), j, 0, Pc.Take);
      if taken == Err(ChallengeNotFound) { return Refuse(401, SessionInvalid), 1; }
      if taken.Err? { return Refuse(500, InternalError), 1; }
      var stored := taken.value;
      if !stored.promote { return Refuse(401, SessionInvalid), 1; }
      if w(0).c.verdict.AttestationRejected? { return Refuse(400, AttestationRefused), 1; }
      if !w(0).c.verdict.Attests? { return Refuse(400, InvalidRequest), 1; }
      r, n := Promote(stored, w(0).c.verdict.made, cookie, w, j);
    }

    /** CompletePromote once the attestation is verified: flip the guest row, insert the credential, sign in. */
    method Promote(stored: Payload, made: LibCredential, cookie: string, w: nat -> Beat, ghost j: Job)
      returns (r: Response, ghost n: nat)
      requires deps.Wired() && Working(j, w) && j.cfg == deps.Cfg() && j.req.CompletePromote? && j.req.cookie == cookie
      requires deps.world.Reached(j, 1, PromoteUser(stored, made))
      modifies deps.world, deps.world.pool, deps.world.client
      ensures deps.world.Reached(j, n, Answered(r))
    {
      hide Exec, PcAfter, Scheduled, World.Reached, World.Snapshot, World.Valid, FromLib;
      var promoted := deps.PromoteGuest(stored.promoteUserId, stored.username, stored.displayName, w(1), j, 1,
          PromoteUser(stored, made));
      if promoted == Err(UsernameTaken) { return Refuse(409, NameConflict), 2; }
      if promoted == Err(UserNotFound) { return Refuse(409, NotAGuest), 2; }
      if promoted.Err? { return Refuse(500, InternalError), 2; }
      var cred := DomainCredentialFromLib(promoted.value.id, stored.session.userHandle, made);
      if cred.Err? { return Refuse(500, InternalError), 2; }
      var saved := deps.Insert(cred.value, w(2), j, 2, InsertCredential(promoted.value, cred.value));
      if saved == Err(CredentialExists) { return Refuse(409, CredentialConflict), 3; }
      if saved.Err? { return Refuse(500, InternalError), 3; }
      r, n := SignIn(promoted.value, cookie, w, 3, j);
    }
  }

  // ----- /users/me -----

  predicate Gated(req: Request) {
    req.Me? || req.ListCredentials? || req.DeleteCredential?
  }

  function CookieOf(req: Request): string
    requires Gated(req)
  {
    req.cookie
  }

  /** What GET /users/me/credentials says about a credential: no key, no handle, no counter. */
  datatype Item = Item(
    id: Uuid, name: Option<string>, aaguid: Option<Uuid>, transports: seq<string>,
    backupEligible: bool, backupState: bool, createdAt: nat, lastUsedAt: Option<nat>)

  function ItemOf(c: Credential): Item {
    Item(c.id, c.name, c.aaguid, c.transports, c.backupEligible, c.backupState, c.createdAt, c.lastUsedAt)
  }

  /** An item shows the row's own public fields. */
  lemma ItemShowsRow(row: Row)
    ensures ItemOf(Tables.Scan(row)) == Item(row.id, row.name, row.aaguid, row.transports, row.backupEligible,
                row.backupState, row.createdAt, row.lastUsedAt)
  {
  }

  /** The response list, item by item. */
  method Items(creds: seq<Credential>) returns (out: seq<Item>)
    ensures |out| == |creds| && forall i :: 0 <= i < |out| ==> out[i] == ItemOf(creds[i])
  {
    out := [];
    for i := 0 to |creds|
      invariant |out| == i
      invariant forall j :: 0 <= j < i ==> out[j] == ItemOf(creds[j])
    {
      var c := creds[i];
      var item := Item(c.id, c.name, None, c.transports, c.backupEligible, c.backupState, c.createdAt, c.lastUsedAt);
      if c.aaguid.Some? { item := item.(aaguid := c.aaguid); }
      out := out + [item];
    }
  }

  lemma GateRefuses(req: Request, e: Error)
    ensures AfterGate(req, Failed(e))
              == Answered(if e == SessionNotFound then Refuse(401, Unauthorized) else Refuse(500, InternalError))
  {
  }

  /** The ownership check of the delete handler. */
  method IsAmong(credId: Uuid, owned: seq<Credential>) returns (found: bool)
    ensures found <==> Owned(owned, credId)
  {
    found := false;
    for i := 0 to |owned|
      invariant !found
      invariant forall j :: 0 <= j < i ==> owned[j].id != credId
    {
      if owned[i].id == credId {
        found := true;
        break;
      }
    }
  }

  /** The /users/me handlers behind the session middleware. */
  class UserHandler {
    const deps: Deps

    constructor (deps: Deps)
      ensures this.deps == deps
    {
      this.deps := deps;
    }

    /** The session middleware: the user id goes on to the handler, or the refusal to the client. */
    method RequireSession(cookie: string, w: nat -> Beat, ghost j: Job)
      returns (userId: Option<Uuid>, refusal: Response, ghost n: nat)
      requires deps.Wired() && Working(j, w) && j.cfg == deps.Cfg() && Gated(j.req) && CookieOf(j.req) == cookie
      requires deps.world.Reached(j, 0, Start(j.req))
      modifies deps.world, deps.world.pool, deps.world.client
      ensures userId.None? ==> refusal.status != 200 && deps.world.Reached(j, n, Answered(refusal))
      ensures userId.Some? ==> n == 1 && deps.world.Reached(j, 1, AfterGate(j.req, TheUid(userId.value)))
    {
      hide Exec, PcAfter, Scheduled, World.Reached, World.Snapshot, World.Valid, AfterGate;
      if cookie == "" { return None, Refuse(401, Unauthorized), 0; }
      var found := deps.GetSession(cookie, w(0), j, 0, Gate);
      refusal, n := Refuse(500, InternalError), 1;
      userId := None;
      if found.Ok? { userId := Some(found.value); }
      else {
        GateRefuses(j.req, found.error);
        if found == Err(SessionNotFound) { refusal := Refuse(401, Unauthorized); }
      }
    }

    method Me(cookie: string, w: nat -> Beat, ghost p: Pid)
      returns (r: Response, ghost n: nat)
      requires deps.Accepts(p, Request.Me(cookie), w)
      modifies deps.world, deps.world.pool, deps.world.client
      ensures deps.world.Reached(old(deps.JobFor(p, Request.Me(cookie), w)), n, Answered(r))
    {
      hide Exec, PcAfter, Scheduled, World.Reached, World.Snapshot, World.Valid;
      ghost var j := deps.JobFor(p, Request.Me(cookie), w);
      Started(j, deps.world);
      var userId: Option<Uuid>;
      userId, r, n := RequireSession(cookie, w, j);
      if userId.None? { return; }
      var user := deps.GetByID(userId.value, w(1), j, 1, LoadProfile(userId.value));
      if user == Err(UserNotFound) { return Refuse(401, Unauthorized), 2; }
      if user.Err? { return Refuse(500, InternalError), 2; }
      return Reply(Profile(user.value)), 2;
    }

    method ListCredentials(cookie: string, w: nat -> Beat, ghost p: Pid)
      returns (r: Response, out: seq<Item>, ghost n: nat)
      requires deps.Accepts(p, Request.ListCredentials(cookie), w)
      modifies deps.world, deps.world.pool, deps.world.client
      ensures deps.world.Reached(old(deps.JobFor(p, Request.ListCredentials(cookie), w)), n, Answered(r))
      ensures r.status == 200 ==>
                r.body.Passkeys? && |out| == |r.body.list| && forall i :: 0 <= i < |out| ==>
                    out[i] == ItemOf(r.body.list[i])
    {
      hide Exec, PcAfter, Scheduled, World.Reached, World.Snapshot, World.Valid;
      ghost var j := deps.JobFor(p, Request.ListCredentials(cookie), w);
      Started(j, deps.world);
      out := [];
      var userId: Option<Uuid>;
      userId, r, n := RequireSession(cookie, w, j);
      if userId.None? { return; }
      var creds := deps.ListByUserID(userId.value, w(1), j, 1, ListPasskeys(userId.value));
      n := 2;
      if creds.Err? { r := Refuse(500, InternalError); return; }
      out := Items(creds.value);
      r := Reply(Passkeys(creds.value));
    }

    /** row is the id in the path, None when it does not parse. */
    method DeleteCredential(cookie: string, row: Option<Uuid>, w: nat -> Beat, p: Pid)
      returns (r: Response, ghost n: nat)
      requires deps.Accepts(p, Request.DeleteCredential(cookie, row), w)
      modifies deps.world, deps.world.pool, deps.world.client
      ensures deps.world.Reached(old(deps.JobFor(p, Request.DeleteCredential(cookie, row), w)), n, Answered(r))
    {
      hide Exec, PcAfter, Scheduled, World.Reached, World.Snapshot, World.Valid;
      ghost var j := deps.JobFor(p, Request.DeleteCredential(cookie, row), w);
      Started(j, deps.world);
      var userId: Option<Uuid>;
      userId, r, n := RequireSession(cookie, w, j);
      if userId.None? { return; }
      if row.None? { return Refuse(400, InvalidRequest), 1; }
      var credId := row.value;
      var owned := deps.ListByUserID(userId.value, w(1), j, 1, FindPasskey(userId.value, credId));
      if owned.Err? { return Refuse(500, InternalError), 2; }
      var found := IsAmong(credId, owned.value);
      if !found { return Refuse(404, NotFound), 2; }
      var deleted: Result<()>;
      deleted, n := deps.credentials.SoftDelete(credId, deps.world, w, 2, p, userId.value, j);
      if deleted == Err(LastCredential) { r := Refuse(409, LastCredentialLeft); return; }
      if deleted == Err(CredentialNotFound) { r := Refuse(404, NotFound); return; }
      if deleted.Err? { r := Refuse(500, InternalError); return; }
      r := Response(204, Fine, None, None, NoBody);
    }
  }
}

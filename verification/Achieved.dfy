/** The machine's way from a request to its answer, call by call, achieves what Outcomes says. */
module Achieved {
  import opened Domain
  import opened Tables
  import opened Service
  import opened Conversions
  import opened Calls
  import opened Outcomes

  // ----- a request's way from its start -----

  /** The call takes the request from pc to pc'. */
  ghost predicate Moves(p: Pid, req: Request, pc: Pc, k: Call, pc': Pc) {
    && !pc.Answered? && Orderly(k.before)
    && (pc.ListPasskeys? || pc.FindPasskey? ==> IsListing(k.c.list, k.before.rows, pc.uid))
    && var (d, a) := Exec(k.before, p, Plan(req, pc, k.c), k.c);
    k.after == d && pc' == Resume(req, pc, a, k.c)
  }

  /** The calls lead from the start of the request through the points to its answer. */
  ghost predicate Way(p: Pid, req: Request, calls: seq<Call>, pcs: seq<Pc>) {
    && |pcs| == |calls| + 1 && pcs[0] == Start(req) && pcs[|calls|].Answered?
    && forall i :: 0 <= i < |calls| ==> Moves(p, req, pcs[i], calls[i], pcs[i + 1])
  }

  /** At a point of the way that is no answer there is a next call. */
  lemma Next(p: Pid, req: Request, calls: seq<Call>, pcs: seq<Pc>, i: nat)
    requires Way(p, req, calls, pcs) && i <= |calls|
    ensures |pcs| == |calls| + 1
    ensures if pcs[i].Answered? then i == |calls| else i < |calls| && Moves(p, req, pcs[i], calls[i], pcs[i + 1])
  {
    hide Moves;
    if i < |calls| {
      assert Moves(p, req, pcs[i], calls[i], pcs[i + 1]);
      StillUnanswered(p, req, pcs[i], calls[i], pcs[i + 1]);
    }
  }

  lemma StillUnanswered(p: Pid, req: Request, pc: Pc, k: Call, pc': Pc)
    requires Moves(p, req, pc, k, pc')
    ensures !pc.Answered?
  {
    hide Exec, Resume, Plan;
  }

  // ----- begin -----

  lemma SaveMeets(p: Pid, req: Request, k: Call, pc: Pc, pc': Pc, payload: Payload)
    requires Moves(p, req, pc, k, pc') && (req.BeginRegister? || req.BeginLogin? || req.BeginPromote?)
    requires pc.Save? || pc.SavePromotion?
    requires k.c.mint ==> Plan(req, pc, k.c) == OnKeys(SaveChallenge(payload))
    requires !k.c.mint ==> Plan(req, pc, k.c) == Skip
    ensures pc'.Answered? && SaveAnswered(k, payload, pc'.r)
  {
    if k.c.mint {
      SaveDone(k.before, p, payload, k.c);
    } else {
      SkipDone(k.before, p, k.c);
    }
    hide Exec, Plan, Saves;
  }

  lemma BeginRegisterMeets(p: Pid, req: Request, calls: seq<Call>, pcs: seq<Pc>)
    requires Way(p, req, calls, pcs) && req.BeginRegister?
    ensures BeginRegisterAnswered(req, calls, pcs[|calls|].r)
  {
    Next(p, req, calls, pcs, 0);
    if req.username != "" && req.displayName != "" {
      var k := calls[0];
      LookupDone(k.before, p, req.username, k.c);
      Next(p, req, calls, pcs, 1);
      if !pcs[1].Answered? {
        SaveMeets(p, req, calls[1], pcs[1], pcs[2], RegisterOffer(req, calls[1].c.handle));
        Next(p, req, calls, pcs, 2);
      }
    }
    hide Exec, Way, SaveAnswered;
  }

  lemma BeginLoginMeets(p: Pid, req: Request, calls: seq<Call>, pcs: seq<Pc>)
    requires Way(p, req, calls, pcs) && req.BeginLogin?
    ensures BeginLoginAnswered(calls, pcs[|calls|].r)
  {
    Next(p, req, calls, pcs, 0);
    SaveMeets(p, req, calls[0], pcs[0], pcs[1], Payload(SessionData([]), "", "", NIL_UUID, false));
    Next(p, req, calls, pcs, 1);
    hide Exec, Way, SaveAnswered;
  }

  lemma LoadPoint(p: Pid, req: Request, k: Call, u: Uuid, pc': Pc)
    requires Moves(p, req, LoadGuest(u), k, pc') && req.BeginPromote?
    ensures Reads(k)
    ensures pc' == if !Faultless(k) || u !in k.before.users then Answered(Denied(401, GuestInvalid))
                   else if !k.before.users[u].isGuest then Answered(Denied(409, NotAGuest))
                   else SavePromotion(u)
  {
    GetUserDone(k.before, p, u, k.c);
    hide Exec, Reads;
  }

  lemma OfferPlan(req: Request, u: Uuid, c: Choice)
    requires req.BeginPromote?
    ensures Plan(req, SavePromotion(u), c)
              == if c.mint then OnKeys(SaveChallenge(PromoteOffer(req, c.handle, u))) else Skip
  {
  }

  lemma GuestPromoteMeets(p: Pid, req: Request, calls: seq<Call>, pcs: seq<Pc>, u: Uuid)
    requires Way(p, req, calls, pcs) && req.BeginPromote?
    requires |calls| >= 1 && pcs[1] == LoadGuest(u)
    ensures GuestPromoteAnswered(req, calls, u, pcs[|calls|].r)
  {
    hide Moves, Way, Plan, SaveAnswered, Reads;
    Next(p, req, calls, pcs, 1);
    LoadPoint(p, req, calls[1], u, pcs[2]);
    Next(p, req, calls, pcs, 2);
    if !pcs[2].Answered? {
      OfferPlan(req, u, calls[2].c);
      SaveMeets(p, req, calls[2], pcs[2], pcs[3], PromoteOffer(req, calls[2].c.handle, u));
      Next(p, req, calls, pcs, 3);
    }
  }

  lemma BeginPromoteMeets(p: Pid, req: Request, calls: seq<Call>, pcs: seq<Pc>)
    requires Way(p, req, calls, pcs) && req.BeginPromote?
    ensures BeginPromoteAnswered(req, calls, pcs[|calls|].r)
  {
    Next(p, req, calls, pcs, 0);
    if req.username != "" && req.displayName != "" && req.cookie != "" {
      var k := calls[0];
      FindGuestDone(k.before, p, req.cookie, k.c);
      Next(p, req, calls, pcs, 1);
      if !pcs[1].Answered? {
        GuestPromoteMeets(p, req, calls, pcs, pcs[1].uid);
        assert GuestFound(k, req.cookie, pcs[1].uid);
      }
    }
    hide Exec, Way, GuestPromoteAnswered;
  }

  // ----- the completions that enrol -----

  lemma TakeMeets(p: Pid, req: Request, k: Call, pc': Pc, promote: bool)
    requires Moves(p, req, Take, k, pc')
    requires if promote then req.CompletePromote? else req.CompleteRegister?
    ensures if AttestedAt(k, req.sid, promote)
            then var payload, made := k.before.challenges[req.sid].value, k.c.verdict.made;
                 pc' == if promote then PromoteUser(payload, made) else CreateUser(payload, made)
            else pc'.Answered? && TakeRefused(k, req.sid, promote, pc'.r)
  {
    TakeDone(k.before, p, req.sid, k.c);
    hide Exec, Takes;
  }

  /** The conversion keeps every field, and refuses exactly an AAGUID that is neither absent nor sixteen bytes. */
  lemma ConversionMeets(u: Uuid, handle: Bytes, made: LibCredential, id: Uuid, now: nat)
    ensures FromLib(u, handle, made).Ok? <==> Convertible(made)
    ensures FromLib(u, handle, made).Ok? ==>
              NewRow(FromLib(u, handle, made).value, id, now) == AttestedRow(id, u, handle, made, now)
  {
    assert made.aaguid == [] <==> |made.aaguid| == 0;
  }

  lemma UserMeets(payload: Payload, made: LibCredential, user: User)
    ensures var pc := AfterUser(payload, made, TheUser(user));
            if Convertible(made) then
              && pc.InsertCredential? && pc.user == user
              && forall id, now :: NewRow(pc.cred, id, now)
                   == AttestedRow(id, user.id, payload.session.userHandle, made, now)
            else pc == Answered(Denied(500, InternalError))
  {
    ConversionMeets(user.id, payload.session.userHandle, made, 0, 0);
    if Convertible(made) {
      var pc := AfterUser(payload, made, TheUser(user));
      forall id, now ensures NewRow(pc.cred, id, now)
          == AttestedRow(id, user.id, payload.session.userHandle, made, now) {
        ConversionMeets(user.id, payload.session.userHandle, made, id, now);
      }
    }
    hide FromLib, AttestedRow;
  }

  lemma InsertMeets(p: Pid, req: Request, k: Call, pc: Pc, pc': Pc, u: Uuid, handle: Bytes, made: LibCredential)
    requires Moves(p, req, pc, k, pc') && pc.InsertCredential? && (req.CompleteRegister? || req.CompletePromote?)
    requires forall id, now :: NewRow(pc.cred, id, now) == AttestedRow(id, u, handle, made, now)
    ensures Inserts(k, u, handle, made)
    ensures InsertRefused(k, u, made) ==> pc'.Answered? && InsertRefusal(k, made, pc'.r)
    ensures !InsertRefused(k, u, made) ==>
              pc' == if req.CompletePromote? then MintSession(pc.user)
                     else Answered(Success(Enrolled(pc.user.id, k.c.uuid)))
  {
    InsertDone(k.before, p, pc.cred, u, handle, made, k.c);
    hide Exec, AttestedRow, NewRow, Inserts;
  }

  /** The program point after a user is made: the insert of the attested credential, or an error. */
  ghost predicate Enrols(pc: Pc, u: Uuid, payload: Payload, made: LibCredential) {
    if Convertible(made) then
      && pc.InsertCredential? && pc.user.id == u
      && forall id, now :: NewRow(pc.cred, id, now) == AttestedRow(id, u, payload.session.userHandle, made, now)
    else pc == Answered(Denied(500, InternalError))
  }

  lemma CreatePoint(p: Pid, req: Request, k: Call, payload: Payload, made: LibCredential, pc': Pc)
    requires Moves(p, req, CreateUser(payload, made), k, pc') && req.CompleteRegister?
    ensures MakesUser(k, payload.username, payload.displayName)
    ensures if !Faultless(k) then pc' == Answered(Denied(500, InternalError))
            else if NameTaken(k.before.users, payload.username) then pc' == Answered(Denied(409, NameConflict))
            else Enrols(pc', k.c.uuid, payload, made)
  {
    CreateUserDone(k.before, p, payload.username, payload.displayName, k.c);
    UserMeets(payload, made, User(k.c.uuid, payload.username, payload.displayName, false, k.before.now, None));
    hide Exec, FromLib, MakesUser, NameTaken, AttestedRow, NewRow;
  }

  lemma EnrolMeets(p: Pid, req: Request, calls: seq<Call>, pcs: seq<Pc>, payload: Payload, made: LibCredential)
    requires Way(p, req, calls, pcs) && req.CompleteRegister? && |calls| >= 1 && pcs[1] == CreateUser(payload, made)
    ensures EnrolAnswered(calls, payload, made, pcs[|calls|].r)
  {
    hide Moves, Way, MakesUser, NameTaken, Inserts, InsertRefused, InsertRefusal, AttestedRow, NewRow;
    Next(p, req, calls, pcs, 1);
    CreatePoint(p, req, calls[1], payload, made, pcs[2]);
    Next(p, req, calls, pcs, 2);
    if !pcs[2].Answered? {
      InsertMeets(p, req, calls[2], pcs[2], pcs[3], calls[1].c.uuid, payload.session.userHandle, made);
      Next(p, req, calls, pcs, 3);
    }
  }

  lemma RegisterMeets(p: Pid, req: Request, calls: seq<Call>, pcs: seq<Pc>)
    requires Way(p, req, calls, pcs) && req.CompleteRegister?
    ensures RegisterAnswered(req, calls, pcs[|calls|].r)
  {
    Next(p, req, calls, pcs, 0);
    if req.sid != "" && req.hasCredential {
      TakeMeets(p, req, calls[0], pcs[1], false);
      Next(p, req, calls, pcs, 1);
      if !pcs[1].Answered? {
        EnrolMeets(p, req, calls, pcs, calls[0].before.challenges[req.sid].value, calls[0].c.verdict.made);
      }
    }
    hide Moves, Way, EnrolAnswered, TakeRefused;
  }

  // ----- sign-in -----

  lemma MintPoint(p: Pid, req: Request, k: Call, user: User, pc': Pc)
    requires Moves(p, req, MintSession(user), k, pc') && (req.CompleteLogin? || req.CompletePromote?)
    ensures MintsSession(k, user.id)
    ensures pc' == if !Faultless(k) then Answered(Denied(500, InternalError))
                   else if req.cookie != "" then DropGuest(user, k.c.token)
                   else Answered(Response(200, Fine, Some(k.c.token), None, Account(user.id)))
  {
    SessionDone(k.before, p, user.id, k.c);
    hide Exec, MintsSession;
  }

  lemma DropPoint(p: Pid, req: Request, k: Call, user: User, token: string, pc': Pc)
    requires Moves(p, req, DropGuest(user, token), k, pc') && (req.CompleteLogin? || req.CompletePromote?)
    ensures DropsGuest(k, req.cookie)
    ensures pc' == Answered(Response(200, Fine, Some(token), None, Account(user.id)))
  {
    DropGuestDone(k.before, p, req.cookie, k.c);
    hide Exec, DropsGuest;
  }

  lemma SignInMeets(p: Pid, req: Request, calls: seq<Call>, pcs: seq<Pc>, i: nat, user: User)
    requires Way(p, req, calls, pcs) && (req.CompleteLogin? || req.CompletePromote?)
    requires i <= |calls| && pcs[i] == MintSession(user)
    ensures SignInAnswered(calls, i, user.id, req.cookie, pcs[|calls|].r)
  {
    hide Moves, Way, MintsSession, DropsGuest;
    Next(p, req, calls, pcs, i);
    MintPoint(p, req, calls[i], user, pcs[i + 1]);
    Next(p, req, calls, pcs, i + 1);
    if !pcs[i + 1].Answered? {
      DropPoint(p, req, calls[i + 1], user, calls[i].c.token, pcs[i + 2]);
      Next(p, req, calls, pcs, i + 2);
    }
  }

  lemma FlipPoint(p: Pid, req: Request, k: Call, payload: Payload, made: LibCredential, pc': Pc)
    requires Moves(p, req, PromoteUser(payload, made), k, pc') && req.CompletePromote?
    ensures MakesRegistered(k, payload.promoteUserId, payload.username, payload.displayName)
    ensures if !Faultless(k) then pc' == Answered(Denied(500, InternalError))
            else if !GuestThere(k.before, payload.promoteUserId) then pc' == Answered(Denied(409, NotAGuest))
            else if NameTaken(k.before.users, payload.username) then pc' == Answered(Denied(409, NameConflict))
            else Enrols(pc', payload.promoteUserId, payload, made)
  {
    var g := payload.promoteUserId;
    PromoteUserDone(k.before, p, g, payload.username, payload.displayName, k.c);
    var a := Exec(k.before, p, OnUsers(PromoteGuest(g, payload.username, payload.displayName)), k.c).1;
    if a.TheUser? {
      UserMeets(payload, made, a.user);
    }
    hide Exec, FromLib, MakesRegistered, NameTaken, GuestThere, AttestedRow, NewRow;
  }

  lemma FlipMeets(p: Pid, req: Request, calls: seq<Call>, pcs: seq<Pc>, payload: Payload, made: LibCredential)
    requires Way(p, req, calls, pcs) && req.CompletePromote? && |calls| >= 1 && pcs[1] == PromoteUser(payload, made)
    ensures FlipAnswered(calls, payload, made, req.cookie, pcs[|calls|].r)
  {
    hide Moves, Way, MakesRegistered, NameTaken, GuestThere, Inserts, InsertRefused, InsertRefusal, AttestedRow;
    hide NewRow, SignInAnswered;
    var g := payload.promoteUserId;
    Next(p, req, calls, pcs, 1);
    FlipPoint(p, req, calls[1], payload, made, pcs[2]);
    Next(p, req, calls, pcs, 2);
    if !pcs[2].Answered? {
      InsertMeets(p, req, calls[2], pcs[2], pcs[3], g, payload.session.userHandle, made);
      Next(p, req, calls, pcs, 3);
      if !pcs[3].Answered? {
        SignInMeets(p, req, calls, pcs, 3, pcs[2].user);
      }
    }
  }

  lemma PromoteMeets(p: Pid, req: Request, calls: seq<Call>, pcs: seq<Pc>)
    requires Way(p, req, calls, pcs) && req.CompletePromote?
    ensures PromoteAnswered(req, calls, pcs[|calls|].r)
  {
    Next(p, req, calls, pcs, 0);
    if req.sid != "" && req.hasCredential {
      TakeMeets(p, req, calls[0], pcs[1], true);
      Next(p, req, calls, pcs, 1);
      if !pcs[1].Answered? {
        FlipMeets(p, req, calls, pcs, calls[0].before.challenges[req.sid].value, calls[0].c.verdict.made);
      }
    }
    hide Moves, Way, FlipAnswered, TakeRefused;
  }

  // ----- login -----

  lemma OwnerMeets(p: Pid, req: Request, k: Call, found: Credential, pc': Pc)
    requires Moves(p, req, ResolveUser(found), k, pc') && req.CompleteLogin?
    ensures Reads(k)
    ensures if !Faultless(k) || found.userId !in k.before.users || !k.c.verdict.Asserts?
            then pc' == Answered(Denied(401, Unauthorized))
            else pc' == RecordAssertion(k.before.users[found.userId], found, k.c.verdict.seen)
                   && k.before.users[found.userId].id == found.userId
  {
    GetUserDone(k.before, p, found.userId, k.c);
    hide Exec, Reads;
  }

  lemma UpdateMeets(p: Pid, req: Request, k: Call, user: User, found: Credential, seen: LibCredential, pc': Pc)
    requires Moves(p, req, RecordAssertion(user, found, seen), k, pc') && req.CompleteLogin?
    ensures Records(k, found.id, seen)
    ensures pc' == if !Faultless(k) || !Live(k.before.rows, found.id) then Answered(Denied(500, InternalError))
                   else MintSession(user)
  {
    RecordDone(k.before, p, found.id, seen, k.c);
    hide Exec, Records, Live;
  }

  lemma RecordMeets(p: Pid, req: Request, calls: seq<Call>, pcs: seq<Pc>, row: Uuid)
    requires Way(p, req, calls, pcs) && req.CompleteLogin?
    requires |calls| >= 2 && Presented(calls[1].before, req.rawId, row)
    requires pcs[2].ResolveUser? && pcs[2].found.id == row
    requires pcs[2].found.userId == calls[1].before.rows[row].userId
    ensures AssertionAnswered(req, calls, row, pcs[|calls|].r)
  {
    hide Moves, Way, Records, SignInAnswered, Live, Reads;
    Next(p, req, calls, pcs, 2);
    OwnerMeets(p, req, calls[2], pcs[2].found, pcs[3]);
    Next(p, req, calls, pcs, 3);
    if !pcs[3].Answered? {
      UpdateMeets(p, req, calls[3], pcs[3].user, pcs[2].found, pcs[3].seen, pcs[4]);
      Next(p, req, calls, pcs, 4);
      if !pcs[4].Answered? {
        SignInMeets(p, req, calls, pcs, 4, pcs[3].user);
      }
    }
  }

  lemma ResolveMeets(p: Pid, req: Request, k: Call, pc': Pc)
    requires Moves(p, req, Pc.Resolve, k, pc') && req.CompleteLogin?
    ensures Reads(k)
    ensures if !Faultless(k) || !IdTaken(k.before.rows, req.rawId) then pc' == Answered(Denied(401, Unauthorized))
            else pc'.ResolveUser? && Presented(k.before, req.rawId, pc'.found.id)
                   && pc'.found.userId == k.before.rows[pc'.found.id].userId
  {
    ResolveDone(k.before, p, req.rawId, k.c);
    hide Exec, Reads, IdTaken;
  }

  lemma LookupMeets(p: Pid, req: Request, calls: seq<Call>, pcs: seq<Pc>)
    requires Way(p, req, calls, pcs) && req.CompleteLogin? && |calls| >= 1 && pcs[1] == Pc.Resolve
    ensures LookupAnswered(req, calls, pcs[|calls|].r)
  {
    hide Moves, Way, AssertionAnswered, IdTaken, Reads;
    Next(p, req, calls, pcs, 1);
    ResolveMeets(p, req, calls[1], pcs[2]);
    Next(p, req, calls, pcs, 2);
    if !pcs[2].Answered? {
      RecordMeets(p, req, calls, pcs, pcs[2].found.id);
    }
  }

  lemma LoginTakeMeets(p: Pid, req: Request, k: Call, pc': Pc)
    requires Moves(p, req, Take, k, pc') && req.CompleteLogin?
    ensures Takes(k, req.sid)
    ensures pc' == if !Faultless(k) then Answered(Denied(500, InternalError))
                   else if !Outstanding(k.before, req.sid) then Answered(Denied(401, SessionInvalid))
                   else if k.c.verdict.ParseFails? then Answered(Denied(400, InvalidRequest))
                   else if k.c.verdict.Refuses? then Answered(Denied(401, Unauthorized))
                   else if k.c.verdict.BypassesResolver? then Answered(Denied(500, InternalError))
                   else Pc.Resolve
  {
    TakeDone(k.before, p, req.sid, k.c);
    hide Exec, Takes;
  }

  lemma LoginMeets(p: Pid, req: Request, calls: seq<Call>, pcs: seq<Pc>)
    requires Way(p, req, calls, pcs) && req.CompleteLogin?
    ensures LoginAnswered(req, calls, pcs[|calls|].r)
  {
    hide Moves, LookupAnswered, Takes, Outstanding;
    Next(p, req, calls, pcs, 0);
    if req.sid != "" && req.hasCredential {
      LoginTakeMeets(p, req, calls[0], pcs[1]);
      Next(p, req, calls, pcs, 1);
      if !pcs[1].Answered? {
        LookupMeets(p, req, calls, pcs);
      }
    }
    hide Way;
  }

  // ----- logout and guest -----

  lemma LogoutMeets(p: Pid, req: Request, calls: seq<Call>, pcs: seq<Pc>)
    requires Way(p, req, calls, pcs) && req.Logout?
    ensures LogoutAnswered(req, calls, pcs[|calls|].r)
  {
    Next(p, req, calls, pcs, 0);
    if req.cookie != "" {
      LogoutDone(calls[0].before, p, req.cookie, calls[0].c);
      Next(p, req, calls, pcs, 1);
    }
    hide Exec, Way;
  }

  lemma NewGuestPoint(p: Pid, req: Request, k: Call, pc': Pc)
    requires Moves(p, req, CreateGuestUser, k, pc') && req.Guest?
    ensures MakesGuest(k)
    ensures if Faultless(k) then pc'.MintGuest? && pc'.user.id == k.c.uuid
            else pc' == Answered(Denied(500, InternalError))
  {
    GuestUserDone(k.before, p, k.c);
    hide Exec, MakesGuest;
  }

  lemma GuestTokenPoint(p: Pid, req: Request, k: Call, user: User, pc': Pc)
    requires Moves(p, req, MintGuest(user), k, pc') && req.Guest?
    ensures MintsGuest(k, user.id)
    ensures pc' == Answered(if Faultless(k) then Response(200, Fine, None, Some(k.c.token), Account(user.id))
                            else Denied(500, InternalError))
  {
    GuestTokenDone(k.before, p, user.id, k.c);
    hide Exec, MintsGuest;
  }

  lemma NewGuestMeets(p: Pid, req: Request, calls: seq<Call>, pcs: seq<Pc>, i: nat)
    requires Way(p, req, calls, pcs) && req.Guest? && i <= |calls| && pcs[i] == CreateGuestUser
    ensures NewGuestAnswered(calls, i, pcs[|calls|].r)
  {
    hide Moves, Way, MakesGuest, MintsGuest;
    Next(p, req, calls, pcs, i);
    NewGuestPoint(p, req, calls[i], pcs[i + 1]);
    Next(p, req, calls, pcs, i + 1);
    if !pcs[i + 1].Answered? {
      GuestTokenPoint(p, req, calls[i + 1], pcs[i + 1].user, pcs[i + 2]);
      Next(p, req, calls, pcs, i + 2);
    }
  }

  lemma KnownGuestMeets(p: Pid, req: Request, calls: seq<Call>, pcs: seq<Pc>, u: Uuid)
    requires Way(p, req, calls, pcs) && req.Guest? && |calls| >= 1 && pcs[1] == LoadGuest(u)
    ensures KnownGuestAnswered(calls, u, pcs[|calls|].r)
  {
    Next(p, req, calls, pcs, 1);
    GetUserDone(calls[1].before, p, u, calls[1].c);
    Next(p, req, calls, pcs, 2);
    if !pcs[2].Answered? {
      NewGuestMeets(p, req, calls, pcs, 2);
    }
    hide Exec, Way, NewGuestAnswered;
  }

  lemma GuestMeets(p: Pid, req: Request, calls: seq<Call>, pcs: seq<Pc>)
    requires Way(p, req, calls, pcs) && req.Guest?
    ensures GuestAnswered(req, calls, pcs[|calls|].r)
  {
    if req.cookie == "" {
      NewGuestMeets(p, req, calls, pcs, 0);
    } else {
      Next(p, req, calls, pcs, 0);
      FindGuestDone(calls[0].before, p, req.cookie, calls[0].c);
      if pcs[1].LoadGuest? {
        KnownGuestMeets(p, req, calls, pcs, pcs[1].uid);
        assert GuestFound(calls[0], req.cookie, pcs[1].uid);
      } else {
        NewGuestMeets(p, req, calls, pcs, 1);
      }
    }
    hide Exec, Way, NewGuestAnswered, KnownGuestAnswered;
  }

  // ----- behind the session gate -----

  lemma GateMeets(p: Pid, req: Request, k: Call, pc': Pc)
    requires Moves(p, req, Gate, k, pc') && (req.Me? || req.ListCredentials? || req.DeleteCredential?)
    ensures Barred(k, req.cookie) || Admitted(k, req.cookie, k.before.sessions[req.cookie].value)
    ensures Barred(k, req.cookie) ==> pc' == Answered(Rebuff(k))
    ensures !Barred(k, req.cookie) ==>
              var u := k.before.sessions[req.cookie].value;
              pc' == if req.Me? then LoadProfile(u)
                     else if req.ListCredentials? then ListPasskeys(u)
                     else if req.row.Some? then FindPasskey(u, req.row.value)
                     else Answered(Denied(400, InvalidRequest))
  {
    GateDone(k.before, p, req.cookie, k.c);
    hide Exec;
  }

  lemma ProfilePoint(p: Pid, req: Request, k: Call, u: Uuid, pc': Pc)
    requires Moves(p, req, LoadProfile(u), k, pc') && req.Me?
    ensures Reads(k)
    ensures pc' == Answered(if !Faultless(k) then Denied(500, InternalError)
                            else if u !in k.before.users then Denied(401, Unauthorized)
                            else Success(Profile(k.before.users[u])))
  {
    GetUserDone(k.before, p, u, k.c);
    hide Exec, Reads;
  }

  lemma MeMeets(p: Pid, req: Request, calls: seq<Call>, pcs: seq<Pc>)
    requires Way(p, req, calls, pcs) && req.Me?
    ensures MeAnswered(req, calls, pcs[|calls|].r)
  {
    hide Moves, Admitted, Reads;
    Next(p, req, calls, pcs, 0);
    if req.cookie != "" {
      GateMeets(p, req, calls[0], pcs[1]);
      Next(p, req, calls, pcs, 1);
      if !pcs[1].Answered? {
        ProfilePoint(p, req, calls[1], pcs[1].uid, pcs[2]);
        Next(p, req, calls, pcs, 2);
        assert ProfileAnswered(calls, pcs[1].uid, pcs[|calls|].r);
      }
    }
    hide Way;
  }

  lemma ListPoint(p: Pid, req: Request, k: Call, u: Uuid, pc': Pc)
    requires Moves(p, req, ListPasskeys(u), k, pc') && req.ListCredentials?
    ensures Reads(k) && IsListing(k.c.list, k.before.rows, u)
    ensures pc' == Answered(if Faultless(k) then Success(Passkeys(k.c.list)) else Denied(500, InternalError))
  {
    ListDone(k.before, p, u, k.c);
    hide Exec, Reads, IsListing;
  }

  lemma ListMeets(p: Pid, req: Request, calls: seq<Call>, pcs: seq<Pc>)
    requires Way(p, req, calls, pcs) && req.ListCredentials?
    ensures ListAnswered(req, calls, pcs[|calls|].r)
  {
    hide Moves, Admitted, IsListing, Reads;
    Next(p, req, calls, pcs, 0);
    if req.cookie != "" {
      GateMeets(p, req, calls[0], pcs[1]);
      Next(p, req, calls, pcs, 1);
      if !pcs[1].Answered? {
        ListPoint(p, req, calls[1], pcs[1].uid, pcs[2]);
        Next(p, req, calls, pcs, 2);
        assert ListingAnswered(calls, pcs[1].uid, pcs[|calls|].r);
      }
    }
    hide Way;
  }

  lemma CountPoint(p: Pid, req: Request, k: Call, uid: Uuid, row: Uuid, owner: Uuid, pc': Pc)
    requires Moves(p, req, CountLive(uid, row, owner), k, pc') && req.DeleteCredential?
    ensures Reads(k)
    ensures pc' == if !Faultless(k) then Answered(Denied(500, InternalError))
                   else if |LiveOf(k.before.rows, owner)| <= 1 then Answered(Denied(409, LastCredentialLeft))
                   else MarkRow(uid, row, owner)
  {
    CountDone(k.before, p, row, owner, k.c);
    hide Exec, Reads, LiveOf;
  }

  lemma MarkPoint(p: Pid, req: Request, k: Call, uid: Uuid, row: Uuid, owner: Uuid, pc': Pc)
    requires Moves(p, req, MarkRow(uid, row, owner), k, pc') && req.DeleteCredential?
    ensures Reads(k)
    ensures pc' == if Faultless(k) then CommitRow(uid, row, owner) else Answered(Denied(500, InternalError))
  {
    MarkDone(k.before, p, row, k.c);
    hide Exec, Reads;
  }

  lemma CommitPoint(p: Pid, req: Request, k: Call, uid: Uuid, row: Uuid, owner: Uuid, pc': Pc)
    requires Moves(p, req, CommitRow(uid, row, owner), k, pc') && req.DeleteCredential?
    ensures Deletes(k, row)
    ensures pc' == Answered(if Faultless(k) then Response(204, Fine, None, None, NoBody)
                            else Denied(500, InternalError))
  {
    CommitDone(k.before, p, row, k.c);
    hide Exec, Deletes;
  }

  lemma CountMeets(p: Pid, req: Request, calls: seq<Call>, pcs: seq<Pc>, uid: Uuid, row: Uuid, owner: Uuid)
    requires Way(p, req, calls, pcs) && req.DeleteCredential? && |calls| >= 3 && pcs[3] == CountLive(uid, row, owner)
    ensures CountAnswered(calls, row, owner, pcs[|calls|].r)
  {
    hide Moves, Way, LiveOf, Deletes, Reads;
    Next(p, req, calls, pcs, 3);
    CountPoint(p, req, calls[3], uid, row, owner, pcs[4]);
    Next(p, req, calls, pcs, 4);
    if !pcs[4].Answered? {
      MarkPoint(p, req, calls[4], uid, row, owner, pcs[5]);
      Next(p, req, calls, pcs, 5);
      if !pcs[5].Answered? {
        CommitPoint(p, req, calls[5], uid, row, owner, pcs[6]);
        Next(p, req, calls, pcs, 6);
      }
    }
  }

  lemma LockPoint(p: Pid, req: Request, k: Call, uid: Uuid, row: Uuid, pc': Pc)
    requires Moves(p, req, LockRow(uid, row), k, pc') && req.DeleteCredential?
    ensures Reads(k)
    ensures pc' == if !Faultless(k) then Answered(Denied(500, InternalError))
                   else if !Live(k.before.rows, row) then Answered(Denied(404, NotFound))
                   else CountLive(uid, row, k.before.rows[row].userId)
  {
    LockDone(k.before, p, row, k.c);
    hide Exec, Reads;
  }

  lemma TransactionMeets(p: Pid, req: Request, calls: seq<Call>, pcs: seq<Pc>, uid: Uuid, row: Uuid)
    requires Way(p, req, calls, pcs) && req.DeleteCredential? && |calls| >= 2 && pcs[2] == LockRow(uid, row)
    ensures TransactionAnswered(calls, row, pcs[|calls|].r)
  {
    hide Moves, Way, CountAnswered, Reads;
    Next(p, req, calls, pcs, 2);
    LockPoint(p, req, calls[2], uid, row, pcs[3]);
    Next(p, req, calls, pcs, 3);
    if !pcs[3].Answered? {
      CountMeets(p, req, calls, pcs, uid, row, pcs[3].owner);
    }
  }

  lemma OwnedIsLive(list: seq<Credential>, rows: Rows, u: Uuid, row: Uuid)
    requires IsListing(list, rows, u)
    ensures Owned(list, row) <==> row in LiveOf(rows, u)
  {
  }

  lemma FindPoint(p: Pid, req: Request, k: Call, u: Uuid, row: Uuid, pc': Pc)
    requires Moves(p, req, FindPasskey(u, row), k, pc') && req.DeleteCredential?
    ensures Reads(k)
    ensures pc' == if !Faultless(k) then Answered(Denied(500, InternalError))
                   else if row !in LiveOf(k.before.rows, u) then Answered(Denied(404, NotFound))
                   else LockRow(u, row)
  {
    ListDone(k.before, p, u, k.c);
    OwnedIsLive(k.c.list, k.before.rows, u, row);
    hide Exec, Reads, LiveOf, Owned, IsListing;
  }

  lemma RemovalMeets(p: Pid, req: Request, calls: seq<Call>, pcs: seq<Pc>, u: Uuid)
    requires Way(p, req, calls, pcs) && req.DeleteCredential? && |calls| >= 1 && req.row.Some?
    requires pcs[1] == FindPasskey(u, req.row.value)
    ensures RemovalAnswered(req, calls, u, pcs[|calls|].r)
  {
    hide Moves, Way, LiveOf, Reads, TransactionAnswered;
    Next(p, req, calls, pcs, 1);
    FindPoint(p, req, calls[1], u, req.row.value, pcs[2]);
    Next(p, req, calls, pcs, 2);
    if !pcs[2].Answered? {
      TransactionMeets(p, req, calls, pcs, u, req.row.value);
    }
  }

  lemma DeleteMeets(p: Pid, req: Request, calls: seq<Call>, pcs: seq<Pc>)
    requires Way(p, req, calls, pcs) && req.DeleteCredential?
    ensures DeleteAnswered(req, calls, pcs[|calls|].r)
  {
    Next(p, req, calls, pcs, 0);
    if req.cookie != "" {
      GateMeets(p, req, calls[0], pcs[1]);
      Next(p, req, calls, pcs, 1);
      if !pcs[1].Answered? {
        RemovalMeets(p, req, calls, pcs, pcs[1].uid);
      }
    }
    hide Moves, Way, Admitted;
  }

  /** Any way from the start of a request to an answer is one the table lists. */
  lemma WayMeets(p: Pid, req: Request, calls: seq<Call>, pcs: seq<Pc>)
    requires Way(p, req, calls, pcs)
    ensures Answers(req, calls, pcs[|calls|].r)
  {
    hide BeginRegisterAnswered, BeginLoginAnswered, BeginPromoteAnswered, RegisterAnswered, PromoteAnswered;
    hide LoginAnswered, LogoutAnswered, GuestAnswered, MeAnswered, ListAnswered, DeleteAnswered;
    match req {
      case BeginRegister(_, _) => BeginRegisterMeets(p, req, calls, pcs);
      case CompleteRegister(_, _) => RegisterMeets(p, req, calls, pcs);
      case BeginLogin => BeginLoginMeets(p, req, calls, pcs);
      case CompleteLogin(_, _, _, _) => LoginMeets(p, req, calls, pcs);
      case Logout(_) => LogoutMeets(p, req, calls, pcs);
      case Guest(_) => GuestMeets(p, req, calls, pcs);
      case BeginPromote(_, _, _) => BeginPromoteMeets(p, req, calls, pcs);
      case CompletePromote(_, _, _) => PromoteMeets(p, req, calls, pcs);
      case Me(_) => MeMeets(p, req, calls, pcs);
      case ListCredentials(_) => ListMeets(p, req, calls, pcs);
      case DeleteCredential(_, _) => DeleteMeets(p, req, calls, pcs);
      case Malformed => Next(p, req, calls, pcs, 0);
    }
    hide Way;
  }
}

/** One step of a request takes it from one admissible program point and trace to the next. */
module Progress {
  import opened Domain
  import opened Tables
  import opened Service
  import opened History
  import opened Invariant

  // ----- what a store call can answer, and what it records -----

  /** Nothing recorded and no success; or f recorded, and success answered unless the call was torn. */
  ghost predicate Recorded(f: Fact, success: bool, a: Answer, fs: seq<Fact>, c: Choice) {
    || (fs == [] && !success)
    || (fs == [f] && (success || (c.fault.Ambiguous? && a == Failed(StoreFailure))))
  }

  ghost predicate UserOutcome(p: Pid, op: UserOp, c: Choice, a: Answer, fs: seq<Fact>) {
    match op
    case GetByUsername(_) => fs == []
    case GetById(id) => fs == [] && (a.TheUser? ==> a.user.id == id)
    case CreateGuest(name, _) =>
      && Recorded(Born(p, c.uuid, true, name), a.TheUser? && a.user.id == c.uuid, a, fs, c)
      && (a.TheUser? ==> fs != [])
    case CreateRegistered(name, _) =>
      && Recorded(Born(p, c.uuid, false, name), a.TheUser? && a.user.id == c.uuid, a, fs, c)
      && (a.TheUser? ==> fs != [])
    case PromoteGuest(id, name, _) =>
      && Recorded(Promoted(p, id, name), a.TheUser? && a.user.id == id, a, fs, c)
      && (a.TheUser? ==> fs != [])
  }

  ghost predicate RowOutcome(rows: Rows, p: Pid, op: RowOp, c: Choice, a: Answer, fs: seq<Fact>) {
    match op
    case Insert(cred) =>
      && Recorded(Inserted(p, c.uuid, cred.userId, cred.credentialId), a.TheCredential?
           && a.cred.id == c.uuid, a, fs, c)
      && (a.TheCredential? ==> fs != [])
    case UpdateAfterAssertion(row, _, _, _) =>
      || (fs == [] && a != Done)
      || (row in rows && Recorded(Asserted(p, row, rows[row].userId, rows[row].credentialId), a == Done, a, fs, c))
    case _ => fs == []
  }

  ghost predicate TxOutcome(rows: Rows, p: Pid, op: TxOp, c: Choice, a: Answer, fs: seq<Fact>) {
    if op.Commit? then
      op.row in rows ==> Recorded(Deleted(p, op.row, rows[op.row].userId), a == Done, a, fs, c)
    else fs == []
  }

  ghost predicate KeyOutcome(p: Pid, op: KeyOp, c: Choice, a: Answer, fs: seq<Fact>) {
    match op
    case SaveChallenge(payload) => Recorded(Saved(p, c.token, payload), a == Done, a, fs, c)
    case TakeChallenge(sid) =>
      || (fs == [] && !a.ThePayload?)
      || (|fs| == 1 && fs[0].Took? && Recorded(Took(p, sid, fs[0].payload), a == ThePayload(fs[0].payload), a, fs, c))
    case CreateSession(uid) =>
      && Recorded(Minted(p, c.token, uid), a == TheToken(c.token), a, fs, c)
      && (a.TheToken? ==> fs != [])
    case CreateGuestToken(uid) =>
      && Recorded(GuestMinted(p, c.token, uid), a == TheToken(c.token), a, fs, c)
      && (a.TheToken? ==> fs != [])
    case _ => fs == []
  }

  ghost predicate Outcome(rows: Rows, p: Pid, op: Op, c: Choice, a: Answer, fs: seq<Fact>) {
    match op
    case Skip => fs == []
    case OnUsers(u) => UserOutcome(p, u, c, a, fs)
    case OnRows(r) => RowOutcome(rows, p, r, c, a, fs)
    case InTx(t) => TxOutcome(rows, p, t, c, a, fs)
    case OnKeys(k) => KeyOutcome(p, k, c, a, fs)
  }

  lemma UserOutcomes(d: Data, p: Pid, op: UserOp, c: Choice)
    requires UsersTable(d.users)
    ensures UserOutcome(p, op, c, Exec(d, p, OnUsers(op), c).1, News(d, p, OnUsers(op), c))
  {
    match op {
      case GetByUsername(_) =>
      case GetById(_) =>
      case CreateGuest(_, _) =>
      case CreateRegistered(_, _) =>
      case PromoteGuest(_, _, _) =>
    }
  }

  lemma RowOutcomes(d: Data, p: Pid, op: RowOp, c: Choice)
    ensures RowOutcome(d.rows, p, op, c, Exec(d, p, OnRows(op), c).1, News(d, p, OnRows(op), c))
  {
    match op {
      case Insert(_) =>
      case GetByCredentialId(_) =>
      case ListByUserId(_) =>
      case UpdateAfterAssertion(_, _, _, _) =>
    }
  }

  lemma TxOutcomes(d: Data, p: Pid, op: TxOp, c: Choice)
    ensures TxOutcome(d.rows, p, op, c, Exec(d, p, InTx(op), c).1, News(d, p, InTx(op), c))
  {
    match op {
      case Lock(_) =>
      case Count(_, _) =>
      case Mark(_) =>
      case Commit(_) =>
    }
  }

  lemma KeyOutcomes(d: Data, p: Pid, op: KeyOp, c: Choice)
    ensures KeyOutcome(p, op, c, Exec(d, p, OnKeys(op), c).1, News(d, p, OnKeys(op), c))
  {
    match op {
      case SaveChallenge(_) =>
      case TakeChallenge(_) =>
      case CreateSession(_) =>
      case GetSession(_) =>
      case DeleteSession(_) =>
      case CreateGuestToken(_) =>
      case GetGuest(_) =>
      case DeleteGuest(_) =>
    }
  }

  lemma Outcomes(d: Data, p: Pid, op: Op, c: Choice)
    requires UsersTable(d.users)
    ensures Outcome(d.rows, p, op, c, Exec(d, p, op, c).1, News(d, p, op, c))
  {
    match op {
      case Skip =>
      case OnUsers(u) => UserOutcomes(d, p, u, c);
      case OnRows(r) => RowOutcomes(d, p, r, c);
      case InTx(t) => TxOutcomes(d, p, t, c);
      case OnKeys(k) => KeyOutcomes(d, p, k, c);
    }
  }

  // ----- handler by handler -----

  /** After a store call with outcome (a, fs) the request again has an admissible trace and program point. */
  ghost predicate Advances(req: Request, pc: Pc, c: Choice, a: Answer, fs: seq<Fact>, tr: seq<Fact>, torn: bool) {
    Shape(req, tr + fs) && At(req, Resume(req, pc, a, c), tr + fs, torn || c.fault.Ambiguous?)
  }

  lemma SaveAdvances(p: Pid, req: Request, pc: Pc, c: Choice, a: Answer, fs: seq<Fact>, torn: bool)
    requires (pc.Save? && (req.BeginRegister? || req.BeginLogin?)) || (pc.SavePromotion? && req.BeginPromote?)
    requires req.BeginRegister? ==> req.username != ""
    requires if c.mint then Plan(req, pc, c).OnKeys? && KeyOutcome(p, Plan(req, pc, c).k, c, a, fs) else fs == []
    ensures ShapeBegin(req, fs) && AtBegin(req, AfterBegin(pc, req, a, c), fs, torn || c.fault.Ambiguous?)
  {
  }

  lemma BeginAdvances(rows: Rows, p: Pid, req: Request, pc: Pc, c: Choice, a: Answer, fs: seq<Fact>, tr: seq<Fact>,
          torn: bool)
    requires req.BeginRegister? || req.BeginLogin? || req.BeginPromote?
    requires ShapeBegin(req, tr) && AtBegin(req, pc, tr, torn) && !pc.Answered?
    requires Outcome(rows, p, Plan(req, pc, c), c, a, fs)
    ensures ShapeBegin(req, tr + fs) && AtBegin(req, AfterBegin(pc, req, a, c), tr + fs, torn || c.fault.Ambiguous?)
  {
    assert tr + fs == fs;
    if pc.Save? || pc.SavePromotion? {
      SaveAdvances(p, req, pc, c, a, fs, torn);
    }
  }

  lemma RegisterTakes(p: Pid, req: Request, c: Choice, a: Answer, fs: seq<Fact>, tr: seq<Fact>, torn: bool)
    requires req.CompleteRegister?
    requires ShapeRegister(req.sid, tr) && AtRegister(req.sid, Take, tr, torn)
    requires KeyOutcome(p, TakeChallenge(req.sid), c, a, fs)
    ensures ShapeRegister(req.sid, tr + fs)
    ensures AtRegister(req.sid, AfterRegister(Take, a, c), tr + fs, torn || c.fault.Ambiguous?)
  {
  }

  lemma RegisterCreates(p: Pid, req: Request, payload: Payload, made: LibCredential, c: Choice, a: Answer,
          fs: seq<Fact>, tr: seq<Fact>, torn: bool)
    requires req.CompleteRegister?
    requires ShapeRegister(req.sid, tr) && AtRegister(req.sid, CreateUser(payload, made), tr, torn)
    requires UserOutcome(p, CreateRegistered(payload.username, payload.displayName), c, a, fs)
    ensures ShapeRegister(req.sid, tr + fs)
    ensures AtRegister(req.sid, AfterRegister(CreateUser(payload, made), a, c), tr + fs, torn || c.fault.Ambiguous?)
  {
  }

  lemma RegisterInserts(p: Pid, req: Request, rows: Rows, user: User, cred: Credential, c: Choice, a: Answer,
          fs: seq<Fact>, tr: seq<Fact>, torn: bool)
    requires req.CompleteRegister?
    requires ShapeRegister(req.sid, tr) && AtRegister(req.sid, InsertCredential(user, cred), tr, torn)
    requires RowOutcome(rows, p, Insert(cred), c, a, fs)
    ensures ShapeRegister(req.sid, tr + fs)
    ensures AtRegister(req.sid, AfterRegister(InsertCredential(user, cred), a, c), tr + fs, torn || c.fault.Ambiguous?)
  {
  }

  lemma RegisterAdvances(rows: Rows, p: Pid, req: Request, pc: Pc, c: Choice, a: Answer, fs: seq<Fact>,
          tr: seq<Fact>, torn: bool)
    requires req.CompleteRegister?
    requires ShapeRegister(req.sid, tr) && AtRegister(req.sid, pc, tr, torn) && !pc.Answered?
    requires Outcome(rows, p, Plan(req, pc, c), c, a, fs)
    ensures ShapeRegister(req.sid, tr + fs)
    ensures AtRegister(req.sid, AfterRegister(pc, a, c), tr + fs, torn || c.fault.Ambiguous?)
  {
    match pc {
      case Take => RegisterTakes(p, req, c, a, fs, tr, torn);
      case CreateUser(payload, made) => RegisterCreates(p, req, payload, made, c, a, fs, tr, torn);
      case InsertCredential(user, cred) => RegisterInserts(p, req, rows, user, cred, c, a, fs, tr, torn);
    }
  }

  lemma LoginTakes(p: Pid, req: Request, c: Choice, a: Answer, fs: seq<Fact>, tr: seq<Fact>, torn: bool)
    requires req.CompleteLogin?
    requires ShapeLogin(req.sid, req.rawId, tr) && AtLogin(req.sid, req.rawId, Take, tr, torn)
    requires KeyOutcome(p, TakeChallenge(req.sid), c, a, fs)
    ensures ShapeLogin(req.sid, req.rawId, tr + fs)
    ensures AtLogin(req.sid, req.rawId, AfterLogin(Take, req, a, c), tr + fs, torn || c.fault.Ambiguous?)
  {
  }

  lemma LoginResolves(p: Pid, req: Request, c: Choice, a: Answer, fs: seq<Fact>, tr: seq<Fact>, torn: bool)
    requires req.CompleteLogin?
    requires ShapeLogin(req.sid, req.rawId, tr) && AtLogin(req.sid, req.rawId, Resolve, tr, torn)
    requires fs == []
    ensures ShapeLogin(req.sid, req.rawId, tr + fs)
    ensures AtLogin(req.sid, req.rawId, AfterLogin(Resolve, req, a, c), tr + fs, torn || c.fault.Ambiguous?)
  {
  }

  lemma LoginResolvesUser(p: Pid, req: Request, found: Credential, c: Choice, a: Answer, fs: seq<Fact>,
          tr: seq<Fact>, torn: bool)
    requires req.CompleteLogin?
    requires ShapeLogin(req.sid, req.rawId, tr) && AtLogin(req.sid, req.rawId, ResolveUser(found), tr, torn)
    requires fs == []
    ensures ShapeLogin(req.sid, req.rawId, tr + fs)
    ensures AtLogin(req.sid, req.rawId, AfterLogin(ResolveUser(found), req, a, c), tr + fs, torn || c.fault.Ambiguous?)
  {
  }

  lemma LoginRecords(p: Pid, req: Request, rows: Rows, user: User, found: Credential, seen: LibCredential, c: Choice,
          a: Answer, fs: seq<Fact>, tr: seq<Fact>, torn: bool)
    requires req.CompleteLogin?
    requires ShapeLogin(req.sid, req.rawId, tr)
               && AtLogin(req.sid, req.rawId, RecordAssertion(user, found, seen), tr, torn)
    requires Points(rows, found, req.rawId) && user.id == found.userId
    requires RowOutcome(rows, p,
               UpdateAfterAssertion(found.id, seen.signCount, seen.backupEligible, seen.backupState), c, a, fs)
    ensures ShapeLogin(req.sid, req.rawId, tr + fs)
    ensures AtLogin(req.sid, req.rawId, AfterLogin(RecordAssertion(user, found, seen), req, a, c), tr + fs, torn
              || c.fault.Ambiguous?)
  {
  }

  lemma LoginMints(p: Pid, req: Request, user: User, c: Choice, a: Answer, fs: seq<Fact>, tr: seq<Fact>, torn: bool)
    requires req.CompleteLogin?
    requires ShapeLogin(req.sid, req.rawId, tr) && AtLogin(req.sid, req.rawId, MintSession(user), tr, torn)
    requires KeyOutcome(p, CreateSession(user.id), c, a, fs)
    ensures ShapeLogin(req.sid, req.rawId, tr + fs)
    ensures AtLogin(req.sid, req.rawId, AfterLogin(MintSession(user), req, a, c), tr + fs, torn || c.fault.Ambiguous?)
  {
  }

  lemma LoginDrops(p: Pid, req: Request, user: User, token: string, c: Choice, a: Answer, fs: seq<Fact>,
          tr: seq<Fact>, torn: bool)
    requires req.CompleteLogin?
    requires ShapeLogin(req.sid, req.rawId, tr) && AtLogin(req.sid, req.rawId, DropGuest(user, token), tr, torn)
    requires fs == []
    ensures ShapeLogin(req.sid, req.rawId, tr + fs)
    ensures AtLogin(req.sid, req.rawId, AfterLogin(DropGuest(user, token), req, a, c), tr + fs, torn
              || c.fault.Ambiguous?)
  {
  }

  lemma LoginAdvances(rows: Rows, p: Pid, req: Request, pc: Pc, c: Choice, a: Answer, fs: seq<Fact>, tr: seq<Fact>,
          torn: bool)
    requires req.CompleteLogin?
    requires ShapeLogin(req.sid, req.rawId, tr) && AtLogin(req.sid, req.rawId, pc, tr, torn) && !pc.Answered?
    requires pc.RecordAssertion? ==> Points(rows, pc.found, req.rawId) && pc.user.id == pc.found.userId
    requires Outcome(rows, p, Plan(req, pc, c), c, a, fs)
    ensures ShapeLogin(req.sid, req.rawId, tr + fs)
    ensures AtLogin(req.sid, req.rawId, AfterLogin(pc, req, a, c), tr + fs, torn || c.fault.Ambiguous?)
  {
    match pc {
      case Take => LoginTakes(p, req, c, a, fs, tr, torn);
      case Resolve => LoginResolves(p, req, c, a, fs, tr, torn);
      case ResolveUser(found) => LoginResolvesUser(p, req, found, c, a, fs, tr, torn);
      case RecordAssertion(user, found, seen) => LoginRecords(p, req, rows, user, found, seen, c, a, fs, tr, torn);
      case MintSession(user) => LoginMints(p, req, user, c, a, fs, tr, torn);
      case DropGuest(user, token) => LoginDrops(p, req, user, token, c, a, fs, tr, torn);
    }
  }

  lemma PromoteTakes(p: Pid, req: Request, c: Choice, a: Answer, fs: seq<Fact>, tr: seq<Fact>, torn: bool)
    requires req.CompletePromote?
    requires ShapePromote(req.sid, tr) && AtPromote(req.sid, Take, tr, torn)
    requires KeyOutcome(p, TakeChallenge(req.sid), c, a, fs)
    ensures ShapePromote(req.sid, tr + fs)
    ensures AtPromote(req.sid, AfterPromote(Take, req, a, c), tr + fs, torn || c.fault.Ambiguous?)
  {
  }

  lemma PromotePromotes(p: Pid, req: Request, payload: Payload, made: LibCredential, c: Choice, a: Answer,
          fs: seq<Fact>, tr: seq<Fact>, torn: bool)
    requires req.CompletePromote?
    requires ShapePromote(req.sid, tr) && AtPromote(req.sid, PromoteUser(payload, made), tr, torn)
    requires UserOutcome(p, PromoteGuest(payload.promoteUserId, payload.username, payload.displayName), c, a, fs)
    ensures ShapePromote(req.sid, tr + fs)
    ensures AtPromote(req.sid, AfterPromote(PromoteUser(payload, made), req, a, c), tr + fs, torn || c.fault.Ambiguous?)
  {
  }

  lemma PromoteInserts(p: Pid, req: Request, rows: Rows, user: User, cred: Credential, c: Choice, a: Answer,
          fs: seq<Fact>, tr: seq<Fact>, torn: bool)
    requires req.CompletePromote?
    requires ShapePromote(req.sid, tr) && AtPromote(req.sid, InsertCredential(user, cred), tr, torn)
    requires RowOutcome(rows, p, Insert(cred), c, a, fs)
    ensures ShapePromote(req.sid, tr + fs)
    ensures AtPromote(req.sid, AfterPromote(InsertCredential(user, cred), req, a, c), tr + fs, torn
              || c.fault.Ambiguous?)
  {
  }

  lemma PromoteMints(p: Pid, req: Request, user: User, c: Choice, a: Answer, fs: seq<Fact>, tr: seq<Fact>, torn: bool)
    requires req.CompletePromote?
    requires ShapePromote(req.sid, tr) && AtPromote(req.sid, MintSession(user), tr, torn)
    requires KeyOutcome(p, CreateSession(user.id), c, a, fs)
    ensures ShapePromote(req.sid, tr + fs)
    ensures AtPromote(req.sid, AfterPromote(MintSession(user), req, a, c), tr + fs, torn || c.fault.Ambiguous?)
  {
  }

  lemma PromoteDrops(p: Pid, req: Request, user: User, token: string, c: Choice, a: Answer, fs: seq<Fact>,
          tr: seq<Fact>, torn: bool)
    requires req.CompletePromote?
    requires ShapePromote(req.sid, tr) && AtPromote(req.sid, DropGuest(user, token), tr, torn)
    requires fs == []
    ensures ShapePromote(req.sid, tr + fs)
    ensures AtPromote(req.sid, AfterPromote(DropGuest(user, token), req, a, c), tr + fs, torn || c.fault.Ambiguous?)
  {
  }

  lemma PromoteAdvances(rows: Rows, p: Pid, req: Request, pc: Pc, c: Choice, a: Answer, fs: seq<Fact>,
          tr: seq<Fact>, torn: bool)
    requires req.CompletePromote?
    requires ShapePromote(req.sid, tr) && AtPromote(req.sid, pc, tr, torn) && !pc.Answered?
    requires Outcome(rows, p, Plan(req, pc, c), c, a, fs)
    ensures ShapePromote(req.sid, tr + fs)
    ensures AtPromote(req.sid, AfterPromote(pc, req, a, c), tr + fs, torn || c.fault.Ambiguous?)
  {
    match pc {
      case Take => PromoteTakes(p, req, c, a, fs, tr, torn);
      case PromoteUser(payload, made) => PromotePromotes(p, req, payload, made, c, a, fs, tr, torn);
      case InsertCredential(user, cred) => PromoteInserts(p, req, rows, user, cred, c, a, fs, tr, torn);
      case MintSession(user) => PromoteMints(p, req, user, c, a, fs, tr, torn);
      case DropGuest(user, token) => PromoteDrops(p, req, user, token, c, a, fs, tr, torn);
    }
  }

  lemma GuestAdvances(rows: Rows, p: Pid, req: Request, pc: Pc, c: Choice, a: Answer, fs: seq<Fact>, tr: seq<Fact>,
          torn: bool)
    requires req.Guest?
    requires ShapeGuest(tr) && AtGuest(pc, tr, torn) && !pc.Answered?
    requires Outcome(rows, p, Plan(req, pc, c), c, a, fs)
    ensures ShapeGuest(tr + fs) && AtGuest(AfterGuest(pc, a), tr + fs, torn || c.fault.Ambiguous?)
  {
    match pc {
      case FindGuest =>
      case LoadGuest(_) =>
      case CreateGuestUser =>
      case MintGuest(_) =>
    }
  }

  lemma DeleteCommits(rows: Rows, p: Pid, req: Request, uid: Uuid, row: Uuid, owner: Uuid, c: Choice, a: Answer,
          fs: seq<Fact>, torn: bool)
    requires req.DeleteCredential? && req.row == Some(row) && row in rows
    requires TxOutcome(rows, p, Commit(row), c, a, fs)
    ensures ShapeDelete(req.row, fs)
              && AtDelete(AfterAccount(CommitRow(uid, row, owner), req, a), fs, torn || c.fault.Ambiguous?)
  {
  }

  lemma DeleteReads(req: Request, pc: Pc, c: Choice, a: Answer, torn: bool)
    requires req.DeleteCredential? && AtDelete(pc, [], torn) && !pc.Answered? && !pc.CommitRow?
    ensures AtDelete(AfterAccount(pc, req, a), [], torn || c.fault.Ambiguous?)
  {
    match pc {
      case Gate =>
      case FindPasskey(_, _) =>
      case LockRow(_, _) =>
      case CountLive(_, _, _) =>
      case MarkRow(_, _, _) =>
    }
  }

  lemma DeleteAdvances(rows: Rows, p: Pid, req: Request, pc: Pc, c: Choice, a: Answer, fs: seq<Fact>,
          tr: seq<Fact>, torn: bool)
    requires req.DeleteCredential?
    requires ShapeDelete(req.row, tr) && AtDelete(pc, tr, torn) && !pc.Answered?
    requires LocalsOk(rows, req, pc)
    requires Outcome(rows, p, Plan(req, pc, c), c, a, fs)
    ensures ShapeDelete(req.row, tr + fs) && AtDelete(AfterAccount(pc, req, a), tr + fs, torn || c.fault.Ambiguous?)
  {
    assert tr + fs == fs;
    if pc.CommitRow? {
      DeleteCommits(rows, p, req, pc.uid, pc.row, pc.owner, c, a, fs, torn);
    } else {
      assert fs == [];
      DeleteReads(req, pc, c, a, torn);
    }
  }

  lemma ReadAdvances(rows: Rows, p: Pid, req: Request, pc: Pc, c: Choice, a: Answer, fs: seq<Fact>, tr: seq<Fact>,
          torn: bool)
    requires req.Me? || req.ListCredentials? || req.Logout? || req.Malformed?
    requires tr == [] && AtRead(req, pc) && !pc.Answered?
    requires Outcome(rows, p, Plan(req, pc, c), c, a, fs)
    ensures tr + fs == [] && AtRead(req, Resume(req, pc, a, c))
  {
    match pc {
      case Gate =>
      case LoadProfile(_) =>
      case ListPasskeys(_) =>
      case DropSession =>
    }
  }

  /** The two program points whose locals must still match the tables for the step to be recorded right. */
  ghost predicate LocalsOk(rows: Rows, req: Request, pc: Pc) {
    && (pc.RecordAssertion? && req.CompleteLogin? ==>
         Points(rows, pc.found, req.rawId) && pc.user.id == pc.found.userId)
    && (pc.CommitRow? && req.DeleteCredential? ==> req.row == Some(pc.row) && pc.row in rows)
  }

  lemma CompletionAdvances(rows: Rows, p: Pid, req: Request, pc: Pc, c: Choice, a: Answer, fs: seq<Fact>,
          tr: seq<Fact>, torn: bool)
    requires Completes(req)
    requires Shape(req, tr) && At(req, pc, tr, torn) && !pc.Answered?
    requires LocalsOk(rows, req, pc)
    requires Outcome(rows, p, Plan(req, pc, c), c, a, fs)
    ensures Advances(req, pc, c, a, fs, tr, torn)
  {
    hide Outcome, Plan, AtRegister, AtLogin, AtPromote;
    hide ShapeRegister, ShapeLogin, ShapePromote;
    hide AfterRegister, AfterLogin, AfterPromote;
    match req {
      case CompleteRegister(_, _) => RegisterAdvances(rows, p, req, pc, c, a, fs, tr, torn);
      case CompleteLogin(_, _, _, _) => LoginAdvances(rows, p, req, pc, c, a, fs, tr, torn);
      case CompletePromote(_, _, _) => PromoteAdvances(rows, p, req, pc, c, a, fs, tr, torn);
    }
  }

  lemma OtherAdvances(rows: Rows, p: Pid, req: Request, pc: Pc, c: Choice, a: Answer, fs: seq<Fact>, tr: seq<Fact>,
          torn: bool)
    requires !Completes(req)
    requires Shape(req, tr) && At(req, pc, tr, torn) && !pc.Answered?
    requires LocalsOk(rows, req, pc)
    requires Outcome(rows, p, Plan(req, pc, c), c, a, fs)
    ensures Advances(req, pc, c, a, fs, tr, torn)
  {
    hide Outcome, Plan, AtBegin, AtGuest, AtDelete, AtRead;
    hide ShapeBegin, ShapeGuest, ShapeDelete;
    hide AfterBegin, AfterGuest, AfterAccount;
    match req {
      case BeginRegister(_, _) => BeginAdvances(rows, p, req, pc, c, a, fs, tr, torn);
      case BeginLogin => BeginAdvances(rows, p, req, pc, c, a, fs, tr, torn);
      case BeginPromote(_, _, _) => BeginAdvances(rows, p, req, pc, c, a, fs, tr, torn);
      case Guest(_) => GuestAdvances(rows, p, req, pc, c, a, fs, tr, torn);
      case DeleteCredential(_, _) => DeleteAdvances(rows, p, req, pc, c, a, fs, tr, torn);
      case Logout(_) => ReadAdvances(rows, p, req, pc, c, a, fs, tr, torn);
      case Me(_) => ReadAdvances(rows, p, req, pc, c, a, fs, tr, torn);
      case ListCredentials(_) => ReadAdvances(rows, p, req, pc, c, a, fs, tr, torn);
      case Malformed => ReadAdvances(rows, p, req, pc, c, a, fs, tr, torn);
    }
  }

  lemma RequestAdvances(rows: Rows, p: Pid, req: Request, pc: Pc, c: Choice, a: Answer, fs: seq<Fact>,
          tr: seq<Fact>, torn: bool)
    requires Shape(req, tr) && At(req, pc, tr, torn) && !pc.Answered?
    requires LocalsOk(rows, req, pc)
    requires Outcome(rows, p, Plan(req, pc, c), c, a, fs)
    ensures Advances(req, pc, c, a, fs, tr, torn)
  {
    hide Outcome, Plan, Shape, At, Advances;
    if Completes(req) {
      CompletionAdvances(rows, p, req, pc, c, a, fs, tr, torn);
    } else {
      OtherAdvances(rows, p, req, pc, c, a, fs, tr, torn);
    }
  }
}

/** Every store operation keeps the tables and the keyspace in agreement with the history. */
module StoreSteps {
  import opened Domain
  import opened Tables
  import opened Service
  import opened History
  import opened Invariant

  ghost predicate FreshKey(log: seq<Fact>, f: Fact) {
    KeyOf(f).Unkeyed? || forall g :: g in log ==> KeyOf(g) != KeyOf(f)
  }

  lemma UnrepeatedSnoc(log: seq<Fact>, f: Fact)
    requires Unrepeated(log) && FreshKey(log, f)
    ensures Unrepeated(log + [f])
  {
  }

  // ----- history only grows -----

  lemma BirthsGrow(log: seq<Fact>, f: Fact)
    ensures forall u, b :: HasBirth(log, u, b) ==> HasBirth(log + [f], u, b)
    ensures forall u :: HasPromotion(log, u) ==> HasPromotion(log + [f], u)
    ensures f.Born? ==> HasBirth(log + [f], f.uid, f.guest)
    ensures f.Promoted? ==> HasPromotion(log + [f], f.uid)
  {
    var log' := log + [f];
    assert f in log';
    forall u, b | HasBirth(log, u, b) ensures HasBirth(log', u, b) {
      var g :| g in log && g.Born? && g.uid == u && g.guest == b;
      assert g in log';
    }
    forall u | HasPromotion(log, u) ensures HasPromotion(log', u) {
      var g :| g in log && g.Promoted? && g.uid == u;
      assert g in log';
    }
  }

  lemma RowHistoryGrows(log: seq<Fact>, f: Fact)
    ensures forall r :: HasOrigin(log, r) ==> HasOrigin(log + [f], r)
    ensures forall r :: HasDeath(log, r) ==> HasDeath(log + [f], r)
    ensures f.Inserted? || f.Provided? ==> HasOrigin(log + [f], f.row)
    ensures f.Deleted? ==> HasDeath(log + [f], f.row)
  {
    var log' := log + [f];
    assert f in log';
    forall r | HasOrigin(log, r) ensures HasOrigin(log', r) {
      var g :| g in log && (g.Inserted? || g.Provided?) && g.row == r;
      assert g in log';
    }
    forall r | HasDeath(log, r) ensures HasDeath(log', r) {
      var g :| g in log && g.Deleted? && g.row == r;
      assert g in log';
    }
  }

  lemma TokensGrow(log: seq<Fact>, f: Fact)
    ensures forall t, u :: MintedFor(log, t, u) ==> MintedFor(log + [f], t, u)
    ensures forall t, u :: GuestMintedFor(log, t, u) ==> GuestMintedFor(log + [f], t, u)
    ensures f.Minted? ==> MintedFor(log + [f], f.token, f.uid)
    ensures f.GuestMinted? ==> GuestMintedFor(log + [f], f.token, f.uid)
  {
    var log' := log + [f];
    assert f in log';
    forall t, u | MintedFor(log, t, u) ensures MintedFor(log', t, u) {
      var g :| g in log && g.Minted? && g.token == t && g.uid == u;
      assert g in log';
    }
    forall t, u | GuestMintedFor(log, t, u) ensures GuestMintedFor(log', t, u) {
      var g :| g in log && g.GuestMinted? && g.token == t && g.uid == u;
      assert g in log';
    }
  }

  lemma ChallengeHistoryGrows(log: seq<Fact>, f: Fact)
    ensures forall sid, pl :: WasSaved(log, sid, pl) ==> WasSaved(log + [f], sid, pl)
    ensures forall sid :: WasTaken(log + [f], sid) <==> WasTaken(log, sid) || (f.Took? && f.sid == sid)
    ensures f.Saved? ==> WasSaved(log + [f], f.sid, f.payload)
  {
    var log' := log + [f];
    assert f in log';
    forall sid, pl | WasSaved(log, sid, pl) ensures WasSaved(log', sid, pl) {
      var g :| g in log && g.Saved? && g.sid == sid && g.payload == pl;
      assert g in log';
    }
    forall sid | WasTaken(log, sid) ensures WasTaken(log', sid) {
      var g :| g in log && g.Took? && g.sid == sid;
      assert g in log';
    }
  }

  lemma RowsStay(rows: Rows, rows': Rows)
    requires RowsEvolve(rows, rows')
    ensures forall u :: HasRow(rows, u) ==> HasRow(rows', u)
  {
    forall u | HasRow(rows, u) ensures HasRow(rows', u) {
      var r :| r in rows && rows[r].userId == u;
      assert r in rows' && rows'[r].userId == u;
    }
  }

  // ----- users -----

  lemma UsersFrame(us: Users, log: seq<Fact>, f: Fact)
    requires UsersInv(us, log) && !f.Born? && !f.Promoted?
    ensures UsersInv(us, log + [f])
  {
    BirthsGrow(log, f);
  }

  lemma BirthKeepsUsers(us: Users, log: seq<Fact>, p: Pid, u: User)
    requires UsersInv(us, log) && u.id !in us && u.promotedAt.None?
    requires !u.isGuest ==> !NameTaken(us, u.username)
    ensures UsersInv(us[u.id := u], log + [Born(p, u.id, u.isGuest, u.username)])
  {
    BirthsGrow(log, Born(p, u.id, u.isGuest, u.username));
  }

  lemma PromotionKeepsUsers(us: Users, log: seq<Fact>, p: Pid, u: User)
    requires UsersInv(us, log) && u.id in us && us[u.id].isGuest && !NameTaken(us, u.username)
    requires !u.isGuest && u.promotedAt.Some?
    ensures UsersInv(us[u.id := u], log + [Promoted(p, u.id, u.username)])
  {
    BirthsGrow(log, Promoted(p, u.id, u.username));
  }

  lemma UserOpsKeepUsers(us: Users, log: seq<Fact>, p: Pid, op: UserOp, c: Choice, now: nat)
    requires UsersInv(us, log) && c.uuid !in us
    ensures var (us', a) := ApplyUsers(us, op, c, now);
            UsersInv(us', log + NoteUsers(p, op, a))
  {
    assert log + [] == log;
    match op {
      case GetByUsername(_) =>
      case GetById(_) =>
      case CreateGuest(name, display) => BirthKeepsUsers(us, log, p, User(c.uuid, name, display, true, now, None));
      case CreateRegistered(name, display) =>
        if !NameTaken(us, name) {
          BirthKeepsUsers(us, log, p, User(c.uuid, name, display, false, now, None));
        }
      case PromoteGuest(id, name, display) =>
        if id in us && us[id].isGuest && !NameTaken(us, name) {
          PromotionKeepsUsers(us, log, p, Tables.PromoteGuest(us, id, name, display, now).1.value);
        }
    }
  }

  // ----- rows -----

  lemma RowsFrame(us: Users, us': Users, rows: Rows, log: seq<Fact>, f: Fact)
    requires RowsInv(us, rows, log) && UsersEvolve(us, us')
    requires !f.Inserted? && !f.Provided? && !f.Asserted? && !f.Deleted?
    ensures RowsInv(us', rows, log) && RowsInv(us', rows, log + [f])
  {
    RowHistoryGrows(log, f);
  }

  lemma InsertKeepsTable(us: Users, rows: Rows, id: Uuid, cred: Credential, now: nat)
    requires RowsTable(us, rows) && id !in rows && Registered(us, cred.userId) && !IdTaken(rows, cred.credentialId)
    ensures RowsTable(us, rows[id := NewRow(cred, id, now)])
  {
  }

  lemma InsertKeepsRows(us: Users, rows: Rows, log: seq<Fact>, f: Fact, id: Uuid, cred: Credential, now: nat)
    requires RowsInv(us, rows, log) && id !in rows && Registered(us, cred.userId) && !IdTaken(rows, cred.credentialId)
    requires f.Provided? || f.Inserted?
    requires f.row == id && f.uid == cred.userId && f.cid == cred.credentialId
    ensures RowsInv(us, rows[id := NewRow(cred, id, now)], log + [f])
  {
    InsertKeepsTable(us, rows, id, cred, now);
    RowHistoryGrows(log, f);
  }

  /** Writing to a live row in place, short of deleting it. */
  lemma TouchKeepsTable(us: Users, rows: Rows, row: Row)
    requires RowsTable(us, rows) && Live(rows, row.id) && row.deletedAt.None? && 0 <= row.signCount < 0x1_0000_0000
    requires row.userId == rows[row.id].userId && row.credentialId == rows[row.id].credentialId
    ensures RowsTable(us, rows[row.id := row])
  {
    var rows' := rows[row.id := row];
    assert forall r :: Live(rows', r) <==> Live(rows, r);
  }

  lemma TouchKeepsRows(us: Users, rows: Rows, log: seq<Fact>, row: Row)
    requires RowsInv(us, rows, log) && Live(rows, row.id) && row.deletedAt.None? && 0 <= row.signCount < 0x1_0000_0000
    requires row.userId == rows[row.id].userId && row.credentialId == rows[row.id].credentialId
    ensures RowsInv(us, rows[row.id := row], log)
  {
    TouchKeepsTable(us, rows, row);
  }

  lemma AssertionKeepsRows(us: Users, rows: Rows, log: seq<Fact>, p: Pid, row: Uuid)
    requires RowsInv(us, rows, log) && Live(rows, row)
    ensures RowsInv(us, rows, log + [Asserted(p, row, rows[row].userId, rows[row].credentialId)])
  {
    RowHistoryGrows(log, Asserted(p, row, rows[row].userId, rows[row].credentialId));
  }

  lemma DeathKeepsTable(us: Users, rows: Rows, row: Uuid, now: nat)
    requires RowsTable(us, rows) && row in rows
    ensures RowsTable(us, Bury(rows, row, now))
  {
    var rows' := Bury(rows, row, now);
    assert forall r :: Live(rows', r) ==> Live(rows, r);
  }

  lemma DeathKeepsRows(us: Users, rows: Rows, log: seq<Fact>, p: Pid, row: Uuid, now: nat)
    requires RowsInv(us, rows, log) && Live(rows, row)
    ensures RowsInv(us, Bury(rows, row, now), log + [Deleted(p, row, rows[row].userId)])
  {
    DeathKeepsTable(us, rows, row, now);
    RowHistoryGrows(log, Deleted(p, row, rows[row].userId));
  }

  lemma RowOpsKeepRows(us: Users, rows: Rows, log: seq<Fact>, p: Pid, op: RowOp, c: Choice, now: nat)
    requires RowsInv(us, rows, log) && c.uuid !in rows
    requires op.Insert? ==> Registered(us, op.cred.userId)
    ensures var (rows', a) := ApplyRows(us, rows, op, c, now);
            RowsInv(us, rows', log + NoteRows(rows, p, op, a))
  {
    assert log + [] == log;
    match op {
      case Insert(cred) =>
        if !IdTaken(rows, cred.credentialId) {
          InsertKeepsRows(us, rows, log, Inserted(p, c.uuid, cred.userId, cred.credentialId), c.uuid, cred, now);
        }
      case GetByCredentialId(_) =>
      case ListByUserId(_) =>
      case UpdateAfterAssertion(row, count, be, bs) =>
        if Live(rows, row) {
          var row' := Tables.UpdateAfterAssertion(rows, row, count, be, bs, now).0[row];
          TouchKeepsRows(us, rows, log, row');
          AssertionKeepsRows(us, rows[row := row'], log, p, row);
        }
    }
  }

  // ----- tokens and challenges -----

  ghost predicate KeysInv(d: Data, log: seq<Fact>) {
    TokensStored(d, log) && TokensLogged(d.rows, log) && ChallengesInv(d.challenges, log)
  }

  lemma TokensFrame(d: Data, d': Data, log: seq<Fact>, f: Fact)
    requires TokensStored(d, log) && TokensLogged(d.rows, log)
    requires d'.sessions == d.sessions && d'.guests == d.guests && RowsEvolve(d.rows, d'.rows)
    requires !f.Minted? && !f.GuestMinted?
    ensures TokensStored(d', log) && TokensLogged(d'.rows, log)
    ensures TokensStored(d', log + [f]) && TokensLogged(d'.rows, log + [f])
  {
    TokensGrow(log, f);
    BirthsGrow(log, f);
    RowsStay(d.rows, d'.rows);
  }

  lemma ChallengesFrame(cs: map<string, Timed<Payload>>, log: seq<Fact>, f: Fact)
    requires ChallengesInv(cs, log) && !f.Saved? && !f.Took?
    ensures ChallengesInv(cs, log + [f])
  {
    ChallengeHistoryGrows(log, f);
  }

  lemma SaveKeepsKeys(d: Data, log: seq<Fact>, p: Pid, sid: string, e: Timed<Payload>)
    requires KeysInv(d, log) && FreshString(log, sid)
    ensures KeysInv(d.(challenges := d.challenges[sid := e]), log + [Saved(p, sid, e.value)])
  {
    TokensFrame(d, d, log, Saved(p, sid, e.value));
    SaveKeepsChallenges(d.challenges, log, p, sid, e);
  }

  lemma SaveKeepsChallenges(cs: map<string, Timed<Payload>>, log: seq<Fact>, p: Pid, sid: string, e: Timed<Payload>)
    requires ChallengesInv(cs, log) && FreshString(log, sid)
    ensures ChallengesInv(cs[sid := e], log + [Saved(p, sid, e.value)])
  {
    ChallengeHistoryGrows(log, Saved(p, sid, e.value));
    assert !WasTaken(log, sid);
  }

  lemma TakeKeepsChallenges(cs: map<string, Timed<Payload>>, log: seq<Fact>, p: Pid, sid: string)
    requires ChallengesInv(cs, log) && sid in cs
    ensures ChallengesInv(cs - {sid}, log + [Took(p, sid, cs[sid].value)])
  {
    ChallengeHistoryGrows(log, Took(p, sid, cs[sid].value));
  }

  lemma TakeKeepsKeys(d: Data, log: seq<Fact>, p: Pid, sid: string)
    requires KeysInv(d, log) && sid in d.challenges
    ensures KeysInv(d.(challenges := d.challenges - {sid}), log + [Took(p, sid, d.challenges[sid].value)])
  {
    var d' := d.(challenges := d.challenges - {sid});
    TokensFrame(d, d', log, Took(p, sid, d.challenges[sid].value));
    TakeKeepsChallenges(d.challenges, log, p, sid);
  }

  lemma MintKeepsKeys(d: Data, log: seq<Fact>, p: Pid, token: string, uid: Uuid)
    requires KeysInv(d, log) && FreshString(log, token) && HasRow(d.rows, uid)
    ensures KeysInv(d.(sessions := d.sessions[token := Timed(uid, d.now + d.cfg.sessionTtl)]),
              log + [Minted(p, token, uid)])
  {
    var f := Minted(p, token, uid);
    TokensGrow(log, f);
    BirthsGrow(log, f);
    ChallengesFrame(d.challenges, log, f);
  }

  lemma GuestMintKeepsKeys(d: Data, log: seq<Fact>, p: Pid, token: string, uid: Uuid)
    requires KeysInv(d, log) && FreshString(log, token) && HasBirth(log, uid, true)
    ensures KeysInv(d.(guests := d.guests[token := Timed(uid, d.now + d.cfg.guestTtl)]),
              log + [GuestMinted(p, token, uid)])
  {
    var f := GuestMinted(p, token, uid);
    TokensGrow(log, f);
    BirthsGrow(log, f);
    ChallengesFrame(d.challenges, log, f);
  }

  /** Taking or dropping keys, as an expiry or a delete does, breaks nothing. */
  lemma DropKeepsTokens(d: Data, log: seq<Fact>, token: string)
    requires KeysInv(d, log)
    ensures KeysInv(d.(sessions := d.sessions - {token}), log)
    ensures KeysInv(d.(guests := d.guests - {token}), log)
  {
  }

  lemma KeyOpsKeepKeys(d: Data, log: seq<Fact>, p: Pid, op: KeyOp, c: Choice)
    requires KeysInv(d, log) && FreshString(log, c.token)
    requires op.CreateSession? ==> HasRow(d.rows, op.uid)
    requires op.CreateGuestToken? ==> HasBirth(log, op.uid, true)
    ensures var (d', a) := ApplyKeys(d, op, c);
            KeysInv(d', log + NoteKeys(p, op, a, c))
  {
    hide KeysInv;
    var (d', a) := ApplyKeys(d, op, c);
    var log' := log + NoteKeys(p, op, a, c);
    assert KeysInv(d', log') by {
      match op {
        case SaveChallenge(payload) =>
          SaveKeepsKeys(d, log, p, c.token, Timed(payload, d.now + d.cfg.challengeTtl));
        case TakeChallenge(sid) =>
          if Fetch(d.challenges, sid, d.now).Some? {
            TakeKeepsKeys(d, log, p, sid);
          } else {
            assert log' == log;
          }
        case CreateSession(uid) => MintKeepsKeys(d, log, p, c.token, uid);
        case GetSession(_) => assert log' == log;
        case DeleteSession(token) =>
          assert log' == log;
          DropKeepsTokens(d, log, token);
        case CreateGuestToken(uid) => GuestMintKeepsKeys(d, log, p, c.token, uid);
        case GetGuest(_) => assert log' == log;
        case DeleteGuest(token) =>
          assert log' == log;
          DropKeepsTokens(d, log, token);
      }
    }
  }

  // ----- new facts never repeat an old one -----

  lemma UserFactsFresh(us: Users, log: seq<Fact>, p: Pid, op: UserOp, c: Choice, now: nat)
    requires UsersLogged(us, log) && UsersTable(us) && c.uuid !in us
    ensures forall f :: f in NoteUsers(p, op, ApplyUsers(us, op, c, now).1) ==> FreshKey(log, f)
  {
    match op {
      case GetByUsername(_) =>
      case GetById(_) =>
      case CreateGuest(_, _) =>
      case CreateRegistered(_, _) =>
      case PromoteGuest(_, _, _) =>
    }
  }

  lemma RowFactsFresh(us: Users, rows: Rows, log: seq<Fact>, p: Pid, op: RowOp, c: Choice, now: nat)
    requires RowsLogged(rows, log) && c.uuid !in rows
    ensures forall f :: f in NoteRows(rows, p, op, ApplyRows(us, rows, op, c, now).1) ==> FreshKey(log, f)
  {
    match op {
      case Insert(_) =>
      case GetByCredentialId(_) =>
      case ListByUserId(_) =>
      case UpdateAfterAssertion(_, _, _, _) =>
    }
  }

  lemma DeathFresh(rows: Rows, log: seq<Fact>, p: Pid, row: Uuid, uid: Uuid)
    requires RowsLogged(rows, log) && Live(rows, row)
    ensures FreshKey(log, Deleted(p, row, uid))
  {
  }

  lemma KeyFactsFresh(d: Data, log: seq<Fact>, p: Pid, op: KeyOp, c: Choice)
    requires ChallengesInv(d.challenges, log) && FreshString(log, c.token)
    ensures forall f :: f in NoteKeys(p, op, ApplyKeys(d, op, c).1, c) ==> FreshKey(log, f)
  {
    match op {
      case SaveChallenge(_) =>
      case TakeChallenge(sid) =>
        assert forall g :: g in log && g.Took? ==> WasTaken(log, g.sid);
      case CreateSession(_) =>
      case GetSession(_) =>
      case DeleteSession(_) =>
      case CreateGuestToken(_) =>
      case GetGuest(_) =>
      case DeleteGuest(_) =>
    }
  }

  lemma TxRows(d: Data, p: Pid, op: TxOp)
    ensures ApplyTx(d, p, op).0.rows == if op.Commit? then Bury(d.rows, op.row, d.now) else d.rows
  {
    match op {
      case Lock(_) =>
      case Count(_, _) =>
      case Mark(_) =>
      case Commit(_) =>
    }
  }
}

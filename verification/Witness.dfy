/** A concrete run: a guest is promoted, is given a second passkey, and loses both to two overlapping deletes. */
module Witness {
  import opened Domain
  import opened Tables
  import opened Service
  import opened LastCredential
  import opened Overlap
  import opened OpenDeletes

  const GUEST_ID: Uuid := 1
  const FIRST_ROW: Uuid := 2
  const SECOND_ROW: Uuid := 3
  const UNUSED: Uuid := 9

  const MADE := LibCredential([1], [7], "none", "none", [], false, false, [], 0)
  const FIRST := Credential(NIL_UUID, GUEST_ID, [1], [7], [5], None, 0, [], "none", "none", false, false, None, 0, None)
  const SECOND := FIRST.(credentialId := [2])
  const PROMOTION := Payload(SessionData([5]), "n", "d", GUEST_ID, true)

  function Offer(uuid: Uuid, token: string): Choice {
    Choice(NoFault, uuid, token, [5], true, Attests(MADE), [])
  }

  const VISITOR := User(GUEST_ID, "guest-a", "Guest", true, 0, None)
  const MEMBER := User(GUEST_ID, "n", "d", false, 0, Some(0))

  /** Nothing expires at once, as the configuration demands. */
  predicate Lasting(cfg: Config) {
    cfg.challengeTtl > 0 && cfg.guestTtl > 0 && cfg.sessionTtl > 0
  }

  // ----- the states on the way -----

  const GUEST_DONE := Process(Guest(""), Answered(Response(200, Fine, None, Some("g"), Account(GUEST_ID))), false)
  const BEGIN_DONE := Process(BeginPromote("n", "d", "g"), Answered(Reply(SessionId("s"))), false)
  const PROMOTE := CompletePromote("s", true, "")

  function Storage(cfg: Config, users: Users, rows: Rows): Data {
    Data(cfg, 0, users, rows, map[], map[], map["g" := Timed(GUEST_ID, cfg.guestTtl)], map[])
  }

  const BORN := [Born(0, GUEST_ID, true, "guest-a"), GuestMinted(0, "g", GUEST_ID)]
  const BEGUN := BORN + [Saved(1, "s", PROMOTION)]
  const PROMOTED := BEGUN + [Took(2, "s", PROMOTION), Promoted(2, GUEST_ID, "n")]
  const INSERTED := PROMOTED + [Inserted(2, FIRST_ROW, GUEST_ID, [1])]
  const SIGNED_IN := INSERTED + [Minted(2, "k", GUEST_ID)]
  const PROVIDED := SIGNED_IN + [Provided(SECOND_ROW, GUEST_ID, [2])]

  function WithGuest(cfg: Config): State {
    State(Storage(cfg, map[GUEST_ID := VISITOR], map[]), BORN, map[0 := GUEST_DONE])
  }

  function WithChallenge(cfg: Config): State {
    State(Storage(cfg, map[GUEST_ID := VISITOR], map[]).(challenges := map["s" := Timed(PROMOTION, cfg.challengeTtl)]),
          BEGUN, map[0 := GUEST_DONE, 1 := BEGIN_DONE])
  }

  function WithMember(cfg: Config): State {
    State(Storage(cfg, map[GUEST_ID := MEMBER], map[]), PROMOTED,
          map[0 := GUEST_DONE, 1 := BEGIN_DONE, 2 := Process(PROMOTE, InsertCredential(MEMBER, FIRST), false)])
  }

  function WithSession(cfg: Config): State {
    State(Storage(cfg, map[GUEST_ID := MEMBER], map[FIRST_ROW := NewRow(FIRST, FIRST_ROW, 0)])
            .(sessions := map["k" := Timed(GUEST_ID, cfg.sessionTtl)]),
          SIGNED_IN,
          map[0 := GUEST_DONE, 1 := BEGIN_DONE,
              2 := Process(PROMOTE, Answered(Response(200, Fine, Some("k"), None, Account(GUEST_ID))), false)])
  }

  function WithTwoRows(cfg: Config): State {
    var s := WithSession(cfg);
    State(s.data.(rows := s.data.rows[SECOND_ROW := NewRow(SECOND, SECOND_ROW, 0)]), PROVIDED, s.procs)
  }

  // ----- the steps -----

  lemma Follow(s: State, fs: seq<Event>, e: Event)
    requires LegalFrom(s, fs) && Enabled(RunFrom(s, fs), e)
    ensures LegalFrom(s, fs + [e]) && RunFrom(s, fs + [e]) == Step(RunFrom(s, fs), e)
  {
    hide LegalFrom, RunFrom, Enabled, Step;
    OneStep(RunFrom(s, fs), e);
    Concat(s, fs, [e]);
  }

  lemma GuestArrives(cfg: Config)
    ensures var s, e := Init(cfg), Arrive(0, Guest(""));
            Enabled(s, e) && Step(s, e) == s.(procs := map[0 := Process(Guest(""), CreateGuestUser, false)])
  {
  }

  lemma GuestIsMade(cfg: Config)
    ensures var s := Init(cfg).(procs := map[0 := Process(Guest(""), CreateGuestUser, false)]);
            var e := Advance(0, Offer(GUEST_ID, "a"));
            && Enabled(s, e)
            && Step(s, e) == State(Init(cfg).data.(users := map[GUEST_ID := VISITOR]), [BORN[0]],
                                   map[0 := Process(Guest(""), MintGuest(VISITOR), false)])
  {
    hide ApplyRows, ApplyTx, ApplyKeys, AfterRegister, AfterLogin, AfterAccount, AfterBegin, AfterPromote;
    assert "guest-" + "a" == "guest-a";
  }

  lemma GuestGetsToken(cfg: Config)
    ensures var s := State(Init(cfg).data.(users := map[GUEST_ID := VISITOR]), [BORN[0]],
                           map[0 := Process(Guest(""), MintGuest(VISITOR), false)]);
            var e := Advance(0, Offer(UNUSED, "g"));
            Enabled(s, e) && Step(s, e) == WithGuest(cfg)
  {
    hide ApplyUsers, ApplyRows, ApplyTx, AfterRegister, AfterLogin, AfterAccount, AfterBegin, AfterPromote;
  }

  function Beginning(cfg: Config, pc: Pc): State {
    WithGuest(cfg).(procs := map[0 := GUEST_DONE, 1 := Process(BeginPromote("n", "d", "g"), pc, false)])
  }

  function Promoting(cfg: Config, pc: Pc): State {
    WithChallenge(cfg).(procs := map[0 := GUEST_DONE, 1 := BEGIN_DONE, 2 := Process(PROMOTE, pc, false)])
  }

  function WithPayload(cfg: Config): State {
    State(Storage(cfg, map[GUEST_ID := VISITOR], map[]), BEGUN + [Took(2, "s", PROMOTION)],
          map[0 := GUEST_DONE, 1 := BEGIN_DONE, 2 := Process(PROMOTE, PromoteUser(PROMOTION, MADE), false)])
  }

  function WithRow(cfg: Config): State {
    State(Storage(cfg, map[GUEST_ID := MEMBER], map[FIRST_ROW := NewRow(FIRST, FIRST_ROW, 0)]), INSERTED,
          map[0 := GUEST_DONE, 1 := BEGIN_DONE, 2 := Process(PROMOTE, MintSession(MEMBER), false)])
  }

  lemma BeginArrives(cfg: Config)
    requires Lasting(cfg)
    ensures var s, e := WithGuest(cfg), Arrive(1, BeginPromote("n", "d", "g"));
            Enabled(s, e) && Step(s, e) == Beginning(cfg, FindGuest)
  {
  }

  lemma BeginFindsNext(cfg: Config)
    requires Lasting(cfg)
    ensures var s, e := Beginning(cfg, FindGuest), Advance(1, Offer(UNUSED, "a"));
            Enabled(s, e)
  {
  }

  lemma BeginFinds(cfg: Config)
    requires Lasting(cfg)
    ensures var s, e := Beginning(cfg, FindGuest), Advance(1, Offer(UNUSED, "a"));
            Enabled(s, e) && Step(s, e) == Beginning(cfg, LoadGuest(GUEST_ID))
  {
    BeginFindsNext(cfg);
    hide FreshString, FreshId, Enabled;
    hide ApplyUsers, ApplyRows, ApplyTx, AfterRegister, AfterLogin, AfterGuest, AfterAccount, AfterPromote;
    assert BORN + [] == BORN;
  }

  lemma BeginLoadsNext(cfg: Config)
    requires Lasting(cfg)
    ensures var s, e := Beginning(cfg, LoadGuest(GUEST_ID)), Advance(1, Offer(UNUSED, "a"));
            Enabled(s, e)
  {
  }

  lemma BeginLoads(cfg: Config)
    requires Lasting(cfg)
    ensures var s, e := Beginning(cfg, LoadGuest(GUEST_ID)), Advance(1, Offer(UNUSED, "a"));
            Enabled(s, e) && Step(s, e) == Beginning(cfg, SavePromotion(GUEST_ID))
  {
    BeginLoadsNext(cfg);
    hide FreshString, FreshId, Enabled;
    hide ApplyRows, ApplyTx, ApplyKeys, AfterRegister, AfterLogin, AfterAccount, AfterPromote, AfterGuest;
    assert BORN + [] == BORN;
  }

  lemma BeginSaves(cfg: Config)
    requires Lasting(cfg)
    ensures var s, e := Beginning(cfg, SavePromotion(GUEST_ID)), Advance(1, Offer(UNUSED, "s"));
            Enabled(s, e) && Step(s, e) == WithChallenge(cfg)
  {
    hide ApplyUsers, ApplyRows, ApplyTx, AfterRegister, AfterLogin, AfterGuest, AfterAccount, AfterPromote;
  }

  lemma PromoteArrives(cfg: Config)
    requires Lasting(cfg)
    ensures var s, e := WithChallenge(cfg), Arrive(2, PROMOTE);
            Enabled(s, e) && Step(s, e) == Promoting(cfg, Take)
  {
  }

  lemma PromoteTakesNext(cfg: Config)
    requires Lasting(cfg)
    ensures var s, e := Promoting(cfg, Take), Advance(2, Offer(UNUSED, "a"));
            Enabled(s, e)
  {
  }

  lemma PromoteTakes(cfg: Config)
    requires Lasting(cfg)
    ensures var s, e := Promoting(cfg, Take), Advance(2, Offer(UNUSED, "a"));
            Enabled(s, e) && Step(s, e) == WithPayload(cfg)
  {
    PromoteTakesNext(cfg);
    hide FreshString, FreshId, Enabled;
    hide ApplyUsers, ApplyRows, ApplyTx, AfterRegister, AfterLogin, AfterGuest, AfterAccount, AfterBegin;
  }

  lemma PromoteFlipsNext(cfg: Config)
    requires Lasting(cfg)
    ensures var s, e := WithPayload(cfg), Advance(2, Offer(UNUSED, "a"));
            Enabled(s, e)
  {
  }

  lemma PromoteFlips(cfg: Config)
    requires Lasting(cfg)
    ensures var s, e := WithPayload(cfg), Advance(2, Offer(UNUSED, "a"));
            Enabled(s, e) && Step(s, e) == WithMember(cfg)
  {
    PromoteFlipsNext(cfg);
    hide FreshString, FreshId, Enabled;
    hide ApplyRows, ApplyTx, ApplyKeys, AfterRegister, AfterLogin, AfterAccount, AfterBegin, AfterGuest;
  }

  lemma PromoteInsertsNext(cfg: Config)
    requires Lasting(cfg)
    ensures var s, e := WithMember(cfg), Advance(2, Offer(FIRST_ROW, "a"));
            Enabled(s, e)
  {
  }

  lemma PromoteInserts(cfg: Config)
    requires Lasting(cfg)
    ensures var s, e := WithMember(cfg), Advance(2, Offer(FIRST_ROW, "a"));
            Enabled(s, e) && Step(s, e) == WithRow(cfg)
  {
    PromoteInsertsNext(cfg);
    FirstIsInserted();
    InsertNext();
    hide FreshString, FreshId, Enabled, Scan, NewRow, Plan, Resume;
    hide ApplyRows, ApplyUsers, ApplyTx, ApplyKeys;
  }

  lemma InsertNext()
    ensures Plan(PROMOTE, InsertCredential(MEMBER, FIRST), Offer(FIRST_ROW, "a")) == OnRows(Insert(FIRST))
    ensures forall cred ::
              Resume(PROMOTE, InsertCredential(MEMBER, FIRST), TheCredential(cred), Offer(FIRST_ROW, "a"))
              == MintSession(MEMBER)
  {
  }

  lemma FirstIsInserted()
    ensures ApplyRows(map[GUEST_ID := MEMBER], map[], Insert(FIRST), Offer(FIRST_ROW, "a"), 0) ==
              (map[FIRST_ROW := NewRow(FIRST, FIRST_ROW, 0)], TheCredential(Scan(NewRow(FIRST, FIRST_ROW, 0))))
    ensures var c := Scan(NewRow(FIRST, FIRST_ROW, 0));
            c.id == FIRST_ROW && c.userId == GUEST_ID && c.credentialId == [1]
  {
  }

  lemma KeyIsFresh()
    ensures FreshString(INSERTED, "k")
  {
  }

  lemma PromoteSignsInNext(cfg: Config)
    requires Lasting(cfg)
    ensures var s, e := WithRow(cfg), Advance(2, Offer(UNUSED, "k"));
            Enabled(s, e)
  {
    hide FreshString;
    KeyIsFresh();
  }

  lemma PromoteSignsIn(cfg: Config)
    requires Lasting(cfg)
    ensures var s, e := WithRow(cfg), Advance(2, Offer(UNUSED, "k"));
            Enabled(s, e) && Step(s, e) == WithSession(cfg)
  {
    PromoteSignsInNext(cfg);
    hide FreshString, FreshId, Enabled;
    hide ApplyUsers, ApplyRows, ApplyTx, AfterRegister, AfterLogin, AfterGuest, AfterAccount, AfterBegin;
  }

  lemma SecondProvided(cfg: Config)
    requires Lasting(cfg)
    ensures var s, e := WithSession(cfg), Provide(SECOND, SECOND_ROW);
            Enabled(s, e) && Step(s, e) == WithTwoRows(cfg)
  {
  }

  // ----- the runs -----

  lemma Promotion(cfg: Config) returns (es: seq<Event>)
    requires Lasting(cfg)
    ensures LegalFrom(Init(cfg), es) && RunFrom(Init(cfg), es) == WithChallenge(cfg)
  {
    hide LegalFrom, RunFrom, Enabled, Step, Init, WithGuest, WithChallenge, Beginning, Lasting;
    var s := Init(cfg);
    es := NoSteps(s);
    GuestArrives(cfg);
    es := Then(s, es, Arrive(0, Guest("")));
    GuestIsMade(cfg);
    es := Then(s, es, Advance(0, Offer(GUEST_ID, "a")));
    GuestGetsToken(cfg);
    es := Then(s, es, Advance(0, Offer(UNUSED, "g")));
    BeginArrives(cfg);
    es := Then(s, es, Arrive(1, BeginPromote("n", "d", "g")));
    BeginFinds(cfg);
    es := Then(s, es, Advance(1, Offer(UNUSED, "a")));
    BeginLoads(cfg);
    es := Then(s, es, Advance(1, Offer(UNUSED, "a")));
    BeginSaves(cfg);
    es := Then(s, es, Advance(1, Offer(UNUSED, "s")));
  }

  lemma Then(s: State, fs: seq<Event>, e: Event) returns (gs: seq<Event>)
    requires LegalFrom(s, fs) && Enabled(RunFrom(s, fs), e)
    ensures LegalFrom(s, gs) && RunFrom(s, gs) == Step(RunFrom(s, fs), e)
  {
    Follow(s, fs, e);
    gs := fs + [e];
  }

  /** A promoted guest with two live passkeys and a session, reached by a legal run. */
  lemma TwoPasskeys(cfg: Config) returns (es: seq<Event>)
    requires Lasting(cfg)
    ensures Legal(cfg, es) && Run(cfg, es) == WithTwoRows(cfg)
  {
    hide LegalFrom, RunFrom, Enabled, Step, Init, Legal, Run;
    hide WithChallenge, Promoting, WithPayload, WithMember, WithRow, WithSession, WithTwoRows, Lasting;
    var s := Init(cfg);
    es := Promotion(cfg);
    PromoteArrives(cfg);
    es := Then(s, es, Arrive(2, PROMOTE));
    PromoteTakes(cfg);
    es := Then(s, es, Advance(2, Offer(UNUSED, "a")));
    PromoteFlips(cfg);
    es := Then(s, es, Advance(2, Offer(UNUSED, "a")));
    PromoteInserts(cfg);
    es := Then(s, es, Advance(2, Offer(FIRST_ROW, "a")));
    PromoteSignsIn(cfg);
    es := Then(s, es, Advance(2, Offer(UNUSED, "k")));
    SecondProvided(cfg);
    es := Then(s, es, Provide(SECOND, SECOND_ROW));
    FromTheStart(cfg, es);
  }

  lemma FromTheStart(cfg: Config, es: seq<Event>)
    requires LegalFrom(Init(cfg), es)
    ensures Legal(cfg, es) && Run(cfg, es) == RunFrom(Init(cfg), es)
  {
    Continue(cfg, [], es);
    assert [] + es == es;
  }

  /** The database may list the two passkeys in this order. */
  const LISTING := [Scan(NewRow(FIRST, FIRST_ROW, 0)), Scan(NewRow(SECOND, SECOND_ROW, 0))]
  const AGAIN := Choice(NoFault, UNUSED, "a", [], true, ParseFails, LISTING)

  lemma BothLive(cfg: Config)
    ensures LiveOf(WithTwoRows(cfg).data.rows, GUEST_ID) == {FIRST_ROW, SECOND_ROW}
  {
  }

  /** There the batch of overlapping deletes finds what it asks for. */
  lemma BatchIsReady(cfg: Config)
    requires Lasting(cfg)
    ensures Ready(WithTwoRows(cfg), GUEST_ID, "k", AGAIN)
  {
    BothLive(cfg);
    var rows := WithTwoRows(cfg).data.rows;
    assert LISTING[0].id == FIRST_ROW && LISTING[1].id == SECOND_ROW;
    forall r | r in LiveOf(rows, GUEST_ID) ensures exists i :: 0 <= i < |LISTING| && LISTING[i].id == r {
      if r == FIRST_ROW { assert LISTING[0].id == r; } else { assert LISTING[1].id == r; }
    }
    hide LiveOf;
  }

  /**
   * From the empty service a legal run leads to a user with two live passkeys and on to one where two
   * deletes, each answered 204, have taken both. The user's counts were not all safe.
   */
  lemma GuardCanFail(cfg: Config) returns (es: seq<Event>, k: nat)
    requires Lasting(cfg)
    ensures Legal(cfg, es) && k <= |es|
    ensures |LiveOf(Run(cfg, es[..k]).data.rows, GUEST_ID)| == 2 && LiveOf(Run(cfg, es).data.rows, GUEST_ID) == {}
    ensures forall p :: p == 3 || p == 4 ==>
              p in Run(cfg, es).procs && Run(cfg, es).procs[p].pc == Answered(Response(204, Fine, None, None, NoBody))
    ensures !SafeCounts(cfg, es, GUEST_ID)
  {
    hide Run, Legal, Ready, Rounds, SafeCounts, Lasting;
    var before := TwoPasskeys(cfg);
    BothLive(cfg);
    BatchIsReady(cfg);
    var ps, rs: seq<Uuid> := [3, 4], [FIRST_ROW, SECOND_ROW];
    assert Distinct(ps) && Distinct(rs) by { TwoAreDistinct(); }
    OverlappingDeletes(cfg, before, ps, rs, GUEST_ID, "k", AGAIN);
    k := |before|;
    es := before + Rounds(0, ps, rs, "k", AGAIN);
    assert es[..k] == before;
    assert ps[0] == 3 && ps[1] == 4;
    assert Poised(Run(cfg, es), 7, ps[0], rs[0], GUEST_ID, "k") && Poised(Run(cfg, es), 7, ps[1], rs[1], GUEST_ID, "k");
    if SafeCounts(cfg, es, GUEST_ID) {
      TwoIsLive(Run(cfg, es[..k]).data.rows);
      LastCredentialKept(cfg, es, k, GUEST_ID);
      NoneIsLive(Run(cfg, es).data.rows);
      assert false;
    }
  }

  lemma TwoAreDistinct()
    ensures Distinct([3, 4]) && Distinct([FIRST_ROW, SECOND_ROW])
  {
  }

  lemma TwoIsLive(rows: Rows)
    requires |LiveOf(rows, GUEST_ID)| == 2
    ensures HasLive(rows, GUEST_ID)
  {
    var r :| r in LiveOf(rows, GUEST_ID);
    assert Live(rows, r);
  }

  lemma NoneIsLive(rows: Rows)
    requires LiveOf(rows, GUEST_ID) == {}
    ensures !HasLive(rows, GUEST_ID)
  {
    assert forall r :: Live(rows, r) && rows[r].userId == GUEST_ID ==> r in LiveOf(rows, GUEST_ID);
  }
}

/**
 * The one Redis keyspace behind the challenge, session and guest stores. Each store puts its prefix
 * before a string the client may have chosen freely; the three still behave as independent timed maps.
 */
module Keyspace {
  import opened Domain
  import opened Service

  /** Sessions and guests store a user id as text, challenges store ceremony state. */
  datatype Value = UserText(uid: Uuid) | Ceremony(payload: Payload)

  type Keys = map<string, Timed<Value>>

  const CHALLENGE_PREFIX := "challenge:"
  const SESSION_PREFIX := "session:"
  const GUEST_PREFIX := "guest:"

  // ----- Redis commands -----

  datatype Command =
    | Set(key: string, value: Value, ttl: nat)
    | Get(key: string)
    | GetDel(key: string)
    | Del(key: string)

  /** The reply, None standing for nil; GETDEL reads and deletes in one step. */
  function Execute(ks: Keys, cmd: Command, now: nat): (Keys, Option<Value>) {
    match cmd
    case Set(key, value, ttl) => (ks[key := Timed(value, now + ttl)], None)
    case Get(key) => (ks, Fetch(ks, key, now))
    case GetDel(key) => (if Fetch(ks, key, now).Some? then ks - {key} else ks, Fetch(ks, key, now))
    case Del(key) => (ks - {key}, None)
  }

  // ----- one key over a whole history -----

  datatype Call = Call(cmd: Command, at: nat)

  function Replay(calls: seq<Call>): Keys {
    if calls == [] then map[]
    else Execute(Replay(calls[..|calls| - 1]), calls[|calls| - 1].cmd, calls[|calls| - 1].at).0
  }

  predicate Overwrites(cmd: Command, key: string) {
    (cmd.Set? || cmd.GetDel? || cmd.Del?) && cmd.key == key
  }

  /** Call i set the key to v less than its TTL ago, and no later call set, took or deleted it. */
  predicate SetBy(calls: seq<Call>, i: nat, key: string, v: Value, now: nat) {
    && i < |calls|
    && calls[i].cmd.Set? && calls[i].cmd.key == key && calls[i].cmd.value == v
    && now < calls[i].at + calls[i].cmd.ttl
    && forall j :: i < j < |calls| ==> !Overwrites(calls[j].cmd, key)
  }

  ghost predicate StillSet(calls: seq<Call>, key: string, v: Value, now: nat) {
    exists i: nat :: SetBy(calls, i, key, v, now)
  }

  lemma LastCallCounts(calls: seq<Call>, key: string, v: Value, now: nat)
    requires calls != []
    ensures var n := |calls| - 1;
            var last := calls[n];
            StillSet(calls, key, v, now) <==>
              if Overwrites(last.cmd, key) then last.cmd.Set? && last.cmd.value == v && now < last.at + last.cmd.ttl
              else StillSet(calls[..n], key, v, now)
  {
    var n := |calls| - 1;
    if SetBy(calls, n, key, v, now) {
    }
    if StillSet(calls[..n], key, v, now) && !Overwrites(calls[n].cmd, key) {
      var i: nat :| SetBy(calls[..n], i, key, v, now);
      assert SetBy(calls, i, key, v, now);
    }
    if StillSet(calls, key, v, now) {
      var i: nat :| SetBy(calls, i, key, v, now);
      assert i < n ==> SetBy(calls[..n], i, key, v, now);
    }
  }

  lemma OneCommand(ks: Keys, cmd: Command, at: nat, key: string, v: Value, now: nat)
    requires at <= now
    ensures Fetch(Execute(ks, cmd, at).0, key, now) == Some(v) <==>
              if Overwrites(cmd, key) then cmd.Set? && cmd.value == v && now < at + cmd.ttl
              else Fetch(ks, key, now) == Some(v)
  {
  }

  /** What a key holds is what the last SET put there, until its TTL passes or something removes it. */
  lemma {:induction false} KeyHistory(calls: seq<Call>, key: string, v: Value, now: nat)
    requires forall i :: 0 <= i < |calls| ==> calls[i].at <= now
    ensures Fetch(Replay(calls), key, now) == Some(v) <==> StillSet(calls, key, v, now)
  {
    hide StillSet, Overwrites, Execute;
    if calls == [] {
      assert !StillSet(calls, key, v, now) by { NothingSet(key, v, now); }
    } else {
      var n := |calls| - 1;
      KeyHistory(calls[..n], key, v, now);
      LastCallCounts(calls, key, v, now);
      OneCommand(Replay(calls[..n]), calls[n].cmd, calls[n].at, key, v, now);
    }
  }

  lemma NothingSet(key: string, v: Value, now: nat)
    ensures !StillSet([], key, v, now)
  {
  }

  // ----- prefixes -----

  /** No client string makes two stores meet, and within a store distinct strings have distinct keys. */
  lemma PrefixesDisjoint(s: string, t: string)
    ensures CHALLENGE_PREFIX + s != SESSION_PREFIX + t
    ensures CHALLENGE_PREFIX + s != GUEST_PREFIX + t
    ensures SESSION_PREFIX + s != GUEST_PREFIX + t
  {
    assert (CHALLENGE_PREFIX + s)[0] == 'c' && (SESSION_PREFIX + t)[0] == 's' && (GUEST_PREFIX + t)[0] == 'g';
    assert (SESSION_PREFIX + s)[0] == 's';
  }

  lemma PrefixCancels(prefix: string, s: string, t: string)
    requires prefix + s == prefix + t
    ensures s == t
  {
    assert (prefix + s)[|prefix|..] == s && (prefix + t)[|prefix|..] == t;
  }

  lemma SameKeySameString(prefix: string, s: string, t: string)
    ensures prefix + s == prefix + t <==> s == t
  {
    if prefix + s == prefix + t { PrefixCancels(prefix, s, t); }
  }

  /** The client strings with a key under the prefix. */
  function Suffixes(ks: Keys, prefix: string): (ss: set<string>)
    ensures forall t :: t in ss <==> prefix + t in ks
  {
    assert forall t :: prefix + t in ks ==> (prefix + t)[|prefix|..] == t;
    assert forall k :: k in ks && prefix <= k ==> k == prefix + k[|prefix|..];
    set k | k in ks && prefix <= k :: k[|prefix|..]
  }

  predicate HoldsUsers(ks: Keys, prefix: string) {
    forall t :: t in Suffixes(ks, prefix) ==> ks[prefix + t].value.UserText?
  }

  predicate HoldsCeremonies(ks: Keys) {
    forall t :: t in Suffixes(ks, CHALLENGE_PREFIX) ==> ks[CHALLENGE_PREFIX + t].value.Ceremony?
  }

  function UserIds(ks: Keys, prefix: string): map<string, Timed<Uuid>> {
    map t | t in Suffixes(ks, prefix) && ks[prefix + t].value.UserText? ::
      Timed(ks[prefix + t].value.uid, ks[prefix + t].expires)
  }

  function Ceremonies(ks: Keys): map<string, Timed<Payload>> {
    map t | t in Suffixes(ks, CHALLENGE_PREFIX) && ks[CHALLENGE_PREFIX + t].value.Ceremony? ::
      Timed(ks[CHALLENGE_PREFIX + t].value.payload, ks[CHALLENGE_PREFIX + t].expires)
  }

  /** The three timed maps of d are what the stores see in the keyspace. */
  predicate Views(ks: Keys, d: Data) {
    && HoldsUsers(ks, SESSION_PREFIX) && HoldsUsers(ks, GUEST_PREFIX)
         && HoldsCeremonies(ks) // each store writes its own kind
    && d.sessions == UserIds(ks, SESSION_PREFIX)
    && d.guests == UserIds(ks, GUEST_PREFIX)
    && d.challenges == Ceremonies(ks)
  }

  // ----- the stores' operations as commands -----

  /** Every operation of the three stores is one command; a create or save uses the fresh string of c. */
  function Compile(cfg: Config, op: KeyOp, c: Choice): Command {
    match op
    case SaveChallenge(payload) => Set(CHALLENGE_PREFIX + c.token, Ceremony(payload), cfg.challengeTtl)
    case TakeChallenge(sid) => GetDel(CHALLENGE_PREFIX + sid)
    case CreateSession(uid) => Set(SESSION_PREFIX + c.token, UserText(uid), cfg.sessionTtl)
    case GetSession(token) => Get(SESSION_PREFIX + token)
    case DeleteSession(token) => Del(SESSION_PREFIX + token)
    case CreateGuestToken(uid) => Set(GUEST_PREFIX + c.token, UserText(uid), cfg.guestTtl)
    case GetGuest(token) => Get(GUEST_PREFIX + token)
    case DeleteGuest(token) => Del(GUEST_PREFIX + token)
  }

  /** How a store reads the reply: nil is its not-found error, a value of the wrong kind a parse error. */
  function Read(op: KeyOp, reply: Option<Value>, c: Choice): Answer {
    match op
    case TakeChallenge(_) =>
      (match reply
       case Some(Ceremony(payload)) => ThePayload(payload)
       case Some(_) => Failed(StoreFailure)
       case None => Failed(ChallengeNotFound))
    case GetSession(_) =>
      (match reply
       case Some(UserText(uid)) => TheUid(uid)
       case Some(_) => Failed(StoreFailure)
       case None => Failed(SessionNotFound))
    case GetGuest(_) =>
      (match reply
       case Some(UserText(uid)) => TheUid(uid)
       case Some(_) => Failed(StoreFailure)
       case None => Failed(GuestNotFound))
    case CreateSession(_) => TheToken(c.token)
    case CreateGuestToken(_) => TheToken(c.token)
    case _ => Done
  }

  /** Where two keyspaces agree on every key under the prefix, so do the views of that prefix. */
  ghost predicate Agree(ks: Keys, ks': Keys, prefix: string) {
    forall t :: (prefix + t in ks' <==> prefix + t in ks) && (prefix + t in ks ==> ks'[prefix + t] == ks[prefix + t])
  }

  lemma AgreeingViews(ks: Keys, ks': Keys, prefix: string)
    requires Agree(ks, ks', prefix)
    ensures UserIds(ks', prefix) == UserIds(ks, prefix)
    ensures HoldsUsers(ks', prefix) == HoldsUsers(ks, prefix)
    ensures prefix == CHALLENGE_PREFIX ==>
              Ceremonies(ks') == Ceremonies(ks) && HoldsCeremonies(ks') == HoldsCeremonies(ks)
  {
    assert Suffixes(ks', prefix) == Suffixes(ks, prefix);
  }

  /** A command on another store's key is invisible under this prefix. */
  lemma ForeignCommand(ks: Keys, cmd: Command, now: nat, prefix: string)
    requires forall t :: prefix + t != cmd.key
    ensures Agree(ks, Execute(ks, cmd, now).0, prefix)
  {
  }

  lemma SetUser(ks: Keys, prefix: string, t: string, uid: Uuid, expires: nat)
    ensures var ks' := ks[prefix + t := Timed(UserText(uid), expires)];
            && UserIds(ks', prefix) == UserIds(ks, prefix)[t := Timed(uid, expires)]
            && (HoldsUsers(ks, prefix) ==> HoldsUsers(ks', prefix))
  {
    forall s ensures prefix + s == prefix + t <==> s == t { SameKeySameString(prefix, s, t); }
  }

  lemma DelUser(ks: Keys, prefix: string, t: string)
    ensures UserIds(ks - {prefix + t}, prefix) == UserIds(ks, prefix) - {t}
    ensures HoldsUsers(ks, prefix) ==> HoldsUsers(ks - {prefix + t}, prefix)
  {
    forall s ensures prefix + s == prefix + t <==> s == t { SameKeySameString(prefix, s, t); }
  }

  lemma GetUser(ks: Keys, prefix: string, t: string, now: nat)
    requires HoldsUsers(ks, prefix)
    ensures Fetch(ks, prefix + t, now) ==
              (match Fetch(UserIds(ks, prefix), t, now) case Some(u) => Some(UserText(u)) case None => None)
  {
  }

  lemma SetCeremony(ks: Keys, t: string, payload: Payload, expires: nat)
    ensures var ks' := ks[CHALLENGE_PREFIX + t := Timed(Ceremony(payload), expires)];
            && Ceremonies(ks') == Ceremonies(ks)[t := Timed(payload, expires)]
            && (HoldsCeremonies(ks) ==> HoldsCeremonies(ks'))
  {
    forall s ensures CHALLENGE_PREFIX + s == CHALLENGE_PREFIX + t <==> s == t {
      SameKeySameString(CHALLENGE_PREFIX, s, t);
    }
  }

  lemma DelCeremony(ks: Keys, t: string)
    ensures Ceremonies(ks - {CHALLENGE_PREFIX + t}) == Ceremonies(ks) - {t}
    ensures HoldsCeremonies(ks) ==> HoldsCeremonies(ks - {CHALLENGE_PREFIX + t})
  {
    forall s ensures CHALLENGE_PREFIX + s == CHALLENGE_PREFIX + t <==> s == t {
      SameKeySameString(CHALLENGE_PREFIX, s, t);
    }
  }

  lemma GetCeremony(ks: Keys, t: string, now: nat)
    requires HoldsCeremonies(ks)
    ensures Fetch(ks, CHALLENGE_PREFIX + t, now) ==
              (match Fetch(Ceremonies(ks), t, now) case Some(p) => Some(Ceremony(p)) case None => None)
  {
  }

  // ----- three independent timed maps -----

  /** One operation of a store, as a command on the shared keyspace, is that operation on its own map alone. */
  ghost predicate Refined(ks: Keys, d: Data, op: KeyOp, c: Choice) {
    var (ks', reply) := Execute(ks, Compile(d.cfg, op, c), d.now);
    var (d', a) := ApplyKeys(d, op, c);
    Views(ks', d') && Read(op, reply, c) == a
  }

  lemma ForeignKeys(t: string, prefix: string, other: string)
    requires IsPrefix(prefix) && IsPrefix(other) && prefix != other
    ensures forall s :: other + s != prefix + t
  {
    forall s ensures other + s != prefix + t { PrefixesDisjoint(s, t); PrefixesDisjoint(t, s); }
  }

  predicate IsPrefix(p: string) {
    p == CHALLENGE_PREFIX || p == SESSION_PREFIX || p == GUEST_PREFIX
  }

  /** A command on one store's key leaves another store's view alone. */
  lemma ForeignViews(ks: Keys, cmd: Command, now: nat, prefix: string, t: string, other: string)
    requires IsPrefix(prefix) && IsPrefix(other) && prefix != other && cmd.key == prefix + t
    ensures var ks' := Execute(ks, cmd, now).0;
            && UserIds(ks', other) == UserIds(ks, other)
            && HoldsUsers(ks', other) == HoldsUsers(ks, other)
            && (other == CHALLENGE_PREFIX ==>
                 Ceremonies(ks') == Ceremonies(ks) && HoldsCeremonies(ks') == HoldsCeremonies(ks))
  {
    ForeignKeys(t, prefix, other);
    ForeignCommand(ks, cmd, now, other);
    AgreeingViews(ks, Execute(ks, cmd, now).0, other);
  }

  lemma SessionCommands(ks: Keys, d: Data, op: KeyOp, c: Choice)
    requires Views(ks, d) && (op.CreateSession? || op.GetSession? || op.DeleteSession?)
    ensures Refined(ks, d, op, c)
  {
    hide UserIds, Ceremonies, HoldsUsers, HoldsCeremonies;
    var t := if op.CreateSession? then c.token else op.token;
    var cmd := Compile(d.cfg, op, c);
    ForeignViews(ks, cmd, d.now, SESSION_PREFIX, t, GUEST_PREFIX);
    ForeignViews(ks, cmd, d.now, SESSION_PREFIX, t, CHALLENGE_PREFIX);
    match op {
      case CreateSession(uid) => SetUser(ks, SESSION_PREFIX, t, uid, d.now + d.cfg.sessionTtl);
      case DeleteSession(_) => DelUser(ks, SESSION_PREFIX, t);
      case GetSession(_) => GetUser(ks, SESSION_PREFIX, t, d.now);
    }
  }

  lemma GuestCommands(ks: Keys, d: Data, op: KeyOp, c: Choice)
    requires Views(ks, d) && (op.CreateGuestToken? || op.GetGuest? || op.DeleteGuest?)
    ensures Refined(ks, d, op, c)
  {
    hide UserIds, Ceremonies, HoldsUsers, HoldsCeremonies;
    var t := if op.CreateGuestToken? then c.token else op.token;
    var cmd := Compile(d.cfg, op, c);
    ForeignViews(ks, cmd, d.now, GUEST_PREFIX, t, SESSION_PREFIX);
    ForeignViews(ks, cmd, d.now, GUEST_PREFIX, t, CHALLENGE_PREFIX);
    match op {
      case CreateGuestToken(uid) => SetUser(ks, GUEST_PREFIX, t, uid, d.now + d.cfg.guestTtl);
      case DeleteGuest(_) => DelUser(ks, GUEST_PREFIX, t);
      case GetGuest(_) => GetUser(ks, GUEST_PREFIX, t, d.now);
    }
  }

  lemma ChallengeCommands(ks: Keys, d: Data, op: KeyOp, c: Choice)
    requires Views(ks, d) && (op.SaveChallenge? || op.TakeChallenge?)
    ensures Refined(ks, d, op, c)
  {
    hide UserIds, Ceremonies, HoldsUsers, HoldsCeremonies;
    var t := if op.SaveChallenge? then c.token else op.sid;
    var cmd := Compile(d.cfg, op, c);
    ForeignViews(ks, cmd, d.now, CHALLENGE_PREFIX, t, SESSION_PREFIX);
    ForeignViews(ks, cmd, d.now, CHALLENGE_PREFIX, t, GUEST_PREFIX);
    match op {
      case SaveChallenge(payload) => SetCeremony(ks, t, payload, d.now + d.cfg.challengeTtl);
      case TakeChallenge(_) =>
        DelCeremony(ks, t);
        GetCeremony(ks, t, d.now);
    }
  }

  /** The shared keyspace refines the three maps of the machine, for every client string and every operation. */
  lemma KeyspaceRefines(ks: Keys, d: Data, op: KeyOp, c: Choice)
    requires Views(ks, d)
    ensures Refined(ks, d, op, c)
  {
    hide Views, Refined;
    match op {
      case SaveChallenge(_) => ChallengeCommands(ks, d, op, c);
      case TakeChallenge(_) => ChallengeCommands(ks, d, op, c);
      case CreateSession(_) => SessionCommands(ks, d, op, c);
      case GetSession(_) => SessionCommands(ks, d, op, c);
      case DeleteSession(_) => SessionCommands(ks, d, op, c);
      case CreateGuestToken(_) => GuestCommands(ks, d, op, c);
      case GetGuest(_) => GuestCommands(ks, d, op, c);
      case DeleteGuest(_) => GuestCommands(ks, d, op, c);
    }
  }

  // ----- what a token resolves to, from the history of store calls -----

  datatype Store = Challenges | Sessions | Guests

  datatype StoreCall = StoreCall(op: KeyOp, c: Choice, at: nat)

  function PrefixOf(st: Store): string {
    match st case Challenges => CHALLENGE_PREFIX case Sessions => SESSION_PREFIX case Guests => GUEST_PREFIX
  }

  function TtlOf(cfg: Config, st: Store): nat {
    match st case Challenges => cfg.challengeTtl case Sessions => cfg.sessionTtl case Guests => cfg.guestTtl
  }

  /** The value a create or save of this store puts under t. */
  function Issues(st: Store, call: StoreCall, t: string): Option<Value> {
    if call.c.token != t then None
    else match call.op
         case SaveChallenge(payload) => if st == Challenges then Some(Ceremony(payload)) else None
         case CreateSession(uid) => if st == Sessions then Some(UserText(uid)) else None
         case CreateGuestToken(uid) => if st == Guests then Some(UserText(uid)) else None
         case _ => None
  }

  predicate Revokes(st: Store, op: KeyOp, t: string) {
    match st
    case Challenges => op == TakeChallenge(t)
    case Sessions => op == DeleteSession(t)
    case Guests => op == DeleteGuest(t)
  }

  /** Call i issued v under t less than a TTL ago, and no call of this store since issued t again or revoked it. */
  predicate Issued(cfg: Config, st: Store, calls: seq<StoreCall>, i: nat, t: string, v: Value, now: nat) {
    && i < |calls|
    && Issues(st, calls[i], t) == Some(v) && now < calls[i].at + TtlOf(cfg, st)
    && forall j :: i < j < |calls| ==> Issues(st, calls[j], t).None? && !Revokes(st, calls[j].op, t)
  }

  function Commands(cfg: Config, calls: seq<StoreCall>): (cmds: seq<Call>)
    ensures |cmds| == |calls|
  {
    seq(|calls|, i requires 0 <= i < |calls| => Call(Compile(cfg, calls[i].op, calls[i].c), calls[i].at))
  }

  /** Only the store's own issues and revocations of t touch t's key. */
  lemma WhoOverwrites(cfg: Config, st: Store, call: StoreCall, t: string)
    ensures var cmd := Compile(cfg, call.op, call.c);
            && (Overwrites(cmd, PrefixOf(st) + t) <==> Issues(st, call, t).Some? || Revokes(st, call.op, t))
            && (cmd.Set? && cmd.key == PrefixOf(st) + t <==> Issues(st, call, t).Some?)
            && (Issues(st, call, t).Some? ==> cmd == Set(PrefixOf(st) + t, Issues(st, call, t).value, TtlOf(cfg, st)))
  {
    var s := match call.op
             case TakeChallenge(sid) => sid
             case GetSession(token) => token
             case DeleteSession(token) => token
             case GetGuest(token) => token
             case DeleteGuest(token) => token
             case _ => call.c.token;
    PrefixesDisjoint(s, t);
    PrefixesDisjoint(t, s);
    SameKeySameString(SESSION_PREFIX, s, t);
    SameKeySameString(GUEST_PREFIX, s, t);
    SameKeySameString(CHALLENGE_PREFIX, s, t);
  }

  lemma SetIsIssue(cfg: Config, st: Store, calls: seq<StoreCall>, i: nat, t: string, v: Value, now: nat)
    ensures SetBy(Commands(cfg, calls), i, PrefixOf(st) + t, v, now) <==> Issued(cfg, st, calls, i, t, v, now)
  {
    hide Overwrites, Compile, Issues, Revokes, TtlOf, PrefixOf;
    forall j | 0 <= j < |calls|
      ensures var cmd := Commands(cfg, calls)[j].cmd;
              && (Overwrites(cmd, PrefixOf(st) + t) <==> Issues(st, calls[j], t).Some? || Revokes(st, calls[j].op, t))
              && (cmd.Set? && cmd.key == PrefixOf(st) + t <==> Issues(st, calls[j], t).Some?)
              && (Issues(st, calls[j], t).Some? ==>
                   cmd == Set(PrefixOf(st) + t, Issues(st, calls[j], t).value, TtlOf(cfg, st)))
    {
      WhoOverwrites(cfg, st, calls[j], t);
    }
  }

  /**
   * After any calls of the three stores on one server, in whatever mixture, a string resolves to v in
   * a store exactly when that store issued it for v less than a TTL ago and has not revoked it since.
   */
  lemma StoreHistory(cfg: Config, st: Store, calls: seq<StoreCall>, t: string, v: Value, now: nat)
    requires forall i :: 0 <= i < |calls| ==> calls[i].at <= now
    ensures Fetch(Replay(Commands(cfg, calls)), PrefixOf(st) + t, now) == Some(v) <==>
              exists i: nat :: Issued(cfg, st, calls, i, t, v, now)
  {
    hide Issued, SetBy, PrefixOf, Fetch, Replay;
    var cmds, key := Commands(cfg, calls), PrefixOf(st) + t;
    KeyHistory(cmds, key, v, now);
    forall i: nat ensures SetBy(cmds, i, key, v, now) <==> Issued(cfg, st, calls, i, t, v, now) {
      SetIsIssue(cfg, st, calls, i, t, v, now);
    }
  }

  /**
   * SessionStore.Get(t) answers u exactly when Create returned t for u less than a TTL ago and no
   * Delete(t) came since.
   */
  lemma SessionHistory(cfg: Config, calls: seq<StoreCall>, t: string, u: Uuid, now: nat, c: Choice)
    requires forall i :: 0 <= i < |calls| ==> calls[i].at <= now
    ensures var reply := Execute(Replay(Commands(cfg, calls)), Compile(cfg, GetSession(t), c), now).1;
            Read(GetSession(t), reply, c) == TheUid(u) <==>
                exists i: nat :: Issued(cfg, Sessions, calls, i, t, UserText(u), now)
  {
    hide Issued, Fetch, Replay;
    StoreHistory(cfg, Sessions, calls, t, UserText(u), now);
  }
}

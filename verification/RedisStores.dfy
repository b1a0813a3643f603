/** The challenge, session and guest stores as objects sharing one Redis client. */
module RedisStores {
  import opened Domain
  import opened Service
  import opened Keyspace

  ghost predicate Typed(ks: Keys) {
    HoldsUsers(ks, SESSION_PREFIX) && HoldsUsers(ks, GUEST_PREFIX) && HoldsCeremonies(ks)
  }

  /** The keyspace as the machine sees it. */
  function Seen(cfg: Config, now: nat, ks: Keys): Data {
    Data(cfg, now, map[], map[], map[], UserIds(ks, SESSION_PREFIX), UserIds(ks, GUEST_PREFIX), Ceremonies(ks))
  }

  lemma CommandSeen(cfg: Config, now: nat, ks: Keys, op: KeyOp, c: Choice)
    requires Typed(ks)
    ensures var (ks', reply) := Execute(ks, Compile(cfg, op, c), now);
            && Typed(ks')
            && ApplyKeys(Seen(cfg, now, ks), op, c) == (Seen(cfg, now, ks'), Read(op, reply, c))
  {
    KeyspaceRefines(ks, Seen(cfg, now, ks), op, c);
    hide UserIds, Ceremonies, HoldsUsers, HoldsCeremonies, Execute, Read;
    var d' := ApplyKeys(Seen(cfg, now, ks), op, c).0;
    KeysOnly(Seen(cfg, now, ks), op, c);
  }

  lemma KeysOnly(d: Data, op: KeyOp, c: Choice)
    ensures var d' := ApplyKeys(d, op, c).0;
            d' == d.(sessions := d'.sessions, guests := d'.guests, challenges := d'.challenges)
  {
    match op {
      case SaveChallenge(_) =>
      case TakeChallenge(_) =>
      case CreateSession(_) =>
      case GetSession(_) =>
      case DeleteSession(_) =>
      case CreateGuestToken(_) =>
      case GetGuest(_) =>
      case DeleteGuest(_) =>
    }
  }

  function FoundOr<X>(hit: Option<X>, missing: Error): Result<X> {
    match hit case Some(x) => Ok(x) case None => Err(missing)
  }

  class Redis {
    var keys: Keys

    ghost predicate Valid()
      reads this
    {
      Typed(keys)
    }

    constructor ()
      ensures Valid() && keys == map[]
    {
      keys := map[];
    }

    function Sessions(): map<string, Timed<Uuid>>
      reads this
    {
      UserIds(keys, SESSION_PREFIX)
    }

    function Guests(): map<string, Timed<Uuid>>
      reads this
    {
      UserIds(keys, GUEST_PREFIX)
    }

    function Challenges(): map<string, Timed<Payload>>
      reads this
    {
      Ceremonies(keys)
    }

    /** One round trip; None as reply is nil. */
    method Do(cmd: Command, fault: Fault, now: nat) returns (r: Result<Option<Value>>)
      modifies this
      ensures keys == if fault.Lost? then old(keys) else Execute(old(keys), cmd, now).0
      ensures r == if fault.NoFault? then Ok(Execute(old(keys), cmd, now).1) else Err(StoreFailure)
    {
      if fault.Lost? { return Err(StoreFailure); }
      var reply := None;
      match cmd {
        case Set(key, value, ttl) => keys := keys[key := Timed(value, now + ttl)];
        case Get(key) => reply := Fetch(keys, key, now);
        case GetDel(key) =>
          reply := Fetch(keys, key, now);
          if reply.Some? { keys := keys - {key}; }
        case Del(key) => keys := keys - {key};
      }
      r := if fault.NoFault? then Ok(reply) else Err(StoreFailure);
    }
  }

  class ChallengeStore {
    const client: Redis
    const ttl: nat

    constructor (client: Redis, ttl: nat)
      ensures this.client == client && this.ttl == ttl
    {
      this.client, this.ttl := client, ttl;
    }

    method Save(payload: Payload, c: Choice, now: nat) returns (r: Result<()>)
      requires client.Valid()
      modifies client
      ensures client.Valid() && client.Sessions() == old(client.Sessions()) && client.Guests() == old(client.Guests())
      ensures client.Challenges() == if c.fault.Lost? then old(client.Challenges())
                                     else old(client.Challenges())[c.token := Timed(payload, now + ttl)]
      ensures r == if c.fault.NoFault? then Ok(()) else Err(StoreFailure)
    {
      hide UserIds, Ceremonies, Typed;
      CommandSeen(Config(ttl, 0, 0), now, client.keys, SaveChallenge(payload), c);
      var reply := client.Do(Set(CHALLENGE_PREFIX + c.token, Ceremony(payload), ttl), c.fault, now);
      r := if reply.Ok? then Ok(()) else Err(StoreFailure);
    }

    method Take(sid: string, c: Choice, now: nat) returns (r: Result<Payload>)
      requires client.Valid()
      modifies client
      ensures client.Valid() && client.Sessions() == old(client.Sessions()) && client.Guests() == old(client.Guests())
      ensures client.Challenges() == if c.fault.Lost?
                || Fetch(old(client.Challenges()), sid, now).None? then old(client.Challenges())
                                     else old(client.Challenges()) - {sid}
      ensures r == if !c.fault.NoFault? then Err(StoreFailure)
                   else FoundOr(Fetch(old(client.Challenges()), sid, now), ChallengeNotFound)
    {
      hide UserIds, Ceremonies, Typed;
      CommandSeen(Config(ttl, 0, 0), now, client.keys, TakeChallenge(sid), c);
      var reply := client.Do(GetDel(CHALLENGE_PREFIX + sid), c.fault, now);
      r := match reply
           case Ok(Some(Ceremony(payload))) => Ok(payload)
           case Ok(None) => Err(ChallengeNotFound)
           case _ => Err(StoreFailure);
    }
  }

  class SessionStore {
    const client: Redis
    const ttl: nat

    constructor (client: Redis, ttl: nat)
      ensures this.client == client && this.ttl == ttl
    {
      this.client, this.ttl := client, ttl;
    }

    method Create(uid: Uuid, c: Choice, now: nat) returns (r: Result<string>)
      requires client.Valid()
      modifies client
      ensures client.Valid() && client.Guests() == old(client.Guests())
                && client.Challenges() == old(client.Challenges())
      ensures client.Sessions() == if c.fault.Lost? then old(client.Sessions())
                                   else old(client.Sessions())[c.token := Timed(uid, now + ttl)]
      ensures r == if c.fault.NoFault? then Ok(c.token) else Err(StoreFailure)
    {
      hide UserIds, Ceremonies, Typed;
      CommandSeen(Config(0, ttl, 0), now, client.keys, CreateSession(uid), c);
      var reply := client.Do(Set(SESSION_PREFIX + c.token, UserText(uid), ttl), c.fault, now);
      r := if reply.Ok? then Ok(c.token) else Err(StoreFailure);
    }

    method Get(token: string, c: Choice, now: nat) returns (r: Result<Uuid>)
      requires client.Valid()
      modifies client
      ensures client.Valid() && client.Sessions() == old(client.Sessions())
      ensures client.Guests() == old(client.Guests()) && client.Challenges() == old(client.Challenges())
      ensures r == if !c.fault.NoFault? then Err(StoreFailure)
                   else FoundOr(Fetch(client.Sessions(), token, now), SessionNotFound)
    {
      hide UserIds, Ceremonies, Typed;
      CommandSeen(Config(0, ttl, 0), now, client.keys, GetSession(token), c);
      var reply := client.Do(Command.Get(SESSION_PREFIX + token), c.fault, now);
      r := match reply
           case Ok(Some(UserText(uid))) => Ok(uid)
           case Ok(None) => Err(SessionNotFound)
           case _ => Err(StoreFailure);
    }

    /** Deleting a missing token is not an error. */
    method Delete(token: string, c: Choice, now: nat) returns (r: Result<()>)
      requires client.Valid()
      modifies client
      ensures client.Valid() && client.Guests() == old(client.Guests())
                && client.Challenges() == old(client.Challenges())
      ensures client.Sessions() == if c.fault.Lost? then old(client.Sessions()) else old(client.Sessions()) - {token}
      ensures r == if c.fault.NoFault? then Ok(()) else Err(StoreFailure)
    {
      hide UserIds, Ceremonies, Typed;
      CommandSeen(Config(0, ttl, 0), now, client.keys, DeleteSession(token), c);
      var reply := client.Do(Del(SESSION_PREFIX + token), c.fault, now);
      r := if reply.Ok? then Ok(()) else Err(StoreFailure);
    }
  }

  class GuestStore {
    const client: Redis
    const ttl: nat

    constructor (client: Redis, ttl: nat)
      ensures this.client == client && this.ttl == ttl
    {
      this.client, this.ttl := client, ttl;
    }

    method Create(uid: Uuid, c: Choice, now: nat) returns (r: Result<string>)
      requires client.Valid()
      modifies client
      ensures client.Valid() && client.Sessions() == old(client.Sessions())
                && client.Challenges() == old(client.Challenges())
      ensures client.Guests() == if c.fault.Lost? then old(client.Guests())
                                 else old(client.Guests())[c.token := Timed(uid, now + ttl)]
      ensures r == if c.fault.NoFault? then Ok(c.token) else Err(StoreFailure)
    {
      hide UserIds, Ceremonies, Typed;
      CommandSeen(Config(0, 0, ttl), now, client.keys, CreateGuestToken(uid), c);
      var reply := client.Do(Set(GUEST_PREFIX + c.token, UserText(uid), ttl), c.fault, now);
      r := if reply.Ok? then Ok(c.token) else Err(StoreFailure);
    }

    method Get(token: string, c: Choice, now: nat) returns (r: Result<Uuid>)
      requires client.Valid()
      modifies client
      ensures client.Valid() && client.Sessions() == old(client.Sessions())
      ensures client.Guests() == old(client.Guests()) && client.Challenges() == old(client.Challenges())
      ensures r == if !c.fault.NoFault? then Err(StoreFailure)
                   else FoundOr(Fetch(client.Guests(), token, now), GuestNotFound)
    {
      hide UserIds, Ceremonies, Typed;
      CommandSeen(Config(0, 0, ttl), now, client.keys, GetGuest(token), c);
      var reply := client.Do(Command.Get(GUEST_PREFIX + token), c.fault, now);
      r := match reply
           case Ok(Some(UserText(uid))) => Ok(uid)
           case Ok(None) => Err(GuestNotFound)
           case _ => Err(StoreFailure);
    }

    method Delete(token: string, c: Choice, now: nat) returns (r: Result<()>)
      requires client.Valid()
      modifies client
      ensures client.Valid() && client.Sessions() == old(client.Sessions())
                && client.Challenges() == old(client.Challenges())
      ensures client.Guests() == if c.fault.Lost? then old(client.Guests()) else old(client.Guests()) - {token}
      ensures r == if c.fault.NoFault? then Ok(()) else Err(StoreFailure)
    {
      hide UserIds, Ceremonies, Typed;
      CommandSeen(Config(0, 0, ttl), now, client.keys, DeleteGuest(token), c);
      var reply := client.Do(Del(GUEST_PREFIX + token), c.fault, now);
      r := if reply.Ok? then Ok(()) else Err(StoreFailure);
    }
  }
}

/**
 * A handler's collaborators. Each method is one store call in the midst of other requests: they run,
 * then the call does, and the request has moved on as the machine says.
 */
module Collaborators {
  import opened Domain
  import opened Service
  import opened Database
  import opened RedisStores
  import opened Environment
  import opened Stores
  import T = Tables

  class Deps {
    const world: World
    const users: UserStore
    const credentials: CredentialStore
    const challenges: ChallengeStore
    const sessions: SessionStore
    const guests: GuestStore

    constructor (world: World, users: UserStore, credentials: CredentialStore, challenges: ChallengeStore,
            sessions: SessionStore, guests: GuestStore)
      ensures this.world == world && this.users == users && this.credentials == credentials
      ensures this.challenges == challenges && this.sessions == sessions && this.guests == guests
    {
      this.world, this.users, this.credentials := world, users, credentials;
      this.challenges, this.sessions, this.guests := challenges, sessions, guests;
    }

    /** All stores share the world's database and Redis server. */
    ghost predicate Wired() {
      && users.pool == world.pool && credentials.pool == world.pool
      && challenges.client == world.client && sessions.client == world.client && guests.client == world.client
    }

    function Cfg(): Config {
      Config(challenges.ttl, sessions.ttl, guests.ttl)
    }

    /** The request p is about to make of the handler, on a schedule the machine allows. */
    ghost function JobFor(p: Pid, req: Request, w: nat -> Beat): Job
      reads world, world.pool, world.client
    {
      Job(Cfg(), p, req, w, world.history, world.Snapshot())
    }

    ghost predicate Accepts(p: Pid, req: Request, w: nat -> Beat)
      reads world, world.pool, world.client
    {
      Wired() && world.Valid() && Scheduled(Cfg(), p, req, w)
    }

    /** The request is at pc with its n-th call coming up, and that call is op. */
    ghost predicate Due(j: Job, n: nat, pc: Pc, b: Beat, op: Op)
      reads world, world.pool, world.client
    {
      && Wired() && j.cfg == Cfg() && Scheduled(j.cfg, j.p, j.req, j.w) && j.w(n) == b
      && world.Reached(j, n, pc) && !InTransaction(pc) && !pc.Answered?
      && Plan(j.req, pc, b.c) == op
    }

    method GetByUsername(name: string, b: Beat, ghost j: Job, ghost n: nat, ghost pc: Pc) returns (r: Result<User>)
      requires Due(j, n, pc, b, OnUsers(UserOp.GetByUsername(name)))
      modifies world, world.pool, world.client
      ensures world.Reached(j, n + 1, Resume(j.req, pc, OfUser(r), b.c))
    {
      hide Exec, PcAfter, LeftBy, Trail, Scheduled, Fits, Resume, NameIndex, LiveIndex;
      hide Redis.Valid, Redis.Sessions, Redis.Guests, Redis.Challenges, Plan;
      world.Others(b, j, n, pc);
      r := users.GetByUsername(name, b.c);
      DidUser(j, world, n, pc, UserOp.GetByUsername(name), r);
    }

    method GetByID(id: Uuid, b: Beat, ghost j: Job, ghost n: nat, ghost pc: Pc) returns (r: Result<User>)
      requires Due(j, n, pc, b, OnUsers(UserOp.GetById(id)))
      modifies world, world.pool, world.client
      ensures world.Reached(j, n + 1, Resume(j.req, pc, OfUser(r), b.c))
    {
      hide Exec, PcAfter, LeftBy, Trail, Scheduled, Fits, Resume, NameIndex, LiveIndex;
      hide Redis.Valid, Redis.Sessions, Redis.Guests, Redis.Challenges, Plan;
      world.Others(b, j, n, pc);
      r := users.GetByID(id, b.c);
      DidUser(j, world, n, pc, UserOp.GetById(id), r);
    }

    method CreateGuest(name: string, display: string, b: Beat, ghost j: Job, ghost n: nat, ghost pc: Pc)
      returns (r: Result<User>)
      requires Due(j, n, pc, b, OnUsers(UserOp.CreateGuest(name, display)))
      modifies world, world.pool, world.client
      ensures world.Reached(j, n + 1, Resume(j.req, pc, OfUser(r), b.c))
    {
      hide Exec, PcAfter, LeftBy, Trail, Scheduled, Fits, Resume, NameIndex, LiveIndex;
      hide Redis.Valid, Redis.Sessions, Redis.Guests, Redis.Challenges, Plan;
      world.Others(b, j, n, pc);
      Allowed(j, n, pc);
      r := users.CreateGuest(name, display, b.c, b.d.now);
      DidUser(j, world, n, pc, UserOp.CreateGuest(name, display), r);
    }

    method CreateRegistered(name: string, display: string, b: Beat, ghost j: Job, ghost n: nat, ghost pc: Pc)
      returns (r: Result<User>)
      requires Due(j, n, pc, b, OnUsers(UserOp.CreateRegistered(name, display)))
      modifies world, world.pool, world.client
      ensures world.Reached(j, n + 1, Resume(j.req, pc, OfUser(r), b.c))
    {
      hide Exec, PcAfter, LeftBy, Trail, Scheduled, Fits, Resume, NameIndex, LiveIndex;
      hide Redis.Valid, Redis.Sessions, Redis.Guests, Redis.Challenges, Plan;
      world.Others(b, j, n, pc);
      Allowed(j, n, pc);
      r := users.CreateRegistered(name, display, b.c, b.d.now);
      DidUser(j, world, n, pc, UserOp.CreateRegistered(name, display), r);
    }

    method PromoteGuest(id: Uuid, name: string, display: string, b: Beat, ghost j: Job, ghost n: nat, ghost pc: Pc)
      returns (r: Result<User>)
      requires Due(j, n, pc, b, OnUsers(UserOp.PromoteGuest(id, name, display)))
      modifies world, world.pool, world.client
      ensures world.Reached(j, n + 1, Resume(j.req, pc, OfUser(r), b.c))
    {
      hide Exec, PcAfter, LeftBy, Trail, Scheduled, Fits, Resume, NameIndex, LiveIndex;
      hide Redis.Valid, Redis.Sessions, Redis.Guests, Redis.Challenges, Plan;
      world.Others(b, j, n, pc);
      r := users.PromoteGuest(id, name, display, b.c, b.d.now);
      DidUser(j, world, n, pc, UserOp.PromoteGuest(id, name, display), r);
    }

    method Insert(cred: Credential, b: Beat, ghost j: Job, ghost n: nat, ghost pc: Pc) returns (r: Result<Credential>)
      requires Due(j, n, pc, b, OnRows(RowOp.Insert(cred)))
      modifies world, world.pool, world.client
      ensures world.Reached(j, n + 1, Resume(j.req, pc, OfCredential(r), b.c))
    {
      hide Exec, PcAfter, LeftBy, Trail, Scheduled, Fits, Resume, NameIndex, LiveIndex;
      hide Redis.Valid, Redis.Sessions, Redis.Guests, Redis.Challenges, Plan;
      world.Others(b, j, n, pc);
      Allowed(j, n, pc);
      r := credentials.Insert(cred, b.c, b.d.now);
      DidRow(j, world, n, pc, RowOp.Insert(cred), r);
    }

    method GetByCredentialID(cid: Bytes, b: Beat, ghost j: Job, ghost n: nat, ghost pc: Pc)
      returns (r: Result<Credential>)
      requires Due(j, n, pc, b, OnRows(RowOp.GetByCredentialId(cid)))
      modifies world, world.pool, world.client
      ensures world.Reached(j, n + 1, Resume(j.req, pc, OfCredential(r), b.c))
    {
      hide Exec, PcAfter, LeftBy, Trail, Scheduled, Fits, Resume, NameIndex, LiveIndex;
      hide Redis.Valid, Redis.Sessions, Redis.Guests, Redis.Challenges, Plan;
      world.Others(b, j, n, pc);
      r := credentials.GetByCredentialID(cid, b.c);
      DidRow(j, world, n, pc, RowOp.GetByCredentialId(cid), r);
    }

    method ListByUserID(uid: Uuid, b: Beat, ghost j: Job, ghost n: nat, ghost pc: Pc)
      returns (r: Result<seq<Credential>>)
      requires Due(j, n, pc, b, OnRows(RowOp.ListByUserId(uid)))
      modifies world, world.pool, world.client
      ensures world.Reached(j, n + 1, Resume(j.req, pc, OfList(r), b.c))
    {
      hide Exec, PcAfter, LeftBy, Trail, Scheduled, Fits, Resume, NameIndex, LiveIndex;
      hide Redis.Valid, Redis.Sessions, Redis.Guests, Redis.Challenges, Plan, T.IsListing;
      world.Others(b, j, n, pc);
      Allowed(j, n, pc);
      r := credentials.ListByUserID(uid, b.c);
      DidList(j, world, n, pc, uid, r);
    }

    method UpdateAfterAssertion(id: Uuid, count: Uint32, be: bool, bs: bool, b: Beat, ghost j: Job, ghost n: nat,
            ghost pc: Pc)
      returns (r: Result<()>)
      requires Due(j, n, pc, b, OnRows(RowOp.UpdateAfterAssertion(id, count, be, bs)))
      modifies world, world.pool, world.client
      ensures world.Reached(j, n + 1, Resume(j.req, pc, OfUnit(r), b.c))
    {
      hide Exec, PcAfter, LeftBy, Trail, Scheduled, Fits, Resume, NameIndex, LiveIndex;
      hide Redis.Valid, Redis.Sessions, Redis.Guests, Redis.Challenges, Plan;
      world.Others(b, j, n, pc);
      Allowed(j, n, pc);
      r := credentials.UpdateAfterAssertion(id, count, be, bs, b.c, b.d.now);
      DidUpdate(j, world, n, pc, RowOp.UpdateAfterAssertion(id, count, be, bs), r);
    }

    method Save(payload: Payload, b: Beat, ghost j: Job, ghost n: nat, ghost pc: Pc) returns (r: Result<()>)
      requires Due(j, n, pc, b, OnKeys(SaveChallenge(payload)))
      modifies world, world.pool, world.client
      ensures world.Reached(j, n + 1, Resume(j.req, pc, OfUnit(r), b.c))
    {
      hide Exec, PcAfter, LeftBy, Trail, Scheduled, Fits, Resume, NameIndex, LiveIndex;
      hide Redis.Valid, Redis.Sessions, Redis.Guests, Redis.Challenges, Plan;
      world.Others(b, j, n, pc);
      Configured(j, n, pc);
      r := challenges.Save(payload, b.c, b.d.now);
      DidKeys(j, world, n, pc, SaveChallenge(payload), OfUnit(r));
    }

    method Take(sid: string, b: Beat, ghost j: Job, ghost n: nat, ghost pc: Pc) returns (r: Result<Payload>)
      requires Due(j, n, pc, b, OnKeys(TakeChallenge(sid)))
      modifies world, world.pool, world.client
      ensures world.Reached(j, n + 1, Resume(j.req, pc, OfPayload(r), b.c))
    {
      hide Exec, PcAfter, LeftBy, Trail, Scheduled, Fits, Resume, NameIndex, LiveIndex;
      hide Redis.Valid, Redis.Sessions, Redis.Guests, Redis.Challenges, Plan;
      world.Others(b, j, n, pc);
      Configured(j, n, pc);
      r := challenges.Take(sid, b.c, b.d.now);
      DidKeys(j, world, n, pc, TakeChallenge(sid), OfPayload(r));
    }

    method CreateSession(uid: Uuid, b: Beat, ghost j: Job, ghost n: nat, ghost pc: Pc) returns (r: Result<string>)
      requires Due(j, n, pc, b, OnKeys(KeyOp.CreateSession(uid)))
      modifies world, world.pool, world.client
      ensures world.Reached(j, n + 1, Resume(j.req, pc, OfToken(r), b.c))
    {
      hide Exec, PcAfter, LeftBy, Trail, Scheduled, Fits, Resume, NameIndex, LiveIndex;
      hide Redis.Valid, Redis.Sessions, Redis.Guests, Redis.Challenges, Plan;
      world.Others(b, j, n, pc);
      Configured(j, n, pc);
      r := sessions.Create(uid, b.c, b.d.now);
      DidKeys(j, world, n, pc, KeyOp.CreateSession(uid), OfToken(r));
    }

    method GetSession(token: string, b: Beat, ghost j: Job, ghost n: nat, ghost pc: Pc) returns (r: Result<Uuid>)
      requires Due(j, n, pc, b, OnKeys(KeyOp.GetSession(token)))
      modifies world, world.pool, world.client
      ensures world.Reached(j, n + 1, Resume(j.req, pc, OfUid(r), b.c))
    {
      hide Exec, PcAfter, LeftBy, Trail, Scheduled, Fits, Resume, NameIndex, LiveIndex;
      hide Redis.Valid, Redis.Sessions, Redis.Guests, Redis.Challenges, Plan;
      world.Others(b, j, n, pc);
      Configured(j, n, pc);
      r := sessions.Get(token, b.c, b.d.now);
      DidKeys(j, world, n, pc, KeyOp.GetSession(token), OfUid(r));
    }

    method DeleteSession(token: string, b: Beat, ghost j: Job, ghost n: nat, ghost pc: Pc) returns (r: Result<()>)
      requires Due(j, n, pc, b, OnKeys(KeyOp.DeleteSession(token)))
      modifies world, world.pool, world.client
      ensures world.Reached(j, n + 1, Resume(j.req, pc, OfUnit(r), b.c))
    {
      hide Exec, PcAfter, LeftBy, Trail, Scheduled, Fits, Resume, NameIndex, LiveIndex;
      hide Redis.Valid, Redis.Sessions, Redis.Guests, Redis.Challenges, Plan;
      world.Others(b, j, n, pc);
      Configured(j, n, pc);
      r := sessions.Delete(token, b.c, b.d.now);
      DidKeys(j, world, n, pc, KeyOp.DeleteSession(token), OfUnit(r));
    }

    method CreateGuestToken(uid: Uuid, b: Beat, ghost j: Job, ghost n: nat, ghost pc: Pc) returns (r: Result<string>)
      requires Due(j, n, pc, b, OnKeys(KeyOp.CreateGuestToken(uid)))
      modifies world, world.pool, world.client
      ensures world.Reached(j, n + 1, Resume(j.req, pc, OfToken(r), b.c))
    {
      hide Exec, PcAfter, LeftBy, Trail, Scheduled, Fits, Resume, NameIndex, LiveIndex;
      hide Redis.Valid, Redis.Sessions, Redis.Guests, Redis.Challenges, Plan;
      world.Others(b, j, n, pc);
      Configured(j, n, pc);
      r := guests.Create(uid, b.c, b.d.now);
      DidKeys(j, world, n, pc, KeyOp.CreateGuestToken(uid), OfToken(r));
    }

    method GetGuest(token: string, b: Beat, ghost j: Job, ghost n: nat, ghost pc: Pc) returns (r: Result<Uuid>)
      requires Due(j, n, pc, b, OnKeys(KeyOp.GetGuest(token)))
      modifies world, world.pool, world.client
      ensures world.Reached(j, n + 1, Resume(j.req, pc, OfUid(r), b.c))
    {
      hide Exec, PcAfter, LeftBy, Trail, Scheduled, Fits, Resume, NameIndex, LiveIndex;
      hide Redis.Valid, Redis.Sessions, Redis.Guests, Redis.Challenges, Plan;
      world.Others(b, j, n, pc);
      Configured(j, n, pc);
      r := guests.Get(token, b.c, b.d.now);
      DidKeys(j, world, n, pc, KeyOp.GetGuest(token), OfUid(r));
    }

    method DeleteGuest(token: string, b: Beat, ghost j: Job, ghost n: nat, ghost pc: Pc) returns (r: Result<()>)
      requires Due(j, n, pc, b, OnKeys(KeyOp.DeleteGuest(token)))
      modifies world, world.pool, world.client
      ensures world.Reached(j, n + 1, Resume(j.req, pc, OfUnit(r), b.c))
    {
      hide Exec, PcAfter, LeftBy, Trail, Scheduled, Fits, Resume, NameIndex, LiveIndex;
      hide Redis.Valid, Redis.Sessions, Redis.Guests, Redis.Challenges, Plan;
      world.Others(b, j, n, pc);
      Configured(j, n, pc);
      r := guests.Delete(token, b.c, b.d.now);
      DidKeys(j, world, n, pc, KeyOp.DeleteGuest(token), OfUnit(r));
    }

    /** A begin handler that fails for want of randomness, a library answer or an encoding makes no store call. */
    method GiveUp(b: Beat, ghost j: Job, ghost n: nat, ghost pc: Pc)
      requires Due(j, n, pc, b, Skip)
      modifies world, world.pool, world.client
      ensures world.Reached(j, n + 1, Resume(j.req, pc, if b.c.fault.NoFault? then Done else Failed(StoreFailure), b.c))
    {
      hide Exec, PcAfter, LeftBy, Trail, Scheduled, Fits, Resume, NameIndex, LiveIndex;
      hide Redis.Valid, Redis.Sessions, Redis.Guests, Redis.Challenges, Plan;
      world.Others(b, j, n, pc);
      DidNothing(j, world, n, pc);
    }
  }
}

# Passkey service: model and proofs

This project models the passkey authentication service and proves what its handlers and stores
guarantee under concurrency. The service lets a visitor register with a passkey, log in with it, start
as a guest and be promoted later, and manage its credentials; users and credentials live in Postgres,
challenges, sessions and guest tokens in Redis. No handler is one transaction, so every guarantee is
about interleavings.

How the pieces fit:

- `Domain`, `Tables`: the entities, and each SQL statement as a function on the two tables.
- `Service`: the interleaved machine. A request is a process at a program point; one step is one SQL
  statement or Redis command (`Plan`, `Exec`) and the handler's code up to the next one (`Resume`).
  A step may fail before taking effect (`Lost`) or take effect and report an error (`Ambiguous`).
  Environment events add a further credential for a registered user, rename one, or advance the clock.
- `History`, `Invariant`, `StoreSteps`, `Progress`, `Contexts`, `Soundness`, `Runs`: the ghost history,
  the invariant over stores, history and locals of all requests in flight, and its proof for all runs.
- `Calls`, `Outcomes`: what each handler must achieve, as a table over the calls it makes: which stored facts,
  faults and verdicts lead to which answer, and what each call leaves in the stores. It does not mention the
  machine's program points. `Achieved`, `RunOutcomes`, `HandlerOutcomes`: every request of every run, and every
  handler method on every schedule, meets it.
- `Promises`, `Enrolments`, `Logins`, `Successes`: what follows for whole runs: availability, logout, guests,
  attestation, what is stored, and that a request in order can always be brought to its 200.
- `Theorems`, `Accounts`, `ClosedSystem`: the guarantees of logins, enrolments, deletes and challenges.
- `LastCredential`, `Overlap`, `OpenDeletes`, `Witness`: when the last-credential guard holds for a user,
  exactly, and a concrete run from the empty service in which it fails.
- `Liveness`: no request gets stuck.
- `Keyspace`, `RedisStores`, `Database`, `Stores`: the stores as objects over one Redis server and one
  database with its partial unique indexes.
- `Environment`, `Collaborators`, `Handlers`, `Refinement`: the handlers as methods, between whose
  store calls the other requests leave the stores in any consistent state, proved to follow the machine
  step by step; and the converse, that every request of every run is such an execution.
- `Anomalies`, `AssertionLog`, `LoginOverlap`, `HandlerLog`: the anomaly log of the handler, what it adds up
  to over the runs of the machine, where it goes wrong, and that the two are one log. `Conversions`, `BigEndian`, `AuthData`, `Base64Url`: the encodings.

Premises, all explicit in the statements:

- Random tokens and session ids are new (`FreshString`), generated UUIDs are new (`FreshId`).
- The WebAuthn library is an oracle: `Verdict` says whether it parses, accepts or refuses, and what
  credential it reports. The session data carries the user handle of the begin call. Nothing is assumed
  about which counters or ceremonies it refuses.
- `FOR UPDATE` locks the row being deleted and nothing else. The comment at
  internal/store/postgres/credential.go:142-143 says two concurrent deletes cannot both succeed; the code
  guarantees that for two deletes of the same row (`Accounts.RowDeletedOnce`), not for two rows of one
  user. A delete between its count and its commit has its row *open*. The guard is a property of one
  user: it keeps u out of the reach of open deletes at every moment of a run if and only if every count
  for u that passes finds more live rows of u than its own and those already open (`SafeCounts`;
  `LastCredential.SparedExactly`, `OpenDeletes.GuardExactly`). `LastCredentialKept` and
  `SessionsAreBacked` take that as their premise, for u alone. It holds in particular when no request
  counts u's rows while another delete of a row of u is between count and commit (`Serialised`), which a
  lock on the user row would bring about. `Witness.GuardCanFail` is a legal run where it does not hold
  and the user loses every passkey.
- The lemmas of `Witness` and `LoginOverlap` take positive TTLs, as configuration loading demands
  (internal/config/config.go:34-41). No other statement needs them.

## Model

| member | source | states |
|---|---|---|
| Soundness.Sound | internal/api/handler/auth.go:192-854 | In every state of every interleaving of requests, operator inserts, renames and clock ticks: tables and keyspace agree with the history, and each request in flight still finds what its locals say (rows it read, locks it holds, the session or guest it resolved) |
| Runs.RunEvolves | internal/store/postgres/user.go:96-120 | Between any two states of a run users and rows persist: id and created_at of a user, owner, credential id, AAGUID and created_at of a row never change, dead rows stay dead, registered users never change again |
| RunOutcomes.RunsAnswer | internal/api/handler/auth.go:192-854 | For every answered request of every run, of all twelve kinds: the calls it made, in order, each with the very stores the run had before and after it, are a line of the outcomes table, and the answer is that line's: each status and code under its condition on names, ids, expiry, faults and verdicts, each effect field by field |
| Outcomes.AnswerIsDecided | internal/api/handler/auth.go:192-854 | The table leaves no choice: the calls with the stores they met decide the answer |
| HandlerOutcomes.HandlersAnswer | internal/api/handler/auth.go:192-854 | The same of the handler methods: on any schedule their contracts accept, the answer reached comes with calls that are a line of the table, call i finding the state of the schedule and leaving what the method leaves |
| Theorems.LoginSafety | internal/api/handler/auth.go:510-564 | A login mints a session for u only after an earlier step of its own wrote the assertion, without an error, to the exact row it had looked up, live at that moment, owned by u and registered under the presented id: both events are produced, in that order, and the rows after the first are the rows before it with that row updated. This holds whatever was deleted or re-registered in between |
| Logins.RecordedLoginSucceeds | internal/api/handler/auth.go:544-590 | A login with its assertion on record and no fault at any of its own calls answers 200, with a session cookie it minted for the owner of the row asserted |
| Successes.LoginCanSucceed | internal/api/handler/auth.go:464-592 | From every reachable state with a challenge outstanding, a live unlocked credential presented and its assertion accepted, a continuation of the login's own calls is produced that ends in a 200: its cookie is a new session of the owner, the row carries what the authenticator reported, the challenge and the presented guest token are gone, all else is as before |
| Successes.RegistrationCanSucceed | internal/api/handler/auth.go:276-378 | From every reachable state with a register payload outstanding under a free name and a credential attested under a free id: a continuation ends in a 200 with exactly the user and the attested row added and the challenge gone |
| Successes.PromotionCanSucceed | internal/api/handler/auth.go:732-854 | The same for a promote payload of a guest that is still one: the guest's own row becomes the registered user's, with the attested row, a session and the cookie |
| Theorems.AssertionMoment | internal/store/postgres/credential.go:115-135 | Every recorded assertion was put on record by a login standing at the row it had resolved, while that row was live, and the update took effect on it; the step is produced |
| Theorems.CompletionAnswers | internal/api/handler/auth.go:343-378 | A session cookie comes with a 200 of login or promotion and with nothing else, and is a token this request minted for the account it reports; 400, 401 and early conflicts leave at most a consumed challenge; without an ambiguous store error only a 200 has done all the work |
| Theorems.EarlyFailureIsQuiet | internal/api/handler/auth.go:276-343 | A completion answered 400, 401 or with a conflict found before the user write has no write on record: no user born or promoted, no row inserted, updated or deleted |
| Theorems.EarlyFailureWritesNothing | internal/api/handler/auth.go:794-812 | A request with no write on record, whatever it answered, changed neither table at any of its steps: completions answered 400, 401 or an early conflict, and also those ended by a 500 before the user write; so a losing promotion leaves guest row and credentials untouched |
| Theorems.ChallengesConserved | internal/store/redis/challenge.go:36-61 | Saved challenges = outstanding + taken + expired, as sets and in number, in every reachable state |
| Theorems.OneShot | internal/store/redis/challenge.go:47-61 | Of all requests that ever present a session id at most one gets the payload |
| Theorems.CompletionsMatchBegins | internal/api/handler/auth.go:288-292 | Every completion answered 200 is matched with a begin request: that begin saved, before the completion's take, the payload the take got under the session id the completion presented, and has answered 200 with that session id (or met an ambiguous error at the save and answered 500); begin, take and payload are produced |
| Theorems.MatchesAreInjective | internal/api/handler/auth.go:288-292 | No begin is matched with two completions |
| Accounts.PromotionProvenance | internal/api/handler/auth.go:763-794 | Whoever is promoted was promoted by a promote/complete that took a payload promote/begin saved for exactly the guest its own guest cookie resolved to |
| Accounts.RegistrationProvenance | internal/api/handler/auth.go:307-343 | A user is registered afresh only from a payload it took under its session id, saved by a begin request other than promote/begin, under the name in it; that name is nonempty exactly when the request was register/begin, and then it is the one asked for there |
| Enrolments.EnrolmentNeedsAttestation | internal/api/handler/auth.go:307-343 | Every registration and promotion on record was preceded by a call of the same request that took a payload of its own flow, without a fault, with the library attesting a credential; both moments are produced |
| Enrolments.RefusedAttestation | internal/api/handler/auth.go:326-337 | With a payload of the right flow in hand any verdict but an attestation ends the request there with 400, attestation_rejected exactly for a rejected attestation, and only the take on record; an attestation never ends in 400 |
| Enrolments.EnrolmentStores | internal/api/handler/auth.go:382-411 | Every inserted row, at the step that put it in the table, is field by field the credential the library attested at the same request's take (id, public key, transports, flags, AAGUID, count, attestation) under the handle of the payload taken, and no other row changed; register and promote alike, in flight or answered |
| Accounts.CrossFlowBurns | internal/api/handler/auth.go:307-312 | Completing the other flow's ceremony consumes its challenge, leaves nothing else on record and is answered 401 (500 if the take itself met an ambiguous error) |
| Accounts.CrossFlowTouchesNothing | internal/api/handler/auth.go:307-312 | Each step of such a completion, whatever it answers, leaves users, credential rows, sessions and guest tokens as they were and takes at most its own challenge |
| Accounts.NamesAreUnique | internal/store/postgres/migrations/000001_init.up.sql:31-35 | No two registered users share a username in any reachable state |
| Promises.NameAvailability | internal/api/handler/auth.go:205-263 | register/begin answers 409 exactly if its lookup met no fault and a registered user had the name in the state it found; a 200 means nobody had it, and the payload saved carries both names asked for and the random handle; a free name, a mint and no fault make a 200 |
| Promises.PromotionOffer | internal/api/handler/auth.go:666-719 | promote/begin: 409 means the user its cookie resolved to was registered when loaded, 200 that it was a guest, and the payload saved names it, the names asked for and the random handle |
| Accounts.OneWinnerPerName | internal/store/postgres/user.go:46-120 | Of any registrations and promotions racing for one name at most one ever wins, over a whole run |
| Accounts.UserLifecycle | internal/domain/user.go:11-21 | A user row keeps id and created_at, changes only from guest to registered, and has promoted_at set exactly when it was born a guest and no longer is one |
| Accounts.PromotedOnce | internal/store/postgres/user.go:96-120 | However many promotions of one guest race, at most one changes the row |
| Accounts.DeleteAnswers | internal/api/handler/user.go:164-203 | A 204 means exactly one step of the request changed the credential rows: it marked the row named in the path, live until then and owned by the user the session cookie was minted for, and no other row; after any other answer, absent ambiguous errors, no step of the request changed a row |
| Accounts.DeleteStep | internal/api/handler/user.go:164-203 | Each step of a delete request leaves users, sessions, guest tokens and challenges as they were, and the credential rows too unless it marks its own live row, with the delete on record |
| Accounts.RowDeletedOnce | internal/store/postgres/credential.go:151-161 | From the row lock alone: two deletes of one row never both commit |
| Accounts.CredentialTable | internal/store/postgres/migrations/000001_init.up.sql:56-60 | A row is dead exactly when its delete is on record, and live rows never share a credential id, in every reachable state |
| Promises.ProfilesAreRegistered | internal/api/handler/user.go:73-137 | Behind the session gate the user exists and is registered, so the deleted-user branch of GET /users/me is unreachable; a 200 of GET /users/me reports the row of the session's user, a registered one, and a 200 of GET /users/me/credentials lists exactly that user's live rows, each once, oldest first, both as they stood at the step that read them, which is produced |
| LastCredential.SparedExactly | internal/store/postgres/credential.go:137-191 | For each user: at every moment of a run the user, if the owner of a credential row, has a live row that no delete is about to take, if and only if every count for that user that passes finds more live rows than its own and those already open |
| LastCredential.LastCredentialKept | internal/store/postgres/credential.go:137-191 | A user who once has a live credential always keeps one as long as the counts for that user are safe, whatever happens with other users |
| LastCredential.SerialisedIsSafe | internal/store/postgres/credential.go:142-173 | If one user's deletes do not overlap between count and commit, the counts for that user are safe |
| LastCredential.SerialisedKeepsLast | internal/store/postgres/credential.go:142-181 | So a user whose deletes do not overlap never loses the last live credential |
| LastCredential.SessionsAreBacked | internal/api/handler/auth.go:544-571 | As long as the counts for a user are safe, each stored or minted session token of that user belongs to an existing, registered user with a live credential |
| Promises.LogoutRevokes | internal/api/handler/auth.go:594-605 | Logout answers 204; with a cookie it makes one call, and unless that was lost the token is out of the sessions after it, nothing else has changed, and a token that had been issued is never in them again |
| Promises.LoggedOutIsBarred | internal/api/middleware/session.go:46-71 | Whoever comes to the session gate with an issued token after its logout took effect gets 401, or 500 if the gate's call met a fault, and makes no further call |
| Promises.GuestReused | internal/api/handler/auth.go:607-642 | A guest cookie whose two reads met no fault and found a guest row is answered with that user, without a cookie and with nothing on record; in every other case a 200 comes with a user born and a token minted by this request |
| Promises.OperatorSteps | internal/store/postgres/credential.go:193-211 | A rename changes the name of a live row and nothing else; an operator's insert adds the row given, field by field, unless its credential id is taken |
| OpenDeletes.OpenDeletesDecide | internal/store/postgres/credential.go:142-181 | In every reachable state: the open deletes of a user have a legal continuation, of their own steps alone, that leaves the user without a live credential, if and only if all the user's live rows are open |
| OpenDeletes.GuardExactly | internal/store/postgres/credential.go:142-181 | For each user: at no moment of a run is the user, as the owner of a row, in reach of such a continuation, if and only if every count for that user is safe |
| Overlap.OverlappingDeletes | internal/store/postgres/credential.go:142-181 | Any number of overlapping deletes: from any reachable state, deletes of distinct live rows of one user that all count before the first commits are all answered 204, and the user is left with no live credential exactly when they name all live rows |
| Witness.TwoPasskeys | internal/api/handler/auth.go:649-854 | A concrete legal run from the empty service: a guest is made, begins and completes a promotion and is given a second passkey; the state reached is given in full |
| Witness.BatchIsReady | internal/store/postgres/credential.go:142-181 | In that state the requires of the overlapping deletes are met |
| Witness.GuardCanFail | internal/store/postgres/credential.go:142-181 | A legal run from the empty service, produced: its user has two live credentials at one moment and none at the end, both deletes are answered 204, and the counts for that user were not all safe |
| ClosedSystem.OneCredentialPerUser | internal/api/router.go:56-74 | With the routed handlers alone every user owns at most one credential row, every row stays live, and no DELETE is answered 204 |
| ClosedSystem.RegisteredUsersAccounted | internal/api/handler/auth.go:343-362 | With the routed handlers alone registered users = users with a credential row + users whose row is about to be inserted + users whose request gave up after the user write, as sets and in number |
| ClosedSystem.UserAccounted | internal/api/handler/auth.go:794-819 | Each registered user is in exactly one of those three situations |
| Liveness.CallsAreBounded | internal/api/handler/auth.go:192-854 | In any run, whatever interferes or fails, no request makes more than six store calls: the calls made and those still possible from the present program point never exceed what the handler's first point allows |
| Liveness.WaitsForOneThatMoves | internal/store/postgres/credential.go:144-191 | In every reachable state a request that must wait for a row lock waits for one other request, which holds that row inside its transaction and itself never waits: no deadlock and no chain of waits |
| Liveness.EveryRequestCanBeAnswered | internal/store/postgres/credential.go:144-191 | From every reachable state a continuation is produced, of fault-free steps of the requests in flight alone and no longer than six for each of these, after which every request has its answer and no row is locked |
| Refinement.RunsAreHandlerRuns | internal/api/handler/auth.go:192-854 | For every request answered in any run there is a schedule of the states and choices it met, accepted by the handler methods below, on which it reaches exactly that answer; each call finds and leaves the very states of the run |
| Refinement.AnswerIsUnique | internal/api/handler/auth.go:192-854 | A schedule determines the answer, so the handler method on it gives the answer of the run |
| Handlers.AuthHandler.BeginRegister | internal/api/handler/auth.go:192-264 | Whatever the other requests do between its store calls, the method takes the request through the machine's program points to the answer it returns, and each call leaves in the stores what the machine's operation leaves; 409 for a taken name, 500 without randomness; which answer under which condition: HandlerOutcomes.HandlersAnswer, Promises.NameAvailability |
| Handlers.AuthHandler.CompleteRegister | internal/api/handler/auth.go:276-378 | The same, up to the verified attestation: one-shot take, cross-flow refusal, attestation verdicts; conditions and effects: HandlerOutcomes.HandlersAnswer, Enrolments |
| Handlers.AuthHandler.Enrol | internal/api/handler/auth.go:339-377 | The same from there: user row, conversion, credential row, with username_taken, credential_exists and internal_error in their places |
| Handlers.AuthHandler.BeginLogin | internal/api/handler/auth.go:421-450 | The same, for a payload that carries no user |
| Handlers.AuthHandler.CompleteLogin | internal/api/handler/auth.go:464-592 | The same, and the logger gets the warnings of the assertion whose update was attempted and no others; conditions and effects: HandlerOutcomes.HandlersAnswer, Logins, Successes |
| Handlers.AuthHandler.Resolver | internal/api/handler/auth.go:510-536 | The two reads of the resolver; nothing resolved is a 401, otherwise the request stands at the update with exactly the resolved user and credential, and the library is handed that user with that one credential converted |
| Handlers.AuthHandler.Record | internal/api/handler/auth.go:538-590 | Verdict, anomaly log, update, session, in that order, each failure answered as the code answers it; that no fault then means a 200: Logins.RecordedLoginSucceeds |
| Handlers.AuthHandler.SignIn | internal/api/handler/auth.go:564-590 | Session minted, presented guest token dropped (an error there is ignored), cookie set |
| Handlers.AuthHandler.Logout | internal/api/handler/auth.go:596-605 | Always 204; the presented session is deleted if the store obeys; what it removes: Promises.LogoutRevokes |
| Handlers.AuthHandler.Guest | internal/api/handler/auth.go:615-642 | A guest cookie that resolves to a guest is reused, anything else makes a new guest and token; when it reuses: Promises.GuestReused |
| Handlers.AuthHandler.BeginPromote | internal/api/handler/auth.go:649-719 | The payload names the guest the cookie resolved to; a registered user is refused with 409 |
| Handlers.AuthHandler.ResolveGuest | internal/api/handler/auth.go:859-876 | No cookie, no token, no user and store errors are one refusal |
| Handlers.AuthHandler.CompletePromote | internal/api/handler/auth.go:732-792 | As CompleteRegister, with the cross-flow check reversed |
| Handlers.AuthHandler.Promote | internal/api/handler/auth.go:794-854 | Guest row flipped, credential inserted, then sign-in; taken name and lost guest are told apart; what it stores: Enrolments.EnrolmentStores |
| Handlers.DomainCredentialFromLib | internal/api/handler/auth.go:382-411 | Equals the specified conversion: transports in order, empty AAGUID absent, other lengths than sixteen refused |
| Handlers.LibCredentialFromDomain | internal/api/handler/auth.go:927-949 | Equals the specified conversion back |
| Handlers.UserHandler.RequireSession | internal/api/middleware/session.go:46-71 | Either the refusal the machine gives (401 or 500) or the user id the session resolves to, passed on |
| Handlers.UserHandler.Me | internal/api/handler/user.go:73-99 | As the auth handlers: the machine's answer under any interference |
| Handlers.UserHandler.ListCredentials | internal/api/handler/user.go:102-137 | The same, and the response lists each returned credential's public fields in order |
| Handlers.UserHandler.DeleteCredential | internal/api/handler/user.go:150-204 | The same through list, ownership check and soft-delete, with 204, 400, 404, 409 and 500 in their places |
| Handlers.IsAmong | internal/api/handler/user.go:178-184 | The loop finds the id exactly when one of the listed credentials has it |
| Handlers.Items | internal/api/handler/user.go:111-136 | The response loop keeps order and copies the public fields, the AAGUID only when present |
| Handlers.ItemShowsRow | internal/api/handler/user.go:111-136 | A list item shows the stored row's own public fields |
| Stores.UserStore.CreateGuest | internal/store/postgres/user.go:32-42 | The users table becomes the old one with the new guest row; guest names are not indexed |
| Stores.UserStore.CreateRegistered | internal/store/postgres/user.go:46-66 | Refused exactly when a registered row has the name; otherwise row and index grow together |
| Stores.UserStore.GetByID | internal/store/postgres/user.go:69-77 | The row under the id or not found |
| Stores.UserStore.GetByUsername | internal/store/postgres/user.go:82-90 | The lookup through the partial index equals a scan of the registered rows |
| Stores.UserStore.PromoteGuest | internal/store/postgres/user.go:96-120 | No guest row under the id is not-found, even for a taken name; a taken name changes nothing; otherwise row and index change together |
| Database.NameLookup | internal/store/postgres/migrations/000001_init.up.sql:31-35 | A partial index equal to the registered rows implies unique names and answers exactly as a table scan does |
| Stores.CredentialStore.Insert | internal/store/postgres/credential.go:30-60 | Refused exactly when a live row has the credential id or the user does not exist, the unique violation first; otherwise row and index grow together |
| Stores.CredentialStore.GetByCredentialID | internal/store/postgres/credential.go:64-74 | The lookup through the live index equals a scan of the live rows |
| Stores.CredentialStore.ListByUserID | internal/store/postgres/credential.go:77-109 | The loop over the cursor returns the user's live rows, each once, oldest first |
| Stores.CredentialStore.UpdateAfterAssertion | internal/store/postgres/credential.go:115-135 | Count, flags and last use of the live row change; a dead or missing row is not-found and nothing changes |
| Stores.CredentialStore.SoftDelete | internal/store/postgres/credential.go:144-191 | Lock, count, mark and commit with other requests in between: the machine's four steps in order, ending at the answer the result stands for, the lock released on every path |
| Stores.CredentialStore.Counted | internal/store/postgres/credential.go:162-173 | Under the lock, at most one live row of the owner rolls the transaction back |
| Stores.CredentialStore.Committed | internal/store/postgres/credential.go:175-188 | The commit buries the row and takes it out of the live index |
| Stores.CredentialStore.Rename | internal/store/postgres/credential.go:195-211 | Only the name of the live row changes; otherwise not-found |
| Stores.ReleasedId | internal/store/postgres/migrations/000001_init.up.sql:56-60 | A credential id is refused while live; once deleted it can be inserted again, the new row is found and the dead one is intact |
| Stores.ListingExists | internal/store/postgres/credential.go:77-86 | The list query always has an answer: any user's live rows can be listed, each once, oldest first |
| Database.LiveLookup | internal/store/postgres/migrations/000001_init.up.sql:56-60 | An index equal to the live rows implies unique live ids and answers exactly as a table scan does |
| Keyspace.KeyHistory | internal/store/redis/session.go:32-73 | A key holds v exactly when a SET put v there less than its TTL ago and no SET, DEL or GETDEL of it came since |
| Keyspace.PrefixesDisjoint | internal/store/redis/guest.go:14-43 | No client-supplied string makes the keys of two stores meet |
| Keyspace.KeyspaceRefines | internal/store/redis/challenge.go:14-61 | Every operation of the three stores, as one command on the shared keyspace, is that operation on its own timed map and leaves the other two alone, for every string |
| Keyspace.StoreHistory | internal/store/redis/guest.go:32-73 | After any mixture of calls of the three stores a string resolves to v in a store exactly when that store issued it for v less than a TTL ago and has not revoked it since |
| Keyspace.SessionHistory | internal/store/redis/session.go:32-73 | Get(t) answers u exactly when Create returned t for u less than a TTL ago and no Delete(t) came since |
| RedisStores.ChallengeStore.Save | internal/store/redis/challenge.go:39-45 | The challenge map gets the payload with its TTL; sessions and guests are untouched |
| RedisStores.ChallengeStore.Take | internal/store/redis/challenge.go:50-61 | An unexpired payload is returned and gone; anything else is not-found; sessions and guests are untouched |
| RedisStores.SessionStore.Create | internal/store/redis/session.go:32-43 | The session map gets the fresh token; guests and challenges are untouched |
| RedisStores.SessionStore.Get | internal/store/redis/session.go:47-63 | The unexpired user id or not-found, nothing changed |
| RedisStores.SessionStore.Delete | internal/store/redis/session.go:67-73 | The token is gone, present before or not |
| RedisStores.GuestStore.Create | internal/store/redis/guest.go:32-43 | The guest map gets the fresh token; sessions and challenges are untouched |
| RedisStores.GuestStore.Get | internal/store/redis/guest.go:47-63 | The unexpired user id or not-found, nothing changed |
| RedisStores.GuestStore.Delete | internal/store/redis/guest.go:67-73 | The token is gone, present before or not |
| Anomalies.Logger.RecordCounterAnomalies | internal/api/handler/auth.go:883-922 | Appends exactly the warnings due: counter reset, AAGUID mismatch (parsable values only), flag change, in that order |
| Anomalies.LoginAdds | internal/api/handler/auth.go:883-922 | The warnings of a login that compares with the last observation and the AAGUID of registration add to each tally exactly what its own observation adds to the drops from nonzero to zero, the mismatches and the flag changes |
| AssertionLog.RunLogIsExact | internal/api/handler/auth.go:538-558 | In any legal run, whatever else is interleaved, in which the logins on a row are serialised from lookup to update and their updates succeed, the warnings logged at those updates tally exactly with registration and what the authenticators reported: flag warnings = adjacent changes, counter warnings = drops from nonzero to zero, mismatch warnings = parsable AAGUIDs other than the registered one |
| AssertionLog.RowHoldsLastSeen | internal/store/postgres/credential.go:115-123 | In every legal run, serialised or not, a row carries the count and flags of the last update that took effect on it, and the AAGUID of its registration |
| AssertionLog.ComparesWithLookup | internal/api/handler/auth.go:510-558 | Any login at its update, disturbed or not, compares with what was the last observation at its lookup, a moment that is produced, and with the AAGUID of registration |
| AssertionLog.LogsSay | internal/api/handler/auth.go:883-922 | What a login logs in a run, field by field and in order: each warning names the row and its owner, as stored values the last observation at its lookup and the AAGUID of registration, as asserted ones what the authenticator reports |
| AssertionLog.ComparesWithLast | internal/api/handler/auth.go:510-558 | A login at its update, with no other update on the row since its lookup, compares with the last observation and with the AAGUID of registration |
| LoginOverlap.OverlapLogsTwice | internal/api/handler/auth.go:510-558 | From every reachable state with a live credential that nobody is deleting, and for any report whose backup flags differ from the row's, a run is produced in which two logins look the row up before either writes: the observations change once, the log gets two flag warnings |
| LoginOverlap.LogCanMiscount | internal/api/handler/auth.go:510-558 | A legal run from the empty service, produced, whose flag warnings for a live row are not as many as the flag changes observed; its logins were not serialised |
| HandlerLog.RunsLogAsHandlers | internal/api/handler/auth.go:550-558 | For every login answered in any run, the warnings the run says it logged are those its handler method appends to the logger on the schedule cut out of that run |
| Conversions.RoundTrip | internal/api/handler/auth.go:382-411 | Library to domain to row to domain to library keeps id, key, flags, transports in order, every uint32 count and a 16-byte AAGUID; an empty AAGUID stays absent; conversion fails exactly for other lengths |
| Conversions.RowRoundTrip | internal/api/handler/auth.go:927-949 | A stored credential handed to the library and converted back is the same credential up to what the database adds |
| Conversions.ScanKeeps | internal/store/postgres/credential.go:213-235 | A scanned credential has everything its row has, deletion aside, if the count fits 32 bits |
| BigEndian.DecodeEncode | internal/testutil/webauthntest/authenticator.go:189-200 | Fixed-width big-endian numbers decode to themselves |
| BigEndian.EncodeDecode | internal/api/handler/auth.go:401-408 | Every byte string is the encoding of its value at its own length, as UUID bytes are |
| BigEndian.ByteAt | internal/testutil/webauthntest/authenticator.go:189-200 | Byte i of n in w bytes is n / 256^(w-1-i) modulo 256: the most significant byte comes first |
| AuthData.Authenticator.BuildAuthData | internal/testutil/webauthntest/authenticator.go:171-205 | 37 bytes, or 55 + n + 77 with an n-byte credential id; the standard's parser gives back every field, when attested exactly if n < 65536; fails exactly when the public key is not an uncompressed P-256 point |
| AuthData.Authenticator.FlagByte | internal/testutil/webauthntest/authenticator.go:174-185 | UP and UV set, BE, BS and AT as asked, ED clear |
| AuthData.Authenticator.CosePublicKey | internal/testutil/webauthntest/authenticator.go:216-233 | 77 bytes from which both coordinates of the point read back in their places; any other point form is refused |
| AuthData.Authenticator.Authenticate | internal/testutil/webauthntest/authenticator.go:116-129 | The counter steps once, modulo 2^32, before the data is built, and the data carries it |
| AuthData.ParseLayout | internal/testutil/webauthntest/authenticator.go:187-202 | The parser inverts the layout exactly when the credential id's length fits two bytes, with the lengths above for any key |
| AuthData.CountersIncrease | internal/testutil/webauthntest/authenticator.go:124-129 | n assertions in a row give strictly increasing counters exactly when start + n < 2^32 |
| Base64Url.RoundTrip | internal/api/static/index.html:151-167 | For every byte string: decoding inverts encoding, the output has only URL-safe letters and no padding, its length is ceil(4n/3) |
| Base64Url.BufToB64u | internal/api/static/index.html:162-167 | The loop, btoa, the replacements and the trim give the unpadded URL-safe form of RFC 4648 section 5 |
| Base64Url.B64uToBuf | internal/api/static/index.html:151-160 | Fails exactly where atob would throw; otherwise fills the buffer with the decoded bytes |
| Base64Url.PaddingRestored | internal/api/static/index.html:151-155 | The padding formula restores exactly what atob strips, unless the length is 1 modulo 4 |
| Base64Url.Accepts | internal/api/static/index.html:151-160 | A string without padding and white space decodes exactly when its letters are base64 or base64url and its length is not 1 modulo 4 |
| Base64Url.ReencodesExactly | internal/api/static/index.html:151-167 | Re-encoding a decoded string gives it back exactly when it is canonical: URL-safe letters, possible length, spare bits zero |

## Left out

- The WebAuthn library's cryptography, CBOR and JSON parsing: an oracle. The one CBOR map the software
  authenticator writes is modelled byte by byte; client data, signatures and attestation objects are not.
- Accounts.RegistrationProvenance: a payload of the login flow is told apart by its empty name only; that the library would refuse a login session in a create ceremony is not assumed.
- AssertionLog.RunLogIsExact: is about logins serialised from lookup to update; of interleaved ones it is false (LoginOverlap), and they may overwrite a higher count with a lower one, because the update is unconditional.
- Base64Url.Accepts: is about strings without padding and white space; atob itself also takes those, and Decoded models that.
- Monotonic sign counts under concurrent logins: not claimed, for the same reason.
- Fair scheduling and lock time-outs: who moves next is left open; `Liveness` says that someone can, and how
  few calls are left.
- "Every registered user has a credential": not an invariant, since the user row and the credential row
  are separate writes; RegisteredUsersAccounted says what holds instead.
- Deleting all guest tokens at promotion: the code deletes only the token presented.
- Postgres details: an insert that meets an uncommitted delete of the same credential id waits in
  Postgres, here it is refused at once; now() is the time of the step, in Postgres the start of the
  transaction; a statement that fails inside a transaction and the rollback after it are one step.
- Undecodable challenge payloads and user ids: each store writes its own kind only, which is proved, so
  the handlers' unmarshal errors do not arise; encoding errors of the begin handlers are part of the
  choice `mint`.
- HTTP plumbing, routing, cookie attributes and cookie clearing, error texts, logging other than the
  anomaly warnings, health probes, migrations as such, configuration, the attestation allow-sets, the
  demo page apart from its two helpers: I/O or table lookups that would add only easy members.

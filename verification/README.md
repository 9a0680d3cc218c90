# Verified model of the auth service

A Dafny model of the identity service, with proofs. Its centre is the session
subsystem: opaque access and refresh tokens that a session service mints,
verifies, rotates and revokes, over a transactional graph database in which
each operation is one or several transactions. Around it stand the rate
limiter and its sharded lock, user registration, pagination, and the JWT path.

`dafny verify dfyconfig.toml` checks everything.

## How the session model is built

| layer | files | what it is |
|---|---|---|
| database | `Dgraph.dfy`, `StoredValues.dfy` | nodes as sets of predicates, a commit counter, the last commit of every (uid, predicate) key and every `@upsert` index entry; a transaction commits only if nothing it writes was committed since it began, and a mutation that names a uid never handed out is refused. This is the one assumption about the store. |
| sessions | `Sessions.dfy`, `SessionStore.dfy` | a session's write-once core and its status, the stored form of both, the queries and the five mutations |
| repository | `SessionRepo.dfy`, `SessionRace.dfy`, `SessionListing.dfy` | the methods as a class, with the triple-building loops, every fault, and the commits of others between two transactions |
| protocol | `SessionProtocol.dfy` | all operations as processes with a program counter, interleaving at every round trip, a clock that only advances, round trips that may be refused or lose their answer |
| service | `SessionService.dfy` | the service methods as a class; each is proved to be a run of the protocol |
| invariant | `SessionInvariants.dfy`, `SessionPreservation.dfy`, `SessionSteps.dfy` | one invariant of the world, one assertion per program point, and what steps of others may change (rely and guarantee) |
| theorems | `SessionTheorems.dfy`, `SessionSafety.dfy`, `SessionMeaning.dfy`, `SessionOutcomes.dfy`, `Families.dfy`, `FamilyRefinement.dfy`, `SessionSchedules.dfy`, `SessionWrites.dfy`, `SessionRefreshes.dfy`, `SessionCalls.dfy`, `SessionOpens.dfy`, `SessionCeiling.dfy` | what holds of every run, and of every call as a function of its schedule |
| runs | `SessionRuns.dfy`, `SessionGaps.dfy` | single operations as pieces of runs, and the runs in which a documented property fails |

The rest follows the source file by file: `ShardHash.dfy`, `ShardedMu.dfy` and
`RateLimiter.dfy` the middleware, `Text.dfy`, `Users.dfy`, `UserProtocol.dfy`,
`UserUpdates.dfy`, `UserOutcomes.dfy`, `UserRepo.dfy` and `Pagination.dfy` the user store,
`Base64Url.dfy` and `Jwt.dfy` the JWT path. `Prelude.dfy` and `Times.dfy` are
shared vocabulary.

A *family* is a login or a context activation together with all rotations of
it. A `Trace` is a configuration, a starting time and any list of events; `At`
is the state it reaches, `Then` a continuation. A call is a list of turns, each
with the steps of others before it and the fate of its round trip: `Sees` is the
world its k-th round trip meets, `Left` the state it leaves, `Play` the end. `births`, `succ`, `tails` and
`mints` are records kept for stating properties: they decide nothing a step
does to the database or answers, except that `mints` keeps the entropy source
from repeating itself. A session is *live* while its node carries
`revoked = false`.

SHA-256 is taken to be injective, the entropy source never to repeat, the
clock never to run backwards. Instants are nanoseconds, cut to seconds when
stored.

## Where code and documentation differ

The model follows the code.

* The documentation says that after a replay every session of the user is
  revoked. The list and the write are two transactions: `ReplayMissesLogin` and
  `ReplayMissesRotation` end in a reported replay with a live session, a new
  login in one and a rotation of the replayed token's own family in the other.
  `SweepExact` and `SweptForGood` say exactly which sessions die, and
  `ReplayCompletes` that a call whose round trips are answered gets that far.
* A refresh that fails with a store error may have rotated: the new session is
  read back in a transaction of its own. `RefreshErrorIff` says exactly when, by
  the fate of the round trips; `ErrorAfterCommit` is such a run.
* Two refresh calls that race each other are documented as a replay. They are one
  only if the loser looks up, or reads in its transaction, after the winner has
  committed; past its read it gets a plain error and nothing is swept
  (`RacingRefreshes`). `RefreshIff` says exactly when a refresh ends in tokens, as a
  replay or in an error; a rotation ready to commit aborts exactly when its session
  is dead (`AbortsIff`, and `RotationRace` for the mutations that do it); and of
  all that race past the read exactly the first to commit wins (`ExactlyOne`).
* `MaxSessionLifetime` is a hard ceiling on any session in its comment and is
  used nowhere. `CeilingIff` gives the lifetimes, and the pause between check
  and mint, under which no access token of a family is accepted past it. The
  default lifetimes are within them unless a refresh pauses for about sixty days
  (`DefaultsKeepCeilingIff`); those read from Vault are not checked. A context
  activation starts a new family with a new deadline, so for the login a session
  descends from no usable configuration keeps it (`LoginCeilingIff`), not even
  when every activation is prompt (`ActivationChain`).
* A context activation reads, revokes and creates in three transactions. It
  succeeds by what its lookup saw (`ActivationIff`), so two of one session both
  open one exactly when both looked it up before it died (`TwoActivationsIff`,
  `TwoActivations`), and a rotation can survive beside it
  (`RotationRacesActivation`).
* `Revoke` is documented as idempotent and a no-op on a revoked session; it
  rewrites `revoked_at` and `updated_at`. It is one exactly within the second of
  the first (`RevokeTwiceIff`, `RevokeNoOpIff`).
* `ListForUser` is documented newest first and sorts ascending by last use. The
  two agree exactly when all listed sessions were last seen in the same second
  (`NewestFirstIff`, `OldestFirst`).
* Registration lower-cases the email in the query and stores it as given;
  that is sound because validation lower-cased it before (`EmailUniqueIff`,
  `NormalisedUnique`).
* `Update` does not look whether a nickname is taken (`NicknameShared`). Over
  every run a nickname stays with one user exactly when every update that gave
  it out would have found nobody else holding it (`NicknameUniqueIff`).
* `Update` leaves empty text out of what it writes, so it returns a cleared
  field that is not cleared; exactly when is `CommittedUpdateIff`.
* The limiter forgets idle clients. A client can tell, and gets more than burst
  and rate allow, exactly when a burst is not refilled in five idle minutes less
  the longest wait of a request between lookup and question
  (`EvictionUnobservableIff`, `RateBoundIff`).
* The shard locks do not make the limiter's table exclusive as a whole
  (`TogetherIff`); the table is modelled one key at a time.

## Model

| member | source | states |
|---|---|---|
| OpaqueToken.HexInjective | internal/token/opaque.go:95-105 | the hex text of the entropy determines the entropy, for any length |
| OpaqueToken.HexReads | internal/token/opaque.go:95-105 | the text has two lower-case hex digits a byte, the higher one first |
| OpaqueToken.TokensDisjoint | internal/token/opaque.go:30-34 | two raw tokens are equal exactly when prefix and entropy are: access, refresh and JTI values never meet |
| OpaqueToken.Generate | internal/token/opaque.go:95-105 | prefix and 32 bytes of entropy in hex, with the hash of that text; an error exactly when the source runs dry |
| OpaqueToken.GenerateJTI | internal/token/opaque.go:58-64 | the same for a JTI, with 16 bytes |
| Times.TruncIdempotent | internal/repository/dgraph/session.go:122-134 | an instant that went through RFC 3339 once is not moved by going through it again |
| Dgraph.CommitExtends | internal/repository/dgraph/session.go:443-451 | a commit changes no predicate and no index entry outside the keys it stamps; with the conflict test this is the database assumption, first committer wins |
| Dgraph.DeleteExtends | internal/repository/dgraph/session.go:552-563 | the same for a delete of nodes |
| Sessions.ReadBack | internal/repository/dgraph/session.go:122-160 | a session written as triples and read back is the session itself, times cut to seconds, lists as sets, not revoked |
| Sessions.CoreKept | internal/repository/dgraph/session.go:460-473 | blocks of `revoked`, `revoked_at`, `replaced_by_jti`, `updated_at` and `last_seen_at` leave type, owner and every write-once field as they were |
| SessionStore.Select | internal/repository/dgraph/session.go:567-588 | a query returns exactly the matching nodes, each once |
| SessionStore.ApplyEffect | internal/repository/dgraph/session.go:189-564 | node by node, what a committed create, revoke, rotation, touch or purge leaves behind |
| SessionStore.ApplyExtends | internal/repository/dgraph/session.go:189-564 | every committed mutation is one atomic step that takes the next timestamp and at most one new uid |
| SessionRepository.CreateQuadsEffect | internal/repository/dgraph/session.go:220-228 | the scalar block and the three loops of list triples together build exactly the node a session is stored as, and write exactly its keys |
| SessionRepository.RotateCommits | internal/repository/dgraph/session.go:396-448 | the text RotateTokens assembles is the atomic mutation "replace and create", with the same conflicts |
| SessionRepository.SessionRepo.Create | internal/repository/dgraph/session.go:189-240 | new database state and answer for each fate of the two round trips; an error after the commit leaves the session in place |
| SessionRepository.CreatedSession | internal/repository/dgraph/session.go:189-240 | what a created session reads back as, field by field from the input: each under its own name, user agent and address included |
| SessionRepository.SessionRepo.AppendItems | internal/repository/dgraph/session.go:220-228 | the loop appends one triple per element, in order |
| SessionRepository.SessionRepo.GetByID | internal/repository/dgraph/session.go:279-304 | the typed session at that uid, or none |
| SessionRepository.SessionRepo.RotateTokens | internal/repository/dgraph/session.go:336-457 | not found, replayed, conflict, lost answer or success, and the exact database in each case, whatever others commit between read and commit |
| SessionRepository.RotatedSession | internal/repository/dgraph/session.go:396-442 | what a rotation reads back as, field by field: new hashes, times, user agent and address from the input, identity and, unless the input carries a list, permissions from the replaced session |
| SessionRepository.SessionRepo.Revoke | internal/repository/dgraph/session.go:460-473 | the node is revoked with the present time, whether or not it was already; a uid never handed out is refused |
| SessionRepository.SessionRepo.RevokeAllForUser | internal/repository/dgraph/session.go:476-512 | exactly the unrevoked sessions of the user at the list are revoked, in a second transaction that sees what others did meanwhile |
| SessionRepository.SessionRepo.Touch | internal/repository/dgraph/session.go:515-523 | only `last_seen_at` of that uid is written; a uid never handed out is refused |
| SessionRepository.SessionRepo.DeleteExpired | internal/repository/dgraph/session.go:526-564 | the typed sessions whose deadline has come by the second of the list, and no others, are deleted in a second transaction; the count is that of the list |
| SessionRepository.SessionRepo.ListForUser | internal/repository/dgraph/session.go:307-330 | each of the user's sessions that is not revoked, once, least recently seen first |
| SessionListing.NewestFirstIff | internal/repository/session.go:33-35 | the list is in the documented order, most recently seen first, if and only if all listed sessions were last seen in the same second |
| SessionListing.OldestFirst | internal/repository/dgraph/session.go:306-312 | two logins a second apart are listed oldest first |
| SessionRaces.RotationRace | internal/repository/dgraph/session.go:365-451 | a rotation that read a live session loses at commit if and only if another commit revoked, rotated or purged that session since; touches, logins and other sessions never abort it |
| SessionRaces.UnwrittenAlways | internal/repository/dgraph/session.go:189-564 | in every database that grounded mutations build, uids not handed out carry no write, as the race theorem asks |
| SessionServices.CallIsRun | internal/service/session.go:89-419 | a service call made in a reachable state, with any steps of others before each of its round trips, is a run of the machine, so every theorem below holds of it |
| SessionServices.SessionService.Create | internal/service/session.go:89-135 | the method, interleaved with anything, takes exactly the machine's steps: mint, commit, read back |
| SessionServices.SessionService.VerifyToken | internal/service/session.go:166-233 | the same for verification; on success the answer is out before the touch, which stays behind as a pending step |
| SessionServices.SessionService.Refresh | internal/service/session.go:258-329 | the same for lookup, replay branch, expiry check, minting, rotation |
| SessionServices.SessionService.CommitRotation | internal/repository/dgraph/session.go:396-457 | the same for the writing half of a rotation: conflict, lost answer, success |
| SessionServices.SessionService.RevokeAll | internal/repository/dgraph/session.go:476-512 | the same for list and write of a bulk revocation |
| SessionServices.SessionService.Logout | internal/service/session.go:335-345 | the same for logout; a token nobody holds is a success |
| SessionServices.SessionService.LogoutAll | internal/service/session.go:349-351 | the same for logging out everywhere |
| SessionServices.SessionService.RevokeSession | internal/service/session.go:355-368 | the same; a session of somebody else is refused |
| SessionServices.SessionService.ActivateContext | internal/service/session.go:382-419 | the same for read, revoke, create |
| SessionServices.SessionService.Purge | internal/repository/dgraph/session.go:526-564 | the same for the purge |
| SessionSteps.NextKeeps | internal/service/session.go:89-432 | every step of every operation, with every fault, keeps the invariant of the store, moves it only forward, and leaves the operation where its own assertion holds |
| SessionSteps.Reachable | internal/service/session.go:89-432 | the invariant holds in every state any interleaving of any number of operations can reach |
| SessionTheorems.IndexSound | internal/repository/dgraph/session.go:567-588 | digests and JTIs of all sessions are pairwise different, a lookup by digest has at most one match, and a token of one type never resolves as the other |
| SessionTheorems.SingleSuccessor | internal/repository/dgraph/session.go:336-457 | a session gains at most one rotation successor, and its stored `replaced_by_jti` names exactly that one |
| SessionTheorems.ChainsAreSimple | internal/repository/dgraph/session.go:396-404 | the links `replaced_by_jti` to `refresh_jti` form disjoint, acyclic, simple chains |
| SessionTheorems.OneLivePerFamily | internal/repository/dgraph/session.go:396-451 | no family has two live sessions, and a live one has not been replaced |
| SessionSafety.CommitFindsLive | internal/repository/dgraph/session.go:443-451 | a rotation commits only if its session is still live at that moment |
| SessionSafety.RevokedNeverReplaced | internal/repository/dgraph/session.go:378-381 | once a session is revoked or purged it never gains a successor in any continuation, however early the rotation began |
| SessionSafety.NoResurrection | internal/repository/dgraph/session.go:515-523 | a purged session is never again visible to lookups, lists or purges, in spite of late touches and revocations |
| SessionSafety.SweepExact | internal/repository/dgraph/session.go:476-512 | when a bulk revocation commits, exactly the user's sessions committed by its list snapshot are dead; nodes of other users are untouched |
| SessionSafety.SweptForGood | internal/repository/dgraph/session.go:476-512 | a session of that user live at any later time was committed after the snapshot |
| SessionSafety.DeadlineConserved | internal/service/session.go:296-311 | after any number of rotations the stored refresh deadline is the root's, cut to seconds, and no access expiry passes it by more than the access lifetime and the pause between check and mint |
| SessionSafety.PurgeSafe | internal/repository/dgraph/session.go:526-564 | a purge changes only sessions whose refresh deadline had passed at its list, whatever happened in between |
| SessionOutcomes.PurgedForGood | internal/repository/dgraph/session.go:526-564 | once the delete commits, every listed session is gone from every query, then and in every continuation |
| SessionSafety.NoRefreshPastDeadline | internal/service/session.go:283-311 | every rotation passed its expiry check by the deadline its whole family shares |
| SessionSafety.PurgeBoundary | internal/repository/dgraph/session.go:526-540 | a session the purge lists could still be refreshed exactly when the clock stands on its deadline |
| SessionSafety.OneWinner | internal/service/session.go:258-329 | of any number of refreshes with one raw token at most one commits |
| SessionWrites.AbortsIff | internal/repository/dgraph/session.go:443-451 | in every reachable state a rotation that is ready to commit will abort if and only if its session is no longer live |
| SessionRefreshes.RefreshIff | internal/service/session.go:258-329 | over every schedule with answered round trips: tokens if and only if the session is live at lookup, read and commit and in time at the check; a replay if and only if lookup or read find it dead; an error if and only if it was purged before the read or died between read and commit |
| SessionRefreshes.UnknownToken | internal/service/session.go:258-267 | a token that names no session at the lookup is not found |
| SessionRefreshes.ExactlyOne | internal/repository/session.go:37-45 | of any number of refreshes with one raw token that have read its session, the first to commit gets tokens and every other fails, in every run in which nobody else revokes or purges it before |
| SessionCalls.VerifyIff | internal/service/session.go:194-233 | over every schedule and fault, what a verification of a session's access token answers: the principal it was born with if and only if the answered lookup finds it live and the clock at the check has not passed its expiry; revoked, expired, not found or a store error exactly otherwise |
| SessionCalls.VerifyTouches | internal/service/session.go:211-230 | a verification writes nothing but the last use of the session whose token it accepted |
| SessionCalls.VerifyUnknown | internal/service/session.go:194-203 | a token no session was born with is not found |
| SessionCalls.LogoutIff | internal/service/session.go:335-345 | over every schedule and fault: success with exactly the named session revoked, success with nothing written if it is gone, an error exactly when a round trip fails |
| SessionCalls.LogoutUnknown | internal/service/session.go:341-343 | a token no session was born with logs out of nothing, successfully |
| SessionCalls.RevokeIff | internal/service/session.go:355-368 | over every schedule and fault: not found, not owned, or exactly that session revoked, by what the lookup finds |
| SessionCalls.LogoutAllIff | internal/service/session.go:349-351 | over every schedule and fault: exactly the sessions of the requested user that are live at the list are revoked by the write, and no other node changes |
| SessionCalls.LoggedOutEverywhere | internal/service/session.go:347-351 | after a success every session of the requested user created by the time of the list is dead, then and in every continuation |
| SessionCalls.PurgeIff | internal/repository/dgraph/session.go:526-564 | over every schedule and fault: the write removes exactly the stored sessions whose refresh deadline had come by the second of the list, and the count reported is theirs |
| SessionCalls.FaultReported | internal/service/session.go:89-419 | a failed round trip of a login, a refresh or an activation ends it with an error, or with the replay it was going after |
| SessionOpens.OpenIff | internal/service/session.go:89-135 | over every schedule and fault, what a login creates, field by field: principal, version, user agent and address as requested, digests of the minted tokens, lifetimes counted from the mint; and what the client is shown |
| SessionOpens.RefreshCreates | internal/service/session.go:287-329 | what a refresh of a live session creates, field by field, in place of the old one: the same principal, version and deadline, the caller's user agent and address, the minted tokens, a fresh access lifetime; and what the client is shown |
| SessionOpens.RefreshRefuses | internal/service/session.go:258-322 | where a refresh stops short of its commit without a replay, with which answer, and that it has written nothing |
| SessionOpens.LookupReplays | internal/service/session.go:269-281 | a refresh whose lookup finds its session dead revokes exactly what the owner of that session has live at the list, and reports the replay whether that works or not |
| SessionOpens.ReadReplays | internal/service/session.go:316-320 | the same for one whose read finds it dead |
| SessionOpens.ActivateRevokes | internal/service/session.go:392-404 | over every schedule and fault, what an activation refuses, and that it first revokes exactly the presented session |
| SessionOpens.ActivateCreates | internal/service/session.go:406-417 | what an activation then creates, field by field: the presented session's login with the requested actor, permissions and version |
| SessionSafety.LosersCreateNothing | internal/service/session.go:258-329 | a refresh that has not committed has created no session, ends not found, expired, failed or replayed, and a completed replay has killed what its snapshot showed |
| SessionMeaning.RotationKeepsPrincipal | internal/repository/dgraph/session.go:385-442 | any two stored sessions of a family have the same principal, permission version and deadline |
| SessionMeaning.LoginKept | internal/service/session.go:406-432 | any mix of rotations and activations keeps kind, user and client of the login it descends from |
| SessionMeaning.AcceptedInterval | internal/service/session.go:194-233 | if a raw access token verifies at two moments of a run it verifies at every moment in between |
| SessionMeaning.RejectedForGood | internal/domain/session.go:91-104 | a token rejected as expired, revoked or purged is rejected in every later state of every run |
| SessionMeaning.VerifyLinearizes | internal/service/session.go:194-233 | an accepted token was acceptable at the moment of its lookup, whatever happened before the clock was read |
| SessionOutcomes.IssuedTokenIff | internal/service/session.go:194-233 | the access token a client was given is accepted if and only if its session is live and not expired |
| SessionOutcomes.TokensAsRequested | internal/service/session.go:382-419 | tokens of a login speak for the principal it asked for, those of an activation for the presented token's login in the requested role |
| SessionOutcomes.RevocationSticks | internal/service/session.go:335-419 | a logout, revocation by id or activation that reports success has killed the session it was aimed at: its token is rejected in every later state |
| SessionOutcomes.LogoutClosesIff | internal/service/session.go:335-368 | the write of a logout or revocation closes the session's whole family if and only if no rotation of it committed before, or that line is dead already |
| SessionOutcomes.DeadForGood | internal/service/session.go:258-329 | a family without a live session never has one again, in any continuation |
| SessionOutcomes.OnlyOwnerRevokes | internal/service/session.go:355-368 | a revocation by id succeeds only for the owner of the session |
| SessionOutcomes.ReplayIsReal | internal/service/session.go:270-281 | a replay is reported only for a token whose session is dead, and the user gone after is its owner |
| SessionSchedules.ReplayCompletes | internal/service/session.go:258-281 | a refresh whose token is of a revoked session at lookup ends, its round trips answered, as a replay with every session of the owner's at the list dead |
| SessionSchedules.FaultlessReplay | internal/service/session.go:313-320 | a reported replay has carried out its bulk revocation unless one of its round trips failed |
| SessionSchedules.RefreshErrorIff | internal/service/session.go:313-322 | a refresh that returns a store error left the store alone unless its commit was carried out, that is neither refused nor in conflict, and its reply or the read-back failed; if and only if, over every schedule of faults |
| SessionSchedules.ActivationIff | internal/service/session.go:382-419 | an activation whose round trips are answered opens a session if and only if its lookup found the presented one live and its check found it not expired |
| SessionSchedules.TwoActivationsIff | internal/service/session.go:382-419 | in one run two activations of one session both open one if and only if each looked it up while it was live and found it not expired |
| FamilyRefinement.LiveIsCurrent | internal/service/session.go:258-329 | a live session holds the current token pair of an open family |
| FamilyRefinement.Refines | internal/repository/dgraph/session.go:396-451 | every step of every reachable state is a step of the machine with one current token pair per family, or nothing |
| FamilyRefinement.ClosedForGood | internal/service/session.go:258-329 | over every continuation of every run a login keeps identity and deadline, and a closed family its last pair |
| SessionGaps.ReplayMissesLogin | README.md:93 | a run that ends in a reported replay with a live session of that user: a login committed between list and write |
| SessionGaps.ReplayMissesRotation | README.md:93 | a run that ends in a reported replay with the family of the replayed token itself alive, through a rotation between list and write |
| SessionGaps.RacingRefreshes | README.md:93 | a run of two refreshes with one token, both past their read: one gets tokens and its session stays alive, the other gets a store error and nothing is swept |
| SessionGaps.ErrorAfterCommit | internal/repository/dgraph/session.go:443-457 | for every configuration, a run in which a refresh that created session 3 returns a store error |
| SessionGaps.TwoActivations | internal/service/session.go:396-406 | a run in which two activations of one session each leave a live session |
| SessionGaps.RotationRacesActivation | internal/service/session.go:396-406 | a run in which a rotation and an activation of one session each leave a live session |
| SessionGaps.RevokeNoOpIff | internal/repository/session.go:47-49 | revoking a revoked session changes nothing of it if and only if it was revoked and last changed in the present second |
| SessionGaps.RevokeTwiceIff | internal/repository/session.go:47-49 | two revocations leave what one leaves if and only if both fall in one second |
| SessionCeiling.CeilingIff | internal/token/opaque.go:23-25 | no access token of a family is accepted past `MaxSessionLifetime`, in any run with pauses up to a bound, if and only if no token outlives its minting, or access lifetime, refresh lifetime and pause stay within it |
| SessionCeiling.DefaultsKeepCeilingIff | internal/token/opaque.go:11-26 | the default lifetimes keep the ceiling if and only if refreshes pause less than sixty days, less fifteen minutes |
| SessionCeiling.LoginCeilingIff | internal/token/opaque.go:23-25 | counted from the login a session descends from, the ceiling holds in every run if and only if no access token is ever accepted |
| SessionCeiling.ActivationChain | internal/service/session.go:382-419 | a run of activations, each with an unexpired token, that keeps a login alive past the ceiling, for every access lifetime of a second or more |
| ShardHash.HashWraps | internal/middleware/middleware.go:235-240 | wrapping at 64 bits in every round of the hash is wrapping the polynomial once |
| ShardHash.ShardOf | internal/middleware/middleware.go:235-246 | the index is within the shards, negative hashes included |
| ShardHash.PolynomialAppends | internal/middleware/middleware.go:235-239 | the hash is positional: what stands before a suffix counts 31 to the length of the suffix |
| ShardHash.ShardIs | internal/middleware/middleware.go:240-245 | the shard is the remainder of the absolute value of the one signed 64-bit number congruent to the hash |
| ShardLocks.ShardedMu.constructor | internal/middleware/middleware.go:226-233 | one token in every channel |
| ShardLocks.ShardedMu.Shard | internal/middleware/middleware.go:235-246 | the loop with wrap-around and truncated remainder computes that index |
| ShardLocks.ShardedMu.Lock | internal/middleware/middleware.go:247 | takes the token of the key's shard and no other, or has to wait |
| ShardLocks.ShardedMu.Unlock | internal/middleware/middleware.go:248 | returns it |
| ShardLocks.ShardedMu.LockAll | internal/middleware/middleware.go:250-254 | takes the tokens in order up to the first that is missing: the steps of the protocol's sweep on its way in |
| ShardLocks.ShardedMu.UnlockAll | internal/middleware/middleware.go:255-259 | returns them in order: the steps of its way out |
| ShardLocks.RunAlone | internal/middleware/middleware.go:250-259 | those steps are a run of the protocol in which one goroutine moves |
| ShardLocks.Reachable | internal/middleware/middleware.go:221-259 | in every interleaving each shard has its token or exactly one holder |
| ShardLocks.SameShardExcludes | internal/middleware/middleware.go:247-248 | two requests are inside together only with keys of different shards |
| ShardLocks.SweepExcludes | internal/middleware/middleware.go:104-110 | while a sweep runs no request is inside and no other sweep runs |
| ShardLocks.TogetherIff | internal/middleware/middleware.go:115-125 | two requests can be inside together if and only if their keys fall in different shards |
| ShardLocks.ReturnsNeverBlock | internal/middleware/middleware.go:255-259 | in no run does a goroutine that leaves have to wait |
| ShardLocks.SweepLeaves | internal/middleware/middleware.go:104-111 | from every reachable state a sweep that is inside returns every token in its own next steps |
| ShardLocks.NoDeadlock | internal/middleware/middleware.go:247-259 | as long as a goroutine is on its way, some goroutine can move |
| ShardLocks.Drains | internal/middleware/middleware.go:247-259 | from every reachable state all goroutines can finish within a bounded number of steps, and every token is back |
| RateLimits.RateLimiter.GetLimiter | internal/middleware/middleware.go:115-125 | looks the client's limiter up or makes one, and marks the client as seen |
| RateLimits.RateLimiter.Allow | internal/middleware/middleware.go:127-136 | asks a limiter, in the table still or not |
| RateLimits.RateLimiter.Cleanup | internal/middleware/middleware.go:102-112 | the loop deletes exactly the entries idle for more than five minutes |
| RateLimits.EvictionUnobservableIff | internal/middleware/middleware.go:86-136 | no interleaving of lookups, questions and sweeps tells the evicting table from one that never forgets if and only if a burst is refilled in just over five minutes less the longest wait between lookup and question |
| RateLimits.RateBoundIff | internal/middleware/middleware.go:127-136 | in every window of every run a client is granted at most its burst plus rate times window, if and only if evictions do not show |
| RateLimits.RuleOfThumb | internal/config/config.go:112-113 | a burst of at most 300 times the rate is enough when questions follow lookups at once |
| RateLimits.DefaultsIff | internal/config/config.go:112-113 | with the defaults evictions do not show if and only if no request waits more than 297 seconds and a nanosecond |
| RateLimits.LevelIs | internal/middleware/middleware.go:115-125 | a client's bucket gains exactly the rate times the time gone by, up to the burst |
| RateLimits.GrantedIff | internal/middleware/middleware.go:127-136 | in a table that never forgets, a request is granted if and only if its client has a whole token, and takes that token and nothing else |
| RateLimits.AnswersIff | internal/middleware/middleware.go:86-136 | where evictions do not show, every answer of every run is that one |
| Users.CreateUserInput.Validate | internal/domain/user.go:23-77 | every field trimmed, the email lower-cased as well, and accepted exactly under the stated rules, both regular expressions and the length in bytes included |
| Text.LowerLetters | internal/domain/user.go:53-58 | the 26 capitals become the small letters and, but for two signs, nothing else changes |
| Text.Trims | internal/domain/user.go:53-58 | trimming takes the spaces at both ends and nothing else |
| Text.EmailIff | internal/domain/user.go:24 | an email matches if and only if it can be put together from a user, a host and a top domain as the expression names them |
| Text.LetterIff | internal/domain/user.go:24-25 | the letters of both expressions, one by one |
| Users.UserReadBack | internal/repository/dgraph/repository.go:102-117 | a user written and read back is the same user, times cut to seconds |
| Users.UpdateStores | internal/repository/dgraph/repository.go:240-262 | an update replaces exactly the given, non-empty fields and keeps everything else, the password included |
| UserUpdates.CommittedUpdateIff | internal/repository/dgraph/repository.go:204-268 | when an update commits, in any run, the account is as it was read; the user returned is the one stored if and only if it was not asked to empty a field that is not |
| UserProtocol.StepKeeps | internal/repository/dgraph/repository.go:149-301 | every step of any interleaving keeps what open transactions know, and at most one holder of a value unless an update gives it away |
| UserProtocol.EmailUniqueIff | internal/repository/dgraph/repository.go:171-197 | over every interleaving of registrations, updates and deletions an email has at most one holder if and only if it is in lower case |
| UserProtocol.NormalisedUnique | internal/domain/user.go:53-58 | in every run whose registrations are normalised every email has at most one holder |
| UserProtocol.NicknameUniqueIff | internal/repository/dgraph/repository.go:204-268 | over every run a nickname never has two holders if and only if, at the read of every committed update that gives it out, nobody else held it |
| UserProtocol.NicknameShared | internal/repository/dgraph/repository.go:247-249 | for every nickname that registration accepts, a run with valid registrations and one update after which two users hold it |
| UserProtocol.EmailLookupSound | internal/repository/dgraph/repository.go:328-345 | the first match for an email is the only one, however it is spelled |
| UserOutcomes.CreateLooksUp | internal/repository/dgraph/repository.go:171-188 | in any run, what the snapshot of a registration finds: the email, in lower case, and the nickname free or not |
| UserOutcomes.CreateActs | internal/repository/dgraph/repository.go:171-200 | in any run, what its commit does: one new account that reads back as given and no other change, "exists", or a store error; it does go through if nothing was committed since |
| UserOutcomes.UpdateLooksUp | internal/repository/dgraph/repository.go:209-236 | in any run the read of an update finds the first account with the requested id, or none |
| UserOutcomes.UpdateActs | internal/repository/dgraph/repository.go:240-266 | in any run its commit replaces exactly the given, non-empty names and the time of the update, in that account only, and answers with the given names and no password |
| UserOutcomes.DeleteLooksUp | internal/repository/dgraph/repository.go:271-291 | in any run the lookup of a deletion finds the first account with the requested id, or none |
| UserOutcomes.DeleteActs | internal/repository/dgraph/repository.go:293-300 | in any run its write, unless refused, leaves nothing of that account and everything of every other |
| UserOutcomes.DeletedForGood | internal/repository/dgraph/repository.go:293-300 | no query by id, email or nickname returns a deleted account, in any continuation |
| UserRepository.UserRepo.Create | internal/repository/dgraph/repository.go:149-201 | query, condition and commit under any interference, with the exact database and answer |
| UserRepository.UserRepo.Update | internal/repository/dgraph/repository.go:204-268 | read, assign field by field, write back and commit, likewise |
| UserRepository.UserRepo.Delete | internal/repository/dgraph/repository.go:271-301 | lookup and delete, likewise |
| Pagination.ListFilter.Normalise | internal/domain/user.go:113-123 | page at least 1, size 1 to 100, valid values kept |
| Pagination.List | internal/repository/dgraph/repository.go:368-440 | the page, totals and page count for the normalised filter |
| Pagination.PagesPartition | internal/repository/dgraph/repository.go:395-428 | pages 1 to k give the whole filtered list in order, each user once, if and only if k is at least the reported count |
| Pagination.PageSizes | internal/repository/dgraph/repository.go:395-428 | pages before the last are full, pages after it empty |
| Base64Url.RoundTrip | internal/vault/transit.go:69-86 | decoding undoes encoding for every length, and encoded text holds no dot |
| Base64Url.DecodesIff | internal/vault/transit.go:96-108 | which texts decode at all |
| Base64Url.DecodeIgnoresBreaks | internal/vault/transit.go:96-108 | line breaks make no difference to decoding, wherever they stand |
| Jwt.StringSliceClaim | internal/token/jwt.go:261-280 | the strings of an array claim, in order; none for anything else |
| Jwt.TextsAppend | internal/token/jwt.go:261-280 | a list claim reads as its strings, in order, whatever stands between them |
| Jwt.Framing | internal/vault/transit.go:69-94 | the compact form splits into exactly its three parts |
| Jwt.SignedChecks | internal/vault/transit.go:69-127 | a signed token checks to its claims, or to the right error when the dates or the issuer do not admit it |
| Jwt.ClaimsRoundTrip | internal/token/jwt.go:199-249 | principal to claims and back loses and invents nothing, empty fields included |
| Jwt.TokenRoundTrip | internal/token/jwt.go:178-249 | every issued token verifies to its principal while admitted, to "expired" from the second of expiry on, and to "invalid" otherwise |
| Jwt.RegisteredClaims | internal/token/jwt.go:98-112 | issuer, subject, time of issue and expiry of a token are the manager's, the subject's, and that time with and without the lifetime, in seconds |
| Jwt.IssueRoundTrip | internal/token/jwt.go:98-112 | a basic token verifies to kind "user", its user id, nickname and email, and to nothing else, while its dates admit it; to "expired" or "invalid" exactly otherwise |
| Jwt.ContextRoundTrip | internal/token/jwt.go:127-153 | a context token verifies, field by field, to the user, actor and actor type it was issued for and to each of the three lists; it is refused exactly for an unknown actor type or an empty actor id |
| Jwt.ServiceRoundTrip | internal/token/jwt.go:159-173 | a service token verifies to kind "service", its client, name and actor type, and to no user |
| Jwt.AcceptedWasSigned | internal/vault/transit.go:89-127 | whoever made it, an accepted token has three parts, a signature the oracle vouches for, this issuer, and dates that admit the moment |
| Jwt.CheckIff | internal/vault/transit.go:89-127 | whoever made it, a token checks if and only if it has three parts, the oracle vouches for the first two, both others decode, and its dates and issuer admit it |

## Left out

- HTTP and gRPC handlers, cookies, headers, error-to-status tables: transport.
- Vault, configuration, start-up and shutdown: foreign calls and I/O.
- bcrypt, SHA-256 and HMAC internals, `crypto/rand`: assumptions as stated above, and a sign/check oracle in `Jwt.dfy`.
- Query and N-Quads text, `%q` escaping, JSON decoding, and the uid format guard of `GetByID` and `RotateTokens`: queries and mutations are typed, uids are numbers.
- Replicas, best-effort reads and zookies: every read sees the latest commit.
- The hash of a `[string]` element as part of its conflict key: lists conflict per (uid, predicate), which no operation depends on, since lists are written only on new nodes.
- Service sessions share the empty user id; bulk revocation is stated for equality of that field.
- `ValidateSession` and `ListSessions` of the session service: they repeat `lookupAndCheck` and `ListForUser`. The order among sessions last seen in the same second is left to the database.
- Permission advance during rotation: `Successor` models the branch, the service never takes it.
- `internal/repository/dgraph/service_account.go`, `AuthService` and `ServiceAuthService` credential checks: one-branch facts. The list of actor types is a parameter of `Jwt.dfy`.
- The token bucket itself (golang.org/x/time/rate) is not part of this model: it is taken as a bucket that starts full, over real numbers, without the library's rounding of waits to nanoseconds, its infinite rate, or its empty start at a negative rate.
- ShardLocks.ShardedMu.Lock: a blocking receive is a call that reports whether it could proceed; waiting is modelled by the protocol beside it.
- SessionSafety.DeadlineConserved: speaks of rotations; an activation starts a new deadline (`LoginCeilingIff`).
- Fairness of the locks and of the database: only that progress is possible.
- Users.CreateUserInput.Validate: of the letters outside ASCII only the two whose lower case is ASCII are lowered (U+0130, U+212A); an email with any other is refused all the same, in its original spelling. Text that is not valid UTF-8 is not modelled.
- Pagination.List: the offset is an unbounded integer and the page count an exact division, where the code multiplies in 64 bits and divides in floating point.
- `HMACSigner`, and the random refresh string and `expires_in` of a JWT pair: they share the claims path or add nothing to it.

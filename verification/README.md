# Authentication protocols: models and proofs

This project models the parts of the authentication service in which
concurrent requests meet over shared state, and proves what holds in every
interleaving. `dafny verify dfyconfig.toml` checks everything.

## What is modelled

- **Refresh, logout and session issuing** (`TokenTables`, `RefreshProtocol`,
  `IssueProtocol`, `SessionMachine`): any number of calls over one database.
  A call's control state is the set of snapshots it holds; between two of its
  statements every other call may run, crash or commit. The issuing
  transaction is cut into begin, lock, find, decide, revoke, insert and
  commit. `TokenChains`, `SessionInvariant`, `SessionPreservation` and
  `SessionMoves` carry the invariant; `SessionTheorems`, `FamilyGrowth` and
  `SessionRuns` state the results; `SessionAnswers` says what every answer
  rests on. `AuthServices` has the database as an object whose statements
  change rows, and the three services over it, proved to take exactly the
  steps of the protocol.
- **Idempotency keys** (`IdempotencyProtocol`, `IdempotencyTheorems`,
  `IdempotencyOverlap`, `IdempotencyAnswers`, `IdempotencyMiddleware`): claim,
  poll, execute, save, release and expiry by any number of clients over a
  store that may fail or lose its replies; then the Redis store as an object
  and the middleware's loop.
- **Accounts, verification tokens, the raw-token cache and provider links**
  (`AccountProtocol`, `AccountTheorems`, `AccountResults`, `AccountAnswers`,
  `VerificationTimes`, `AccountStatuses`, `UndisturbedCalls`,
  `AccountServices`): register, resend, verify and the OAuth callback share
  the tables, statement by statement.
- **Rate limiter** (`RateLimiter`), **stored password hashes** (`Base64`,
  `PasswordHash`) and **canonical e-mail addresses** (`EmailAddress`,
  `RegisteredAddresses`).

Each imperative service takes, as a parameter, the states in which other calls
leave the tables before each of its statements. Its contract equates its final
tables and answer with a function of those states. `ServiceRuns` proves, for
the refresh, logout, issuing and account services and for the middleware's
loop and its tail, and `RateLimiter` for its gate, that such a call, with any
events of other calls between its statements, is a run of the machine. So the
theorems about every run are theorems about the services. The lemmas named
`Undisturbed...` and `...Decides` say what one call does when nothing else
runs; those named `...AnswersJustified` say, for every run, what each answer
of a call rests on.

Generated ids, raw tokens and hashes are arbitrary; a statement that would
break a unique key is refused, as the database refuses it. The token hash, the
advisory lock's key, the address normalisation and the key derivation are
arbitrary functions, with the one law the result needs stated beside it. One
clock serves application and database.

## Where code and documentation differ

The model follows the code.

- Consuming a refresh token tests `consumed_at` alone
  (`internal/platform/postgres/sqlc/refresh_token.sql.go:19-25`), so a refresh
  already past its checks survives a logout or a replay revoke. The results on
  revocation say exactly how far: one rotation, whose token is never exchanged.
- A replay revokes the token family, not the session
  (`internal/app/auth/refresh/service.go:190-195`).
- A slot counts as taken while its session is unrevoked, even if it has expired
  (`internal/platform/postgres/sqlc/session.sql.go:160-168`).
- Refresh accepts a token or session at the very instant it expires
  (`internal/app/auth/refresh/service.go:233-234`); the domain's own
  `IsExpired` does not (`internal/domain/session/session.go:106-108`).
- The time of verification is not fixed for ever: another token of the same
  account may overwrite it (`internal/app/user/verifyemail/service.go:159-187`).
  `TimeIsFinalIffSettled` says exactly when it no longer can.
- The OAuth callback looks accounts up by the provider's spelling
  (`internal/app/auth/oauthcallback/service.go:205-209`) but stores the
  canonical one (`internal/domain/user/user.go:87`).
- The limiter is described as a sliding window in a comment
  (`internal/app/user/register/service.go:190-193`); it is a fixed one.

## Model

| member | source | states |
|---|---|---|
| SessionTheorems.RevokedSessionRotatesAtMostOnce | internal/app/auth/refresh/service.go:101-365 | over every run after a session is revoked by logout or supersession, at most one more token appears in its family, and that token is still unexchanged at the end |
| SessionTheorems.FirstTokenAfterRevoke | internal/app/auth/refresh/service.go:188-404 | after a family revoke nothing is created in the family until a call that already held a live snapshot of one of its tokens at the revoke commits its rotation |
| SessionTheorems.RevokedFamilyIsDead | internal/app/auth/refresh/service.go:188-404 | when no call holds a live snapshot at the revoke, no token is ever created in the family again and all stay revoked |
| FamilyGrowth.RevokedFamilyGrowsIffThreatened | internal/app/auth/refresh/service.go:101-365 | a revoked family gains a token in some continuation exactly when a call holds its unconsumed token and every check still ahead of it would pass now |
| FamilyGrowth.SupersededFamilyGrowsIffThreatened | internal/app/auth/sessionissuer/issuer.go:167-195 | the same exact condition for a family whose session is revoked, as supersession leaves it, whether or not its tokens are |
| SessionTheorems.FamiliesAreChains | internal/app/auth/refresh/service.go:294-365 | in every reachable state a family is one linear chain from one root: one session, exactly one unconsumed token, a child exactly for each consumed token, and tokens number families plus committed rotations |
| SessionTheorems.FamiliesOnlyGrow | internal/app/auth/refresh/service.go:294-365 | over every run the chain of a family is a prefix of its later chain: nothing is inserted, reordered or removed |
| SessionTheorems.AtMostOneWinner | internal/platform/postgres/sqlc/refresh_token.sql.go:15-26 | of all refresh calls presenting one token at most one commits its rotation |
| SessionTheorems.LosersNeverRotate | internal/app/auth/refresh/service.go:258-404 | over every run a call that holds a token somebody else exchanged never rotates it: it is on its way, ends in replay of that token, is refused by its own checks while they are ahead, or crashes; once it has minted the refusal drops out too |
| SessionTheorems.ReplayRevokesFamily | internal/app/auth/refresh/service.go:367-404 | the replay response leaves every token of the family revoked, the winner's child included |
| SessionTheorems.ReplayAnswersStand | internal/app/auth/refresh/service.go:188-227 | in every later state a call answered with a stored replay revoke has a consumed token, all of whose children are revoked |
| SessionTheorems.LateReaderReplays | internal/app/auth/refresh/service.go:188-227 | a call that first reads a token after it was exchanged can only be answered with replay of that token, or crash, whatever runs beside it |
| SessionTheorems.SlotsExclusive | migrations/000004_create_sessions.up.sql:280-283 | a user and device never have two unrevoked sessions; the slot's sessions number its revoked ones plus at most one, for any lock-key function, collisions included |
| SessionTheorems.NoConstraintTrips | internal/app/auth/sessionissuer/issuer.go:141-230 | with begin, lock, find, revoke, insert and commit interleaved freely, no issuing transaction is refused by the unique index or the revocation check |
| SessionTheorems.RevocationsAreTimely | internal/platform/postgres/sqlc/session.sql.go:267-284 | every revocation lies at or after its session's creation, and every superseded session was within the grace period when it was judged |
| SessionTheorems.FactsAreStable | internal/platform/postgres/sqlc/session.sql.go:267-284 | no row is lost and no stored revocation, reason or consumption is rewritten, over every run |
| SessionRuns.TxStartRevocationTripsCheck | internal/platform/postgres/sqlc/session.sql.go:267-301 | exhibits a run in which revoking with the transaction's start time violates the revocation check |
| SessionRuns.SnapshotReadTripsIndex | internal/platform/postgres/repository/transaction.go:44-50 | exhibits a run in which one snapshot per transaction, instead of one per statement, trips the unique index despite the lock |
| SessionRuns.LogoutDoesNotStopRefreshInFlight | internal/platform/postgres/sqlc/refresh_token.sql.go:15-26 | exhibits a run in which a refresh already past its checks commits after the logout and leaves an unrevoked token, because the consume tests consumed_at alone |
| SessionPreservation.StepPreserves | internal/app/auth/refresh/service.go:87-404 | every event of every call keeps the whole session invariant and lets the tables only evolve |
| TokenChains.RotationKeepsChains | internal/app/auth/refresh/service.go:325-365 | consume plus insert of the child keeps all families chains |
| TokenChains.RootStartsChain | internal/app/auth/sessionissuer/issuer.go:232-258 | a root token with a new family starts a chain of its own |
| TokenChains.RevocationKeepsChains | internal/platform/postgres/sqlc/refresh_token.sql.go:153-168 | a family revoke touches no link of any chain |
| AuthServices.Database.ConsumeRefreshToken | internal/platform/postgres/sqlc/refresh_token.sql.go:15-43 | the update changes the row exactly when it was unconsumed and reports that as the affected rows |
| AuthServices.Database.RevokeRefreshTokenFamily | internal/platform/postgres/sqlc/refresh_token.sql.go:153-182 | all unrevoked rows of the family, and no others, get the time and reason; the loop over rows equals the set-wise statement |
| AuthServices.Database.GetActiveSessionByUserAndDevice | internal/platform/postgres/sqlc/session.sql.go:154-204 | finds the slot's unrevoked session when there is one, expired or not |
| AuthServices.Database.Rollback | internal/platform/postgres/repository/transaction.go:56-75 | everything written since begin is undone |
| AuthServices.RefreshService.Handle | internal/app/auth/refresh/service.go:87-462 | the service takes exactly the steps of its protocol, whatever other calls do to the tables between its statements |
| AuthServices.UndisturbedRefresh | internal/app/auth/refresh/service.go:87-404 | alone, a refresh rotates exactly when the token is unconsumed, unrevoked, in date and its session is too; replays exactly when it was consumed; and the resulting tables in each case |
| AuthServices.UnknownRefreshIsInvalid | internal/app/auth/refresh/service.go:101-132 | alone, a hash that no row has is answered as an invalid token, not as a failure, and no row changes |
| SessionAnswers.RefreshAnswersJustified | internal/app/auth/refresh/service.go:87-404 | over every run: invalid only if no row had the hash when the call looked, or the token or its session is revoked or expired; failed only by a crash or a child row that breaks a key or check; rotation and replay concern the presented token, and the rotation's commit consumes it, adds the one child minted for it, with the expiry set at the minting, and changes nothing else but the session's refresh time |
| AuthServices.LogoutService.Handle | internal/app/auth/logout/service.go:70-222 | the service takes exactly the steps of its protocol, whatever runs between its statements |
| AuthServices.UndisturbedLogout | internal/app/auth/logout/service.go:70-193 | alone, a logout revokes the token's session and every unrevoked token of its family and nothing else, whatever their expiry or consumption |
| AuthServices.UnknownLogoutIsInvalid | internal/app/auth/logout/service.go:84-110 | alone, a logout with a hash that no row has is refused and no row changes |
| SessionAnswers.LogoutCommitEnds | internal/app/auth/logout/service.go:137-193 | in every reachable state, whatever ran since the logout read the token, its commit revokes the session and every token then in the family, and answers well |
| SessionAnswers.LogoutAnswersJustified | internal/app/auth/logout/service.go:70-193 | over every run: when a logout answered well, its commit left the session and all tokens then in the family revoked, and the session is revoked in every later state; it is refused only if no row had the hash, and fails only by a crash |
| AuthServices.LogoutIsIdempotent | internal/app/auth/logout/service.go:157-193 | logging out again changes no row |
| AuthServices.Issuer.IssueForDevice | internal/app/auth/sessionissuer/issuer.go:106-262 | the transaction takes exactly the steps of its protocol, each on the tables as they then are |
| AuthServices.UndisturbedIssue | internal/app/auth/sessionissuer/issuer.go:141-258 | alone, a request is refused exactly when the slot's session is older than the grace period; otherwise the slot is handed over: old session superseded, new session and root token inserted, nothing else changed |
| SessionAnswers.IssueAnswersJustified | internal/app/auth/sessionissuer/issuer.go:141-258 | over every run: a request is refused only by a session that it found active in its slot and judged past the grace period; it fails only by a crash or a row that breaks a key or check; when issued, the commit handed the slot over: old session superseded, new one and root token as of the transaction's start, all other rows untouched |
| SessionAnswers.TablesChangeByCommits | internal/platform/postgres/repository/transaction.go:52-102 | over every run the two tables change by four kinds of commit alone: a rotation, a replay's family revoke, a logout, a slot's hand-over; each writes exactly its rows, whatever was committed since its call last looked |
| SessionServiceRuns.RefreshIsMachineRun | internal/app/auth/refresh/service.go:87-404 | a refresh interleaved with any events of other calls is a run of the machine with the same tables and answer |
| SessionServiceRuns.LogoutIsMachineRun | internal/app/auth/logout/service.go:70-193 | the same for logout |
| SessionServiceRuns.IssueIsMachineRun | internal/app/auth/sessionissuer/issuer.go:141-258 | the same for the issuing transaction, whose statements wait for the locks others hold |
| IdempotencyTheorems.ReplaysAreGenuine | internal/transport/http/middleware/idempotency.go:174-189 | with no timing or failure assumption, a replayed response was produced by an execution of a request with the same key and body hash, and its status is below 500 |
| IdempotencyTheorems.ExecutionsDoNotOverlap | internal/transport/http/middleware/idempotency.go:139-172 | when owners finish inside the reservation and the store answers, of two claims on a key one settled, and its kept response expired, before the other began |
| IdempotencyTheorems.RunRefinesMemo | internal/transport/http/middleware/idempotency.go:139-270 | every such run follows, key by key, a run of a sequential memo table: the store does, every client that asks is answered from the table (compute, kept status and body, conflict, in progress), and the owner answers its own result |
| IdempotencyAnswers.AnswersJustified | internal/transport/http/middleware/idempotency.go:139-216 | over every run from a client's arrival, whatever fails: it waits exactly while each attempt finds its own request in progress and time left; conflict, replay and time-out repeat what an attempt found; the handler runs only after an attempt that reserved the key or was not answered |
| IdempotencyAnswers.OutcomeStands | internal/platform/idempotency/store.go:120-166 | over every run in which no further outcome reaches the key, a stored outcome below 500 answers every attempt until its time to live is over, with the outcome or a conflict; one of 500 or above frees the key at once |
| IdempotencyAnswers.ReservationStands | internal/platform/idempotency/lua.go:10-36 | over every run in which no outcome reaches the key, an attempt that found nothing reserves it, even when its reply is lost, and keeps every other attempt out for exactly the reservation time |
| IdempotencyAnswers.UntouchedKeyStands | internal/transport/http/middleware/idempotency.go:142-160 | over every run only attempts and owners' outcomes touch a key: handlers that run unprotected, waits and deaths do not |
| IdempotencyOverlap.OverlapIffLateClaim | internal/platform/idempotency/store.go:120-166 | over every run, with store failures, lost replies, expiry and deaths, a key is at some point owned by two clients exactly when some claim found nothing in the store while an owner of the key was past its reservation |
| IdempotencyOverlap.CalmOverlapIffLateClaim | internal/platform/idempotency/store.go:120-166 | over every run in which the store answers and no owner dies, exactly when some client asked for the key while its owner was past its reservation |
| IdempotencyOverlap.TakeoverIffLate | internal/platform/idempotency/lua.go:10-36 | from any state with one owner, late or with its reservation stored, a rival's claim makes a second owner exactly when it finds nothing while the owner is late; with the reservation stored, exactly when the owner is late |
| IdempotencyMiddleware.SlowOwnerRunsTwice | internal/transport/http/middleware/idempotency.go:220-270 | exhibits the run in which an owner that outlives its reservation is joined by a second execution |
| IdempotencyMiddleware.RedisStore.TryClaim | internal/platform/idempotency/store.go:60-118 | returns the stored record or reserves the key in the same step; expired keys read as absent; an error may come before the script ran or after it |
| IdempotencyMiddleware.Middleware.ClaimOrWait | internal/transport/http/middleware/idempotency.go:136-214 | the loop stops after at most maxWait / pollInterval + 2 attempts for every behaviour of other clients and of the store, and its result is that of the first attempt that is not a wait |
| IdempotencyMiddleware.PollingIsBounded | internal/transport/http/middleware/idempotency.go:193-213 | a client still polling at an attempt has not used up its deadline |
| IdempotencyMiddleware.PollBoundIsAttained | internal/transport/http/middleware/idempotency.go:193-213 | a reservation that never resolves costs exactly that many attempts |
| IdempotencyMiddleware.Middleware.RunAndSave | internal/transport/http/middleware/idempotency.go:220-270 | the executing client gets its own answer; if the store is reached the key then holds exactly that answer, or nothing after a server error, and other keys are untouched |
| MiddlewareRuns.WaitIsMachineRun | internal/transport/http/middleware/idempotency.go:136-214 | the claim-and-poll loop interleaved with any events of other clients is a run of the machine with the same answer and store |
| MiddlewareRuns.RunAndSaveIsMachineRun | internal/transport/http/middleware/idempotency.go:220-270 | so is the owner's execution and settling |
| AccountResults.MailedTokensVerify | internal/app/user/resendverification/service.go:211-281 | over every run a call presenting a raw token mailed by register, resend or the callback verifies, confirms, is refused only at or after the expiry, and fails only after a crash or a statement that was not accepted |
| UndisturbedCalls.MailedTokenVerifiesAlone | internal/app/user/verifyemail/service.go:79-215 | in every reachable state an undisturbed verification of an unexpired mailed token succeeds, its account exists and carries the time in the answer |
| UndisturbedCalls.VerifyDecides | internal/app/user/verifyemail/service.go:79-215 | alone, a verification is refused exactly for an unconsumed expired token, consumes and marks exactly for an unconsumed live one, and confirms without writing for a consumed one, even past its expiry |
| UndisturbedCalls.UnknownTokenIsRefused | internal/app/user/verifyemail/service.go:88-105 | alone, a hash that no token has is refused at that time and nothing changes |
| AccountAnswers.VerifyAnswersJustified | internal/app/user/verifyemail/service.go:79-215 | over every run: refused only if no token had the hash, or it was unconsumed when found and past its expiry when checked; verified only with the token consumed, at the time its call loaded the owner; confirmed only with a time the owner had; failed only if the environment broke the call |
| AccountAnswers.WorldChangesByStatements | internal/app/user/verifyemail/service.go:151-187 | over every run the accounts, tokens, links, cache and mails change, besides lost cache entries and an operator's status change, only by seven kinds of statement, each writing exactly its rows and only if they are new or unconsumed, whatever ran since its call last looked |
| AccountTheorems.StepKeeps | internal/app/user/register/service.go:289-371 | every event keeps the account invariant: unique keys, consumed tokens have verified owners, cache entries hash to their rows, mails are backed by rows, links are justified |
| AccountResults.ConsumedMeansVerified | internal/app/user/verifyemail/service.go:116-207 | no call dereferences a missing verification time; consumed tokens have verified owners; verified accounts are never PENDING although the status written is a stale read |
| AccountResults.OneWriterPerToken | internal/platform/postgres/sqlc/verification.sql.go:15-26 | of all calls presenting one token at most one consumes it |
| AccountResults.LosersConfirm | internal/app/user/verifyemail/service.go:185-207 | over every run a call that comes to commit a consumed token never wins: it confirms with a time the account had during the run, or was broken by the environment |
| AccountResults.FactsAreStable | internal/app/user/verifyemail/service.go:166-187 | over every run verifications are not undone, links keep their account and rows keep their keys |
| VerificationTimes.TimeIsFinalIffSettled | internal/app/user/verifyemail/service.go:110-187 | a stored verification time stays the same in every continuation exactly when the account has no live token, no call is minting one for it, and none is past its expiry check about to write another time |
| VerificationTimes.TimesAreRewritten | internal/app/user/verifyemail/service.go:159-187 | for every token lifetime and injective hash a run exists in which an account verified with one token is given another time by a second one |
| AccountStatuses.StatusSurvivesIffNoneWritesBack | internal/app/user/verifyemail/service.go:148-187 | a status other than PENDING survives every run in which no operator touches the account exactly when no verification is about to write back another status it read before, with a token nobody has consumed |
| AccountResults.LinksAreJustified | internal/app/auth/oauthcallback/service.go:174-237 | every provider link came with its own passwordless account, or joins an address the provider vouched for to the verified account that has this very address |
| AccountResults.NoOrphanAccounts | internal/app/auth/oauthcallback/service.go:366-389 | no passwordless account exists without the link it was created with |
| UndisturbedCalls.ResendDecides | internal/app/user/resendverification/service.go:94-281 | alone, resend always gives the same answer; it mails the cached token of the newest active row or mints, caches and mails a new one, and only for an unverified account |
| UndisturbedCalls.PickIsNewest | internal/platform/postgres/sqlc/verification.sql.go:101-121 | the token that a resend reuses is a live one of the account and none of its live tokens is newer; none is picked only when there is none |
| AccountAnswers.ResendAnswersJustified | internal/app/user/resendverification/service.go:94-281 | over every run: a resend answers well only if it mailed a token of the address's own account, found no unverified account, or the mail was lost; it fails only if broken or refused a row |
| UndisturbedCalls.RegisterDecides | internal/app/user/register/service.go:129-371 | alone, registration reports a taken address, fails when only the stored form is taken, and otherwise adds exactly one account, one token, one cache entry and one mail |
| AccountAnswers.RegisterAnswersJustified | internal/app/user/register/service.go:129-371 | over every run: told that the address is taken only if the lookup found an account; failed only if broken or a row breaks a key or check; when registered, the account with its password and token is there and the token was mailed unless the mail was lost |
| AccountResults.OneAccountPerIdentity | internal/app/auth/oauthcallback/service.go:174-237 | over every run all callbacks of one provider identity that sign in, however they overlap, sign in to the same account, the one the identity is linked to |
| UndisturbedCalls.UnlinkedWithoutAccount | internal/app/auth/oauthcallback/service.go:288-449 | an unknown identity gets account and link, and a verification token exactly when the provider does not vouch; it fails exactly when the stored form of the address is taken |
| UndisturbedCalls.LinkedSignIn | internal/app/auth/oauthcallback/service.go:241-285 | alone, a linked identity changes nothing and signs in to the linked account exactly when that is active; otherwise the account is reported locked |
| UndisturbedCalls.UnlinkedWithAccount | internal/app/auth/oauthcallback/service.go:205-237 | alone, an unlinked identity whose address has an account is refused, and nothing changes, exactly unless the provider vouches and the account is verified; then one auto link is added and it signs in exactly when the account is active |
| AccountAnswers.CallbackAnswersJustified | internal/app/auth/oauthcallback/service.go:174-530 | over every run: signed in only to the account the identity is linked to, and only if that was active when met through the link or when found vouched for, or was made by this call, which then mails a token unless the provider vouches; locked only if not active then; refused only if an account had the address without both sides vouching; failed only if broken or refused a row |
| AccountServices.RegisterService.Handle | internal/app/user/register/service.go:129-371 | the service takes exactly the statements of its call at arbitrary moments |
| AccountServices.ResendService.Handle | internal/app/user/resendverification/service.go:94-281 | the service takes exactly the statements of its call, for the row its active-token query picked |
| AccountServices.OAuthCallbackService.Handle | internal/app/auth/oauthcallback/service.go:174-530 | the service takes exactly the statements of its call at arbitrary moments |
| AccountServices.VerifyService.Handle | internal/app/user/verifyemail/service.go:79-215 | the service takes exactly the statements of its call at arbitrary moments |
| AccountServices.AccountStore.FindActiveToken | internal/platform/postgres/sqlc/verification.sql.go:101-121 | the loop finds a newest unconsumed, unexpired token of the user, or reports that there is none |
| AccountServices.AccountStore.End | internal/platform/postgres/repository/transaction.go:52-102 | a transaction keeps all its writes or none |
| AccountServiceRuns.CallIsMachineRun | internal/app/user/verifyemail/service.go:79-215 | a register, resend, verify or callback call interleaved with any events of other calls is a run of the machine with the same tables and answer |
| AccountServiceRuns.QuietRunIsAlone | internal/app/user/verifyemail/service.go:79-215 | with nothing between its statements a service call is the undisturbed call the decision results speak of |
| RateLimiter.WindowBound | internal/platform/authattempt/service.go:43-79 | with at most k requests between check and increment, no window counts more than limit + k - 1 attempts; every accepted attempt is counted, in flight, or its increment was lost |
| RateLimiter.IntervalBound | internal/platform/authattempt/lua.go:3-24 | any interval of one window length, ends included, counts at most twice that: 2 * limit when requests are sequential |
| RateLimiter.TwiceTheLimitHappens | internal/platform/authattempt/lua.go:3-24 | for every policy a sequential run reaches exactly 2 * limit in one window length |
| RateLimiter.OvershootHappens | internal/app/user/register/service.go:168-202 | for every policy and every k a run drives the live counter to exactly the cap plus k - 1 |
| RateLimiter.TwiceTheOvershootHappens | internal/platform/authattempt/lua.go:3-24 | for every policy and every k a run counts exactly twice the cap plus k - 1 in one window length |
| RateLimiter.NoWindowNoLimit | internal/platform/authattempt/service.go:138-165 | a window that truncates to zero seconds or less admits everybody |
| RateLimiter.RedisTracker.RecordFailure | internal/platform/authattempt/lua.go:3-24 | increments, and starts the expiry on the first increment only; other keys are untouched |
| RateLimiter.RedisTracker.Reset | internal/platform/authattempt/service.go:121-136 | removes the counter of the key and of no other |
| RateLimiter.RedisTracker.Admit | internal/app/user/register/service.go:168-202 | admission depends on the counter at the check, the increment lands on the counter as others have left it, and a lost increment does not refuse the request |
| RateLimiter.AcceptedIffBelowLimit | internal/platform/authattempt/service.go:43-79 | in every reachable state a request is accepted exactly when the window running at the time, if any, has counted fewer attempts than the limit |
| RateLimiter.AdmitIsMachineRun | internal/app/user/register/service.go:168-202 | a request through the gate, with any events of others between check and increment, is a run of the machine with the same decision and counter |
| PasswordHash.ParsePrint | internal/platform/password/argon2id.go:76-93 | a printed hash parses back to its parameters, salt and key exactly when the numbers fit 32, 32 and 8 bits, and to nothing otherwise |
| PasswordHash.PrintedForm | internal/platform/password/argon2id.go:76-93 | the stored form is the name, three decimals and two base64 texts between dollar signs, in this order |
| PasswordHash.ParseReadsParts | internal/platform/password/argon2id.go:101-170 | a string parses exactly when it is six parts: the name, numerals below 2^32, 2^32 and 2^8, and two texts that decode; and it parses to their values |
| PasswordHash.VerifyRefusesMalformed | internal/platform/password/argon2id.go:101-197 | a stored string is called malformed exactly when it is no such six parts |
| PasswordHash.PrintParse | internal/platform/password/argon2id.go:101-170 | whatever parses reprints to a form with the same parse |
| PasswordHash.PrintInjective | internal/platform/password/argon2id.go:76-93 | different hashes have different printed forms |
| PasswordHash.SplitJoin | internal/platform/password/argon2id.go:106-122 | splitting at the separator undoes joining for parts without it |
| PasswordHash.DecimalReads | internal/platform/password/argon2id.go:124-156 | a printed number is read back, leading digit first |
| PasswordHash.VerifyHash | internal/platform/password/argon2id.go:101-197 | every hash verifies its own password, is never malformed, and verifies another password exactly when the key derivation agrees |
| Base64.DecodeEncode | internal/platform/password/argon2id.go:84-92 | unpadded base64 of every byte sequence decodes to it |
| Base64.EncodingKeepsBits | internal/platform/password/argon2id.go:84-92 | the sextets carry the bytes' bit stream, filled with zeros, as section 4 of RFC 4648 defines it |
| Base64.DecodingKeepsBits | internal/platform/password/argon2id.go:158-178 | decoding fails exactly for a single left-over sextet and otherwise yields the stream's whole bytes |
| Base64.DecodeAccepts | internal/platform/password/argon2id.go:158-178 | a text decodes exactly when, line breaks aside, it has only characters of the standard alphabet and not one left over |
| EmailAddress.NormalFormsDecideSameness | internal/domain/user/email.go:85-125 | two addresses have one normal form exactly when padding, case, and at the Google domains dots, tags and the domain alias rewrite one into the other |
| EmailAddress.LowerDecidesCase | internal/domain/user/email.go:89-94 | two strings lower-case alike exactly when they agree character by character apart from case |
| EmailAddress.IdempotentIffStable | internal/domain/user/email.go:85-125 | normalising twice equals normalising once exactly when removing dots brings no white space to the front |
| EmailAddress.NoSpaceIsStable | internal/domain/user/email.go:85-125 | an address without inner white space normalises idempotently |
| EmailAddress.NotIdempotent | internal/domain/user/email.go:85-125 | the address '. a@gmail.com' normalises differently the second time |
| EmailAddress.RuledAddressesAgree | internal/domain/user/email.go:108-124 | two addresses with a rule normalise equally exactly when their lower-cased local parts agree after cutting at the first plus and deleting dots |
| EmailAddress.OtherDomainsKeepLocalParts | internal/domain/user/email.go:104-110 | at any other domain only case and surrounding white space are ignored |
| RegisteredAddresses.RegisteredIsFound | internal/domain/user/user.go:50-74 | after registration a lookup by another spelling finds the account exactly when the spelling rewrites into the stored form; its own spelling does exactly when it is stable |
| RegisteredAddresses.StableRegistrationAnswers | internal/app/user/register/service.go:143-149 | a registration under a stable address either reports it taken or succeeds |
| RegisteredAddresses.CallbackFailsOnSpelling | internal/app/auth/oauthcallback/service.go:205-209 | a callback that finds no account under the provider's spelling fails exactly when the stored form is taken, which needs a spelling that is not a normal form |

## Left out

- HTTP handlers, routing, status mapping, logging, metrics, tracing and health: plumbing without protocol state.
- SHA-256, Argon2, JWT signing and random generation are arbitrary functions or values; the key derivation's own failures for zero rounds, zero threads or an empty key are not part of the model.
- The provider exchange and its user-info call: the identity is an arbitrary value.
- Device name, user agent and IP address, row mappers, address validation: they play no part in the properties.
- Timing equalisation and the hiding of whether an address exists, beyond resend answering alike.
- Login, its limiter totals, password policy, OAuth state and the session issued after an OAuth sign-in (issuing is modelled on its own).
- `LockedUntil` and failed-login counts of an account: they have no column, so no loaded account carries them and `CanLogin` reduces to the status.
- Audit events; e-mail delivery beyond the set of mails sent.
- The limiter inside register and resend is modelled in `RateLimiter`, not again in `AccountProtocol`.
- The capturing response writer: a handler is the status and body it ends with; headers are not stored by the code either.
- Foreign keys from sessions to users, and deletion of rows: no modelled statement deletes.
- Within the rotation and logout transactions `NOW()` is taken at the commit, the point where all their statements take effect; the issuing transaction keeps start and statement times apart.
- Deadlock and serialisation aborts appear only as a call failing without effect.
- Unicode special casing that changes the length of a string, and invalid UTF-8: characters are lower-cased one by one.
- Windows and reservations are counted in whole time units; the truncation of a Redis lifetime to seconds is the caller's argument.
- At-most-once execution when owners outlive their reservation: it is false then, as the run of `SlowOwnerRunsTwice` shows; `OverlapIffLateClaim` gives the exact condition over every run.

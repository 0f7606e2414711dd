# A verified model of dpop-auth

dpop-auth is an authentication service: it issues access tokens bound to a client's key (DPoP, RFC 9449),
rotates refresh tokens with reuse detection (section 4.14 of RFC 9700), offers TOTP two-factor
authentication (RFC 6238) with recovery codes, and sends mail through a transactional outbox. This project
models its four stateful protocols and proves what holds of them in every run.

| files | what they model |
|---|---|
| `Base.dfy`, `Tokens.dfy` | clock, time-to-live cache, access tokens, the refresh-token table |
| `RotationConcurrency.dfy` | refresh-token rotation statement by statement: any number of requests in flight, row locks, commits that fail, cancellations, cache evictions |
| `AuthService.dfy`, `SessionRuns.dfy` | the same service with each transaction as one step, and whole runs of it together with the resource server |
| `RotationRefinement.dfy` | the two levels agree on an undisturbed request |
| `RotationAlarms.dfy`, `RotationRaces.dfy` | what a reuse detection achieves while rotations of the same family are in flight, and a run in which it achieves nothing |
| `TargetUri.dfy`, `DpopProofs.dfy`, `DpopRuns.dfy`, `NonceClient.dfy`, `ReplayGuard.dfy` | proof validation, its runs, the nonce challenge and the client's retry loop |
| `TotpService.dfy`, `TotpLaws.dfy`, `TotpRuns.dfy` | two-factor enrolment, verification and draft cleanup, call by call |
| `TotpStatements.dfy`, `TotpRaces.dfy` | the same statement by statement, with what a transaction locks; runs in which concurrent calls go wrong |
| `TotpReplay.dfy`, `RecoveryCodes.dfy` | replay of TOTP codes, recovery-code text |
| `EmailOutbox.dfy`, `OutboxRuns.dfy`, `OutboxRefinement.dfy` | the outbox table, the worker's batch, runs of many workers |

Verify everything with `dafny verify dfyconfig.toml`.

## How the model is built

- A protocol is a deterministic step function folded over an arbitrary sequence of steps. A step that is
  blocked or not enabled changes nothing, so "for every sequence of steps" is "for every run". Random choices,
  commit verdicts, clock advances, evictions and crashes are steps or step arguments.
- Code that changes state is a class (`AuthService`, `DpopState`, `Service`, `Worker`, `TtlCache`) whose methods
  follow the statements of the source, rollback included, and are proved to leave exactly what a specification
  function says; the run theorems speak about those functions.
- What a call does is also stated over the fields, without the helper predicates and constants of the specification
  (`ActiveTokenLaw`, `RevokedTokenLaw`, `LoginLaw`, `FirstFailingCheck`, `SessionLaw`, `ResponseTable`, the lemmas of
  `TotpLaws.dfy`, `SelectedIff`, `SettleLaw`), with durations in nanoseconds written out.
- Time is in nanoseconds, and `as_secs`, saturating `u64` addition and subtraction are written out, because
  several results depend on truncation.
- SHA-256 is a free constructor (no collisions), signatures are a verdict, HOTP is an arbitrary function. New
  refresh secrets are unguessed by any earlier request, and a login's family UUID is new.

## Findings

- The jti lifetime of 2 * skew + 5 s makes proofs replay-free exactly when the `jti` is recorded at most
  4 s plus twice the sub-second part of the skew after the clock was read (`ProofReplayFreeIff`): one of the
  five buffer seconds is used up by truncation.
- The 90 s of the TOTP replay cache leave no slack at all: single use holds exactly when verification and record
  fall into one instant (`NinetySecondsIff`).
- A refresh reads the clock for its expiry check and again when it issues the access token
  (dpop-auth/src/service/auth.rs:441 and 477), without checking again. So a family can issue a token after its end of
  life, by as much as a refresh takes. `SessionBound` bounds sessions by end of life + that delay + access-token
  lifetime + skew, in whole seconds. The bound without the delay holds in whole seconds exactly when a refresh takes no
  time (`WholeSecondBoundIff`), and to the nanosecond exactly when what truncation takes from lifetime and skew covers
  the delay and a second (`EndOfLifeBoundIff`). The bound after a reuse detection does not depend on the delay
  (`RevocationBoundIff`). With the default lifetimes neither holds to the nanosecond (`DefaultsOverrun`).
- A reuse detection does not always end its family. With transactions as atomic steps it does (`AfterReuse`). Statement by
  statement, the family revoke sees at most one active row, waits if a rotation holds it, and finds it revoked; the
  successor stays active (`RotationOutlivesAlarm`, and `RaceIsReachable` for such a run). A detection that commits ends the
  family for good exactly when the row it saw was not rotated meanwhile, or what came of it is no longer active
  (`AlarmKillsFamilyIff`).
- A refresh can answer Ok with a refresh token that is no row: a rotation caches its pair and fails to commit, the user
  logs out, and the logged-out token is presented within the grace period (`UnknownRefreshToken`). The pair answered for a
  token is that of a step that committed exactly when the token has been rotated (`AnswerProvenance`, `ReplayIffRotated`).
- `confirm_2fa` and `disable_2fa` do not look at how many rows their first UPDATE changed, and one that changed none holds
  no lock. A cleanup between check and activation leaves ten codes with 2FA off (`CleanupRace`); a second disable can use up
  the codes of a new enrolment (`DisableRace`); three confirmations can leave twenty codes (`ConfirmRace`). Recovery codes
  are conserved throughout a run exactly when every transaction that commits in it is sound, a condition on rows matched,
  the enabled flag, codes spent and confirmations committed since its snapshot (`ConservedIffSound`); they are when every
  committed confirmation promoted a draft and every committed disable switched 2FA off (`MatchedConserves`).
- Outside http and https an opaque path can mimic an authority, so that different URLs normalise alike
  (`OpaquePathMimics`, and `NormalizedIff` for exactly which).
- The 23-byte check of `is_recovery_code` is redundant (`LengthFollowsFromGroups`), and so is the exponent clamp of
  the back-off as far as its value goes (`BackoffClosedForm`).
- `attempts <= max_attempts`, and likewise the spacing of retries, hold exactly when no worker takes longer from claim to
  mark than the reclaim time (`CapHoldsIff`, `SpacingHoldsIff`): marks are not fenced.
- The comment on `process_batch` says items are delivered one after the other; the code delivers them concurrently
  (dpop-auth/src/service/email.rs:86-118). The model follows the code: `SettledInAnyOrder` shows the order is
  immaterial to the table.

## Model

| member | source | states |
|---|---|---|
| `RotationConcurrency.RunKeepsInv` | dpop-auth/src/service/auth.rs:385-501 | in every run of any number of interleaved requests: locks are exclusive, a request's copy of its row is current, chains, cache and history are consistent |
| `RotationConcurrency.OneWinner` | dpop-auth/src/service/auth.rs:395-399 | of all requests with one refresh secret at most one commits a successor row |
| `RotationConcurrency.OneAnswer` | dpop-auth/src/service/auth.rs:401-418 | all requests answered Ok for one secret, winner and losers, get the same pair, even with evictions and failed commits |
| `RotationConcurrency.NoFalseAlarm` | dpop-auth/src/service/auth.rs:477-491 | without eviction, reuse of a rotated token is detected only after the grace period, because the pair is cached before the commit |
| `RotationConcurrency.NothingDropped` | dpop-auth/src/service/mod.rs:59-62 | in a run without eviction no alarm is due to a dropped cache entry |
| `RotationConcurrency.LoserGetsWinnersPair` | dpop-auth/src/service/auth.rs:401-418 | a loser that looks up within the grace period is answered with the committed winner's pair and revokes nothing, even if the winner's own answer was lost |
| `RotationConcurrency.ReplayIffRotated` | dpop-auth/src/service/auth.rs:405-418 | a replayed pair is what its token was rotated into iff the token was rotated by a committed rotation; its refresh token is then a row of the family |
| `RotationConcurrency.OneActiveRow` | dpop-auth/src/store/repo/refresh_tokens.rs:109-134 | in every reachable committed state a family has at most one unrevoked row |
| `RotationConcurrency.LinearChain` | dpop-auth/src/service/auth.rs:399-475 | the rows of a family stand in one order; one directly follows another iff a request committed that rotation |
| `RotationConcurrency.OneSuccessor` | dpop-auth/src/service/auth.rs:399-475 | no token is rotated into two tokens and none stems from two |
| `RotationConcurrency.NoCycle` | dpop-auth/src/service/auth.rs:461-475 | no sequence of rotations leads back to its first token |
| `RotationConcurrency.DescendsFromLogin` | dpop-auth/src/service/auth.rs:127-138 | every committed row is reached by rotations from the row of a register or login step, the only one into its family |
| `RotationConcurrency.OneSession` | dpop-auth/src/service/auth.rs:461-475 | all rows of a family share user, key thumbprint and expires_at |
| `RotationConcurrency.RowsEvolve` | dpop-auth/src/store/repo/refresh_tokens.rs:74-169 | between any two points of any run no row disappears, nothing but revoked_at changes, and a set revoked_at is never cleared or overwritten |
| `RotationConcurrency.StrikeKeepsLocks` | dpop-auth/src/store/repo/refresh_tokens.rs:88-102 | a family revoke never takes a row another transaction holds |
| `RotationConcurrency.CommitKeepsLocks` | dpop-auth/src/service/auth.rs:491-491 | a commit publishes only rows its own transaction holds, so the others keep what they rely on |
| `RotationRefinement.WholeRequestIsRefreshTx` | dpop-auth/src/service/auth.rs:385-501 | an undisturbed request run statement by statement, with any time between its check and its use of the cache, leaves the table, the grace cache and the answer of the transaction-level `RefreshTx` |
| `RotationRefinement.LoginIsLoginTx` | dpop-auth/src/service/auth.rs:117-147 | the login step of the statement level is the login transaction |
| `RotationRefinement.RevokeIsLogout` | dpop-auth/src/store/repo/refresh_tokens.rs:137-169 | an unhindered revoke by hash, by id or by user revokes the active rows it names and nothing else |
| `RotationAlarms.AlarmKillsFamilyIff` | dpop-auth/src/service/auth.rs:426-430 | in any run, a reuse detection that commits leaves the family without active row in every continuation iff the row active when its family revoke started was not rotated meanwhile, or nothing that came of it is active |
| `RotationAlarms.RunKeepsSweeps` | dpop-auth/src/store/repo/refresh_tokens.rs:88-102 | in every run the snapshot of a family revoke shows at most one row, and whatever is active in the family later was in it unless that row has been rotated |
| `RotationAlarms.StrikeIffUncontended` | dpop-auth/src/store/repo/refresh_tokens.rs:88-102 | a family revoke that meets its snapshot unchanged locks every active row at once iff no other transaction holds one |
| `RotationAlarms.UncontendedAlarmKills` | dpop-auth/src/service/auth.rs:426-430 | then the family ends for good, whatever other requests do between that statement and the commit and afterwards |
| `RotationRaces.RotationOutlivesAlarm` | dpop-auth/src/service/auth.rs:461-491 | a rotation about to commit when the family revoke has read its snapshot leaves an active successor, and the detection still commits and answers Unauthorized |
| `RotationRaces.RaceIsReachable` | dpop-auth/src/service/auth.rs:385-501 | a run from the empty system, under any configuration, that comes to such a state |
| `RotationAlarms.SpentStaysSpent` | dpop-auth/src/service/auth.rs:399-436 | a family without active row never has one again, in any interleaving |
| `AuthService.FailureFrame` | dpop-auth/src/service/auth.rs:426-457 | every failed refresh leaves the table as it was, except a committed reuse detection, which turns null revoked_at fields of that one family non-null |
| `AuthService.ActiveTokenLaw` | dpop-auth/src/service/auth.rs:438-500 | an active token is rotated iff presented before its end of life, with its own key, for a user that exists and is not deleted, with a new hash drawn; the claims of the token issued, the rows written and the entry cached, field by field; any other outcome changes nothing |
| `AuthService.RevokedTokenLaw` | dpop-auth/src/service/auth.rs:401-436 | an unknown token is refused; a revoked one gets the pair cached less than the grace period ago, or else has every active row of its family revoked |
| `AuthService.LoginLaw` | dpop-auth/src/service/auth.rs:94-147 | a login of an existing user adds one row that lives for the refresh lifetime in whole seconds; a missing or deleted user is refused |
| `AuthService.AuthService.constructor` | dpop-auth/src/service/mod.rs:57-72 | an empty service whose grace entries live for the grace period |
| `AuthService.AuthService.RevokeIfActive` | dpop-auth/src/store/repo/refresh_tokens.rs:109-134 | the compare-and-swap succeeds iff the row is active and changes that row only |
| `AuthService.AuthService.RevokeFamily` | dpop-auth/src/store/repo/refresh_tokens.rs:88-102 | exactly the active rows of the family become revoked |
| `AuthService.AuthService.CreateRefreshToken` | dpop-auth/src/store/repo/refresh_tokens.rs:9-43 | inserts iff the hash is new |
| `AuthService.AuthService.Login` | dpop-auth/src/service/auth.rs:117-147 | the session-issuing end of login and register: the statements leave exactly what `LoginTx` says, which `LoginLaw` spells out |
| `AuthService.AuthService.Refresh` | dpop-auth/src/service/auth.rs:385-501 | the statements in order, with rollback, failing commit and two clock readings, leave exactly what `RefreshTx` says on every path, which `ActiveTokenLaw` and `RevokedTokenLaw` spell out |
| `AuthService.AuthService.Logout` | dpop-auth/src/service/auth.rs:513-523 | revokes the token if active and nothing else; afterwards it is not active |
| `SessionRuns.RunKeepsInv` | dpop-auth/src/service/auth.rs:441-501 | in every run: rows, cached pairs, issued pairs and accepted requests all go back to one login; tokens are issued at most the delay after end of life; revoked families are dead |
| `SessionRuns.RotatedIff` | dpop-auth/src/service/auth.rs:438-475 | in every run an active token is rotated iff presented with the key of its login, before the login's instant plus the refresh lifetime in whole seconds, while the login's user exists and is not deleted, with a new hash and a commit that succeeds |
| `SessionRuns.DeletedUserIsRefused` | dpop-auth/src/store/repo/users.rs:49-77 | in every run, once a user is deleted its logins and the refreshes of its active tokens are refused and change nothing |
| `SessionRuns.ReuseKillsFamily` | dpop-auth/src/service/auth.rs:426-430 | a committed reuse detection leaves no active row in the family and adds none |
| `SessionRuns.DeadStaysDead` | dpop-auth/src/service/auth.rs:399-436 | no continuation of the run activates, adds, caches or issues anything for a dead family |
| `SessionRuns.AfterReuse` | dpop-auth/src/service/auth.rs:401-436 | after a reuse detection at T, in every continuation: no active row, no new row; whoever refreshes and whenever, an Ok answer replays a pair issued by T, and from T + grace on every refresh is refused |
| `SessionRuns.AnswerProvenance` | dpop-auth/src/service/auth.rs:405-418 | in every run, the whole pair of every Ok refresh, replays included, was issued in one step for the family, user and key of the token presented; that step committed iff the token has been rotated, and then the refresh token of the pair is a row of the family |
| `SessionRuns.UnknownRefreshToken` | dpop-auth/src/service/auth.rs:477-491 | a run in which it is no row: failed commit, logout, refresh within the grace period |
| `SessionRuns.SessionProvenance` | dpop-auth/src/axum/middleware.rs:121-130 | every accepted resource request goes back to one issuing step for the same user and key |
| `SessionRuns.AuthenticatedIffSession` | dpop-auth/src/axum/middleware.rs:88-131 | the request step of the runs accepts exactly what the middleware gives a session for |
| `SessionRuns.SessionBound` | dpop-auth/src/token.rs:72-118 | no resource request of a family is accepted later, in whole seconds, than its original expires_at plus the delay of a refresh, or its reuse detection, plus access-token lifetime plus skew |
| `SessionRuns.WholeSecondBoundIff` | dpop-auth/src/service/auth.rs:441-477 | without the delay the first bound holds in all runs iff a refresh takes no time (at most a nanosecond) |
| `SessionRuns.EndOfLifeBoundIff` | dpop-auth/src/service/auth.rs:441-477 | to the nanosecond it holds in all runs iff what truncation takes from lifetime and skew covers the delay and a second, less one or two nanoseconds |
| `SessionRuns.RevocationBoundIff` | dpop-auth/src/token.rs:72-118 | to the nanosecond the second bound holds in all runs iff truncation takes a second less a nanosecond |
| `SessionRuns.DefaultsOverrun` | dpop-auth/src/config.rs:203-209 | with the default lifetimes neither bound holds to the nanosecond, and the first in whole seconds only for a refresh that takes no time |
| `AccessTokens.ExactLifetime` | dpop-auth/src/token.rs:72-118 | an access token is accepted exactly up to the last instant of issuing second + lifetime + skew |
| `TtlCaches.TtlCache.Get` | dpop-auth/src/service/mod.rs:59-62 | finds an entry iff it is younger than the lifetime |
| `TtlCaches.TtlCache.OrInsert` | dpop-auth/src/dpop.rs:216-221 | reports a fresh entry iff none was live; a live one is neither changed nor prolonged |
| `TtlCaches.TtlCache.Insert` | dpop-auth/src/service/auth.rs:480-489 | overwrites and restarts the lifetime of one key |
| `ReplayGuard.GuardedUse` | dpop-auth/src/cache/jti.rs:12-25 | if every accepted use was recorded with or_insert, uses of one key stay a lifetime apart |
| `TargetUri.BuildHtu` | dpop-auth/src/dpop.rs:230-249 | the buffer built by pushes is the normal form |
| `TargetUri.NormalFormLaw` | dpop-auth/src/dpop.rs:230-249 | the normal form spelled out: scheme, host, port if any, path; no query, no fragment |
| `TargetUri.DecimalSpelled` | dpop-auth/src/dpop.rs:241-244 | ports are written in decimal |
| `TargetUri.NormalizedIff` | dpop-auth/src/dpop.rs:230-249 | two URLs normalise alike iff they agree in scheme, host, port and path, or one without a host spells authority and path of the other in its path |
| `TargetUri.OpaquePathMimics` | dpop-auth/src/dpop.rs:230-249 | two such URLs |
| `DpopProofs.AcceptedIff` | dpop-auth/src/dpop.rs:99-228 | acceptance iff signature, header, method, target, whole-second window, nonce, token hash and unseen jti are all right; it yields the signing key |
| `DpopProofs.FirstFailingCheck` | dpop-auth/src/dpop.rs:99-228 | the result is that of the first failing check, each spelled out; a missing or unknown nonce gives TokenNonceRequired iff no access token is presented, ResourceNonceRequired iff one is |
| `DpopProofs.CacheFrame` | dpop-auth/src/dpop.rs:185-228 | a rejected proof adds no jti; only a nonce challenge adds a nonce, exactly the one it returns |
| `DpopProofs.DpopState.constructor` | dpop-auth/src/state.rs:26-36 | empty caches with lifetimes 2 * skew + 5 s and 300 s |
| `DpopProofs.DpopState.ValidateProof` | dpop-auth/src/dpop.rs:99-228 | the checks in order over the two caches leave exactly what `Validate` says, which `FirstFailingCheck` and `CacheFrame` spell out |
| `DpopProofs.DpopState.Authenticate` | dpop-auth/src/axum/middleware.rs:88-131 | a session iff the token was issued, is unexpired, its proof validates for it, and the key is the bound one |
| `DpopProofs.SessionLaw` | dpop-auth/src/axum/middleware.rs:88-131 | its errors, check by check: unknown token, expiry, proof, key |
| `DpopRuns.UninterruptedIsValidate` | dpop-auth/src/dpop.rs:164-228 | three uninterrupted steps of the concurrent machine are one `Validate` |
| `DpopRuns.WindowIsSpan` | dpop-auth/src/dpop.rs:164-172 | the saturating whole-second window of a proof spans at most 2 * floor(skew) + 1 seconds |
| `DpopRuns.RunKeepsReplayInv` | dpop-auth/src/dpop.rs:164-221 | in every run acceptances lie in the window and uses of a jti are a lifetime apart |
| `DpopRuns.DelayWithinBuffer` | dpop-auth/src/dpop.rs:164-221 | with a delay of at most 4 s (plus twice the fraction of the skew) no run accepts a proof twice |
| `DpopRuns.DelayBeyondBuffer` | dpop-auth/src/state.rs:27-29 | with any longer delay some run does |
| `DpopRuns.ProofReplayFreeIff` | dpop-auth/src/state.rs:27-29 | so the buffer is exactly that long |
| `DpopRuns.NonceSoundness` | dpop-auth/src/dpop.rs:185-201 | an accepted proof that carried or needed a nonce carried one this server issued less than 300 s before |
| `DpopRuns.NonceRemembered` | dpop-auth/src/cache/nonce.rs:9-25 | without eviction an issued nonce is live for 300 s, whatever else happens |
| `NonceClient.RetryIffChallenge` | dpop-auth/src/error.rs:92-133 | of all error responses exactly the nonce challenges make the client retry, with the nonce of the challenge |
| `NonceClient.ResponseTable` | dpop-auth/src/error.rs:92-133 | the status and nonce of every error |
| `NonceClient.ChallengeStatus` | dpop-auth/src/dpop.rs:191-199 | a proof that lacks only a required nonce is answered 400 at the token endpoint and 401 at a resource, with a nonce the server then remembers |
| `NonceClient.DpopRequests` | examples/web/src/client.rs:24-75 | at most two requests, the second only after a challenge and with its nonce; checked within 300 s it is not challenged again |
| `NonceClient.ChallengeCanBeMet` | dpop-auth/src/dpop.rs:185-201 | in any run without nonce eviction a challenge answered within 300 s passes the nonce check |
| `RecoveryCodes.AcceptedIffPrinted` | dpop-auth/src/crypto/totp.rs:191-200 | a string is accepted iff its trimmed lower-cased form is the printed form of ten bytes |
| `RecoveryCodes.PrintInjective` | dpop-auth/src/crypto/totp.rs:131-138 | those ten bytes are unique |
| `RecoveryCodes.PrintLaw` | dpop-auth/src/crypto/totp.rs:131-138 | every character of a printed code: lower-case digits, high half first, hyphens after five, ten and fifteen |
| `RecoveryCodes.WhitespaceLaw` | dpop-auth/src/crypto/totp.rs:192-192 | what trimming strips, by code point |
| `RecoveryCodes.LowerLaw` | dpop-auth/src/crypto/totp.rs:180-182 | lower-casing moves the 26 capital letters and nothing else |
| `RecoveryCodes.LengthFollowsFromGroups` | dpop-auth/src/crypto/totp.rs:193-199 | the 23-byte check follows from the group checks |
| `RecoveryCodes.TypedBackCode` | dpop-auth/src/crypto/totp.rs:180-200 | a generated code in any case and with any blanks around it is accepted and hashes like the original |
| `RecoveryCodes.GenerateRecoveryCodes` | dpop-auth/src/crypto/totp.rs:151-171 | one accepted code per ten bytes of entropy, the printed form of just those bytes; none iff the entropy source fails |
| `TotpService.EveryVersionOk` | dpop-auth/src/store/repo/totp.rs:15-128 | under any interleaving of statements and rollbacks: enabled iff secret iff enabled_at; draft iff draft time; never enabled with a draft |
| `TotpService.Service.constructor` | dpop-auth/src/service/mod.rs:57-72 | no users, no codes, and a replay cache of 90 s |
| `TotpService.Service.SetupTwoFactor` | dpop-auth/src/service/totp.rs:113-148 | resumes a live draft or writes a new one, as `Setup` says and `SetupLaw` spells out |
| `TotpLaws.SetupLaw` | dpop-auth/src/store/repo/totp.rs:49-67 | a draft less than 600 s old is returned unchanged; otherwise a new one is written now; every refusal |
| `TotpService.Service.ConfirmTwoFactor` | dpop-auth/src/service/totp.rs:175-219 | activation and ten new codes commit together or not at all |
| `TotpLaws.ConfirmLaw` | dpop-auth/src/service/totp.rs:175-219 | every outcome over the fields: a draft less than 600 s old, the right code of one of three 30 s steps, ten codes printed from the entropy, the row and the hashes left |
| `TotpService.Service.ConsumeRecoveryCode` | dpop-auth/src/store/repo/totp.rs:173-192 | spends iff the code is an unused one of this user, and only that one |
| `TotpService.Service.VerifyTwoFactor` | dpop-auth/src/service/totp.rs:248-287 | recovery codes are spent, TOTP codes checked and recorded, as `Verify` says |
| `TotpLaws.VerifyLaw` | dpop-auth/src/service/totp.rs:248-287 | every outcome over the fields: codes spent, TOTP codes right and unused for 90 s |
| `TotpService.Service.DisableTwoFactor` | dpop-auth/src/service/totp.rs:306-327 | after a step-up: no secret, no draft, no code |
| `TotpLaws.DisableLaw` | dpop-auth/src/store/repo/totp.rs:109-128 | every column a disable clears |
| `TotpService.Service.CleanupExpiredDrafts` | dpop-auth/src/store/repo/totp.rs:257-270 | the cleanup over the table, as `Cleanup` says and `CleanupLaw` spells out |
| `TotpLaws.CleanupLaw` | dpop-auth/src/store/repo/totp.rs:257-270 | exactly the drafts more than 600 s old go, and nothing else changes |
| `TotpLaws.DraftWindow` | dpop-auth/src/store/repo/totp.rs:49-67 | in every run with cleanups anywhere, a draft handed out at t and neither replaced nor promoted is returned by setup iff now < t + 600 s, and activated by the right code iff the same |
| `TotpRuns.CleanupInvisible` | dpop-auth/src/service/totp.rs:332-361 | cleanups inserted anywhere in a run change the reply to no call |
| `TotpRuns.RunIsSwept` | dpop-auth/src/store/repo/totp.rs:257-270 | the states with and without cleanups differ in expired drafts only |
| `TotpRuns.LiveDraftIsResumed` | dpop-auth/src/service/totp.rs:132-140 | while a draft is live any number of setups return its secret and leave its expiry |
| `TotpRuns.SecretProvenance` | dpop-auth/src/store/repo/totp.rs:82-101 | in every run a user's draft and active secret were handed out by a setup of that user |
| `TotpRuns.ActivationNeedsSetup` | dpop-auth/src/service/totp.rs:190-216 | 2FA is switched on only by a code for a secret handed out less than ten minutes before, which is then in force |
| `TotpRuns.RecoveryCodeConservation` | dpop-auth/src/service/totp.rs:204-327 | in every run: 10 minus the codes accepted since the confirm while 2FA is on, 0 while it is off |
| `TotpStatements.ConservedIffSound` | dpop-auth/src/service/totp.rs:191-216 | however the statements of concurrent calls interleave, row locks included, the same count holds at every point of a run iff every transaction committed for an existing user is sound: a confirmation promoted a draft, or found 2FA on and no newer codes than it saw; a disable switched 2FA off and saw the latest codes, or found 2FA off, or used up none |
| `TotpStatements.MatchedConserves` | dpop-auth/src/service/totp.rs:209-327 | it holds if every committed confirmation promoted a draft and every committed disable switched 2FA off |
| `TotpStatements.SettledIff` | dpop-auth/src/service/totp.rs:209-216 | one commit keeps the count iff it is sound |
| `TotpRaces.CleanupRace` | dpop-auth/src/store/repo/totp.rs:257-270 | a run in which a cleanup between check and activation leaves ten usable codes with 2FA off |
| `TotpRaces.DisableRace` | dpop-auth/src/service/totp.rs:319-324 | a run in which a second disable leaves 2FA on without a code |
| `TotpRaces.ConfirmRace` | dpop-auth/src/service/totp.rs:209-216 | a run in which three confirmations leave twenty usable codes |
| `TotpRaces.AtOnceIsConfirm` | dpop-auth/src/service/totp.rs:175-219 | a confirmation nobody disturbs, statement by statement, is `Confirm`, and finds its draft |
| `TotpRaces.AtOnceIsSetup` | dpop-auth/src/service/totp.rs:113-148 | a setup nobody disturbs is `Setup` |
| `TotpRaces.SweepIsCleanup` | dpop-auth/src/store/repo/totp.rs:257-270 | the cleanup of one unheld row is the service's |
| `TotpRaces.AtOnceIsVerify` | dpop-auth/src/service/totp.rs:248-287 | a verification nobody disturbs is `Verify` |
| `TotpRaces.AtOnceIsDisable` | dpop-auth/src/service/totp.rs:306-327 | a disable nobody disturbs is the service's |
| `TotpRuns.AcceptedAtMostIssued` | dpop-auth/src/store/repo/totp.rs:136-218 | no code is accepted more often than it was issued to that user |
| `TotpRuns.CodeStep` | dpop-auth/src/store/repo/totp.rs:136-192 | a code becomes usable only by being issued, and stops being usable when accepted |
| `TotpRuns.ForeignCodeChangesNothing` | dpop-auth/src/service/totp.rs:264-275 | a code that is not an unused one of this user is refused and changes nothing |
| `TotpReplay.VerifiedIffMatches` | dpop-auth/src/crypto/totp.rs:111-116 | a code passes iff it is that of the current step or of one at most one step away |
| `TotpReplay.AtOnceIsVerify` | dpop-auth/src/service/totp.rs:61-84 | a submission recorded at once is the TOTP path of `Verify` |
| `TotpReplay.SingleUseIff` | dpop-auth/src/service/totp.rs:61-84 | each time step accounts for at most one acceptance in every run iff entries live for three steps plus the delay |
| `TotpReplay.NinetySecondsIff` | dpop-auth/src/cache/totp.rs:9-24 | 90 s suffice exactly when nothing lies between check and record |
| `EmailOutbox.BackoffClosedForm` | dpop-auth/src/service/email.rs:28-33 | the clamped form is min(30 * 2^n, 3600) for every n |
| `EmailOutbox.BackoffTable` | dpop-auth/src/service/email.rs:16-33 | 30, 60, 120, 240, 480, 960, 1920 and then 3600 seconds |
| `EmailOutbox.Worker.ClaimPending` | dpop-auth/src/store/repo/email.rs:68-104 | claims and locks exactly the rows `Select` says, which `SelectedIff` and `LockLaw` spell out |
| `EmailOutbox.SelectedIff` | dpop-auth/src/store/repo/email.rs:78-90 | a row is claimed iff no other claim holds it, it is unsent, unlocked or locked longer than the reclaim time, due, below its cap, and fewer than the limit of such rows are older |
| `EmailOutbox.LockLaw` | dpop-auth/src/store/repo/email.rs:76-77 | a claim sets locked_at of the rows it returns and changes nothing else |
| `EmailOutbox.Worker.ProcessBatch` | dpop-auth/src/service/email.rs:80-121 | the claimed rows settled with the attempts they were claimed with; lost marks leave the row locked |
| `EmailOutbox.SettleLaw` | dpop-auth/src/store/repo/email.rs:114-161 | every column a sent or failed mark leaves, with the back-off in seconds |
| `EmailOutbox.SelectDistinct` | dpop-auth/src/store/repo/email.rs:78-90 | a claim returns no row twice |
| `EmailOutbox.OldestFirst` | dpop-auth/src/store/repo/email.rs:87-88 | a claimable row is passed over only for a batch full of older ones |
| `EmailOutbox.SettledInAnyOrder` | dpop-auth/src/service/email.rs:86-118 | each claimed row is settled once by its own delivery, no other row is touched, and the finishing order does not matter |
| `OutboxRefinement.BatchIsRun` | dpop-auth/src/service/email.rs:80-121 | a batch, in whatever order its deliveries end, is a run of single claims and marks |
| `OutboxRuns.UnmarkedClaimsApart` | dpop-auth/src/store/repo/email.rs:80-86 | in every run two claims of a row without a mark between them are more than the reclaim time apart |
| `OutboxRuns.SentNeverClaimed` | dpop-auth/src/store/repo/email.rs:114-128 | once sent a row stays sent and is never claimed again |
| `OutboxRuns.PromptSafety` | dpop-auth/src/store/repo/email.rs:68-161 | if every worker marks or dies within the reclaim time: at most one live claim per row and attempts <= max_attempts |
| `OutboxRuns.CapHoldsIff` | dpop-auth/src/store/repo/email.rs:138-161 | attempts <= max_attempts for every row of every run iff no worker takes longer from claim to mark than the reclaim time |
| `OutboxRuns.SpacingHoldsIff` | dpop-auth/src/service/email.rs:102-111 | the back-off spacing of completed attempts holds in every run iff the same |
| `OutboxRuns.RetrySpacing` | dpop-auth/src/service/email.rs:102-111 | then the (k+1)-th attempt starts no earlier than the sum of the first k back-offs after the first, and there are at most max_attempts |
| `OutboxRuns.RetriedIff` | dpop-auth/src/store/repo/email.rs:80-86 | in any run a failed row is taken again iff it is unsent, below its cap, and min(30 * 2^n, 3600) seconds have passed since the failure |
| `OutboxRuns.DeliveredNotTaken` | dpop-auth/src/store/repo/email.rs:114-128 | a delivered row is not taken again at any later instant |
| `OutboxRuns.StalledWorker` | dpop-auth/src/store/repo/email.rs:138-161 | for any longer stall a run that exceeds the cap and marks attempts out of order |

## Left out

- SessionBound: includes the delay of a refresh, because the bound without it is false of the code; `WholeSecondBoundIff`, `EndOfLifeBoundIff` and `RevocationBoundIff` say exactly when each bound holds.
- EndOfLifeBoundIff: the two token lifetimes together are taken to stay two seconds below 2^64, and so in WholeSecondBoundIff; a saturated `exp` shortens the session.
- Access: an accepted request counts as accepted when its token passes the expiry check; the middleware grants the session after it has validated the proof.
- PromptSafety: needs workers that mark or die within the reclaim time, because the code does not fence a stalled worker; `CapHoldsIff` says exactly when the cap holds.
- AfterReuse: transactions are atomic steps here, as they are in ReuseKillsFamily and RevocationBoundIff; what a reuse detection achieves against rotations in flight is stated by `AlarmKillsFamilyIff` and `RotationOutlivesAlarm`.
- FailureFrame: a commit that took effect without the client hearing of it is modelled statement by statement, not here.
- RecoveryCodeConservation: calls are atomic here; `ConservedIffSound` is the statement-level law.
- AuthService.AuthService.Login: models only the issuing of the session; password check, identifiers, login attempts, timing equalisation and the second-factor branch come before it.
- DpopRuns.ProofReplayFreeIff: assumes that no jti entry is evicted for capacity, and TotpReplay.SingleUseIff the same of the TOTP replay cache; eviction of nonces and of grace entries is modelled.
- URL parsing: the parts of a URL come from library code; what it guarantees of them is `TargetUri.WellFormed`.
- READ COMMITTED: an UPDATE sees the rows committed when it starts, waits for those another transaction holds, and checks them again; other statements read what is committed. Nothing else of the engine is modelled; deadlocks end in a dropped request.
- The value of revoked_at: the model takes the instant of the statement, PostgreSQL that of the transaction's begin; nothing here depends on more than whether it is null.
- A transaction that the database aborts unnoticed before its commit: a failing statement or commit, or a cancelled request, is modelled; a lock lost while the request goes on is not.
- Access-token encoding, issuer, audience and extra claims; JWK parsing and thumbprints; SHA-256, Argon2 and base64: foreign code, taken as collision-free constructors or verdicts. The expiry rule is now <= exp + leeway.
- Row-level security, the connection pool and migrations code; PostgreSQL itself beyond guarded updates, unique constraints, row locks and rollback.
- Lower-casing outside ASCII, which cannot produce a hexadecimal digit or a hyphen.
- The used_at time of spent recovery codes: only the set of unused hashes is kept.
- Overflow of the 16-bit attempts column.
- Response bodies and headers other than the status and DPoP-Nonce; cookies, CORS, the axum plumbing and header extraction.
- The browser client apart from its retry loop: user interface, WebCrypto and IndexedDB; the mail senders.

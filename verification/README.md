# Socle identity service: a verified model

Socle keeps all its state in a few Postgres tables and Valkey keys, and changes it
by short sequences of separate statements. This project models those tables and
keys, every handler as a sequence of atomic statements, and proves what the service
keeps when any number of handlers interleave, when handlers run one at a time, and
when the clock moves between two commands.

`dafny verify dfyconfig.toml` checks everything.

## How the model is built

| file | what it holds |
|---|---|
| `Wrappers.dfy`, `Models.dfy` | options and results; roles, users, claims, providers, errors, symbolic cryptography |
| `Database.dfy` | the tables as one value, each SQL statement as a function, and the constraints every statement keeps |
| `Valkey.dfy`, `Keys.dfy`, `OAuthStore.dfy` | SETEX, GETDEL, INCR and EXPIRE over one keyspace; the key formats; the two one-time stores |
| `Handlers.dfy` | each handler as a program counter and its locals; `Advance` runs one statement; `PcOk` is what a call may rely on between two of its statements |
| `Machine.dfy` | the whole service as a transition system, its invariant, and its runs |
| `Rotation.dfy`, `Chains.dfy` | refresh-token rotation under every interleaving: the forest, the cut-off of a revoke-all, and exactly when a token is rotated twice |
| `Accounts.dfy`, `SignIn.dfy`, `Credentials.dfy`, `Pipeline.dfy` | the rest of what holds under every interleaving: accounts, claims, identities, authority and the admin role; who obtains tokens; exactly when a user is left without a credential; the OAuth pipeline |
| `Changes.dfy` | who may change an account or end a session, at every step of every interleaving |
| `Atomic.dfy`, `Outcomes.dfy`, `Refinement.dfy` | calls run to their end one after another and what that adds; what each operation answers and changes, error by error; whole journeys; what calls in flight do with what they hold; the refinement to a directory of accounts and linked identities |
| `Witnesses.dfy` | runs from the empty service that show which expectations fail |
| `RateLimiter.dfy`, `LimiterTrace.dfy` | the limiter's machine arithmetic and one-at-a-time checks; the limiter with delays and failures between its commands |
| `StateLog.dfy` | the state store as a log of its own operations |
| `Services.dfy` | the services as classes with early returns, each method proved equal to the corresponding call of the transition system run to its end |

A **run** is any sequence of labels: a call begins, a call runs its next statement,
or a call is cut off by an error of Postgres, Valkey or the provider. A cut-off may
follow a statement that took effect, so a reply lost on the way back is covered. A
label that is not enabled changes nothing, so theorems over runs quantify over all
sequences. One Postgres statement, one transaction of `UserService::create`, or one
Valkey command is one step.

Fields marked "history" (`origin`, `bornAt`, `revokedAt`, `cuts`, `deactivatedAt`,
`grants`, `tick`, the writer of a Valkey entry) are read by no statement; they record
what the theorems talk about, such as the parent of a rotated row.

### Idealisations

- The HMAC under the configured secret is an injective constructor; an Argon2 hash
  verifies exactly the text it was made from.
- An access token validates exactly when the service issued it. Its claims count as
  issued once the response can be built: after the refresh row is in, or, for a
  refresh, after the credential lookup.
- Random values are inputs of the step that draws them. Nothing assumes them fresh
  in the transition system: a secret that collides makes the INSERT fail on the
  unique `lookup_key`. Where a theorem says a login or refresh *succeeds*, it
  asks for a secret that is not in the table yet.
- Rows of `users` and `refresh_tokens` are never deleted by the source, so a row's
  position stands for its UUID.
- Characters of a string stand for bytes, as the length checks of the source count them.
- Postgres checks the email index before the display-name index; Valkey's clock counts
  whole seconds and shows a key up to and including its deadline.
- `u64` arithmetic wraps, as in a release build; `check` needs a window size above zero.

### Where the code and its documentation differ

The model follows the code.

- `src/rate_limit.rs:10` says keys expire after two windows of inactivity. The expiry is
  set only when INCR returns 1 (lines 91-93), so it counts from the first request.
- `src/services/user.rs:99-103` does not mention display names. The UNIQUE of
  `users.username` survived its renaming to `display_name`
  (`migrations/20260606193040_normalise_user_credentials.up.sql:3-4`), so two accounts
  cannot share one, and a collision comes back as a database error
  (`CreateIsAllOrNothing`).
- `src/models.rs:130-131` says every user has a credential. The code breaks this in two
  ways. `unlink_oauth_account` removes a last link unchecked: `UnlinkLeavesBare` shows it for
  every state, `UnlinkedUser` from the empty service, and `UnlinkKeepsExactlyWhen` gives the
  condition. And a first OAuth login inserts its user and its link in two statements:
  `CutOffLeavesBare` and `CutOffUser` cut it off in between. `CoveredStepExact` and
  `CoveredExactly` give the exact condition over all runs, interleaved and cut off anywhere: a
  user is left with neither a credential nor a call about to link one exactly when its last such
  call is cut off before the INSERT of its link or finds the identity linked by then, or when its
  last link is unlinked.
- `src/services/token.rs:127-128` promises to rotate a token immediately. The UPDATE does not look
  at the row's state, so two refreshes of one token can both succeed: `AnyLiveTokenRotatesTwice`
  shows it for every unrevoked, unexpired token of every state, and `OneTokenTwoSuccessors` gives
  a run from the empty service. `ChainStepExact` and `NoOverlapKeepsChains` give the exact
  condition: a row keeps at most one successor and one holder as long as no SELECT accepts a row
  that another call holds, and after such a SELECT four more statements rotate the row twice
  (`OverlapBreaksChains`).
- `src/rate_limit.rs:60-92` reads the clock, increments and sets the expiry at three moments.
  `DelayBoundIsExact`: with INCRs at most d seconds after their readings, the per-window limit
  holds exactly when d is at most one window and a second, for every window size below 2^62 and
  every limit from one to the largest counter. The
  extra second is due to a deadline being inclusive and the clock counting whole seconds.

## Model

| member | source | states |
|---|---|---|
| RotationTheorems.Forest | src/services/token.rs:137-173 | In every run the refresh rows form an acyclic forest: each hangs under one sign-in row of the same user, and every proper ancestor of a row is revoked. |
| RotationTheorems.RootIsSignIn | src/services/auth.rs:206-227 | Following parents from any row ends at a row made by `issue_tokens` for the same user. |
| RotationTheorems.AncestorIsRevoked | src/services/token.rs:164-171 | A row that has been rotated, directly or through descendants, is revoked. |
| RotationTheorems.RevocationIsFinal | src/services/token.rs:164-188 | No run un-revokes a row or changes its user, keys, expiry or origin. |
| RotationTheorems.CutOff | src/services/token.rs:180-188 | After a revoke-all at point p, any later unrevoked row of that user descends from a row inserted after p by a sign-in, or by a rotation whose SELECT came before p. |
| RotationTheorems.NoRevival | src/services/token.rs:137-188 | A user with all rows revoked and no rotation in flight gets no unrevoked row in any run without a sign-in. |
| RotationTheorems.RevokedForGood | src/services/token.rs:180-188 | A revoke-all with no rotation of the user in flight ends all its sessions until it signs in again, whatever else runs. |
| RotationTheorems.RotationsOfOneRowOverlap | src/services/token.rs:140-171 | In every run, two rotations of one row both selected it before either's UPDATE. The converse is `BothRotate`. |
| ChainTheorems.BothRotate | src/services/token.rs:164-171 | In every state, two calls at the UPDATE of one row, however the row stands, both go through with distinct unused secrets and give it two unrevoked successors. |
| ChainTheorems.ChainStepExact | src/services/token.rs:140-173 | One step keeps "no row has two successors or two holders, and a held row has none" exactly when it is not a SELECT that accepts a row another call holds. |
| ChainTheorems.NoOverlapKeepsChains | src/services/token.rs:140-173 | In a run none of whose SELECTs accepts a held row, every token is rotated at most once. |
| ChainTheorems.OverlapBreaksChains | src/services/token.rs:140-173 | After a SELECT that accepts a held row, four more statements rotate that row twice. |
| ChainTheorems.AnyLiveTokenRotatesTwice | src/services/token.rs:137-173 | In every state, two refreshes whose statements alternate rotate any unrevoked, unexpired token twice. |
| Witnesses.OneTokenTwoSuccessors | src/services/token.rs:164-169 | A run from the empty service, a registration and two refreshes, after which one token has two unrevoked successors. |
| RotationTheorems.LookupIsScan | src/services/token.rs:138-162 | In every run the indexed lookup finds the same row as scanning all Argon2 hashes; it is the only row whose hash verifies, and verification never fails on a found row. |
| AtomicRotation.RotatedAtMostOnce | src/services/token.rs:137-173 | In atomic runs no row has two successors: the forest is a set of chains. |
| AtomicRotation.OnlyTheLastMayLive | src/services/token.rs:164-171 | In atomic runs an unrevoked row is the last of its chain. |
| AtomicRotation.ReplayRevokesAll | src/services/token.rs:153-156 | Replaying a revoked or expired token fails, leaves its user with no unrevoked row, and touches no other user's. |
| OutcomeTheorems.UnknownTokenOutcome | src/services/token.rs:149-151 | A token no row was made from is refused and nothing is written. |
| OutcomeTheorems.DeadTokenOutcome | src/services/token.rs:153-156 | A revoked or expired one is refused, ends exactly its user's sessions, and changes nothing else. |
| OutcomeTheorems.LiveTokenOutcome | src/services/auth.rs:114-147 | A live one is revoked and replaced by one row of the same user; an active user gets it with claims and username of its current row, an inactive one AccountDisabled. |
| PresentedTheorems.EveryRefreshIsPresented | src/services/token.rs:137-173 | In every run, a refresh about to end a user's sessions was given a token of a revoked or expired row of that user, and one about to rotate a row was given that row's token. |
| PresentedTheorems.RevocationIsAsked | src/services/token.rs:153-188 | In every run, a row is revoked only by a logout, password change or deactivation of its own user, by a refresh given its token, or by one given a dead token of its user. |
| AtomicRotation.RefreshUnfolds | src/services/auth.rs:114-147 | An accepted refresh revokes exactly its row, appends one successor for the same user, and answers with claims of that user's current row; for an inactive user it still rotates but answers AccountDisabled. |
| AtomicRotation.RefreshExact | src/services/auth.rs:114-147 | With a fresh secret, an atomic refresh succeeds exactly for an unrevoked, unexpired token of an active user. |
| AtomicRotation.RotationKeepsLiveCount | src/services/token.rs:164-172 | A rotation leaves every user's number of unrevoked rows unchanged. |
| AtomicRotation.LiveRowsBounded | src/services/token.rs:102-188 | In atomic runs a user's unrevoked rows never exceed its successful sign-ins since its last revoke-all. |
| AtomicRotation.CountRevokeAll | src/services/token.rs:180-188 | A revoke-all brings its user's unrevoked rows to none and changes nobody else's count. |
| AccountTheorems.DeactivationIsPermanent | src/services/user.rs:260-268 | In every run an inactive user stays inactive, and no login, refresh, registration or OAuth login that begins afterwards delivers tokens for it. |
| AccountTheorems.IssuedClaimsStayTrue | src/services/token.rs:48-75 | In every later state each issued claim's subject, email and display name are those of its user's row, and a password claim has a local credential behind it; every delivered response carries such a claim. |
| AccountTheorems.IdentityIsStable | src/services/auth.rs:166-184 | A linked identity stays linked and resolves to the same user in every OAuth login that begins later, whatever email its profile carries, until that user unlinks the provider. |
| AccountTheorems.LinkStays | src/services/user.rs:372-395 | Only its own user's unlink of that provider removes or changes a link, in every run. |
| AccountTheorems.ConstraintsAlwaysHold | migrations/20260606193040_normalise_user_credentials.up.sql:3-29 | Emails, display names, usernames, lookup keys are unique and all foreign keys point at users, in every state of every run. |
| AccountTheorems.CreateIsAllOrNothing | src/services/user.rs:104-156 | `create` fails exactly on a used email, display name or username, with the matching error and no row changed; otherwise it adds one active ordinary user and its credential. |
| GuardTheorems.EveryChangeIsAuthorised | src/middleware.rs:26-85 | In every run, each pending password change, deactivation, logout, unlink and role change is backed by an issued token of sufficient role, for its own subject as requested. |
| ChangeTheorems.EveryStepIsAsked | src/middleware.rs:26-85 | In every run, at every step: a role changes only to what an admin other than the user asked for that user, and only such a step records a grant; a user turns inactive, gets a new password or loses a link only as it asked itself; emails, names and usernames never change. |
| OutcomeTheorems.GuardOutcome | src/middleware.rs:26-85 | A guarded request without an issued token answers TokenInvalid, and without the role Forbidden, with nothing changed. |
| OutcomeTheorems.LogoutOutcome | src/routes/auth.rs:187-195 | Any issued access token, of whatever role, logs its user out: exactly the user's sessions end. |
| OutcomeTheorems.RoleOutcome | src/services/admin.rs:30-50 | An admin's role update of another existing user sets exactly that user's role; its own is refused and an unknown target reported. |
| OutcomeTheorems.PasswordOutcome | src/routes/users.rs:68-82 | A password change answers UserNotFound without a password, InvalidCredentials for a wrong one, and otherwise stores the new one and ends exactly the user's sessions. |
| OutcomeTheorems.DeactivateOutcome | src/routes/users.rs:100-109 | The token's own user becomes inactive, its sessions end, and nothing else changes. |
| OutcomeTheorems.UnlinkOutcome | src/routes/auth.rs:428-443 | An unknown provider, and one that is not linked, are refused; otherwise exactly the user's links to it go. |
| OutcomeTheorems.LoginOutcome | src/services/auth.rs:73-106 | Unknown email, missing or wrong password: InvalidCredentials; inactive: AccountDisabled whatever the password; otherwise one session, with claims, username and secret in the response. |
| OutcomeTheorems.RegisterOutcome | src/services/auth.rs:37-64 | Bad fields, used email, used name, used username answer their errors in this order with nothing changed; otherwise one active ordinary user named by its email's local part, its credential and a password session. |
| OutcomeTheorems.OAuthOutcome | src/services/auth.rs:166-204 | Each way an OAuth login resolves, with its link, session, claims and username; a new user is named by its profile, or else by its email's local part. |
| OutcomeTheorems.RouteRefusals | src/routes/auth.rs:290-341 | A denied callback, missing parameters and unknown providers are refused before anything is touched. |
| JourneyTheorems.OAuthJourney | src/routes/auth.rs:219-379 | From every state, authorize, callback and a session within 120 s end with the tokens of the user the profile belongs to, whenever that login is delivered. |
| JourneyTheorems.CallbackRefused | src/services/oauth.rs:290-300 | A callback that cannot consume its state ends with that error, the state gone and no table touched. |
| JourneyTheorems.ProviderRefused | src/services/oauth.rs:300-320 | A provider that does not answer ends the callback before any table is read. |
| JourneyTheorems.SessionRefused | src/services/oauth.rs:164-172 | An unknown, expired or spent code is refused. |
| InFlightTheorems.InFlightIsDelivered | src/services/auth.rs:206-227 | A sign-in that has reached `issue_tokens` is delivered with the row its copy had, even if its user has been deactivated or given another role since. |
| InFlightTheorems.InFlightRefreshIsDelivered | src/services/auth.rs:118-135 | A refresh past its activity check answers with the role of its copy and the method its credential gives it now. |
| InFlightTheorems.PasswordCheckedNow | src/services/auth.rs:84-92 | A login is judged by the password stored when it is checked. |
| InFlightTheorems.LastPasswordWins | src/services/user.rs:208-226 | A password change past its check overwrites whatever has been set since. |
| InFlightTheorems.CreateLosesRace | src/services/auth.rs:173-181 | An OAuth login whose new email or name was taken in between fails. |
| InFlightTheorems.LinkLosesRace | src/services/user.rs:312-331 | One whose identity was linked in between goes on as the user it had found, leaving the link. |
| InFlightTheorems.CollisionIsRefused | src/services/token.rs:102-125 | A secret already in use is refused with no row and no claim. |
| AdminTheorems.AdminProvenance | src/services/admin.rs:30-50 | In every run, each admin row, claim, stored payload and in-flight copy traces back through role updates by admins to a given set of roots. |
| AdminTheorems.AdminProvenanceFromRoots | src/services/user.rs:236-253 | The roots can be taken as whoever bears the admin role in the first state. |
| AdminTheorems.NoAdminFromNowhere | src/services/user.rs:115-187 | Without an admin row, claim, payload or copy to begin with, none ever appears. |
| AdminTheorems.RoleUpdateAdmin | src/services/admin.rs:30-50 | A role update extends the record of grants and keeps every admin accounted for. |
| AtomicAccounts.InactiveHoldNoLiveRow | src/routes/users.rs:100-109 | In atomic runs an inactive user never has an unrevoked refresh row. |
| AtomicAccounts.UnlinkKeepsExactlyWhen | src/services/user.rs:372-395 | Unlink keeps the at-least-one-credential invariant exactly when the user has a password, a link to another provider, or nothing to unlink. |
| CredentialTheorems.UnlinkLeaves | src/services/user.rs:372-395 | After an unlink exactly the links that are not this user's to this provider are left, unchanged. |
| CredentialTheorems.CoveredStepExact | src/services/auth.rs:166-184 | One step, errors included, leaves every user with a credential or a call about to link one exactly when it does not cut off a user's last such call, let it find its identity linked, or unlink a last link. |
| CredentialTheorems.CoveredExactly | src/services/auth.rs:166-184 | All users stay covered throughout a run exactly when none of its steps does that. |
| CredentialTheorems.LinkedOrBare | src/services/user.rs:312-331 | A user without a credential whose call is about to link gets one exactly when the call goes on and the identity is still free. |
| Witnesses.UnlinkLeavesBare | src/services/user.rs:372-395 | In every state, a stranger who logs in by OAuth and unlinks the provider is left without a credential. |
| Witnesses.UnlinkedUser | src/models.rs:130-131 | A run from the empty service that ends with a user without a credential, by an unlink. |
| Witnesses.CutOffLeavesBare | src/services/auth.rs:173-184 | In every state, a stranger's first OAuth login cut off before its link leaves a user without a credential. |
| Witnesses.CutOffUser | src/models.rs:130-131 | A run from the empty service that ends with a user without a credential, by a cut-off login. |
| AtomicAccounts.AtLeastOneCredential | src/models.rs:130-131 | Over whole atomic runs, every operation but an unsafe unlink keeps a credential for every user. |
| Refinement.AccountServiceRefinesMap | src/services/auth.rs:37-204 | After any atomic run, a login, registration or OAuth login is delivered exactly when the specified directory says so: for a login, when the email is active with p its last password. |
| Refinement.RunRefines | src/services/auth.rs:37-204 | Along any atomic run the tables stand for the directory that the specification computes from the operations and from which access tokens were let in. |
| Refinement.OpRefines | src/services/user.rs:104-395 | Each atomic operation moves the directory as specified, which decides by itself when a registration adds, a password change sets, a deactivation closes, an OAuth login links or adds, and an unlink removes. |
| Refinement.OpDelivers | src/services/auth.rs:37-204 | A login, registration or OAuth login is delivered exactly when the directory says so. |
| Refinement.RegisterExact | src/services/auth.rs:37-64 | A registration is delivered exactly for valid fields and a free email, display name and username; then it adds one user, its credential and one session, and otherwise no account. |
| Refinement.OAuthExact | src/services/auth.rs:166-204 | An OAuth login is delivered exactly for an active resolved user or a new one with a free display name, with claims of that user; its identity ends linked to it, active or not. |
| Refinement.UnlinkRefines | src/routes/auth.rs:428-443 | An admitted unlink removes exactly the account's links to that provider. |
| Refinement.LoginExact | src/services/auth.rs:73-106 | Login succeeds exactly for an active account with that password, for that email, and changes no account. |
| Refinement.RegisterRefines | src/services/auth.rs:37-64 | A registration adds one active account with its name, username and password exactly when the directory allows it. |
| Refinement.PasswordRefines | src/routes/users.rs:68-82 | A password change takes effect exactly when its token is admitted and the current password is right. |
| Refinement.DeactivateRefines | src/routes/users.rs:100-109 | Deactivation clears the activity of exactly the token's own account. |
| Refinement.OAuthRefines | src/services/auth.rs:166-204 | An OAuth login links or adds as the directory decides, changes no other account, and is delivered exactly when the directory says so. |
| Refinement.OAuthLeavesLink | src/services/user.rs:312-331 | A delivered atomic OAuth login leaves a link from its identity to the active user it resolved. |
| Refinement.OAuthLoginRepeats | src/services/auth.rs:166-184 | Repeating a delivered OAuth login is delivered again for the same user, and adds no user, credential or link. |
| SignInTheorems.SignInsAreEarned | src/services/auth.rs:37-227 | In every run, each sign-in row was inserted by a call that an earlier statement of its own had identified as the row's user: a registration creating it, a login with the password stored for it at that moment, or a callback whose profile carries an identity linked to it or its email, or that creates it. |
| SignInTheorems.InsertedBy | src/services/auth.rs:206-227 | Each sign-in row comes from one `issue_tokens` statement for its user. |
| PipelineTheorems.OAuthPipeline | src/routes/auth.rs:290-379 | In every run each successful session consumed an exchange entry written at most 120 s earlier by a callback that consumed a state entry written at most 600 s earlier by an authorize for the same provider; the identity logged in is that provider's, and no two sessions share either entry. |
| PipelineTheorems.VerifierMatchesState | src/services/oauth.rs:242-315 | The verifier a callback sends is the one generated with the state it consumed, for the same provider. |
| PipelineTheorems.ExecPipeline | src/services/oauth.rs:82-172 | Every entry in Valkey was written by a finished call, unconsumed so far, with its own key, value and deadline, in every run. |
| PipelineTheorems.SlugRoundTrip | src/config.rs:196-213 | Reading back a provider's slug gives the provider. |
| StateLog.TakeRefinesLog | src/services/oauth.rs:82-136 | After any history, `take` succeeds exactly when the latest insert of the state was by the expected provider, is within its lifetime and no take came since; it returns that insert's verifier, and otherwise the matching error. |
| StateLog.TakenOnce | src/services/oauth.rs:113-136 | Whatever its outcome, a take makes every later take of that state fail. |
| StateLog.Untouched | src/services/oauth.rs:45-46 | Other states, the exchange store and the limiter never touch a state's entry. |
| Keys.RateKeyInjective | src/rate_limit.rs:60-61 | On the limited paths a counter's key determines method, path, IP and window, colons in the IP notwithstanding. |
| Keys.KeysDisjoint | src/services/oauth.rs:45-46 | Limiter, state and exchange keys are pairwise different for any texts. |
| Keys.StoreKeysInjective | src/services/oauth.rs:94-154 | Different states and different codes have different keys. |
| Keys.EndpointInjective | src/routes/auth.rs:87-91 | Endpoint key and IP together determine method, path and IP. |
| Keys.DecimalReadsBack | src/rate_limit.rs:61 | The window's text in a key reads back as the window. |
| LimiterTrace.WindowLimit | src/rate_limit.rs:55-95 | In every trace whose INCRs come within one window and a second of their clock readings, a window admits at most max requests more than it had Valkey errors. |
| LimiterTrace.DelayBoundIsExact | src/rate_limit.rs:55-95 | For every window size and limit, that holds for all traces with INCRs at most d seconds late exactly when d is at most one window and a second. |
| LimiterTrace.WindowExact | src/rate_limit.rs:55-95 | Such a window of n error-free answered requests admits exactly min(n, max). |
| LimiterTrace.AnyInterval | src/rate_limit.rs:55-95 | Clock readings within any W seconds give one endpoint and IP at most 2 * max admissions beyond those due to errors. |
| LimiterTrace.PlayKeeps | src/rate_limit.rs:84-95 | Along such traces no counter is lost while its window's requests may still come, because it lives two windows. |
| LimiterTrace.CheckIsATrace | src/rate_limit.rs:55-95 | A check run in one go, with any fault, is a trace of its commands: the same keyspace, answer and errors. |
| LimiterTrace.LateIncrementIsForgotten | src/rate_limit.rs:60-95 | For every window size and limit, a trace with one INCR a window and two seconds late, after which an error-free window has admitted max + 1 requests. |
| RateLimiting.NothingWraps | src/rate_limit.rs:56-92 | With 0 < W < 2^62 and now + W < 2^64, the retry delay is between 1 and W and leads exactly to the next window, and the time to live is 2W after the cast. |
| RateLimiting.RejectionDelay | src/rate_limit.rs:71-73 | From every keyspace, a rejection announces between 1 and W seconds, after exactly which the next window begins. |
| RateLimiting.VerdictExact | src/rate_limit.rs:55-77 | After any error-free history, the nth check of an endpoint and IP in a window is allowed with max - n left, or, past the limit, told the seconds to the next window. |
| RateLimiting.FailsOpen | src/rate_limit.rs:63-69 | When Valkey fails before the count is known, or at the first EXPIRE, the request is let through with the full limit. |
| RateLimiting.RejectionLasts | src/rate_limit.rs:55-77 | After a rejection every error-free check of the same endpoint and IP before the time it announced is rejected, whatever runs in between; `RejectionDelay` says which time that is. |
| RateLimiting.AllowedAfterRetry | src/rate_limit.rs:55-77 | After a rejection that announced r seconds, the first check of the same endpoint and IP from then on is allowed exactly when the limit is at least one. |
| RateLimiting.FirstInWindow | src/rate_limit.rs:84-95 | The first check in a window counts from one, whatever other keys hold. |
| RateLimiting.RetryTimeOpensNewWindow | src/rate_limit.rs:71-73 | Times on either side of the next window's start never share a window. |
| Machine.ExecKeeps | src/routes/auth.rs:30-443 | Every interleaving keeps all table constraints and what each call relies on, and revocation, deactivation, identities and history only move forward. |
| Machine.NextKeeps | src/services/token.rs:137-188 | The same for one step of one call. |
| Handlers.AdvanceKeeps | src/services/auth.rs:37-227 | Each statement of each handler, run among others, hands its call what the next statement needs. |
| Database.InsertTokenKeeps | src/services/token.rs:102-125 | Inserting a refresh row keeps lookup keys unique and agreeing with hashes, parents revoked, and every past revoke-all effective. |
| Database.RevokeAllKeeps | src/services/token.rs:180-188 | A revoke-all covers every row of its user present at that point, and keeps all constraints. |
| Database.FindByLookupKey | src/services/token.rs:140-151 | The lookup returns a row with the key, or there is none. |
| Database.FindByEmail | src/services/user.rs:53-68 | The lookup returns a user with the email, or there is none. |
| Atomic.AtomicCallIsARun | src/services/auth.rs:37-227 | An atomic call is one of the interleavings: some run makes exactly its statements. |
| Atomic.PlayIsARun | src/services/auth.rs:37-227 | From any state, every atomic run of operations in clock order ends with the tables of some run of the service, OAuth logins through their authorize and callback included. |
| Atomic.ApplyKeeps | src/services/auth.rs:37-204 | An atomic operation keeps all constraints and moves the tables only forward. |
| Services.TokenService.CreateRefreshToken | src/services/token.rs:102-125 | Fails exactly for a missing user or a secret in use, with no row; otherwise appends one unrevoked row of the user, which the returned secret's key finds and whose hash it verifies. |
| Services.TokenService.RotateRefreshToken | src/services/token.rs:137-173 | The SELECT, check, UPDATE, INSERT sequence: an unknown token writes nothing, a dead one ends its user's sessions, a live one is replaced. |
| Services.TokenService.ReplaceRow | src/services/token.rs:164-172 | The UPDATE and INSERT of a rotation. |
| Services.TokenService.RevokeAllUserTokens | src/services/token.rs:180-188 | Leaves the user with no unrevoked row and touches nothing else. |
| Services.TokenService.GenerateAccessToken | src/services/token.rs:48-75 | For a copy that agrees with the tables, the claims signed are true of them and carry the user's role. |
| Services.UserService.Create | src/services/user.rs:104-156 | Succeeds exactly for a free email, display name and username, then with one active ordinary user and the credential the password verifies against; otherwise the error of the first constraint in the way, and no row. |
| Services.UserService.CreateFromOAuth | src/services/user.rs:167-190 | One active ordinary user named by the profile, or else by the email's local part, or an error and no row. |
| Services.UserService.ChangePassword | src/services/user.rs:200-228 | Succeeds exactly for the current password, and then changes that user's hash alone; errors change no row. |
| Services.UserService.AssignRole | src/services/user.rs:236-253 | Changes exactly the target's role, or reports an unknown user. |
| Services.UserService.SetInactive | src/services/user.rs:260-268 | Clears the user's activity and changes no other user. |
| Services.UserService.UnlinkOAuthAccount | src/services/user.rs:372-395 | Leaves no link of the user to the provider, or reports that there was none and changes nothing. |
| Services.UserService.FindOrCreate | src/services/auth.rs:166-184 | Resolves by identity, then by email, then by creating, and links unless the identity was known. |
| Services.AuthService.RegisterUser | src/services/auth.rs:37-64 | The method is the registration call of the transition system run to its end. |
| Services.AuthService.LogIn | src/services/auth.rs:73-106 | The method is the login call run to its end. |
| Services.AuthService.RefreshSession | src/services/auth.rs:114-147 | The method is the refresh call run to its end. |
| Services.AuthService.LogOut | src/services/auth.rs:154-156 | Ends exactly the user's sessions. |
| Services.AuthService.LoginOrRegisterOAuth | src/services/auth.rs:166-204 | The method is the Postgres part of a callback run to its end. |
| Services.AuthService.IssueTokenPair | src/services/auth.rs:206-227 | One refresh row and one issued claim for the same user, or neither. |
| Services.AdminService.ChangeRole | src/services/admin.rs:30-50 | Succeeds exactly for an issued admin token and another existing user, who then has exactly the role asked for; otherwise no user changes. |
| Services.AccountRoutes.LogoutRoute | src/routes/auth.rs:187-195 | Any issued token succeeds and ends exactly its user's sessions; any other is TokenInvalid and changes nothing. |
| Services.AccountRoutes.ChangePasswordRoute | src/routes/users.rs:68-82 | A success needs an issued token above guest and ends exactly the user's sessions. |
| Services.AccountRoutes.DeactivateAccountRoute | src/routes/users.rs:100-109 | Succeeds exactly for an issued token above guest; the user ends inactive and exactly its sessions end. |
| Services.AccountRoutes.UnlinkRoute | src/routes/auth.rs:428-443 | The method is the guarded unlink call; a failure leaves all links. |
| ValkeyServices.StateStore.Insert | src/services/oauth.rs:82-101 | For 600 s the state is worth its verifier to its provider. |
| ValkeyServices.StateStore.Take | src/services/oauth.rs:113-136 | Consumes the state whatever the outcome and touches no other key. |
| ValkeyServices.StateStore.StoreExchange | src/services/oauth.rs:147-154 | For 120 s the code is worth its response. |
| ValkeyServices.StateStore.TakeExchange | src/services/oauth.rs:164-172 | Hands out the response once. |
| ValkeyServices.RateLimiter.Increment | src/rate_limit.rs:84-95 | INCR, then EXPIRE on the first count, touching no other key, with a failure possible at each command. |
| ValkeyServices.RateLimiter.Check | src/rate_limit.rs:55-77 | The verdict for the count, open on a Valkey error; a rejection announces exactly the seconds to the next window. |
| OAuthRouteServices.OAuthRoutes.AuthorizeRoute | src/routes/auth.rs:219-236 | For 600 s the returned state is worth its verifier to its own provider and a mismatch to any other. |
| OAuthRouteServices.OAuthRoutes.CallbackRoute | src/routes/auth.rs:290-341 | Each early return leaves exactly the effects before it; success stores the tokens of the profile's user under the returned code. |
| OAuthRouteServices.OAuthRoutes.SessionRoute | src/routes/auth.rs:365-379 | A code opens its response once, then never again. |

## Left out

- Argon2, HMAC, JWT encoding, base64 and random generation themselves: see the idealisations above. `iat`, `exp` and `expires_in`, and so `TokenExpired`, are not modelled; an issued claim stays valid for good, which only strengthens the safety theorems.
- The authorization header's syntax (`extract_bearer`): a request carries its claims.
- HTTP calls to Google and GitHub: the profile, or the failure, is an arbitrary input of a step. The authorization code is passed through unread.
- Provider credentials in the configuration (`ProviderNotConfigured`): every known provider counts as configured; scopes, endpoints and redirect addresses are not part of this model.
- `extract_client_ip`: the limiter theorems hold for any text as IP.
- Connection pools, JSON encoding, tracing, OpenAPI, start-up, shutdown and configuration loading.
- `list_oauth_connections`, `get_me` and the row re-read after a role update: they only read.
- Timestamps other than a refresh token's expiry, and the avatar and encrypted-token columns.
- Status codes and error texts: errors are tags, except that a rate-limit rejection carries its delay.
- The imperative classes (module `Services` and below) follow the fault-free path of Postgres; database errors at any statement are the `Abort` labels of the transition system. They draw time and random values once per call, where each step of the transition system draws its own.
- A minimum length of every stored password: a password change does not check it.
- That a fresh email and username always register: the display name may be taken.
- That some admin always remains: a claim keeps the role of the time it was issued.
- Keeping `auth_method` across a refresh: it is recomputed from the local credential.
- A log refinement of the exchange store: it has the same shape as the state store's, without the provider check.
- RejectionLasts: speaks of checks whose INCR succeeds, since the source admits a request when Valkey fails.
- RunRefines: which guarded operations were let in is an input of the specification, since it depends on tokens issued along the run, refreshes included; `EveryChangeIsAuthorised` covers it.
- LateIncrementIsForgotten: for limits up to the largest counter Valkey can hold.

# Verified model of the bedrud credential protocol and its neighbours

bedrud is a self-hosted video meeting server. This project models the parts of it
whose correctness depends on order, time and concurrency, and proves what they
promise.

**Sessions.** `SessionMachine` is one state machine for everything that touches a
user's stored refresh token: refresh, login and the other flows that mint a token
pair, logout, password change and reset, full-record saves of the user row, status
changes, deletion, cleanup and the clock. Every HTTP request is a program counter
over small steps (one clock read or one SQL statement each); an event that is not
enabled changes nothing, so every finite sequence of events is a run. `SessionSafety`
proves single exchange and no resurrection, `LogoutSafety` what a logout stops,
`ResetTokens` when a reset token is single-use, and `SessionWitnesses` the
undisturbed behaviour of a request and the runs that reach the bounds. `RefreshHandler`
states the whole refresh handler in the fields of the row, and `AccountSafety` what a
deactivated account can still do and that a written password stays. `UserStore`
holds the two tables and the repository's statements, and `AuthServices` the service
methods written out in the source's own imperative form against those statements, each
shown to do what the machine's request does undisturbed. `Revocation` is the two-tier
store of revoked access tokens, `Invites` the one-shot invite tokens.

**Neighbours.** `ArchivePath` and `ArchiveExtract` (where an installer archive may
write, and its budgets), `Recordings` (the recording status under webhook
deliveries), `Settings`, `SettingsUpdate` and `SettingsGate` (the partial settings
merge, masking, the validation gate and its rules field by field), `Cooldowns` and
`Challenges` (maps with expiry and lazy purging), `ScrollSlices` (the slicing loop of
the screenshot tool).

Objects that the source updates in place are classes with the same loops; each
method's contract ties the new state to a function of the old one, and the theorems
are about those functions. Time is in nanoseconds and only moves forward; where the
source reads the clock twice, the model does too.

## What turned out to be conditional

Where the code does not keep a promise in every run, the theorem holds for every run
all the same and counts what can break the promise; a second theorem says that nothing
less breaks it, or gives the failing run.

- A full-record save of a user row (profile, avatar, e-mail and OAuth updates) writes
  every column back, so a save that read the row before a rotation puts the old
  refresh token back. `AtMostOneExchange` counts the saves that put the token in
  question back; `StoredOnceIff` and `ResurrectedIff` are exact, and
  `StaleSaveExchangesTwice` reaches the bound. Saves of other users or of other tokens
  do no harm.
- A logout blocks a refresh token for the requests that have not passed their block
  query. The block row carries the user of the access token that asked for it, is
  deleted with that user, and a second insert for the same token fails.
  `LogoutIsFinal` and `LogoutUndoneIff` say exactly what undoes a block;
  `ForeignBlockEndsWithItsOwner`, `OwnLogoutAfterForeign` and `RecreatedRowReopens`
  are the runs. A refresh already validated is not stopped by the block list
  (`RacingRefreshOutlivesLogout`), as a login past its password check is not stopped by
  a password change (`LoginOutlivesPasswordChange`, `ClearedUntilLogin`).
- A rotation that is cut off between its block insert and its swap leaves its user with
  a stored token that is refused, until the next login (`AbortedRotationLocksOut`).
- Because that second insert fails, a logout with a refresh token that is blocked
  already leaves its access token valid (`LogoutRevokesIff`, `SecondLogoutFails`).
- A reset token is not single-use in every run: the service reads the user again
  after the handler's check, the check compares whole seconds, and a save can bring an
  old stamp back. `ResetTokenSingleUse` and `SameStampCommitsOnce` count these slips;
  `ReuseAfterEventIff`, `ReuseInSequenceIff` and `MintedTokenReuseIff` say exactly when
  a second use works, and `OverlappingResetsBothCommit`, `EarlyReadLosesTheRace` and
  `SaveReopensToken` are the failing runs.
- Passkey signup marks an invite only after it made the account, and never where
  verification is required. `AccountsPerInvite` counts the slips, and each kind of slip
  has its failing run, up to any number of accounts (`AnyNumberOfAccounts`).
- A comment at server/internal/handlers/auth_handler.go:259-264 says that Register
  records the new user as the invite's user after spending it. The code does that with
  a second conditional update that requires the invite to be unspent, so it never
  takes effect (`UsedByStaysEmpty`). The model follows the code.
- An egress_started event never changes a recording: it looks the recording up by its
  egress id, which is set together with the started status, and then wants the pending
  one (`EgressStartedChangesNothing`). An egress_ended event whose error cannot be
  written, or that is cut off, leaves its recording processing without a job
  (`UnwrittenErrorSticks`, `CrashedWinSticks`).
- `GetAndVerify` of the challenge store drops its lock before it deletes an expired
  entry (`ExpiredDeleteHitsNewEntryIff`, `FreshChallengeCanBeLost`).
- A page 1 to 48 rows taller than the viewport is captured in one screenshot that
  misses its last rows (`ShortPageIff`).

## Model

| member | source | states |
|---|---|---|
| `SessionSafety.AtMostOneExchange` | server/internal/auth/auth.go:280-299 | In every run from the empty tables, with any number of refreshes, logins, logouts, password writes, saves, clears and deletes in flight, each refresh token t is exchanged successfully at most once, and at most once more for each full-record save that puts t back into a row that no longer holds it; no hypothesis on the run |
| `SessionSafety.StoredOnceIff` | server/internal/auth/jwt.go:330-362 | In every run, a token enters the refresh_token column at most once if and only if no save puts that token back |
| `SessionSafety.NoResurrection` | server/internal/auth/auth.go:521-551 | Once t has left the column (rotated, overwritten by a login, cleared, deleted), in every continuation without a save that puts t back, no row holds t, no validation accepts it and no rotation exchanges it, not even requests already in flight |
| `SessionSafety.ResurrectedIff` | server/internal/repository/user_repository.go:362-370 | A token that has left is stored again at some point of a continuation if and only if some save in it puts that token back |
| `SessionSafety.ClearedSessionCannotRotate` | server/internal/auth/auth.go:290-298 | If a password change, a reset commit, a status or role change, a clear or a deletion hits the row that holds t, t is not exchanged afterwards, however far a refresh had come, unless a save puts t back; and not before either if none did before |
| `SessionSafety.ClearRetires` | server/internal/repository/user_repository.go:299-340 | Each of those events takes the held token out of the column, unexchanged, and accepts nothing |
| `SessionSafety.ClearedUntilLogin` | server/internal/auth/auth.go:423-468 | After a password change, a reset or another clearing, the user has no stored token until the next login begins, if no login of that user was past its check and no save had read a token |
| `SessionSafety.SafeRun` | server/internal/auth/auth.go:168-226 | Every run keeps, for every token t: only the row of its user holds t, at most one request is about to store it and then it never was stored, exchanges plus holding never exceed entries into the column, and entries are one plus the saves that put t back |
| `SessionSafety.FollowsNext` | server/internal/auth/auth.go:168-226 | Every event of any kind keeps that invariant and counts the entry of t into the column |
| `SessionSafety.ReturnsIff` | server/internal/repository/user_repository.go:362-370 | A token stored before enters the column again by an event exactly when the event is a save that puts it back |
| `SessionSafety.FollowsSwap` | server/internal/auth/auth.go:280-299 | A successful compare-and-swap pays for its exchange by taking the old token out, and the new token was never stored before |
| `SessionSafety.LeftRun` | server/internal/auth/auth.go:521-551 | From every state of the invariant, a token that has left stays away, unexchanged and unaccepted, while no save puts it back |
| `SessionSafety.NotStoredAdvance` | server/internal/auth/auth.go:541-550 | No step of any request accepts or exchanges a token that no row stores |
| `LogoutSafety.LogoutIsFinal` | server/internal/auth/auth.go:484-505 | Once a token has a block row, whoever asked for it, every request that has not passed its block query by then is never accepted with it and never comes to rotate it, and without earlier requests it is not exchanged any more, although block check and expiry check read the clock separately and expired rows are cleaned up; in every continuation that neither deletes the blocker, not being the token's own user, while the token is held and alive, nor stores the token again after it was alive without a row |
| `LogoutSafety.LogoutUndoneIff` | server/internal/auth/auth.go:484-533 | A new undisturbed validation would accept a logged-out token at some point of a continuation if and only if some event of it deletes the blocker, not being the token's own user, while the token is held and alive, or stores the token while it is alive without a block row |
| `LogoutSafety.TableRun` | server/internal/models/refresh.go:5-11 | In every run a token has at most one block row, and block queries are dated by past clock readings |
| `LogoutSafety.BlockRun` | server/internal/repository/user_repository.go:158-185 | From every state with a block row, and while nothing undoes it, the token has a row, or has expired, or left the table when the row went, and every request that was not early is held back |
| `LogoutSafety.HeldAdvance` | server/internal/auth/auth.go:521-533 | A request that had not passed its block query passes it only when the token has expired, and then fails the expiry check, or left the table, and then fails the comparison |
| `LogoutSafety.BlocksStayAdvance` | server/internal/repository/user_repository.go:158-168 | No step of a request removes a block row or moves the clock, and it inserts one only for a token that has none |
| `SessionWitnesses.ValidateAlone` | server/internal/auth/auth.go:521-551 | Undisturbed, a validation accepts exactly the unblocked, signed, unexpired, stored tokens |
| `SessionWitnesses.RotateAlone` | server/internal/handlers/auth_handler.go:444-492 | Undisturbed, a validated refresh blocks the old token, stores the new one, and counts one exchange |
| `SessionWitnesses.StaleSaveExchangesTwice` | server/internal/auth/auth.go:343-353 | The bound on exchanges is reached: in every live session a profile save that lands between two concurrent rotations lets the same token be exchanged twice |
| `SessionWitnesses.RecreatedRowReopens` | server/internal/repository/user_repository.go:362-370 | In every live session: a save that read the row before a logout and lands after the user was deleted makes the logged-out token acceptable again, even if the user is back by then as a guest who joined again |
| `SessionWitnesses.ForeignBlockEndsWithItsOwner` | server/internal/repository/user_repository.go:373-392 | A token blocked by another user is refused, and accepted again once that user is deleted |
| `SessionWitnesses.OwnLogoutAfterForeign` | server/internal/models/refresh.go:5-11 | And a logout by the token's own user in between does not help, because its insert fails on the unique token |
| `SessionWitnesses.RacingRefreshOutlivesLogout` | server/internal/auth/auth.go:280-299 | In every live session: a refresh validated before a logout still exchanges the token after it and stores a successor that validations accept |
| `SessionWitnesses.LoginOutlivesPasswordChange` | server/internal/auth/auth.go:199-214 | For every user: a login past its password check stores its token after a password change of that user |
| `RefreshHandler.RefreshAlone` | server/internal/handlers/auth_handler.go:428-499 | From every state, an undisturbed POST /auth/refresh exchanges the token if and only if it has no block row, is signed, unexpired, the stored token of an existing user, and that user is active and, where verification is required, verified; then the row holds a new token that expires in seven days, cut to the second, the old one is blocked, one exchange is counted, and nothing else changes; otherwise the tables stay as they were |
| `RefreshHandler.ValidationAlone` | server/internal/auth/auth.go:521-551 | An undisturbed validation accepts a token if and only if it has no block row, is signed, unexpired and the stored token of an existing user; it changes no table |
| `RefreshHandler.AbortedRotationLocksOut` | server/internal/auth/auth.go:280-299 | A rotation that ends between its block insert and its swap leaves the old token in the row and no acceptable token of that user at all |
| `RefreshHandler.UnblockedRotation` | server/internal/auth/auth.go:280-299 | A rotation whose block insert fails exchanges the token all the same, and leaves it unblocked |
| `AccountSafety.DeactivatedCannotRefresh` | server/internal/handlers/auth_handler.go:452-468 | After a user is deactivated, in every continuation in which no status change, new row or save makes the row active again, the row stays inactive and no refresh of that user comes to be re-fetched or minted, unless that request was past the re-fetch before |
| `AccountSafety.WrittenPasswordStays` | server/internal/repository/user_repository.go:299-340 | Once a change or a committed reset wrote a password of u, the row of u has a password in every continuation that neither deletes it nor saves a row without one |
| `AccountSafety.StatusChangeAlone` | server/internal/repository/user_repository.go:253-297 | A status change sets the status and, when it clears, makes exactly the tokens of that user unacceptable; without clearing, an activation keeps every session as it was |
| `AccountSafety.NewUserAlone` | server/internal/repository/user_repository.go:80-101 | A new row has neither token nor stamp, so no token of an earlier row of that id is acceptable; an existing row is not replaced |
| `AccountSafety.SaveAlone` | server/internal/repository/user_repository.go:362-370 | A full-record save that nothing interrupts writes what was edited and keeps the refresh token and the stamp of the row it read |
| `UserStore.CleanupInvisible` | server/internal/repository/user_repository.go:170-185 | Cleanup removes exactly the expired block rows, touches no user, and changes the answer of no block query that reads the clock later |
| `ResetTokens.ResetTokenSingleUse` | server/internal/auth/auth.go:454-479 | In every run a reset token is used at most once, and at most once more for each slip: a re-read by the service of a stamp the handler's check would refuse, or, once the token is used, a write of a stamp that the check passes; no hypothesis on the run |
| `ResetTokens.ReuseAfterEventIff` | server/internal/handlers/auth_handler.go:906-916 | After a first use without slips, an event lets one more undisturbed request use the token if and only if it writes a stamp the check passes and the token is still unexpired, for the right e-mail and a password account |
| `ResetTokens.SameStampCommitsOnce` | server/internal/repository/user_repository.go:319-340 | In every run, of all service calls that expect the same stamp, whatever token they carry, at most one commits, and at most one more for each write that brings that stamp back after such a commit; no hypothesis on the run |
| `ResetTokens.StampNext` | server/internal/repository/user_repository.go:299-370 | password_changed_at of a user changes only by a password write, a reset commit, a save or a new row, and to what that statement wrote |
| `ResetTokens.ResetNext` | server/internal/handlers/auth_handler.go:906-916 | Every event keeps the single-use accounting, slips counted |
| `ResetTokens.StaleCount` | server/internal/auth/auth.go:454-468 | A re-read adds at most its own request to those that expect a stale stamp, and a commit against a stale stamp uses one up |
| `ResetTokens.ResetAlone` | server/internal/handlers/auth_handler.go:855-936 | Undisturbed, a reset commits exactly when the token is unexpired, its user exists with that e-mail and a password account, and the stamp is not in a later second than the claim |
| `ResetTokens.ResetHandlerAlone` | server/internal/handlers/auth_handler.go:855-936 | The same in the row's fields, end to end: the request sets a password, clears the refresh token and stamps the row with the current instant if and only if the token is unexpired, its e-mail is empty or the row's, the provider is local or passkey, and the row has no stamp or one whose second is at most the claim; otherwise the tables stay as they were |
| `ResetTokens.ReuseInSequenceIff` | server/internal/handlers/auth_handler.go:906-916 | A token used once can be used again in sequence if and only if it is unexpired, carries a stamp, and the first commit landed no later than the second of that stamp |
| `ResetTokens.MintedTokenWorks` | server/internal/auth/jwt.go:289-314 | A token the server mints works undisturbed exactly until the configured number of hours, or one hour, after minting, cut to the second, and only for a local or passkey account |
| `ResetTokens.MintedTokenReuseIff` | server/internal/auth/jwt.go:289-314 | For tokens as the server mints them: a second use in sequence works if and only if the token is unexpired and the first use fell into the same clock second as the password change that preceded the minting |
| `ResetTokens.OverlappingResetsBothCommit` | server/internal/auth/auth.go:454-468 | Two resets that both passed the handler check both commit if the second re-reads the user after the first commit |
| `ResetTokens.EarlyReadLosesTheRace` | server/internal/auth/auth.go:454-468 | If the second re-reads before the first commit, exactly one commits, unless the first wrote the very stamp both had read; then both commits expected that stamp |
| `ResetTokens.SaveReopensToken` | server/internal/repository/user_repository.go:362-370 | A save that read the row before a reset and lands after it lets the token be used a second time |
| `Revocation.VerdictMatchesGrowOnly` | server/internal/auth/jwt.go:55-101 | After every run of revocations, prunes, restarts and waits, the two-tier store gives the verdict of a set of revoked tokens that only grows (expiry as in section 4.1.4 of RFC 7519) |
| `Revocation.AccessIff` | server/internal/auth/jwt.go:55-101 | After every run of revocations, prunes, restarts and waits, an access token passes if and only if it is signed, unexpired, carries no purpose and no revocation of it occurs in the run; each error exactly for its own reason |
| `Revocation.RevokedRun` | server/internal/auth/jwt.go:55-68 | An unexpired token is in the revoked set exactly if it is signed and the run revoked it at some point |
| `Revocation.OverlappingVerdict` | server/internal/auth/jwt.go:212-228 | A call that overlaps other operations accepts a token revoked before it began if and only if the token expired during the call |
| `Revocation.RunConsistent` | server/internal/auth/jwt.go:55-84 | Every run keeps both tiers inside the revoked set, and every unexpired revoked token in the durable tier |
| `Revocation.RevokedTokens.RevokeAccessToken` | server/internal/auth/jwt.go:55-68 | Records a token that still parses in both tiers, keeping an existing durable row; changes nothing otherwise |
| `Revocation.RevokedTokens.PruneRevokedTokens` | server/internal/auth/jwt.go:72-84 | Whatever the iteration order, removes exactly the expired entries of each tier, each tier by its own clock reading |
| `Revocation.RevokedTokens.ValidateToken` | server/internal/auth/jwt.go:212-228 | Returns the verdict: unparseable, then wrong purpose, then revoked in either tier, else the token |
| `AuthServices.VerdictIsTheMachines` | server/internal/auth/auth.go:521-551 | The verdict of ValidateRefreshToken, with ValidateToken's purpose and revocation checks, is Ok exactly when those two pass and the interleaved machine, run undisturbed, accepts the token |
| `AuthServices.RotateIsTheMachines` | server/internal/auth/auth.go:280-299 | The tables after RotateRefreshToken are those of the machine's last two steps of a refresh, and the exchange is counted exactly when the swap succeeded |
| `AuthServices.LoginIsTheMachines` | server/internal/auth/auth.go:205-214 | What Login stores is what the machine's undisturbed mint-and-store request stores |
| `AuthServices.LogoutIsTheMachines` | server/internal/auth/auth.go:484-505 | What Logout does to the tables is what the machine's undisturbed logout does, also for an expired, unsigned or already blocked token |
| `AuthServices.ChangePasswordIsTheMachines` | server/internal/auth/auth.go:423-449 | What ChangePassword writes is what the machine's undisturbed password change writes |
| `AuthServices.ResetPasswordIsTheMachines` | server/internal/auth/auth.go:454-468 | What ResetPassword writes is what the machine's reset, past the handler's check and undisturbed, writes |
| `AuthServices.RotationHandsOver` | server/internal/auth/auth.go:280-299 | After a rotation the old token is refused at every later clock reading, and the new one is accepted exactly when nothing is wrong with it by itself and the swap succeeded, or, after a failed swap, it was the stored token already |
| `AuthServices.LogoutRefuses` | server/internal/auth/auth.go:484-533 | After a logout the token is refused whatever the clock readings, because the block query is read no later than the expiry check |
| `AuthServices.LogoutRevokesIff` | server/internal/auth/auth.go:484-490 | A logout makes a good access token refused if and only if the refresh token is signed, unexpired and not blocked yet; otherwise the access token stays good |
| `AuthServices.SecondLogoutFails` | server/internal/auth/auth.go:484-505 | The failing input: after a logout, or a rotation, of a live refresh token, every later logout with it changes neither tables nor revocations, whoever asks |
| `AuthServices.PasswordChangeStopsRefresh` | server/internal/auth/auth.go:423-468 | After a password change or reset every refresh token of the user is refused, and a rotation under way mismatches and leaves the users table as it is |
| `AuthServices.RevokeEachRefuses` | server/internal/auth/auth.go:469-478 | After a reset, every live access token handed over is refused and the verdict on every other token is what it was |
| `AuthServices.AuthService.ValidateRefreshToken` | server/internal/auth/auth.go:521-551 | The method returns the verdict that the two results above speak of: block check, then parsing, purpose and revocation, then user, then stored token |
| `AuthServices.AuthService.RotateRefreshToken` | server/internal/auth/auth.go:280-299 | Reaches the tables of RotateIsTheMachines and reports success exactly when the old token was stored |
| `AuthServices.AuthService.Login` | server/internal/auth/auth.go:168-226 | Succeeds exactly for the local account with that address, else the passkey one, when the password matches and the account is active and, where required, verified; then the row holds the new token of that user and nothing else changes; each error names a check that failed, and leaves the tables as they were |
| `AuthServices.AuthService.Logout` | server/internal/auth/auth.go:484-505 | Succeeds, and revokes the access token, exactly when the refresh token is signed, unexpired and has no block row yet; reaches the tables of LogoutIsTheMachines in every case |
| `AuthServices.AuthService.ChangePassword` | server/internal/auth/auth.go:423-449 | Succeeds exactly for an existing local or passkey account whose current password, if it has one, matched; then the row has a password, no refresh token and the stamp of the call, as in ChangePasswordIsTheMachines, and the access token is revoked; changes nothing otherwise |
| `AuthServices.AuthService.ResetPassword` | server/internal/auth/auth.go:454-479 | For an existing user the row has a password, no refresh token and the stamp of the call, as in ResetPasswordIsTheMachines, and every non-empty access token is revoked in the loop; changes nothing otherwise |
| `AuthServices.ChangeAfterWrite` | server/internal/auth/auth.go:423-479 | After a successful change or reset, a later change by a local or passkey account succeeds if and only if the current password matches, also when the account had no password before |
| `Invites.InviteMakesOneAccount` | server/internal/handlers/auth_handler.go:178-226 | Under every interleaving, accounts registered with an invite never outnumber its spends, and it is spent at most once |
| `Invites.UsedByStaysEmpty` | server/internal/handlers/auth_handler.go:259-264 | The second MarkUsed of Register never has an effect: an invite an account was registered with keeps an empty used_by |
| `Invites.RegisterAlone` | server/internal/handlers/auth_handler.go:178-226 | An undisturbed Register makes one account, and leaves the invite used now and by nobody, if and only if the invite exists, is unused and its expiry is still ahead; otherwise it changes neither accounts nor invites |
| `Invites.NewInviteWorks` | server/internal/handlers/auth_handler.go:178-226 | A new invite lets an undisturbed Register through exactly while its expiry lies ahead, and none once it is deleted |
| `Invites.SignupAlone` | server/internal/handlers/auth_handler.go:1542-1689 | An undisturbed passkey signup makes one account if and only if the invite exists, is unused and its expiry is not past; it marks the invite with the new user exactly when, besides, the expiry is still ahead and verification is not required |
| `Invites.AccountsPerInvite` | server/internal/handlers/auth_handler.go:1642-1689 | In every run, Register and passkey signup together make at most one account with an invite, and at most one more for each slip: a check passed while another request holds the token, a signup that ends between account and mark, one under required verification, or a mark at the very instant of expiry; no hypothesis on the run |
| `Invites.PotentialNext` | server/internal/handlers/auth_handler.go:178-226 | No event raises the accounts made plus those still possible, except a slip, which raises them by at most one |
| `Invites.PasskeySignupsShareAToken` | server/internal/handlers/auth_handler.go:1547-1556 | Slip: two passkey signups that both check the token before either marks it make two accounts and spend nothing yet |
| `Invites.RegisterAndPasskeyShareAToken` | server/internal/handlers/auth_handler.go:178-226 | Slip: a passkey signup and a Register that each pass their check while the other holds the token make two accounts with one spend, in either order of the checks |
| `Invites.AbortedSignupKeepsToken` | server/internal/handlers/auth_handler.go:1663-1689 | Slip: a signup that ends between its account and its mark leaves the token valid |
| `Invites.MarkAtExpiryKeepsToken` | server/internal/repository/invite_token_repository.go:56-68 | Slip: a signup whose mark falls on the instant of expiry, which the check accepts and the update does not, leaves the token valid |
| `Invites.VerifiedSignupKeepsToken` | server/internal/handlers/auth_handler.go:1670-1680 | Slip: where verification is required, a signup never marks the token |
| `Invites.AnyNumberOfAccounts` | server/internal/handlers/auth_handler.go:1670-1680 | n such signups in sequence make n accounts with one invite and leave it valid, from every state in which it is valid |
| `Invites.InvSpend` | server/internal/repository/invite_token_repository.go:56-68 | A successful conditional update keeps the Register invariant: it is the first spend of that invite |
| `ArchivePath.AcceptedPathStaysBelow` | server/internal/install/archive.go:155-190 | A name is accepted if and only if, after backslash replacement, it is non-empty, relative, has no ':' as second byte, no ".." segment and some real segment; the path is then the root followed by a non-empty list of plain segments, and taking it relative to the root returns the cleaned name |
| `ArchivePath.RefusalReasons` | server/internal/install/archive.go:155-190 | Which error each refused name gets; the ".." checks after Clean and after Rel never fire |
| `ArchivePath.SeparatorsAlike` | server/internal/install/archive.go:155-156 | Two names equal up to exchanging slash and backslash get the same answer, for every destination |
| `ArchivePath.NoBackslashesLeft` | server/internal/install/archive.go:155-190 | No accepted path below a root without backslashes contains a backslash |
| `ArchivePath.ParentRefused` | server/internal/install/archive.go:168-172 | A name with ".." between separators of either kind, or at an end, is refused as traversal for every destination, unless it is absolute |
| `ArchivePath.PlainNameJudged` | server/internal/install/archive.go:155-190 | A name without backslashes is accepted if and only if it is non-empty, does not begin with a slash, has no ':' as second byte, no ".." segment and some segment other than "" and "."; the path is then the root and those segments |
| `ArchivePath.JoinThenRel` | server/internal/install/archive.go:181-187 | Below a clean absolute root, Join and Rel undo each other |
| `ArchivePath.CleanKeeps` | server/internal/install/archive.go:173-176 | Without ".." segments the cleaner's stack only grows and holds exactly the segments other than "" and "." |
| `ArchivePath.SplitJoin` | server/internal/install/archive.go:166-170 | Splitting a join of slash-free segments returns the segments |
| `ArchivePath.JoinSplit` | server/internal/install/archive.go:166-170 | Joining the split of a string returns the string |
| `ArchiveExtract.SafeExtractArchive` | server/internal/install/archive.go:61-149 | On every exit: at most 64 members, every write and directory under the root, at most 512 MiB plus one byte in all and 256 MiB plus one byte a file, no int64 overflow; success exactly when every member extracts within the budgets and some regular member is named bedrud or bedrud.exe, then files and directories are exactly the members' and the path is the last such member |
| `ArchiveExtract.ExtractMember` | server/internal/install/archive.go:84-142 | One member: succeeds exactly when its kind, size, budget, name and file-system calls allow it, adds exactly its file and its directory, updates the total and the binary found; on error writes at most one byte over the remaining budget |
| `ArchiveExtract.WriteMember` | server/internal/install/archive.go:113-136 | Writes at most one byte more than declared, succeeds exactly when the member is no larger than declared and every call succeeds |
| `ArchiveExtract.BaseOfTarget` | server/internal/install/archive.go:138-141 | The base name of an accepted target is the last segment of the member's own name |
| `ArchiveExtract.LastSegmentOf` | server/internal/install/archive.go:138-141 | That segment is what follows the last separator of the raw name, slash or backslash |
| `ArchiveExtract.BudgetsIff` | server/internal/install/archive.go:91-134 | A sound regular member extracts if and only if its declared size is between 0 and 256 MiB, stays with the bytes before it within 512 MiB, and is no less than what the reader delivers |
| `ArchiveExtract.OneMemberArchive` | server/internal/install/archive.go:61-149 | An archive of one sound regular member yields a binary if and only if the part after the last separator of either kind is bedrud or bedrud.exe |
| `ArchiveExtract.LastIsBinary` | server/internal/install/archive.go:138-141 | The member returned is one named bedrud or bedrud.exe |
| `ArchiveExtract.NoLaterBinary` | server/internal/install/archive.go:138-141 | No member after the one returned is named bedrud or bedrud.exe |
| `Recordings.OneOutcomePerWin` | server/internal/handlers/livekit_webhook.go:284-342 | Under duplicated, reordered, concurrent and crashed deliveries, a recording is won at most once and enqueued at most once, and every win is in flight in exactly one delivery or has ended in exactly one of: a job, an error attempt, a crash |
| `Recordings.CompletedMeansOneJob` | server/internal/queue/handler_process_recording.go:98-212 | A completed recording was enqueued exactly once and its delivery recorded no error |
| `Recordings.StatusOnlyMovesForward` | server/internal/repository/recording_repository.go:176-280 | In every run the status only goes up, and a removed recording never comes back |
| `Recordings.InvWin` | server/internal/handlers/livekit_webhook.go:284-291 | Winning started to processing happens at most once per recording and makes the winner owe exactly one outcome |
| `Recordings.DeliveryAlone` | server/internal/handlers/livekit_webhook.go:269-342 | An undisturbed egress_ended for a started recording with that egress adds one job and leaves it processing if and only if the egress did not fail, has a file URL and the enqueue succeeds; otherwise it adds one error and the recording has failed; for any other status it changes nothing |
| `Recordings.UnwrittenErrorSticks` | server/internal/handlers/livekit_webhook.go:293-340 | If the error of such a delivery cannot be written, the recording stays processing with no job |
| `Recordings.CrashedWinSticks` | server/internal/handlers/livekit_webhook.go:284-342 | So does a recording whose winning delivery is cut off before its outcome |
| `Recordings.JobsAreForGoodEgresses` | server/internal/handlers/livekit_webhook.go:284-342 | In every run, a recording with a job got it from a delivery that won it and whose event reported no failure and a file URL; and every recording won still has the egress id its event carried |
| `Recordings.LookupFindsEgress` | server/internal/handlers/livekit_webhook.go:276-282 | A delivery finds exactly the recording with the egress id of its event |
| `Recordings.EgressStartedChangesNothing` | server/internal/handlers/livekit_webhook.go:236-260 | In every run, no step of an egress_started delivery changes any recording |
| `Recordings.EgressStartedAlone` | server/internal/handlers/livekit_webhook.go:236-260 | An undisturbed egress_started starts a recording exactly if it is pending and already has the egress, a state that no run reaches |
| `Recordings.WorkAlone` | server/internal/queue/handler_process_recording.go:98-212 | An undisturbed worker turns a processing recording into a completed one if it succeeds and a failed one if not, and changes a recording of any other status not at all |
| `Recordings.TableAlone` | server/internal/repository/recording_repository.go:199-281 | The egress id is set only on a pending recording, an error is recorded exactly on a pending, started or processing one, an admin delete marks one of any status |
| `Settings.OrderIrrelevant` | server/internal/handlers/admin_handler.go:401-689 | For every two iteration orders of one body both merges fail or both succeed with the same settings, and success is independent of the order |
| `Settings.OrderedIsMerged` | server/internal/handlers/admin_handler.go:401-689 | Applying any keys in any order amounts to the simultaneous merge of those keys |
| `Settings.UnnamedFieldsKept` | server/internal/handlers/admin_handler.go:401-689 | A successful merge leaves every field the body does not name unchanged |
| `Settings.MaskMergeRoundTrip` | server/internal/handlers/admin_handler.go:405-436 | Sending the masked settings back succeeds and changes nothing, secrets included, if and only if the webxdc fields are as the merge itself enforces |
| `Settings.MaskHidesSecrets` | server/internal/handlers/admin_handler.go:717-747 | Settings that differ only in which non-empty secrets are set have the same masked form |
| `Settings.MaskWrittenOut` | server/internal/handlers/admin_handler.go:717-747 | The mask of a secret is eight bullets, or nothing for an empty one, and nothing else is masked |
| `Settings.FullWrite` | server/internal/handlers/admin_handler.go:401-689 | A whole record in webxdc normal form, none of whose secrets trims to the mask, is stored exactly as sent, whatever was stored before |
| `Settings.SentSecret` | server/internal/handlers/admin_handler.go:413-436 | After a merge a named secret is what was sent, unless that trims to eight bullets, which keep what was stored; null empties it |
| `Settings.SentText` | server/internal/handlers/admin_handler.go:401-689 | A named text is what was sent, the two webxdc gallery texts trimmed; null empties it |
| `Settings.SentFlag` | server/internal/handlers/admin_handler.go:401-689 | A named flag is what was sent; null clears it |
| `Settings.SentNum` | server/internal/handlers/admin_handler.go:401-689 | A named number is what was sent; null makes it 0 |
| `Settings.TakenIff` | server/internal/handlers/admin_handler.go:401-689 | The merge takes a value if and only if it is null or of the field's JSON type, an integer of 64 bits, within the four webxdc bounds, and one of the five gallery sources after trimming |
| `Settings.TrimExact` | server/internal/handlers/admin_handler.go:412-414 | Trimming removes the white space around a string and nothing else |
| `SettingsUpdate.SavedStaysValid` | server/internal/handlers/admin_handler.go:355-396 | Over any run of updates from valid settings the saved settings satisfy validateSettings, and a secret changes only if some body names it |
| `SettingsGate.NumberGate` | server/internal/handlers/admin_handler.go:36-226 | From valid settings, sending one number saves it if and only if it is within that field's bounds, each bound written out |
| `SettingsGate.TextGate` | server/internal/handlers/admin_handler.go:36-226 | Sending one text saves it, trimmed for the webxdc ones, if and only if it has that field's format and is there when the other settings need it: origins without a wildcard for credentials, certificate and key for TLS, an API key, an ACME address |
| `SettingsGate.SecretGate` | server/internal/handlers/admin_handler.go:36-226 | Sending one secret saves it unless it trims to the mask, is a JWT secret of 1 to 31 bytes or an e-mail password of 1 to 3 bytes, or is empty where an external LiveKit server needs it |
| `SettingsGate.FlagGate` | server/internal/handlers/admin_handler.go:36-226 | Sending one flag saves it if and only if the settings it depends on are there: origins, certificate and key, ACME address, LiveKit key and secret |
| `SettingsGate.PortNumbers` | server/internal/handlers/admin_handler.go:94-101 | The decimal of n, also with a plus sign or a leading zero, is a port if and only if n is from 1 to 65535 |
| `SettingsGate.PortNeedsDigits` | server/internal/handlers/admin_handler.go:94-101 | A string with any character but digits, save a leading plus sign, is no port |
| `SettingsGate.OneOrigin` | server/internal/handlers/admin_handler.go:140-152 | A single origin counts as a wildcard if and only if it trims to "*" |
| `SettingsGate.FirstOrigin` | server/internal/handlers/admin_handler.go:140-152 | A list of origins holds a wildcard if and only if its first does or the rest does |
| `SettingsGate.ByteLenCounts` | server/internal/handlers/admin_handler.go:89-93 | Lengths count one byte for each character and one more from each of U+0080, U+0800 and U+10000 on |
| `SettingsUpdate.SystemSettings.ApplySettingsFields` | server/internal/handlers/admin_handler.go:401-689 | The loop over the body in arbitrary order succeeds exactly when every key is acceptable, with the merged settings; on failure it names a bad key and has applied some of the good ones |
| `SettingsUpdate.AdminHandler.UpdateSettings` | server/internal/handlers/admin_handler.go:355-396 | Saves the merged settings exactly when the body is acceptable and the result valid; otherwise what was saved stays |
| `Cooldowns.RateBound` | server/internal/handlers/cooldown.go:30-40 | k grants of one key inside a window of length T satisfy (k-1)*ttl <= T |
| `Cooldowns.CacheRateBound` | server/internal/handlers/cooldown.go:30-40 | In every reachable cache, the grants i to j of a key inside a window [from, to] satisfy (j-i)*ttl <= to-from |
| `Cooldowns.CooldownCache.Allow` | server/internal/handlers/cooldown.go:30-40 | Answers as the never-purged cache would, with three separate clock readings: yes if and only if the key was never granted or its last grant is at least ttl old; a yes records a grant at the later reading |
| `Cooldowns.CooldownCache.Remaining` | server/internal/handlers/cooldown.go:43-53 | Returns the time left until ttl after the last grant of the key, 0 if that is past or there was none, and changes no other answer |
| `Cooldowns.CooldownCache.Purge` | server/internal/handlers/cooldown.go:56-63 | Whatever the iteration order, removes exactly the expired entries, invisibly |
| `Cooldowns.KeptAnswers` | server/internal/handlers/cooldown.go:30-63 | A cache that differs from the never-purged one only by expired entries answers every later Allow and Remaining alike |
| `Cooldowns.RecordGrant` | server/internal/handlers/cooldown.go:34-39 | A grant allowed by the cache keeps the grants of its key at least ttl apart |
| `Challenges.SuccessIsLatestAndFresh` | server/internal/auth/challenge_store.go:43-58 | Under every interleaving a successful GetAndVerify returns the latest Set of its key as of its read, unexpired at its check, and with the challenge the call expected, if it expected one |
| `Challenges.SetThenGet` | server/internal/auth/challenge_store.go:32-58 | Undisturbed, a call d after a Set of its key succeeds, with what was set, if and only if d is at most ttl and the expected challenge is empty or the one set; other keys keep their entries |
| `Challenges.DeleteThenGet` | server/internal/auth/challenge_store.go:43-64 | After a Delete an undisturbed call with that key fails; other keys keep their entries |
| `Challenges.PurgeInvisible` | server/internal/auth/challenge_store.go:81-90 | A purge keeps exactly the entries that are not past their expiry and changes no undisturbed call |
| `Challenges.ExpiredDeleteHitsNewEntryIff` | server/internal/auth/challenge_store.go:50-53 | The delete after an expired read removes something other than what was read if and only if the key was set again after the read and is still there |
| `Challenges.FreshChallengeCanBeLost` | server/internal/auth/challenge_store.go:43-58 | From every state with an expired entry, a Set between the read and the delete loses a challenge that is still fresh |
| `Challenges.ChallengeStore.GetAndVerify` | server/internal/auth/challenge_store.go:43-58 | In sequence, answers as a store that is never purged: with the entry of the key if and only if it is there, not past its expiry, and nothing or its own challenge was expected |
| `Challenges.ChallengeStore.PurgeExpired` | server/internal/auth/challenge_store.go:81-90 | Removes exactly the expired entries, invisibly |
| `ScrollSlices.CaptureScrollSlices` | tools/screenshots/screenshot.js:457-488 | The loop makes one slice of a page at most 48 rows taller than the viewport; else it walks from the top by clientHeight - 48 rows, at least 80, cut at the bottom, until the bottom or 20 slices; slice k is at min(maxY, k*step) and there are min(20, ceil(maxY/step)+1) |
| `ScrollSlices.CoverageIff` | tools/screenshots/screenshot.js:457-488 | For every page: all rows are shown if and only if the page fits the viewport, or it is more than 48 rows taller, by at most 19 steps, and the viewport is at least 80 tall or the page at most two viewports long |
| `ScrollSlices.ShortPageIff` | tools/screenshots/screenshot.js:457-462 | A page at most 48 rows taller than the viewport gets one screenshot, which shows every row if and only if the page is no taller than the viewport |
| `ScrollSlices.OverlapIff` | tools/screenshots/screenshot.js:464-488 | For every page: neighbouring slices share at least 48 rows if and only if there is one slice, the viewport is at least 128 tall or the page is at most two viewports less 48 rows long |
| `ScrollSlices.CeilDivIsLeast` | tools/screenshots/screenshot.js:464-466 | The slice count's ceiling is the least number of steps that reaches maxY |

## Left out

- HTTP, JSON text, cookies, logging, mail, LiveKit calls, OAuth redirects and WebAuthn attestation: only the order of steps and the accept or reject outcomes are modelled; JSON values are a datatype.
- Cryptography: SHA-256 is taken as injective, a signature is membership in the set of minted tokens (or a flag), and a minted refresh token carries an id no earlier one has. Whether a password matches is an input.
- Database failures: a request may stop at any step (`Abort`), and the block insert of a rotation may fail alone (`SkipBlock`); other half-done statements are not modelled. Each SQL statement, and the delete transaction, is one atomic step.
- In the session machine a refresh token that was also revoked as an access token, or carries a purpose, is not refused for that; the service method does refuse it (AuthServices.VerdictIsTheMachines), so the machine accepts no less than the code.
- Banned users in jwt.go, and the access tokens' own claims beyond expiry, signature and purpose.
- Revocation.RevokedTokens.RevokeAccessToken: the write to memory and the write to the table are one step, so a crash between the two is not modelled; neither is a missing or failing durable store.
- AuthServices.AuthService.Login: password hashing and the dummy comparison for unknown users are left out; which users' hashes the given password matches is an input.
- LogoutSafety.LogoutIsFinal: says nothing about requests already past their block query, which the code does not stop (`SessionWitnesses.RacingRefreshOutlivesLogout`).
- Creation of users by registration, guest login and OAuth is one event for an id without a row, which may have been used before; an OAuth login that recreates a row is an ordinary save. E-mail addresses are canonical, and OAuth providers are one value.
- Participant and room state of the webhooks (handleParticipantDisconnected, handleRoomFinished): it never changes a recording, and its check for active recordings gates only the room.
- The contents of a recording, its download and the storage write: the worker either completes or records an error.
- ArchivePath.AcceptedPathStaysBelow: Unix paths only, with filepath.Clean, Join and Rel modelled on lists of elements, not on their byte buffers.
- ArchiveExtract.SafeExtractArchive: the tar stream is a sequence of headers with byte counts; decompression, permissions, overwriting of an existing file and symbolic links already on the disk are not modelled, and which error a failed member gets is not stated.
- Settings: one map per kind of field instead of one struct, so struct layout and pointer aliasing are not captured. A number with a fraction or an exponent is refused.
- SettingsUpdate.AdminHandler.UpdateSettings: url.Parse and mail.ParseAddress are parameters, and neither the text nor the order of validation errors is stated; the reload of the providers after a save is left out.
- Settings.MaskMergeRoundTrip: about the stored settings; the handler masks the effective ones, into which the configuration was merged, and that merge is not modelled.
- Challenges.ChallengeStore.GetAndVerify: the class is the sequential reading; the interleaved one is the state machine in the same module.
- ScrollSlices.CaptureScrollSlices: the page and its metrics are parameters and the files are the scroll positions; a page that clamps its own scrolling is not modelled.
- E-mail canonicalisation, dashboards, desktop and mobile clients, bot agents, the command line and the installer scripts: plumbing.

# Mystic Auth: protocols and proofs

This Dafny project models the security protocols of the Mystic Auth backend and proves what they
promise, over every input, every run and every interleaving. `dafny verify dfyconfig.toml` checks it.

What is modelled:

- **Token revocation.** Every account and every login chain has a version counter in Postgres, kept in a
  current row and possibly a legacy row. A token carries both versions and is dead once a counter has
  moved past it. `RevocationKeys` gives the row keys, `VersionStore` the counters, `KeyMigration` the
  move from legacy to current rows, `MigrationRun` the script that does it, `TokenClaims` the comparison.
- **Refresh-token rotation** (the scheme of section 4.14.2 of RFC 9700; token expiry as in section 4.1.4
  of RFC 7519). `RotationSystem` is a transition system: any number of verifications, rotations, bumps and
  logins are in flight, each at its own program point, and a step is one SQL statement or transaction, one
  Valkey command, or a local stretch of code. `RotationInvariants`, `RotationClaims` and
  `RotationConservation` hold the inductive invariants; `RotationTheorems`, `RotationReturns`,
  `RotationReplay` and `RotationLedger` say what never happens in a run, `RotationProgress` exactly when an
  undisturbed request succeeds. `RefreshService` has the same endpoint, the revocation operations and the
  claim clean-up as imperative code.
- **Password-reset links.** `ResetLinks` has the three scripts and one attempt from start to end,
  `ResetProtocol` the concurrent attempts, `ResetTheorems` what holds of every run.
- **Session-event leases.** `EventLeases` has the three scripts on sorted sets, `LeaseRuns` their runs.
- **The account-lifecycle outbox.** `LifecycleOutbox` has one submission and the reconciler pass,
  `OutboxRuns` all interleavings of claim, defer, commit, delivery and crash.
- **Login brakes.** `LoginBrakes` has the cool-down and the lockout, `BrakeRuns` their runs, one
  key-value command at a time.
- **The tunnel supervisor.** `TunnelSupervisor` turns a sequence of signals into a log of actions.
- **Search patterns.** `LikeSearch` has the escaper and a LIKE matcher.

## Assumptions

- There is one monotone clock. A key is gone from its deadline on, and a signed token is expired from its
  `exp` on. Rotation times are whole seconds; reset and lease times are finer and say so.
- HMAC and SHA-256 identifiers are injective, HMAC digests hold no colon, and signed tokens are unforgeable:
  a complete access or refresh payload was handed out before. Fresh jti, chain and lease identifiers are new
  and hold no colon; account emails hold no colon.
- One SQL statement or transaction, one Lua script and one Valkey command is atomic. Row locks are
  over-approximated in the rotation system: a bump may have read any older value of the current row, but
  not a value of the legacy row older than the locked one.
- Failures, clocks, addresses, fresh identifiers and the answers of the database are parameters or choices
  of the environment.

Dafny's automatic induction is turned off on the lemmas it would apply to: every induction is written out.

Some members carry facts about the past that no code stores (which tokens were minted, how often a claim
was granted). They only serve to state properties, and no step reads them.

## Where code and documentation differ

The model follows the code.

- `backend/mystic_auth/auth/password_logic/password_reset_service.py:130-131` says a failed attempt restores its
  link only if no newer link has since been issued. The script (lines 30-36) only asks whether another link is
  outstanding. Once a newer link has been consumed, even successfully, the older one can come back
  (`ResetTheorems.OlderLinkRevives`); `GiveBackRevivesIff` has the exact condition. Even an unspent newer link
  lets an older one back if it was handed back with keys that lapse before the older token expires, which takes
  two tokens that expire less than a second apart (`NewestKeepsOlderOut`, `OlderRevivesAfterWaitIff`,
  `LapsedNewestLetsOlderBack`).
- `backend/mystic_auth/auth/password_logic/password_reset_service.py:131-132` and 152-154 say the restored lifetime is
  capped by the token's own. It is capped when it is measured (line 158); the keys live that long from the
  moment the script runs. They outlive the token exactly when that takes longer than the fraction of a second
  the measurement dropped (`ResetTheorems.HandedBackLapse`, `KeysOutliveToken`).
- `backend/mystic_auth/auth/password_logic/password_reset_service.py:134-139` says success is always reported once the
  password is written. An error raised after the commit inside the update is answered as a failure;
  `ResetService.ResetPassword` keeps the two apart.
- `backend/mystic_auth/auth/refresh_token_logic/refresh_token_service.py:149-153` answers an outage with 503 "so the
  client keeps its session". That holds exactly when the outage came before the claim was committed
  (`RefreshService.Service.Retry`, `RotationLedger.OutageBurnsToken`).
- `backend/mystic_auth/procrastinate_tasks/maintenance_tasks.py:56-59` says an expired token can no longer be
  presented, so its claim can go. A request that decoded the token before its expiry may still be on its way to
  the claim (`RotationLedger.PurgeCanOvertake`); `ClaimedAgainIff` has the exact condition.
- `backend/mystic_auth/scripts/migrate_token_revocation_identifiers.py:53` reports "no rows changed" for an
  unrecognised key. That is true exactly when one of the first batch-size legacy keys in key order is
  unrecognised (`MigrationRun.Migration.Migrate`, `CommitsThenFails`).
- `backend/mystic_auth/auth/token_logic/token_revocation_keys.py:36-39` splits a legacy chain key at its last colon, so
  a chain named with a colon would lose its revocation (`KeyMigration.MovedChainKeepsVersionIff`). Chains named
  by the application never contain one.
- `backend/mystic_auth/auth/security/login_protection_service.py:87-89` and
  `backend/mystic_auth/auth/security/account_cooldown_service.py:55-57` rely on EXPIRE following the first INCR. A
  counter has a deadline exactly when EXPIRE ran in its life (`BrakeRuns.DeadlineIff`, `LapsesIffOpened`), and a
  process that dies between the two leaves one that never lapses (`DeathLeavesCounter`).
- `backend/mystic_auth/user_lifecycle/account_lifecycle_events.py:92-103` promises exactly one job per row. That holds
  exactly when no transaction that deferred a job failed to commit (`OutboxRuns.QueuedExactlyOnceIff`,
  `LostCommitRepeats`).

## Model

| member | source | states |
|---|---|---|
| RevocationKeys.LastColon | backend/mystic_auth/auth/token_logic/token_revocation_keys.py:38 | the split point of the legacy chain key is its last colon, or none when there is none |
| RevocationKeys.UpToColon | backend/mystic_auth/scripts/migrate_token_revocation_identifiers.py:39-40 | the part of a key that the row filter compares with the current format's tag is the longest colon-free prefix |
| RevocationKeys.AccountTranslationExact | backend/mystic_auth/auth/token_logic/token_revocation_keys.py:31-35 | a legacy account key goes to the row current code reads for that account if and only if the email is present and does not look like a current key |
| RevocationKeys.ChainTranslationExact | backend/mystic_auth/auth/token_logic/token_revocation_keys.py:36-39 | a legacy chain key goes to the row current code reads for that chain if and only if both names are present, the chain name has no colon and the email does not look like a current key |
| RevocationKeys.ChainVersionKeyInjective | backend/mystic_auth/auth/token_logic/token_revocation_keys.py:18-20 | two chains share a current row only if they are the same chain of the same folded email |
| RevocationKeys.KeysSharedIff | backend/mystic_auth/auth/token_logic/token_revocation_keys.py:14-20 | two spellings of an email share an account row if and only if they fold to the same text, and a chain row if and only if the chain is the same too |
| RevocationKeys.LegacyRowIsMovedIff | backend/mystic_auth/scripts/migrate_token_revocation_identifiers.py:36-53 | the row filter selects an ordinary target's legacy row and the translation gives that target's current row, in all cases but one: an email that is just the tag of the current format |
| RevocationKeys.SchemeSound | backend/mystic_auth/auth/token_logic/token_revocation_keys.py:9-40 | the deployed key formats never move a current row, move a target's legacy row only onto that target's current row, and give distinct targets rows that never overlap, current or legacy |
| VersionStore.BumpRaises | backend/mystic_auth/auth/token_logic/token_version_store.py:79-101 | a committed bump strictly raises the effective version, however stale its read of the current row, missing row included |
| VersionStore.BumpKeepsOthers | backend/mystic_auth/auth/token_logic/token_version_store.py:91-101 | a bump lowers no effective version and leaves every target with other rows as it was |
| VersionStore.TokenVersionStore.GetVersion | backend/mystic_auth/auth/token_logic/token_version_store.py:36-46 | the answer is at least both formats' rows and is one of them, 0 when neither exists; an unavailable store gives no answer |
| VersionStore.TokenVersionStore.GetVersions | backend/mystic_auth/auth/token_logic/token_version_store.py:48-77 | the one-query form gives the two effective versions whatever order the rows come back in |
| VersionStore.TokenVersionStore.BumpVersion | backend/mystic_auth/auth/token_logic/token_version_store.py:79-146 | success is reported exactly for a commit whose answer arrives; any commit raised the effective version by one, and without one nothing changed |
| KeyMigration.MovedAll | backend/mystic_auth/scripts/migrate_token_revocation_identifiers.py:49-67 | a batch removes exactly its own rows from the legacy rows, which is why the loop ends, and leaves the other legacy rows untouched |
| KeyMigration.BatchKeepsVersion | backend/mystic_auth/scripts/migrate_token_revocation_identifiers.py:34-68 | at every batch boundary no effective version has decreased |
| KeyMigration.MoveMerges | backend/mystic_auth/scripts/migrate_token_revocation_identifiers.py:54-66 | moving one row keeps every current row equal to the maximum of its old value and the legacy rows folded into it so far |
| KeyMigration.BatchMerges | backend/mystic_auth/scripts/migrate_token_revocation_identifiers.py:49-67 | so does a batch of any size in any order |
| KeyMigration.MergedUnique | backend/mystic_auth/scripts/migrate_token_revocation_identifiers.py:34-68 | a table part-way through the migration is determined by the original one and by which legacy rows are left, the final one by the original alone: row order and batch size cannot matter |
| MigrationRun.Migration.SelectBatch | backend/mystic_auth/scripts/migrate_token_revocation_identifiers.py:36-48 | a batch is the first legacy rows in key order among those no other transaction has locked |
| MigrationRun.Migration.MoveBatch | backend/mystic_auth/scripts/migrate_token_revocation_identifiers.py:49-67 | a batch applies in full, or changes nothing and fails exactly when it holds a key without a translation |
| MigrationRun.Migration.Migrate | backend/mystic_auth/scripts/migrate_token_revocation_identifiers.py:18-70 | an undisturbed run ends in the merged table and reports every legacy row, or fails exactly when some legacy key has no translation; a failing run has committed exactly the full batches before the first such key, and left the table as it was if and only if that key is in the first batch; no effective version goes down |
| MigrationRun.FirstSorted | backend/mystic_auth/scripts/migrate_token_revocation_identifiers.py:41 | what a batch selects is sorted and comes before all that is left |
| MigrationRun.FirstOfRest | backend/mystic_auth/scripts/migrate_token_revocation_identifiers.py:34-48 | selecting again after a batch is gone continues where it stopped |
| MigrationRun.Migration.CountThenMigrate | backend/mystic_auth/scripts/migrate_token_revocation_identifiers.py:21-32 | the dry run gives the very number of rows that a completing run reports, and 0 only if that run changes nothing |
| MigrationRun.CommitsThenFails | backend/mystic_auth/scripts/migrate_token_revocation_identifiers.py:49-68 | a run that changes rows and then reports that none changed |
| MigrationRun.FailingRowsExist | backend/mystic_auth/auth/token_logic/token_revocation_keys.py:36-39 | the deployed key formats have rows that make such a run |
| KeyMigration.MovedChainKeepsVersionIff | backend/mystic_auth/auth/token_logic/token_revocation_keys.py:36-39 | in any table, a moved legacy chain row keeps its chain's effective version when the chain name has no colon, and leaves the chain with its current row alone otherwise |
| TokenClaims.CurrentIsComplete | backend/mystic_auth/auth/token_logic/jwt_service.py:318-338 | an access or refresh payload passes exactly when all its claims are present and both versions equal the counters; a chainless one never passes |
| RotationInvariants.RowsRise | backend/mystic_auth/auth/token_logic/token_version_store.py:79-101 | no step of any request, bump or migration batch lowers an effective version |
| RotationInvariants.LegacyFalls | backend/mystic_auth/scripts/migrate_token_revocation_identifiers.py:54-66 | no step raises a legacy row, which is what makes a bump's locked read of it safe |
| RotationInvariants.TokensStayOk | backend/mystic_auth/auth/token_logic/jwt_service.py:35-113 | no token is ever minted with versions its counters have not reached; that a login's token has not fallen behind either is `LoginTokenIsCurrentIff` |
| RotationInvariants.LineageStaysOk | backend/mystic_auth/auth/refresh_token_logic/refresh_token_service.py:106-124 | a child carries its parent's account, chain and both versions, through the claim row |
| RotationClaims.WindowShrinks | backend/mystic_auth/auth/refresh_token_logic/refresh_token_service.py:38-60 | no request starts on a token that has expired |
| RotationClaims.PurgeUsedOnce | backend/mystic_auth/procrastinate_tasks/maintenance_tasks.py:61-78 | the clean-up frees no claim that a request could still be granted, save one it overtakes |
| RotationClaims.SingleUseStays | backend/mystic_auth/auth/refresh_token_logic/refresh_rotation_store.py:90-127 | every step keeps a claim granted at most once unless it was overtaken |
| RotationConservation.EffectBalance | backend/mystic_auth/auth/refresh_token_logic/refresh_token_service.py:86-147 | each step pays for the refresh token it hands out with a claim it releases or a root |
| RotationConservation.ConservedStays | backend/mystic_auth/auth/refresh_token_logic/refresh_token_service.py:86-147 | every step keeps live tokens plus claims in service within the chain's budget |
| RotationTheorems.DeadStaysDead | backend/mystic_auth/auth/token_logic/jwt_service.py:302-338 | a token that is not current now is not current in any later state |
| RotationTheorems.NoResurrection | backend/mystic_auth/auth/refresh_token_logic/refresh_token_service.py:62-147 | once a token is revoked, nothing reached from it by any number of rotations is ever current, whether minted before or after |
| RotationTheorems.AcceptanceHasAnInstant | backend/mystic_auth/auth/token_logic/jwt_service.py:302-338 | although the two versions are read by two queries, an accepted token had both matching in one table at one instant during the call |
| RotationTheorems.RevokedNeverAccepted | backend/mystic_auth/auth/token_logic/jwt_service.py:148-190 | a verification or rotation that starts after a revocation never accepts the revoked token or a descendant |
| RotationTheorems.BumpIsExact | backend/mystic_auth/auth/token_logic/token_version_store.py:79-101 | a committed bump kills every token of its scope and leaves every distinct target's version as it was |
| RotationTheorems.BumpRaisesInRuns | backend/mystic_auth/auth/token_logic/token_version_store.py:79-101 | in any run, every bump that commits strictly raises its target's effective version |
| RotationReplay.ReuseResponseIsScoped | backend/mystic_auth/auth/refresh_token_logic/refresh_token_revocation.py:160-179 | over whole runs, any bump a refresh request runs names the chain of the token it was given, never the account; its commit kills every token of that chain minted by then and all their descendants for ever, and leaves every token of every other chain as alive as it was |
| RotationReplay.ResponseNeedsUse | backend/mystic_auth/auth/refresh_token_logic/refresh_token_service.py:86-104 | a request responds to a replay only if, while it ran, the claim or a marker of its token was on record |
| RotationReplay.BumpWasUnexcused | backend/mystic_auth/auth/refresh_token_logic/refresh_rotation_store.py:33-53 | a request revokes only if, while it ran, the grace did not excuse the replay |
| RotationTheorems.ChainBumpSparesOthers | backend/mystic_auth/auth/refresh_token_logic/refresh_token_revocation.py:113-138 | a chain bump leaves every token of every other chain exactly as valid as it was |
| RotationTheorems.DuplicateResponse | backend/mystic_auth/auth/refresh_token_logic/refresh_rotation_store.py:33-53 | a request whose token was claimed before comes to nothing exactly when the claim, or without one a stamped marker of an older release, is no older than the grace and names the same address; otherwise it bumps its token's chain |
| RotationTheorems.RevocationIsHonest | backend/mystic_auth/auth/refresh_token_logic/refresh_token_revocation.py:34-61 | from the commit of a bump on, no token of its scope that existed, and nothing rotated from one, is ever current |
| RotationLedger.ClaimedAgainIff | backend/mystic_auth/auth/refresh_token_logic/refresh_rotation_store.py:90-132 | over whole runs, after a claim was granted a later attempt at it is granted if and only if, in between, the clean-up removed its row while that very request was between decoding the token and claiming it, and nobody was granted the claim since |
| RotationLedger.PurgeCanOvertake | backend/mystic_auth/procrastinate_tasks/maintenance_tasks.py:61-78 | a concrete run in which that happens |
| RotationLedger.ChainConservation | backend/mystic_auth/auth/refresh_token_logic/refresh_token_service.py:86-147 | unclaimed refresh tokens of a chain plus claims in service never exceed the root tokens issued in the run plus its repeated grants |
| RotationLedger.RegrantIsOvertaken | backend/mystic_auth/procrastinate_tasks/maintenance_tasks.py:61-78 | every repeated grant goes to a request that a clean-up overtook |
| RotationLedger.OutageBurnsToken | backend/mystic_auth/auth/refresh_token_logic/refresh_token_service.py:149-153 | a concrete run in which an outage after the claim costs the token: the retry is refused, or revokes the chain |
| RotationReturns.ReturnHasAnInstant | backend/mystic_auth/auth/refresh_token_logic/refresh_token_service.py:130-147 | both tokens of every returned pair were current, both versions in one table, at one instant between the mint and the end of the re-check's first read |
| RotationReturns.RevokedInFlightIsNotReturned | backend/mystic_auth/auth/refresh_token_logic/refresh_token_service.py:133-142 | if the presented token is revoked between its claim and the first read of the re-check, the new pair is never returned |
| RotationReturns.AcceptsWhatWasAsked | backend/mystic_auth/auth/token_logic/jwt_service.py:148-190 | a verification accepts only the very token it was given, genuine, unexpired when it started and of the type asked for; when it does accept is `VerificationIff` |
| RotationReturns.ReturnsChildrenOfWhatWasGiven | backend/mystic_auth/auth/refresh_token_logic/refresh_token_service.py:38-147 | a rotation returns one access and one refresh token, both rotated from the refresh token it was given, with its email, chain and versions |
| RotationReturns.VerifiedWasUnmarked | backend/mystic_auth/auth/token_logic/jwt_service.py:176-177 | a verified token carried no revocation marker of an older release at an instant of its verification |
| RotationProgress.VerificationIff | backend/mystic_auth/auth/token_logic/jwt_service.py:148-190 | an undisturbed verification accepts if and only if the token is genuine and unexpired at its start, carries no marker when that is looked up, has its claims, has the account version current at the first read and the chain version at the second, and is of the type asked for |
| RotationProgress.MarkedIsRefused | backend/mystic_auth/auth/token_logic/jwt_service.py:176-177 | a verification that looks a token up while its marker of an older release is there never accepts it |
| RotationProgress.ClaimIff | backend/mystic_auth/auth/refresh_token_logic/refresh_token_service.py:38-93 | an undisturbed rotation is granted its claim if and only if the token is a genuine, unexpired, whole refresh token, each version is current at its own read, no marker is seen and the claim is free; the row then records time, expiry, address and both versions |
| RotationProgress.ReturnIff | backend/mystic_auth/auth/refresh_token_logic/refresh_token_service.py:106-147 | an undisturbed request that holds its claim returns if and only if it mints within the refresh life and the re-check finds each version current at its own read; the pair carries the presented claims and expires the configured lives after the claim |
| RotationProgress.ReplayIsAnswered | backend/mystic_auth/auth/refresh_token_logic/refresh_token_service.py:98-104 | an undisturbed replay of a current token comes to nothing if the claim is young and from the same address; otherwise its chain is bumped and every token of the chain minted by then, and all rotated from one, is dead from then on |
| RotationProgress.BumpCompletes | backend/mystic_auth/auth/token_logic/token_version_store.py:79-101 | an undisturbed bump always commits, strictly raises the effective version and answers with the one it left |
| RotationProgress.LoginTokenIsCurrentIff | backend/mystic_auth/auth/token_logic/jwt_service.py:35-113 | a login hands out a root token with the versions its read found and its type's configured life; the token is current when it appears if and only if neither counter moved since that read |
| RotationProgress.BatchInRun | backend/mystic_auth/scripts/migrate_token_revocation_identifiers.py:34-68 | a batch amid other requests removes exactly its own legacy rows, leaves the other legacy counters as they were, and lowers no effective version |
| RefreshService.Service.IsCurrentVersion | backend/mystic_auth/auth/token_logic/jwt_service.py:318-338 | the early exits and two reads answer whether the token is current, or report an outage |
| RefreshService.Service.ClaimJti | backend/mystic_auth/auth/refresh_token_logic/refresh_rotation_store.py:90-135 | the claim is granted exactly when neither a row nor a legacy marker exists and the commit is answered, with the presented versions in the new row; a commit whose answer is lost leaves the row and grants nothing |
| RefreshService.Service.HandleReuse | backend/mystic_auth/auth/refresh_token_logic/refresh_token_revocation.py:160-179 | a reuse bumps the chain when the payload names one, the account otherwise, and reports a confirmation exactly when it got one |
| RefreshService.Service.AnswerDuplicate | backend/mystic_auth/auth/refresh_token_logic/refresh_rotation_store.py:33-53 | a token that could not be claimed is rejected, or unavailable if its record cannot be read; the chain is bumped exactly when neither a young claim nor a young marker from the same address excuses it |
| RefreshService.Service.RefreshTokens | backend/mystic_auth/auth/refresh_token_logic/refresh_token_service.py:33-153 | a pair is returned exactly for an acceptable unclaimed token whose store calls are all answered, carries its claims, and is current; an outage after the claim leaves the token claimed; a replay is rejected exactly if it can be told to be one and its record can be read, and then bumps its chain unless young and from the same address; any other rejection changes nothing |
| RefreshService.Service.Replay | backend/mystic_auth/auth/refresh_token_logic/refresh_rotation_store.py:33-53 | presenting a token twice never gives two pairs; the second call spares the first pair within the grace from the same address and kills it otherwise |
| RefreshService.Service.Retry | backend/mystic_auth/auth/refresh_token_logic/refresh_token_service.py:149-153 | after a 503 the same good token can still be exchanged if and only if the outage came before the claim was committed; after that the retry is refused within the grace and revokes the chain beyond it |
| RefreshService.Service.RevokeAllTokens | backend/mystic_auth/auth/refresh_token_logic/refresh_token_revocation.py:19-61 | returning means every covered token of the account is dead; whatever the answer, every chain's counter and every other account's is as it was, and so is the validity of other accounts' tokens; an unconfirmed bump leaves the mirror alone; the count is that of the active mirrored sessions, or 0 when counting fails |
| RefreshService.Service.RevokeAllTokensExceptChain | backend/mystic_auth/auth/refresh_token_logic/refresh_token_revocation.py:64-110 | every covered token dies, the exempt chain's included, and no other account is affected; only the exempt mirrored session stays; the count is the number of other active sessions exactly when the exempt chain had one, or there were none at all |
| RefreshService.Service.RevokeChain | backend/mystic_auth/auth/refresh_token_logic/refresh_token_revocation.py:113-138 | returning means every covered token of the chain is dead; whatever the answer, every other counter is as it was, and a token of any other chain is current afterwards if and only if it was before |
| RefreshService.Service.RevokeOneSession | backend/mystic_auth/user_session/session_service.py:283-302 | a session reported ended belonged to the caller and its chain is dead; every other chain and the account are as they were; without a confirmed bump the row stays; a row deleted by another request after the bump is answered as not found, with its chain dead all the same |
| RefreshService.Service.SelectExpired | backend/mystic_auth/procrastinate_tasks/maintenance_tasks.py:65-73 | a delete batch holds claims whose expiry has passed, none later than one left out, and is short only when it holds all of them |
| RefreshService.Service.PurgeConsumed | backend/mystic_auth/procrastinate_tasks/maintenance_tasks.py:61-81 | with a later clock for each batch, a claim is left exactly if it was there and has not expired by the last one, with its row unchanged; the answer is the number removed |
| RefreshService.Service.ReplayAfterSweep | backend/mystic_auth/procrastinate_tasks/maintenance_tasks.py:55-78 | a token that was exchanged is not exchanged again after a sweep whose last clock is not past its expiry, or not past the second presentation; with every call answered, that is exactly when |
| ResetLinks.HandBackLapse | backend/mystic_auth/auth/password_logic/password_reset_service.py:151-167 | the keys of a restored link lapse as long after its token's expiry as the script ran after the measurement, less the fraction of a second dropped; within the token's life exactly when the script ran within that fraction |
| ResetLinks.HandBackIff | backend/mystic_auth/auth/password_logic/password_reset_service.py:151-167 | a hand-back makes a link redeemable if and only if a whole second was left when measured, the token is still valid when the script runs, and no other link is outstanding |
| ResetLinks.ResetService.Consume | backend/mystic_auth/auth/password_logic/password_reset_service.py:24-29 | the script answers 1 exactly for the account's outstanding, unused link, and then removes both keys |
| ResetLinks.ResetService.HandBack | backend/mystic_auth/auth/password_logic/password_reset_service.py:151-167 | the restore runs only with a whole second measured and replaces no other live link; on a free account the link is outstanding afterwards, within its token's life exactly when the script ran in time |
| ResetLinks.ResetService.StoreLink | backend/mystic_auth/auth/password_logic/password_reset_service.py:49-61 | storing a link whose token was valid when checked makes it redeemable as long as it still is, and every other link of the account not; both keys last the given seconds |
| ResetLinks.ResetService.ResetPassword | backend/mystic_auth/auth/password_logic/password_reset_service.py:169-245 | with a clock reading for each step, the password is written only for a token valid at decoding and keys live at consumption, and the link is then gone; a repairable failure leaves it redeemable exactly if a second was left when measured and the token is still valid; any other failure leaves it spent; the answer is given for every outcome |
| ResetProtocol.KeysStayOk | backend/mystic_auth/auth/password_logic/password_reset_service.py:19-36 | every step keeps an active key paired with a marker of the same deadline |
| ResetProtocol.LapsesStayOk | backend/mystic_auth/auth/password_logic/password_reset_service.py:151-167 | every step keeps the deadline of a handed-back link where its last hand-back put it |
| ResetProtocol.PermitStays | backend/mystic_auth/auth/password_logic/password_reset_service.py:184-221 | every step moves or drops a link's one permit and never copies it |
| ResetTheorems.NewestStaysOk | backend/mystic_auth/auth/password_logic/password_reset_service.py:19-36 | every step keeps the newest unspent link outstanding until its keys lapse, and those of a never consumed one last until every older token has expired |
| ResetTheorems.PermitConservation | backend/mystic_auth/auth/password_logic/password_reset_service.py:184-241 | in every reachable state, redeemable plus attempts holding the link plus password writes it caused is at most 1 |
| ResetTheorems.UsedLinkIsDead | backend/mystic_auth/auth/password_logic/password_reset_service.py:184-221 | a link that changed a password is never redeemable, held or used again |
| ResetTheorems.WriteHasCauses | backend/mystic_auth/auth/password_logic/password_reset_service.py:170-221 | in every run, an attempt that writes a password had decoded a token of this link that was unexpired, and then consumed its keys while both were live |
| ResetTheorems.OneLinkPerAccount | backend/mystic_auth/auth/password_logic/password_reset_service.py:19-29 | two redeemable links of one account are the same link |
| ResetTheorems.NewestKeepsOlderOut | backend/mystic_auth/auth/password_logic/password_reset_service.py:151-167 | while the newest link of an account is not spent, an older one is redeemable only after the newest was handed back and its keys lapsed before the older token expires; never if the newest was not consumed or expires a second later |
| ResetTheorems.GiveBackRevivesIff | backend/mystic_auth/auth/password_logic/password_reset_service.py:30-36 | handing a link back revives it if and only if a second was left when measured, the token is still valid and no link is outstanding; for an older link the newest must have been consumed, and be spent or handed back with lapsed keys |
| ResetTheorems.OlderRevivesAfterWaitIff | backend/mystic_auth/auth/password_logic/password_reset_service.py:151-167 | past an unspent newest link, a measured older attempt that waits and then restores revives its link if and only if by then the newest link's keys have lapsed and the older token has not expired |
| ResetTheorems.LapsedNewestLetsOlderBack | backend/mystic_auth/auth/password_logic/password_reset_service.py:151-167 | a concrete run in which that happens |
| ResetTheorems.HandedBackLapse | backend/mystic_auth/auth/password_logic/password_reset_service.py:151-167 | in every reachable state the keys of a handed-back link outlive its token exactly when the script took longer than the dropped fraction, never by more than the delay; the link is not redeemable past its token's expiry |
| ResetTheorems.KeysOutliveToken | backend/mystic_auth/auth/password_logic/password_reset_service.py:151-167 | a concrete run in which the keys outlive the token |
| ResetTheorems.OlderLinkRevives | backend/mystic_auth/auth/password_logic/password_reset_service.py:30-36 | a concrete run in which an older link comes back after a newer one changed the password |
| EventLeases.PrunedCount | backend/mystic_auth/user_session/session_event_leases.py:36-39 | what admission counts are the leases that have not lapsed at the caller's reading of the clock |
| EventLeases.LeaseService.Acquire | backend/mystic_auth/user_session/session_event_leases.py:30-45 | a lease is granted exactly when both sets hold fewer unlapsed leases than their limits, and then is in both with its expiry |
| EventLeases.LeaseService.Refresh | backend/mystic_auth/user_session/session_event_leases.py:47-53 | a renewal never adds a member to either set; a lease that is there then runs a minute from the reading, and its key the grace longer than that from now |
| EventLeases.LeaseService.Release | backend/mystic_auth/user_session/session_event_leases.py:55-61 | a released lease is in neither set |
| LeaseRuns.CapsHold | backend/mystic_auth/user_session/session_event_leases.py:30-61 | in every reachable state each account and each IP holds at most its limit of leases, late renewals of lapsed ones included |
| LeaseRuns.RenewedLeaseStays | backend/mystic_auth/user_session/session_event_leases.py:23-53 | a lease renewed before it lapses stays in both sets with the score of its last renewal until release; neither pruning nor key expiry takes it |
| LeaseRuns.ReleasedStaysOut | backend/mystic_auth/user_session/session_event_leases.py:47-61 | a released lease is in neither set in any later state, whatever renewals of it are under way |
| LifecycleOutbox.DispatchedRow | backend/mystic_auth/procrastinate_tasks/account_lifecycle_tasks.py:47-59 | a pass marks a selected free row queued exactly when its own commit goes through and changes no other row |
| LifecycleOutbox.DispatchedJobs | backend/mystic_auth/procrastinate_tasks/account_lifecycle_tasks.py:36-59 | the jobs a pass adds are exactly those of the selected free rows whose own deferral did not fail, each with its event |
| LifecycleOutbox.FullPassQueuesAll | backend/mystic_auth/procrastinate_tasks/account_lifecycle_tasks.py:38-59 | a pass whose commits go through leaves only locked rows and rows past the hundredth unqueued |
| LifecycleOutbox.OutboxService.Queue | backend/mystic_auth/user_lifecycle/account_lifecycle_events.py:118-148 | for a free row, the job is deferred unless that failed, the row is queued only with its job and exactly if the commit went through, and the job id comes back exactly if that was confirmed; any other row changes nothing |
| LifecycleOutbox.OutboxService.MarkDelivered | backend/mystic_auth/user_lifecycle/account_lifecycle_events.py:69-83 | the first delivery marks the row, blanks user and email, redacts the actor and keeps the transition; a repeat changes nothing |
| LifecycleOutbox.OutboxService.DispatchPending | backend/mystic_auth/procrastinate_tasks/account_lifecycle_tasks.py:36-59 | the loop counts exactly the selected rows whose job id came back |
| OutboxRuns.JobsAccountedFor | backend/mystic_auth/user_lifecycle/account_lifecycle_events.py:118-148 | jobs deferred for a row are exactly one if it is queued, plus one per deferring transaction that did not commit, plus one in flight |
| OutboxRuns.QueuedExactlyOnceIff | backend/mystic_auth/user_lifecycle/account_lifecycle_events.py:92-103 | a queued row has a job, and exactly one if and only if no deferring transaction was lost |
| OutboxRuns.UnqueuedStaysEligible | backend/mystic_auth/procrastinate_tasks/account_lifecycle_tasks.py:38-45 | a row without a job is still selected by the reconciler |
| OutboxRuns.JobsCarryTheOriginal | backend/mystic_auth/user_lifecycle/account_lifecycle_events.py:135-137 | every job carries the event its row was written with, never the redacted one |
| OutboxRuns.OneClaimAtATime | backend/mystic_auth/user_lifecycle/account_lifecycle_events.py:122-133 | at most one transaction holds a row, and only while it is unqueued |
| OutboxRuns.ClaimAnswers | backend/mystic_auth/user_lifecycle/account_lifecycle_events.py:122-133 | in any run a claim succeeds exactly on an unqueued row that no transaction holds, and changes nothing otherwise |
| OutboxRuns.EndFreesRow | backend/mystic_auth/user_lifecycle/account_lifecycle_events.py:135-148 | however a transaction ends, crash included, its row is free again, queued exactly if a commit went through, and a job is answered exactly if that was confirmed |
| OutboxRuns.LostCommitRepeats | backend/mystic_auth/user_lifecycle/account_lifecycle_events.py:135-148 | a concrete run in which a lost commit leads to a second job for a row already delivered |
| LoginBrakes.Cooldown.RemainingSeconds | backend/mystic_auth/auth/security/account_cooldown_service.py:33-49 | 0 exactly when the attempt may proceed, with the slot taken for the cool-down past the threshold; otherwise the time left to the nearest second, but at least 1 |
| LoginBrakes.Cooldown.RecordFailure | backend/mystic_auth/auth/security/account_cooldown_service.py:52-61 | true exactly for the failure that reaches the threshold; a new counter gets a deadline one window off, a live one keeps its own |
| LoginBrakes.Cooldown.Reset | backend/mystic_auth/auth/security/account_cooldown_service.py:64-69 | after a sign-in no count and no slot is left at any time |
| LoginBrakes.Lockout.AskThenRecord | backend/mystic_auth/auth/security/login_protection_service.py:96-169 | asking whether a key is locked foretells the recording call: a locked key refuses success and failure alike, an unlocked one allows either |
| LoginBrakes.Lockout.CheckAndRecord | backend/mystic_auth/auth/security/login_protection_service.py:138-169 | a failure is allowed exactly while it is among the first allowed ones and opens a new counter's window; a success is refused by a full counter and clears it otherwise |
| BrakeRuns.RateBound | backend/mystic_auth/auth/security/account_cooldown_service.py:33-46 | while an account is braked, n admitted attempts span at least n - 1 cool-downs, under any interleaving |
| BrakeRuns.LifetimeAnswers | backend/mystic_auth/auth/security/login_protection_service.py:161-169 | in one life of a counter all failures count, exactly one is told it crossed the threshold, and exactly the first allowed ones are allowed |
| BrakeRuns.WindowDoesNotSlide | backend/mystic_auth/auth/security/login_protection_service.py:85-91 | later failures do not move a counter's deadline, and it is gone by then |
| BrakeRuns.UnopenedNeverLapses | backend/mystic_auth/auth/security/login_protection_service.py:161-164 | a counter without a deadline that nobody will open any more is there after any time without a sign-in, counting every failure |
| BrakeRuns.DeadlineIff | backend/mystic_auth/auth/security/login_protection_service.py:161-164 | in one life of a counter, it has a deadline if and only if EXPIRE ran on it |
| BrakeRuns.DeadlineIsLastOpening | backend/mystic_auth/auth/security/login_protection_service.py:161-164 | in one life of a counter its deadline is one window after the last EXPIRE |
| BrakeRuns.LapsesIffOpened | backend/mystic_auth/auth/security/login_protection_service.py:161-164 | an opened counter is gone from its deadline on; one never opened outlasts any wait |
| BrakeRuns.SignInReleases | backend/mystic_auth/auth/security/account_cooldown_service.py:64-69 | after a sign-in the counter is gone until the next failure and the slot free until the next braked attempt |
| BrakeRuns.DeathLeavesCounter | backend/mystic_auth/auth/security/login_protection_service.py:161-164 | a concrete run that leaves such a counter: one failure whose request dies before EXPIRE |
| TunnelSupervisor.StopAgent | docker/mystic_auth/ngrok-supervisor.go:100-111 | afterwards no agent is alive, and the series of waits is unchanged |
| TunnelSupervisor.Restart | docker/mystic_auth/ngrok-supervisor.go:173-182 | a restart waits, starts one agent and moves on to the next wait of the series; interrupted, it leaves no agent |
| TunnelSupervisor.OnExit | docker/mystic_auth/ngrok-supervisor.go:154-164 | an exit of the agent stops the supervisor exactly if it is shutting down then or during the wait, and ends in a restart otherwise |
| TunnelSupervisor.OnTick | docker/mystic_auth/ngrok-supervisor.go:165-182 | a probe ends in a restart exactly when it completes a streak as long as the threshold, and stops the supervisor exactly when that restart is interrupted |
| TunnelSupervisor.React | docker/mystic_auth/ngrok-supervisor.go:149-184 | one iteration stops exactly on a shutdown or an interrupted restart, and keeps count of failed probes across the others |
| TunnelSupervisor.RunSupervisor | docker/mystic_auth/ngrok-supervisor.go:125-185 | every run writes a proper log; it goes on exactly as long as no signal is a shutdown, an exit while shutting down, or an interruption of a restart that took place; it has answered every signal up to the first of these, in order, and then leaves no agent alive |
| TunnelSupervisor.BackoffGrows | docker/mystic_auth/ngrok-supervisor.go:113-119 | doubling with a cap steps through the closed form of the back-off |
| TunnelSupervisor.OneAgentAlive | docker/mystic_auth/ngrok-supervisor.go:140-184 | at every moment of every run at most one agent is alive |
| TunnelSupervisor.HealthRestartNeedsStreak | docker/mystic_auth/ngrok-supervisor.go:165-182 | a health restart follows exactly threshold failed probes in a row with no success, exit or restart between, and no probe comes after that many |
| TunnelSupervisor.BackoffSchedule | docker/mystic_auth/ngrok-supervisor.go:113-181 | with the built-in first wait, the restart that k others precede since the last healthy probe waits the smaller of 5 s doubled k times and 5 minutes |
| LikeSearch.EscapedOnce | backend/mystic_auth/core/search_query.py:21-25 | the three chained replaces escape every special character exactly once |
| LikeSearch.QuotedPrefix | backend/mystic_auth/core/search_query.py:21-26 | an escaped value followed by a wildcard matches exactly the texts that start with the value |
| LikeSearch.SearchIsExact | backend/mystic_auth/core/search_query.py:12-26 | a search finds exactly the texts that contain the value, up to a case fold that fixes the special characters |

## Left out

- BrakeRuns.RateBound: stated as a product instead of a rounded-down quotient, which says the same.
- MigrationRun.Migration.Migrate: runs undisturbed, so no row is locked by others; with concurrent writers a batch is any set of translatable legacy rows, in the rotation system. The clean-up of cached legacy keys, which adds to both counts, and the `updated_at` column are left out.
- RefreshService.Service.RevokeChain: the mirrored row and the push notification are left out; neither decides whether a token is valid.
- RefreshService.Service.RefreshTokens: reads one clock for the whole call, where the rotation system has one that moves between steps; the session mirror that `rotate_session` updates is best effort and left out.
- LifecycleOutbox.OutboxService.DispatchPending: the rows of the SELECT are a parameter constrained to be its answer.
- TunnelSupervisor.RunSupervisor: the select statement is a sequence of signals, and 64-bit overflow of a wait is not modelled, since the cap keeps waits small after the first.
- JWT encoding, HMAC, Argon2 and WebAuthn are foreign libraries; tokens are records and digests are injective.
- The `user_sessions` mirror as a source of truth, since the code calls it best effort.
- The Valkey version cache, which no decision reads.
- The purge-versus-reactivate exclusion of accounts, whose row lock is not shown in the modelled files.
- The PBAC evaluator, policy repository, rate limiter, Argon2 gate and event-stream loop.
- Passkey, OAuth2, signup and verification handlers: their single-use claims repeat the protocols above.
- Routes, schemas, settings, e-mail, logging, migrations of the schema and the frontend.
- Client-address bucketing, CSV safety and login-trend filling, which would add only easy members.

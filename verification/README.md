# AIsales: verified models of the Telegram connector and its neighbours

This project models the parts of the AIsales repository where several processes share durable rows, or
where bytes and boards are read back after being written, and proves what those parts promise:

- **Message delivery** (`Delivery*.dfy`, `Gateway*.dfy`, `SenderTiming.dfy`): the lease-and-fence protocol over one
  row per account and idempotency key, its dictionary and SQL repositories, and any number of `send` calls that run
  it with arbitrary clocks, expiries, crashes and lost insert races.
- **Connection ownership** (`Connection*.dfy`, `ReconnectLoop.dfy`): the versioned, leased and fenced connection row,
  its two repositories, any number of supervisors with their reconnect loops and monitors, and the operators' pause,
  archive, resume and import.
- **Proxy assignment** (`Proxy*.dfy`): capacity, defaults, overrides with revisions, and clean-up after failed starts.
- **Authorization challenges** (`Challenge*.dfy`): the bounded, expiring, owner-bound challenge store and the phone
  and QR flows that use it.
- **Telegram Desktop data** (`Tdata*.dfy`): containers, arrays, AES-IGE chaining and authorization records, with
  hashes, key derivation and the block cipher as parameters (`Crypto`); the block cipher's only law is that
  decryption and encryption undo each other. The files are written by an independent writer that shares only the
  exclusive or and the integer encodings with the reader.
- **Account provisioning** (`Provisioning.dfy`), **AI approval history and gate** (`Policy*.dfy`) and the **Trello
  roadmap synchronization** (`Trello*.dfy`).

Concurrency is modelled as a state machine: a deterministic step function over events, where an event that does not
apply changes nothing, so that a theorem about every sequence of events is a theorem about every interleaving. One SQL
transaction is one step; reading an absent row and then inserting it is two. Clock readings are real numbers. Objects
that update their fields are classes, each method being proved against a function of the old state.

The safety theorems (`*Safety.dfy`, `*Theorems.dfy`) bound what may happen in any run; the progress theorems
(`*Progress.dfy`, `ReconnectHistory.dfy`) say what does happen, from every reachable state and for every answer.

Four behaviours of the source are stated as theorems rather than assumed away.

- `save` writes the version and fence it is given, so `resume`, which reads and saves in two steps, can undo an
  archive, and a repeated import starts versions and fences over; `Orderly` is the exact guard under which versions
  never go back.
- The reconnect loop checks its claim before it creates a client, not when it creates it: a loop that was overtaken in
  between can create a client before the retry time that its successor has persisted. With the claim still owned at
  the creation this cannot happen.
- A revocation dated before its approval is stored but reported as unavailable. The approval's id is drawn inside
  `create`, so in the program this takes a clock that steps back.
- A second board synchronization is quiet exactly under the two conditions that `SecondSyncExactly` names.

## Model

| member | source | states |
|---|---|---|
| `DeliveryMemory.InMemoryMessageDeliveryRepository.Reserve` | services/telegram_connector/gateway.py:243-269 | the five outcomes of a reservation, and that the waiters' event is set exactly when nobody holds the row |
| `DeliveryMemory.InMemoryMessageDeliveryRepository.Complete` | services/telegram_connector/gateway.py:274-288 | a result is stored exactly for an uncertain row or for the pending row of this owner and fence |
| `DeliveryMemory.InMemoryMessageDeliveryRepository.MarkUncertain` | services/telegram_connector/gateway.py:290-298 | only the holder's own fence makes a row uncertain |
| `DeliveryMemory.InMemoryMessageDeliveryRepository.Renew` | services/telegram_connector/gateway.py:300-307 | only the holder's own fence extends a lease |
| `DeliveryMemory.InMemoryMessageDeliveryRepository.AllowResendAfterReconcileMiss` | services/telegram_connector/gateway.py:309-322 | an uncertain row is granted again under the next fence; a missing row is the KeyError |
| `DeliverySql.SqlAlchemyMessageDeliveryRepository.Reserve` | services/telegram_connector/persistence.py:83-120 | two attempts always suffice: a lost insert race is resolved by the winner's row, so the final error cannot occur |
| `DeliverySql.SqlAlchemyMessageDeliveryRepository.ReserveOnce` | services/telegram_connector/persistence.py:94-120 | one attempt: it equals the atomic reservation unless another transaction inserts the row in between |
| `DeliverySql.SqlAlchemyMessageDeliveryRepository.Complete` | services/telegram_connector/persistence.py:126-142 | the conditional update of the durable form |
| `DeliverySql.SqlAlchemyMessageDeliveryRepository.AllowResendAfterReconcileMiss` | services/telegram_connector/persistence.py:168-188 | the locked regrant of the durable form |
| `DeliveryRefinement.StepRefines` | services/telegram_connector/persistence.py:94-188 | every operation of the SQL form answers as the dictionary form does, and the stores still match up to owner and lease of completed rows |
| `DeliveryRefinement.SqlRefinesMemory` | services/telegram_connector/persistence.py:94-188 | for every sequence of operations by any owners at any times, all actions, fences, results and booleans of the two repositories are equal |
| `GatewaySystem.StepsAreRepositoryCalls` | services/telegram_connector/gateway.py:394-507 | every step that makes a repository call, renewals included, is the SQL operation: same row, goes on by its reply, and is granted exactly when that reply says to send; what the network's answers lead to is the subject of `GatewayProgress` |
| `GatewayProgress.FirstCallSends` | services/telegram_connector/gateway.py:394-436 | the first call of a run inserts the pending row under its owner, fence 1 and its lease, and is the one network send |
| `GatewayProgress.DisconnectedCallRaises` | services/telegram_connector/gateway.py:396-398 | a call of an inactive connection raises `connection_inactive` and changes nothing |
| `GatewayProgress.WaitsUntilLeaseEnds` | services/telegram_connector/persistence.py:94-120 | in every reachable state: before the lease ends a call waits and asks again; from the expiry on the row turns uncertain and unowned, and the call reconciles, as it does on an uncertain row |
| `GatewayProgress.MissedMessageIsSentAgain` | services/telegram_connector/gateway.py:408-421 | a reconciliation miss on an uncertain row: a gateway with approved deduplication is granted the next fence and sends again; any other raises `telegram_unknown` and leaves row, grants and sends as they were |
| `GatewayProgress.LateResendYields` | services/telegram_connector/gateway.py:415-420 | whoever asks to resend too late returns the completed result, or waits for the call that was granted the resend |
| `GatewayProgress.OwnMissRaises` | services/telegram_connector/gateway.py:447-460 | a miss of the sender's own reconciliation raises the code of the failed send, or `telegram_unknown` after a lost completion; a failing reconciliation raises its own code |
| `GatewayProgress.HitIsReturned` | services/telegram_connector/gateway.py:483-499 | a reconciliation hit completes the row as reconciled and is returned, exactly on an uncertain row or one the call still holds; otherwise it raises and changes nothing |
| `GatewayProgress.SentMessageIsReturned` | services/telegram_connector/gateway.py:455-462 | a sent message completes the row as sent and is returned, exactly if the row is uncertain or still held; otherwise the call reconciles, and a miss raises |
| `GatewayProgress.FailedSendRaises` | services/telegram_connector/gateway.py:447-454 | a failed send marks the row it holds with its code and, on a miss, raises that code |
| `GatewayProgress.TimedOutSendRaises` | services/telegram_connector/gateway.py:470-481 | at the deadline or after a refused renewal the held row is marked with `timeout` and, on a miss, `telegram_unknown` is raised |
| `GatewayProgress.RenewalMovesExpiry` | services/telegram_connector/gateway.py:300-307 | a renewal of the held row moves its expiry to now plus the lease and changes nothing else |
| `GatewayProgress.CancelledSendMarks` | services/telegram_connector/gateway.py:437-446 | a cancelled call marks the row it holds with `timeout` before it ends |
| `GatewayProgress.MissingBodySendsNothing` | services/telegram_connector/gateway.py:464-467 | a granted call whose body is gone sends nothing, marks the row and raises |
| `GatewaySafety.Agreement` | services/telegram_connector/gateway.py:394-499 | any two `send` calls that return, at any two moments of any run, return the same result, and it is the row's |
| `GatewaySafety.CompletedIsFinal` | services/telegram_connector/gateway.py:274-322 | a completed row never changes again, whatever any caller does |
| `GatewaySafety.ReturnedStays` | services/telegram_connector/gateway.py:394-421 | a call that has returned keeps its result |
| `GatewaySafety.AtMostOneSend` | services/telegram_connector/gateway.py:408-421 | if no gateway has approved remote deduplication, the network send happens at most once over all runs, crashes and restarts |
| `GatewaySafety.FencesCountGrants` | services/telegram_connector/gateway.py:243-322 | the row's fence is the number of send grants ever issued; each is used for at most one network send; every grant after the first went to a deduplicating gateway |
| `GatewaySafety.StaleFenceNeedsUncertain` | services/telegram_connector/gateway.py:274-288 | a call, sending or reconciling, completes the row exactly when the row is uncertain, or pending under the call's own, newest fence |
| `GatewaySafety.OneInsertIsGranted` | services/telegram_connector/persistence.py:83-120 | for any gateways, exactly one call of a run is granted the send by inserting the row |
| `GatewaySafety.FirstGrantIsInsert` | services/telegram_connector/gateway.py:243-258 | a grant carries fence 1 exactly when it comes from that insert |
| `GatewayRivals.OthersAreRivals` | services/telegram_connector/gateway.py:274-307 | while a sender holds the row, no other call, even through the same repository object, presents its owner and fence |
| `GatewaySafety.NoUnexpectedState` | services/telegram_connector/gateway.py:415-421 | `_send_reserved` is entered only with a send grant, and no call fails for a lost insert race or a vanished row |
| `GatewaySafety.CompletedHasResult` | services/telegram_connector/gateway.py:400-404 | completed rows hold a result, so `invalid_peer` from a completed reservation means exactly that the peers differ |
| `GatewaySafety.LaterCallReplays` | services/telegram_connector/gateway.py:399-404 | a call after completion returns the stored result and sends nothing |
| `GatewaySafety.RunKeepsInv` | services/telegram_connector/gateway.py:394-499 | the invariant that ties every call's position to the row and to the histories of grants and sends |
| `SenderTiming.SendWithRenewal` | services/telegram_connector/gateway.py:464-481 | the loop's whole trace on any schedule: every wake-up, what rivals did, every renewal's reply, the refused-renewal and deadline exits, and the final table and clock |
| `SenderTiming.LoopEndsRightly` | services/telegram_connector/gateway.py:464-481 | on every schedule, punctual or not: each wake-up renews the row it found unless the call is done, all renewals but a last refused one are granted, and the loop ends with the result, by marking the row at its deadline or on the refused renewal, or not yet |
| `SenderTiming.PunctualSenderIsNeverOvertaken` | services/telegram_connector/gateway.py:353-357 | a sender that starts at its grant and wakes at most one renewal period late: every renewal is granted, at every rival call and wake-up its row is held and unexpired, it ends with its result or by marking the row at or after its deadline, and no expiry it writes is beyond start + deadline + renewal + lease |
| `SenderTiming.RivalsLeaveRow` | services/telegram_connector/persistence.py:94-188 | at each of any number of calls by others that read the clock before the lease ends, a held row is as it was, and the reply neither grants, nor expires, nor completes it |
| `ConnectionRepositories.InMemoryConnectionRepository.TryClaim` | services/telegram_connector/runtime/connection.py:118-130 | the claim of a free or lapsed row, under the next version and fence |
| `ConnectionRepositories.InMemoryConnectionRepository.SaveClaimed` | services/telegram_connector/runtime/connection.py:132-150 | the compare-and-set save, and what is appended to the history |
| `ConnectionRepositories.InMemoryConnectionRepository.RenewLease` | services/telegram_connector/runtime/connection.py:167-179 | the renewal that writes the caller's record |
| `ConnectionRepositories.InMemoryConnectionRepository.ForceTerminal` | services/telegram_connector/runtime/connection.py:152-165 | pause and archive drop the lease and move version and fence on; archived stays |
| `ConnectionRepositories.SqlAlchemyConnectionRepository.Save` | services/telegram_connector/postgres_state.py:349-369 | the unleased save writes version and fence as given, unless either side is leased |
| `ConnectionRepositories.SqlAlchemyConnectionRepository.TryClaim` | services/telegram_connector/postgres_state.py:371-405 | the durable claim |
| `ConnectionRepositories.SqlAlchemyConnectionRepository.SaveClaimed` | services/telegram_connector/postgres_state.py:407-438 | the durable save under version, owner, fence and a live lease |
| `ConnectionRepositories.SqlAlchemyConnectionRepository.ForceTerminal` | services/telegram_connector/postgres_state.py:440-473 | the durable pause and archive |
| `ConnectionRepositories.SqlAlchemyConnectionRepository.RenewLease` | services/telegram_connector/postgres_state.py:475-509 | the renewal that writes the locked row |
| `ConnectionRepositories.SqlAlchemyConnectionRepository.FailClosed` | services/telegram_connector/postgres_state.py:511-548 | the monitor's release into quarantine |
| `ConnectionProgress.ForcingWrites` | services/telegram_connector/postgres_state.py:440-473 | every field that a pause or an archive leaves: the state, seen now, no error, no retry time, no lease, the next version and fence; an archived row stays |
| `ConnectionProgress.FailedMonitorWrites` | services/telegram_connector/runtime/supervisor.py:335-353 | a monitor that fails under a standing claim leaves quarantine with `monitor_failed`, unleased and without a retry time; otherwise the row stays |
| `ConnectionProgress.StartClaims` | services/telegram_connector/postgres_state.py:371-405 | a supervisor that starts claims exactly a row that is in no terminal state and unleased or lapsed; every field of the claimed row |
| `ConnectionProgress.HeartbeatRenews` | services/telegram_connector/runtime/supervisor.py:335-343 | a heartbeat extends exactly a standing, live, non-terminal claim, and ends the monitor otherwise |
| `ConnectionProgress.ResumeAndImportWrite` | apps/api/app/modules/telegram_connections/service.py:315-330 | what an undisturbed resume and an import leave in the row, field by field |
| `ConnectionSafety.RunKeepsInv` | services/telegram_connector/postgres_state.py:371-547 | over every orderly run: row shape, retry counter, records handed out, operators' copies, lease windows and created clients stay consistent |
| `ConnectionTheorems.RowShape` | services/telegram_connector/postgres_state.py:371-547 | a terminal state implies no owner, `active` implies an owner, and an owner exists exactly when an expiry does |
| `ConnectionTheorems.TerminalWins` | services/telegram_connector/postgres_state.py:440-547 | after a pause or archive no record handed out before can be saved, renewed or failed closed in any later run |
| `ConnectionTheorems.OrderlyRunGrows` | services/telegram_connector/postgres_state.py:371-547 | versions and fences never go back, and an archived row is never written again |
| `ConnectionTheorems.NoLostUpdate` | services/telegram_connector/postgres_state.py:407-547 | an accepted write overwrites exactly the row value its caller was handed |
| `ConnectionTheorems.LoopsOverwriteWhatTheyReceived` | services/telegram_connector/runtime/supervisor.py:124-288 | every write of a reconnect loop or monitor raises the version by one and replaces the record the loop last received |
| `ConnectionTheorems.RepositoriesAgree` | services/telegram_connector/runtime/connection.py:132-212 | on every record a supervisor holds, the dictionary and the SQL repository save, renew and fail closed alike |
| `ConnectionTheorems.LeaseWindowsDisjoint` | services/telegram_connector/runtime/connection.py:118-212 | lease windows of different fences never overlap over whole runs, and the row's lease is the last one |
| `ConnectionTheorems.RetriesAreBounded` | services/telegram_connector/runtime/supervisor.py:188-244 | the persisted retry counter is the number of failures persisted since the last `active` save, at most maxRetries plus one per operator resume |
| `ConnectionProgress.ResumesAreCounted` | apps/api/app/modules/telegram_connections/service.py:315-330 | what the retry bound allows for is exactly the number of resumes written since the last `active` |
| `ConnectionRetryTime.ClientBeforeRetryTime` | services/telegram_connector/runtime/supervisor.py:133-154 | a concrete orderly run in which an overtaken loop creates its client one second before the retry time the row then holds |
| `ConnectionRetryTime.OwnedClientsWait` | services/telegram_connector/runtime/supervisor.py:133-154 | over whole runs, if every client is created by a loop that owns its claim at that moment, none is created while the persisted retry time is in the future |
| `ConnectionRetryTime.EarlyClientsWereOvertaken` | services/telegram_connector/runtime/supervisor.py:133-154 | a client is early only if its loop had lost the claim to somebody who rewrote the row; it never precedes the retry time the loop itself received |
| `ConnectionRetryTime.LapsedClaimsCanBeEarly` | services/telegram_connector/runtime/supervisor.py:133-154 | from any state with a loop about to create its client and a row that a supervisor with a retry left can claim, some continuation makes the client early |
| `ConnectionTheorems.KeepsVersionExactly` | services/telegram_connector/postgres_state.py:349-369 | a step takes the version back exactly when a save lands on an unleased row of another version than the one it was made from |
| `ConnectionTheorems.OrderlyRunsExactly` | services/telegram_connector/postgres_state.py:349-369 | the same over whole runs: versions never go back if and only if every save passes the guard |
| `ConnectionTheorems.StaleResumeRevivesArchived` | apps/api/app/modules/telegram_connections/service.py:315-330 | a concrete run in which a resume undoes an archive that came between its read and its save |
| `ConnectionTheorems.ReimportRevivesArchived` | apps/api/app/modules/telegram_connections/tdata_handoff.py:82-92 | a concrete run in which a repeated import revives an archived account at version zero |
| `ConnectionTheorems.ReimportRevivesStaleClaim` | apps/api/app/modules/telegram_connections/tdata_handoff.py:82-92 | a concrete run in which, after a repeated import, the claim a supervisor held before a pause is renewed |
| `ReconnectLoop.RunLoop` | services/telegram_connector/runtime/supervisor.py:124-254 | the loop over its repository does, returns and stores what `LoopOf` says, whose history `HistoryIsDetermined` fixes entry by entry |
| `ReconnectHistory.HistoryIsDetermined` | services/telegram_connector/runtime/supervisor.py:124-254 | in every world each entry of the loop's history fixes the next: renewal, wait for a pending retry time, attempt, the save of the attempt's outcome at its end exactly if the lease outlives it, the wait that the save announces, and the next turn |
| `ReconnectHistory.SavesWriteTheOutcome` | services/telegram_connector/runtime/supervisor.py:142-151 | what each save writes, field by field, from the row before and the attempt: `reauth_required` and `authorization_lost`; `blocked` and `account_blocked`; `active` with proxy ip and latency; `limited` or `quarantine` with the retry time; `retry_exhausted`; and `proxy_unavailable` exactly when the proxy is down |
| `ReconnectHistory.LoopBeginsExactly` | services/telegram_connector/runtime/supervisor.py:127-132 | the loop does anything exactly if it holds a live claim on a row in no terminal state |
| `ReconnectHistory.BackoffDoubles` | services/telegram_connector/runtime/supervisor.py:224-225 | the delays start at one second, double, and never exceed the ceiling |
| `ConnectionProgress.LoopIsARun` | services/telegram_connector/runtime/supervisor.py:124-254 | the loop as it executes, in any world, is a run of the concurrent system: same row, and in its monitor exactly if it persisted `active` last |
| `ReconnectLoop.LoopFollows` | services/telegram_connector/runtime/supervisor.py:124-254 | whatever the world does, the history follows from the row the loop took: the clock goes on, attempts are made with the persisted row and not before its retry time, each backoff belongs to the counter just persisted, and the last row and instant are those left |
| `ReconnectLoop.NoAttemptBeforeRetryTime` | services/telegram_connector/runtime/supervisor.py:133-154 | no attempt of the loop is made while the retry time in the persisted row is in the future |
| `ReconnectLoop.LoopTotals` | services/telegram_connector/runtime/supervisor.py:124-254 | for m the maximum of retries: at most the remaining number of attempts, at most one wait for a retry time found in the row, and backoff of at most 2^(m-1) - 1 seconds and at most m - 1 ceilings |
| `ReconnectLoop.Round` | services/telegram_connector/runtime/supervisor.py:138-244 | one round over the repository: proxy, ownership checks, attempt, persisted outcome and delay, as `RoundOf` says; `SavesWriteTheOutcome` says which outcome |
| `ReconnectLoop.BackoffSumBound` | services/telegram_connector/runtime/supervisor.py:223-244 | n delays total at most 2^n - 1 seconds and at most n times the ceiling |
| `ProxyAllocator.CapacityAndDefaults` | services/telegram_connector/postgres_state.py:677-936 | over every serialization, assignments never exceed a proxy's current capacity and each scope has at most one default |
| `ProxyAllocator.ReservationIsStoredAndVisible` | services/telegram_connector/postgres_state.py:802-899 | a reservation is the stored assignment, on a proxy of the account's own organization or a global one; a refusal changes nothing; which proxy it is, `ReservesTheProxyToUse` says |
| `ProxyAllocator.ReservesTheProxyToUse` | services/telegram_connector/postgres_state.py:802-899 | in every reachable state the reservation is on the proxy to use: a visible override, else the organization's own default, else the global one; what is held under the present revision is handed back, else the capacity decides; the account's assignment alone is replaced, under a fresh id |
| `ProxyAllocator.OneProxyToUse` | services/telegram_connector/postgres_state.py:812-830 | in every reachable state at most one proxy is the one to use |
| `ProxyAllocator.ReservesNothingElse` | services/telegram_connector/postgres_state.py:802-850 | without a proxy to use, as with an override that is not visible, nothing is reserved |
| `ProxyAllocator.CleanupUndoesTheReservation` | services/telegram_connector/postgres_state.py:901-936 | a failed start gives up exactly a new reservation without override; a terminal account gives up its assignment exactly if it has no override |
| `ProxyAllocator.CleanupRemovesOnlyItsOwn` | services/telegram_connector/postgres_state.py:901-922 | a failed start, cleaned up however late, removes only the assignment it created, and nothing once an override intervened |
| `ProxyRepositories.SqlAlchemyProxyAssignmentRepository.PutProxy` | services/telegram_connector/postgres_state.py:677-719 | storing a proxy keeps capacity and the single default, or refuses |
| `ProxyRepositories.SqlAlchemyProxyAssignmentRepository.SetAccountOverride` | services/telegram_connector/postgres_state.py:721-762 | only a visible proxy can be chosen, and every change moves the revision on |
| `ProxyRepositories.SqlAlchemyProxyAssignmentRepository.ReserveAssignment` | services/telegram_connector/postgres_state.py:802-899 | the reservation in the database is `Reserve`, of which `ReservesTheProxyToUse` says what it does |
| `ProxyRepositories.SqlAlchemyProxyAssignmentRepository.ReleaseFailedReservation` | services/telegram_connector/postgres_state.py:901-922 | the compare-and-delete clean-up |
| `ProxyRepositories.InMemoryProxyAssignmentRepository.SetAccountOverride` | services/telegram_connector/proxies.py:192-201 | the revision moves on even when the proxy is unknown and the call fails |
| `ProxyRepositories.InMemoryProxyAssignmentRepository.ReserveAssignment` | services/telegram_connector/proxies.py:203-221 | the dictionary form's reservation, which keeps an assignment to the same proxy whatever the revision, within capacity |
| `ProxyRepositories.InMemoryProxyAssignmentRepository.ReleaseFailedReservation` | services/telegram_connector/proxies.py:223-231 | the dictionary form's clean-up keeps its invariant |
| `ChallengeStore.ChallengeBook.PruneLocked` | services/telegram_connector/adapters/phone.py:168-176 | the two pruning loops compute the pruned store |
| `ChallengeStore.ChallengeBook.CreateChallenge` | services/telegram_connector/adapters/phone.py:63-86 | creation prunes, appends and evicts from the old end |
| `ChallengeStore.ChallengeBook.ClaimChallenge` | services/telegram_connector/adapters/phone.py:91-113 | only the owner of a live challenge in the expected state claims it |
| `ChallengeStore.ChallengeBook.FinishChallenge` | services/telegram_connector/adapters/phone.py:115-133 | the deadline is checked again when the client has answered |
| `ChallengeInvariant.PruneKeeps` | services/telegram_connector/adapters/phone.py:168-182 | pruning removes exactly the challenges whose deadline has passed, and keeps ids distinct and the two maps disjoint |
| `ChallengeInvariant.CreateKeeps` | services/telegram_connector/adapters/phone.py:63-86 | after a creation the new challenge is stored, the bound holds, and everything else was there and live |
| `ChallengeInvariant.CreateEvictsEarliest` | services/telegram_connector/adapters/phone.py:79-85 | whatever a creation evicted expires no later than whatever stays |
| `ChallengeSafety.RunKeepsInv` | services/telegram_connector/adapters/phone.py:63-302 | the invariant of all phone and QR flows over one store; where each call gets to is the subject of `ChallengeProgress` |
| `ChallengeProgress.SignInCall` | services/telegram_connector/adapters/phone.py:259-283 | an undisturbed sign-in or QR wait on a live challenge, for every answer: authorized for the identity; waiting for the password; expired QR code; QR code to try again; or failed and its client given up; other challenges stay |
| `ChallengeProgress.TwoFactorSignIn` | services/telegram_connector/adapters/phone.py:259-302 | code, password, export: the challenge becomes `needs_2fa`, then authorized, and the export hands out the accepted user once |
| `ChallengeProgress.ConsumeCall` | services/telegram_connector/adapters/phone.py:285-302 | an export of an authorized challenge hands out a session exactly if it is not empty, for the accepted identity, and fails the challenge whatever the answer |
| `ChallengeProgress.ConfirmCall` | services/telegram_connector/adapters/phone.py:240-257 | the end of `start`: `code_sent`, or failed and its client given up |
| `ChallengeProgress.RefusedClaimsChangeNothing` | services/telegram_connector/adapters/phone.py:91-113 | a claim by another owner, in another state or after the deadline starts nothing; the challenge stays or, overdue, is dropped |
| `ChallengeProgress.LateAnswerIsLost` | services/telegram_connector/adapters/phone.py:115-126 | an answer after the deadline accepts nothing; the challenge is remembered as expired |
| `ChallengeProgress.NewChallengeIsStored` | services/telegram_connector/adapters/phone.py:63-86 | a new challenge is stored for its creator with its client and its deadline |
| `ChallengeProgress.StatusShowsOwner` | services/telegram_connector/adapters/phone.py:152-166 | the owner of a live challenge sees its state and deadline, anybody else a failure |
| `ChallengeProgress.StatusShowsExpired` | services/telegram_connector/adapters/phone.py:157-161 | for one more lifetime a remembered challenge shows as expired to its owner only |
| `ChallengeProgress.StrangersLearnNothing` | services/telegram_connector/adapters/phone.py:91-166 | in every reachable state, every status and claim by anyone but the creator answers `failed`, whatever became of the challenge |
| `ChallengeSafety.CallsNeverOverlap` | services/telegram_connector/adapters/phone.py:259-302 | client calls under a claim never overlap for one challenge |
| `ChallengeSafety.SessionsAreOneShot` | services/telegram_connector/adapters/qr.py:95-112 | a session is handed out at most once per challenge, only to its creating owner, only after an identity was accepted before the deadline, and for that identity |
| `ChallengeSafety.ConsumersAreNeverStuck` | services/telegram_connector/adapters/phone.py:285-302 | a claim for consumption always finds its user and its client |
| `ChallengeSafety.MapsAreBounded` | services/telegram_connector/adapters/phone.py:63-182 | active and expired challenges are disjoint and within capacity, and the oldest active one expires first |
| `ChallengeSafety.EvictionTakesEarliest` | services/telegram_connector/adapters/phone.py:79-85 | in every reachable state eviction removes only challenges that expire no later than any that stay |
| `TdataCipher.AesIgeDecrypt` | services/telegram_connector/importers/tdata/parser.py:210-222 | the chaining loop computes IGE decryption |
| `TdataCipher.IgeDecryptsEncryption` | services/telegram_connector/importers/tdata/parser.py:210-222 | decryption undoes encryption for every block-aligned text, chaining value and lawful cipher |
| `TdataCipher.IgeEncryptsDecryption` | services/telegram_connector/importers/tdata/parser.py:210-222 | encryption undoes decryption, likewise |
| `TdataCipher.DescriptorRoundTrip` | services/telegram_connector/importers/tdata/parser.py:181-207 | what a writer with its own key schedule, envelope and chaining sealed for an authorization key is read back from the descriptor |
| `TdataCipher.SchedulesAgree` | services/telegram_connector/importers/tdata/parser.py:195-207 | the reader derives the AES key and vector that the writer's own schedule uses |
| `TdataCipher.OnlyTheseBytesCount` | services/telegram_connector/importers/tdata/parser.py:195-207 | two keys that agree on bytes 8 to 135 derive the same, whatever the hashes |
| `TdataCipher.EveryByteCounts` | services/telegram_connector/importers/tdata/parser.py:195-207 | each of bytes 8 to 135 counts: for some lawful primitives another value of it derives something else, for every key and message key |
| `TdataCipher.PasscodeRejectedExactly` | services/telegram_connector/importers/tdata/parser.py:181-192 | a whole number of blocks is rejected as a wrong passcode exactly when nothing could have been sealed as it under the key; anything else is malformed |
| `TdataBytes.XorBytesDigits` | services/telegram_connector/importers/tdata/parser.py:217-219 | the exclusive or, digit by digit |
| `TdataCipher.DescriptorImage` | services/telegram_connector/importers/tdata/parser.py:181-207 | an accepted descriptor is the sealing of some aligned plaintext under that key |
| `TdataParser.ReadQByteArrays` | services/telegram_connector/importers/tdata/parser.py:93-107 | the offset loop reads exactly the given number of arrays and nothing is left over |
| `TdataParser.ReadActiveAccountIndex` | services/telegram_connector/importers/tdata/parser.py:117-132 | the offset loop selects the active account |
| `TdataParser.ReadAuthorization` | services/telegram_connector/importers/tdata/parser.py:140-166 | the reader by offsets, narrow or wide, equals the front-to-back reader |
| `TdataParser.ReadKeys` | services/telegram_connector/importers/tdata/parser.py:151-159 | the loop over the key list finds the last key of the data centre and the offset after the list |
| `TdataParser.ReadTdfFirst` | services/telegram_connector/importers/tdata/parser.py:84-90 | the suffix loop: the first intact copy, a missing copy ending the search |
| `TdataParser.ParseTdata` | services/telegram_connector/importers/tdata/parser.py:42-67 | the whole reader, which never fails but by the two errors of the source (and a length overflow); what it reads, `ParseReadsWhatDesktopWrote` says against an independent writer |
| `TdataRoundTrip.AuthorizationReadBack` | services/telegram_connector/importers/tdata/parser.py:140-166 | a serialized authorization reads back to its user, data centre and last key for it, in both layouts |
| `TdataRoundTrip.AuthorizationAcceptsExactlyImages` | services/telegram_connector/importers/tdata/parser.py:140-166 | the reader accepts exactly the images of the serializer |
| `TdataRoundTrip.LastKeyIsLast` | services/telegram_connector/importers/tdata/parser.py:152-158 | the key returned is that of the last entry for the data centre |
| `TdataEndToEnd.ParseReadsWhatDesktopWrote` | services/telegram_connector/importers/tdata/parser.py:42-222 | end to end against a writer with its own key schedule, iteration counts, checksum, magic and file names: for every salt, passcode, local key, account list and key list, parsing the written files returns exactly what was written |
| `TdataEndToEnd.WrongPasscodeIsReported` | services/telegram_connector/importers/tdata/parser.py:42-67 | under a passcode whose key opens nothing, parsing says that the passcode is wrong, not that the data are malformed |
| `TdataEndToEnd.ContainersAreReadExactly` | services/telegram_connector/importers/tdata/parser.py:70-81 | a container is accepted exactly if the writer writes it for a payload that is not empty; missing files and overlong payloads are the only other errors than a rejection |
| `TdataEndToEnd.PasscodeBlamedExactly` | services/telegram_connector/importers/tdata/parser.py:42-54 | the passcode is blamed exactly when the local key or the account list was sealed under another key; missing parts are malformed data |
| `TdataEndToEnd.AccountDataBlamedExactly` | services/telegram_connector/importers/tdata/parser.py:55-62 | the same for the account's own data |
| `TdataEndToEnd.MissingFilesAreRejected` | services/telegram_connector/importers/tdata/parser.py:42-67 | a missing key or account file is one rejection like any other |
| `TdataEndToEnd.RejectedCopiesAreSkipped` | services/telegram_connector/importers/tdata/parser.py:84-90 | a rejected copy makes way for the next, in the order "s", "1", "0" |
| `TdataEndToEnd.EveryDesktopCanBeWritten` | services/telegram_connector/importers/tdata/parser.py:135-137 | for every installation there are files as the end-to-end theorem asks for: the key file's and the account file's names never clash |
| `TdataEndToEnd.QByteArraysReadBack` | services/telegram_connector/importers/tdata/parser.py:93-107 | written arrays are read back |
| `TdataEndToEnd.AcceptedContainersAreWritten` | services/telegram_connector/importers/tdata/parser.py:70-81 | an accepted container is byte for byte the writing of its payload under some version |
| `TdataEndToEnd.MissingFirstCopyEndsSearch` | services/telegram_connector/importers/tdata/parser.py:84-90 | a missing first copy is a file error even when an older copy is intact |
| `Provisioning.TelegramAccounts.Put` | services/telegram_connector/postgres_state.py:171-190 | an account is created without identity or moved to an organization; identities stay unique |
| `Provisioning.TelegramAccounts.Provision` | services/telegram_connector/postgres_state.py:192-221 | the two attempts: an existing or racing account is returned to its own organization only, and a lost race never ends in the final error |
| `Provisioning.NewIdentityIsProvisioned` | services/telegram_connector/postgres_state.py:192-215 | an undisturbed call for an unknown identity makes its account under the drawn id in the caller's organization; a used id costs the first attempt |
| `Provisioning.KnownIdentityIsReturned` | services/telegram_connector/postgres_state.py:194-205 | an undisturbed call for a known identity returns its account to its own organization only and writes nothing; a number that is not positive is refused |
| `Provisioning.LostRaceReadsTheWinner` | services/telegram_connector/postgres_state.py:198-221 | after a lost insert the second attempt reads the winner's account; the final error is exactly a second collision of drawn ids |
| `Provisioning.OneAccountPerIdentity` | services/telegram_connector/postgres_state.py:192-221 | whoever returned for one Telegram identity, in any interleaving with any moves, returned the same account |
| `Provisioning.LostRacesResolve` | services/telegram_connector/postgres_state.py:198-221 | if drawn account ids are new, no caller ever exhausts its attempts |
| `Provisioning.ConcurrentProvisionersAgree` | services/telegram_connector/postgres_state.py:192-221 | concurrent provisioners of one identity in one organization are never refused and all get the account, which belongs to it |
| `PolicyHistory.ApprovalHistory.PolicyGrantAiApproval` | apps/api/app/db/migrations/versions/0001_policy_gate.py:156-215 | the grant, statement by statement, with roll-back |
| `PolicyHistory.ApprovalHistory.PolicyRevokeAiApproval` | apps/api/app/db/migrations/versions/0001_policy_gate.py:220-282 | the revocation, statement by statement, with roll-back |
| `PolicyHistory.EveryChangeIsAuditedOnce` | apps/api/app/db/migrations/versions/0001_policy_gate.py:156-282 | over all runs each approval has exactly one `created` event, and one `revoked` event exactly when it is revoked, with the same actor and time |
| `PolicyHistory.RunKeepsInv` | apps/api/app/db/migrations/versions/0001_policy_gate.py:114-282 | nothing written is ever changed or removed, and the history stays audited |
| `PolicyHistory.RevocationIsIdempotent` | apps/api/app/db/migrations/versions/0001_policy_gate.py:245-280 | a second revocation, any time later and by anyone, writes nothing and reports the first one |
| `PolicyHistory.RevocationReportedExactly` | apps/api/app/modules/policy/repository.py:243-262 | a first revocation is always stored, and reported as stored exactly when it is not dated before its approval |
| `PolicyHistory.UnreportedRevocation` | apps/api/app/modules/policy/repository.py:243-262 | a concrete history and time at which a revocation is stored and reported as unavailable |
| `PolicyHistory.GrantReadsBack` | apps/api/app/modules/policy/repository.py:194-241 | exactly which grants succeed, and that one reads back as requested through the stored arrays |
| `PolicyGate.FilterAndCheckAgree` | apps/api/app/modules/policy/service.py:285-300 | the query's filter and the service's check are the same condition on every stored record |
| `PolicyGate.FindMatching` | apps/api/app/modules/policy/repository.py:151-192 | the query returns some selected record, or none when none is selected |
| `PolicyGate.Evaluate` | apps/api/app/modules/policy/service.py:232-300 | a trusted Telegram context is allowed exactly when the repository works and some recorded, current, unexpired, unrevoked approval covers every dimension; and exactly when each reason is given |
| `PolicyGate.GrantAllowsExactly` | apps/api/app/modules/policy/repository.py:151-241 | a granted approval is selected exactly for the requested organization, channels, categories, operations and terms, from the grant until its expiry |
| `PolicyGate.RevokedNeverAllows` | apps/api/app/modules/policy/repository.py:172-192 | a revoked approval allows nothing in any later history, at any time, under any terms |
| `PolicyGate.UnrevokedStillAllows` | apps/api/app/modules/policy/repository.py:172-192 | what an approval allows at a time is lost only by its revocation |
| `TrelloNotes.NotesReadBackExactly` | tools/trello/sync_board.py:101-116 | notes are read back from a generated description exactly when its header holds no marker |
| `TrelloNotes.RefreshIsFixpointExactly` | tools/trello/sync_board.py:113-116 | refreshing is a fixpoint on its own output, and keeps the notes, exactly when the header holds no marker |
| `TrelloNotes.PlainFieldsGiveCleanHeaders` | tools/trello/sync_board.py:101-110 | fields without a number sign give headers without a marker |
| `TrelloNotes.DescriptionShowsFields` | tools/trello/sync_board.py:101-110 | a card of one-line fields shows status, goal, next step if there is one and plan each on a line of its own under its label, then the notes |
| `TrelloNotes.NameCarriesCodeExactly` | tools/trello/sync_board.py:179-183 | a generated card name carries its code exactly when the code holds no separator |
| `TrelloSync.ExistingIsLookup` | tools/trello/sync_board.py:179 | the dictionary of existing cards holds the last open card of each code |
| `TrelloSync.SyncCardsRefreshes` | tools/trello/sync_board.py:181-204 | every card of the roadmap is on the board afterwards with a refreshed description |
| `TrelloSync.ArchiveCounts` | tools/trello/sync_board.py:206-213 | archiving closes exactly one open list of each legacy name that has one, and no other |
| `TrelloSynchronizer.Synchronizer.UpdateCards` | tools/trello/sync_board.py:175-204 | the loop over a snapshot of the cards does what looking at the current board would do |
| `TrelloSynchronizer.Synchronizer.SyncBoard` | tools/trello/sync_board.py:150-162 | the whole synchronization and its four counters |
| `TrelloSynchronizer.ListsAfterSync` | tools/trello/sync_board.py:150-213 | name by name, how many open lists there are afterwards |
| `TrelloSynchronizer.CardsAfterSync` | tools/trello/sync_board.py:175-204 | cards keep everything but generated headers: place, name, list, completion mark and notes |
| `TrelloSynchronizer.NewCardsAreFiled` | tools/trello/sync_board.py:181-195 | every card that a synchronization adds is that of a roadmap entry whose code no open card had, lies in an open list of the entry's name, and is complete exactly when the entry is done |
| `TrelloSynchronizer.SecondSyncExactly` | tools/trello/sync_board.py:150-213 | from any board a second synchronization creates nothing, updates nothing exactly when the headers are clean, archives nothing exactly when no legacy name had two open lists, and then changes nothing |
| `TrelloRoadmap.RoadmapIsGood` | tools/trello/sync_board.py:66-98 | the repository's own 36 cards have distinct codes without separators, known lists and headers without the marker |
| `TrelloRoadmap.SecondSyncOfThisRoadmap` | tools/trello/sync_board.py:79-213 | so for this roadmap a second synchronization creates and updates nothing, from any board |

## Left out

- GatewaySafety.Agreement: the row's `fence_token` is unbounded here, a 32-bit column in the database.
- DeliveryMemory.InMemoryMessageDeliveryRepository.Reserve: `asyncio` locks and events are modelled by their state only; a waiting call just tries again.
- DeliveryRefinement.SqlRefinesMemory: starts from stores that match; loading persisted rows into a new dictionary repository, which turns pending into uncertain, has no SQL counterpart and is stated by that class's constructor alone.
- GatewaySystem.StepsAreRepositoryCalls: `TelegramGatewayError("timeout")` is mapped to `telegram_unknown` by the handler around the send, and so it is here; the compatibility registry, body vault and inbound envelopes are not modelled.
- SenderTiming.PunctualSenderIsNeverOvertaken: assumes that wake-ups are at most one renewal period late and that the other calls are rivals; nothing in the source bounds lateness, and `GatewayRivals.OthersAreRivals` shows the second.
- ConnectionTheorems.TerminalWins: holds for orderly runs, the ones in which versions never go back; the source does not enforce this, and the three counterexamples show what happens otherwise.
- ConnectionRetryTime.OwnedClientsWait: needs the claim to be owned when the client is created, which the source does not check at that moment.
- ReconnectLoop.RunLoop: the doubling is exact, where the source's floating-point power overflows beyond about a thousand retries; the loop runs alone on its repository and is not cancelled, interleavings and cancellation being the subject of `ConnectionSystem`.
- ReconnectLoop.BackoffSumBound: flood waits are not backoff and are bounded only by `max_retry_after`.
- The supervisor's per-process dictionaries of tasks, clients and locks, client disconnection and the heartbeat's schedule.
- The session foreign-key check when a connection is stored, and the validation of records on the way in.
- ProxyRepositories.InMemoryProxyAssignmentRepository.ReserveAssignment: no refinement between the two proxy repositories is claimed, because they differ when the same proxy is reserved again after a revision change.
- Freedom from leaked proxy reservations: a supervisor that loses its claim drops the client without releasing.
- Proxy endpoints, credentials and health checks; sorting the visible proxies for display.
- ChallengeFlows: the QR background waiters and their cancellation, challenge secrets and QR links; a flow that never answers stands for a cancelled one.
- TdataCipher.IgeDecryptsEncryption: AES, MD5, SHA and PBKDF2 are parameters.
- TdataEndToEnd.ParseReadsWhatDesktopWrote: requires the key file's payload length to fit in the four bytes of its container; directory snapshots, symbolic links and quarantine are not modelled.
- Provisioning.LostRacesResolve: needs drawn account ids to be unused; two collisions of random ids would exhaust the attempts.
- PolicyGate.Evaluate: the registries of issued context and owner objects are a parameter saying what they resolve to; evidence links and the format of terms revisions are validated before they are stored and not modelled.
- TrelloSync: HTTP, board resolution and malformed answers.
- TrelloSynchronizer.SecondSyncExactly: assumes that a new list or card is listed last, that places are stable, and that cards of an archived list stay listed. On a board that stops listing them this fails: a roadmap card whose only open card lay in a list that the first synchronization archived is created anew by the second.
- The FastAPI routes, settings, web client, login and TOTP, setup invitations, tdata tickets, outbox metadata and redaction are not modelled.

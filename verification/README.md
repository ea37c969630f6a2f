# HateSentry workflow model

A Dafny model of the stateful parts of HateSentry: the moderation store and the protocols that run over it, and the
smaller stateful components around them. Each row of the table below names a member whose contract is checked by the
Dafny verifier; the main results are theorems about all inputs, all interleavings or all runs of the model.

How the model is built:

- Code that updates state in place is a class whose methods carry loops and assignments as the code does; each method
  is proved against a specification function or predicate on the old and new state.
- Code that several workers, processes or asynchronous continuations run at once is a machine of labelled steps
  (`Enabled`, `Apply`, `Run`). A step is what the original does atomically: one SQL statement or transaction, one Redis
  script, one locked section, one stretch of browser code between two awaits. Theorems hold for every sequence of
  enabled steps. The machines use the same specification functions as the classes.
- Times are integers in milliseconds. What comes from outside (AI decisions, webhook responses, random ids and keys,
  clocks) is a parameter of the step that uses it.

The files:

- `Deliveries`, `RetryProtocol`, `RetryBatch`, `RetryFairness`: webhook delivery rows, the two-minute lease under which
  automatic and manual retriers claim them, the batch loop with other workers acting between its statements, and the
  proof that stretches of `RetryProtocol` runs are what the waiting bound of `RetryBatch` asks for.
- `ModerationTypes`, `IdempotencyKey`, `ModerationStore`, `ServiceInputs`, `CheckProtocol`, `CheckService`,
  `ReviewStats`, `Notifications`: checks, reviews, statistics and final-decision callbacks over the moderation tables.
  `CheckService` holds the service methods; a ghost trace ties every store call they make to one step of
  `CheckProtocol`.
- `Callbacks`: both machines over one delivery table, from the first attempt of a callback to its last retry, with
  everything sent on record.
- `ReviewPages`, `ReviewHistory`: keyset pagination of completed reviews on the server, and the panel that chains pages
  while responses arrive in any order.
- `RateLimit`, `Bootstrap`, `ClientKeys`, `ClientConsole`, `Forwarder`, `Policies`, `EnvFile`, `Text`, `Results`: the
  fixed-window limiter, first-administrator registration, API keys and webhook pairs, one-time credentials in the
  client panel, the log forwarder, the policy registry, the release environment file, and shared helpers.

What the proofs show beyond what the code says:

- The lease protects outcome writes exactly when the time from reading the claim time to starting the write context,
  plus the 5 s write timeout, plus twice the clock skew between workers, fits in the two minutes
  (`ExclusiveExactlyWhenDelayFits`). The code bounds the write but not that first stretch; past the bound a late write
  can turn `succeeded` into `failed` (`LateWriteOverwritesSuccess`). Attempt counts, the cap on automatic retries and
  the message of a delivery survive even then.
- A client gets at most `2 * limit - 1` requests in any interval no longer than the window, one less than two full
  quotas, and that many can happen within one millisecond. Redis still counts in the millisecond in which a key expires,
  so a client that waits out Retry-After to the millisecond is refused once more exactly when the time left was a whole
  number of seconds. A window below one second would never limit anybody; `internal/config/config.go` refuses such
  windows.
- With a blank bootstrap token nobody can ever register.
- Appending ` #comment` to a value in the environment file leaves it unchanged exactly when the value is not blank and
  the comment holds no `$` and no backslash: `KEY= #comment` loads as `#comment`, and a `$` is refused even inside a
  comment.
- A policy listed under a version with surrounding white space cannot be looked up under it; `NewPolicy` never makes one.
- In the client panel the sequence check at the end of an operation always passes, because a busy client takes no
  second operation.

## Model

| member | source | states |
|---|---|---|
| Deliveries.DeliveryStore.ListRetryable | internal/moderation/repository.go:327-355 | the result is the oldest retryable rows, oldest first, at most `limit`, and any retryable row left out is no older than all those listed |
| Deliveries.DeliveryStore.Claim | internal/moderation/repository.go:358-407 | a claim succeeds exactly on a claimable row, changes that row only, and tells a missing row from a conflict |
| Deliveries.DeliveryStore.UpdateAttempt | internal/moderation/repository.go:410-455 | the outcome replaces status, time and error of the row whoever claimed it, and leaves the attempt count alone |
| Deliveries.ClaimHoldsForALease | internal/moderation/repository.go:368-389 | after a claim the row can be claimed again exactly when a lease has passed and attempts are left; the last attempt's traces are cleared |
| RetryProtocol.NoAttemptIsLost | internal/moderation/repository.go:378-446 | in every interleaving attempt_count is one plus the committed claims, automatic claims stay below the cap, rows keep their message, every send is the inserted message, and success needs a send |
| RetryProtocol.AutomaticRetriesStop | internal/moderation/service.go:1647-1653 | automatic claims of a whole run are at most (maxAttempts - 1) times the rows, however manual retries interleave |
| RetryProtocol.RunKeepsCounts | internal/moderation/repository.go:423-446 | the row lock keeps the row unchanged between read and save, so whole-row saves lose no claim |
| RetryProtocol.SettledRowsShowTheirLastAttempt | internal/moderation/service.go:1201-1236 | in every run a row nobody is retrying shows how its last recorded attempt ended: succeeded exactly when delivered, else failed with the answer's HTTP status and the error |
| RetryProtocol.LeaseIsExclusive | internal/moderation/service.go:1171-1210 | when the delay fits the lease, one claim at most per row can still write its outcome, and no step leaves succeeded |
| RetryProtocol.LateWriteOverwritesSuccess | internal/moderation/service.go:1171-1178 | when the delay does not fit, some run ends with a failed row whose success was overwritten by an older claim |
| RetryProtocol.ExclusiveExactlyWhenDelayFits | internal/moderation/repository.go:357-455 | all outcome writes of all runs land on the claim that produced them if and only if delay + 5 s + 2 * skew is at most the lease |
| Callbacks.RetryRefinesService | internal/moderation/repository.go:357-455 | each step of a retrier is a claim or a saved outcome of the service's delivery table, or leaves it alone, because the saved row is the locked one |
| Callbacks.RunRefinesBoth | internal/moderation/repository.go:264-455 | every joint run is a run of the service and a run of the retriers over one table, so the theorems of both hold of it |
| Callbacks.EveryCallbackIsFaithful | internal/moderation/service.go:1164-1342 | every callback ever sent, first attempt or retry, tells what the tables say of its request: client and external id of the request row, and the policy's decision without a review status, or the reviewer's with the status of the case; one request has one delivery id and one payload, which is the stored delivery's, and no other request has that id |
| Callbacks.SucceededWasSent | internal/moderation/service.go:1201-1210 | in every run a delivery marked succeeded was sent, by the first attempt or a retry, with the stored payload under the stored id |
| Callbacks.NothingIsSentWhilePending | internal/moderation/service.go:513-518 | no callback is sent for a request while its review is pending |
| RetryBatch.RetryService.RetryFailed | internal/moderation/service.go:1089-1162 | bad limits and caps are refused without touching the table; otherwise the listed rows are retried in order; BatchCountsItsTurns says what the counts count |
| RetryBatch.RetryService.RetryDelivery | internal/moderation/service.go:1164-1236 | one delivery's turn between the doings of others; TurnShowsItsDispatch says what it leaves in the row and what it returns |
| RetryBatch.TurnShowsItsDispatch | internal/moderation/service.go:1164-1236 | a write that lands leaves the row succeeded exactly when the message was delivered, else failed with the HTTP status and the error of that ending; a conflict is reported exactly when the row is there and not free; success is returned exactly for a delivered and recorded message |
| RetryBatch.BatchCountsItsTurns | internal/moderation/service.go:1125-1155 | succeeded counts the turns whose row was claimed, delivered and recorded so, skipped those whose row was there and no longer free, failed all others |
| RetryBatch.BatchAccounts | internal/moderation/service.go:1125-1155 | attempted is succeeded plus failed, and attempted plus skipped is the number of rows listed |
| RetryBatch.QuietBatchSkipsNothing | internal/moderation/repository.go:338-380 | with no interference every listed row is still claimable at its turn, at any later clock value |
| RetryBatch.WaitingShrinksAhead | internal/moderation/repository.go:338-349 | while a due row waits, each batch removes `limit` rows from those ahead of it and nothing new gets ahead |
| RetryBatch.DueDeliveryIsTakenUpSoon | internal/moderation/service.go:1113-1155 | a row due at every listing, failed or with an expired lease, with k rows no newer than it, is claimed again or settled by its late worker within k / limit + 1 batches, under any interference with forward clocks |
| RetryBatch.FailedDeliveryIsClaimedSoon | internal/moderation/service.go:1113-1155 | a failed row below the cap is claimed again within that many batches |
| RetryBatch.DeadRetryIsTakenUpSoon | internal/moderation/repository.go:342-347 | a row a dead worker left retrying is claimed again or settled within that many batches once its lease has expired |
| RetryFairness.LandingWriteIsFair | internal/moderation/repository.go:423-446 | when the delay fits the lease, a write that lands replaces the row as it stands, and that row is still being retried |
| RetryFairness.StretchIsFair | internal/moderation/repository.go:357-455 | any stretch of a run of retriers is a fair sequence of interference for the waiting bound, with the same table at its end |
| RetryFairness.TurnIsFair | internal/moderation/service.go:1164-1216 | a batch turn inside such a run is a fair turn, leaves the table as the run does, and when it records a delivery the message was sent |
| IdempotencyKey.DecimalReadsBack | internal/moderation/service.go:1770-1776 | decimal digits read back as the number they print, and contain no colon |
| IdempotencyKey.KeyInjective | internal/moderation/service.go:1770-1776 | two (client, external id) pairs with the same key are the same pair |
| ModerationStore.Store.Save | internal/moderation/repository.go:29-65 | request, result and pending case are inserted together, or nothing changes when a unique index objects |
| ModerationStore.Store.Find | internal/moderation/repository.go:145-185 | the scans for request, result and review case find the newest match of each, or nothing is returned |
| ModerationStore.Store.Finalize | internal/moderation/repository.go:591-645 | a pending case is finalized once with reviewer, decision, notes and time, every other row staying as it is; a missing or finalized case is an error and changes nothing |
| ModerationStore.Store.GetStats | internal/moderation/repository.go:458-501 | one pass over each table yields the aggregate counts of the snapshot |
| CheckProtocol.FindIsComplete | internal/moderation/repository.go:154-184 | the lookup finds a pair's row together with that row's own result whenever the row exists |
| CheckProtocol.FindBringsTheCase | internal/moderation/repository.go:145-185 | the lookup brings the request's own review case exactly when the policy asked for review |
| CheckProtocol.ConflictMeansSamePair | internal/moderation/service.go:491-512 | a duplicate-key error means a row of the very same pair is stored, so the second lookup succeeds |
| CheckProtocol.RunKeepsAnswers | internal/moderation/service.go:415-512 | in every run the tables stay consistent and every answer is the stored row of its pair |
| CheckProtocol.ChecksAreIdempotent | internal/moderation/service.go:415-511 | one request row per pair, all answers for a pair name the same request and decision, and no check ends in a conflict, for every interleaving |
| CheckProtocol.RepeatIsAnsweredAtOnce | internal/moderation/service.go:415-430 | in every reachable state a repeated check is answered from the stored row at once, and any other is analyzed |
| CheckService.Service.Check | internal/moderation/service.go:402-534 | a bad input is refused before anything happens; otherwise, with other workers acting between its store calls, a check ends with an answer the protocol records, or fails only for want of a decision or for an error of the store |
| CheckService.Service.SaveChecked | internal/moderation/service.go:491-519 | from the save on a check answers, after a conflict with the row that caused it, unless the second lookup itself fails |
| CheckService.Service.FinalizeReviewCase | internal/moderation/service.go:858-909 | refuses a missing reviewer, a bad case id and overlong notes in this order, then what the store refuses, changing nothing; otherwise it is one finalize step followed by the announcement |
| CheckService.Service.ApproveReviewCase | internal/moderation/service.go:803-817 | a finalization as approved with the decision allow |
| CheckService.Service.RejectReviewCase | internal/moderation/service.go:820-834 | a finalization as rejected with the decision block |
| CheckService.Service.MarkReviewMistake | internal/moderation/service.go:837-856 | a finalization as mistake with the given decision, refused untouched when that is review |
| ServiceInputs.CaseIdReadsBack | internal/moderation/service.go:1489-1501 | every positive 64-bit id is parsed back from its decimal form |
| ServiceInputs.CaseIdsAcceptedExactlyWhen | internal/moderation/service.go:1489-1501 | a case id is accepted exactly when, trimmed, it is a positive 64-bit number in decimal behind any zeros |
| ServiceInputs.ChecksRefusedExactlyWhen | internal/moderation/service.go:1344-1381 | which checks are refused and for what, with the lengths in bytes and the order of the checks |
| ServiceInputs.ReviewsRefusedExactlyWhen | internal/moderation/service.go:866-880 | which reviews are refused before the store is asked, and for what |
| CheckService.Service.Dispatch | internal/moderation/service.go:1238-1342 | adds exactly one delivery, showing how the attempt ended, whose payload names the request's client and external id and carries the final decision and the review status; or changes no table when there is nobody to send to or the record fails |
| CheckService.AnswersAgree | internal/moderation/service.go:415-511 | two checks answered at any two moments of a run agree on request and decision when they are for one pair |
| ReviewStats.StatsAddUp | internal/moderation/service.go:967-1000 | allowed + blocked + pending is the total, reviewed is final allowed + final blocked, mistakes are at most reviewed and the rate is exactly their share, and delivery states add up, in every reachable state |
| ReviewStats.FinalizeMovesOne | internal/moderation/repository.go:591-645 | finalizing a case moves one text from pending to its final side and changes no other count |
| ReviewStats.CheckCountsOnce | internal/moderation/repository.go:457-501 | a saved check adds one text on the side of its decision, or pending when it needs review, and changes no other count |
| ReviewStats.DeliveryCountsOnce | internal/moderation/repository.go:836-842 | a stored delivery adds one to the total and to the count of its status only |
| ReviewStats.FinalizedCasesAreSettled | internal/moderation/repository.go:616-626 | a finalized case never changes again in any later state of the run |
| ReviewStats.FinalizedCasesNameTheirReviewer | internal/moderation/repository.go:616-626 | in every run a finalized case carries status, decision, reviewer, notes and time of one finalize step of that run on it |
| ReviewStats.PendingCasesAreBlank | internal/moderation/repository.go:29-65 | in every run a pending case names no reviewer and holds no notes |
| ReviewStats.StatusesMeanTheirDecisions | internal/moderation/service.go:803-856 | in every reachable state approved cases are allowed, rejected ones blocked, mistakes either, pending ones undecided |
| ReviewStats.RunTablesCanBePaged | internal/moderation/repository.go:591-645 | the case tables of any run satisfy what the paging theorems assume of tables over time |
| Notifications.OneFaithfulNotification | internal/moderation/service.go:1276-1320 | in every reachable state, retries included, each request has at most one delivery, none while its review is pending, and its payload tells what the tables say: client, external id, decision and review status |
| Notifications.FinalizeApplied | internal/moderation/service.go:884-906 | a successful finalization always finds its request and result, and what it announces is the human decision |
| Notifications.DeliveriesKeepTheirMessage | internal/moderation/repository.go:378-446 | claims and saved outcomes leave a stored delivery's payload, delivery id, request and client as they are for the rest of the run |
| ReviewPages.ReviewCaseReader.ListReviewCases | internal/moderation/repository.go:504-570 | with a limit the newest `limit` completed cases below the cursor, with a next cursor exactly when more are left; without one all completed cases or the pending queue |
| ReviewPages.ReviewCaseReader.Pendings | internal/moderation/repository.go:777-781 | the queue is exactly the pending cases in strictly ascending (created_at, id) order |
| ReviewPages.ReviewCaseReader.Newest | internal/moderation/repository.go:776-809 | the n newest eligible cases in strictly descending (reviewed_at, id) order, all of them when there are fewer |
| ReviewPages.PageIsUnique | internal/moderation/repository.go:796-808 | a table and a request determine the page |
| ReviewPages.PageFacts | internal/moderation/repository.go:504-570 | items are past the cursor and descending, the next cursor is the last item, and every eligible case not listed lies past it |
| ReviewPages.NextExactlyWhenMoreIsLeft | internal/moderation/repository.go:504-536 | a page has a next cursor exactly when an eligible case is left off it |
| ReviewPages.WalkCovers | internal/moderation/repository.go:503-535 | along a chain of pages, every case that matched at the start is listed or below the current cursor |
| ReviewPages.FinishedWalkListsEachOnce | internal/moderation/repository.go:503-535 | a finished walk lists every case that matched when it began exactly once, in descending order, and only matching cases, whatever is finalized in between |
| ReviewPages.FinishedWalkIsTheHistory | internal/moderation/repository.go:503-570 | for each history what that is: all finalized cases of the first table, or those with the one status, and nothing else, newest first and by falling id within one moment |
| ReviewPages.MintedCursorServesItsStatus | internal/moderation/service.go:1419-1487 | the cursor of a page encodes, is accepted for its own status and rejected under every other |
| ReviewPages.RequestsAreNormalized | internal/moderation/service.go:1419-1487 | which list requests are accepted, with which limit and cursor, and which error the others get |
| ReviewPages.CursorsMintedExactlyWhenWhole | internal/moderation/service.go:1456-1487 | a cursor is minted exactly when it can be read back, and reads back as it was |
| ReviewHistory.HistoryPanel.LoadHistory | web/src/composables/useReviewHistory.ts:38-45 | a load makes every earlier list and detail request stale, raises isLoading, lowers the other two flags and clears the error, leaving items, cursor, filter and selection |
| ReviewHistory.HistoryPanel.HistoryLoaded | web/src/composables/useReviewHistory.ts:46-60 | a stale response changes nothing; a current one replaces items and cursor and drops a selection no longer shown |
| ReviewHistory.HistoryPanel.MoreLoaded | web/src/composables/useReviewHistory.ts:70-89 | a response appends the items not shown yet only if it is current and for the current filter |
| ReviewHistory.PanelIsSound | web/src/composables/useReviewHistory.ts:38-100 | for any order of clicks, table changes, responses and failures: items are descending and free of duplicates, cursors belong to the status they are sent under, one list request at most is current, and the flags say what is unanswered |
| ReviewHistory.FinishedPanelShowsEverything | web/src/composables/useReviewHistory.ts:62-89 | a panel without a next cursor shows every matching case that the table held when its first page was read |
| ReviewHistory.DetailFlagIsHonest | web/src/composables/useReviewHistory.ts:102-114 | isLoadingDetail holds exactly when the latest detail request is unanswered |
| ReviewHistory.LatestDetailIsSelected | web/src/composables/useReviewHistory.ts:102-114 | only the answer to the latest detail request becomes the selection; failures keep it |
| ReviewHistory.SelectionIsKeptWhileShown | web/src/composables/useReviewHistory.ts:49-100 | a list that is still wanted keeps the selection exactly when it contains it, and a new filter drops it |
| ReviewHistory.ErrorsFollowFailures | web/src/composables/useReviewHistory.ts:30-89 | requests clear the error, and only a failure that is still wanted and does not end the session sets it |
| ReviewHistory.LoadsFollowTheFilter | web/src/composables/useReviewHistory.ts:62-100 | which requests a filter change and loadMore send, and what the panel shows meanwhile |
| ReviewHistory.NewItemsAreTheUnseen | web/src/composables/useReviewHistory.ts:77-83 | a further page adds exactly the loaded reviews whose id is not shown |
| RateLimit.RateLimiter.AllowWithState | internal/cache/rate_limiter.go:47-111 | one key's counter and answer follow the script and the quota arithmetic, other keys are untouched, without Redis everything is allowed, and a script that cannot be reached or answered is an error |
| RateLimit.CounterCountsItsWindow | internal/cache/rate_limiter.go:62-72 | an open counter holds the number of requests since its opener and expires one window after it |
| RateLimit.WindowAdmitsFirstRequests | internal/cache/rate_limiter.go:96-110 | in each counter window exactly the first `limit` requests are allowed, and Remaining and the reset time are what will happen |
| RateLimit.IntervalBound | internal/cache/rate_limiter.go:62-110 | any interval no longer than the window contains at most 2 * limit - 1 allowed requests |
| RateLimit.BurstReachesBound | internal/cache/rate_limiter.go:62-110 | that many allowed requests do occur within one millisecond |
| RateLimit.WaitingOutARefusal | internal/router/router.go:279-306 | after a refusal the next request succeeds exactly when it waits longer than retryAfter; waiting out the rounded-up header to the millisecond suffices exactly when retryAfter is no whole number of seconds |
| RateLimit.SubSecondWindowNeverLimits | internal/cache/rate_limiter.go:74-94 | a window below one second is truncated to zero, so with a positive limit every request is allowed |
| Bootstrap.AuthHandler.CreateRegisteredUser | internal/handlers/auth.go:246-296 | duplicates and a first user without the token are refused and leave no trace; otherwise one user is added |
| Bootstrap.RunsAreSerial | internal/handlers/auth.go:298-342 | what a transaction read under the lock still holds when it commits, so all runs equal registrations made one by one |
| Bootstrap.RegisteredExactlyWhen | internal/handlers/auth.go:246-358 | which registrations are refused as duplicates or as forbidden, and which user the others add |
| Bootstrap.UndisturbedRegistration | internal/handlers/auth.go:246-342 | a transaction that waits for nobody does what one registration alone does and gives the lock back |
| Bootstrap.OneBootstrapAdmin | internal/handlers/auth.go:246-342 | once there are users exactly one is an administrator, that one presented the configured token, and usernames and emails are unique |
| Bootstrap.BlankTokenAdmitsNobody | internal/handlers/auth.go:352-358 | without a configured token no run ever has a user |
| ClientKeys.ClientStore.AuthenticateAPIKey | internal/clients/repository.go:247-269 | returns an active client with the key's hash whenever there is one |
| ClientKeys.ClientStore.RotateClientAPIKey | internal/clients/repository.go:203-244 | replaces hash and prefix of the client and nothing else |
| ClientKeys.ClientStore.UpdateClientWebhook | internal/clients/repository.go:159-200 | stores URL and secret together and returns the row, or changes nothing when there is none |
| ClientKeys.ClientStore.UpdateClientName | internal/clients/repository.go:72-98 | stores the name and returns the row, or changes nothing when there is none |
| ClientKeys.ClientStore.UpdateClientPolicyVersion | internal/clients/repository.go:130-157 | stores the policy version and returns the row, or changes nothing when there is none |
| ClientKeys.ClientService.CreateClient | internal/clients/service.go:123-176 | stores the trimmed URL with a secret drawn for it, or with none, and shows once the key, which authenticates the client, and the stored secret |
| ClientKeys.ClientService.RotateClientAPIKey | internal/clients/service.go:261-304 | asks the store for a new key and shows it once; that key authenticates the client exactly when it is active |
| ClientKeys.ClientService.UpdateClientWebhook | internal/clients/service.go:343-389 | stores the trimmed URL with a secret drawn for it, or with none, and shows the stored secret with a URL only |
| ClientKeys.ListDescribesTheClient | internal/clients/service.go:492-503 | a listed client shows its name, status, key prefix and, if set, URL and policy version, and no key or secret |
| ClientKeys.PrefixIsTwelveCharacters | internal/auth/api_key.go:51-58 | the prefix is the first twelve characters of the trimmed key, or all of a shorter one |
| ClientKeys.KeysAreBare | internal/auth/api_key.go:34-48 | a generated key has no white space around it, so trimming before hashing changes nothing |
| ClientKeys.KeyLookupIsLastKey | internal/clients/repository.go:159-269 | a key authenticates a client exactly when the client is active and the key is that of its last committed creation or rotation, and never two clients |
| ClientKeys.OnlyLastRotationWins | internal/clients/repository.go:203-244 | of concurrent rotations only the last committed key works |
| ClientKeys.RunFollowsLog | internal/clients/repository.go:26-244 | in every run owner, name, key hash, prefix, status, webhook and policy of each client are those its last committed change of each gave it |
| ClientKeys.CommittedKeyWorks | internal/clients/service.go:123-304 | a creation or rotation committed undisturbed leaves the client, when active, authenticating with the key drawn for it, and no other client changed |
| ClientKeys.WebhookPairIsOneUpdate | internal/clients/service.go:123-389 | URL and secret always come from one creation or update, and, the service drawing a secret exactly for a URL, both are empty or neither |
| ClientConsole.ClientPanel.ReplaceClient | web/src/composables/useClients.ts:74-79 | the first item with the id takes the update without its API key, the others stay |
| ClientConsole.ClientPanel.Create | web/src/composables/useClients.ts:122-132 | starts nothing while a creation runs or a credential is shown or being generated |
| ClientConsole.ClientPanel.Operate | web/src/composables/useClients.ts:151-239 | the gate, the generating flag and the busy check of the four client operations, in their order |
| ClientConsole.ClientPanel.Responded | web/src/composables/useClients.ts:168-220 | what each operation makes of its response; NoCredentialIsLost and ResponseUpdatesItsClient say what that means |
| ClientConsole.NoCredentialIsLost | web/src/composables/useClients.ts:122-245 | in every run the responses that brought a secret correspond one by one to the credentials dismissed or on display, each carrying that response's api_key, or its non-empty webhook_secret for a webhook with a URL, under its client's id and name; nothing but clearing changes a shown one |
| ClientConsole.ResponseUpdatesItsClient | web/src/composables/useClients.ts:74-220 | property by property, what a response makes of the first item of its client, and that no other item changes |
| ClientConsole.ResponseIsAnnounced | web/src/composables/useClients.ts:151-222 | which notice or error a response shows, and that nothing else changes |
| ClientConsole.ListsFollowTheirResponses | web/src/composables/useClients.ts:88-149 | what arrives in the list from a creation or a list request, and what failures do |
| ClientConsole.CallsStartExactlyWhenFree | web/src/composables/useClients.ts:88-239 | when a load, a creation or an operation starts, and that it clears the texts |
| ClientConsole.SettlingShowsFailures | web/src/composables/useClients.ts:232-241 | an operation that ends frees its client and shows its failure, unless the session has ended |
| ClientConsole.ClearingFreesThePanel | web/src/composables/useClients.ts:243-245 | clearing is always possible, takes the credential away and, with nothing in flight, lets the next creation start |
| ClientConsole.OneCredentialAtATime | web/src/composables/useClients.ts:161-224 | one generating call at most is in flight, the flag says whether one is, and none is shown while one is awaited |
| ClientConsole.OnlyFreshListsAreShown | web/src/composables/useClients.ts:88-106 | a list is shown only if no mutation was started since its request and none is running |
| ClientConsole.SettlingFreesTheClient | web/src/composables/useClients.ts:226-241 | in every run the sequence check at the end of an operation passes and frees its client |
| ClientConsole.IdleWhenNothingIsInFlight | web/src/composables/useClients.ts:88-241 | with nothing in flight no flag is set and no client is busy |
| ClientConsole.ItemsHoldNoSecrets | web/src/composables/useClients.ts:69-79 | with the answers the client service gives, listed clients never hold an API key or webhook secret |
| Forwarder.ElasticsearchForwarder.Append | internal/logging/forwarding.go:75-80 | the entry goes to the end of the batch, in the same array or a larger one, and the caller learns whether the batch is full |
| Forwarder.ElasticsearchForwarder.Take | internal/logging/forwarding.go:99-109 | the copy holds the batch in an array of its own, and the batch is empty with its array kept |
| Forwarder.NothingIsLostOrTakenTwice | internal/logging/forwarding.go:75-113 | the batches taken and then the buffer are the forwarded entries in order, and a full buffer always has a wake-up on its way |
| Forwarder.BatchesAreFlushedWithoutTheTimer | internal/logging/forwarding.go:82-87 | without timer or new entries the steps left are bounded, and when none is left a buffer that was full has been flushed |
| Forwarder.AnyEntriesCanBeForwarded | internal/logging/forwarding.go:75-87 | any sequence of entries can be forwarded whatever the flush loop does |
| Forwarder.IdleLoopFlushes | internal/logging/forwarding.go:89-113 | timer or wake-up empties an idle loop's buffer as one batch |
| Policies.NewPolicy | internal/moderation/policy.go:40-52 | succeeds exactly on a valid policy, and its version is bare and not empty |
| Policies.ValidExactlyWhen | internal/moderation/policy.go:154-182 | a policy is valid exactly when its version is not blank and 0 <= review < block <= 1, and which fault is reported otherwise |
| Policies.NewPolicySet | internal/moderation/policy.go:54-77 | succeeds exactly when all policies are valid and versions distinct, holds exactly them, and otherwise reports the first fault |
| Policies.List | internal/moderation/policy.go:100-125 | whatever order the map is walked in: default first, the rest ascending, each version once with its thresholds |
| Policies.ListingIsUnique | internal/moderation/policy.go:110-122 | a registry has one listing |
| Policies.ListedVersionResolves | internal/moderation/policy.go:79-92 | a listed version resolves to the policy it lists exactly when it has no surrounding white space |
| Policies.LookupMatchesListing | internal/moderation/policy.go:79-125 | a lookup succeeds exactly on blank text and listed versions, with the listed policy |
| EnvFile.ParseEnvValue | scripts/release_preflight.py:36-62 | the scans for comment and closing quote find the first ones, and each error arises where the code raises it; AssignmentParses says what values load to and RefusedExactlyWhen which are refused |
| EnvFile.RefusedExactlyWhen | scripts/release_preflight.py:40-61 | a value is refused exactly when it holds a dollar sign or a backslash, opens a quote it does not close, or has content after the closing quote |
| EnvFile.NoAssignmentWithoutEquals | scripts/release_preflight.py:23-29 | a line assigns nothing exactly when it is blank or a comment, and any other line is no assignment exactly when it holds no equals sign |
| EnvFile.FirstFaultIsReported | scripts/release_preflight.py:20-33 | a file is refused for its first faulty line with that line's number, and loads only if no line is faulty |
| EnvFile.LoadEnv | scripts/release_preflight.py:20-33 | the values of all lines, or the error of the first faulty line with its number |
| EnvFile.FilesCompose | scripts/release_preflight.py:20-33 | loading two files in sequence merges them, the later assignment of a key winning |
| EnvFile.AssignmentParses | scripts/release_preflight.py:23-62 | an assignment, quoted or bare, exported or not, with or without comment, parses to its key and value; a # directly after another character belongs to a bare value |
| EnvFile.LoadingReadsBackWhatWasWritten | scripts/release_preflight.py:20-62 | the text of any well-formed lines, quoted or bare, under any of the three line endings loads to their assignments, last one winning |
| EnvFile.MapRoundTrip | scripts/release_preflight.py:20-62 | a map written in any order, quoted or bare, with comments and repetitions, loads back as it was |
| EnvFile.TrailingCommentIsIgnored | scripts/release_preflight.py:44-62 | appending a comment leaves a value unchanged exactly when the value is not blank and the comment has no dollar sign or backslash |
| Text.StripFixesStripped | scripts/release_preflight.py:36-49 | stripping yields text without surrounding white space, and changes exactly the text that has some |
| Text.StripCutsOnlySpace | scripts/release_preflight.py:36-49 | stripping cuts white space off both ends and nothing else |

## Left out

- RetryProtocol.ExclusiveExactlyWhenDelayFits: assumes that a write context that has expired cannot commit, and that worker clocks stay within a given skew; database timestamp rounding is not modelled.
- RetryBatch.DueDeliveryIsTakenUpSoon: assumes clocks that move forward, and outcome writes that land only on rows being retried, which RetryFairness derives from the lease; the time a batch takes is not modelled.
- RetryBatch.RetryService.RetryDelivery: the read of the row after the claiming UPDATE is part of the claim; the texts of dispatch errors are parameters.
- CheckService.Service.Dispatch: the fields a callback copies along unchanged (actor, source, score, labels, reason, policy version, creation time).
- CheckService.Service.Check: the policy lookup, the analysis and the decision are one parameter, absent when any of them fails; a save that commits although its answer is lost is not modelled.
- ModerationStore.Store.Finalize: case ids count up from one, without the gaps that rolled-back inserts leave.
- Notifications.OneFaithfulNotification: at most one record, not exactly one; a crash between saving a check and saving its delivery leaves none.
- ReviewPages.MintedCursorServesItsStatus: base64url (section 5 of RFC 4648) and JSON are taken to be a bijection between cursors and tokens.
- ClientKeys.KeyLookupIsLastKey: random text is never drawn twice and the hash is injective.
- ClientKeys.ClientService.CreateClient: the checks of operator, name, URL, policy version and lengths, which refuse a request before anything is drawn.
- ClientKeys.ClientService.UpdateClientWebhook: the checks of operator, client id, URL and lengths, which refuse a request before anything is drawn.
- ClientConsole.ItemsHoldNoSecrets: timestamps in the answers are left out of their properties.
- Policies.List: sort.Slice is modelled by insertion sort; ListingIsUnique shows that any correct sort gives the same list.
- Forwarder.ElasticsearchForwarder.Take: what happens to a batch after it was taken; a failed bulk request drops it.
- Bootstrap.AuthHandler.CreateRegisteredUser: the mutex inside one process is redundant beside the row lock and is not modelled.
- RateLimit.RateLimiter.AllowWithState: the gate in front of it that skips requests without a client or a configured limit.
- ReviewPages.ReviewCaseReader.ListReviewCases: the requests and results loaded along with the cases of a page.
- Moderation history and delivery listings: plain filtered queries without a cursor.
- Policy.Decide: two comparisons of a score with two thresholds; NaN and infinite thresholds are one value that validation refuses, other scores are real numbers.
- GORM, MySQL, Redis and RabbitMQ mechanics and database collation: rows, unique keys, row locks, snapshot reads and the atomic script are the assumed meaning of single steps, and strings compare exactly.
- HTTP handlers, middleware wiring, AI providers, prompts, metrics and logging: they carry no state of these protocols.
- HMAC signing, bcrypt, JWT and random generation: fresh or injective values.
- URL and IP blocking for webhooks, and the multilevel cache, which is not wired in.
- ClientConsole.ClientPanel.Load: the separate load of the policy list, which shares no state with it but the error text; error and notice texts are cases of a datatype.
- Batch detection, legacy detection and feedback handlers, configuration overrides, and the other browser composables.
- The remaining checks of the release preflight on the loaded values: single comparisons.

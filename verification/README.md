# WorkBuddy provider plugin: verified protocol models

A Dafny model of the stateful cores of the WorkBuddy OAuth provider plugin (package `workbuddy`), with
proofs of what they guarantee. `dafny verify dfyconfig.toml` checks everything.

- **Model readiness** (`model_readiness*.dfy`, `model_runtime.dfy`, `model_ensure.dfy`). The concurrent
  runtime that decides which models an account serves. Each lock-held section is a function on the shared
  memory; the object updated in place is proved equal to it, method by method, and a whole request
  composed of these methods takes exactly the protocol's steps. Requests are threads whose steps are these
  sections, with fetch results, write outcomes and read failures chosen by the environment, interleaved
  with configuration commits, invalidations, restores and not-started marks. What an answer lists is traced
  back to what the network and the store answered that request.
- **Daily check-in** (`checkin*.dfy`). The effectively-once claim over an unreliable request: the
  attempt's decision, the bounded table, one attempt end to end, and runs of interleaved attempts.
- **Pending login** (`oauth*.dfy`). The staged login with durable checkpoints, as a machine with failing
  writes, sweeps and crashes, and as a login context updated in place that takes exactly its steps; whose
  account is delivered, and when a poll must succeed.
- **Term obscuring** (`desensitize.dfy`, `obscuring.dfy`). The rewrite-until-stable loop, its termination, and
  its result as rounds of leftmost matches.
- **Cache files** (`model_store.dfy`). The primary and backup pair, interrupted anywhere.
- **Quota holds** (`quota_hold.dfy`, `cooldown_table.dfy`, `cooldown_listing.dfy`). The lazily expired
  table against a reference that expires at once, and the sorted listing.
- **Smaller cores**: stream cleaning and folding (`stream_*.dfy`), the byte reader (`host_stream.dfy`),
  the token bucket (`rate_limit.dfy`), the realm catalog (`realm_*.dfy`) and campaign schedules
  (`promotions.dfy`). `basics.dfy`, `sorting.dfy` and `text_order.dfy` are shared vocabulary.

Where the code and its comments or tests promise different things, the code is modelled:

- The comment at `oauth_pending_flow.go` line 74 rules out asking the token endpoint twice. Within one
  process it is asked again when dropping an expired login cannot unlink its record:
  `AskedTwiceInOneProcess` is such a run, `AskedAgainOnlyAfterLeftover` shows that nothing else causes it,
  and `AsksTokenExactly` gives the condition on memory and disk.
- A clear request counts expired holds that nobody has looked at yet, as in `ClearCountsExpired`:
  `ClearCountExactly` says when.
- On Windows the cache pair survives a crash at any point of a write but not every order in which its
  directory operations may reach the disk: `PowerLossExactly`.
- Cleaning a chunk of several choices can drop what one of them says, as in `MultiChoiceLoses`; it does so
  exactly when the chunk is dropped and one of its choices is not silent: `CleaningLosesExactly`.

## Model

| member | source | states |
|---|---|---|
| `ModelReadiness.Select` | workbuddy/model_readiness.go:98-112 | the fresh document whenever there is one, otherwise the cached one with the failure code, and nothing only when there is neither |
| `ModelReadiness.SelectMetadata` | workbuddy/model_readiness.go:577-624 | an unmodified answer is fresh only over a cached document, a fetched one only after a successful save; otherwise the cached document with the error, and a fresh result never carries one |
| `ModelRuntimeObject.ModelRuntime.constructor` | workbuddy/model_readiness.go:192-205 | a new runtime holds nothing in memory but the loaded metadata cache, or the read failure |
| `ModelRuntimeObject.ModelRuntime.AuthSlot` | workbuddy/model_readiness.go:224-228 | the slot of an account, fresh on first use |
| `ModelRuntimeObject.ModelRuntime.EnsureRejected` | workbuddy/model_readiness.go:255-276 | an invalid credential retires the slot under a bare key and publishes a failed snapshot under the new generation |
| `ModelRuntimeObject.ModelRuntime.EnterAuth` | workbuddy/model_readiness.go:278-322 | a changed key opens a new generation; a settled snapshot is returned, a running call joined, otherwise one call is opened and a loading snapshot published |
| `ModelRuntimeObject.ModelRuntime.FinishAuthCall` | workbuddy/model_readiness.go:509-528 | the snapshot is published only while key, generation and configuration are current; the call is closed and removed in any case, and only its own entry |
| `ModelRuntimeObject.ModelRuntime.StartIdentityCall` | workbuddy/model_readiness.go:230-243 | each identity call gets the next sequence number and is active until it settles |
| `ModelRuntimeObject.ModelRuntime.SettleIdentityCall` | workbuddy/model_readiness.go:454-470 | the call leaves the active set, is closed, and the calls still active are what the caller may wait for |
| `ModelRuntimeObject.ModelRuntime.SaveModelsForGeneration` | workbuddy/model_readiness.go:478-507 | an outdated or overtaken call writes nothing, a successful write commits its stamp, a failed one does not; the call settles in every case |
| `ModelRuntimeObject.ModelRuntime.JoinOrOpenMetadata` | workbuddy/model_readiness.go:551-573 | a settled result is reused, a running call joined, otherwise one call is opened with the cached document and whether the cache could be read |
| `ModelRuntimeObject.ModelRuntime.SettleMetadataCall` | workbuddy/model_readiness.go:601-647 | a retired call closes without a result; otherwise the selection is committed and the shared result and cache updated, and the registration is cleared only by its own call |
| `ModelRuntimeObject.ModelRuntime.SnapshotForAuth` | workbuddy/model_readiness.go:650-673 | the current snapshot if it belongs to the current configuration, otherwise a not-started one |
| `ModelRuntimeObject.ModelRuntime.RestoreSnapshot` | workbuddy/model_readiness.go:869-884 | the captured snapshot goes back under a bare key and the current generation numbers |
| `ModelRuntimeObject.ModelRuntime.MarkAuthNotStarted` | workbuddy/model_readiness.go:893-913 | the slot is retired under a bare key and published as not started |
| `ModelRuntimeObject.ModelRuntime.CommitFeatureRuntime` | workbuddy/model_readiness.go:741-795 | only a pure reordering or a pure context change keeps the configuration generation |
| `ModelRuntimeObject.ModelRuntime.DropMetadataResults` | workbuddy/model_readiness.go:810-814 | the shared metadata result and the registration of the running call are dropped, the cached document stays |
| `ModelRuntimeObject.ModelRuntime.AdvanceConfigGeneration` | workbuddy/model_readiness.go:886-891 | the configuration generation goes up by one |
| `ModelEnsure.Fetch` | workbuddy/model_readiness.go:366-387 | the fetch and the section after it: a failed fetch settles the call, a catalog is saved, and each outcome leads where the protocol says |
| `ModelEnsure.DiscoverModels` | workbuddy/model_readiness.go:360-411 | from the start of an identity call to the catalog chosen or an outdated call, along the protocol's steps, under any interference |
| `ModelEnsure.MetadataFor` | workbuddy/model_readiness.go:547-575 | the metadata loop, retried while the joined call was retired, along the protocol's steps |
| `ModelEnsure.EnsureForAuth` | workbuddy/model_readiness.go:245-452 | a whole request on the runtime object, whatever other threads do between its sections: it answers what the memory shows for the account, fails without a credential, and a snapshot it assembled lists what the network and the store answered this very request |
| `ModelEnsure.AnswerMeaning` | workbuddy/model_readiness.go:509-528 | the answer is the published snapshot or that nothing is started, for joined waiters and owners alike; while its call is current an owner answers the snapshot it assembled |
| `ModelReadinessSources.EveryAnswerIsExplained` | workbuddy/model_readiness.go:324-451 | every assembled snapshot comes from one deciding section (a saved fetch, the catalog that overtook it, the fallback read), from the configured models, from a broken store or from a retired call, with the metadata one section gave |
| `ModelReadinessSources.DecisionIsShown` | workbuddy/model_readiness.go:411-451 | and whatever decides is what is shown: models, source, state and error |
| `ModelReadinessSources.ExecutableIsSourced` | workbuddy/model_readiness.go:441-451 | an executable answer lists the models this request fetched and saved or read from the store of its own identity, or the configured ones; it is ready exactly if neither they nor the metadata are from the cache |
| `ModelReadinessSources.FetchedIsListed` | workbuddy/model_readiness.go:370-398 | a catalog fetched and saved by a current, not overtaken call is listed as fresh, and is ready with fresh metadata |
| `ModelReadinessSources.CarriedWasSeen` | workbuddy/model_readiness.go:360-411 | cached catalogs and failure codes carried between sections are what earlier sections of the request read or met |
| `ModelReadinessSources.MetadataIsShared` | workbuddy/model_readiness.go:601-647 | what a metadata call settles with is what its own, joined and later requests are given; a retired call leaves nothing |
| `ModelReadinessThread.ThreadOf` | workbuddy/model_readiness.go:245-452 | the steps of any request in any run are such a request followed through its sections |
| `ModelReadinessAnswers.PublishedModels` | workbuddy/model_readiness.go:411-451 | so in every run an executable snapshot lists exactly the models its request fetched, read or was configured with |
| `ModelReadinessAnswers.ModelsBelongToIdentity` | workbuddy/model_readiness.go:360-398 | and unless configured they were fetched for the identity of the account in this process or stored for it before |
| `ModelReadinessContent.NextKeepsInv` | workbuddy/model_readiness.go:245-528 | every step of every interleaving of requests, token changes, commits, invalidations, restores and marks keeps the protocol invariant |
| `ModelReadinessContent.RunInv` | workbuddy/model_readiness.go:245-528 | so the invariant holds in every reachable state |
| `ModelReadinessTheorems.SnapshotCarriesGeneration` | workbuddy/model_readiness.go:290-320 | outside the locks a snapshot carries exactly the slot's generation, and under the current configuration it is loading exactly while that generation has an unfinished call |
| `ModelReadinessTheorems.ArrivalOutcome` | workbuddy/model_readiness.go:290-322 | on arrival a settled snapshot of the unchanged key is answered, its unfinished call is joined, and a changed key opens the next generation |
| `ModelReadinessTheorems.CommitKeepsGeneration` | workbuddy/model_readiness.go:691-795 | a commit keeps the generation exactly if it changes either the order or the context lengths and nothing else |
| `ModelReadinessTheorems.OutsideShows` | workbuddy/model_readiness.go:869-913 | a mark leaves the account not started, a restore shows the captured snapshot under current numbers |
| `ModelReadinessTheorems.BareKeyRetires` | workbuddy/model_readiness.go:255-276 | a rejected credential, a mark and a restore retire whatever call the account had under a credential |
| `ModelReadinessTheorems.InvalidationRefetches` | workbuddy/model_readiness.go:797-814 | after an invalidation the next request fetches metadata again over the cached document |
| `ModelReadinessTheorems.GenerationsNeverDecrease` | workbuddy/model_readiness.go:290-295 | slot generations and the configuration generation never decrease in a run |
| `ModelReadinessTheorems.Ownership` | workbuddy/model_readiness.go:509-528 | a request keeps the generation it opened until it returns, and has closed its call exactly when it has returned |
| `ModelReadinessTheorems.PublishesExactlyIfUnbroken` | workbuddy/model_readiness.go:509-532 | a call publishes exactly when its key and generation were current without a break since it opened, so a key that changed and changed back still retires it |
| `ModelReadinessTheorems.CurrentThroughout` | workbuddy/model_readiness.go:530-540 | a generation that is current at the end of a call has been current at every state since it opened |
| `ModelReadinessLiveness.WaitGraphAcyclic` | workbuddy/model_readiness.go:302-307 | every wait leads to an unfinished request of strictly smaller depth: account waits to owners, owners to identity or metadata calls, whose owners wait for nobody |
| `ModelReadinessLiveness.NoStrandedWaiter` | workbuddy/model_readiness.go:472-476 | every unfinished request can run, or waits at most two calls away from one that can |
| `ModelReadinessLiveness.CloseIsFirst` | workbuddy/model_readiness.go:460-470 | whoever reaches a closing section finds its own call still open, and an identity owner has closed its call before it waits |
| `ModelReadinessLiveness.StepDecreases` | workbuddy/model_readiness.go:547-575 | every step of any request lowers one measure, including the retry after a retired metadata call |
| `ModelReadinessLiveness.RequestsFinish` | workbuddy/model_readiness.go:245-452 | after the last outside event a run takes at most the measure's number of steps, and when nothing can run every request has returned |
| `ModelReadinessOrder.CommitsOrdered` | workbuddy/model_readiness.go:478-507 | commits of one identity are strictly increasing in (configuration generation, sequence), and the stored file is at least as new as each of them |
| `ModelReadinessOrder.OvertakenReadsNewer` | workbuddy/model_readiness.go:388-395 | an overtaken call reads back a strictly newer catalog than its own |
| `ModelReadinessOrder.FallbackAtLeastAsNew` | workbuddy/model_readiness.go:368-371 | whatever the calls active at a failed fetch ever commit was committed before the fallback read, which returns a catalog at least as new |
| `ModelReadinessOrder.SnapshotMeaning` | workbuddy/model_readiness.go:333-358 | every published snapshot is executable exactly with both models and metadata, ready exactly if neither is from the cache, lists nothing otherwise, and a configured one lists exactly the models committed at its generation |
| `ModelReadinessOrder.OnlyRestoreRestamps` | workbuddy/model_readiness.go:869-884 | only the restore stores a snapshot under a configuration generation it was not built for |
| `ModelReadinessIdentity.WriteIsNewer` | workbuddy/model_readiness.go:478-507 | a catalog that passes the overtaken check is newer than everything committed or on disk for its identity |
| `ModelReadinessIdentity.SaveKeepsInv` | workbuddy/model_readiness.go:478-507 | saving, whatever the write outcome, keeps commits ordered and every other identity call's claims intact |
| `ModelReadinessAuth.FinishKeepsInv` | workbuddy/model_readiness.go:509-528 | finishing keeps the agreement between published snapshots, unfinished calls and their owners |
| `ModelReadinessAuth.EnterKeepsInv` | workbuddy/model_readiness.go:290-322 | joining, opening or returning keeps that agreement |
| `ModelReadinessMetadata.SettleKeepsInv` | workbuddy/model_readiness.go:601-647 | settling the metadata call keeps at most one registered call, open and owned |
| `CheckinAttempt.AttemptIsSafe` | workbuddy/checkin_state.go:30-77 | a claim is sent only for an active unclaimed day without a checkpoint; an outcome that is not a definite refusal is confirmed or leaves a checkpoint; a checkpoint survives until confirmed; only a status read confirms |
| `CheckinAttempt.AttemptRepeats` | workbuddy/checkin_state.go:30-77 | exactly when an attempt may be repeated, and exactly when the repetition may only confirm |
| `CheckinAttempt.AttemptReports` | workbuddy/checkin_state.go:30-77 | what an attempt is reported as: success, already, no activity, pending or failed |
| `CheckinStore.CheckinRunStore.constructor` | workbuddy/checkin_state.go:102-111 | the table starts empty |
| `CheckinStore.CheckinRunStore.MakeRoom` | workbuddy/checkin_state.go:141-160 | room is made by dropping one oldest entry that is not in flight, unresolved or budget-carrying today, and fails exactly when every entry is protected |
| `CheckinStore.CheckinRunStore.ReserveRun` | workbuddy/checkin_state.go:113-133 | an account is reserved exactly when it is named, not in flight, and has a record or room for one; it lacks room only among 512 records each in flight or still needed today |
| `CheckinStore.CheckinRunStore.ReleaseRun` | workbuddy/checkin_state.go:135-139 | the reservation ends and nothing else changes |
| `CheckinStore.CheckinRunStore.RecordRun` | workbuddy/checkin_state.go:162-196 | the new record replaces the account's, is appended to the clipped history, and is dropped only when the account has no record and no room |
| `CheckinStore.CheckinRunStore.NewRecord` | workbuddy/checkin_state.go:162-188 | the record of an attempt given the previous one: a result that may be repeated is scheduled 60, 120 or 300 seconds later within the day after fewer than three retries and never otherwise; checkpoint, count and manual mark of the same day are kept |
| `CheckinStore.CheckinRunStore.Due` | workbuddy/checkin_state.go:215-230 | exactly the due retries are returned, and stale or disallowed ones lose their retry |
| `CheckinStore.CheckinRunStore.NeedsConfirmationNow` | workbuddy/checkin_state.go:232-237 | an unresolved checkpoint of today |
| `CheckinStore.CheckinRunStore.RetryModeNow` | workbuddy/checkin_state.go:239-244 | whether a retry may only confirm, and whether it is due |
| `CheckinStore.CheckinRunStore.CancelRetry` | workbuddy/checkin_state.go:246-254 | the retry of one account is withdrawn, its checkpoint stays |
| `Checkin.CheckinOneAccountFrom` | workbuddy/checkin.go:267-305 | one attempt: exactly when it runs and when it sends a claim, the record it leaves with its next retry, confirmation or checkpoint after an uncertain claim, and the reservation always released |
| `CheckinRuns.ReserveKeepsProtected` | workbuddy/checkin_state.go:141-160 | reserving never evicts an in-flight, unresolved or budget-carrying record of today |
| `CheckinRuns.NextKeepsInv` | workbuddy/checkin.go:267-345 | every step of any interleaving of attempts, sweeps and cancellations keeps the table invariant |
| `CheckinRuns.RunInv` | workbuddy/checkin.go:267-345 | so it holds in every reachable state |
| `CheckinRuns.Bounded` | workbuddy/checkin_state.go:83-84 | never more than 512 records or 100 history rows, and every attempt in flight has a record, so recording never meets the capacity branch |
| `CheckinRuns.NoSecondClaim` | workbuddy/checkin_state.go:30-77 | from the record of a claim that was neither definitely refused nor confirmed, no attempt of any kind sends another for that account on the recorded day before a status read confirms it |
| `CheckinRuns.NoSecondRequest` | workbuddy/checkin.go:267-305 | from the request itself: between two claims of one account, the first not definitely refused, the first is recorded, and the second falls on another day than the record or after a confirmation |
| `CheckinRuns.OpenUntilConfirmed` | workbuddy/checkin_state.go:162-196 | until then the checkpoint of that day stays in the table, so every attempt that day may only confirm |
| `CheckinRuns.RetryComesDue` | workbuddy/checkin_state.go:181-230 | over any run a recorded result that may be repeated is listed as due at its moment of the same day and its retry then begins, unless another record, a cancellation or switching off withdraws it |
| `CheckinRuns.RetryOnlyWhenDue` | workbuddy/checkin_state.go:239-244 | and a retry begins only on its day, at its moment or later, with fewer than three behind it |
| `CheckinRuns.AtMostThreeRetries` | workbuddy/checkin_state.go:81-81 | at most three retries start per account and day whatever manual clicks, evictions and failures occur |
| `CheckinRuns.BudgetStep` | workbuddy/checkin_state.go:162-196 | nothing but a new day lowers the retries accounted for, and a retry starts only below the limit |
| `OAuthPending.CheckpointKeepsCore` | workbuddy/oauth_pending.go:182-189 | a checkpoint keeps the invariant whatever the write does, and success means the login in memory is on disk |
| `OAuthPending.StagedIsValid` | workbuddy/oauth_pending.go:135-157 | every record shape the poll holds passes the store's validation |
| `OAuthPending.NextKeepsInv` | workbuddy/oauth_pending_flow.go:15-129 | every step, sweep, prune and crash keeps the invariant |
| `OAuthPendingTheorems.EveryStageIsValid` | workbuddy/oauth_pending.go:135-178 | in every reachable state the login in memory and the record on disk are valid |
| `OAuthPendingTheorems.Lifetimes` | workbuddy/oauth_pending_flow.go:67-72 | a login lives half an hour without a token, ten minutes from its receipt with one, forty minutes at most |
| `OAuthPendingTheorems.DeliversTheGivenAccount` | workbuddy/oauth_pending_flow.go:95-128 | what is saved or answered is the account that upstream named for the token it had given to this login |
| `OAuthPendingTheorems.DurableBeforeEffects` | workbuddy/oauth_pending_flow.go:74-128 | with a store the account lookup happens only with the token on disk, and the host save and the success answer only with the result on disk, unless the login has expired meanwhile |
| `OAuthPendingTheorems.WrittenBeforeEffects` | workbuddy/oauth_pending_flow.go:74-128 | without any condition on time, what the lookup, the host save or the success answer acts on was written to disk before it |
| `OAuthPendingTheorems.NeverAskedAfterCheckpoint` | workbuddy/oauth_pending_flow.go:74-79 | once a token checkpoint succeeded the token endpoint is never asked again, by any later poll or after any number of restarts |
| `OAuthPendingTheorems.AskedAgainOnlyAfterLeftover` | workbuddy/oauth_pending.go:264-274 | within one process it is asked again after a token was received only if dropping the login failed to unlink a record without a token |
| `OAuthPendingTheorems.AsksTokenExactly` | workbuddy/oauth_pending.go:221-255 | a poll asks for the token exactly when the login it finds, in memory or else as a readable record on disk, is unexpired and has none |
| `OAuthPendingTheorems.AskedTwiceInOneProcess` | workbuddy/oauth_pending.go:264-274 | a concrete run of one process in which the token endpoint is asked twice |
| `OAuthPoll.PendingLogin.constructor` | workbuddy/oauth_pending.go:191-219 | a login just registered |
| `OAuthPoll.PendingLogin.Persist` | workbuddy/oauth_pending.go:182-189 | a checkpoint writes exactly the login in memory, or fails with the old record kept, swept or already replaced |
| `OAuthPoll.PendingLogin.Remove` | workbuddy/oauth_pending.go:264-274 | the login leaves memory, and disk only if the unlink works |
| `OAuthPoll.PendingLogin.Find` | workbuddy/oauth_pending.go:221-255 | the login in memory, or a valid unexpired record restored from disk; anything else on disk is dropped |
| `OAuthPoll.PendingLogin.DropExpired` | workbuddy/oauth_pending_flow.go:27-30 | an expired login is dropped before anything else |
| `OAuthPoll.PendingLogin.AskForToken` | workbuddy/oauth_pending_flow.go:38-66 | an answer without a token checkpoints and stops |
| `OAuthPoll.PendingLogin.AcceptToken` | workbuddy/oauth_pending_flow.go:67-72 | the token, when it came and the capped expiry enter the login in memory |
| `OAuthPoll.PendingLogin.PersistThen` | workbuddy/oauth_pending_flow.go:76-79 | a checkpoint between stages goes on only if it succeeded |
| `OAuthPoll.PendingLogin.AskForAccount` | workbuddy/oauth_pending_flow.go:80-102 | a failed lookup checkpoints and stops, an unusable account stops, a usable one becomes the result |
| `OAuthPoll.PendingLogin.AcceptAccount` | workbuddy/oauth_pending_flow.go:107-107 | the account becomes the result in memory |
| `OAuthPoll.PendingLogin.SaveToHost` | workbuddy/oauth_pending_flow.go:112-121 | the host save marks the login saved only if it succeeded |
| `OAuthPoll.PendingLogin.ObtainToken` | workbuddy/oauth_pending_flow.go:38-73 | from no token to a token in memory, or a stopped poll, along the machine's steps |
| `OAuthPoll.PendingLogin.ObtainResult` | workbuddy/oauth_pending_flow.go:76-108 | from a token to a result in memory, or a stopped poll, along the machine's steps |
| `OAuthPoll.PendingLogin.Save` | workbuddy/oauth_pending_flow.go:112-125 | host save and its checkpoint, along the machine's steps |
| `OAuthPoll.PendingLogin.Deliver` | workbuddy/oauth_pending_flow.go:109-128 | result checkpoint, host save for the panel and success, along the machine's steps |
| `OAuthPoll.PendingLogin.PollOAuthPending` | workbuddy/oauth_pending_flow.go:15-129 | a whole poll takes exactly the machine's steps; a success has a durable account, saved for the panel; and a poll of a live login to which nothing goes wrong succeeds with exactly the account upstream names |
| `OAuthPath.GoodPollSucceeds` | workbuddy/oauth_pending_flow.go:15-129 | from whatever stage it resumes, a poll in a good world ends in success with the token given and the account named for it |
| `Basics.BlankMeaning` | workbuddy/desensitize.go:266-269 | nothing is left after trimming exactly when every rune is white space |
| `Basics.TrimMeaning` | workbuddy/desensitize.go:266-266 | trimming takes white space from both ends and nothing else |
| `Desensitize.NormalizedTerms` | workbuddy/desensitize.go:254-284 | the distinct nonblank trimmed entries in order of first occurrence, or a refusal at the first entry that is too short or contains U+200B |
| `Basics.TrimmedHas` | workbuddy/desensitize.go:265-275 | every nonblank entry is kept in its trimmed form |
| `Basics.TrimmedFrom` | workbuddy/desensitize.go:265-275 | every kept term is the trimmed form of some entry |
| `Basics.TrimmedDistinct` | workbuddy/desensitize.go:270-272 | no term is kept twice |
| `Basics.TrimmedGrows` | workbuddy/desensitize.go:264-283 | in the order of first occurrence: a longer list only adds to them |
| `Desensitize.SortIsLongestFirst` | workbuddy/desensitize.go:286-290 | the compiled order is longest first |
| `Desensitize.SortIsStable` | workbuddy/desensitize.go:286-290 | terms of one length keep their configured order |
| `Desensitize.Compile` | workbuddy/desensitize.go:286-304 | the loops keep the first term of each case-folding class |
| `Desensitize.DistinctCovers` | workbuddy/desensitize.go:293-304 | every term folds to a kept one |
| `Desensitize.DistinctApart` | workbuddy/desensitize.go:293-304 | no two kept terms fold to each other |
| `Obscuring.LongestTermWins` | workbuddy/desensitize.go:286-316 | where several terms match, the longest is taken |
| `Obscuring.AlternativesCover` | workbuddy/desensitize.go:286-316 | a text is free of the compiled alternatives exactly when it is free of the terms |
| `Obscuring.PassCuts` | workbuddy/desensitize.go:458-462 | one pass cuts, after its first rune, each leftmost match of a longest configured term and no other |
| `Obscuring.StableIsRounds` | workbuddy/desensitize.go:453-468 | the result is reached by such rounds: its leftmost matches, then those of what came out, until there is none |
| `Desensitize.NoHitsMeansClean` | workbuddy/desensitize.go:453-469 | a pass rewrites nothing exactly when no alternative occurs, and then returns the text itself |
| `Desensitize.PassBreaksPairs` | workbuddy/desensitize.go:457-464 | every rewritten match costs exactly one adjacent pair of runes other than U+200B: the termination argument |
| `Desensitize.Replace` | workbuddy/desensitize.go:453-469 | the loop ends for every text and list, with the stable text |
| `Desensitize.StableMeaning` | workbuddy/desensitize.go:453-469 | no alternative is left, U+200B was inserted only right after first runes of occurrences in the text, and each one inserted parted exactly one pair |
| `Desensitize.FirstMatchIsParted` | workbuddy/desensitize.go:453-468 | the text up to the first match comes out as it was and that match is parted right after its first rune |
| `Desensitize.StableIsFixpoint` | workbuddy/desensitize.go:453-469 | a text changes exactly when some alternative occurs in it, and a second run changes nothing |
| `Desensitize.PartedErases` | workbuddy/desensitize.go:457-461 | a text with U+200B inserted only after first runes of occurrences reads the same without U+200B |
| `Desensitize.OnePassLeavesOverlap` | workbuddy/desensitize.go:457-468 | one pass is not enough: an overlapping occurrence survives it |
| `Obscuring.Desensitize` | workbuddy/desensitize.go:254-469 | the whole path: refused exactly for an entry of one rune or with U+200B in it; otherwise no configured term is left, U+200B follows only first runes of occurrences, the first of which is parted there, and nothing else changes |
| `ModelStore.CacheFiles.LoadModelCache` | workbuddy/model_store.go:153-180 | the primary decides if it decodes or is of a newer schema, otherwise the backup; nothing is found only where there are no files, anything else is broken |
| `ModelStore.CacheFiles.Do` | workbuddy/model_store.go:407-414 | one directory operation, which happens or fails as a whole |
| `ModelStore.CacheFiles.Replace` | workbuddy/model_store.go:407-414 | removal first on Windows, then the rename, stopping at the first failure |
| `ModelStore.CacheFiles.WriteModelCacheAtomic` | workbuddy/model_store.go:313-361 | the files after a write that stops anywhere are a prefix of its plan; it refuses exactly on unreadable files or a newer schema, and reports success only when everything happened |
| `ModelStore.WriteIsAtomic` | workbuddy/model_store.go:313-361 | wherever a write stops, loading gives what it gave before or the new document |
| `ModelStore.FinishedWriteHasFallback` | workbuddy/model_store.go:347-360 | a finished write is loaded, and damage to either file still loads the new or the previous document |
| `ModelStore.LoadableForever` | workbuddy/model_store.go:313-361 | through any number of interrupted writes what was loadable stays loadable, and only original or written documents appear |
| `ModelStore.VersionsNeverGoBack` | workbuddy/model_store.go:313-361 | when each write is at least as new as everything before it, nothing older is loaded after something newer was |
| `ModelStore.FutureIsKept` | workbuddy/model_store.go:333-345 | a document of a newer schema in either file is never replaced |
| `ModelStore.PowerLossExactly` | workbuddy/model_store.go:347-414 | any part of a plan may reach the disk without losing what was loadable, except exactly on Windows with a good primary |
| `QuotaHold.LazyRefinesEager` | workbuddy/quota_freeze.go:77-200 | each operation leaves the same live holds and gives the same answer as a table that drops holds the moment they expire, except for the number a clear request reports |
| `QuotaHold.RunRefines` | workbuddy/quota_freeze.go:77-200 | over any run with a nondecreasing clock both have the same live holds |
| `QuotaHold.AnswersAgree` | workbuddy/quota_freeze.go:150-167 | so every answer after any run agrees |
| `QuotaHold.ClearCountExactly` | workbuddy/cooldown.go:131-155 | the number removed equals the reference's exactly when none of the removed holds has expired |
| `QuotaHold.ClearCountsExpired` | workbuddy/cooldown.go:131-155 | one mark and a clear after it ended: the code reports one removal, the reference none |
| `QuotaHold.StepKeepsInv` | workbuddy/quota_freeze.go:77-167 | every operation keeps the table invariant |
| `QuotaHold.RunInv` | workbuddy/quota_freeze.go:77-167 | at most 4096 holds, every expiry within a day of its last update, and a key without a model exactly for account-wide holds, which are for exhausted shared credits |
| `QuotaHold.SharedCreditsAreAccountWide` | workbuddy/quota_freeze.go:80-93 | when exhausted shared credits are reported for the account only, a key has no model exactly when its hold is for them |
| `QuotaHold.EvictsEarliest` | workbuddy/quota_freeze.go:117-127 | a hold is evicted only from a full table, for a new key, and only one that expires first |
| `QuotaHold.MarkKeepsHold` | workbuddy/quota_freeze.go:105-116 | a mark never shortens a live hold nor replaces its reason by one it outranks |
| `QuotaHold.MarkIsInForce` | workbuddy/quota_freeze.go:77-135 | a signal whose reason the hold in place does not outrank is in force until its own reset at least |
| `QuotaHold.MarkMeaning` | workbuddy/quota_freeze.go:77-148 | what any mark leaves, by named reasons: shared credits outrank all others, call and credit quotas outrank rate limits and unclear failures, rate limits outrank unclear failures; otherwise the later reset, a far one counting as a quarter of an hour |
| `QuotaHold.QueryMeaning` | workbuddy/quota_freeze.go:150-167 | a query is answered with the live hold of the account, or else of the pair |
| `QuotaHold.CoolingMeaning` | workbuddy/cooldown.go:104-127 | the models listed for an account are exactly those with a live hold of their own |
| `QuotaHold.RemovalMeaning` | workbuddy/cooldown.go:131-155 | what clearing and fresh credit remove |
| `QuotaHold.HoldOnlyGrows` | workbuddy/quota_freeze.go:105-134 | over any run from the empty table a hold only lasts longer and is never replaced by a reason it outranks, unless an operator, fresh credit or a full table removes it |
| `QuotaHold.HeldUntilReset` | workbuddy/quota_freeze.go:150-167 | in such a run every query of the held pair, or of any model of a held account, is refused until the reset |
| `CooldownTable.RetryAt` | workbuddy/quota_freeze.go:21-56 | a usable moment lies after now and within a day, and usable Retry-After seconds take precedence |
| `CooldownTable.FirstUsableIsTaken` | workbuddy/quota_freeze.go:21-56 | of the five hints in the order of the code, the first usable one is taken, and none exactly when none is usable |
| `CooldownTable.FailureIsInForce` | workbuddy/quota_freeze.go:60-135 | whatever a response says, a failure that the hold in place does not outrank is in force until the moment asked for and never for more than a day |
| `CooldownTable.UnhintedFailure` | workbuddy/quota_freeze.go:60-75 | without a usable hint a rate limit holds for five minutes and anything else for a quarter of an hour |
| `CooldownTable.Cooldowns.constructor` | workbuddy/cooldown.go:57-60 | the table starts empty |
| `CooldownTable.Cooldowns.Sweep` | workbuddy/cooldown.go:191-197 | exactly the live holds remain |
| `CooldownTable.Cooldowns.FindEarliest` | workbuddy/quota_freeze.go:118-125 | an entry that expires first, in whatever order the map is walked |
| `CooldownTable.Cooldowns.MarkQuotaFreeze` | workbuddy/quota_freeze.go:77-135 | marks as the specification does and as the ranking of the reasons demands, evicts only a legal victim, and keeps the invariant |
| `CooldownTable.Cooldowns.QuotaFreezeFor` | workbuddy/quota_freeze.go:150-167 | the account's hold, then the pair's; expired entries looked at are dropped |
| `CooldownTable.Cooldowns.CoolingModelSetFor` | workbuddy/cooldown.go:104-127 | exactly the models held for the account |
| `CooldownTable.Cooldowns.DropExpired` | workbuddy/cooldown.go:112-126 | the walk drops the account's expired pairs and collects the live ones |
| `CooldownTable.Cooldowns.ClearModelCooldown` | workbuddy/cooldown.go:131-155 | removes one pair, or everything of an account, and counts it |
| `CooldownTable.Cooldowns.ObserveQuotaCredits` | workbuddy/quota_freeze.go:190-200 | positive credit removes an account's shared-credit hold and nothing else |
| `CooldownListing.SortCooldownSnapshotByAuth` | workbuddy/cooldown.go:230-250 | the swaps sort in place as an insertion sort by account and model |
| `CooldownListing.OutOfOrder` | workbuddy/cooldown.go:233-247 | the branches of the comparison decide exactly the row order |
| `CooldownListing.InsertRow` | workbuddy/cooldown.go:232-249 | one outer iteration inserts a row into the sorted prefix |
| `CooldownListing.ListingIsDeterministic` | workbuddy/cooldown.go:213-250 | two walks over the same table list the same rows in the same order, by account and then by model |
| `Sorting.SortIsCanonical` | workbuddy/cooldown.go:230-250 | two lists of the same comparable elements sort to the same list |
| `StreamClean.EmptyValues` | workbuddy/payload.go:454-477 | null, the empty string and list, and objects of nothing but empty values count as empty |
| `StreamClean.StripDelta` | workbuddy/stream.go:349-366 | removes exactly the empty function call, the empty tool-call list and the empty padding fields |
| `StreamClean.CleanChunk` | workbuddy/stream.go:332-385 | cleans every choice, or drops the chunk at the first choice with nothing left and no finish reason |
| `StreamClean.CleaningRemoves` | workbuddy/stream.go:332-385 | cleaning removes the padding of every delta and nothing else |
| `StreamClean.CleaningDrops` | workbuddy/stream.go:367-374 | and drops exactly the chunks with a choice of nothing but padding and no finish reason |
| `StreamClean.CleanIsIdempotent` | workbuddy/stream.go:332-385 | cleaning twice is cleaning once |
| `StreamFold.MergedMeaning` | workbuddy/stream.go:539-564 | a merged call has the concatenated name and arguments of its fragments and their first ID and type |
| `StreamFold.CallAt` | workbuddy/stream.go:460-478 | the call of an index depends on that index's own fragments only |
| `StreamFold.InterleavingDoesNotMatter` | workbuddy/stream.go:460-510 | any interleaving that keeps the order within each index gives the same calls, in index order |
| `StreamFold.MergeToolCalls` | workbuddy/stream.go:460-478 | the loop adds a chunk's fragments in order |
| `StreamFold.FoldChoices` | workbuddy/stream.go:448-484 | the loop adds each choice's role, content, reasoning, calls and finish reason |
| `StreamFold.AggregateCompletion` | workbuddy/stream.go:399-533 | the first fault before the end mark, a read error of a broken stream, an error if no choice ever came, or the completion: all content and reasoning in order, the last role, finish reason, ID, model, time and usage, and every merged call once in index order |
| `StreamFold.FoldReports` | workbuddy/stream.go:399-493 | folding the frames collects exactly what the chunks before the end say |
| `StreamFold.CallsInOrder` | workbuddy/stream.go:505-512 | every merged call is emitted once, in ascending order of its index |
| `StreamLossless.KeptChunk` | workbuddy/stream.go:332-385 | a kept chunk says what the raw one says, however many choices it has |
| `StreamLossless.CleaningLosesExactly` | workbuddy/stream.go:332-385 | cleaning keeps what a chunk adds to any reply exactly when the chunk is kept or all its choices are silent, and the empty reply already tells |
| `StreamLossless.SingleChoiceLosesNothing` | workbuddy/stream.go:367-374 | a chunk of at most one choice loses nothing |
| `StreamLossless.CleanThenFold` | workbuddy/stream.go:332-510 | for any stream of chunks that lose nothing, cleaning and then folding gives the same role, content, reasoning, calls and finish reason as folding |
| `StreamLossless.OneChunkExactly` | workbuddy/stream.go:332-510 | for a stream of one chunk, that condition is also necessary |
| `StreamLossless.MultiChoiceLoses` | workbuddy/stream.go:370-374 | a concrete chunk of two choices that is dropped although one of them speaks |
| `HostStream.DirectStream.Read` | workbuddy/host_bridge.go:329-356 | each read gives the next bytes; an error that comes with bytes is reported by the next read |
| `HostStream.StreamReader.constructor` | workbuddy/host_bridge.go:409-411 | everything the stream has left is pending |
| `HostStream.StreamReader.Give` | workbuddy/host_bridge.go:427-430 | what does not fit is buffered |
| `HostStream.StreamReader.Read` | workbuddy/host_bridge.go:413-448 | the bytes returned are the next pending ones, and the end is reported only when nothing is pending |
| `HostStream.ReadAll` | workbuddy/host_bridge.go:413-448 | for any chunking, end flags, delayed errors and nonempty buffers, exactly the concatenated chunks and then the upstream's end |
| `RateLimit.Limiter.AllowManagementRequest` | workbuddy/management.go:602-634 | refill, cap, charge and eviction as specified, under one bucket for unknown clients |
| `RateLimit.Limiter.EvictIdle` | workbuddy/management.go:626-632 | exactly the entries idle for more than ten minutes go |
| `RateLimit.AllowMeaning` | workbuddy/management.go:602-634 | a request costs its own client one token if it is admitted and nobody else anything; eviction changes no level |
| `RateLimit.EvictionIsUnobservable` | workbuddy/management.go:625-632 | every decision is the one of a table that never evicts |
| `RateLimit.SpentAtMostEarned` | workbuddy/management.go:612-625 | tokens left plus requests admitted are at most the tokens at the start plus those earned |
| `RateLimit.AtMostFivePlusRate` | workbuddy/management.go:559-563 | over any interval a client gets at most five requests plus one for every six seconds |
| `RateLimit.PatientClientIsAdmitted` | workbuddy/management.go:612-625 | a client that stayed away for six seconds is admitted |
| `RateLimit.BurstIsAdmitted` | workbuddy/management.go:602-625 | the first five requests of a client are admitted however fast they come |
| `RealmUnion.AddItemsAt` | workbuddy/panel_realm_catalog.go:105-135 | one account's items change an ID exactly when it says something of it and wins there |
| `RealmUnion.UnionIsBest` | workbuddy/panel_realm_catalog.go:189-245 | an ID is kept exactly when some account speaks of it, with the copy of the newest fetch and then the smallest auth ID |
| `RealmUnion.UnionIgnoresOrder` | workbuddy/panel_realm_catalog.go:105-173 | the union does not depend on the listing order |
| `RealmCatalog.MergeItems` | workbuddy/panel_realm_catalog.go:113-132 | the merging loop, with its first-seen order list |
| `RealmCatalog.SelectAccount` | workbuddy/panel_realm_catalog.go:88-99 | one account's snapshot enters its realm's selection |
| `RealmCatalog.PanelRealmSelections` | workbuddy/panel_realm_catalog.go:67-102 | one pass over the accounts selects both realms |
| `RealmCatalog.DisplayIsForemost` | workbuddy/panel_realm_catalog.go:249-258 | the displayed account is executable before failed, then newest, then of the smallest auth ID |
| `RealmCatalog.SelectionIgnoresOrder` | workbuddy/panel_realm_catalog.go:67-102 | facts, campaigns, displayed account and loaded flag do not depend on the listing order |
| `RealmCatalog.BuildPanelRealmModels` | workbuddy/panel_realm_catalog.go:318-364 | one row for every model of either realm, each cell present, absent or not loaded, in the order of the IDs |
| `RealmPanel.BuildPanelRealmCatalog` | workbuddy/panel_realm_catalog.go:262-265 | one ascending row for every model some usable account knows; each cell shows the fact of the newest such account of its realm, then of the smallest auth ID, or absent or not loaded; each realm reports its foremost account |
| `RealmPanel.PanelMeaning` | workbuddy/panel_realm_catalog.go:189-407 | the same for any panel of the two selections |
| `RealmCatalog.RowsAreDetermined` | workbuddy/panel_realm_catalog.go:318-375 | two panels of selections with the same facts are equal |
| `RealmPanel.PanelIgnoresOrder` | workbuddy/panel_realm_catalog.go:318-375 | two listings of the same accounts give equal rows and equal statuses |
| `RealmPanel.StatusAgreesWithRows` | workbuddy/panel_realm_catalog.go:377-407 | a realm's status says loaded exactly when no row's cell of that realm is not loaded |
| `TextOrder.LessTotal` | workbuddy/panel_realm_catalog.go:369-375 | the text order tells any two strings apart |
| `TextOrder.LessMeaning` | workbuddy/panel_realm_catalog.go:369-375 | a text is before another exactly if it ends first or has the smaller rune where they part |
| `Promotions.ClockRoundTrip` | workbuddy/promotions.go:412-436 | every minute of the day, and its end, is read back from its written form |
| `Promotions.FieldsMeaning` | workbuddy/promotions.go:412-418 | the fields of a clock time are its parts between the colons |
| `Promotions.ClockMeaning` | workbuddy/promotions.go:412-436 | exactly which clock times are accepted, and their minute |
| `Promotions.WindowMeansInterval` | workbuddy/promotions.go:387-407 | for every offset a window is open at a UTC minute exactly when the local minute lies in the named interval, over midnight if need be; a window exists exactly when both times parse, and is valid |
| `Promotions.BoundedStringList` | workbuddy/promotions.go:555-573 | the first distinct nonblank names up to the limit, each bounded; a limit of zero or below is none |
| `Promotions.NormalizeWindows` | workbuddy/promotions.go:349-360 | the first sixteen usable windows |
| `Promotions.NormalizeOnePromotion` | workbuddy/promotions.go:271-317 | a campaign without ID or models, or switched off, is skipped; otherwise its ID, models and windows are the bounded ones |
| `Promotions.CampaignMeaning` | workbuddy/promotions.go:271-407 | a campaign of short names is kept exactly if it has an ID and some model and is on; it names its first 256 distinct models and is open exactly in its first sixteen usable daily intervals |
| `Promotions.NormalizeModelPromotions` | workbuddy/promotions.go:255-269 | the first 128 usable campaigns |
| `Promotions.PromotionsMeaning` | workbuddy/promotions.go:255-269 | the usable campaigns are exactly the entries that normalize, in their order |
| `Promotions.ValidateModelPromotions` | workbuddy/model_store.go:269-293 | the validator accepts exactly the lists within 128 campaigns of 256 models and 16 windows each, all in range |
| `Promotions.NormalizedIsValid` | workbuddy/promotions.go:255-317 | whatever upstream sends, the normalized list is within those bounds |

## Left out

- FallbackAtLeastAsNew: speaks of the fallback read that finds a stored catalog; a read that fails falls to a failed snapshot.
- DurableBeforeEffects: says nothing of the disk once the login has expired, because any other login's write may sweep an expired record; WrittenBeforeEffects covers that case.
- CommitFeatureRuntime: the previous configuration is read in the same step, while the code reads it before taking the lock; the path that stores hidden models without the lock and the rewriting of context lengths inside published snapshots are not modelled.
- NormalizeOnePromotion: labels, badges, discounts and validity dates of a campaign are not modelled.
- CleanThenFold: compares what the model said; response ID, model name, creation time, usage and the empty-stream error can differ when a chunk is dropped.
- RunRefines: holds under a clock that does not go back between calls; the code reads the clock just before it takes the lock.
- SortCooldownSnapshotByAuth: rows are keys and holds rather than rendered JSON objects; the per-account sort by model alone is the same loop on one account.
- PanelRealmSelections: the two realms are two results rather than a map, and IDs arrive trimmed; tiers and the order of the campaign list depend on the listing order and are not modelled.
- AggregateCompletion: the defaults for an empty role, finish reason, ID, model or time, which are filled in afterwards.
- ReadAll: one live upstream body; the host's stream call is not modelled.
- Readiness: models are their IDs, and metadata enrichment, realms, campaigns and timestamps of a snapshot are dropped.
- Readiness: the fetch and the lock-held section after it are one step, so a fetch result is chosen when it is used; slots, calls and channels are values in maps rather than shared objects.
- Readiness: clearing the metadata and raising the generation on invalidation are two sections, and no claim is made about metadata freshness in between.
- Check-in: messages, auth IDs, receipts and the credit cache; the calendar is any nondecreasing day function, and the per-account mutex is not relied on.
- Check-in: the scheduling loop, the fan-out over accounts and the lifecycle hook after a confirmed retry.
- Pending login: cookies, client mode, region and the proxy client; an unreadable record counts as damage, the number of records as a failed write, and pending and error replies are not told apart.
- Pending login: one login at a time; concurrent polls of it are serialized by its mutex.
- Term obscuring: which prompt fields are rewritten; a text is a sequence of runes and the regular expression engine is leftmost, first-alternative, non-overlapping matching under an arbitrary case folding in which U+200B stands alone.
- Cache files: encoding and validation of the documents, temporary files and permissions; a document written is assumed to decode to itself.
- Quota holds: classification of error texts and parsing of retry headers into numbers.
- Rate limit: the rounding of floating-point tokens.
- Byte reader: the 32 KB limit of one upstream read.
- Campaigns: labels, badges, discounts, validity dates and zone lookup; how an overlong text is cut is arbitrary, because the byte-wise cut is not always rune-safe.
- Model credits, context tiers, the model overlay, header building, URL handling and the panel pages: tables and thin wrappers.

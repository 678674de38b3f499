# Verified model of the SMS gateway server

This project models the stateful core of the Go service in `sms-gateway-server` and proves what its
protocols keep. `dafny verify dfyconfig.toml` checks all of it.

| files | what they model |
|---|---|
| `PubSub*.dfy` | the in-memory publish/subscribe bus, goroutine by goroutine |
| `Settings*.dfy` | filtering and merging of device settings, and the two requests that change them |
| `TokenStore.dfy`, `TokenService.dfy`, `TokenRevocation.dfy` | issuing, refreshing, revoking, checking and cleaning up tokens, one call after the other |
| `TokenRotation.dfy` | the same table under overlapping refreshes, with row locks |
| `Push*.dfy` | the push queue: one pass at a time, and with calls landing inside a pass |
| `Message*.dfy` | messages: enqueueing, reports, cancelling, hashing, cleanup, and the cache in front |
| `Sse*.dfy` | the registry of server-sent-event connections and sending through it |
| `Worker*.dfy` | worker processes that share named locks of one MySQL server |
| `Options.dfy` | a value that may be missing |
| `LastSeen.dfy` | the batched update of `last_seen` |

Each part has the same shape. Operations are pure functions on the state; the classes and loops that
change state in the source are classes and loops here, proved equal to those functions. Protocols are
state machines over atomic steps, with an inductive invariant and theorems about every run. Beside
them, `MessageCalls.dfy`, `PubSubHistory.dfy`, `SseHistory.dfy` and lemmas in the other files state what
each operation does, and what the state says of the calls made, without naming the functions that define
it.

## How the source is read

- Database tables are maps, a transaction or a single SQL statement is one step. Channels are
  sequences, a goroutine is a phase, a lock is a field. Ids drawn from uuid or nanoid generators are
  fresh. The database, the caches and the clock do not fail where no failure is mentioned.
- Go maps that are mutated through several references are addresses into an explicit store
  (`SettingsTree.Arena`), so that sharing and frames can be stated. A failed merge leaves the first
  tree half written, as the source does; nobody reads it after that.
- A token whose signature is good is one that was handed out. Times of tokens are nanoseconds, one
  reading of the clock per call; issue and expiry are cut to whole seconds as the JWT library does, and
  the database's own clock shows whole seconds of the same time. A token is accepted strictly before
  its expiry (section 4.1.4 of RFC 7519).
  A pair returned beside an error is dropped by the handler, so a failed call hands out nothing.
- Number and content hashes are arbitrary functions; where it matters the number hash is injective on
  the numbers that occur. The two places that hash numbers, SQL and Go, are one function.
- Ids, users, device ids and numbers compare as exact strings, in the tables as in cache keys. Under a
  database collation that ignores case, a row could be found under an id whose cache key is another.
- What a periodic task does is not modelled, only how it ends: success, failure or panic is a parameter
  of the round. So is whether its release gets through. It gets lost when the context it is given is
  cancelled while the task runs, as at shutdown, or when the request fails on its way.
- The push client is any function that answers a batch with an error, with nothing, or with one
  outcome per message.

## What turned out not to hold

- **Close of the bus can be overtaken.** Close waits for the goroutines it knows of. A Subscribe that
  checked the signal before it was given may register after Close has returned; `CloseReturnsClean`
  gives the exact condition, `CloseCanBeOvertaken` the run. Such a subscriber still cleans up after
  itself. Worse, if the last goroutine ends while Close waits and such a Subscribe starts its own before
  Close has looked again, the wait group panics and ends the program: `WaitGroupPanicsIff` is the
  exact condition, `WaitGroupCanPanic` a run from the start.
- **Cleanup of tokens can revive a revoked token** if it is configured with a negative age, which no
  validation rules out. `UnnoticedIff` and `NoNegativeAge` are the exact condition.
- **A token may be born expired**, since its expiry is cut to the second: it is accepted when handed
  out if and only if now is before now plus its lifetime, cut to the second (`Lives`, in
  `GeneratedPairWorks` and `RefreshReplaces`). That is so at every moment exactly for lifetimes of a
  second or more (`LivesAlwaysIff`); `BornExpired` is a case where it fails.
- **Revoking all tokens of a user can be outlasted** by a refresh that has read its token before and
  whose token expires at the very moment of the revocation: the revocation looks for tokens that expire
  later, the rotation refuses those that expired earlier. `RevokeUserEndsIff` is the exact condition,
  `RevokeUserOvertaken` a case.
- **A report may miss its recipient.** Reported numbers get a plus sign if they lack one, stored
  numbers do not: encrypted numbers and numbers accepted without validation that do not start with a
  plus sign are never matched. `ReportReachesIff` is the exact condition. Such a report is taken for
  one about the number with the plus sign: a report about `123` changes the row of `+123` if the
  message has one, and no row otherwise (`ReportStepReaches`).
- **A failed persist loses what it drained.** `CaughtUpIff` says exactly when `last_seen` has caught up.
- **A lost release leaks the lock.** The pooled session keeps it, and being picked again does not help:
  the next round takes the lock once more and releases it once. Until that session ends no other
  process runs the task (`LeakShutsOut`); who is granted a lock, and when, is `GrantedIff`.
- Which field a rejected settings tree is blamed on depends on the order in which Go visits a map, so
  the contract only promises that the named field offends.

## Model

| member | source | states |
|---|---|---|
| `PubSubModel.TopicTable.Subscribe` | sms-gateway-server/pkg/pubsub/memory.go:118-128 | Joining adds the subscriber under its topic and touches nothing else. |
| `PubSubModel.TopicTable.Unsubscribe` | sms-gateway-server/pkg/pubsub/memory.go:130-142 | Leaving takes the subscriber out and drops a topic that has become empty. |
| `PubSubModel.RemoveUndoesAdd` | sms-gateway-server/pkg/pubsub/memory.go:118-142 | Leaving after joining restores the table exactly, entry of the topic included; other topics never change. |
| `PubSubSafety.SenderNeedsOpenChannel` | sms-gateway-server/pkg/pubsub/memory.go:65-82 | The invariant that makes a send legal: a live sender implies the channel it sends on is open. |
| `PubSubSafety.CloserFindsOpenChannel` | sms-gateway-server/pkg/pubsub/memory.go:104-113 | The reaper about to close a channel finds it open, so no channel is closed twice. |
| `PubSubSafety.StepSafe` | sms-gateway-server/pkg/pubsub/memory.go:43-155 | Every one of the twenty-three kinds of step of publishers, subscribers, reapers and the closer keeps the invariant over lock, table and channels. |
| `PubSubSafety.ChannelsNeverPanic` | sms-gateway-server/pkg/pubsub/memory.go:43-142 | In every interleaving: no message is sent on a closed channel and none is closed twice, no closed channel is in the table or has a sender, buffers keep to their size. |
| `PubSubHistory.PublishMade` | sms-gateway-server/pkg/pubsub/memory.go:43-63 | In every run, a call is there if and only if a step made it, with the topic and the data of that step. |
| `PubSubHistory.SubscribeMade` | sms-gateway-server/pkg/pubsub/memory.go:87-102 | The same for subscriptions and their topics. |
| `PubSubHistory.CallAnswers` | sms-gateway-server/pkg/pubsub/memory.go:43-52 | Which error a call gets: closed comes before an empty topic. |
| `PubSubHistory.TargetsAtLockTime` | sms-gateway-server/pkg/pubsub/memory.go:54-64 | Whom a call is for is settled when it takes the read lock: exactly the subscriptions to the topic it was made with that were inserted by then and not deleted. |
| `PubSubHistory.SubscriptionLasts` | sms-gateway-server/pkg/pubsub/memory.go:104-142 | A subscription is deleted only if it was cancelled or the bus closed. |
| `PubSubDelivery.TargetsStay` | sms-gateway-server/pkg/pubsub/memory.go:54-84 | Those targets never change afterwards. |
| `PubSubDelivery.PublishDelivers` | sms-gateway-server/pkg/pubsub/memory.go:54-84 | When Publish returns, each target took the message exactly once unless the call, that subscription or the bus was called off; nobody else took it. |
| `PubSubHistory.PublishReaches` | sms-gateway-server/pkg/pubsub/memory.go:54-84 | By the steps of the run alone: a returned call gave its message exactly once to whoever was subscribed to its topic at its read lock, unless call, subscription or bus was called off, and to nobody else. |
| `PubSubHistory.LaterCallComesLater` | sms-gateway-server/pkg/pubsub/memory.go:65-84 | A call made after another returned comes after it in every channel that took both. |
| `PubSubHistory.PublishCompletes` | sms-gateway-server/pkg/pubsub/memory.go:54-84 | With room in the channels, or readers waiting, a Publish that has the lock serves all it is still to serve and returns by its own steps alone. |
| `PubSubHistory.SubscribeGoesThrough` | sms-gateway-server/pkg/pubsub/memory.go:87-128 | With the lock free a subscription is listed by its own steps. |
| `PubSubHistory.CancelGoesThrough` | sms-gateway-server/pkg/pubsub/memory.go:104-142 | A cancelled one is taken off the list by its own steps, and its channel closed. |
| `PubSubDelivery.PublishesKeepOrder` | sms-gateway-server/pkg/pubsub/memory.go:65-84 | A Publish begun after another returned comes after it in every channel that took both. |
| `PubSubDelivery.AcceptedGrows` | sms-gateway-server/pkg/pubsub/memory.go:65-116 | No step loses or reorders what a channel took. |
| `PubSubShutdown.StepDown` | sms-gateway-server/pkg/pubsub/memory.go:65-155 | After the close signal every step of what is in flight lowers the ranking measure. |
| `PubSubShutdown.RefusedAddsNothing` | sms-gateway-server/pkg/pubsub/memory.go:43-93 | A call that arrives after the signal is refused and leaves the measure as it was. |
| `PubSubShutdown.ShutdownBounded` | sms-gateway-server/pkg/pubsub/memory.go:65-155 | In every run after the signal, refused calls included, what was in flight takes no more steps than the measure at its start. |
| `PubSubShutdown.NeverStuck` | sms-gateway-server/pkg/pubsub/memory.go:65-155 | In every state after the signal that is neither final nor brought down, a step is enabled that waits for no consumer and no cancellation and does not panic. |
| `PubSubShutdown.FinalIsClean` | sms-gateway-server/pkg/pubsub/memory.go:130-155 | With all calls returned the table is empty, no lock is held, every channel is closed. |
| `PubSubShutdown.WindsDown` | sms-gateway-server/pkg/pubsub/memory.go:104-155 | From every reachable state after the signal there is an unaided run, free of panics, to that clean end. |
| `PubSubShutdown.StoppedIsFinal` | sms-gateway-server/pkg/pubsub/memory.go:104-155 | Under every schedule: a run that cannot go on has reached the clean end, unless the wait group panicked. |
| `PubSubShutdown.CloseReturnsClean` | sms-gateway-server/pkg/pubsub/memory.go:87-155 | When Close returns, everything is released if and only if no Subscribe call is between its check of the signal and the start of its goroutine. |
| `PubSubShutdown.WaitGroupPanicsIff` | sms-gateway-server/pkg/pubsub/memory.go:104-155 | After the signal some run ends in a wait-group panic if and only if a Subscribe past its check is still on its way while Close waits or may yet wait for another goroutine, or has started one before Close looked again. |
| `PubSubShutdown.WaitGroupCanPanic` | sms-gateway-server/pkg/pubsub/memory.go:87-155 | A run from the start of the program that ends in such a panic. |
| `PubSubShutdown.CloseCanBeOvertaken` | sms-gateway-server/pkg/pubsub/memory.go:87-155 | The concrete run in which Close returns and a subscriber registers afterwards. |
| `SettingsTree.FilterMap` | sms-gateway-server/internal/sms-gateway/modules/settings/utils.go:81-106 | The loop over the rules, in any order, succeeds exactly if the tree fits the rules and then returns the filtered tree; on failure it names a field that offends. |
| `SettingsTree.Arena.AppendMap` | sms-gateway-server/internal/sms-gateway/modules/settings/utils.go:109-147 | The in-place, randomly ordered merge refines the pure overlay: same success, same tree, whatever the order; only maps of the first tree are written. |
| `SettingsTree.Arena.MergeSection` | sms-gateway-server/internal/sms-gateway/modules/settings/utils.go:113-137 | One section: merged into the section there is or into a new map, failing exactly if its part of the patch does not fit. |
| `SettingsTree.Arena.MergeLeaf` | sms-gateway-server/internal/sms-gateway/modules/settings/utils.go:138-143 | One leaf: the value of the patch is stored, null included, and the merged tree shares nothing it may still write. |
| `SettingsTree.Arena.Decode` | sms-gateway-server/internal/sms-gateway/modules/settings/repository.go:29-65 | Decoding a stored row builds fresh maps that share nothing. |
| `SettingsSpec.FilterConforms` | sms-gateway-server/internal/sms-gateway/modules/settings/utils.go:81-106 | A filtered tree conforms to the rules at every depth. |
| `SettingsSpec.FitsByPath` | sms-gateway-server/internal/sms-gateway/modules/settings/utils.go:81-106 | A tree is accepted if and only if at no depth it has a plain value where the rules name a section. |
| `SettingsSpec.FilterFixes` | sms-gateway-server/internal/sms-gateway/modules/settings/utils.go:81-106 | Filtering keeps a tree unchanged if and only if the tree conforms. |
| `SettingsSpec.FilterIdempotent` | sms-gateway-server/internal/sms-gateway/modules/settings/utils.go:81-106 | Filtering again succeeds and changes nothing. |
| `SettingsSpec.FilterTwice` | sms-gateway-server/internal/sms-gateway/modules/settings/utils.go:48-106 | Filtering by larger rules and then by smaller ones equals filtering by the smaller ones. |
| `SettingsSpec.FilterByPath` | sms-gateway-server/internal/sms-gateway/modules/settings/utils.go:81-106 | At every leaf the rules name, the filtered tree shows the original value. |
| `SettingsSpec.OverlayOnNothing` | sms-gateway-server/internal/sms-gateway/modules/settings/utils.go:109-147 | Merging into empty settings equals filtering. |
| `SettingsSpec.OverlayOfFiltered` | sms-gateway-server/internal/sms-gateway/modules/settings/service.go:50-56 | Merging a patch and merging what the filter leaves of it give the same tree. |
| `SettingsSpec.OverlayConforms` | sms-gateway-server/internal/sms-gateway/modules/settings/utils.go:109-147 | Merging into conforming settings gives conforming settings. |
| `SettingsSpec.OverlayAssociative` | sms-gateway-server/internal/sms-gateway/modules/settings/utils.go:109-147 | At any depth, applying p then q equals applying the merge of p and q once. |
| `SettingsSpec.OverlayIdempotent` | sms-gateway-server/internal/sms-gateway/modules/settings/utils.go:109-147 | Applying the same patch again changes nothing. |
| `SettingsSpec.OverlayByPath` | sms-gateway-server/internal/sms-gateway/modules/settings/utils.go:109-147 | Each leaf path holds the value of the patch if it has one, else the old one. |
| `SettingsSpec.OverlayElsewhere` | sms-gateway-server/internal/sms-gateway/modules/settings/utils.go:109-147 | What no rule names is left as it was. |
| `SettingsRules.PublicRulesAreRules` | sms-gateway-server/internal/sms-gateway/modules/settings/utils.go:14-77 | The public rules are a sub-tree of the rules, kind by kind. |
| `SettingsRules.SecretLeaves` | sms-gateway-server/internal/sms-gateway/modules/settings/utils.go:14-77 | The passphrase and the signing key are the only leaves the public rules leave out. |
| `SettingsService.RunConforms` | sms-gateway-server/internal/sms-gateway/modules/settings/service.go:50-80 | Stored settings conform after any sequence of PUT and PATCH of any users. |
| `SettingsService.LeafIsStored` | sms-gateway-server/internal/sms-gateway/modules/settings/service.go:50-80 | After any history each leaf holds what the last PUT of that user, or a later PATCH with a value there, said; requests that do not fit or are of others count for nothing. |
| `SettingsService.HistoryIsOneRequest` | sms-gateway-server/internal/sms-gateway/modules/settings/service.go:50-80 | Any history of requests has, for each user, the effect of one single PATCH or PUT. |
| `SettingsService.PublicView` | sms-gateway-server/internal/sms-gateway/modules/settings/service.go:37-48 | The public view of stored settings never fails and shows each public leaf as stored. |
| `SettingsService.HiddenLeaf` | sms-gateway-server/internal/sms-gateway/modules/settings/service.go:37-48 | A leaf the public rules do not name is never shown. |
| `SettingsService.Service.GetSettings` | sms-gateway-server/internal/sms-gateway/modules/settings/service.go:37-48 | A read returns the stored tree, or its public view, and cannot fail. |
| `SettingsService.Service.UpdateSettings` | sms-gateway-server/internal/sms-gateway/modules/settings/service.go:50-64 | PATCH through filter, transaction and public filter equals the pure step; it succeeds exactly if the patch fits. |
| `SettingsService.Service.MergeRow` | sms-gateway-server/internal/sms-gateway/modules/settings/repository.go:29-65 | Read the row, merge in place, write it back: the stored row becomes the overlay. |
| `SettingsService.Service.ReplaceSettings` | sms-gateway-server/internal/sms-gateway/modules/settings/service.go:66-80 | PUT equals the pure step and answers with the public view of what is now stored. |
| `TokenStore.Repository.Insert` | sms-gateway-server/internal/sms-gateway/jwt/repository.go:21-33 | Both rows go in or none. |
| `TokenStore.Repository.IsRevoked` | sms-gateway-server/internal/sms-gateway/jwt/repository.go:45-54 | True exactly if the row is there with a time of revocation. |
| `TokenStore.Repository.RotateRefreshToken` | sms-gateway-server/internal/sms-gateway/jwt/repository.go:56-99 | Which error, in which order; on any error the table is as before. |
| `TokenService.RunInv` | sms-gateway-server/internal/sms-gateway/jwt/service.go:61-193 | Over every history each row says what its token says (user, expiry, use), and a token without a row has expired. |
| `TokenRevocation.GeneratedPairWorks` | sms-gateway-server/internal/sms-gateway/jwt/service.go:61-133 | What a new pair is: scopes, the exact expiry of both tokens (lifetime capped by the configuration, cut to the second), linked rows; accepted at once, and rotatable at once, if and only if the cut leaves something; and exactly when none is issued. |
| `TokenRevocation.TakenIdRefused` | sms-gateway-server/internal/sms-gateway/jwt/repository.go:21-33 | A pair with an id that is taken is not handed out, and nothing changes. |
| `TokenRevocation.RefreshReplaces` | sms-gateway-server/internal/sms-gateway/jwt/service.go:135-184 | A refresh revokes the old refresh token and issues a pair of the same user and scopes with the configured lifetimes cut to the second, accepted and rotatable at once under the same exact conditions; every other row is untouched. |
| `TokenRevocation.LivesAlwaysIff` | sms-gateway-server/internal/sms-gateway/jwt/service.go:82-84 | A lifetime survives the cut at every moment if and only if it is a second or more. |
| `TokenRevocation.BornExpired` | sms-gateway-server/internal/sms-gateway/jwt/service.go:61-100 | A concrete moment and lifetime at which the pair handed out is refused at once. |
| `TokenRevocation.RefreshGoesThroughIff` | sms-gateway-server/internal/sms-gateway/jwt/service.go:135-184 | A refresh goes through if and only if the token is a valid refresh token that is not revoked. |
| `TokenRevocation.RefreshAnswers` | sms-gateway-server/internal/sms-gateway/jwt/service.go:135-184 | Every answer of a refresh: invalid, replay or a pair, and nothing changes unless it is a pair. |
| `TokenRevocation.ParseAnswers` | sms-gateway-server/internal/sms-gateway/jwt/service.go:195-233 | Every answer of a check: accepted if and only if handed out, in time and not revoked; revoked told apart from invalid. |
| `TokenRevocation.HandedOutIffAnswered` | sms-gateway-server/internal/sms-gateway/jwt/service.go:61-184 | A token counts as handed out if and only if some call of the history answered with it. |
| `TokenRevocation.RevokeTokenKills` | sms-gateway-server/internal/sms-gateway/jwt/repository.go:35-43 | Revoking by id or by the id of the access token issued with it leaves the token dead. |
| `TokenRevocation.RevokeTokenExactly` | sms-gateway-server/internal/sms-gateway/jwt/repository.go:35-43 | It revokes the row of the id and of the refresh token issued with it, if they are the user's, in the current second; rows revoked earlier and all others are as they were. |
| `TokenRevocation.RevokeByUserKills` | sms-gateway-server/internal/sms-gateway/jwt/repository.go:117-127 | Revoking by user leaves every token of the user dead, rows deleted earlier included. |
| `TokenRevocation.RevokeByUserExactly` | sms-gateway-server/internal/sms-gateway/jwt/repository.go:117-127 | It revokes the unexpired rows of that user, touches no other, and answers how many it revoked. |
| `TokenRevocation.DeadForever` | sms-gateway-server/internal/sms-gateway/jwt/service.go:135-233 | A dead token is refused by ParseToken and RefreshTokenPair after any further calls, cleanups included. |
| `TokenRevocation.AcceptedIffNeverHit` | sms-gateway-server/internal/sms-gateway/jwt/service.go:195-233 | Until it expires a token is accepted if and only if no call has revoked or rotated it. |
| `TokenRevocation.CleanupUnnoticed` | sms-gateway-server/internal/sms-gateway/jwt/repository.go:109-115 | Erasing every cleanup from a history changes no answer to any call. |
| `TokenRevocation.YoungCleanupRevives` | sms-gateway-server/internal/worker/tasks/tokens/cleanup.go:41-52 | Whatever the lifetimes, an age of minus two nanoseconds or less lets cleanup make a revoked token good again just before it expires. |
| `TokenRevocation.UnnoticedIff` | sms-gateway-server/internal/worker/tasks/tokens/cleanup.go:41-52 | Cleanups of one age go unnoticed in every history if and only if the age is at least minus one nanosecond, the tick of the clock. |
| `TokenRevocation.NoNegativeAge` | sms-gateway-server/internal/worker/tasks/tokens/cleanup.go:41-52 | For ages counted in any coarser unit: if and only if the age is not negative. |
| `TokenRevocation.Service.GenerateTokenPair` | sms-gateway-server/internal/sms-gateway/jwt/service.go:102-133 | The method equals the pure step, in answer and in effect. |
| `TokenRevocation.Service.RefreshTokenPair` | sms-gateway-server/internal/sms-gateway/jwt/service.go:135-193 | The method equals the pure step: parse, generate, rotate, each error in its place. |
| `TokenRevocation.Service.ParseToken` | sms-gateway-server/internal/sms-gateway/jwt/service.go:195-242 | The method equals the pure step: signature and times first, then the table. |
| `TokenRotation.StepKeeps` | sms-gateway-server/internal/sms-gateway/jwt/repository.go:56-99 | With refreshes overlapping at every point, row locks explicit: each step keeps the invariant over rows, locks, refreshes and chains. |
| `TokenRotation.FinishIsTransaction` | sms-gateway-server/internal/sms-gateway/jwt/repository.go:56-99 | The commit under the lock does to the table what the transaction is specified to do, with ids that cannot clash. |
| `TokenRotation.FinishAnswers` | sms-gateway-server/internal/sms-gateway/jwt/repository.go:62-80 | At its commit a token revoked by then is a replay, even if expired too; one only expired is invalid; any other is rotated; failures change nothing. |
| `TokenRotation.OtherStepsAreCalls` | sms-gateway-server/internal/sms-gateway/jwt/service.go:102-133 | Every step but those of a refresh is a call to the service of one call after the other. |
| `TokenRotation.AloneIsCall` | sms-gateway-server/internal/sms-gateway/jwt/service.go:135-184 | A refresh that nothing comes between is one call to that service: same table, same tokens, same success. |
| `TokenRotation.RefreshGates` | sms-gateway-server/internal/sms-gateway/jwt/service.go:135-184 | When a refresh can begin, when it gets its row, and that it commits only with the row locked. |
| `TokenRotation.WaitsIff` | sms-gateway-server/internal/sms-gateway/jwt/repository.go:56-127 | A revocation or cleanup waits if and only if it would change or delete a locked row. |
| `TokenRotation.RotatesAtMostOnce` | sms-gateway-server/internal/sms-gateway/jwt/repository.go:56-99 | No two refreshes, however they overlap, both replace the same token. |
| `TokenRotation.SuccessorsFollow` | sms-gateway-server/internal/sms-gateway/jwt/service.go:135-184 | A successful refresh puts its pair right after the token it replaced: descent from one GenerateTokenPair is a chain. |
| `TokenRotation.OneLiveRefresh` | sms-gateway-server/internal/sms-gateway/jwt/repository.go:72-86 | At most one refresh token of a chain is unrevoked: the last. |
| `TokenRotation.ChainKeepsScopes` | sms-gateway-server/internal/sms-gateway/jwt/service.go:155-184 | Every access token of a chain carries the user and scopes of the first. |
| `TokenRotation.GenerateStartsChain` | sms-gateway-server/internal/sms-gateway/jwt/service.go:102-184 | Each call to GenerateTokenPair has a chain that starts with its pair, all of whose access tokens are for the user and the scopes it was asked for. |
| `TokenRotation.DeadNeverRotates` | sms-gateway-server/internal/sms-gateway/jwt/repository.go:56-99 | A revoked or deleted refresh token never rotates, not even for a refresh that had read it before. |
| `TokenRotation.RevokeUserEndsIff` | sms-gateway-server/internal/sms-gateway/jwt/repository.go:56-127 | After all tokens of a user are revoked, some run makes a chain of that user longer if and only if a refresh is under way whose token expires at that very moment; otherwise every chain of the user is ended for good, whatever overlaps. |
| `TokenRotation.RevokeUserOvertaken` | sms-gateway-server/internal/sms-gateway/jwt/repository.go:72-127 | A concrete run up to a revocation that a refresh under way outlasts. |
| `PushModel.SameKeyIff` | sms-gateway-server/internal/sms-gateway/modules/push/types.go:25-27 | As long as no event type contains a colon, two events share an entry exactly if token and type agree, colons in tokens notwithstanding. |
| `PushModel.Service.Drain` | sms-gateway-server/internal/sms-gateway/modules/push/service.go:124-154 | Draining returns every entry once, in some order, and empties the queue. |
| `PushModel.Service.Retry` | sms-gateway-server/internal/sms-gateway/modules/push/service.go:203-237 | The loop equals the fold of single retries: count, blacklist at three, else put back only if the key is free. |
| `PushModel.Service.SendAll` | sms-gateway-server/internal/sms-gateway/modules/push/service.go:124-201 | For every client that keeps its contract: it is handed the token and the event of every queued entry, once each, and its reply makes the pass the pure pass. |
| `PushModel.PassEntries` | sms-gateway-server/internal/sms-gateway/modules/push/service.go:124-237 | After a pass an entry is there if and only if it did not go through and was not tried for the third time, with one retry more; there are no others. |
| `PushModel.PassBlacklist` | sms-gateway-server/internal/sms-gateway/modules/push/service.go:203-222 | A pass blacklists, for a quarter of an hour, exactly the tokens of entries that failed their third try. |
| `PushModel.PassFalls` | sms-gateway-server/internal/sms-gateway/modules/push/service.go:124-237 | With nothing new enqueued a pass lowers the sum of 3 - retries by at least the number of entries, and keeps entries under their own keys with fewer than three retries. |
| `PushModel.WeightIsSum` | sms-gateway-server/internal/sms-gateway/modules/push/service.go:203-237 | The level-by-level count used there is that sum, in whatever order the entries are drained. |
| `PushModel.ThreePassesEmpty` | sms-gateway-server/internal/sms-gateway/modules/push/service.go:124-237 | After three passes the queue is empty even if the client always fails. |
| `PushOrder.StepKeeps` | sms-gateway-server/internal/sms-gateway/modules/push/service.go:92-237 | With Enqueue landing anywhere inside a pass, each step keeps the invariant over queue, batch, failed items, history and places. |
| `PushOrder.NeverBackwards` | sms-gateway-server/internal/sms-gateway/modules/push/service.go:92-233 | What the client is handed for one key never goes back to an event enqueued earlier; a repetition has more retries. |
| `PushOrder.SentAtMostThrice` | sms-gateway-server/internal/sms-gateway/modules/push/service.go:203-213 | No event is handed over four times. |
| `PushOrder.HandedAsAsked` | sms-gateway-server/internal/sms-gateway/modules/push/service.go:92-157 | Over all runs, what is handed to the client under a ticket is the token and the event the call to Enqueue that drew it was asked to push. |
| `PushOrder.EveryEventAccounted` | sms-gateway-server/internal/sms-gateway/modules/push/service.go:124-237 | Every event enqueued is in exactly one place: queued under its key, at the client, to be retried, or done with. |
| `PushOrder.DoneWith` | sms-gateway-server/internal/sms-gateway/modules/push/service.go:92-237 | Done with means: went through when it was last handed over, given up after three tries, or dropped for a newer event of the same key; so the newest is never dropped. |
| `PushOrder.DoneForGood` | sms-gateway-server/internal/sms-gateway/modules/push/service.go:124-237 | What became of an event never changes again. |
| `PushOrder.GivenUpIsSkipped` | sms-gateway-server/internal/sms-gateway/modules/push/service.go:92-222 | For a quarter of an hour after an event is given up, whatever else happens, calls to Enqueue for its token get nowhere. |
| `PushOrder.EnqueueHeardIff` | sms-gateway-server/internal/sms-gateway/modules/push/service.go:92-122 | Enqueue gets nowhere if and only if an event of its token was given up less than a quarter of an hour ago; otherwise its event takes the entry of its key. |
| `PushOrder.BlacklistLasts` | sms-gateway-server/internal/sms-gateway/modules/push/service.go:92-100 | Until that time, whatever else happens, Enqueue for the token gets nowhere. |
| `PushOrder.UndisturbedIsPass` | sms-gateway-server/internal/sms-gateway/modules/push/service.go:124-237 | The steps of a pass that nothing interrupts amount to the pure pass. |
| `MessageTracking.HashingInvisible` | sms-gateway-server/internal/sms-gateway/modules/messages/repository.go:146-197 | Erasing every hashing pass from any history leaves every answer, state, history and recipient state as it was; numbers and contents shown are originals or hashes of originals. |
| `MessageTracking.RecipientsStayDistinct` | sms-gateway-server/internal/sms-gateway/modules/messages/service.go:308-317 | Recipients of a message stay distinct, hashed or not. |
| `MessageTracking.ReportReachesIff` | sms-gateway-server/internal/sms-gateway/modules/messages/service.go:368-394 | A report that names a number as enqueued reaches its row if and only if the number is empty or starts with a plus sign. |
| `MessageTracking.ReportStepReaches` | sms-gateway-server/internal/sms-gateway/modules/messages/service.go:93-122 | A report about one number updates the row whose number, as enqueued, is the reported number with its plus sign, whether hashed by now or not, and leaves every other recipient as it was. |
| `MessageTracking.ReportWithoutPlus` | sms-gateway-server/internal/sms-gateway/modules/messages/service.go:368-376 | A report about a number without a plus sign sets the recipient enqueued with one. |
| `MessageCalls.PrepareMeans` | sms-gateway-server/internal/sms-gateway/modules/messages/service.go:302-312 | Numbers given as they are to be kept are kept; others are replaced by what the parser makes of them, and one it rejects fails the call. |
| `MessageCalls.EnqueueAnswers` | sms-gateway-server/internal/sms-gateway/modules/messages/service.go:241-350 | Every error of Enqueue, in its order; a call that fails changes nothing. |
| `MessageCalls.EnqueueStores` | sms-gateway-server/internal/sms-gateway/modules/messages/service.go:294-364 | The row a call adds, field by field, and that it touches no other. |
| `MessageCalls.ReportAnswers` | sms-gateway-server/internal/sms-gateway/modules/messages/repository.go:116-131 | A report is for the one message of that id on that device; none and several are told apart. |
| `MessageCalls.ReportFound` | sms-gateway-server/internal/sms-gateway/modules/messages/repository.go:133-144 | In every history ids stay unique on a device, so a report goes through if and only if the device has a message of that id. |
| `MessageCalls.CancelAnswers` | sms-gateway-server/internal/sms-gateway/modules/messages/repository.go:199-210 | Every error of a cancellation. |
| `MessageCalls.LastReportCounts` | sms-gateway-server/internal/sms-gateway/modules/messages/repository.go:161-168 | For each recipient the last report naming it counts; one that nobody names stays as it is. |
| `MessageCalls.ReportReaches` | sms-gateway-server/internal/sms-gateway/modules/messages/repository.go:146-168 | What any list of reports does to each recipient of the stored row, the number read with its plus sign and hashed if the row is. |
| `MessageCalls.HashExactly` | sms-gateway-server/internal/sms-gateway/modules/messages/repository.go:180-197 | Which messages a pass hashes, what that does to them, and that it does nothing else. |
| `MessageCalls.CleanupExactly` | sms-gateway-server/internal/sms-gateway/modules/messages/repository.go:212-219 | A cleanup deletes exactly the messages before the date that are neither Pending nor Cancelling. |
| `MessageCalls.ReportTakesHold` | sms-gateway-server/internal/sms-gateway/modules/messages/service.go:93-122 | A report changes one message: state (Pending becomes Processed), new history times; content and hashing stay. |
| `MessageTracking.MessageLater` | sms-gateway-server/internal/sms-gateway/modules/messages/repository.go:146-210 | Over all runs: Pending is never entered again by message or recipient, hashed content and numbers never change, history times are write-once. |
| `MessageTracking.PendingIsAsEnqueued` | sms-gateway-server/internal/sms-gateway/modules/messages/repository.go:133-197 | A Pending message is unhashed with its enqueued content, numbers and Pending recipients. |
| `MessageTracking.CancellingWaits` | sms-gateway-server/internal/sms-gateway/modules/messages/repository.go:180-219 | Until its device reports, a Cancelling message is neither hashed nor cleaned up nor changed. |
| `MessageTracking.CancelGoesThroughIff` | sms-gateway-server/internal/sms-gateway/modules/messages/repository.go:199-210 | Cancelling succeeds exactly if the one message of that user and id is Pending, and touches only it. |
| `MessageTracking.NothingLeftToHash` | sms-gateway-server/internal/sms-gateway/modules/messages/repository.go:180-197 | A hashing pass leaves nothing hashable among its ids, or at all if it was given none. |
| `MessageTracking.GoneByCleanup` | sms-gateway-server/internal/sms-gateway/modules/messages/repository.go:212-219 | A message disappears only by a cleanup that found it neither Pending nor Cancelling and older than its date. |
| `MessageCache.KeysApart` | sms-gateway-server/internal/sms-gateway/modules/messages/cache.go:31-82 | Two cache keys are equal exactly if user and id are, for users without a colon. |
| `MessageCache.ReadTellsTheTruth` | sms-gateway-server/internal/sms-gateway/modules/messages/service.go:168-205 | In sequential runs with cache expiry, a read gives the state and device of the table, and "not found" exactly if there is no such message. |
| `MessageCache.ReadAnswers` | sms-gateway-server/internal/sms-gateway/modules/messages/service.go:168-205 | A read that finds an entry answers with it; one that does not shows every field of the row, and caches it or the note that there is none. |
| `MessageCache.ExpiredReadsRow` | sms-gateway-server/internal/sms-gateway/modules/messages/service.go:168-205 | Once an entry has gone, the next read shows every field as the table then has it. |
| `MessageCache.EnqueueCaches` | sms-gateway-server/internal/sms-gateway/modules/messages/service.go:241-292 | What is answered and cached after Enqueue is what is stored. |
| `MessageCache.ReportCaches` | sms-gateway-server/internal/sms-gateway/modules/messages/service.go:93-141 | After a report the cached entry has the new state with recipients and times as reported, and the message is queued for hashing. |
| `MessageCache.CancelCaches` | sms-gateway-server/internal/sms-gateway/modules/messages/service.go:209-239 | A cancellation answers with the message as it is then, and caches that. |
| `MessageCache.ProcessHashesQueued` | sms-gateway-server/internal/sms-gateway/modules/messages/workers.go:53-75 | The worker hashes what is queued and no other message, even if nothing is queued. |
| `MessageCache.ActKeeps` | sms-gateway-server/internal/sms-gateway/modules/messages/cache.go:31-82 | Every call keeps cache and table in agreement, the "not found" marker included. |
| `MessageService.CreateStates` | sms-gateway-server/internal/sms-gateway/modules/messages/repository.go:152-159 | Insert-if-absent in any order is the union in which the history wins. |
| `MessageService.UpdateRecipient` | sms-gateway-server/internal/sms-gateway/modules/messages/repository.go:161-168 | One report updates the rows with its number and no others. |
| `MessageService.Repository.Get` | sms-gateway-server/internal/sms-gateway/modules/messages/repository.go:116-131 | No match, one match and several matches are told apart; empty fields do not filter. |
| `MessageService.Repository.Insert` | sms-gateway-server/internal/sms-gateway/modules/messages/repository.go:133-144 | A second message with the same id on the same device is refused. |
| `MessageService.Repository.UpdateState` | sms-gateway-server/internal/sms-gateway/modules/messages/repository.go:146-178 | State, history and recipients after the loops are those of the pure update; other messages keep. |
| `MessageService.Repository.CancelMessage` | sms-gateway-server/internal/sms-gateway/modules/messages/repository.go:199-210 | Only Pending messages of that user and id become Cancelling; an error exactly if there is none. |
| `MessageService.HashingWorker.Process` | sms-gateway-server/internal/sms-gateway/modules/messages/workers.go:59-75 | Hashes what was queued and empties the queue; with nothing queued it asks for nothing, though an empty list would mean everything. |
| `MessageService.Service.ProcessQueue` | sms-gateway-server/internal/sms-gateway/modules/messages/workers.go:59-75 | Equals the pure action of the worker on table and queue; the cache is not touched. |
| `MessageService.RecipientsStateToModel` | sms-gateway-server/internal/sms-gateway/modules/messages/service.go:368-394 | The loop over reports: plus sign, Pending, hash, element by element. |
| `MessageService.PrepareNumbers` | sms-gateway-server/internal/sms-gateway/modules/messages/service.go:294-317 | The in-place cleaning loop and the search for duplicates give the cleaned numbers, the first kind of error, or the second. |
| `MessageService.Service.Enqueue` | sms-gateway-server/internal/sms-gateway/modules/messages/service.go:241-292 | Equals the pure action on table, cache and queue. |
| `MessageService.Service.UpdateState` | sms-gateway-server/internal/sms-gateway/modules/messages/service.go:93-141 | Equals the pure action: find, update, cache as reported, queue for hashing. |
| `MessageService.Service.GetState` | sms-gateway-server/internal/sms-gateway/modules/messages/service.go:168-205 | Equals the pure lookup, cached or not. |
| `MessageService.Service.CancelMessage` | sms-gateway-server/internal/sms-gateway/modules/messages/service.go:209-239 | Equals the pure action: find, cancel, drop the entry, read again. |
| `SseRegistry.WithoutCuts` | sms-gateway-server/internal/sms-gateway/modules/sse/service.go:227-231 | Removal drops exactly one element and keeps the others in order. |
| `SseRegistry.CutInPlace` | sms-gateway-server/internal/sms-gateway/modules/sse/service.go:231-231 | The shift in the memory of the list does the same in place and leaves what lies behind untouched. |
| `SseRegistry.Service.RegisterConnection` | sms-gateway-server/internal/sms-gateway/modules/sse/service.go:197-221 | Appends the connection to the list of its device. |
| `SseRegistry.Service.RemoveConnection` | sms-gateway-server/internal/sms-gateway/modules/sse/service.go:223-248 | The search loop with the cut equals the pure removal: one signal closed if it was listed, none otherwise, no empty list kept. |
| `SseRegistry.Service.CloseAll` | sms-gateway-server/internal/sms-gateway/modules/sse/service.go:107-118 | Closes every listed signal once, in any order of devices, and empties the registry. |
| `SseDelivery.StepKeeps` | sms-gateway-server/internal/sms-gateway/modules/sse/service.go:54-248 | Register, send, read, leave, remove and close in any interleaving keep the invariant. |
| `SseDelivery.NeverFindsClosed` | sms-gateway-server/internal/sms-gateway/modules/sse/service.go:77-82 | The branch of Send for closed connections is unreachable. |
| `SseDelivery.ClosedAtMostOnce` | sms-gateway-server/internal/sms-gateway/modules/sse/service.go:107-248 | In every run no close signal is closed twice. |
| `SseDelivery.NothingLost` | sms-gateway-server/internal/sms-gateway/modules/sse/service.go:147-181 | What a connection received followed by its buffer of at most eight is what it accepted, in order. |
| `SseDelivery.SendAccounts` | sms-gateway-server/internal/sms-gateway/modules/sse/service.go:54-105 | After Send each connection listed when it began accepted the event exactly once or had a full buffer, nobody else did, and success means somebody did. |
| `SseHistory.ListIsConnected` | sms-gateway-server/internal/sms-gateway/modules/sse/service.go:107-248 | In every run the list of a device is the connections registered for it, in order, less those removed, and empty after a close. |
| `SseHistory.SendReaches` | sms-gateway-server/internal/sms-gateway/modules/sse/service.go:54-105 | By the steps of the run alone: whoever was connected for the device when Send began accepted the event once or was found full, and nobody else accepted it. |
| `SseHistory.FullMeansEight` | sms-gateway-server/internal/sms-gateway/modules/sse/service.go:71-92 | Found full means that eight events were waiting at that moment. |
| `SseHistory.SendGoesOn` | sms-gateway-server/internal/sms-gateway/modules/sse/service.go:54-105 | What a Send does next: the next connection is handed the event if fewer than eight wait there and passed over otherwise; at the end of the list it returns. |
| `SseHistory.SendCompletes` | sms-gateway-server/internal/sms-gateway/modules/sse/service.go:54-105 | A Send waits for nobody: by its own steps alone it ends, one for each connection and one to return. |
| `SseHistory.ReadsAll` | sms-gateway-server/internal/sms-gateway/modules/sse/service.go:152-169 | A connection that is read until nothing waits has received all it accepted, in that order. |
| `SseHistory.LeavesAndGoes` | sms-gateway-server/internal/sms-gateway/modules/sse/service.go:133-248 | A connection is left once and then removed once, when no Send is under way. |
| `SseHistory.RemovedIsGone` | sms-gateway-server/internal/sms-gateway/modules/sse/service.go:223-248 | Once removed it is on no list and its close signal has been closed once. |
| `SseHistory.ClosedIffGone` | sms-gateway-server/internal/sms-gateway/modules/sse/service.go:107-248 | A close signal has been closed, once, if and only if its connection is no longer connected. |
| `WorkerLock.MutualExclusion` | sms-gateway-server/internal/worker/locker/mysql.go:35-90 | Across any number of processes at most one runs a given task, even if releases or answers get lost and idle sessions end. |
| `WorkerLock.OneInLock` | sms-gateway-server/internal/worker/executor/service.go:88-97 | The same for the whole stretch from the grant to the request to release. |
| `WorkerLock.NoPreviousConnection` | sms-gateway-server/internal/worker/locker/mysql.go:54-60 | AcquireLock never finds a previous connection on record. |
| `WorkerLock.CloseFindsNothing` | sms-gateway-server/internal/worker/locker/mysql.go:94-104 | With no task under way Close changes nothing. |
| `WorkerLock.GrantedIff` | sms-gateway-server/internal/worker/locker/mysql.go:45-52 | A task that has a session is granted its lock if and only if no other task of the key holds it and it has not leaked through another session. |
| `WorkerLock.LossLeaks` | sms-gateway-server/internal/worker/locker/mysql.go:77-82 | A release that gets lost, or a grant that does, leaves the lock leaked through its session. |
| `WorkerLock.LeaksOnlyByLoss` | sms-gateway-server/internal/worker/locker/mysql.go:35-90 | A lock leaks in no other way. |
| `WorkerLock.LeakStays` | sms-gateway-server/internal/worker/locker/mysql.go:35-90 | Nothing but the end of the session takes a leak away, however often the session is picked, granted the lock and released. |
| `WorkerLock.EndFrees` | sms-gateway-server/internal/worker/locker/mysql.go:77-82 | A session that ends gives up every lock it held, leaked or not, and no other. |
| `WorkerLock.LeakShutsOut` | sms-gateway-server/internal/worker/locker/mysql.go:35-90 | Once a lock has leaked, no task of another process is granted it until the session ends. |
| `WorkerLock.LeakHappens` | sms-gateway-server/internal/worker/locker/mysql.go:67-90 | A run from the start that ends with a leaked lock. |
| `WorkerService.Locker.AcquireLock` | sms-gateway-server/internal/worker/locker/mysql.go:35-64 | Records the session exactly if the lock was granted, and returns it to the pool otherwise. |
| `WorkerService.Locker.ReleaseLock` | sms-gateway-server/internal/worker/locker/mysql.go:67-90 | Forgets the session, releases if the request gets through, and always returns the session to the pool. |
| `WorkerService.Locker.Close` | sms-gateway-server/internal/worker/locker/mysql.go:94-104 | Every recorded session goes back to the pool. |
| `WorkerService.ReleaseUndoesGrant` | sms-gateway-server/internal/worker/locker/mysql.go:35-90 | A release restores the locks of the server to what they were before the grant. |
| `WorkerService.Executor.Execute` | sms-gateway-server/internal/worker/executor/service.go:88-119 | A round is a run of the machine of all processes, and the task runs in a state of it in which no other task of its key does; whether it succeeds, fails, panics or does not run, locks, records, pool and active count are as before unless the release is lost; results are observed except of a panic. |
| `LastSeen.Entries` | sms-gateway-server/internal/sms-gateway/modules/devices/repository.go:131-138 | Every entry of the batch once, in any order. |
| `LastSeen.UpdatedIsRaise` | sms-gateway-server/internal/sms-gateway/modules/devices/repository.go:140-157 | The CASE statement of one chunk is one pointwise maximum. |
| `LastSeen.RaiseTwice` | sms-gateway-server/internal/sms-gateway/modules/devices/repository.go:140-163 | Chunk after chunk is the maximum over all entries so far, none twice. |
| `LastSeen.Repository.SetLastSeenBatch` | sms-gateway-server/internal/sms-gateway/modules/devices/repository.go:126-165 | The chunked loop equals one pointwise maximum; if a chunk fails, the chunks before it are written and nothing else. |
| `LastSeen.WholeSeconds` | sms-gateway-server/internal/sms-gateway/online/service.go:56-65 | The cached time is the whole second of the time given. |
| `LastSeen.Online.Persist` | sms-gateway-server/internal/sms-gateway/online/service.go:79-128 | Drains the cache and raises the table by what was drained, or on failure, which happens exactly if the broken chunk has entries, by the chunks before it. |
| `LastSeen.NeverBackInTime` | sms-gateway-server/internal/sms-gateway/modules/devices/repository.go:126-165 | Over all runs last_seen never decreases while the device exists. |
| `LastSeen.DevicesThere` | sms-gateway-server/internal/sms-gateway/modules/devices/repository.go:126-165 | Setting online and persisting neither add devices nor remove any. |
| `LastSeen.CaughtUpIff` | sms-gateway-server/internal/sms-gateway/online/service.go:56-128 | In every history the table has caught up with a device if and only if it started there or some persist, successful or not, wrote the latest time. |
| `LastSeen.PersistCatchesUp` | sms-gateway-server/internal/sms-gateway/online/service.go:56-128 | So with times in order it has after a persist, if every persist succeeded. |
| `LastSeen.FailedPersistForgets` | sms-gateway-server/internal/sms-gateway/online/service.go:79-128 | A persist that fails loses what it had drained, and the next does not make up for it. |

## Left out

- HTTP handlers, middleware, routing, dependency injection, metrics and logging: no state worth proving.
- The Redis bus, the FCM and upstream push clients and the ORM: code of others.
- Signing, SHA-256, JSON encoding and phone-number parsing: functions with the assumptions named above.
- Failures of the database and of the caches, except where a step or a parameter names them.
- Waiting readers and writers of the bus other than the one writer a Go read-write mutex prefers.
- PubSubShutdown.WaitGroupPanicsIff: closing a channel and leaving the wait group are one step of a goroutine, and so are leaving as the last one and the check that follows it, because nothing else reads what lies between.
- A second call to Close of the bus, which the program does not make.
- Message expiry, schedule, priority, SIM number and delivery-report flags, and the check that a schedule precedes the expiry: carried along unchanged by the code.
- Splitting `UpdateState` of messages around a concurrent hashing pass, and several servers draining one Redis push queue: the code promises nothing there.
- MessageCache.ReadTellsTheTruth: assumes one device per user and message id, no message deleted and cache writes that succeed, because the source does not invalidate the cache otherwise; it says nothing of cached recipients and history, which are those reported.
- PushOrder.SentAtMostThrice: counts batches handed to the client, not what the client does with them.
- WorkerLock.MutualExclusion: a session in use stays alive and task names differ within a process; if the server ends a pinned session the source does not notice.
- WorkerService.Executor.Execute: the other processes take no step during the round; the machine of `WorkerLock` lets them.
- TokenRotation.StepKeeps: deadlocks and lock timeouts of the database are not modelled; a refresh in the model that never ends keeps its lock.
- One-time codes, the login and device caches, the queue limiter, device selection and health checks: the same kind of state as above, or single thresholds.
- The `call/` directory and `order-app-demo/`: browser, modem and SMPP input and output.

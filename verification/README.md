# Verified model of the durable agent runtime

This project models the crash-safety core of the runtime and proves properties
of it with Dafny 4.11: `dafny verify dfyconfig.toml` checks all of it.

The system journals every step of an agent's run to a Kafka log before acting
on it, rebuilds a run's state by folding that log, guards every tool with a
side effect by an idempotency record in Redis, and projects the log into
Postgres. Four parts carry its promises, and they are modelled as one system.

**The fence** (`Fence`, `FenceSafety`, `FenceReturn`, `FenceAfter`,
`FenceUndone`, `FenceForever`, `FenceAnyTiming`, `FenceHonest`, `FenceFrozen`, `FenceSkew`,
`Schedules`, `Store`, `World`, `Guard`, `Settings`, `Ledger`, `Records`,
`IdemKey`). It is written twice. `Fence` is a transition system: any number of
workers on one key, a compare-and-set store whose replies may be lost, a clock,
key expiry, crashes at every point, and the outside world's ledger for the key.
`Guard` is the code: `Run`, `retry`, `waitUntilSettled`, `reconcile`,
`takeOver`, `execute`, `resolve`, as methods over `World`, which supplies the
`RedisStore`, the tool, the clock and everybody else's steps in between. Every
method of `Guard` is proved to be a schedule of `Fence`, one on which its own
worker keeps the time allowances that the safety proof needs, so every theorem
about schedules is a theorem about the code.

**The fold** (`Events`, `Replay`, `ReplayLaws`, `ReplayHeap`, `Messages`).
`Replay` is what an event does to a state, as functions; `ReplayHeap` is how
the code does it, with slices over backing arrays that `append` writes in place
while there is room, maps and pointers on the heap, a deep clone and writes into
the clone, proved equal to the functions and never to touch its input.

**The driver** (`DriveLog`, `DriveBounds`, `Journal`, `Progress`, `Loop`,
`EndToEnd`, `ExitThree`, `PullRequests`). `Loop` is the worker: publish, apply, act, with publishes that may
land and report an error, or land again behind later events, injected crashes, resumes and redeployed registries.
It runs side effects through the verified `Guard`. `DriveLog` says which logs
the loop can write; `EndToEnd` says what such a log proves about the world, and
`PullRequests` what it proves about the ledger file of open_pr.

**The projector** (`Projection`, `Projector`, `ProjectionFold`, `RowAhead`). One database
transaction per event, offsets committed afterwards, any number of instances
stopping anywhere; and the agreement of tables and fold.

## Assumptions

Each is a hypothesis of the theorems that need it, or a stated property of the
environment the methods run in.

- Claim tokens and event ids are fresh.
- A store operation is atomic; its reply may be lost. Every attempt takes
  effect, or not, before it times out. Keys vanish only by expiry, and all
  workers share one TTL.
- No worker freezes inside the protocol: it spends in each phase at most the
  time its retries or its tool may take, plus `lag` (`Fence.Prompt`). This is
  needed: `FenceFrozen.FrozenClaimantDuplicates` exhibits two effects without
  it. Results that do not need it are in `FenceAnyTiming` and `FenceHonest`.
  For the code's own worker, `World` bounds each attempt, sleep and tool call by
  construction, so a freeze of the live worker is excluded there; what `Guard`
  proves is that its retries, waits and calls add up to no more than its
  allowances.
- Clocks differ by at most `skew`, which is at most the expiry margin less the
  sub-second part of the TTL that the script drops; the grace covers three
  retry budgets, five lags and the skew (`Fence.ClocksAgree`,
  `Fence.GraceCovers`). The skew bound cannot be relaxed: one microsecond more,
  and a schedule on which everyone is prompt ends with two effects
  (`FenceSkew.SkewBoundIsSharp`). With the default grace the second condition is
  exactly `5 * lag + skew < 13.5s` (`Settings.DefaultGraceCovers`).
- Tools keep the contract of `internal/tools/tool.go:32-64`; `Ledger` proves
  that `open_pr` does.
- A publish lands, at any time and behind any later events, before a successor
  reads the log, or never. One live worker owns a run's journal at a time. Run
  ids contain no `:` (they are UUIDs).
- What the tables store as UUID is one, and no text holds a NUL: Postgres refuses
  such a text for good, so that message is poison. The driver refuses a number
  outside its INT column before sending it.

## What the proofs found

- `cmd/worker/main.go:51` says that exit code 3 means no terminal event was
  written. That is false when the publish that failed was of the terminal event
  and a copy of it landed all the same (`ExitThree.AmbiguousEnd`), and in no other
  case: after any exit that was not a verdict of the fence or the LLM, the run has
  ended exactly if the event of the last publish is terminal and is in the log
  (`Loop.Loop.PublishApply`, `Loop.Loop.Supervise`).
- `internal/idempotency/guard.go:351-356` ignores that resolving failed. The
  outcome returned is true at that moment (`FenceReturn.ReturnAgrees`), and a
  success stays true (`FenceAfter.SuccessSurvives`). An error does not: if the key
  was not resolved and the tool can be reconciled, another worker on the same key
  may take the stale claim over, hear "not applied" and make the effect after all
  (`FenceUndone.ErrorCanBeUndone`). While the key has not expired that is the exact
  condition (`FenceUndone.ErrorSurvivesIff`); with nobody else on the key an error
  stands too (`FenceUndone.AloneStays`). Recording an error protects it no longer
  than its key lives: for good, it stands exactly if the tool cannot be asked
  (`FenceForever.ErrorIsFinalIff`).
- A ledger line cut short by a failed write makes every later lookup fail, for
  every key, for good (`Ledger.TornBlocksForever`): the fence then stays
  unavailable instead of guessing.
- A message whose statements cannot be sent is retried forever by the projector,
  because the classifier takes any error that is not Postgres's own for a
  transient one, although `cmd/projector/main.go:137-144` describes such a message
  as poison to stop at. That is a new event whose payload does not decode, one
  whose step does not fit the INT column, or any event whose sequence number does
  not. Those are exactly the messages retried without a fault
  (`Projection.RetriedIff`); no instance ever gets past one
  (`Projector.NobodyPasses`, `Projector.StuckConsumer`).
- The fold accepts a second `RunStarted`, which rewrites the conversation
  (`Messages.SecondStartRewrites`). The conversation grows at exactly the events
  that are redeliveries, no `RunStarted`, or repeat the prompt
  (`Messages.ConversationGrows`), so always in the logs the loop writes
  (`Messages.DriveConversationGrows`).
- For logs the loop does not write, the runs row and the fold differ on a run
  that works on while waiting for approval (`RowAhead.RowRunsAhead`), and on events
  that name another step; `ProjectionFold.RowKeepsUp` says exactly when they agree.
- `internal/agent/loop.go:318-323` promises that a redeploy never changes what
  counts as a side effect. It keeps the journaled word: a call of a tool that was
  registered as side-effecting when it was invoked is never run outside the fence
  (`EndToEnd.SideEffectsAreFenced`). The other way round it does not help: a call of
  a tool that was unknown when it was invoked is journaled as having no side effect,
  and a later process that knows the tool runs it outside the fence, exactly because
  that is the journaled word (`Loop.Loop.RunInFlightTool`).
- `internal/agent/loop.go:376-387` can fail a run because the record under its key
  is not its own. On a key that only its own invocation uses that never happens
  (`Loop.Loop.CallGuard`): the branch is unreachable.
- `internal/idempotency/record.go:5` says a key never moves backwards. It does at
  exactly one step, the expiry of a key whose time has come
  (`FenceHonest.NeverBackwards`).

## Model

| member | source | states |
|---|---|---|
| FenceSafety.StepKeeps | internal/idempotency/guard.go:124-359 | every step of any worker, crash, expiry or tick keeps the invariant that ties the key, the ledger and every worker's phase together |
| FenceSafety.AtMostOneEffect | internal/idempotency/guard.go:120-142 | over every schedule of claims, takeovers, lost replies, expiries, crashes and restarts, the outside world holds at most one effect under the key |
| FenceSafety.OutcomeAgrees | internal/idempotency/guard.go:201-209 | a resolved record, and an outcome about to be returned, always agree with the outside world |
| FenceSafety.NotAppliedStillTrue | internal/idempotency/guard.go:249-307 | an answer "not applied" still holds when the takeover lands, also when its reply was lost and it is recognised by its own token |
| FenceSafety.ExecutionWindow | internal/idempotency/retry.go:12-55 | Execute runs within two retry budgets and the tool timeout of its claim; meanwhile the key is held and cannot expire, nobody can call it stale, and nobody else executes |
| FenceReturn.ReturnAgrees | internal/idempotency/guard.go:337-359 | the outcome returned, by whichever path, is what the outside world holds at that moment: one effect with this result, or none for an error |
| FenceReturn.ExecutesAsLastWriter | internal/idempotency/guard.go:309-316 | with all workers prompt, Execute is under way only while the last claim written to the key was the worker's own |
| FenceAfter.SuccessSurvives | internal/idempotency/guard.go:345-359 | after a success was returned, no further prompt schedule of any workers adds an effect or takes it away, whether or not the key was resolved |
| FenceUndone.ErrorSurvivesIff | internal/idempotency/guard.go:345-359 | an error that was returned stays free of effects, on every prompt schedule on which the key does not expire, exactly if the key is resolved or the tool cannot be reconciled |
| FenceUndone.AloneStays | internal/idempotency/guard.go:345-359 | with no other worker on the key, nothing that happens later changes the ledger |
| FenceUndone.ErrorCanBeUndone | internal/idempotency/guard.go:351-356 | a concrete prompt schedule on which a returned error that was not recorded is followed by an effect of another worker's |
| FenceForever.ErrorIsFinalIff | internal/idempotency/guard.go:165-174 | over all prompt schedules, the key's expiry included, an error that was returned stays free of effects exactly if the tool cannot be reconciled |
| FenceForever.UnreconcilableIsFinal | internal/idempotency/guard.go:249-257 | what was returned for a tool that cannot be reconciled stays true from then on, on every schedule whatever, frozen workers and expiry included |
| FenceAnyTiming.OncePerToken | internal/idempotency/guard.go:309-316 | no claim token is executed under twice, frozen workers included |
| FenceAnyTiming.UnreconcilableOnce | internal/idempotency/guard.go:249-257 | a tool that cannot be reconciled has Execute called at most once per key over all workers and crashes, frozen workers included |
| FenceAnyTiming.AbsentKeySound | internal/idempotency/guard.go:165-174 | a claim acquired while the age test passes is the first the key ever carried, for every skew up to the margin less the TTL's dropped fraction |
| FenceFrozen.FrozenClaimantDuplicates | docs/concepts/phase3.md:97 | a concrete schedule on which a claimant that freezes past its staleness window does duplicate the effect |
| FenceSkew.SkewBoundIsSharp | internal/idempotency/guard.go:422-426 | for every TTL, any skew above that bound, and so one microsecond above clocks that agree, lets a prompt schedule end with two effects |
| FenceHonest.NeverMisleads | internal/idempotency/guard.go:361-374 | the record under a key is never corrupt, another invocation's, or resolved without a result, whatever the timing |
| FenceHonest.NeverBackwards | internal/idempotency/record.go:5-12 | absent, claimed, resolved: a step goes back exactly if it is the expiry of a key whose time has come, and a resolved key changes only to absent |
| FenceHonest.TokenIsNew | internal/idempotency/record.go:22-24 | a token about to be drawn is never the one under which the key is held |
| Store.RedisStore.Claim | internal/idempotency/store.go:72-91 | the claim takes effect exactly when the key is absent, otherwise the stored record or its corruption is reported; no other key changes |
| Store.RedisStore.Get | internal/idempotency/store.go:94-107 | the record under the key, its absence, or its corruption |
| Store.RedisStore.Resolve | internal/idempotency/store.go:110-112 | compare-and-set on the claimed state and the expected token; no other key changes |
| Store.RedisStore.TakeOver | internal/idempotency/store.go:115-117 | compare-and-set on the claimed state and the expected token; no other key changes |
| Store.RedisStore.CompareAndSet | internal/idempotency/store.go:119-133 | the script's conditions, and the TTL cut to whole seconds |
| Store.ClaimIsExclusive | internal/idempotency/store.go:23-25 | of two claims at most one is acquired, and the loser is shown the winner's record |
| Store.SwapOnce | internal/idempotency/store.go:28-31 | after one compare-and-set succeeded, another expecting the same token cannot |
| World.World.Perform | internal/idempotency/store.go:20-32 | a store or reconcile operation does to the key what the fence's step does, and its reply alone tells the worker its new phase |
| World.World.Serve | internal/idempotency/store.go:72-133 | each operation leaves under the key, and answers, what the fence's step does |
| World.World.Attempt | internal/idempotency/retry.go:28-30 | one attempt fails outright, loses its reply, or is answered, within its timeout, with others' steps in between |
| World.World.Sleep | internal/idempotency/retry.go:63-73 | a sleep takes its full time unless it is interrupted |
| World.World.Draw | internal/idempotency/guard.go:398-411 | a first claim's record: a token that the key does not carry and nobody drew before, stamped with the worker's clock and the caller's identity |
| World.World.Issue | internal/idempotency/guard.go:282-283 | a takeover's record: a token that the key does not carry and nobody drew before, stamped with the worker's clock, drawn after the answer it relies on |
| World.World.CheckAge | internal/idempotency/guard.go:422-426 | the age test of an acquired key decides between executing, reconciling and giving up |
| World.World.CheckStale | internal/idempotency/guard.go:417-420 | the age test of somebody else's claim decides between waiting, reconciling and giving up |
| World.World.Execute | internal/tools/tool.go:39-42 | Execute's contract: a result means exactly one effect, an error other than "unknown" means none; what it answered, and whether too late, is remembered |
| World.World.Conclude | internal/idempotency/guard.go:328-333 | the status and result a definite answer is recorded as |
| Guard.Guard.Retry | internal/idempotency/retry.go:24-55 | five attempts with pauses of 200, 400, 800 and 1600ms never exceed 5.5s, and unless it is cancelled it gives up after no fewer; a lost claim or corrupt record is returned at once; undisturbed the first attempt's answer is the key's own |
| Guard.Guard.Run | internal/idempotency/guard.go:124-142 | Execute is called exactly once if the outcome was executed or reexecuted, not at all for any other outcome, and for no error but "outcome unknown" or death; if it was called, what its answer means is what is returned; the fence is unavailable only after a failure or three lost races; the call ends, is a schedule of the fence, and keeps its own allowances; undisturbed, it answers exactly what the decision table calls for and leaves the outcome for the next caller |
| Guard.Guard.Claim | internal/idempotency/guard.go:145-152 | a fresh record is offered: the key is now held under it, or another's record is shown, which never carries the fresh token |
| Guard.Guard.Attempt | internal/idempotency/guard.go:145-163 | one pass through the decision table, under the same promises |
| Guard.Guard.Acquired | internal/idempotency/guard.go:166-174 | a young key is executed, an old one is reconciled first, or is unresolvable; undisturbed the outcome is remembered |
| Guard.Guard.MeetExisting | internal/idempotency/guard.go:177-199 | our own record is an acquired claim; another's is a mismatch, a cached answer, or waited for and then reconciled |
| Guard.Guard.CacheHit | internal/idempotency/guard.go:202-209 | a resolved record with result and status is returned as cached, one without is a mismatch |
| Guard.Guard.Poll | internal/idempotency/guard.go:230-245 | the claim read again: the record the key holds now, verified, or a reason to stop |
| Guard.Guard.WaitUntilSettled | internal/idempotency/guard.go:214-247 | returns only a resolved record or a stale claim, and ends once the others stop writing; undisturbed it returns the very claim it waited on |
| Guard.Guard.Reconcile | internal/idempotency/guard.go:251-276 | without a reconciler always unresolvable; otherwise, undisturbed, an effect that happened is reported and one that did not is made, under the claim then held |
| Guard.Guard.Ask | internal/idempotency/guard.go:258-263 | undisturbed, the answer is the outside world's; otherwise the fence is unavailable and the key left |
| Guard.Guard.Settle | internal/idempotency/guard.go:270-275 | an effect that was found is recorded, one that was not found is executed |
| Guard.Guard.SettleStale | internal/idempotency/guard.go:265-275 | the answer is acted on only after the stale claim was taken over; a lost takeover decides again |
| Guard.Guard.TakeOver | internal/idempotency/guard.go:282-294 | success means the key is held under the fresh token, and undisturbed it succeeds on the claim that was stale; a lost claim is rechecked |
| Guard.Guard.RecheckOwnTakeOver | internal/idempotency/guard.go:296-307 | the takeover counts only if the key carries our own token, otherwise decide again |
| Guard.Guard.CallTool | internal/idempotency/guard.go:311-325 | a result is passed on even at the deadline, an error unless it came late, and nothing else; otherwise the outcome is unknown and the key left claimed |
| Guard.Guard.Execute | internal/idempotency/guard.go:326-335 | what the tool's answer means is returned, unless the process dies: a result as success, a timely error as an error with its prefix, anything else as unknown; a definite answer is resolved under the claim that was held |
| Guard.Guard.Resolve | internal/idempotency/guard.go:341-359 | the outcome is returned whether or not it could be recorded; undisturbed the key then remembers it |
| Guard.Guard.StoreErr | internal/idempotency/guard.go:382-396 | a corrupt record is a mismatch, anything else makes the fence unavailable, and Execute was not called |
| Guard.Guard.CrashHook | internal/idempotency/crash.go:22-25 | the process either dies here, leaving the key as it is, or nothing happens |
| Guard.Guard.RunTwice | internal/idempotency/guard.go:201-209 | two calls of Run, undisturbed: if the first returned an outcome the second returns that result and status from cache and Execute is not called again; the fence is never unavailable |
| Guard.OutcomeIsTrue | internal/idempotency/guard.go:120-124 | what Run returns is what the outside world holds, if nobody else froze |
| Guard.UnknownStaysClaimed | internal/idempotency/guard.go:317-325 | after an unknown outcome the key still carries the caller's claim and the world at most one effect |
| Guard.HonestNeverMismatches | internal/idempotency/guard.go:202-207 | a call on its own invocation's key never reports a record mismatch |
| Settings.DurationOf | cmd/worker/config.go:90-100 | unset is the default, a positive duration is taken as it is, anything else is refused |
| Settings.LoadConfig | cmd/worker/config.go:38-62 | settings are accepted exactly when both durations are and the TTL exceeds tool timeout, grace and margin; the result is what was set, or the defaults |
| Settings.DefaultGraceCovers | cmd/worker/config.go:54-61 | with accepted settings the safety theorem's timing is exactly `5 * lag + skew < 13.5s` |
| Settings.StaleBeforeExpiry | cmd/worker/config.go:54-61 | a claim is stale more than 59 seconds before its key can expire |
| Settings.DefaultsAreSafe | cmd/worker/config.go:14-20 | with the default settings and a second of delay per step, no schedule yields two effects |
| Ledger.Ledger.Record | internal/tools/ledger.go:42-81 | before the write a failure leaves the file alone; after it began, a failure is reported as unknown; success appends the whole line |
| Ledger.Ledger.Entries | internal/tools/ledger.go:97-138 | every entry in append order, or an error if any line does not decode or the file could not be read |
| Ledger.Ledger.FindByKey | internal/tools/ledger.go:83-95 | the first entry under the key, or none if there is none |
| Ledger.CountEntries | internal/tools/mock_open_pr.go:99-107 | the number of the run's entries by the tool |
| Ledger.CountLaws | internal/tools/mock_open_pr.go:99-107 | counting is additive over the entries, so each one counts for itself |
| Ledger.OpenPR.Execute | internal/tools/mock_open_pr.go:59-81 | a result means exactly one more line in the file, with the invocation's own run, call, tool and key, and so one more effect under the key, numbered after the run's earlier ones; a definite error means none; other keys see nothing; it fails only on bad arguments, an unreadable file or a failed write |
| Ledger.OpenPR.Call | internal/tools/tool.go:32-49 | on a fresh key open_pr meets the contract the fence relies on |
| Ledger.OpenPR.Reconcile | internal/tools/mock_open_pr.go:83-97 | the answer is the first effect under the key, or none if there is none |
| Ledger.ReadersSeeEffects | internal/tools/ledger.go:119-138 | what a reader finds under a key is what happened under it |
| Ledger.AppendReads | internal/tools/ledger.go:64-81 | a completed append is readable exactly if the file was and its last line was ended; then it adds its entry |
| Ledger.TornBlocksForever | internal/tools/ledger.go:119-138 | a line cut short makes the ledger unreadable whatever is appended later |
| IdemKey.KeyInjective | internal/idempotency/key.go:16-23 | run ids without `:` never share a key with another run, step or tool_use_id |
| IdemKey.ColonCollides | internal/idempotency/key.go:16-23 | a run id containing `:` can collide, so the condition is needed |
| IdemKey.KeySpelled | internal/idempotency/key.go:16-23 | the key is idem:run:step:id, with the step in decimal that reads back as the step |
| ReplayLaws.ApplyKeepsInv | internal/replay/fold.go:27-81 | an accepted event keeps the fold's invariant, and is a redelivery or exactly the next in sequence |
| ReplayLaws.RefusedWhy | internal/replay/fold.go:27-81 | exactly which events are refused and with which error: conflicts, a wrong first event, another run's, after the end, a gap, and payloads that do not fit the latest step |
| ReplayLaws.FoldKeepsInv | internal/replay/fold.go:87-100 | for every accepted log: `seen` is exactly 0 up to the next sequence number, all but the last step are fully resulted, results are invoked, invoked calls belong to the step and none is invoked twice |
| ReplayLaws.ToolFieldsMean | internal/replay/fold.go:276-305 | the pending calls are exactly the uninvoked ones in content order; the in-flight tool is an open call and carries its own invocation's flag, key and time |
| ReplayLaws.CallsAreBlocks | internal/replay/fold.go:307-318 | every pending call and the in-flight one is the first tool_use block of the latest response with its id, with that block's name and arguments |
| ReplayLaws.OrderLaws | internal/replay/fold.go:196-200 | a step's calls distribute over its blocks, so they are its tool_use blocks in content order |
| ReplayLaws.JoinTextLaws | internal/replay/terminal.go:46-59 | the joined text distributes over the blocks, so it is their texts in order |
| ReplayLaws.OneBlockLaws | internal/replay/fold.go:196-200 | one block is one call or one text, and nothing else |
| ReplayLaws.NextActionMeans | internal/replay/fold.go:326-368 | the next action of every accepted log, from its latest step alone: a call in flight, then a response that ends the run, then calls still to be made, then the LLM again while steps are left |
| ReplayLaws.InFlightToolIsJournaled | internal/replay/fold.go:293-303 | the in-flight tool's flag, key and time are those of the ToolInvoked that was applied while its own step was the latest |
| ReplayLaws.RedeliveryInsensitive | internal/replay/fold.go:28-34 | any number of redelivered copies anywhere after the first, even after the terminal event, change neither the state nor the error |
| ReplayLaws.FoldUpToIsIntermediate | internal/replay/replay.go:39-48 | folding up to a number the run reached gives the state right after that event, the same for every prefix that had got that far |
| ReplayLaws.FoldUpToOutside | internal/replay/replay.go:39-48 | below zero there is no run; past the end it is the whole fold |
| ReplayHeap.CopyMap | internal/replay/state.go:188-199 | the copy has the same entries, in other memory |
| ReplayHeap.CloneStep | internal/replay/state.go:180-201 | an equal step record that shares no map, no backing array of content, order or invokedOrder, and no key pointer with the original |
| ReplayHeap.CloneSteps | internal/replay/state.go:167-170 | equal records, all in new memory; the latest shares none with the others, nor its two lists with each other |
| ReplayHeap.CloneState | internal/replay/state.go:150-178 | an equal state all of whose reachable memory is new: cells, maps, pointers, and the backing arrays of pending, content, order and invokedOrder |
| ReplayHeap.ClonePending | internal/replay/state.go:153-156 | the pending calls in a new backing array, with a new pointer for every key |
| ReplayHeap.CopyInvoked | internal/replay/state.go:188-195 | the same invocations, each key behind a pointer of its own |
| ReplayHeap.Apply | internal/replay/fold.go:27-81 | the result is the fold's, and reaches no object that was there before unless it is the input of a redelivery; no map, step, pointer or backing array of the input is written, on success or on any error |
| ReplayHeap.Append | internal/replay/fold.go:215 | append: into the shared backing array while there is room, otherwise into a new one |
| ReplayHeap.NoteInvoked | internal/replay/fold.go:215-220 | the id appended to invokedOrder, in place or not, and the map entry with its key, leaving order and content as they are |
| ReplayHeap.ApplyPayload | internal/replay/fold.go:120-151 | writing into the clone does what the fold says, or fails as it does, touching only the clone's head and last step, and reaching nothing that was there before the clone |
| ReplayHeap.Started | internal/replay/fold.go:159-170 | RunStarted's fields, or an invalid payload |
| ReplayHeap.Responded | internal/replay/fold.go:172-205 | a new step with its calls in content order, refused while the previous batch is open |
| ReplayHeap.OrderOf | internal/replay/fold.go:196-200 | the tool_use ids in content order |
| ReplayHeap.Invoked | internal/replay/fold.go:207-222 | the call is invoked at most once, and remembers flag, key and time |
| ReplayHeap.Resulted | internal/replay/fold.go:224-237 | exactly one result per call, after its invocation |
| ReplayHeap.CurrentStepFor | internal/replay/fold.go:243-252 | the last step, if the call is one of its own |
| ReplayHeap.DeriveFrom | internal/replay/fold.go:276-305 | one pass finds all pending calls, in a new backing array, and the first in-flight one |
| ReplayHeap.NextActionOf | internal/replay/fold.go:326-368 | the next action of the state the cell holds |
| ReplayHeap.Fold | internal/replay/fold.go:87-100 | the loop folds in order and stops at the first error |
| ReplayHeap.FoldUpTo | internal/replay/replay.go:39-48 | the loop cuts the log at the first later event |
| Messages.ResultTurn | internal/replay/messages.go:50-56 | one answer per call, in order, with that call's result |
| Messages.Messages | internal/replay/messages.go:31-59 | the loop builds the conversation and stops at an open batch |
| Messages.ConversationGrows | internal/replay/messages.go:31-59 | the conversation is a prefix of the one after an accepted event exactly if that is a redelivery, no RunStarted, or repeats the prompt |
| Messages.DriveConversationGrows | internal/replay/messages.go:31-59 | in every log the loop writes, redeliveries included, each event leaves the conversation before it a prefix of the one after it |
| Messages.SecondStartRewrites | internal/replay/fold.go:159-170 | a second RunStarted is accepted and does rewrite it |
| Messages.ConversationLegal | internal/replay/messages.go:31-59 | in a driven run roles alternate and each tool-result turn answers exactly the preceding turn's calls, in order |
| Messages.ConversationTells | internal/replay/messages.go:31-59 | in a driven run the turns are the prompt, each response as it came, and each call's own result, flagged as an error exactly if its status is error |
| Messages.CallEndsWithUser | internal/replay/fold.go:337-368 | whenever the LLM is called next, the conversation ends in a user turn |
| DriveLog.ActionMeans | internal/replay/fold.go:326-368 | what each next action guarantees about the current step, so that no access of the loop is partial |
| DriveLog.EmitKeeps | internal/agent/loop.go:413-446 | every event the loop emits is accepted by the fold and keeps the shape of driven runs |
| DriveLog.EmitMoves | internal/agent/loop.go:187-400 | what each emitted event changes: the whole new step, the invocation, the result, or the ending, and that it leaves everything else |
| DriveLog.EndingMeans | internal/replay/terminal.go:17-44 | a finished run completes exactly if its last response is terminal and not cut short by max_tokens, with that response's text |
| DriveLog.FailureMeans | internal/replay/terminal.go:17-44 | otherwise it fails, as truncated or as malformed |
| DriveLog.DriveLogFolds | internal/agent/loop.go:155-182 | every log the loop writes, with all its redeliveries, folds to a driven run's state |
| DriveBounds.LlmCallsBounded | internal/agent/loop.go:184-230 | a log never holds more LLM responses than the max_steps its RunStarted journaled, however often it is resumed |
| DriveBounds.EmitDescends | internal/agent/loop.go:155-182 | every emitted event moves the run down a well-founded order, whatever the LLM and the tools answer |
| DriveBounds.EndedIffWritten | internal/replay/fold.go:107-116 | a driven log folds to an ended run exactly if a terminal event was written to it |
| Journal.JournalGrows | internal/agent/loop.go:413-446 | publishing an emitted event keeps log and live state equal |
| Journal.PublishedOnce | internal/agent/loop.go:448-478 | an event that landed many times is journaled once |
| Journal.InvokedIsInFlight | internal/agent/loop.go:304-325 | right after its ToolInvoked a call is the one in flight |
| Journal.FencesKeep | internal/agent/loop.go:389-400 | whatever is journaled, keys and results stay in agreement |
| Journal.HonestResume | internal/agent/loop.go:318-332 | a key that was used before was used for this very invocation: same identity, same age |
| Journal.KeyMovesAlone | internal/idempotency/key.go:16-23 | what happens on one invocation's key disturbs no other invocation's result |
| Loop.NewId | internal/agent/loop.go:414 | an event id no event of the run carries |
| Loop.Loop.PublishWithRetry | internal/agent/loop.go:448-478 | of what lands before it returns, the log gains copies of the identical envelope only; success means at least one; it gives up after five failures, and no fewer unless it is cancelled |
| Loop.Loop.LateCopies | internal/agent/loop.go:448-478 | any attempts of any earlier publishes may land behind later events, in any order, and the log still folds to the same state |
| Loop.Loop.Land | internal/agent/loop.go:413-446 | whatever lands of an event and of earlier ones, the run has ended exactly if the event is terminal and landed; success means that it did |
| Loop.Loop.PublishApply | internal/agent/loop.go:413-446 | the fold never refuses; on success the live state is the fold of the log; on every exit the log is one the loop could have written; an error means a publish failed or the process died, and then the run has ended exactly if the event attempted is terminal and in the log |
| Loop.Loop.CallLlm | internal/agent/loop.go:187-230 | the conversation of the state is sent, which is legal; its reply is journaled as it came, a failed call fails the run, and silence ends the process |
| Loop.Loop.Report | internal/agent/loop.go:245-257 | the caller is told completed, failed or truncated, and the final text, as the journal says |
| Loop.Loop.FinishTheRun | internal/agent/loop.go:235-258 | the terminal event owed is journaled, completed or failed, and reported so |
| Loop.Loop.FailRun | internal/agent/loop.go:260-286 | the run ends failed, for the reason given |
| Loop.Loop.Invoke | internal/agent/loop.go:294-316 | what is journaled for the next call is its own step, id, name and arguments, a side effect exactly if the registry says so, and the key exactly then |
| Loop.Loop.InvokeTool | internal/agent/loop.go:294-316 | the call is run only after its ToolInvoked was journaled |
| Loop.Loop.RunInFlightTool | internal/agent/loop.go:324-350 | the journaled flag alone decides: a side effect is run by the fence and by nothing else, or fails the run if its tool is not known; any other call is run outside it, and so recorded; no access is partial; a run whose fence failed stays resumable |
| Loop.Loop.RunSideEffect | internal/agent/loop.go:337-350 | the fence is asked exactly if the tool is known and a fence configured; its verdict is mapped, and nothing is run outside it |
| Loop.Loop.ExecuteUnfenced | internal/agent/loop.go:355-370 | every call of a reading tool gets one result: the tool's text, its error, or that it is unknown |
| Loop.Loop.RunTool | internal/agent/loop.go:359-366 | running a tool outside the fence puts its call on record as run so, and is for calls journaled as having no side effect only |
| Loop.Loop.CallGuard | internal/agent/loop.go:376-378 | Guard.Run on a key with any past, possibly dying in the middle; its outcome is the last thing that happened on the key, it fails without a verdict only if disturbed, and never with a mismatch |
| Loop.Loop.RunFence | internal/agent/loop.go:376-378 | the in-flight tool's own key is used, with the identity and age it had before; every other key is left alone; never a mismatch |
| Loop.Loop.ExecuteFenced | internal/agent/loop.go:376-387 | the guard's verdict fails the run, leaves it resumable, or is journaled; the mismatch branch is unreachable |
| Loop.Loop.NoVerdict | internal/agent/loop.go:378-386 | a side effect that nobody can resolve fails the run, any other failure of the fence leaves it resumable |
| Loop.Loop.JournalToolResult | internal/agent/loop.go:389-400 | the outcome's text, status and resolution are journaled for this call; a side effect's only if its key just returned it |
| Loop.Loop.Act | internal/agent/loop.go:161-174 | every next action of a run that has not ended is handled, and the default branch is unreachable; if the run is ended, it is for the reason the action gives |
| Loop.Loop.Drive | internal/agent/loop.go:155-182 | terminates for every LLM; live state equals the fold of the log throughout; every invocation it journals carries its registry's word; completed and failed are reported as journaled; without a fault the run ends |
| Loop.Loop.Run | internal/agent/loop.go:127-144 | a fresh run, under the same promises |
| Loop.Loop.Resume | internal/agent/loop.go:148-150 | a resumed run, under the same promises |
| Loop.Loop.StartingState | cmd/worker/main.go:127-153 | a replay decides: not found, already ended with its exit code, or the live state to resume |
| Loop.ExitCodeFor | cmd/worker/main.go:208-226 | each exit code, and exactly how a process ended that exits with it |
| Loop.Loop.Restart | cmd/worker/main.go:79-120 | one more process resumes the run however its predecessor ended; a run that has ended is left as it is and reported as it ended; exit 3 means ended exactly if the last event attempted is terminal and landed |
| Loop.Loop.Supervise | cmd/worker/main.go:79-120 | over any number of processes ending anywhere the journal stays sound and only grows; each exit code says whether the run has ended and how, exit 3 by whether the last event attempted is terminal and landed; without a fault the run has ended as the code says |
| ExitThree.AmbiguousEnd | cmd/worker/main.go:49-52 | a run whose RunCompleted failed to publish: the log is one the loop writes, and has ended exactly if a copy landed |
| EndToEnd.EventsAreHeld | internal/replay/fold.go:120-237 | every event of a driven log stays in the state it folds to as it was journaled: the prompt, each response, invocation and result, and the ending |
| EndToEnd.ConversationIsJournal | internal/replay/messages.go:31-59 | the conversation carries the journaled prompt, every journaled response, and every journaled result in the turn after it, an error exactly if it was one |
| EndToEnd.SideEffectsAreFenced | internal/agent/loop.go:296-323 | a call of a tool that was registered as side-effecting when it was invoked is journaled so, with its key, and is never run outside the fence, by this process or any later one |
| EndToEnd.NoKeyTwice | internal/agent/loop.go:372-387 | a key of the run whose workers were prompt never has a second effect |
| EndToEnd.JournaledResultIsTrue | internal/agent/loop.go:372-400 | a journaled success means exactly one effect under its own key with that result, a journaled error means none, over any crashes and resumes and whatever the timing on other keys |
| EndToEnd.JournaledIsHeld | internal/agent/loop.go:389-400 | every journaled result of a side effect is the last return of the key of its own run, step and call |
| EndToEnd.JournaledSuccessSurvives | internal/agent/loop.go:389-400 | a journaled success stays exactly one effect whatever other workers on its key do afterwards |
| EndToEnd.JournaledErrorSurvivesIff | internal/agent/loop.go:389-400 | a journaled error stays free of effects for good exactly if its tool cannot be reconciled; while its key lives, exactly if the key is resolved or the tool cannot be reconciled; and always if the run's worker is alone on the key |
| EndToEnd.RunsNeverCollide | internal/idempotency/key.go:16-23 | two different runs on one store never use the same key |
| PullRequests.FileShowsLedger | internal/tools/ledger.go:42-81 | along any schedule on a key, with other keys' lines and torn lines in between, the file holds under the key what the fence's ledger does |
| PullRequests.OnePullRequest | internal/tools/mock_open_pr.go:59-81 | over any prompt schedule the file never holds two pull requests under one key |
| PullRequests.Execute | internal/tools/mock_open_pr.go:59-81 | a call of open_pr by a worker that may execute is the fence's effect step or none, answers by the tool contract, and is no step for any other key |
| PullRequests.JournaledPullRequest | internal/agent/loop.go:389-400 | a journaled success means one entry with that result under its key in the file, a journaled error none |
| Projection.Database.Apply | internal/store/projection.go:39-86 | one transaction: both tables change as specified or neither does; a lost commit reply reports an error after the change |
| Projection.RetriedIff | internal/store/projection.go:39-86 | an event fails transiently without a fault exactly if its sequence number does not fit its column, or it is new, takes no used id, and its payload does not decode or names a step that does not fit |
| Projection.Database.ApplyWithRetry | cmd/projector/main.go:145-176 | retrying never applies an event twice; it stops at exactly the conflicts and permanent errors; it runs out of attempts only by that many faults, or on a message that cannot be sent, which is never accepted |
| Projection.ReapplyIsNoop | internal/store/projection.go:69-86 | delivering an applied event again changes nothing and is a redelivery |
| Projector.ApplyMessage | cmd/projector/main.go:110-117 | applying the next message extends the consumed prefix or leaves it; it is refused only if poison, and retried without end only if stuck or by faults |
| Projector.ConsumeLoop | cmd/projector/main.go:89-135 | wherever it stops, the tables hold exactly a prefix of the partition and the committed offset does not pass it; it stops short of its messages only at poison, at a message it retries without end, or when stopped, and the offset names that message |
| Projector.StepReaches | cmd/projector/main.go:89-135 | every step of any instance keeps that, and the prefix grows by at most one |
| Projector.StartsBehindCommit | cmd/projector/main.go:86-135 | once an offset is committed, every instance that starts begins behind its message |
| Projector.ApplyDecides | cmd/projector/main.go:89-135 | an attempt without a fault leaves everything as it was exactly at a stuck message, ends the instance exactly at fresh poison, and otherwise consumes the message |
| Projector.ProjectedPrefix | cmd/projector/main.go:86-135 | over all runs of any number of instances the tables hold exactly a growing prefix, consumed once and in order |
| Projector.NobodyPasses | cmd/projector/main.go:137-176 | no offset, no instance and no table of any run of the cluster gets past a stuck or poisoned message |
| Projector.StuckConsumer | cmd/projector/main.go:145-176 | partitions that begin with an undecodable payload, a step or a number too big for its column, on which every run of any number of instances leaves the tables empty for good |
| Projector.RowsAreDistinct | internal/store/projection.go:46-57 | the rows are the distinct events, once each, in log order |
| Projector.VerdictsMean | internal/store/projection.go:69-86 | a number that is taken is a conflict exactly if another event has it, and a redelivery exactly if this one has; an id taken elsewhere is a permanent error; nothing but an insertion changes anything |
| Projector.CleanIff | cmd/projector/main.go:89-135 | a partition is consumed to its end exactly if all numbers fit, nobody disagrees about what an event is, and every event can be sent the first time |
| Projector.ConflictStops | internal/store/projection.go:69-86 | no instance ever passes a message that gives a number of its run to another event |
| Projector.RowIsUpserts | internal/store/projection.go:88-123 | a run's row is what the upserts of just its distinct events leave |
| Projector.RowIsLatest | internal/store/projection.go:110-118 | the row names the last of the run's inserted events |
| Projector.RowRemembers | internal/store/projection.go:88-123 | a run's row keeps the tenant, workload and creation time of its first event, and takes time, id and step from its latest ones |
| Projector.RowMovesForward | internal/store/projection.go:110-118 | between two prefixes of the partition a run's row names the last of its inserted events in each, and those of the shorter are the first of the longer |
| Projector.RowNeverGoesBack | internal/store/projection.go:110-118 | the same over all runs of the cluster, instances restarting and redelivering included |
| Projector.RowsGrow | internal/store/projection.go:46-57 | consuming further only appends rows |
| ProjectionFold.TablesFoldLikeLog | internal/store/reader.go:31-60 | folding a run's rows by sequence number gives what folding the consumed log gives, with redeliveries and other runs in between |
| ProjectionFold.UnprojectedIsMissing | internal/store/reader.go:31-60 | a run of which nothing was consumed reads as not found, and has no row |
| ProjectionFold.RunsRowShowsFold | internal/store/mapping.go:10-53 | for a driven run the row shows the fold's own status, step and last event |
| ProjectionFold.RowKeepsUp | internal/store/mapping.go:10-53 | for any accepted log, exactly when one more event keeps row and fold in step |
| RowAhead.RowRunsAhead | internal/store/mapping.go:10-53 | an accepted log whose run works on while it waits for approval: the fold waits, the row runs |

## Left out

- JSON, SHA-256, canonical encodings and the state digest: payloads and
  arguments are values, the arguments' hash an injective function of them.
- Kafka, Redis, Postgres and SDK clients, topics and partition hashing: a log, a
  keyed store and two tables stand for them. Messages that do not decode as
  envelopes never enter the modelled log.
- Byte buffers inside content blocks and tool arguments, which the code copies
  and never writes: in the heap model they are immutable text.
- The backing array of the slice of steps: each of its slots is an object of the
  heap model, so sharing a slot is captured, sharing the unused slots is not.
- Requests that take effect after their attempt has timed out, and effects that
  land after Execute has returned "unknown".
- Approval, cancellation and leases: their events are in the fold only.
- Progress while others keep taking a key over: waiting ends once they stop.
- The texts of log lines and error messages, apart from a tool error's prefix, an
  unknown tool's name (whose quoting escapes nothing here) and the two terminal
  failures the fold itself words; microsecond truncation of
  timestamps (times are whole microseconds throughout).
- clone_repo, run_tests, the registry's definitions and the effects script: they
  keep no state the other parts rely on, so nothing here would follow from them.
- A run journaled by two workers at once.
- PullRequests.Execute: one call at a time on the file; that two processes' appends do not interleave within a line is not modelled.
- Projection.Database.ApplyWithRetry: stops after a given, arbitrary number of attempts where the code retries until its process is stopped.

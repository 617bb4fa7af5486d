# Voyd host runtime: verified model

This project models the parts of the Voyd JavaScript host and VX packages whose correctness
depends on several functions working together, and proves what they are for.

* **Task runtime** (`TaskModel`, `TaskHearing`, `TaskLemmas`, `TaskProgress`, `TaskRevision`, `TaskSteps`, `TaskRest`,
  `TaskLoop`, `TaskRuntime`, `TaskTheorems`, `TaskScenarios`): one effectful run as a state machine over a table of tasks. The
  class `Run` has the runtime's fields and performs its operations in place; completing, cancelling
  and owner completion call one another recursively. Each operation is tied to functions on the
  value `RunState`, whose invariants hold at every point inside every operation. `Play` runs any
  script of actions; `TaskTheorems` says what the invariants mean for users.
* **Capabilities and retained callbacks** (`Capabilities`, `CallbackScopes`): the keyed mixing
  permutation behind opaque tokens, the allocator, the handler registry and the scope manager.
* **Boundary codec** (`BoundaryModel`, `BoundaryEncode`, `BoundaryUnfolding`, `BoundaryCycles`,
  `BoundaryRoundTrip`, `BoundaryMeaning`): schema-directed encoding of possibly cyclic object graphs, and decoding.
* **VX** (`EventKeys`, `PatchModel`, `PatchMeaning`, `ChildPatch`, `FrameRenderer`, `Fragments`, `Subscriptions`,
  `MessageMaps`, `HtmlReader`, `ServerHtml`, `ServerMeaning`, `ServerAndBrowser`): keyed reconciliation of arbitrary child lists against building from
  scratch, the renderer of frames with the handlers it retains, the subscription table with
  handlers owned in common, the three ways of carrying message mappers, and the server renderer
  read back by a skeletal reader after section 13.2.5 of the WHATWG HTML Living Standard, which finds
  what the browser builds for the same description.
* **Graphs and trees** (`ModuleOrder`, `PortableSchema`, `MarkdownTree`): module ordering, reference
  unfolding, and flattening a tree to a table.

Guest code, handlers and runners are oracles: function-valued constants fixed in advance (each
request is resumed at most once and each task ends at most once by completion, so nothing is lost)
or inputs of the operations. What guest code does inline while it runs (spawn, cancel, take a value)
is a separate step between turns. Two things that the runtime does not check are preconditions or
follow from this: an attached task is spawned by a live task (`SpawnNeedsLiveOwner` shows that this
is exactly what the invariants need), and a task is not cancelled in the middle of its own turn.

The code differs from what its shape suggests in these places, and the model follows the code:

* Cancelling a completing task first completes it through its last child, whose waiter and observer
  are told of a value or a failure, and then replaces the outcome by "cancelled" (host.ts 1990-1998):
  `ObserverMisled` gets there. `ToldIff` and `GivenIff` say when what was told is what is recorded: when
  the task was not cancelled while completing, if no task traps on being told of an end (`CarriesOn`). A
  task that traps then may end otherwise in the course of its own cancellation, or be cancelled in the
  course of its own failure; in every case the condition is that it did not end twice (`Revised`).
* The failure of a task is marked as observed although its only waiter was cancelled before
  (host.ts 2475-2478), and so may go unheard: `FailureUnheard` gets there, and `ValueHidesFailureIff`
  says that a failure goes unheard in no other way.
* A waiter whose resumption traps while its target is being cancelled stays waiting for ever
  (host.ts 1999-2016): `StrandedWaiter` gets there, and `StrandedIff` says that this is the only
  way to wait for nothing.
* A waiter that has ended is resumed all the same (host.ts 2000-2006): `EndedWaiterResumed` gets there,
  and `EndedWaiterResumedIff` says that this happens exactly when its request still has a frame, that
  is, when it was cancelled.
* A map under a union is copied before the recurrence check, so only the depth budget stops a
  cycle through it (boundary-values.ts 527-545); `MapInUnion` shows it, `RecurringIsRefused` that
  it is refused all the same.
* A fresh key after a move is patched against an unrelated old child, and a doubled key may replace
  a node that is out of the list (browser.ts 881-890, 782-787). The model takes every list, and
  `PatchedTreesRightIff` says exactly when the result is right.
* Listeners are removed under the part of their key before the first colon, so those of events with a
  colon in the name stay, when a node is replaced and when the container is detached, and call handlers
  that have been released (browser.ts 1735-1746, events.ts 12-22): `DetachedStillCalls` and
  `ReplacedKeepsListener` get there, and `QuietIsDeafIff` says exactly when no listener is left. Two
  different events may also share a key, and then only the first is registered (`KeysCollide`).
* An unkeyed child of a keyed fragment is labelled by its index, which may be the key of a sibling
  (browser.ts 757-765).
* A field called `$variant` takes the place of the tag of its variant, and a string behind a
  reference may be taken for the message for cycles (boundary-values.ts 309-312, 527-546).
  `RoundTripIff` says exactly when a value comes back.
* A sync releases a handler although it is owned again afterwards, when its only entry is restarted
  or when it moves from an entry that is stopped (browser.ts 2978-3027); `OwnedYetReleasedIff` says
  exactly when, and `OwnedYetReleasedWhenDistinct` in closed form for distinct keys.
* Shutting down subscriptions can release a shared handler twice (browser.ts 3031-3039):
  `SharedHandlerReleasedTwice`, and `DoubleReleaseIffShared` says exactly when.
* U+0000 passes the escaping of the server renderer, and an HTML reader drops or replaces it
  (server.ts 206-216); `RenderedIsReadBackIff` says that nothing else is lost.
* The server renders nothing inside a void element and keeps an attribute `value` of a textarea beside its
  property, and the browser does neither (server.ts 101-102 and 141, browser.ts 958-977):
  `ServerShowsWhatIsBuiltIff` says that markup and DOM differ in no other way, U+0000 apart.
* Tokens retained outside any scope outlive their owner unregistered with it
  (retained-callbacks.ts 193-203).

## Model

| member | source | states |
|---|---|---|
| TaskTheorems.DescendantsEnd | packages/js-host/src/host.ts:1985-2022 | Structured concurrency: in every state of a run, when a task has ended, everything attached below it in the owner tree has ended |
| TaskTheorems.CompletingHasLiveChild | packages/js-host/src/host.ts:2426-2465 | Between steps a completing task holds a pending value and one of its own children is live; nothing is left waiting for children that are gone |
| TaskTheorems.QueuedExactlyWhenReady | packages/js-host/src/host.ts:2184-2199 | Between steps a live task is in the ready queue exactly once if it is ready and not at all otherwise, it then has work, and the loop is awake |
| TaskTheorems.WaitsForTheLiving | packages/js-host/src/host.ts:2734-2736 | No lost wake-up: a task waiting for a task is the only entry of a live task's waiter list and still has its request; one waiting for a handler is known to it; any other trapped when it was told, as its last resumption, that its target was cancelled |
| TaskTheorems.StrandedIff | packages/js-host/src/host.ts:1999-2016 | Between steps a live task waits for nothing if and only if it trapped when it was last resumed and that was to tell it of a cancellation; a task that trapped on any other resumption has ended |
| TaskScenarios.StrandedWaiter | packages/js-host/src/host.ts:1999-2016 | A run that gets there: the root waits for its child, the child is cancelled, the guest traps when told, and the root stays live and is never woken |
| TaskTheorems.ObserverServed | packages/js-host/src/host.ts:1807-1829 | Whoever observed a task has been given, once the task has ended, the outcome with which it ended at first |
| TaskTheorems.GivenIff | packages/js-host/src/host.ts:1807-1829 | What a token has given is the recorded outcome of its task if and only if it was not observed before the end, or the task did not end twice; unless a task traps on being told of an end: was not cancelled while it was completing |
| TaskTheorems.ToldIff | packages/js-host/src/host.ts:1990-2016 | The status that a waiter was told is that of the recorded outcome of its target if and only if it asked after the end, or the target did not end twice; unless a task traps on being told of an end: was not cancelled while it was completing |
| TaskTheorems.StatusMeaning | packages/js-host/src/host.ts:1856-1857 | Every wait that was answered was answered with 0 if and only if the end told was a value, 1 if and only if it was a failure and 2 if and only if it was a cancellation; the end told is the first one if the wait came before it, and else the recorded one |
| TaskTheorems.EndedTwiceIff | packages/js-host/src/host.ts:1990-1998 | Unless a task traps on being told of an end, the tasks that ended twice with different outcomes are exactly those cancelled while they were completing |
| TaskTheorems.CancellingEndsTheTree | packages/js-host/src/host.ts:1985-2022 | Unless a task traps on being told of an end: cancelling a task records it and every live task below it as cancelled, those that were completing having completed before; nothing else ends but completing owners above, which complete once |
| TaskTheorems.EndedWaiterResumedIff | packages/js-host/src/host.ts:1999-2016 | A waiter that has ended is resumed all the same if and only if its request still has a frame, and such a waiter was cancelled |
| TaskScenarios.ObserverMisled | packages/js-host/src/host.ts:1990-1998 | A run that gets there: a child is observed, returns while a child of its own is live, and is cancelled; the host is given what it completed with, and it is recorded as cancelled |
| TaskRevision.CompletesFirst | packages/js-host/src/host.ts:1990-1998 | By the time the children of a task have been cancelled, the task has ended if and only if it was completing, and then with its own outcome |
| TaskHearing.TellsWaiter | packages/js-host/src/host.ts:2475-2502 | The one waiter of a task has asked for its end and may be told how it ended at first, also when the waiter has ended, which then was cancelled |
| TaskTheorems.OneConsumer | packages/js-host/src/host.ts:2709-2717 | A capability has at most one consumer: waiters and observer together never exceed one, and then it is claimed |
| TaskTheorems.DeliveredOnce | packages/js-host/src/host.ts:2111-2125 | At most one of a taken value, a failure message or an observed outcome is ever delivered for a capability, and its token stays dead for the rest of the run |
| TaskTheorems.TokensAreDistinct | packages/js-host/src/host.ts:2041-2090 | Two tasks of a run never share a token, at whatever times they are looked at; in `Play` the tokens are those of the allocator, under any keys |
| TaskTheorems.ResumedOnce | packages/js-host/src/host.ts:1690-1731 | An effect request is resumed or ended at most once in a run, and never has a frame again afterwards |
| TaskTheorems.PublicOutcomeIsTheRoots | packages/js-host/src/host.ts:2201-2249 | A public outcome that the host did not impose is the root's outcome; it never changes, and from then on no live task blocks, whatever is spawned later |
| TaskTheorems.ReportsPromptly | packages/js-host/src/host.ts:2216-2248 | Between steps the public outcome is present once the root has ended and nothing blocks, and then the final outcome is present exactly when every task has ended |
| TaskTheorems.FinalOutcomeIsPublic | packages/js-host/src/host.ts:2242-2248 | The final outcome equals the public one for ever, and every task of the run has ended |
| TaskTheorems.EndedForGood | packages/js-host/src/host.ts:2257-2260 | From one resting state to any later one a task that has ended keeps its outcome |
| TaskTheorems.FailureIsAccountedFor | packages/js-host/src/host.ts:1905-1917 | A failure that counts as observed was given out by its token or told to a task that was live and had asked or asked for after it, if and only if not: its only waiter was cancelled before it was told and its token has not told of it; one that does not count as observed is the root's own, or was reported to the host (detached), or its owner has not ended with a value |
| TaskTheorems.ValueHidesFailureIff | packages/js-host/src/host.ts:2276-2376 | When a run reports a value, a failure attached below the root that no owner absorbed by failing or being cancelled goes unheard if and only if its only waiter was cancelled before it was told and its token has not told of it |
| TaskTheorems.ObservedMeansHeard | packages/js-host/src/host.ts:2475-2478 | A failure is marked as observed only if somebody was told of it, or its waiter was cancelled first |
| TaskScenarios.FailureUnheard | packages/js-host/src/host.ts:2475-2478 | A run that gets there: a child waits for its sibling and is cancelled, the sibling traps, its failure counts as observed though nobody hears of it, and the run reports the value of the root |
| TaskTheorems.SpawnNeedsLiveOwner | packages/js-host/src/host.ts:2030-2096 | Spawning an attached task keeps the invariants if and only if its owner is live, which the runtime does not check |
| TaskScenarios.EndedWaiterResumed | packages/js-host/src/host.ts:1999-2006 | A run in which the guest of an ended task is resumed, because what it waited for is cancelled after it; spawning then would break the invariants |
| TaskRuntime.Play | packages/js-host/src/host.ts:2173-2895 | Whole runs: any script of turns, handler answers, spawns, cancellations, takes, observations and host cancellation keeps the run resting after every action, and every later state evolves from every earlier one; tokens come from an allocator that may have served other runs, and no token of theirs is used again |
| TaskRuntime.Act | packages/js-host/src/host.ts:2173-2895 | One action of a run keeps it resting and only moves it forward |
| TaskRuntime.CourseGrows | packages/js-host/src/host.ts:2173-2895 | The course of a run stays one when an action is added: the step of the induction over runs |
| TaskRuntime.Run.constructor | packages/js-host/src/host.ts:2128-2170 | A new run is the one task 1, ready with the starter as its work, not detached, without owner or children, alone in the queue; it satisfies every invariant |
| TaskRuntime.Run.CompleteTask | packages/js-host/src/host.ts:2426-2519 | Completing a task: one already ending only loses its frames; a value with live children waits for them; a value without ends at once, as a failure with the reason of the first child that failed unobserved, or, without such a child, as one of the scopes or of reading if and only if that goes wrong, and else as the value; a failure cancels the children first and ends as itself; its waiter is told, the loop is awake and nothing is left to settle; no task outside its subtree ends unless its waiters or its owner do |
| TaskRuntime.Run.EndWithValue | packages/js-host/src/host.ts:2447-2470 | A value waits for live children; without any the task fails with the reason of the first child that failed unobserved, otherwise with a failure of its own if its scopes fail to close or it cannot be read, and else ends with the value |
| TaskRuntime.Run.EndWithFailure | packages/js-host/src/host.ts:2442-2446 | A failed task leaves no live child |
| TaskRuntime.Run.MaybeCompleteOwner | packages/js-host/src/host.ts:2352-2424 | A completing owner ends exactly when its last live child is gone: as a failure with the reason of the first child, in the order they were spawned, that failed unobserved, or else as its pending value, its scopes and the reading of it permitting; and its waiter is told |
| TaskRuntime.Run.Settle | packages/js-host/src/host.ts:2471-2518 | Ending a task: outcome recorded, its waiter resumed and queued or failed, stored, its observer given the outcome, unhandled failure reported, owner followed, loop woken, run settled if it can be, and no task left that is neither run nor going to be |
| TaskRuntime.Run.WakeOne | packages/js-host/src/host.ts:2475-2502 | The waiter of an ended task is resumed with the status of the outcome; a live one is then ready with work in the queue, or has ended as failed if it traps |
| TaskRuntime.Run.NotifyTaskTerminal | packages/js-host/src/host.ts:1807-1829 | Announcing an end: an observer is given the recorded outcome, which is logged with the token, and the token is used up; without one the outcome of a detached task is stored, and the token of a cancelled claimed task is used up; nothing else changes |
| TaskRuntime.Run.CancelTaskById | packages/js-host/src/host.ts:1985-2022 | Cancelling a live task ends it as cancelled, even if it completed on the way, and everything attached below it has ended, as cancelled too unless a task traps on being told of an end; beyond them only completing owners above end, as they would have; anything else changes nothing; a task without live children whose owner is not completing ends alone; termination by live tasks and tree position |
| TaskRuntime.Run.CancelChildren | packages/js-host/src/host.ts:1990-1991 | After cancelling the children in order, no child is live |
| TaskRuntime.Run.EndCancelled | packages/js-host/src/host.ts:1991-2020 | The cancelled outcome replaces one that was reached while the children were being cancelled |
| TaskRuntime.Run.WakeCancelled | packages/js-host/src/host.ts:1999-2016 | The waiter of a cancelled task is resumed with status 2: a live one is queued with work, unless it traps and stays as it is for ever; nobody ends |
| TaskRuntime.Run.HasDetachedAncestor | packages/js-host/src/host.ts:2207-2216 | The loop up the owner chain finds whether it leads to a detached task |
| TaskRuntime.Run.AnyBlocking | packages/js-host/src/host.ts:2217-2222 | Finds whether a live task is neither detached nor under a detached ancestor |
| TaskLemmas.ShelteredIff | packages/js-host/src/host.ts:2207-2216 | A task is sheltered if and only if its owners, one after another, lead to a detached task |
| TaskRuntime.Run.FinalizeIfDone | packages/js-host/src/host.ts:2201-2249 | Reports the public outcome when the root has ended and nothing blocks, and the final one when every task has ended, and changes nothing else |
| TaskRuntime.Run.FailStep | packages/js-host/src/host.ts:2882-2890 | A step that goes wrong ends its task as failed with that reason |
| TaskRuntime.Run.ApplyContinuation | packages/js-host/src/host.ts:2521-2599 | Continuing a task: the wrong kind of answer fails it, a task that has ended is left alone, a trap fails it, and otherwise its request is resumed once and it joins the queue |
| TaskRuntime.Run.TakeUp | packages/js-host/src/host.ts:2602-2616 | A yielded request is resumed with unit when its turn comes; other work is taken up as it is |
| TaskRuntime.Run.Return | packages/js-host/src/host.ts:2617-2625 | A task that returned waits for its live children, or ends as the first unobserved failure among its children, its scopes and the reading of its value say, and its waiter is told |
| TaskRuntime.Run.AnswerWait | packages/js-host/src/host.ts:2718-2733 | Waiting for a task that has ended answers at once with its status, marks it observed, and uses up a cancelled task's token |
| TaskRuntime.Run.WaitFor | packages/js-host/src/host.ts:2685-2736 | Waiting: a stale token or one already claimed fails the task; the first to ask claims it and is told at once or blocks on it |
| TaskRuntime.Run.TellFailure | packages/js-host/src/host.ts:2749-2785 | Asking for a failure message delivers it once and uses the token up; without a failure the asking task fails |
| TaskRuntime.Run.GiveWay | packages/js-host/src/host.ts:2739-2747 | A yielding task goes to the end of the queue with its request to be resumed |
| TaskRuntime.Run.Handle | packages/js-host/src/host.ts:2788-2881 | Handler replies: none, a throw or junk fails the task, a promise leaves it waiting, a continuation continues it |
| TaskRuntime.Run.Perform | packages/js-host/src/host.ts:2643-2881 | A new request gets a frame and is served by its kind |
| TaskRuntime.Run.RunHead | packages/js-host/src/host.ts:2174-2199 | A step of the loop reports the final outcome, sleeps on an empty queue, or takes the head and leaves the run resting |
| TaskRuntime.Run.TakeTurn | packages/js-host/src/host.ts:2184-2199 | The head of the queue is skipped if it is already ending and run otherwise |
| TaskRuntime.Run.SettleHandler | packages/js-host/src/host.ts:2820-2860 | An asynchronous handler's answer continues or fails its task once; if the task has ended meanwhile, no task changes |
| TaskRuntime.Run.Spawn | packages/js-host/src/host.ts:2030-2096 | Spawning adds exactly one ready task with a fresh id and token, at the end of the queue, owned unless detached, and wakes the loop |
| TaskRuntime.Run.CancelToken | packages/js-host/src/host.ts:2097-2110 | Cancelling by token succeeds exactly for a known token of a live task, which ends cancelled, with everything attached below it, and the loop awake; otherwise nothing changes |
| TaskRuntime.Run.TakeValue | packages/js-host/src/host.ts:2111-2125 | A value is taken exactly from a claimed task that ended with one; it is delivered once and the token is gone; errors change nothing |
| TaskRuntime.Run.Observe | packages/js-host/src/host.ts:2896-2941 | Observing refuses a stale or claimed token without change; otherwise it claims it, and answers with the task's outcome or registers for it |
| TaskRuntime.Run.TakeOutcome | packages/js-host/src/host.ts:2911-2918 | The outcome stored for late observers is the one in the task's record |
| TaskRuntime.Run.CancelRun | packages/js-host/src/host.ts:2947-2990 | Host cancellation is accepted once; then every task has ended, and the run is reported cancelled unless an outcome was reported before |
| TaskLemmas.MarkDoneKeeps | packages/js-host/src/host.ts:2471-2473 | Ending a task keeps every invariant when its children have ended and its value hides no failure |
| TaskSteps.BlockOnTaskKeeps | packages/js-host/src/host.ts:2733-2736 | Blocking on a claimed live task keeps every invariant |
| TaskSteps.SpawnKeeps | packages/js-host/src/host.ts:2030-2096 | Spawning with a live owner keeps every invariant, including that nothing blocks once an outcome is public |
| TaskProgress.NoUnobservedFailure | packages/js-host/src/host.ts:1905-1917 | If the search for the first unobserved failed child finds none, no child has an unobserved failure |
| TaskProgress.SearchMeaning | packages/js-host/src/host.ts:1905-1917 | The search finds the failure of the child with the least index that failed unobserved, and none exactly when there is no such child |
| TaskRuntime.Run.TerminalConcludes | packages/js-host/src/host.ts:2447-2470 | The end computed for a returned value is a failure with the reason of the first child that failed unobserved; without one it is a failure of the scopes if and only if they fail, of reading if and only if they do not and the value cannot be read, and the value otherwise |
| Capabilities.MixIsPermutation | packages/js-host/src/retained-callbacks.ts:47-57 | For every xor key and odd multipliers mixing is a permutation of the 31-bit numbers, with `Unmix` as inverse on both sides |
| Capabilities.MixIsInjective | packages/js-host/src/retained-callbacks.ts:47-57 | Different inputs are mixed to different tokens |
| Capabilities.ZeroComesFromTheKey | packages/js-host/src/retained-callbacks.ts:59-65 | The one input that is mixed to zero, and skipped, is the xor key |
| Capabilities.XorShiftUndone | packages/js-host/src/retained-callbacks.ts:51-55 | An xor-shift of a 31-bit number by 16 or 13 is undone, on either side |
| Capabilities.OddInverseInverts | packages/js-host/src/retained-callbacks.ts:52-54 | Every odd multiplier has an inverse modulo a power of two |
| Capabilities.CapabilityAllocator.Allocate | packages/js-host/src/retained-callbacks.ts:59-65 | Every token handed out is a non-zero 31-bit number never handed out before; allocation fails exactly when 2^31-2 have been issued (2^31-1 when the xor key is zero) |
| CallbackScopes.ReleaseMeaning | packages/js-host/src/retained-callbacks.ts:97-102 | Releasing many tokens succeeds exactly when they are registered and distinct, and then removes exactly them |
| CallbackScopes.Registry.Retain | packages/js-host/src/retained-callbacks.ts:86-90 | A retained handler gets a token never issued before |
| CallbackScopes.Registry.Resolve | packages/js-host/src/retained-callbacks.ts:77-90 | A token leads to the handler that was retained under it from then until it is released, and never again |
| CallbackScopes.Registry.ReleaseMany | packages/js-host/src/retained-callbacks.ts:97-102 | Tokens are released in order up to the first stale one, which is the error |
| CallbackScopes.BegunKeeps | packages/js-host/src/retained-callbacks.ts:134-143 | Opening a scope moves no token and keeps stacks strictly increasing |
| CallbackScopes.RetainedKeeps | packages/js-host/src/retained-callbacks.ts:144-160 | A new token goes to exactly one place, the active scope or else the owner's unscoped tokens |
| CallbackScopes.ClaimedKeeps | packages/js-host/src/retained-callbacks.ts:161-178 | A claimed token moves from the unscoped ones into the active scope and no other token moves |
| CallbackScopes.EndedKeeps | packages/js-host/src/retained-callbacks.ts:179-192 | Ending a scope untracks exactly what it retained |
| CallbackScopes.FinishedKeeps | packages/js-host/src/retained-callbacks.ts:193-204 | Finishing an owner untracks exactly its tokens |
| CallbackScopes.AllRetainedMeaning | packages/js-host/src/retained-callbacks.ts:197-200 | What an owner's scopes retain together is distinct and is what they hold one by one |
| CallbackScopes.ScopeManager.BeginScope | packages/js-host/src/retained-callbacks.ts:134-143 | A new scope gets an id above all others |
| CallbackScopes.ScopeManager.Retain | packages/js-host/src/retained-callbacks.ts:144-160 | Retaining tracks the new token in one place for its owner, or nowhere without an owner |
| CallbackScopes.ScopeManager.Claim | packages/js-host/src/retained-callbacks.ts:161-178 | Claiming is refused without an active scope, does nothing for a token that is not waiting, and else moves it |
| CallbackScopes.ScopeManager.EndScope | packages/js-host/src/retained-callbacks.ts:179-192 | Only the innermost scope can be ended; it releases exactly its tokens, and never meets a stale one unless somebody else released it |
| CallbackScopes.ScopeManager.FinishOwner | packages/js-host/src/retained-callbacks.ts:193-204 | Finishing an owner releases exactly what its scopes retained; its unscoped tokens stay registered and untracked |
| BoundaryCycles.EncodingIsUnfolding | packages/js-host/src/boundary-values.ts:163-291 | Encoding succeeds, and with which tree, if and only if the schema-directed unfolding of the object graph is a finite tree within the depth budget and no watched object recurs on its own path; shared objects are accepted |
| BoundaryRoundTrip.RoundTripIff | packages/js-host/src/boundary-values.ts:293-375 | Decoding what encoding produced gives the value normalised (maps as records, variants under `tag`, absent optional fields dropped, void as undefined) if and only if nothing in the value, seen before it is encoded, is going to be mistaken: no string behind a reference is the message for cycles, and no field hides a tag |
| BoundaryRoundTrip.UndisturbedIff | packages/js-host/src/boundary-values.ts:450-584 | That nothing is mistaken in what crosses can be told from the value alone |
| BoundaryRoundTrip.RoundTrip | packages/js-host/src/boundary-values.ts:293-375 | With references to containers only and no field called like a tag beside one, every value that can be encoded comes back so normalised, and is never rejected |
| BoundaryRoundTrip.SurvivorsComeBack | packages/js-host/src/boundary-values.ts:450-584 | What is not mistaken comes back, at every depth and for every part |
| BoundaryRoundTrip.OnlySurvivorsComeBack | packages/js-host/src/boundary-values.ts:450-584 | and nothing else does |
| BoundaryRoundTrip.FieldHidesTag | packages/js-host/src/boundary-values.ts:507-584 | A variant with a field called `$variant` can be encoded and not decoded |
| BoundaryRoundTrip.MessageIsRefused | packages/js-host/src/boundary-values.ts:309-312 | A string behind a reference that is the message for cycles can be encoded and not decoded |
| BoundaryCycles.RecurringIsRefused | packages/js-host/src/boundary-values.ts:642-697 | A value that contains itself, seen the same way, is refused at any depth, also through maps that are not watched |
| BoundaryCycles.RecurringNeverUnfolds | packages/js-host/src/boundary-values.ts:642-697 | Such a value has no finite unfolding |
| BoundaryCycles.NeverDiverges | packages/js-host/src/boundary-values.ts:163-204 | Encoding ends for every graph and schema when no registered type is only a chain of references and custom representations back to itself |
| BoundaryCycles.ObjectBelowItself | packages/js-host/src/boundary-values.ts:642-665 | An object that recurs on its own path is refused even where its unfolding is finite |
| BoundaryCycles.RepeatedName | packages/js-host/src/boundary-values.ts:416-443 | Fields may repeat names: encoding succeeds if and only if every field that is not left out can be encoded, and what crosses is what the last field with each name gives, whose names differ |
| BoundaryUnfolding.SimpleBelow | packages/js-host/src/boundary-values.ts:642-665 | No recurrence along paths is what watching ancestors on the way down checks, one direction |
| BoundaryUnfolding.SimpleFromBelow | packages/js-host/src/boundary-values.ts:642-665 | and the other direction |
| BoundaryEncode.Encoder.EncodeValue | packages/js-host/src/boundary-values.ts:163-291 | Encoding with shared state computes `Encoded` and restores ancestors and depth on success and failure alike |
| BoundaryEncode.Encoder.EncodeRecord | packages/js-host/src/boundary-values.ts:377-448 | Records: limits, then recurrence, then names and tag, then the fields that are not left out, in order |
| BoundaryEncode.Encoder.EncodeArray | packages/js-host/src/boundary-values.ts:248-268 | Arrays: limits, then recurrence, then the items in order |
| BoundaryEncode.Encoder.Enter | packages/js-host/src/boundary-values.ts:642-697 | A container is entered unless it is too long, too deep or recurring, in this order of precedence |
| BoundaryEncode.EncodeArgs | packages/js-host/src/boundary-values.ts:31-59 | Arguments are encoded independently, each with 128 levels, although they share the traversal state; the result is the first failure, and all arguments before it can be encoded |
| BoundaryMeaning.ScalarEncoding | packages/js-host/src/boundary-values.ts:736-800 | Which scalars cross: booleans, whole numbers from -2147483648 to 2147483647 as i32, bigints of 64 bits and whole numbers up to 9007199254740991 as i64, any number as a float, texts and bytes of at most 16777216 bytes; each as it is, and anything as void as null |
| BoundaryMeaning.ScalarErrors | packages/js-host/src/boundary-values.ts:699-800 | A scalar that is refused is a mismatch, or too long if it is a text or bytes |
| BoundaryMeaning.Utf8Meaning | packages/js-host/src/boundary-values.ts:223-233 | A text is measured at one to four bytes a character |
| BoundaryMeaning.CustomEncoding | packages/js-host/src/boundary-values.ts:191-201 | A custom type crosses as its representation |
| BoundaryMeaning.ArrayEncodingIff | packages/js-host/src/boundary-values.ts:248-268 | An array crosses if and only if it is one, has at most 1048576 items, is within the depth and not inside itself, and each item crosses; and then as the items in order |
| BoundaryMeaning.ArrayErrors | packages/js-host/src/boundary-values.ts:248-268 | Otherwise the error is that of the kind, the length, the depth, the recurrence, or the first item that cannot be encoded, in this order |
| BoundaryMeaning.RecordEncodingIff | packages/js-host/src/boundary-values.ts:377-448 | A record crosses if and only if it is within the limits and not inside itself, every entry is for a field or the tag, the tag is right, and every field that is required or has an entry that is not undefined can be encoded; it crosses as exactly these fields and the tag, an optional field without such an entry not being there, and a required one encoded from undefined |
| BoundaryMeaning.RecordErrors | packages/js-host/src/boundary-values.ts:377-448 | Otherwise the error is that of the length, the depth, the recurrence, the kind, an entry no field has, the tag, or the first field that cannot be encoded, in this order |
| BoundaryMeaning.VariantEncodingIff | packages/js-host/src/boundary-values.ts:507-546 | A value of a union crosses as the first variant with the tag under `tag`, or else under `$variant`, like a record; a map is not watched for recurrence |
| BoundaryMeaning.NoVariantEncoding | packages/js-host/src/boundary-values.ts:507-530 | Without entries, a tag that is text or a variant with that name it is refused |
| BoundaryMeaning.RefEncoding | packages/js-host/src/boundary-values.ts:624-640 | A reference crosses as the schema registered for it, which must be there and not be a reference |
| BoundaryMeaning.EndlessDiverges | packages/js-host/src/boundary-values.ts:179-201 | A chain of references and custom types that never comes to a schema of another kind is followed for ever, whatever the value |
| BoundaryMeaning.LoopsIff | packages/js-host/src/boundary-values.ts:179-201 | The chain never ends if and only if it comes back to a registered type it has met |
| BoundaryMeaning.ScalarDecoding | packages/js-host/src/boundary-values.ts:331-375 | Scalars come back as they crossed, within the same limits, and void as undefined |
| BoundaryMeaning.RecordDecoding | packages/js-host/src/boundary-values.ts:450-505 | A record comes back as the decoding of every field that is required or has crossed, and its tag under `tag` in place of any field; otherwise the error is that of the length, the depth, the kind, an entry no field has, or the first field that cannot be decoded |
| BoundaryMeaning.VariantDecoding | packages/js-host/src/boundary-values.ts:548-584 | A variant comes back by the tag under `$variant`, or else under `tag`, like a record |
| BoundaryMeaning.NoVariantDecoding | packages/js-host/src/boundary-values.ts:548-575 | Without entries, a tag that is text or a variant with that name it is refused |
| BoundaryMeaning.CustomDecoding | packages/js-host/src/boundary-values.ts:321-330 | A custom type comes back as its representation |
| BoundaryMeaning.RefDecoding | packages/js-host/src/boundary-values.ts:308-320 | Behind a reference the one text that stands for a cycle is refused, and anything else is read by the schema registered |
| BoundaryMeaning.ArrayDecodingIff | packages/js-host/src/boundary-values.ts:334-351 | An array comes back if and only if it is one, is within the limits, and every item comes back; and then as the items in order |
| BoundaryMeaning.ArrayDecodingErrors | packages/js-host/src/boundary-values.ts:334-351 | Otherwise the error is that of the kind, the length, the depth, or the first item that cannot be decoded, in this order |
| BoundaryMeaning.EndlessNeverDecodes | packages/js-host/src/boundary-values.ts:308-330 | A chain of references and custom types that never ends is followed for ever in decoding too, the message for cycles apart |
| MessageMaps.ThreeWaysAgree | packages/vx-dom/src/browser.ts:4198-4216 | Under the same nest of mappers commands (composed contexts), subscriptions (outer-first lists, right fold) and DOM events (inner-first lists, left fold) dispatch the same messages |
| MessageMaps.CommandsAgree | packages/vx-dom/src/browser.ts:3950-3963 | Composed contexts put the outermost mapper outermost |
| MessageMaps.SubscriptionsAgree | packages/vx-dom/src/browser.ts:3094-3153 | Flattened subscriptions, folded from the right, dispatch what their nest means |
| MessageMaps.EventsAgree | packages/vx-dom/src/normalize.ts:489-505 | Events normalised bottom-up and folded from the left dispatch what their nest means |
| MessageMaps.ResolvesToComposition | packages/vx-dom/src/app-runtime.ts:607-616 | A nested message resolves to the composition of the mappers, the outermost applied last, over the value or payload it carries, or over what the callback of its event yields; what yields nothing sends nothing, and without callbacks the value or payload itself is sent |
| MessageMaps.StripsWhatItAdded | packages/vx-dom/src/app-runtime.ts:475-483 | A nest of message-mapping programs strips exactly the mappers it added |
| MessageMaps.StripsNothingElse | packages/vx-dom/src/app-runtime.ts:475-483 | Any other message loses nothing but mappers of the nest, from the outside in their order |
| MessageMaps.StepMapsEverything | packages/vx-dom/src/app-runtime.ts:430-495 | A step applies the model mappers of the nest from the inside out to the model of the innermost program, and puts every message mapper around its frame, commands and subscriptions |
| MessageMaps.MessagesComeBack | packages/vx-dom/src/app-runtime.ts:443-495 | Every message sent by a command, a subscription or an event of the innermost program reaches it as it was sent, however it is nested |
| Subscriptions.SubscriptionTable.Sync | packages/vx-dom/src/browser.ts:2968-3029 | A sync succeeds if and only if no disposer of an entry that is stopped or restarted fails and every runner that is needed starts, and otherwise fails as the first of them in the order of the request; after a successful one there is an entry for exactly the keys asked for, each matching the last one asked for; unchanged signatures are not restarted, changed ones run anew; after any sync stopped runners were disposed once and whatever lost its last owner was released; how often a handler was released is exactly what the table and the request say, step by step |
| Subscriptions.OwnedYetReleasedIff | packages/vx-dom/src/browser.ts:2984-3028 | A handler is owned after a successful sync although that released it if and only if the request gives it an owner in the end and it was without one at some moment after having had one: when what is not asked for was stopped, or when its only entry was restarted or gave it up |
| Subscriptions.OwnedYetReleasedWhenDistinct | packages/vx-dom/src/browser.ts:2984-3028 | For requests with distinct keys: if and only if the handler had an owner and has one, and every old owner that is asked for stands in the request before every new one, or in its place and is restarted |
| Subscriptions.ReleasedWhileOwnedIff | packages/vx-dom/src/browser.ts:3002-3027 | For one subscription: if and only if its entry was restarted, the old and the new entry own the handler, and no other entry does |
| Subscriptions.RestartReleasesItsOwn | packages/vx-dom/src/browser.ts:3002-3027 | An entry that is restarted and keeps its handler has it released |
| Subscriptions.MovedHandlerIsReleased | packages/vx-dom/src/browser.ts:2978-2982 | A handler that moves from an entry no longer asked for to a new one is released |
| Subscriptions.SubscriptionTable.Apply | packages/vx-dom/src/browser.ts:2984-3028 | One subscription: kept with new mappers if its signature is the same, otherwise the old runner is disposed and a new one started; it fails if and only if that disposer fails or the runner is not there or does not start, and then the entry is gone; what is released is exactly what only the old entry owned, less what a kept entry still owns |
| Subscriptions.SubscriptionTable.Remove | packages/vx-dom/src/browser.ts:2978-2982 | Removing an entry releases, once each, exactly the handlers that no other entry owns |
| Subscriptions.SubscriptionTable.UpdateMappers | packages/vx-dom/src/browser.ts:3053-3067 | Replacing mappers releases, once each, exactly the handlers that no entry owns any more |
| Subscriptions.SubscriptionTable.ReleaseHandlers | packages/vx-dom/src/browser.ts:3069-3092 | Each given handler that no active entry owns gains exactly one release, and no other handler gains any |
| Subscriptions.SubscriptionTable.Begin | packages/vx-dom/src/browser.ts:3006-3027 | A missing or failing runner is the error and leaves the table as it was; otherwise there is an entry with the new runner |
| Subscriptions.SubscriptionTable.StopOthers | packages/vx-dom/src/browser.ts:2978-2982 | Stops exactly the entries not asked for, and succeeds if and only if none of their disposers fails |
| Subscriptions.SucceedsWhenDistinct | packages/vx-dom/src/browser.ts:3000-3027 | For requests with distinct keys one step of a sync can be told from the old table: it succeeds if and only if its key has an entry with the same signature, or its disposer does not fail and its runner starts |
| Subscriptions.SubscriptionTable.DisposeAll | packages/vx-dom/src/browser.ts:3031-3051 | Shutting down releases, entry by entry, everything the entry owns, and stops at the first disposer that fails |
| Subscriptions.DoubleReleaseIffShared | packages/vx-dom/src/browser.ts:3031-3051 | Shutting down releases a handler twice if and only if two entries share one |
| Subscriptions.SharedHandlerReleasedTwice | packages/vx-dom/src/browser.ts:3031-3051 | Two entries that share a handler release it twice |
| Subscriptions.StoppedOnce | packages/vx-dom/src/browser.ts:3041-3051 | A stopped runner is disposed once and none is forgotten |
| Subscriptions.InactiveMeaning | packages/vx-dom/src/browser.ts:3069-3083 | What is released is distinct and is what no active entry owns |
| PatchModel.PatchedTreesRightIff | packages/vx-dom/src/browser.ts:867-909 | For every pair of child lists, whatever their keys, patching gives exactly what building from scratch gives if and only if `AllRight` holds, which looks only at the descriptions: each node taken over is of the right kind, has no attribute that neither compared nor new description mentions, has listeners that are kept for equal events or dropped under their own names, and so below; a node that was replaced before had no registered event with a colon in its name, and none has to be replaced again |
| PatchModel.PatchedTreeRightIff | packages/vx-dom/src/browser.ts:775-815 | The same for one node that was built for one description, is compared with another and becomes a third |
| PatchModel.AllPatchableIsRight | packages/vx-dom/src/browser.ts:867-909 | Wholly unkeyed new children, and distinctly keyed ones whose keys all occur in the old list, are always patched to what building gives, at every level |
| PatchModel.ChoiceWhenListed | packages/vx-dom/src/browser.ts:880-889 | In such lists every child is compared with the old child that its node was built for, and surviving keys keep their nodes |
| PatchMeaning.RekeyedIff | packages/vx-dom/src/browser.ts:867-879 | New children are distinctly keyed from the old list if and only if each has a key, no two the same, and each key is that of an old child |
| PatchModel.FreshKeyAfterMoveGoesWrong | packages/vx-dom/src/browser.ts:881-890 | A new key after a move gets a node that was built for one old child and is compared with another, and the result is not what building gives |
| PatchModel.DoubledKeyFails | packages/vx-dom/src/browser.ts:782-787 | Two new children with the key of an old one of another kind: the second replaces a node that is out of the list, which fails |
| PatchModel.PatchedIsRenderedIff | packages/vx-dom/src/browser.ts:997-1019 | Patching attributes gives what building would if and only if every attribute of the element is described by the old or the new node |
| ChildPatch.Patcher.PatchChildren | packages/vx-dom/src/browser.ts:867-909 | The loop over the DOM children computes `PatchedTrees` or fails exactly where it does: child by child what `ChildPatched` says; a child has the very node it takes over when the compared kinds agree, and a new one otherwise |
| ChildPatch.Patcher.PatchNode | packages/vx-dom/src/browser.ts:775-815 | A node stays exactly when both descriptions are texts or elements with one tag; then a text is set, and an element has each attribute now described as `true` with the empty text and as a text with that text, none that is `false`, absent or called `key`, none that only was described before, and its other attributes; its listeners likewise; otherwise a new one is built |
| ChildPatch.Patcher.PatchOne | packages/vx-dom/src/browser.ts:880-904 | One new child takes its node over and moves it into place, or is built, or fails; the done children and the old nodes left stay in line |
| ChildPatch.Patcher.CreateDom | packages/vx-dom/src/browser.ts:817-841 | A built subtree has at every level the tag described, `true` as an attribute with the empty text and a text as that text, no attribute for `false`, an absent value or the name `key`, the first event with each key, the children in order, and new identities |
| ChildPatch.PatchAttrs | packages/vx-dom/src/browser.ts:997-1019 | Afterwards an attribute that is described now is there with the empty text for `true` and with its text for a text, and not there for `false`, an absent value or the name `key`; any other is as before unless it was described before |
| ChildPatch.Patcher.SetText | packages/vx-dom/src/browser.ts:789-792 | Afterwards the text of the node is the one described; a node that had it stays as it is, and otherwise the children of an element make way for it |
| PatchMeaning.BuildsIff | packages/vx-dom/src/browser.ts:817-841 | Being what a description asks for, level by level and case by case, is being equal to the tree built for it |
| PatchMeaning.ChildrenPatchedIff | packages/vx-dom/src/browser.ts:867-909 | A child list is patched child by child: a child that takes no node is built, one that takes a node patches it, also a replaced one, which cannot be replaced again; the list fails if and only if a child does |
| PatchMeaning.KeyedChoice | packages/vx-dom/src/browser.ts:880-892 | A child with the key of an old one takes the node of the last old child with that key, unless an earlier child keeps it |
| PatchMeaning.UnkeyedChoice | packages/vx-dom/src/browser.ts:880-892 | Any other child takes the first node that no earlier child started from and is compared with the old child at its place; without one or the other it is built |
| PatchMeaning.MarksMeaning | packages/vx-dom/src/browser.ts:878-904 | A node is in use if an earlier child keeps it, and out of the list if an earlier child replaced it |
| PatchMeaning.QuietMeaning | packages/vx-dom/src/browser.ts:1735-1754 | A replaced subtree keeps its attributes and children and, of its listeners, those with a colon in their names |
| PatchMeaning.FlagsLookLike | packages/vx-dom/src/events.ts:12-22 | The last parts of a key tell capture, passive, prevent default, stop propagation and pointer capture, in this order |
| PatchMeaning.HandlerKey | packages/vx-dom/src/events.ts:12-22 | The key of a `click` that calls handler 12 under the mappers 3 and 40 is `click:12:3,40:` and the flags |
| PatchMeaning.MessageKey | packages/vx-dom/src/events.ts:12-22 | The key of a `click` that sends m without mappers is `click:message:m::` and the flags |
| ChildPatch.PatchEvents | packages/vx-dom/src/browser.ts:1090-1146 | The loops over old and new events keep a record whose key is described now, add the first event with each missing key, drop a record whose key only was described before, and forget without removing it a dropped listener whose name is another than that of the first old event with its key |
| PatchModel.EventsRightIff | packages/vx-dom/src/browser.ts:1090-1146 | After a patch an element records exactly what building would and has forgotten nothing if and only if every listener it had is for an event that the new node has under the same key, or has the name of the old node's event with that key |
| PatchModel.PlainNamesAreAlike | packages/vx-dom/src/events.ts:12-22 | Events with one key are the same event where no name contains a colon, so listeners of kept keys are right |
| EventKeys.KeyInjective | packages/vx-dom/src/events.ts:12-22 | Different events have different joined keys where no name contains a colon |
| EventKeys.KeysCollide | packages/vx-dom/src/events.ts:12-22 | Two different events with one key: handler 5 for `a:message` and the message 5 for `a` |
| EventKeys.FirstPartIff | packages/vx-dom/src/browser.ts:1735-1746 | The part of a key before its first colon is the name of the event if and only if that contains no colon |
| PatchModel.QuietIsDeafIff | packages/vx-dom/src/browser.ts:1735-1746 | Removing the listeners of a subtree, as for a replaced node, leaves none if and only if no registered event has a name with a colon |
| PatchModel.ColonKeepsListener | packages/vx-dom/src/browser.ts:1735-1746 | The listener of an event called `app:changed` stays |
| PatchModel.ReplacedKeepsListener | packages/vx-dom/src/browser.ts:782-787 | A replaced node that is taken over again keeps such a listener, and the result is not what building gives |
| ChildPatch.LeftWithout | packages/vx-dom/src/browser.ts:891-904 | Taking one old node out of those still to be dealt with leaves the others in order, and it was the first of them if nothing before it was left |
| ChildPatch.SilencedIsQuiet | packages/vx-dom/src/browser.ts:1735-1754 | A replaced node has lost its records of listeners in its whole subtree, and the listeners that are removed under the first parts of their keys |
| FrameRenderer.PatchedRootRightIff | packages/vx-dom/src/browser.ts:705-729 | A container that shows a frame is patched to show the next one if and only if patching goes well by the descriptions alone; a first frame always does |
| FrameRenderer.Renderer.Render | packages/vx-dom/src/browser.ts:332-345 | A frame is shown and becomes current, releasing what only the old frame mentions, or fails and releases what it introduced; a container in step stays in step if and only if patching goes well |
| FrameRenderer.Renderer.PatchContainer | packages/vx-dom/src/browser.ts:705-729 | Patching the container computes `PatchedRoot` |
| FrameRenderer.Renderer.Accept | packages/vx-dom/src/browser.ts:322-330 | Handlers that the new frame does not mention are released |
| FrameRenderer.Renderer.Abandon | packages/vx-dom/src/browser.ts:337-342 | Handlers that a failing frame introduced are released |
| FrameRenderer.Renderer.Detach | packages/vx-dom/src/browser.ts:347-352 | After detaching every handler ever introduced has been released exactly once; of a container in step no listener is left if and only if no registered event of its frame has a name with a colon |
| FrameRenderer.DetachedStillCalls | packages/vx-dom/src/browser.ts:347-352 | A run that gets there: a detached container still listens to `app:changed` and would call a handler that has been released |
| FrameRenderer.WiredIsRetained | packages/vx-dom/src/browser.ts:332-345 | No listener dangles: in a container in step the handlers that listeners call are retained, and are all that is retained if no event of the frame has a name with a colon |
| Fragments.FrameShowsTheRoot | packages/vx-dom/src/browser.ts:733-769 | A container that shows the frame with its fragments spliced shows what building the frame with its fragments shows |
| Fragments.FlatIsFragmentFree | packages/vx-dom/src/browser.ts:753-769 | Splicing leaves no fragment at any depth |
| Fragments.FlatShowsTheSame | packages/vx-dom/src/browser.ts:753-769 | Splicing, and passing keys on, makes no difference to what is shown |
| Fragments.KeysBelowDiffer | packages/vx-dom/src/browser.ts:757-765 | Children of a keyed fragment keep different keys if and only if their own keys or indices differ |
| Fragments.IndexMeetsKey | packages/vx-dom/src/browser.ts:757-765 | The index of an unkeyed child may be the key of a sibling, and then their keys coincide |
| ServerHtml.RenderedIsReadBackIff | packages/vx-dom/src/server.ts:72-116 | Reading rendered HTML back gives the tree with fragments spliced, empty text dropped, neighbouring text merged and void elements without children, every text and attribute value as it was, if and only if none of them holds U+0000 |
| ServerHtml.RenderedIsRead | packages/vx-dom/src/server.ts:72-116 | What is read back in any case: U+0000 is replaced in attribute values and textareas and dropped in other text, and nothing else is lost |
| ServerHtml.NullTextIsLost | packages/vx-dom/src/server.ts:206-212 | A text U+0000 passes the renderer and does not come back |
| ServerHtml.NullAttributeIsLost | packages/vx-dom/src/server.ts:214-216 | An attribute value U+0000 passes the renderer and does not come back |
| ServerHtml.ReadBackIsMerged | packages/vx-dom/src/server.ts:72-116 | What is read back has no empty and no neighbouring text, and the same text and elements in order |
| ServerHtml.ReadsNode | packages/vx-dom/src/server.ts:72-116 | The tokens of rendered HTML are those of the tree, whatever follows, the doubled leading newline included |
| ServerHtml.EscapeFirst | packages/vx-dom/src/server.ts:206-216 | Escaping in passes over the text is escaping character by character |
| ServerHtml.ReadsText | packages/vx-dom/src/server.ts:206-212 | Escaped text is tokenized to the characters it had; what becomes of U+0000 is up to the tree |
| ServerHtml.ReadsQuoted | packages/vx-dom/src/server.ts:214-216 | An escaped attribute value is read back as it was, but for U+0000, which is replaced |
| ServerHtml.CollectAttributes | packages/vx-dom/src/server.ts:132-164 | The renderer's local record ends up with the attributes, the properties over them and the style |
| ServerMeaning.RenderedMeaning | packages/vx-dom/src/server.ts:72-116 | What is read of rendered HTML, told from the description: the same characters and elements in the same order, no text empty or next to text, each element with its tag, its attributes by `AttributesAreRead` and its children, none in a void element |
| ServerMeaning.AttributesAreRead | packages/vx-dom/src/server.ts:132-164 | An attribute is read with value x if and only if it is not called `key` and what governs its name is `true` and x is empty, or a text that is x with U+FFFD for U+0000; the styles govern before the last property of that name (but the value of a textarea), and that before the attribute; `false` and absent values are not read |
| ServerMeaning.StyleTextMeaning | packages/vx-dom/src/server.ts:143-151 | The styles are joined in order by `; `, each as name, `: ` and value |
| ServerMeaning.FilledMeaning | packages/vx-dom/src/server.ts:206-216 | Where a U+0000, which escaping lets pass, is replaced by U+FFFD, every other character stays in its place |
| ServerMeaning.DroppedMeaning | packages/vx-dom/src/server.ts:206-216 | Where it is dropped, every other character stays |
| ServerMeaning.RendersIff | packages/vx-dom/src/server.ts:72-204 | A description is rendered if and only if its tags, properties, styles and the attributes that show are valid, a textarea's value is the text of its children, scripts and styles hold nothing but text without U+0000, carriage return and their end tag in any case, and so do its children unless the element is void |
| ServerMeaning.RawTextIff | packages/vx-dom/src/server.ts:118-130 | Raw text is rendered as it is if and only if it has no U+0000, no carriage return and no end tag in it, in whatever case |
| ServerMeaning.TextareaIff | packages/vx-dom/src/server.ts:180-204 | A textarea passes if and only if it has no property `value`, or that is the text of its children, which are no elements |
| ServerMeaning.TextareaTextMeaning | packages/vx-dom/src/server.ts:196-204 | The text of a textarea is that of its children in order, fragments included, and there is none if one is an element |
| ServerMeaning.Namespaces | packages/vx-dom/src/normalize.ts:120-134 | An element is in the SVG namespace if it is `svg` or its parent's children are, and its children are unless HTML starts again |
| ServerMeaning.ValidTagIff | packages/vx-dom/src/normalize.ts:77-81 | Tags are of lower-case letters, digits, hyphens and colons and start with a letter |
| ServerMeaning.ValidAttributeIff | packages/vx-dom/src/normalize.ts:83-87 | Attribute names have no capitals, spaces, quotes, slashes, equals signs, closing brackets or control characters |
| ServerAndBrowser.ServerShowsWhatIsBuiltIff | packages/vx-dom/src/server.ts:72-164 | Reading the markup of the server gives the characters, elements and attributes of the DOM that the browser builds for the same description, in the same order, if and only if no text and no attribute that is set holds U+0000, nothing is described inside a void element, and no textarea has both a property `value` and an attribute `value` that shows |
| ServerAndBrowser.ServerShowsTheFrameIff | packages/vx-dom/src/browser.ts:705-769 | The same for a container that shows the spliced frame |
| ServerAndBrowser.AttrsIff | packages/vx-dom/src/browser.ts:958-977 | The attributes of one element are the same on both sides if and only if none that is set holds U+0000 and it is not a textarea with both |
| ServerAndBrowser.PropsAlike | packages/vx-dom/src/browser.ts:958-977 | Properties change the attributes printed by the server and those set by the browser alike, but for the value of a textarea |
| ServerAndBrowser.VoidElementsDiffer | packages/vx-dom/src/server.ts:101-102 | A `br` with a text inside: the server does not show it, the browser does |
| ServerAndBrowser.TextareasDiffer | packages/vx-dom/src/server.ts:141 | A textarea with an attribute `value` and a property `value`: the attribute is in the markup and not in the browser |
| HtmlReader.BuildsText | packages/vx-dom/src/server.ts:72-87 | Characters read one by one make one text node, without U+0000 or with it replaced |
| ModuleOrder.ModuleWalk.Lower | packages/compiler/src/pipeline-shared.ts:416-443 | The order lists, without duplicates, exactly the modules with semantics that a path of dependencies leads to from the entry, all with ids that are not empty and in the graph, and for every listed dependency u to v, v precedes u unless v reaches u, on any possibly cyclic graph |
| ModuleOrder.ModuleWalk.Visit | packages/compiler/src/pipeline-shared.ts:426-434 | The walk finishes everything reachable that was not visited, in dependency order |
| ModuleOrder.FinishModule | packages/compiler/src/pipeline-shared.ts:432-433 | Finishing a module keeps the order: each dependency is finished or is being visited and so reaches it |
| ModuleOrder.KeptBefore | packages/compiler/src/pipeline-shared.ts:438-440 | Leaving out modules without semantics keeps the order of the others |
| ModuleOrder.ClosedUnderReach | packages/compiler/src/pipeline-shared.ts:426-436 | When nothing is being visited, everything reachable has been finished |
| PortableSchema.PortableIffFinite | apps/cli/src/generate-adapter.ts:266-308 | A schema has a portable form if and only if its reference unfolding is finite, and then it is that unfolding; no reference and no custom type is left |
| PortableSchema.RefusedIffInfinite | apps/cli/src/generate-adapter.ts:266-281 | With every reference registered, a schema is refused as recursive if and only if its unfolding is infinite |
| PortableSchema.OnlyRecursionFails | apps/cli/src/generate-adapter.ts:267-281 | With every reference registered there is no other error |
| PortableSchema.RegisteredMeaning | apps/cli/src/generate-adapter.ts:241-264 | Registering adds exactly the ids and aliases carried by the parts of a schema, each for a part that carries it |
| PortableSchema.LastOneWins | apps/cli/src/generate-adapter.ts:241-264 | Of several parts that carry one id the last is registered, a part coming before those inside it |
| PortableSchema.RefsKnownIff | apps/cli/src/generate-adapter.ts:267-271 | Every reference is registered if and only if every part that is a reference is |
| PortableSchema.TypeTable.Register | apps/cli/src/generate-adapter.ts:242-263 | The table filled in place is `Registered` |
| MarkdownTree.FlatteningIsUndone | packages/markdown/host/adapter.ts:221-237 | Rebuilding from the root undoes flattening; every child index exceeds its parent's and every row but the root is the child of exactly one row |
| MarkdownTree.TreeFlattener.Visit | packages/markdown/host/adapter.ts:223-235 | A tree's rows are appended in preorder and its index is where they start |
| MarkdownTree.TreeFlattener.Flatten | packages/markdown/host/adapter.ts:221-237 | The table is the preorder of the tree |
| MarkdownTree.OneParent | packages/markdown/host/adapter.ts:221-237 | Within the rows of a tree every row but its root is the child of exactly one row |
| MarkdownTree.AssertTokenBudget | packages/markdown/host/adapter.ts:65-85 | A token tree is accepted if and only if it has at most 50000 tokens and no more than 64 tokens stand one below the other; an error names a bound that is exceeded |
| MarkdownTree.ShallowIff | packages/markdown/host/adapter.ts:65-85 | The depth of a document is the length of its longest chain of tokens, each in a list or table cell of the one before |
| MarkdownTree.CountMeaning | packages/markdown/host/adapter.ts:76-83 | A tree has one token more than its four lists of nested tokens have together, the table cells row by row |

## Left out

- Wasm instantiation, memory growth, transport encoding, fingerprints and trap annotation: resuming and reading an outcome only succeed or fail.
- Guest code that runs inline during a resume: its spawns, cancellations and takes are separate steps between turns.
- The scheduler behind the run loop: a step is atomic, and a closed run takes no more turns.
- Standalone detached tasks, the effect loop without raw exports, and cancellation frames on the transport.
- TaskRuntime.Run.CancelToken: does not say what the waiter of a completing task is told, because that task first ends through its last child with another outcome.
- TaskRuntime.Run.CompleteTask: says what the waiter is told only when no child was live before, because a child's end may resume the waiter first.
- The order in which cancelled waiters join the ready queue is not stated, only that each is in it, and that nothing is in it twice.
- TaskRuntime.Run.CancelTaskById: says with which outcome the tasks below end only where no task traps on being told of an end, because one that traps may fail before its turn to be cancelled comes.
- TaskRuntime.Run.Spawn: a failing export lookup or allocation consumes a task id in the code (host.ts 2040-2048), so ids need not be contiguous there; here they are.
- Failures inside `onUnhandledTaskFailed` and console output.
- BoundaryCycles.EncodingIsUnfolding: leaves out schemas that repeat a field name within one record or variant, whose unfolding is not one tree; `RepeatedName` says what encoding makes of any field list.
- A record entry with the empty name that no field has lets itself and every later unknown entry pass in the code (`if (unknown)`); here it is refused like any other.
- BoundaryCycles.RecurringIsRefused: leaves out such schemas.
- BoundaryRoundTrip.RoundTripIff: leaves out such schemas.
- BoundaryRoundTrip.RoundTrip: leaves out such schemas.
- BoundaryRoundTrip.SurvivorsComeBack: leaves out such schemas.
- BoundaryRoundTrip.OnlySurvivorsComeBack: leaves out such schemas.
- BoundaryMeaning.RecordEncodingIff: leaves out such schemas.
- BoundaryMeaning.VariantEncodingIff: leaves out such schemas.
- BoundaryMeaning.RecordDecoding: leaves out such schemas.
- BoundaryMeaning.VariantDecoding: leaves out such schemas.
- `buildSchemaRegistry`: a registry is any table from ids to schemas.
- Inherited properties, index keys of typed arrays, sparse arrays and getters of host objects: records have own entries only, and a typed array is not a record.
- The decoder's depth counter is an argument, not a field as in `Encoder`.
- ChildPatch: nodes are values with ids, so a DOM node shared between two parents is not captured; properties, structured styles, hydration and SVG attribute namespaces are left out.
- Listeners added to a text node that is patched as an element: the node stays as it is when no attribute is set and no child added.
- Handler ids that are not natural numbers, and messages as anything but their text in the key.
- FrameRenderer.Renderer.Render: what a failing patch leaves in the container is an input, because the code does not undo it.
- ServerHtml.RenderedIsReadBackIff: leaves out SVG and MathML, elements whose content a reader does not take as markup (`script`, `style`, `xmp`, `iframe`, `noembed`, `noframes`, `noscript`, `plaintext`), elements inside `textarea` and `title`, and the repairs of HTML tree construction (implied end tags, tables). The renderer escapes the content of all but the first two: `&` in an `xmp` is rendered as `&amp;` and read back so.
- ServerHtml.RenderedIsRead: leaves out the same.
- ServerHtml.ReadsNode: leaves out the same.
- ServerMeaning.RenderedMeaning: leaves out the same.
- ServerAndBrowser.ServerShowsWhatIsBuiltIff: leaves out the same, and styles and properties that the markup does not hold, which the browser sets on the element.
- ServerAndBrowser.ServerShowsTheFrameIff: leaves out the same.
- Validation rules for DOM properties, CSS and SVG names are parameters of the renderer.
- Promise timing: one dispatch or sync is atomic, and a dispatch from inside a dispatch is not modelled.
- Command-owned mapper release, canvas, storage, clipboard and navigation commands and subscriptions.
- The component state runtime of `app-runtime.ts` (slots and scope stack).
- Adapter code text, WIT names and hashes, and the `marked` lexer.

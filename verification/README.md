# A verified model of the event-command kernel

The kernel runs a root command by starting handlers concurrently, publishing the events they
stream to reactions, and starting the commands those call for. Around that it schedules handlers by
the capabilities they claim, resolves and composes extensions, and owns the life of a run. This
project models the six modules that do this and proves what they keep.

- `Scheduler`, `Serializability`: admission by claims. Tickets wait in arrival order; the active
  ones are at all times a function of the outstanding ones alone, and bodies admitted together leave
  the store as if run one at a time.
- `Pump` and the `Pump...` modules: the runtime pump as a protocol of atomic steps between
  suspension points, for one supervisor, any number of drains and one consumer over two bounded
  queues and two counters, with the scheduler's state inside (`PumpClaims`: handlers at work together
  keep apart as planned). Other runs may use the same scheduler:
  a run finds it in any state, and their tickets arrive and leave at any time. `PumpProgress` has the invariant,
  quiescence and deadlock freedom; `PumpExpansion` the sequential reference; `PumpConfluence`,
  `PumpMeasure`, `PumpTermination` and `PumpBudget` show that what a run yields and how it ends do
  not depend on the schedule; `PumpOrder` the orders it keeps; `PumpObject` is the pump as an object.
- `Ids`, `Resolver`, `ResolverLaws`: dependency resolution, its outcome and its cycle report.
- `Lifecycle`, `Harness`, `HarnessLaws`, `HarnessOverPump`: a run from start to terminal event over
  an arbitrary stream, canceller and commit handler, and the same over the modelled pump.
- `Host`, `HostLaws`: staged composition of extensions.

A state the code updates in place is a class whose methods are proved against functions on values;
the theorems are about those functions. Handlers are functions from a command's payload to the
events they stream and the way they end; reactions are functions from an event's payload.

Where code and documentation disagree the model follows the code. The host's docstring promises
that the composed set is replayed atomically (extension_host.py:262); a registration refused half
way leaves the earlier ones in place. `HostLaws.ReplayIsNotAtomic` exhibits it and
`HostLaws.AtomicExactlyIf` says exactly when it is atomic.

The proofs also show code that never has an effect: the cancelled branch of the scheduler's scan
(scheduler.py:70-72), the empty test of the control queue (runtime.py:252), the errors
"runtime supervisor stopped before accepting control" (runtime.py:285) and "dependency graph was
cyclic but no cycle was found" (extensions.py:161), and the rejection of a lifecycle transition
asked for by the harness.

## Model

| member | source | states |
|---|---|---|
| Messages.Caused | src/better_agent/kernel/runtime.py:36-49 | an envelope made for a cause has the payload and the fresh id it is given, carries the cause's correlation id, names its id as causation and keeps the run's origin |
| Messages.Create | src/better_agent/kernel/runtime.py:36-49 | an envelope has the id, payload and origin given; its correlation id is fresh and it has no causation unless it has a cause |
| Buses.InMemoryEventBus.Subscribe | src/better_agent/kernel/runtime.py:82-90 | a subscription goes to the end of the list |
| Buses.InMemoryEventBus.PublishEvent | src/better_agent/kernel/runtime.py:92-101 | the loop fails exactly if some matching handler fails, and else returns the matching handlers' answers one after the other in registration order |
| Buses.PublishConcat | src/better_agent/kernel/runtime.py:96-101 | publishing to two batches of subscriptions is publishing to the first, then the second, unless either raises |
| Buses.PublishToOne | src/better_agent/kernel/runtime.py:98-100 | publishing to one subscription is asking its handler if the event matches, and nothing if not |
| Buses.PublishIsFanOut | src/better_agent/kernel/runtime.py:97-101 | position by position: who can fail the event, and what is answered in which order |
| Buses.InMemoryCommandBus.Bind | src/better_agent/kernel/runtime.py:111-116 | a first binding is stored; a second one for the same class is an error and changes nothing |
| Buses.InMemoryCommandBus.DispatchCommand | src/better_agent/kernel/runtime.py:118-130 | dispatch refuses an unbound class or a raising planner, else gives the planned or default (exclusive) claims with the handler's stream |
| Buses.DispatchIsPlanned | src/better_agent/kernel/runtime.py:124-136 | dispatch is refused exactly for want of a binding or of a plan, and else streams the bound handler with the claims the planner gives, or exclusive claims without a planner |
| Pump.ScriptIsHandlers | src/better_agent/kernel/runtime.py:132-136 | a planned command yields just what its bound handler yields and ends as it ends |
| Scheduler.ConflictsSymmetric | src/better_agent/kernel/scheduler.py:18-25 | conflict is symmetric |
| Scheduler.CapabilityScheduler.constructor | src/better_agent/kernel/scheduler.py:31-34 | a new scheduler has no tickets and meets the invariant |
| Scheduler.CapabilityScheduler.Grant | src/better_agent/kernel/scheduler.py:67-74 | granting moves one ready ticket from queue to active list and settles its future; the cancelled branch cannot be reached |
| Scheduler.CapabilityScheduler.GrantFirstReady | src/better_agent/kernel/scheduler.py:66-76 | the inner loop grants the first ready ticket, or finds every waiting ticket decided |
| Scheduler.CapabilityScheduler.ScheduleReady | src/better_agent/kernel/scheduler.py:61-76 | the restart scan ends, and leaves exactly what the one-pass filter over the live tickets leaves |
| Scheduler.CapabilityScheduler.Admit | src/better_agent/kernel/scheduler.py:36-45 | arrival appends the ticket and schedules, keeping the invariant; the newcomer is admitted at once exactly if, with every ticket around, neither is exclusive and neither writes a key the other reads or writes |
| Scheduler.CapabilityScheduler.Cancel | src/better_agent/kernel/scheduler.py:47-48 | cancelling a waiting task cancels its future; a granted one stays granted |
| Scheduler.CapabilityScheduler.Release | src/better_agent/kernel/scheduler.py:50-57 | leaving removes the ticket from wherever it is and schedules; a ticket already dropped changes nothing |
| Scheduler.ScheduleFilters | src/better_agent/kernel/scheduler.py:61-84 | on every state the scan is called in: a waiting ticket is granted exactly if it is not cancelled and conflicts with no active ticket and no older live one; cancelled tickets are dropped, all others keep waiting in order |
| Scheduler.ApartIsCompatible | src/better_agent/kernel/scheduler.py:18-25 | claims are compatible exactly if neither is exclusive and no key one writes is read or written by the other |
| Scheduler.NewcomerAdmitted | src/better_agent/kernel/scheduler.py:43-45 | an arrival is granted at once exactly if it keeps apart, key by key, from every ticket around |
| Scheduler.CancelledNeverGranted | src/better_agent/kernel/scheduler.py:61-64 | in any run a ticket cancelled while it waits is never granted, and is gone after the next arrival or the next departure of an outstanding ticket |
| Scheduler.DecideGrantsInOrder | src/better_agent/kernel/scheduler.py:66-74 | grants are given in queue order and added behind the tickets already active |
| Scheduler.DecideOrder | src/better_agent/kernel/scheduler.py:66-84 | the tickets that keep waiting keep their relative order |
| Scheduler.ScheduleInv | src/better_agent/kernel/scheduler.py:61-84 | scheduling a well-formed queue makes it history-free |
| Scheduler.ArriveInv | src/better_agent/kernel/scheduler.py:43-45 | arrival keeps the invariant |
| Scheduler.MarkCancelledInv | src/better_agent/kernel/scheduler.py:47-48 | cancelling keeps the invariant |
| Scheduler.LeaveInv | src/better_agent/kernel/scheduler.py:50-57 | leaving keeps the invariant and adds no outstanding ticket |
| Scheduler.EveryRunIsHistoryFree | src/better_agent/kernel/scheduler.py:36-84 | after every step of any run an outstanding ticket is active exactly if no older outstanding ticket conflicts with it |
| Scheduler.ActiveSetDetermined | src/better_agent/kernel/scheduler.py:61-84 | two states with the same outstanding tickets have the same active ones, whatever led to them |
| Scheduler.ActiveNeverConflict | src/better_agent/kernel/scheduler.py:78-80 | two active tickets never conflict |
| Scheduler.NoOvertaking | src/better_agent/kernel/scheduler.py:81-84 | an active ticket that conflicts with a waiting one is older than it |
| Scheduler.WaitingImpliesActive | src/better_agent/kernel/scheduler.py:61-84 | after scheduling somebody is active if anybody waits |
| Scheduler.AheadShrinks | src/better_agent/kernel/scheduler.py:43-57 | the older conflicting tickets a ticket waits for are never added to, and each departure removes its own |
| Scheduler.GrantedOnceOlderLeft | src/better_agent/kernel/scheduler.py:43-84 | a ticket still outstanding is active at the latest when all that were older on its arrival have left |
| Scheduler.SoundLeave | src/better_agent/kernel/scheduler.py:50-57 | leaving takes away one ticket and no one else's grant |
| Scheduler.SoundAbandon | src/better_agent/kernel/scheduler.py:47-57 | a cancelled waiter takes away its own ticket and no one else's grant |
| Serializability.ActionsCommute | src/better_agent/kernel/scheduler.py:18-25 | accesses within claims that do not conflict commute |
| Serializability.ConflictsExactly | src/better_agent/kernel/scheduler.py:18-25 | claims conflict exactly if one is exclusive or some accesses they permit collide on a key that either writes |
| Serializability.SchedulingKeepsTracked | src/better_agent/kernel/scheduler.py:36-84 | no scheduler step lets anybody act past an older conflicting ticket |
| Serializability.OrderedIsSerial | src/better_agent/kernel/scheduler.py:18-84 | an interleaving in which conflicting bodies act in arrival order has the effect of the serial schedule |
| Serializability.SerialKeepsBodies | src/better_agent/kernel/scheduler.py:36-59 | in the serial schedule each body does exactly what it did, in its own order |
| Serializability.AdmissionIsSerializable | src/better_agent/kernel/scheduler.py:18-84 | after any run of the scheduler and of bodies that keep to their claims, the store and all values read are those of running the bodies one at a time in arrival order |
| PumpAdmission.OwnedStep | src/better_agent/kernel/runtime.py:132-135 | after every step, other runs' included, a ticket in a drain's hands is in the scheduler and in no other hands, and running handlers hold granted ones; this run's steps bring in no stranger |
| PumpAdmission.OwnedDespiteArrival | src/better_agent/kernel/scheduler.py:36-45 | another run's ticket arriving takes no ticket and no grant from this run |
| PumpAdmission.OwnedDespiteLeaving | src/better_agent/kernel/scheduler.py:50-57 | nor does another run's ticket leaving |
| PumpAdmission.SomeoneIsAdmitted | src/better_agent/kernel/runtime.py:132-135 | while any drain has a ticket, some ticket is active: a drain's or, only if there are other runs, one of theirs |
| PumpClaims.TicketsClaimAsPlanned | src/better_agent/kernel/runtime.py:128-135 | in every reachable state the ticket of a drain that waits for or is inside its handler claims what the binding's planner says of the command, or everything without a planner |
| PumpClaims.HandlerKeepsApart | src/better_agent/kernel/runtime.py:132-135 | while a handler is at work no other admitted ticket, of this run or another, is exclusive or writes what it touches or touches what it writes |
| PumpClaims.HandlersKeepApart | src/better_agent/kernel/runtime.py:132-135 | two handlers of a run at work together were planned without exclusiveness and without a key that one writes and the other reads or writes |
| PumpClaims.EntersAtOnce | src/better_agent/kernel/runtime.py:132-135 | a command planned apart from every ticket around can enter its handler as soon as it has asked |
| PumpCounters.CountedStep | src/better_agent/kernel/runtime.py:202-217 | `active_tasks` and `pending_events` stay exact in every step |
| PumpCounters.FencedStep | src/better_agent/kernel/runtime.py:317-324 | every queued start has the acknowledgement of its event still to come behind it |
| PumpCounters.ZeroIsQuiet | src/better_agent/kernel/runtime.py:248-255 | both counters are zero exactly if every drain has reported and no event is unput, queued, in hand or unacknowledged |
| PumpCounters.ZeroMeansIdle | src/better_agent/kernel/runtime.py:249-253 | the test for an empty control queue already follows from the two counters being zero |
| PumpProgress.QuiescenceIsSound | src/better_agent/kernel/runtime.py:239-255 | in every reachable state the counters are exact, zero exactly without work anywhere, and the supervisor has stopped of itself only then |
| PumpProgress.InvStep | src/better_agent/kernel/runtime.py:192-325 | the pump's invariant is kept by every step of every task |
| PumpProgress.Progress | src/better_agent/kernel/runtime.py:192-325 | a step that is enabled, for every state that meets the invariant and every positive inbox size: the run's own, or the leaving of another run's admitted ticket |
| PumpProgress.DeadlockFreedom | src/better_agent/kernel/runtime.py:132-325 | no reachable state before the end of the stream is stuck, whoever is blocked on a full queue or on admission; without other runs the run itself can step |
| PumpProgress.NoSwallowedFailure | src/better_agent/kernel/runtime.py:192-261 | once a drain has failed, no continuation ends the stream normally |
| PumpProgress.FinishedIsClean | src/better_agent/kernel/runtime.py:287-307 | when the stream has ended normally both queues are empty and every drain has ended without failing |
| PumpProgress.FinishedGivesBack | src/better_agent/kernel/runtime.py:132-135 | a run that ends normally has given every admission back, so what is left in the scheduler is other runs' |
| PumpProgress.OnlyAbandonedHold | src/better_agent/kernel/runtime.py:204-223 | once the supervisor has stopped, only handlers cancelled inside `inbox.put` and not yet finalised hold admissions |
| PumpProgress.FaultsAreFailures | src/better_agent/kernel/runtime.py:210-223 | the list of faults put into the group is empty exactly if no drain has ended as failed |
| PumpProgress.FaultsExactly | src/better_agent/kernel/runtime.py:210-223 | the faults in the group are exactly the commands of the drains that ended as failed, each once |
| PumpProgress.QueuesStayBounded | src/better_agent/kernel/runtime.py:183-184 | both queues stay within the configured size |
| PumpExpansion.WalkMore | src/better_agent/kernel/runtime.py:192-325 | the sequential reference gives the same trace however much more fuel it gets |
| PumpExpansion.ExpandUnfolds | src/better_agent/kernel/runtime.py:192-213 | a command comes to itself and what its handler's events come to, or to nothing finite if it fails |
| PumpExpansion.ExpandEventUnfolds | src/better_agent/kernel/runtime.py:310-323 | an event comes to itself and what the commands of its reactions come to |
| PumpConfluence.TotalAfterMove | src/better_agent/kernel/runtime.py:192-217 | a drain's step keeps what is done plus what is to come |
| PumpConfluence.TotalAfterReceive | src/better_agent/kernel/runtime.py:238-247 | processing a control message within the budget keeps what is done plus what is to come |
| PumpConfluence.TotalAfterPublish | src/better_agent/kernel/runtime.py:310-316 | running an event's reactions keeps it |
| PumpConfluence.TotalAfterSend | src/better_agent/kernel/runtime.py:317-324 | sending a start or an acknowledgement keeps it |
| PumpConfluence.TotalKept | src/better_agent/kernel/runtime.py:192-325 | every step that does not give the run up keeps what is done plus what is to come, with no loss or duplication |
| PumpConfluence.NormalEndIsExpansion | src/better_agent/kernel/runtime.py:174-329 | a run that ends normally, under any schedule, has yielded exactly the events and started exactly the commands of the depth-first walk of the root, each as often, in as many steps as there are commands |
| PumpConfluence.NeverGivenUp | src/better_agent/kernel/runtime.py:224-261 | while the expansion is finite, unfailing and within the budget, no step fails the run |
| PumpMeasure.StepUses | src/better_agent/kernel/runtime.py:192-325 | every step of the run lowers a measure of the steps to come, or starts a drain; it lowers it anyway if the drain's command weighs at least what it yields |
| PumpTermination.ReachIsWalk | src/better_agent/kernel/runtime.py:192-325 | where nothing fails the failure-tolerant reach of a command is the number of events and commands of its sequential walk |
| PumpTermination.FiniteReachEnds | src/better_agent/kernel/runtime.py:174-329 | whatever fails, a run of a root of finite reach takes at most seven steps for each event and command reached and two more, not counting other runs' steps, and is over when it cannot go on |
| PumpTermination.CompletingRunsFinish | src/better_agent/kernel/runtime.py:174-329 | if the expansion is finite, unfailing and within the budget, no run is longer than seven steps for each event and command and two more, none raises, and one that cannot go on has ended normally |
| PumpTermination.VerdictIsScheduleFree | src/better_agent/kernel/runtime.py:174-329 | a run that is over has ended normally exactly if the expansion is finite, unfailing and within the budget |
| PumpTermination.FiniteReachDecides | src/better_agent/kernel/runtime.py:174-329 | if the reach of the root is finite, a run that cannot go on has raised exactly if the sequential walk of that reach meets a failure or has more commands than the budget, and else has ended normally |
| PumpBudget.BudgetedStep | src/better_agent/kernel/runtime.py:192-325 | every step of the run starts a drain within the budget or uses up some of the steps that the drains already started leave |
| PumpBudget.NoEndlessRun | src/better_agent/kernel/runtime.py:224-261 | with a step budget there is no endless run, whatever fails, whatever is picked and whatever other runs do to the scheduler, for handlers whose streams end |
| PumpBudget.BudgetVerdict | src/better_agent/kernel/runtime.py:224-261 | without failing handlers and reactions, the only other ending is the budget error for step `max_steps + 1` |
| PumpBudget.StepsStayInBudget | src/better_agent/kernel/runtime.py:226-235 | at most `max_steps` drains are ever started; a budget error names the step after; the "stopped before accepting control" error never occurs |
| PumpOrder.StartOrder | src/better_agent/kernel/runtime.py:224-241 | started commands are a prefix of the root followed by what the reactions to the taken events call for, in order; all of it on a normal end |
| PumpOrder.EmissionOrder | src/better_agent/kernel/runtime.py:192-209 | each command's events are in the stream in the order its handler yields them; all of them on a normal end |
| PumpOrder.CausalOrder | src/better_agent/kernel/runtime.py:36-49 | following causation from a yielded event reaches the root in alternating steps, all of the root's correlation and origin, and every event on the way is strictly earlier in the stream |
| PumpOrder.StartedInOrderStep | src/better_agent/kernel/runtime.py:224-247 | commands are started in the order they were made, up to the one the budget refuses |
| PumpOrder.LoggedStep | src/better_agent/kernel/runtime.py:196-201 | every message is caused by an earlier one of the other kind and of the same run |
| PumpObject.RuntimePump.constructor | src/better_agent/kernel/runtime.py:174-190 | the opening state of a run |
| PumpObject.RunEnvelope | src/better_agent/kernel/runtime.py:143-190 | an inbox size or step budget below one is rejected, anything else opens a run |
| PumpObject.RuntimePump.Start | src/better_agent/kernel/runtime.py:224-235 | `start`: count the step and create the drain, or raise the budget error |
| PumpObject.RuntimePump.ProcessControl | src/better_agent/kernel/runtime.py:238-255 | one turn of the supervisor's loop, with the test for idleness |
| PumpObject.RuntimePump.LeaveGroup | src/better_agent/kernel/runtime.py:223-261 | the group ends with the budget error and the failed drains' errors, or with none |
| PumpObject.RuntimePump.AskAdmission | src/better_agent/kernel/runtime.py:118-133 | dispatching, and queueing for admission |
| PumpObject.RuntimePump.EmitEvent | src/better_agent/kernel/runtime.py:196-203 | the next event of the handler is enveloped and counted before it is put |
| PumpObject.RuntimePump.PutEvent | src/better_agent/kernel/runtime.py:204-205 | the event goes to the end of the inbox |
| PumpObject.RuntimePump.FinishHandler | src/better_agent/kernel/runtime.py:132-135 | the admission is given up when the handler's stream ends |
| PumpObject.RuntimePump.ReportFinished | src/better_agent/kernel/runtime.py:214-217 | a drain that is not being cancelled reports |
| PumpObject.RuntimePump.CancelDrain | src/better_agent/kernel/runtime.py:204-217 | a cancelled drain takes back its count if it was putting, leaves the queue if it was waiting, and does not report |
| PumpObject.RuntimePump.React | src/better_agent/kernel/runtime.py:311-316 | reactions run on the event in hand |
| PumpObject.RuntimePump.SendNext | src/better_agent/kernel/runtime.py:317-324 | starts are sent in order, then the acknowledgement |
| PumpObject.RuntimePump.End | src/better_agent/kernel/runtime.py:301-307 | the consumer raises the supervisor's error or ends the stream |
| PumpObject.RuntimePump.Perform | src/better_agent/kernel/runtime.py:192-325 | each method performs exactly its action of the protocol |
| PumpObject.RuntimePump.RunToEnd | src/better_agent/kernel/runtime.py:174-329 | total correctness of an undisturbed run of finite reach: under any choice of enabled actions, turn by turn, it ends, normally exactly if the walk of the reach succeeds and then with the events and commands of the expansion |
| PumpObject.RuntimePump.RunWithBudget | src/better_agent/kernel/runtime.py:224-261 | with a step budget every undisturbed run ends under any choice of enabled actions, turn by turn, normally exactly if the expansion completes |
| Resolver.CycleSearch.Visit | src/better_agent/kernel/extensions.py:137-155 | the search restores its path when it finds nothing; among ids that all have an unresolved requirement it never backtracks and returns the lasso of least requirements |
| Ids.LeByFirstDifference | src/better_agent/kernel/extensions.py:92-121 | ids compare as text: a prefix first, else the first different character decides |
| Resolver.FindCycle | src/better_agent/kernel/extensions.py:133-161 | among such ids the first start already gives a cycle, so the final `RuntimeError` is unreachable |
| Resolver.IndexById | src/better_agent/kernel/extensions.py:78-89 | the first extension of each id is indexed and exactly the ids that come again are noted |
| Resolver.FindMissing | src/better_agent/kernel/extensions.py:95-102 | the nested scan finds the least extension lacking something and the least thing it lacks, if any |
| Resolver.Invert | src/better_agent/kernel/extensions.py:104-111 | `dependents` is the reverse of the requirements |
| Resolver.Strike | src/better_agent/kernel/extensions.py:120-123 | a finished id is struck off its dependents' lists, and exactly those left with none become ready, each pushed once |
| Resolver.OrderAll | src/better_agent/kernel/extensions.py:107-123 | the loop orders the ids greedily by the least ready one |
| Resolver.Resolve | src/better_agent/kernel/extensions.py:73-130 | `resolve` returns the specified outcome on every input |
| Resolver.GreedySound | src/better_agent/kernel/extensions.py:113-123 | the greedy order has no repeats, respects requirements and stops only when nothing is ready |
| Resolver.GreedyIsLeast | src/better_agent/kernel/extensions.py:113-123 | if there is a topological order at all, the greedy one is one, and the lexicographically least |
| Resolver.UnresolvedIsStuck | src/better_agent/kernel/extensions.py:125-127 | every id left over has a requirement left over |
| Resolver.ShortMeansUnresolved | src/better_agent/kernel/extensions.py:125-126 | comparing the two lengths tells exactly whether ids are left over |
| Resolver.LassoIsReported | src/better_agent/kernel/extensions.py:137-155 | following least unresolved requirements gives a simple closed path inside the unresolved ids |
| Resolver.CycleIsNeverOrdered | src/better_agent/kernel/extensions.py:117-123 | no id of a cycle can come into an order that respects requirements |
| ResolverLaws.ResolvedIsSorted | src/better_agent/kernel/extensions.py:125-130 | on success the result is a permutation of the input with every extension after its requirements |
| ResolverLaws.ResolvedIsLeast | src/better_agent/kernel/extensions.py:113-130 | its ids are lexicographically least among all such permutations |
| ResolverLaws.LexByFirstDifference | src/better_agent/kernel/extensions.py:113-121 | orders compare by their first different id |
| ResolverLaws.OutcomeIgnoresOrder | src/better_agent/kernel/extensions.py:78-130 | the outcome, errors included, is the same for every permutation of the input |
| ResolverLaws.DuplicateIsLeast | src/better_agent/kernel/extensions.py:91-93 | the duplicate error comes exactly if two extensions share an id and names the least such id |
| ResolverLaws.MissingIsLeast | src/better_agent/kernel/extensions.py:99-102 | the missing error comes exactly if there are no duplicates and something required is absent, and names the least pair |
| ResolverLaws.CycleIsExact | src/better_agent/kernel/extensions.py:125-128 | the cycle error comes exactly if nothing is duplicate or missing and the requirements are cyclic, with a simple closed path of unresolved ids |
| ResolverLaws.UnresolvedExactly | src/better_agent/kernel/extensions.py:117-126 | an id is left over exactly if no order that respects requirements has room for it |
| ResolverLaws.CycleIsFirstMet | src/better_agent/kernel/extensions.py:137-160 | the cycle reported is the tail of the path of least unresolved requirements from the least unresolved id, from the first id met again and closed by it |
| Lifecycle.RunLifecycle.Transition | src/better_agent/kernel/lifecycle.py:107-112 | a transition is made exactly if the table allows it |
| Lifecycle.OneStageFurther | src/better_agent/kernel/lifecycle.py:94-100 | the table allows exactly the steps to the next stage |
| Lifecycle.StatesGoForward | src/better_agent/kernel/lifecycle.py:94-112 | whatever is requested, a run moves one way through its states and final states are final |
| Harness.FindErrorIsFirstLeaf | src/better_agent/kernel/harness.py:58-66 | the error search finds the first exception of the wanted kind anywhere in the tree, from left to right |
| Harness.Harness.Cancel | src/better_agent/kernel/harness.py:90-93 | a request counts only for a known run whose work is running |
| Harness.Harness.PrimaryEvents | src/better_agent/kernel/harness.py:204-239 | events are handed out until the stream ends or fails or cancellation is noticed, which wins over the event read |
| Harness.Harness.CommitOutcome | src/better_agent/kernel/harness.py:241-281 | the loop over the commit handler's stream gives the specified verdict; a completed, failed or cancelled outcome is confirmed exactly by `RunCompleted`, `RunFailed` or `RunCancelled` of it, alone and followed by a clean end |
| Harness.Harness.Finalize | src/better_agent/kernel/harness.py:183-197 | outcome, commit and final state |
| Harness.Harness.Run | src/better_agent/kernel/harness.py:95-202 | the whole run tells the specified trace, its lifecycle transitions are never rejected, and the run is forgotten |
| HarnessLaws.OnlyTheExpectedEvent | src/better_agent/kernel/harness.py:252-281 | the terminal event is confirmed exactly if the handler emits the one expected event and ends without error |
| HarnessLaws.FinalizationErrors | src/better_agent/kernel/harness.py:260-281 | which finalization error goes with which stream of the commit handler |
| HarnessLaws.EndedRunCompletes | src/better_agent/kernel/harness.py:134-197 | a run whose work ends tells `RunCompleted` last and is COMPLETED exactly if the handler emits just that and returns |
| HarnessLaws.FailingRunFails | src/better_agent/kernel/harness.py:141-197 | a run whose work fails tells `RunFailed` with the reason last and is FAILED exactly if the handler emits just that and returns |
| HarnessLaws.CancelledRunCancels | src/better_agent/kernel/harness.py:135-197 | a run that finds itself cancelled tells `RunCancelled` last and is CANCELLED exactly if the handler emits just that and returns |
| HarnessLaws.FailureAnnounced | src/better_agent/kernel/harness.py:143-181 | a failed run announces, with its cause, the first budget error in the tree, else the first execution error, else the failure itself after the last message |
| HarnessLaws.TraceGrammar | src/better_agent/kernel/harness.py:103-197 | the trace is `RunStarted`, work events, at most one own fault or budget event, the outcome, and a terminal event of that outcome or a finalization error without one |
| HarnessLaws.ReadsUpTo | src/better_agent/kernel/harness.py:214-239 | reading hands out exactly the events before the first turn that ends, fails or finds cancellation |
| HarnessLaws.CancelledExactlyIf | src/better_agent/kernel/harness.py:141-181 | a run is cancelled exactly if a read finds the request before any read ends or fails; later requests change nothing |
| HarnessLaws.TraceStaysInRun | src/better_agent/kernel/harness.py:117-188 | everything handed out carries the run's correlation id if the pump's messages do |
| HarnessOverPump.BudgetIsReported | src/better_agent/kernel/harness.py:143-157 | a budget error in the pump's group is reported as such even beside failed drains |
| HarnessOverPump.FaultIsReported | src/better_agent/kernel/harness.py:159-181 | otherwise the fault names the command handler phase and a command that failed |
| HarnessOverPump.OutcomeIsScheduleFree | src/better_agent/kernel/harness.py:125-181 | an undisturbed run completes exactly if the root's expansion is finite, unfailing and within the budget, and else fails, under any schedule |
| HarnessOverPump.OverBudgetOutcome | src/better_agent/kernel/harness.py:143-157 | without failing handlers the only failure is the budget's, with the limit and the step after it |
| HarnessOverPump.TraceIsOneRun | src/better_agent/kernel/harness.py:117-188 | over the pump everything an undisturbed run hands out, fault events included, carries the run's correlation id |
| Host.StagingRegistrar.Register | src/better_agent/kernel/extension_host.py:227-251 | a registration made while installing goes to the end of the shared list under its owner's id |
| Host.ExtensionHost.StageAll | src/better_agent/kernel/extension_host.py:292-300 | extensions are installed in resolved order until one raises |
| Host.ExtensionHost.ReplayAll | src/better_agent/kernel/extension_host.py:302-309 | the registrar receives the longest prefix it accepts |
| Host.ExtensionHost.Start | src/better_agent/kernel/extension_host.py:277-321 | `start` composes once, returns the first report again while started, and is an error in other states |
| Host.ExtensionHost.Stop | src/better_agent/kernel/extension_host.py:340-344 | stopping forgets the report and is repeatable |
| HostLaws.DependenciesRegisterFirst | src/better_agent/kernel/extension_host.py:292-309 | all registrations of what an extension requires precede all of its own |
| HostLaws.WholeIsEveryone | src/better_agent/kernel/extension_host.py:292-309 | each loaded extension's registrations are staged once, all, in its own order |
| HostLaws.StagedAsAsked | src/better_agent/kernel/extension_host.py:227-251 | what a loaded extension registers while installing is staged under its id, one by one and in the order asked |
| HostLaws.ComposableExactly | src/better_agent/kernel/extension_host.py:283-300 | the registrar is reached exactly if all sources load, no required load failed, all resolves and every install returns |
| HostLaws.StartsExactly | src/better_agent/kernel/extension_host.py:302-321 | the host starts exactly if it composes and the registrar takes every registration |
| HostLaws.StartedLog | src/better_agent/kernel/extension_host.py:302-321 | after a successful start the registrar holds each extension's registrations in one piece, in the order asked |
| HostLaws.StartedReport | src/better_agent/kernel/extension_host.py:311-321 | the report names the loaded extensions, requirements first, and every load failure, none of them required |
| HostLaws.LoadsConcat | src/better_agent/kernel/extension_host.py:284-290 | extensions and failures are taken source after source |
| HostLaws.FailedStartSays | src/better_agent/kernel/extension_host.py:283-317 | a failed start raises what goes wrong first: a load, a required failure, the resolution, an install, a registration |
| HostLaws.OnlyFirstCallRegisters | src/better_agent/kernel/extension_host.py:277-344 | over any series of calls only the first can register, and the host is started exactly while it was only asked to start and that succeeded |
| HostLaws.LogIsPrefix | src/better_agent/kernel/extension_host.py:277-344 | the registrar gets a prefix of the contributions in resolved order, nothing unless loads, resolution and installs all succeeded, all of it exactly if the host has become started |
| HostLaws.TakenIsLongest | src/better_agent/kernel/extension_host.py:302-309 | replay stops exactly at the first registration refused |
| HostLaws.ReplayIsNotAtomic | src/better_agent/kernel/extension_host.py:262-309 | a composition whose replay fails half way and leaves the first handler registered |
| HostLaws.AtomicExactlyIf | src/better_agent/kernel/extension_host.py:302-309 | composing is all or nothing exactly if there is nothing to register, the first registration is refused, or none is |
| HostLaws.AtomicWithOneHandlerEach | src/better_agent/kernel/extension_host.py:302-309 | over a registrar with one handler to a command, that is exactly if there is nothing to register, the first registration is refused, or no command is handled twice or has a handler already |

## Left out

- The event loop, futures, `TaskGroup`, `Queue` and `asyncio.wait` themselves: their documented behaviour is the step relation. A blocked putter is a program counter, so the order in which blocked putters are served is arbitrary.
- Fairness: a run is any sequence of enabled steps. Termination is proved for every run of a root of finite reach and for every run with a budget, without fairness; other roots may run for ever, and a run that waits for another run's admission ends only if that is given up.
- Handlers whose streams never end: a handler yields finitely many events. A step budget does not stop a handler that streams for ever.
- A consumer that abandons the stream, and the pump's clean-up after the stream has ended (runtime.py:326-329): a run is over when the stream is.
- The moment at which a cancelled drain's generator is finalised: the release of its admission is a separate step that may come at any later time, or never.
- Handlers that catch their own cancellation, or fail while being cancelled: a cancelled drain just ends.
- Handlers and reactions that look at more of an envelope than its payload, or share state: each is a function of the payload. Serializability of what admitted bodies do to shared state is proved on its own, in `Serializability`.
- Changing subscriptions or bindings during a run. Of other runs on the same scheduler only their tickets are modelled; their cancelling and leaving is one step, like the drains'.
- `isinstance` dispatch: a subscription's test is any predicate on events; a command's class is a string.
- Random message ids: ids are counters; nothing depends on their values but that they differ.
- Serializability.AdmissionIsSerializable: which accesses a body makes is fixed by the run; the values it writes may depend on what it has read.
- Scheduler.CapabilityScheduler.Release: tickets are compared by number, as the code compares them by their unshared futures.
- PumpBudget.BudgetVerdict: says nothing of failing handlers; then the group may hold their errors beside or instead of the budget error.
- PumpObject.RuntimePump.RunToEnd: no other run uses the scheduler meanwhile, as its tasks might hold an admission for ever; `PumpTermination.FiniteReachEnds` allows for other runs.
- PumpObject.RuntimePump.RunWithBudget: the same, and handlers' streams end; `PumpBudget.NoEndlessRun` allows for other runs.
- HarnessLaws.TraceGrammar: a consumer that stops listening at one of the harness's own events sees a prefix of the trace; only abandonment among the work events is modelled.
- Harness.Harness.Run: other runs active at the same time are not touched, and are not shown running in between; exceptions raised by closing the work stream are not modelled.
- Host.ExtensionHost.Start: exceptions outside `Exception`, which leave the host as created, and extensions that keep a staging registrar and use it after their install, are not modelled.
- `EntryPointExtensionSource` and its loading of entry points, a source being whatever its `load` gives.
- model.py (language-model request and response records, checked on construction), the message texts of errors.py, cli.py (the command line entry), `InlineExecutionScheduler` (admits everything at once) and the doubles the tests use.

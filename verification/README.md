# Arcana: tasks, joins, rendezvous, routing and their helpers, verified

Arcana is a C++ library of tasks with continuations and the pieces around them.  This
project models its concurrent and re-entrant cores in Dafny and proves what they promise
over every schedule, every nesting of callbacks and every input.

Each core is modelled twice where the source changes state: a class with the source's
fields, whose methods are the lock-protected sections, and a small-step machine in which
every such section is one atomic step and any thread, callback or scheduler may take the
next one.  For payloads, joins, scopes, the state machine, the router, the ticketed listeners
and the queue's data, class contracts and machine steps name the same functions, so the
methods are proved against the steps the machine takes.  Three parts of a machine have no
method of their own: a consumer's waiting and waking; the calls of `signal_cancelled`, which
the class makes in one method and the machine one at a time, by ticket; and a tick, which the
class runs whole on a bounded queue and the machine one callback at a time on the default
bound, which is never reached.  A run is a sequence of steps;
`After` gives the state it leads to, or `None` when one of its steps is not possible, and
the theorems hold for every run.  Machines also record history, such as what was pushed or when
a listener was removed; lemmas named `...BySteps` tie each record to the steps of the run, so
that what is proved of the record is proved of the run itself.

| files | what they model |
|---|---|
| `TaskProgram` | what a program of tasks means: a recursive evaluator, and when it is defined |
| `TaskPayload` | `base_task_payload` as a class, with its solo/vector continuation container |
| `TaskGraph`, `TaskInvariant` | the task graph under an adversarial scheduler, and its invariant |
| `TaskTheorems`, `TaskForest`, `TaskOrder` | schedule independence, progress, exactly-once, redirects, order |
| `TaskWaiting`, `TaskSelfWait`, `TaskTermination` | what waits for what, exactly when everything resolves, and that runs end |
| `WhenAll`, `PendingScope`, `Expected` | the two counting joins |
| `StateMachine` | `state_machine_driver` and `state_machine_observer` |
| `Router`, `RouterInvariant`, `RouterTheorems`, `RouterHistory` | re-entrant dispatch with deferred add and remove, on an explicit call stack |
| `SortedVector`, `TicketedCollection`, `Cancellation` | the containers under cancellation, and its notifications |
| `BlockingQueue`, `Dispatcher` | monitor wakeups, queue order, tick generations |
| `Subsets`, `Intersection` | `compute_subsets` and `set_intersection_count` |
| `Bits`, `HResult` | the category registry and the HRESULT conversions ([MS-ERREF] section 2.1) |
| `Wrappers`, `Sequences` | small shared definitions |

## How the task graph is modelled

A program names every task it will ever create: a completion source, a callable started
by `make_task`, or a continuation attached with `then`.  A task whose callable returns a
task has three payloads: the callable's own, the stand-in source the caller gets, and the
unwrapper that collapses the stand-in into the returned task.  The steps are creating a
task, completing a source, starting a queued callable, entering `do_completion`, one level
of `add_continuations`, and one `continuation.run()`.  Between two steps a batch of
continuations is in flight, so another thread can act between `cannibalize` and
`add_continuations` inside a collapse, and between the write of `Result` and
`do_completion`.

Assumptions, all forced by the code: a source is completed at most once (`Result` is
written before the double-completion check, so a second completion would change it);
there is one error type; cancellation tokens keep their answer throughout a run; a
callable only returns a task that exists.  Callables are pure functions given with the
program.  That no task is returned that resolves to, or waits for, its own stand-in is *not*
assumed.  The first is shown to be exactly when redirects stay a forest, the second exactly
when the waits-for relation of the state stays acyclic, and that exactly when every created
task resolves once the run is at rest.

## Where the code falls short of what one might expect

- A double completion through `task_payload_with_return::complete` throws, but only after
  it has overwritten `Result` (`TaskPayload.BasePayload.Complete`).
- A callable that returns its own task redirects the stand-in to itself, and every later
  `then` on it walks for ever (`TaskForest.SelfCollapseReachable`).  The forest survives
  exactly when no collapse target resolves to its source (`TaskForest.ForestExactly`).
- A callable that returns a continuation of its own task breaks no walk, but the run comes to
  rest with both tasks unresolved for good (`TaskSelfWait.SelfWaitReachable`).  At rest every
  created task has resolved exactly when no collapse of the run was into a task that waited,
  directly or not, for the stand-in collapsed (`TaskWaiting.ProgressExactly`), and one task
  has exactly when it waits on no cycle (`TaskWaiting.ResolvesExactly`).
- `when_all` and `pending_task_scope` take an error that tests false for no error: in
  `WhenAll.FalseErrorIsIgnored` and `PendingScope.FalseErrorIsIgnored` a failed task leaves
  them successful.  They fail exactly when some result holds an error that tests true
  (`WhenAll.JoinFailsExactly`, `PendingScope.ScopeFailsExactly`).  A `when_all` input
  holding a false error contributes the default value.
- Giving up the ticket of a router listener that is still pending asserts and otherwise
  does nothing, so that listener is called by the next fire
  (`RouterTheorems.PendingTicketIsIgnored`).  Later fires call a listener whose ticket was
  given up exactly when it was pending then (`RouterTheorems.GivenUpIsCalledExactly`).
- `blocking_concurrent_queue::cancelled` notifies without the lock; a consumer between its
  test and its wait misses it and stays blocked (`BlockingQueue.CancelWakeupCanBeLost`).  The
  notification gets the consumer out of its call exactly when it is not about to wait
  (`BlockingQueue.CancelWakesExactly`).
- `sorted_vector::find` looks at one element only.  With an equality finer than the order,
  as its default may be, it misses elements that are there (`SortedVector.FindMisses`).
- `compute_subsets` of an empty range returns nothing, not even the empty subset, and a
  size beyond the range is cut to it.
- Registering a category twice uses up a facility: an HRESULT with the second one decodes
  but does not encode back.  Facilities from 2^13 on, values beyond 16 bits and HRESULTs
  whose upper three bits are not 1, 0, 1 do not survive either; the two round trips are
  stated as the exact conditions.  [MS-ERREF] has an 11-bit facility; the header macro
  keeps 13 bits, and facilities from 2^11 on spill into N and X
  (`HResults.EncodedLayout`).

## Model

| member | source | states |
|---|---|---|
| `TaskProgram.EvalMonotone` | Source/Shared/arcana/threading/internal/internal_task.h:329-335 | the value of a task does not depend on how deep the evaluation may go |
| `TaskProgram.MeaningUnique` | Source/Shared/arcana/threading/internal/internal_task.h:362-424 | a task has at most one value |
| `TaskProgram.MeansSource` | Source/Shared/arcana/threading/task.h:174-178 | a completion source has the value it is completed with |
| `TaskProgram.MeansMake` | Source/Shared/arcana/threading/task.h:266-289 | a made task has the value of its wrapped callable on a valid void input |
| `TaskProgram.MeansThen` | Source/Shared/arcana/threading/internal/internal_task.h:501-566 | a continuation has the value of its wrapped callable on its parent's value |
| `TaskProgram.ThenCalled` | Source/Shared/arcana/threading/internal/internal_task.h:501-566 | a value-taking continuation passes its input's error on even when cancelled, then a cancelled one is refused, then the callable's own result counts |
| `TaskProgram.MakeCalled` | Source/Shared/arcana/threading/task.h:266-281 | the same for a made task, on a valid void input |
| `TaskProgram.ThenHolds` | Source/Shared/arcana/threading/task.h:105-119 | the task then returns has that value, and the value of the task the callable returned when it returned one |
| `TaskProgram.MakeHolds` | Source/Shared/arcana/threading/task.h:266-289 | the same for the task make_task returns |
| `TaskProgram.SourceHolds` | Source/Shared/arcana/threading/task.h:191-199 | the task of a completion source has the value it is completed with |
| `TaskProgram.NeverATask` | Source/Shared/arcana/threading/internal/internal_task.h:374-423 | where sources and plain callables deal in values and errors, no task anyone holds has a task for its value |
| `TaskProgram.MeansUnwrapper` | Source/Shared/arcana/threading/internal/internal_task.h:374-421 | the unwrapper always ends with a valid void |
| `TaskProgram.MeansStandInFailed` | Source/Shared/arcana/threading/internal/internal_task.h:375-378 | when the callable fails, the stand-in has its error |
| `TaskProgram.MeansStandInHandle` | Source/Shared/arcana/threading/internal/internal_task.h:381-417 | a returned task is replaced by its own value |
| `TaskProgram.UnwrappingNeverPlain` | Source/Shared/arcana/threading/internal/internal_task.h:362-424 | a task-returning callable leaves an error or a task in its payload, never a plain value |
| `TaskProgram.GroundedDefined` | Source/Shared/arcana/threading/internal/internal_task.h:374-423 | when every payload ranks above what it waits for, every payload has a value, within its rank |
| `TaskProgram.GroundedExactly` | Source/Shared/arcana/threading/internal/internal_task.h:374-423 | such a ranking exists exactly when every payload has a value |
| `TaskPayload.BasePayload.constructor` | Source/Shared/arcana/threading/internal/internal_task.h:88-90 | a new payload is incomplete, empty and without a redirect |
| `TaskPayload.BasePayload.Cannibalize` | Source/Shared/arcana/threading/internal/internal_task.h:132-148 | hands over exactly the pending continuations once, sets the redirect, and refuses a completed payload unchanged |
| `TaskPayload.BasePayload.InternalAddContinuations` | Source/Shared/arcana/threading/internal/internal_task.h:231-265 | in all container cases the held sequence becomes the old one followed by the batch |
| `TaskPayload.BasePayload.AddContinuations` | Source/Shared/arcana/threading/internal/internal_task.h:171-216 | the batch reaches the end of the redirect chain, reparented to it, and is kept there or scheduled in order |
| `TaskPayload.BasePayload.DoCompletion` | Source/Shared/arcana/threading/internal/internal_task.h:218-224 | schedules what was pending in registration order, once |
| `TaskPayload.BasePayload.Complete` | Source/Shared/arcana/threading/internal/internal_task.h:303-316 | the result is written even when the completion is refused |
| `TaskPayload.BasePayload.CollapseLeftIntoRight` | Source/Shared/arcana/threading/internal/internal_task.h:120-124 | left is completed and redirected to right, and its continuations follow those of the payload right resolves to, or are scheduled if that is complete |
| `TaskInvariant.MeansAlong` | Source/Shared/arcana/threading/internal/internal_task.h:276-287 | a redirected payload has the value of whatever its redirects lead to |
| `TaskInvariant.QueuedNotRun` | Source/Shared/arcana/threading/internal/internal_task.h:69-79 | a queued callable has not run and its payload is untouched |
| `TaskInvariant.UnwrapperInput` | Source/Shared/arcana/threading/internal/internal_task.h:374-379 | an unwrapper reads the settled payload of its own callable, and finds the stand-in untouched |
| `TaskInvariant.InputMeans` | Source/Shared/arcana/threading/task.h:105-117 | what a callable is given is the value of the task it was attached to |
| `TaskInvariant.CannibalizeKeepsConts` | Source/Shared/arcana/threading/internal/internal_task.h:120-148 | a collapse or completion reparents every continuation it takes to a payload its task resolves to |
| `TaskInvariant.CannibalizeKeepsPlaces` | Source/Shared/arcana/threading/internal/internal_task.h:132-148 | what a payload had pending is in flight afterwards, and nothing else moved |
| `TaskInvariant.AdvanceKeepsPlaces` | Source/Shared/arcana/threading/internal/internal_task.h:184-216 | a level of the walk leaves a batch in flight or parks all of it behind what was pending |
| `TaskInvariant.ReleaseKeepsPlaces` | Source/Shared/arcana/threading/internal/internal_task.h:222-223 | each turn of the loop moves one continuation to its scheduler's queue |
| `TaskInvariant.StepKeeps` | Source/Shared/arcana/threading/internal/internal_task.h:102-216 | every step of every thread keeps the invariant of payloads, values, continuations and places |
| `TaskInvariant.ReachableInv` | Source/Shared/arcana/threading/internal/internal_task.h:102-216 | the invariant holds in every state any schedule of any program reaches |
| `TaskTheorems.ExactlyOnce` | Source/Shared/arcana/threading/internal/internal_task.h:120-148 | every created callable is in exactly one place: pending, in flight, queued or run |
| `TaskTheorems.CompletedOnce` | Source/Shared/arcana/threading/internal/internal_task.h:132-139 | no result is written twice and no payload completed twice, so the exception is never thrown |
| `TaskTheorems.RootUnique` | Source/Shared/arcana/threading/internal/internal_task.h:194-197 | a redirect chain has one end, at one distance |
| `TaskTheorems.RightParent` | Source/Shared/arcana/threading/internal/internal_task.h:63-79 | a queued callable will read the one root of the task it was attached to, complete and with its result set |
| `TaskTheorems.PendingParent` | Source/Shared/arcana/threading/internal/internal_task.h:171-182 | a pending continuation names the payload it waits on, which is a root its task resolves to |
| `TaskTheorems.ResolvedMeans` | Source/Shared/arcana/threading/internal/internal_task.h:329-335 | in every reachable state, what a task has resolved to is the evaluator's value |
| `TaskTheorems.ScheduleIndependence` | Source/Shared/arcana/threading/internal/internal_task.h:362-424 | two runs of a program, however scheduled, never disagree about a task |
| `TaskTheorems.NeverGivenATask` | Source/Shared/arcana/threading/internal/internal_task.h:374-423 | then no held task resolves to a task in any run, and no callable but an unwrapper is given one |
| `TaskTheorems.CreatedBySteps` | Source/Shared/arcana/threading/task.h:94-120 | the tasks that exist are those the run's steps created |
| `TaskTheorems.CompletedBySteps` | Source/Shared/arcana/threading/task.h:174-178 | a source has a result exactly when a step completed it, and it is the value given |
| `TaskTheorems.UserCan` | Source/Shared/arcana/threading/task.h:174-178 | a task can be created once, when its parent exists, and a created source completed once |
| `TaskTheorems.QuietHasRun` | Source/Shared/arcana/threading/internal/internal_task.h:184-224 | with nothing in flight or queued, every continuation of a resolved task has run |
| `TaskTheorems.QuietResolves` | Source/Shared/arcana/threading/internal/internal_task.h:102-124 | at rest with the sources done, a task with a value has resolved to it |
| `TaskTheorems.Progress` | Source/Shared/arcana/threading/internal/internal_task.h:102-124 | at rest, a created task has resolved to v if and only if the evaluator gives it v |
| `TaskTheorems.NeverStuck` | Source/Shared/arcana/threading/internal/internal_task.h:184-224 | while anything is in flight, queued or completing, some thread can take a step |
| `TaskForest.RedirectedIsDone` | Source/Shared/arcana/threading/internal/internal_task.h:276-287 | a payload with a redirect is a completed stand-in without result or continuations, pointing at the task its callable returned |
| `TaskForest.StepRedirects` | Source/Shared/arcana/threading/internal/internal_task.h:132-148 | a step sets at most one redirect, that of a collapse, on a payload that had none |
| `TaskForest.RedirectsAreFinal` | Source/Shared/arcana/threading/internal/internal_task.h:141 | redirects are never rewritten, whatever happens later |
| `TaskForest.CollapseKeepsForest` | Source/Shared/arcana/threading/internal/internal_task.h:120-124 | a collapse keeps the forest if and only if its target does not resolve to its source |
| `TaskForest.ForestExactly` | Source/Shared/arcana/threading/internal/internal_task.h:194-197 | redirects form a forest if and only if no collapse of the run was into its own source |
| `TaskForest.LostForest` | Source/Shared/arcana/threading/internal/internal_task.h:194-197 | a cycle of redirects never opens again |
| `TaskForest.DefinedWalkEnds` | Source/Shared/arcana/threading/internal/internal_task.h:184-209 | from a task with a value the walk ends, within the depth of its evaluation |
| `TaskForest.SelfCollapseReachable` | Source/Shared/arcana/threading/internal/internal_task.h:417 | a callable returning its own task leads, in six steps, to a stand-in redirected to itself |
| `TaskWaiting.WaitsForExisting` | Source/Shared/arcana/threading/internal/internal_task.h:374-423 | what a payload waits for has been created too |
| `TaskWaiting.WaitsForShallower` | Source/Shared/arcana/threading/internal/internal_task.h:374-423 | a payload with a value waits only for payloads whose values need fewer steps |
| `TaskWaiting.DefinedWaitsOnNoCycle` | Source/Shared/arcana/threading/internal/internal_task.h:374-423 | in no reachable state does a task with a value wait on a cycle |
| `TaskWaiting.ResolvesNext` | Source/Shared/arcana/threading/internal/internal_task.h:184-224 | at rest a payload has resolved once everything it waits for has |
| `TaskWaiting.ResolvesBelow` | Source/Shared/arcana/threading/internal/internal_task.h:184-224 | at rest a payload from which no cycle is reached has resolved |
| `TaskWaiting.ResolvesExactly` | Source/Shared/arcana/threading/internal/internal_task.h:102-124 | at rest a created task has resolved if and only if it waits on no cycle |
| `TaskWaiting.AllResolveExactly` | Source/Shared/arcana/threading/internal/internal_task.h:102-124 | at rest all created tasks have resolved if and only if the state's waits-for relation is acyclic |
| `TaskWaiting.GroundedProgress` | Source/Shared/arcana/threading/internal/internal_task.h:374-423 | when what has been created can be ranked above what it waits for, every created task resolves |
| `TaskWaiting.CreateKeepsAcyclic` | Source/Shared/arcana/threading/task.h:94-120 | a new task waits only for older ones and closes no cycle |
| `TaskWaiting.WaitKeepsAcyclic` | Source/Shared/arcana/threading/internal/internal_task.h:120-124 | making one payload wait for another keeps the relation acyclic if and only if the other does not wait for it |
| `TaskWaiting.StepKeepsAcyclic` | Source/Shared/arcana/threading/internal/internal_task.h:102-216 | every step keeps the relation acyclic if and only if it is not a collapse whose target waits for its source |
| `TaskWaiting.AcyclicExactly` | Source/Shared/arcana/threading/internal/internal_task.h:120-124 | waiting is acyclic after a run if and only if no collapse of it was into a task that waited for the stand-in |
| `TaskWaiting.ProgressExactly` | Source/Shared/arcana/threading/internal/internal_task.h:102-124 | a run at rest has resolved every created task if and only if no collapse of it was into a task that waited for the stand-in |
| `TaskWaiting.NoSelfWaitNoSelfCollapse` | Source/Shared/arcana/threading/internal/internal_task.h:194-197 | a run without such a collapse keeps the redirect forest |
| `TaskSelfWait.SelfWaitReachable` | Source/Shared/arcana/threading/internal/internal_task.h:417 | a task returning its own continuation leads in ten steps to a state at rest, with the redirect forest whole and two tasks that never get a value |
| `TaskTermination.StepDescends` | Source/Shared/arcana/threading/internal/internal_task.h:102-216 | every step but a creation lowers the results to come, or else the completions under way, or else what the flights have left |
| `TaskTermination.RunEnds` | Source/Shared/arcana/threading/internal/internal_task.h:102-216 | a run whose created tasks all have values, and which creates no more, cannot go on for ever |
| `TaskTermination.Finishes` | Source/Shared/arcana/threading/internal/internal_task.h:184-224 | from any of its states the library's own steps lead to where nothing is left to do |
| `TaskOrder.WalkArrives` | Source/Shared/arcana/threading/internal/internal_task.h:171-209 | taken one lock at a time, the walk delivers the batch to the root, reparented to it, and changes nothing else |
| `TaskOrder.CollapseAppends` | Source/Shared/arcana/threading/internal/internal_task.h:120-124 | a collapse appends left's continuations to right's and leaves other payloads alone |
| `TaskOrder.CollapseOrder` | Source/Shared/arcana/threading/internal/internal_task.h:381-417 | after a chain of collapses the final payload has its own continuations first, then the absorbed ones, nearest payload first |
| `Expecteds.FirstErrorGrows` | Source/Shared/arcana/threading/task.h:419-423 | keeping the recorded error, or else taking the new one, records the first error by arrival |
| `Expecteds.FirstOfGrows` | Source/Shared/arcana/threading/pending_task_scope.h:39-44 | the same for results that arrive in sequence |
| `Expecteds.FirstOfIsFirst` | Source/Shared/arcana/threading/pending_task_scope.h:39-44 | the recorded error is the first that tests true, and there is none exactly when no arrival holds one |
| `WhenAll.WhenAllData.constructor` | Source/Shared/arcana/threading/task.h:403-406 | the join starts with one pending callback per input, no error and blank results |
| `WhenAll.WhenAllData.Arrive` | Source/Shared/arcana/threading/task.h:411-428 | the callback counts down, keeps the first error, files the value under its index, and knows whether it is the last |
| `WhenAll.Pigeonhole` | Source/Shared/arcana/threading/task.h:416-417 | as many distinct arrivals as inputs are all of them |
| `WhenAll.AfterInv` | Source/Shared/arcana/threading/task.h:403-445 | the join's invariant in every interleaving of callbacks |
| `WhenAll.JoinTheorem` | Source/Shared/arcana/threading/task.h:387-445 | for every completion order: the count is the callbacks outstanding and never negative, the result is completed at most once and only after all inputs, with the first error or else every value in its place, and exactly once when all callbacks have returned |
| `WhenAll.JoinFailsExactly` | Source/Shared/arcana/threading/task.h:419-439 | the joined task fails if and only if some input holds an error that tests true |
| `WhenAll.OrderBySteps` | Source/Shared/arcana/threading/task.h:411-428 | the order of arrival is the order in which the run's callbacks took the lock |
| `WhenAll.PhaseBySteps` | Source/Shared/arcana/threading/task.h:411-441 | a callback has been called, and has returned, exactly when the run says so |
| `WhenAll.FalseErrorIsIgnored` | Source/Shared/arcana/threading/task.h:419-439 | an input failing with an error that tests false leaves a join that succeeds with the default value |
| `WhenAll.WhenAllCompleted` | Source/Shared/arcana/threading/task.h:387-445 | over inputs complete at registration, the loop itself completes the result as promised; no inputs give an empty vector |
| `PendingScope.PendingTaskScope.Add` | Source/Shared/arcana/threading/pending_task_scope.h:20-28 | counts a task, or refuses it once disposing and changes nothing |
| `PendingScope.PendingTaskScope.TaskDone` | Source/Shared/arcana/threading/pending_task_scope.h:30-50 | counts down, keeps the first error, and claims the completion when it is the last while disposing |
| `PendingScope.PendingTaskScope.CompleteInternal` | Source/Shared/arcana/threading/pending_task_scope.h:100-110 | completes with the recorded error, if any |
| `PendingScope.PendingTaskScope.WhenAll` | Source/Shared/arcana/threading/pending_task_scope.h:78-91 | begins disposing, and completes at once when nothing is pending and nobody has claimed it |
| `PendingScope.CountNone` | Source/Shared/arcana/threading/pending_task_scope.h:37 | the count is zero exactly when no callback is outstanding |
| `PendingScope.AfterInv` | Source/Shared/arcana/threading/pending_task_scope.h:20-110 | the scope's invariant in every interleaving of adds, callbacks and when_all calls |
| `PendingScope.ScopeTheorem` | Source/Shared/arcana/threading/pending_task_scope.h:20-110 | the source is completed at most once, only when disposing with nothing outstanding, with the first error; and it has been completed once disposing has begun and all callbacks have returned |
| `PendingScope.CompletionIsFinal` | Source/Shared/arcana/threading/pending_task_scope.h:24-27 | once decided the count stays zero and the outcome never changes |
| `PendingScope.ScopeFailsExactly` | Source/Shared/arcana/threading/pending_task_scope.h:39-44 | the scope fails if and only if some result holds an error that tests true, and then with the first |
| `PendingScope.FalseErrorIsIgnored` | Source/Shared/arcana/threading/pending_task_scope.h:39-44 | a task failing with an error that tests false leaves a scope that succeeds |
| `PendingScope.ScopeBySteps` | Source/Shared/arcana/threading/pending_task_scope.h:20-50 | arrivals are the results the run gave, tasks the adds before the first when_all, and disposing is a when_all in the run |
| `PendingScope.AddRefusedExactly` | Source/Shared/arcana/threading/pending_task_scope.h:22-28 | an add is refused, changing nothing, if and only if a when_all came before, however many tasks are outstanding |
| `PendingScope.FailsByResults` | Source/Shared/arcana/threading/pending_task_scope.h:39-61 | the completion is the first error that tests true among the results given, or success when there is none |
| `StateMachine.StateMachineDriver.FetchState` | Source/Shared/arcana/scheduling/state_machine.h:196-216 | finds the entry of a state or inserts a fresh, unclaimed one |
| `StateMachine.StateMachineDriver.MoveTo` | Source/Shared/arcana/scheduling/state_machine.h:26-35 | takes the pair of sources of the state's entry |
| `StateMachine.StateMachineDriver.Enter` | Source/Shared/arcana/scheduling/state_machine.h:61-75 | claims the entry, and tells whether it was free |
| `StateMachine.StateMachineDriver.Exit` | Source/Shared/arcana/scheduling/state_machine.h:140-163 | erases the entry and yields its source, or finds none |
| `StateMachine.AfterInv` | Source/Shared/arcana/scheduling/state_machine.h:26-187 | the invariant of the rendezvous in every interleaving of driver and observers |
| `StateMachine.MutualExclusion` | Source/Shared/arcana/scheduling/state_machine.h:61-89 | an active work body is that of the driver's current state and round, and there is no other |
| `StateMachine.Rendezvous` | Source/Shared/arcana/scheduling/state_machine.h:61-89 | whichever side comes first, no source is completed twice, no claimed entry is entered, work runs only after StateEntered, exit finds its own round's entry, and the entry is gone before the completion |
| `StateMachine.ExitsOnceWithData` | Source/Shared/arcana/scheduling/state_machine.h:278-291 | no round is completed twice, and each completion carries the recorded data of its round |
| `StateMachine.ExitsWithWhatWorkLeft` | Source/Shared/arcana/scheduling/state_machine.h:278-291 | each completion carries exactly the data with which the work of that round ended, or the initial data when the work was skipped |
| `StateMachine.DriverFollows` | Source/Shared/arcana/scheduling/state_machine.h:26-35 | a busy driver is busy with the state it was last moved to, and active work is that state's |
| `StateMachine.RoundAdvances` | Source/Shared/arcana/scheduling/state_machine.h:278-291 | the observer of the awaited state can always take a step, each one closer to completing the round |
| `Router.Sentry.Take` | Source/Shared/arcana/sentry.h:31-44 | activates the sentry and remembers what it was |
| `Router.Sentry.Release` | Source/Shared/arcana/sentry.h:12-18 | restores what the guard remembered |
| `Router.IndexOf` | Source/Shared/arcana/messaging/router.h:131-133 | the position found is the first with the id, or the end when there is none |
| `Router.Router.AddListener` | Source/Shared/arcana/messaging/router.h:103-118 | gives out the next id and appends to the vector, or to the pending listeners while firing |
| `Router.Router.RemoveListener` | Source/Shared/arcana/messaging/router.h:124-150 | erases the listener, or only disables it while firing; leaves everything alone when it is not in the vector |
| `Router.Router.BeginFire` | Source/Shared/arcana/messaging/router.h:49-50 | takes the event's sentry |
| `Router.Router.EndFire` | Source/Shared/arcana/messaging/router.h:59-75 | restores the sentry, and compacts and merges only at the outermost end |
| `RouterInvariant.ValidsKeep` | Source/Shared/arcana/messaging/router.h:65-68 | the compaction keeps exactly the valid listeners, in order |
| `RouterInvariant.AfterInv` | Source/Shared/arcana/messaging/router.h:41-150 | the router's invariant under every nesting of fire, add and remove |
| `RouterTheorems.SentryMatchesStack` | Source/Shared/arcana/sentry.h:12-44 | a sentry is active if and only if a fire of its event is on the call stack |
| `RouterTheorems.VectorStable` | Source/Shared/arcana/messaging/router.h:52-58 | every suspended fire still iterates the vector it began with, at a valid index |
| `RouterTheorems.AlwaysOrdered` | Source/Shared/arcana/messaging/router.h:109-117 | listeners followed by pending ones are always in registration order |
| `RouterTheorems.DeliveredMembers` | Source/Shared/arcana/messaging/router.h:52-58 | the delivered ids are, in order, those not removed before their turn |
| `RouterTheorems.FireDelivers` | Source/Shared/arcana/messaging/router.h:50-58 | a fire has called, once each and in registration order, exactly the listeners registered before the event's outermost active fire and not removed before it or before their turn |
| `RouterTheorems.OutermostEnds` | Source/Shared/arcana/messaging/router.h:61-75 | the outermost end leaves the valid listeners then the pending ones: exactly the registered listeners not removed |
| `RouterTheorems.RemoveTakesEffect` | Source/Shared/arcana/messaging/router.h:131-139 | a removal is recorded if and only if the listener is not pending |
| `RouterTheorems.GivenUpIsCalledExactly` | Source/Shared/arcana/messaging/router.h:123-150 | a fire outside those in progress when a ticket was given up calls its listener if and only if it was pending then |
| `RouterTheorems.PendingTicketIsIgnored` | Source/Shared/arcana/messaging/router.h:135-139 | a concrete run in which a listener whose ticket was given up is called |
| `RouterHistory.HistoryBySteps` | Source/Shared/arcana/messaging/router.h:103-150 | ids count the adds of the run from the first id on, removal times are those of its removals, and the stack holds its fires in progress |
| `RouterHistory.SentryBySteps` | Source/Shared/arcana/sentry.h:12-44 | a sentry is active if and only if the run has a fire of its event that has not returned |
| `RouterHistory.OuterIsOutermost` | Source/Shared/arcana/messaging/router.h:49-63 | the fire listeners are counted from is the event's outermost: none was in progress before it and one has been ever since |
| `RouterHistory.TurnsBySteps` | Source/Shared/arcana/messaging/router.h:52-58 | the turns of a fire are steps of the run at which it was the innermost |
| `SortedVector.PartitionPoint` | Source/Shared/arcana/containers/sorted_vector.h:235-241 | everything in front of the point comes before the key, and the element at it does not |
| `SortedVector.PartitionPointSplits` | Source/Shared/arcana/containers/sorted_vector.h:235-241 | in a sorted vector nothing behind the point comes before the key either |
| `SortedVector.InsertedIsSorted` | Source/Shared/arcana/containers/sorted_vector.h:190-193 | inserting at the partition point keeps the order and adds one element |
| `SortedVector.MergedIsSorted` | Source/Shared/arcana/containers/sorted_vector.h:227-232 | the merge of two sorted vectors is sorted and has exactly the elements of both |
| `SortedVector.MergedIsStable` | Source/Shared/arcana/containers/sorted_vector.h:227-232 | of elements the order does not tell apart the first vector's come first, each side in its order |
| `SortedVector.InsertedInFront` | Source/Shared/arcana/containers/sorted_vector.h:190-193 | the value stands in front of the first element that is not less, and the rest as before |
| `SortedVector.SortedVector.Insert` | Source/Shared/arcana/containers/sorted_vector.h:190-193 | the vector stays sorted and gains the value, in front of its equals |
| `SortedVector.SortedVector.InsertAll` | Source/Shared/arcana/containers/sorted_vector.h:196-202 | the vector stays sorted and gains all values |
| `SortedVector.SortedVector.Erase` | Source/Shared/arcana/containers/sorted_vector.h:184-187 | removes that element and keeps the order |
| `SortedVector.SortedVector.Find` | Source/Shared/arcana/containers/sorted_vector.h:72-80 | finds an element if and only if the first that does not come before the key equals it; where equality is what the order cannot tell apart, if and only if some element equals the key, and then the first |
| `SortedVector.FindMisses` | Source/Shared/arcana/containers/sorted_vector.h:65-69 | a concrete vector in which an element is not found, by the default equality of whole elements |
| `SortedVector.NoneBehind` | Source/Shared/arcana/containers/sorted_vector.h:72-80 | where equality is what the order cannot tell apart, one look is enough |
| `SortedVector.SortedVector.Merge` | Source/Shared/arcana/containers/sorted_vector.h:227-232 | holds the stable merge of both, and leaves the other alone |
| `TicketedCollection.WithoutFound` | Source/Shared/arcana/containers/ticketed_collection.h:47-57 | erasing at the position found removes exactly the item with the id |
| `TicketedCollection.WithoutIds` | Source/Shared/arcana/containers/ticketed_collection.h:47-57 | giving up a ticket takes out its id and no other, and keeps the order |
| `TicketedCollection.InsertsLast` | Source/Shared/arcana/containers/ticketed_collection.h:152-158 | an id above all others is inserted at the end |
| `TicketedCollection.TicketedCollection.Insert` | Source/Shared/arcana/containers/ticketed_collection.h:152-158 | gives out the next id; the sorted insert appends |
| `TicketedCollection.TicketedCollection.Release` | Source/Shared/arcana/containers/ticketed_collection.h:47-57 | removes the ticket's item and no other, and finds it exactly when it is there |
| `Cancellation.CancellationSource.InternalAddListener` | Source/Shared/arcana/threading/cancellation.h:66-84 | registers the listener, and asks the adder to call it exactly when cancellation was signalled |
| `Cancellation.CancellationSource.Release` | Source/Shared/arcana/containers/ticketed_collection.h:47-57 | the listener of the ticket is gone |
| `Cancellation.CancellationSource.SignalCancelled` | Source/Shared/arcana/threading/cancellation.h:86-111 | the i-th call is of the callback of the i-th listener from the end, and there are as many as listeners |
| `Cancellation.CancellationSource.Cancel` | Source/Shared/arcana/threading/cancellation.h:133-139 | only the first cancel calls anyone, and then as signal_cancelled does |
| `Cancellation.AfterInv` | Source/Shared/arcana/threading/cancellation.h:40-139 | the invariant in every interleaving of add, release, cancel and the calls |
| `Cancellation.LiveAreTickets` | Source/Shared/arcana/containers/ticketed_collection.h:47-57 | live items are exactly the held tickets, in id order |
| `Cancellation.NotifiedOnce` | Source/Shared/arcana/threading/cancellation.h:40-111 | no listener is called twice; one held at the snapshot or added later is called exactly once, and one given up before it never |
| `Cancellation.MostRecentFirst` | Source/Shared/arcana/threading/cancellation.h:102-110 | snapshot calls go in strictly decreasing registration order |
| `Cancellation.CallsItsOwn` | Source/Shared/arcana/threading/cancellation.h:40-111 | every call, from the snapshot or by an adder, calls the callback its ticket was registered with |
| `Cancellation.ReleasedBySteps` | Source/Shared/arcana/threading/cancellation.h:133-139 | tickets are given up, and cancellation requested, by exactly the steps that say so |
| `BlockingQueue.BlockingConcurrentQueue.Push` | Source/Shared/arcana/threading/blocking_concurrent_queue.h:59-72 | keeps the newest elements up to the bound, and asks to notify exactly when it was empty |
| `BlockingQueue.BlockingConcurrentQueue.TakeFront` | Source/Shared/arcana/threading/blocking_concurrent_queue.h:144-150 | takes the oldest element, or nothing when empty or cancelled |
| `BlockingQueue.BlockingConcurrentQueue.TakeAll` | Source/Shared/arcana/threading/blocking_concurrent_queue.h:168-177 | moves the whole queue behind what the destination held, in order |
| `BlockingQueue.BlockingConcurrentQueue.Clear` | Source/Shared/arcana/threading/blocking_concurrent_queue.h:107-116 | empties the queue |
| `BlockingQueue.StepKeepsWakeups` | Source/Shared/arcana/threading/blocking_concurrent_queue.h:59-78 | each step keeps that a consumer blocked on a non-empty queue is owed a notification |
| `BlockingQueue.AfterInv` | Source/Shared/arcana/threading/blocking_concurrent_queue.h:59-178 | wakeup and order invariants in every run of one consumer and any producers |
| `BlockingQueue.NoPushWakeupLost` | Source/Shared/arcana/threading/blocking_concurrent_queue.h:59-78 | when the consumer is blocked and the queue is not empty, a producer is about to wake it |
| `BlockingQueue.Fifo` | Source/Shared/arcana/threading/blocking_concurrent_queue.h:128-178 | what the consumer was handed is what was pushed at increasing positions, and what is queued is the newest of what is left, in order |
| `BlockingQueue.NothingDropped` | Source/Shared/arcana/threading/blocking_concurrent_queue.h:59-72 | with room and no clear, handed followed by queued is what was pushed |
| `BlockingQueue.CancelWakeupLostOnlyInWindow` | Source/Shared/arcana/threading/blocking_concurrent_queue.h:122-126 | a blocked consumer with no notification of cancellation under way is cancelled if and only if one came between its test and its wait |
| `BlockingQueue.CancelWakesExactly` | Source/Shared/arcana/threading/blocking_concurrent_queue.h:122-142 | the notification gets the consumer out of its call, by its own steps, if and only if it is not about to wait |
| `BlockingQueue.CancelWakeupCanBeLost` | Source/Shared/arcana/threading/blocking_concurrent_queue.h:122-126 | a concrete run in which that happens |
| `BlockingQueue.QueueBySteps` | Source/Shared/arcana/threading/blocking_concurrent_queue.h:59-78 | what counts as pushed is what the run pushed, in order |
| `BlockingQueue.CallBySteps` | Source/Shared/arcana/threading/blocking_concurrent_queue.h:87-105 | a call goes on as the pop or drain it began as |
| `BlockingQueue.TestHands` | Source/Shared/arcana/threading/blocking_concurrent_queue.h:144-177 | a call comes back with nothing when cancelled, else with the oldest element for a pop and everything for a drain, and waits while there is nothing |
| `BlockingQueue.ClearDrops` | Source/Shared/arcana/threading/blocking_concurrent_queue.h:107-116 | nothing pushed before a clear is queued after it |
| `BlockingQueue.WakeupRetests` | Source/Shared/arcana/threading/blocking_concurrent_queue.h:133-142 | a wakeup of any kind lets a blocked consumer go if and only if it is cancelled or something is queued |
| `BlockingQueue.ChangesNotify` | Source/Shared/arcana/threading/blocking_concurrent_queue.h:65-77 | a clear, and a push to an empty queue, is followed by a notification |
| `Dispatcher.Dispatcher.Queue` | Source/Shared/arcana/threading/dispatcher.h:21-25 | the work goes to the end of the queue |
| `Dispatcher.Dispatcher.Run` | Source/Shared/arcana/threading/dispatcher.h:93-96 | running a piece of work queues what it queues, in order |
| `Dispatcher.Dispatcher.Tick` | Source/Shared/arcana/threading/dispatcher.h:78-101 | runs exactly what was queued when it drained, in order, and leaves what that queued for the next tick |
| `Dispatcher.TickGenerations` | Source/Shared/arcana/threading/dispatcher.h:78-101 | over any run, work is run in order, none lost or repeated, and each tick runs what was queued between the previous drain and its own |
| `Dispatcher.SpawnedParts` | Source/Shared/arcana/threading/dispatcher.h:93-96 | what pieces of work queue is what each queues, in their order |
| `Dispatcher.DispatchBySteps` | Source/Shared/arcana/threading/dispatcher.h:78-101 | what was queued, how much before each tick began, and the tick of each piece run are those of the run |
| `Dispatcher.RunsInOrder` | Source/Shared/arcana/threading/dispatcher.h:78-101 | the i-th piece run is the i-th queued |
| `Subsets.LargestIsLast` | Source/Shared/arcana/algorithm.h:183-184 | no mask with as many ones comes after the initial one |
| `Subsets.FirstHasNoPrev` | Source/Shared/arcana/algorithm.h:206 | where the loop stops, no mask with as many ones comes before |
| `Subsets.PrevIsImmediate` | Source/Shared/arcana/algorithm.h:206 | the next mask is smaller, has as many ones, and none with as many ones lies between |
| `Subsets.LessIsNumeric` | Source/Shared/arcana/algorithm.h:206 | the order is that of binary numbers, so the loop ends |
| `Subsets.StepsDown` | Source/Shared/arcana/algorithm.h:188-206 | each round meets the next mask and has missed none |
| `Subsets.EndsAtFirst` | Source/Shared/arcana/algorithm.h:188-208 | when the loop ends every mask was met once |
| `Subsets.MasksCounted` | Source/Shared/arcana/algorithm.h:183-184 | there are as many masks as the binomial coefficient says |
| `Subsets.ChosenCount` | Source/Shared/arcana/algorithm.h:197-203 | a mask with k ones chooses k elements |
| `Subsets.MaskOfChosen` | Source/Shared/arcana/algorithm.h:197-203 | a subset determines the mask it was chosen by |
| `Subsets.ChosenOfMask` | Source/Shared/arcana/algorithm.h:197-203 | every subset is chosen by its mask |
| `Subsets.EnumerationCount` | Source/Shared/arcana/algorithm.h:188-208 | the loop makes as many subsets as the binomial coefficient says |
| `Subsets.MasksGiveSubsets` | Source/Shared/arcana/algorithm.h:188-208 | meeting every mask once gives every subset of that size once |
| `Subsets.ComputeSubsets` | Source/Shared/arcana/algorithm.h:171-209 | for distinct elements every subset of the requested size exactly once; for any elements one subset per choice of positions, as many as the binomial coefficient; nothing for an empty range |
| `Intersection.SetIntersectionCount` | Source/Shared/arcana/algorithm.h:45-67 | for any comparator, how many elements two sorted ranges have in common up to what it cannot tell apart, repetitions included |
| `Intersection.KeyExists` | Source/Shared/arcana/algorithm.h:45-67 | every comparator has keys for what it cannot tell apart |
| `Intersection.SetIntersectionCountByLess` | Source/Shared/arcana/algorithm.h:22-43 | on numbers, how many elements two sorted ranges have in common, repetitions included |
| `Bits.DivMod` | Source/Windows/arcana/hresult.cpp:25-28 | shifting and masking are division and remainder by powers of two |
| `HResults.RegisteredInOrder` | Source/Windows/arcana/hresult.cpp:41-45 | after any registrations facility f belongs to the f-th, and a category keeps the first one it was given |
| `HResults.MadeFacility` | Source/Windows/arcana/hresult.cpp:25-28 | the facility read back is the low 13 bits of the one written |
| `HResults.MadeCode` | Source/Windows/arcana/hresult.cpp:25-28 | the code read back is the low 16 bits of the value written |
| `HResults.MadeTop` | Source/Windows/arcana/hresult.cpp:23-28 | the customer bit is always set, and a facility and code that fit leave severity 1, reserved 0 |
| `HResults.EncodeThenDecode` | Source/Windows/arcana/hresult.cpp:144-179 | an error code survives encode then decode if and only if its category is registered, its facility fits 13 bits and its value 16, or it is an HRESULT that does not look like a carried code |
| `HResults.DecodeThenEncode` | Source/Windows/arcana/hresult.cpp:96-106 | an HRESULT survives decode then encode if and only if it carries nothing, or has its category's own facility and upper bits 1, 0, 1 |
| `HResults.EncodeInjective` | Source/Windows/arcana/hresult.cpp:156-179 | two error codes that fit never share an HRESULT |
| `HResults.EncodedLayout` | Source/Windows/arcana/hresult.cpp:23-28 | severity and customer bits set, reserved clear, N and X clear exactly for facilities below 2^11 |
| `HResults.EncodedValue` | Source/Windows/arcana/hresult.cpp:25-28 | an encoded code is 0xA0000000, plus the facility times 2^16, plus the value |
| `HResults.StandardFacilities` | Source/Windows/arcana/hresult.cpp:33-39 | generic, iostream, future and system have the facilities 0 to 3, whatever is registered besides |
| `HResults.StandardCodes` | Source/Windows/arcana/hresult.cpp:33-39 | so a standard category's code v and 0xA0000000, 0xA0010000, 0xA0020000 or 0xA0030000 plus v stand for each other |
| `HResults.UnknownFails` | Source/Windows/arcana/hresult.cpp:174-178 | a code of an unregistered category becomes E_FAIL, with its severity bit and no customer bit |
| `HResults.RegistrationsKeepCodes` | Source/Windows/arcana/hresult.cpp:41-45 | later registrations change no encoding, and change a decoding exactly for a customer HRESULT whose facility was handed out since |
| `HResults.UnorderedBimap.Emplace` | Source/Shared/arcana/containers/unordered_bimap.h:26-30 | extends each map on its own and overwrites neither |
| `HResults.CategoryStorage.constructor` | Source/Windows/arcana/hresult.cpp:33-39 | the four standard categories are registered first |
| `HResults.StandardHresults` | Source/Windows/arcana/hresult.cpp:156-179 | the same numbers from hr_from_error_code of a new storage |
| `HResults.CategoryStorage.AddCategory` | Source/Windows/arcana/hresult.cpp:41-45 | registers under the next facility and moves the counter even for a duplicate |
| `HResults.CategoryStorage.GetFacility` | Source/Windows/arcana/hresult.cpp:47-60 | a facility exactly for a registered category |
| `HResults.CategoryStorage.GetCategory` | Source/Windows/arcana/hresult.cpp:62-75 | a category exactly for a facility handed out |
| `HResults.CategoryStorage.GetCategoryFromHresult` | Source/Windows/arcana/hresult.cpp:96-106 | a category exactly for an HRESULT with the customer bit and a known facility |
| `HResults.CategoryStorage.ErrorCodeFromHr` | Source/Windows/arcana/hresult.cpp:144-154 | decodes by the registry as it stands |
| `HResults.CategoryStorage.HrFromErrorCode` | Source/Windows/arcana/hresult.cpp:156-179 | encodes by the registry as it stands, with E_FAIL for an unknown category |

## Left out

- TaskPayload.BasePayload.CollapseLeftIntoRight: does not cover a left payload with continuations that lies on right's own chain; the walk then has no end, so no result could be stated (`TaskForest.SelfCollapseReachable` reaches that state).
- SetIntersectionCountByLess: takes integers for the elements compared with `<`; the general statement is that of `SetIntersectionCount`.
- Collapses between tasks of different error types, which reparent across payload types: there is one error type.
- Completing a source twice within a run of the task graph: the single call is modelled (`TaskPayload.BasePayload.Complete`), its effect on continuations already scheduled is not.
- Callables that create tasks or complete sources as they run: such actions are separate steps, which the scheduler may take at any time a callable could.
- Tokens that become cancelled during a run of the task graph: each callable's token has one answer.
- Deadlock between payload locks: a redirected add holds the outer lock while the root runs an inline continuation. The class model treats the walk as one call, the machine takes it lock by lock.
- Lifetimes (`shared_ptr`, `weak_ptr`), moves, exceptions crossing callbacks, `inplace_function` buffers, and `coroutine.h`.
- Exceptions caught by `output_wrapper`: callables are total functions.
- The `when_all` overloads for void and for tuples: their callback and join are those of the vector overload, without or with other storage.
- State machine cancellation before entry or through the driver's token (`cancel_enter`, `cancel_exit`), two observers of one state, and several drivers.
- Several consumers of one queue: a push to a queue that is not empty does not notify.
- Re-entrant `tick`, and merging a `sorted_vector` with itself.
- Wrap-around of the 64-bit ticket seeds and of the unsigned counters; the facility counter stops where its overflow would be undefined.
- The router's sentries as objects: a group's active flag stands for its sentry, and `Router.Sentry` models the class on its own.
- The debug assertions and thread affinity checks, and the concurrent use of a router, which its affinity forbids.
- The lazy creation of the listener collection and of the category storage, and the `none()` token.
- Messages and names of error categories, tracing, platform schedulers, thread names, string conversion, `unique_vector`, `weak_table`, floating-point statistics and `math.h`: they would add easier members.
- `insert_presorted`, `empty`, `size` and iterators of the containers: plain accessors.

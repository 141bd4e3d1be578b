# Verified models of vstd

This project models the concurrent runtime and the algorithmic cores of the vstd header library in Dafny and
proves properties of them. It covers coroutine tasks (`vtask.h`), the event loop (`veventloop.h`), the thread
pool (`vthreadpool.h`), the legacy futures (`vfuture.h`), the neural network (`vneuro.h`), the conversion
registry (`vany.h`), the TTL cache (`vcache.h`) and string rewriting (`vstring.h`). `dafny verify dfyconfig.toml`
checks all of it.

## How the code is modelled

**Lock sections.** Whatever one thread does while it holds a mutex, and every atomic access, is one step. The
sections are functions on values (`TaskCore`, `ThreadPool`, `FutureCell`, `TaskGroup`); classes perform the same
sections on their fields and are proved equal to the functions. State machines then interleave the sections in
every order, so their theorems hold for every number of threads and every schedule. Guards of a machine never
refer to proof state: which call holds a role is named only in invariants.

**A call made after a section** (a callback, a dispatched ticket, a stop callback) becomes a pending call of its
own that any thread may take up at any time. This allows more interleavings than the code has, which is sound for
what is proved here. Where the order matters, it is modelled: a child's body returns only after the callbacks it
runs itself, a join's body goes on only after the callback it runs inline, a loop callback runs inside the pass
that started it.

**User code** is arbitrary. A coroutine body suspends, returns or throws; a scheduler accepts, rejects, drops or
runs inline; a callback of the event loop posts, schedules, cancels and pumps the loop again, nested to any depth.
The depth passed to `EventLoop.EventLoop.RunCode` only says that user code returns; loops do not use it to end.

**Modules.** `TaskCore` holds the sections of a task, `TaskMachine` their interleavings, `TaskExecution`, `TaskStop`
and `TaskResults` one invariant each, `TaskRuntime` the theorems, `TaskWork` those about worker functions,
`TaskAwait` what a resumed body is told, `TaskOrigins` which steps account for results and failures, `ChildAwait` a
body that awaits a child. `JoinMachine`, `WhenAll` and `WhenAllRuns` do the same for `whenAll`; `TaskGroup` and
`ExecutionScope` for groups and for self-waits, `WaitCircles` for waits of threads for each other. `LoopQueues`,
`EventLoop` and `TimerOrder`, `ThreadPool`, `FutureCell`, `FutureChain` and `FutureWhenAll` are the other concurrent
parts. `NeuroSums` and `NeuroCalculus` are the mathematics, `NeuroNetwork` what the network computes,
`NeuroGradient` and `NeuroDerivative` that back-propagation is its gradient, `NeuroSigmoid` that the sigmoid has the
slope assumed, `NeuroTraining` and `NeuroNet` training and the class.

**Numbers.** The network is over real numbers. Its sigmoid is the code's, with a branch for each sign, over any
exponential function: positive, turning signs into reciprocals, and its own derivative
(`NeuroSigmoid.IsExponential`). The theorems about gradients hold for every squashing function whose slope is given
by its output (`NeuroDerivative.Smooth`, which `NeuroDerivative.LinearIsSmooth` shows can be met);
`NeuroSigmoid.SigmoidIsSmooth` proves that the code's is one. Derivatives are defined by epsilon and delta. The
random source of the constructor is a parameter, and the shuffle swaps at arbitrary places. Ids and counters are
unbounded; the ticks of the cache are 32 bits wide and wrap.

## Where the code does less than its documentation says

- `docs/cpp-guidelines.md:102-103` promises that `whenAll` propagates the error of a failing child. For a void join
  the code does not always: a child stopped by somebody else settles and may complete before its settlement
  callback has run, and then the join finds no recorded error and returns. `WhenAllRuns.VoidJoinIsRightExactlyWhen`
  states exactly for which inputs this cannot happen, and builds the run in all other cases.

## What the code leaves to its callers

- Timers start in the order of due time and id as long as no timer is popped while a `scheduleAfter` is under way
  that could still lose to it; `TimerOrder.SecureExactlyWhenCareful` shows that this condition is exact
  (`TimerOrder.CarelessHistory` is a history that breaks it).
- A wait is refused on the thread that owns the task. That no circle of threads arises is up to the callers;
  `WaitCircles.NoCircleExactlyWhenCareful` says exactly which waits close one
  (`ExecutionScope.TwoThreadsCanWaitForEachOther` is a run with one).
- `path` from a type to itself needs a direct converter (`AnyRegistry.Registry.Path`).

## Model

| member | source | states |
|---|---|---|
| TaskCore.StateBase.Enter | vtask.h:150-164 | The first section of resume(): its result and the new flags are those of EnterResume; a finished task ignores the call, a running one notes it, otherwise the caller becomes the runner. |
| TaskCore.StateBase.Begin | vtask.h:168-173 | The head of the resume loop: only the very first pass, and only with a stop already requested, skips the body. |
| TaskCore.StateBase.Leave | vtask.h:174-193 | The section after the frame came back: tear down, go round again for a noted resume, or give up the runner's role. |
| TaskCore.StateBase.Finish | vtask.h:181-184 | Execution finishes: running is given up and executionFinished raised together. |
| TaskCore.StateBase.SetValue | vtask.h:382-396 | A value settles only an unsettled result, and hands out exactly the callbacks listed until then. |
| TaskCore.StateBase.SetError | vtask.h:302-316 | An error settles only an unsettled result, and hands out exactly the callbacks listed until then. |
| TaskCore.StateBase.RequestStop | vtask.h:197-208 | A stop settles an unsettled result as cancelled and raises the flag in every case. |
| TaskCore.StateBase.CompleteExecution | vtask.h:350-359 | Completion hands out exactly the completion callbacks. |
| TaskCore.StateBase.OnReady | vtask.h:289-300 | A callback whose event has happened is returned to be run at once, any other is listed under its event. |
| TaskCore.Operation.Complete | vtask.h:462-476 | Claims an unclaimed operation, with its failure; a claimed one is left as it is. |
| TaskCore.Operation.Cancel | vtask.h:478-492 | Claims an operation as cancelled unless it is claimed or executing. |
| TaskCore.Operation.BeginWork | vtask.h:494-503 | Work begins only on an unclaimed operation of a task that is not stopping. |
| TaskCore.Operation.EndProbe | vtask.h:510-522 | A probe ends its execution and reports whether it met a stop. |
| TaskCore.Operation.Reject | vtask.h:524-528 | A dropped ticket replaces the failure by scheduler_rejected. |
| TaskExecution.StepKeepsExec | vtask.h:150-195 | Every step of every thread keeps: one runner at most, one resumption at most on its way, and every suspension but the last one answered. |
| TaskStop.StepKeepsStop | vtask.h:462-522 | Every step keeps an unclaimed operation in somebody's hands, also when a stop meets an executing worker or probe. |
| TaskResults.StepKeepsResults | vtask.h:289-359 | Every step conserves callbacks: each is registering, listed, due or has run, exactly once, and none is listed for an event that has happened. |
| TaskRuntime.RunKeepsInv | vtask.h:139-375 | All invariants hold in every reachable state, whatever the interleaving of threads, schedulers and body. |
| TaskRuntime.OneThreadInFrame | vtask.h:150-195 | In every reachable state at most one call on any thread is between taking and giving back the runner's role. |
| TaskRuntime.ResumeIsNeverLost | vtask.h:156-162 | A resume() that arrives is not ignored, and meets no earlier note: no two resumptions coalesce. |
| TaskRuntime.FrameIsSafe | vtask.h:165-187 | The frame is entered only while it is alive and unfinished, destroyed once, and never touched afterwards. |
| TaskRuntime.EverySuspensionIsAnsweredOnce | vtask.h:462-492 | The frame is entered once to start and then once for every suspension in order; a claimed operation has been answered or exactly one resumption for it is on its way, whether its ticket is run, dropped or rejected. |
| TaskRuntime.ClaimIsFinal | vtask.h:462-528 | A claim is never taken back, and its failure changes only to scheduler_rejected by the dropped ticket of that operation. |
| TaskRuntime.StoppingIsRequested | vtask.h:555-559 | stopping(), which looks at the stop token and at the task, is true exactly if the task has been asked to stop. |
| TaskRuntime.StopIsNeverLost | vtask.h:494-522 | With a stop requested and a cancellable operation unclaimed, some pending call will claim it: the requester, the stop callback's cancel(), or the worker or probe that made cancel() step aside. |
| TaskRuntime.NothingIsStuck | vtask.h:1052-1097 | With all calls returned, the task is finished for good, or waits for something only the outside can do; a cancellable wait does not outlive a stop request. |
| TaskRuntime.NothingIsUndone | vtask.h:197-212 | No step changes a settled result, takes back a stop or completion, or unruns a callback. |
| TaskRuntime.SettledFirst | vtask.h:350-359 | completed and cancellationRequested each imply settled; a body that never ran was cancelled. |
| TaskRuntime.SettledForever | vtask.h:302-316 | Over any continuation of a run a settled result stays what it is. |
| TaskRuntime.CallbacksRunAtMostOnce | vtask.h:335-342 | No callback runs twice, or before its event, whatever the race between onReady and settlement. |
| TaskRuntime.CallbacksRunExactlyOnce | vtask.h:289-300 | With all calls returned a callback has run, exactly once, if and only if its event has happened. |
| TaskRuntime.IndicesAreValid | vtask.h:454-468 | Every pending call refers to an existing operation, so no guard of the machine holds back a step of the code. |
| TaskWork.StepKeepsWork | vtask.h:494-522 | Every step keeps an operation in the hands of one server at most, whose claim nobody can take while its function or predicate executes. |
| TaskWork.WorkerHasFrameToItself | vtask.h:1067-1097 | While a worker function or a predicate runs, the body is suspended on the operation it runs for, the frame is alive, no resumption is on its way, and no other function or predicate of the task runs. |
| TaskWork.NobodyElseClaims | vtask.h:478-503 | While a worker function or a predicate runs, its operation is unclaimed, cancel() steps aside and no call is about to complete it. |
| TaskAwait.WhatTheBodyIsTold | vtask.h:530-551 | What await_resume tells the body before it looks at the awaited result: scheduler_rejected if the ticket was dropped, otherwise the failure of the one complete() or cancel() that claimed the operation, otherwise task_cancelled if a stop has been requested (an awaited child included, waitFinished alone excepted), otherwise nothing. |
| TaskAwait.AnsweredIsFinal | vtask.h:524-551 | Once the frame has been resumed for an operation, what the operation recorded does not change any more. |
| TaskOrigins.ResultHasOrigin | vtask.h:197-208 | A task settles with the outcome its body ended with in an earlier step of the run, or as cancelled by a stop, and with nothing else. |
| TaskOrigins.UnstoppedResultIsReturned | vtask.h:382-396 | Without a request to stop, a task that has settled or finished executing holds exactly the outcome of the one step in which its body ended. |
| TaskOrigins.BodyEndsOnce | vtask.h:165-187 | A body ends at most once in a run. |
| TaskOrigins.WorkCompletesWithItsEnd | vtask.h:1067-1097 | An awaited function's operation is completed with the failure the function ended with, none if it returned, or with scheduler_rejected if it never ran. |
| TaskOrigins.ConditionCompletesWhenTrue | vtask.h:1162-1194 | An awaited condition's operation is completed without a failure only after its predicate has said yes, or on a stop; with a failure only after the predicate has thrown it, or as cancelled on a stop. |
| TaskOrigins.EventCompletesWhenSignalled | vtask.h:705-723 | Any other awaited operation is completed without a failure and only once it has been signalled. |
| TaskOrigins.BeginsUnlessStopped | vtask.h:494-503 | A function or predicate is called exactly if its operation is unclaimed and no stop has been requested. |
| TaskOrigins.EndsAsTheySay | vtask.h:1162-1194 | A predicate that says no leaves its condition watched, one that says yes has its operation completed, a function that ends completes it with its end; nobody else is about to complete the operation then. |
| TaskOrigins.OperationsAreSuspensions | vtask.h:625-647 | There is one operation for each suspension of the body, in order and of its kind. |
| TaskOrigins.CancelledKinds | vtask.h:743-763 | A stop cancels the operations of events, functions and conditions only, never the wait for a child or for the end of another task. |
| TaskOrigins.RequestsAreTaken | vtask.h:197-212 | Nothing from outside is ignored: requests to stop, callbacks and signals become calls, complete() claims an unclaimed operation, and so does cancel() unless a function or predicate is executing. |
| ChildAwait.RunKeepsInv | vtask.h:844-876 | In every interleaving of await_suspend, the child, stops of the parent and the scheduler: one notice of the child's end makes the one claim, and every stop of the parent is at the child or on its way to it. |
| ChildAwait.AwaitEndsByCompletion | vtask.h:844-876 | A body that awaits a child goes on only after the child has finished executing; its operation is claimed once, by the notice of that. |
| ChildAwait.StopReachesChild | vtask.h:860-868 | A stop of the parent, before, during or after the construction of the stop callback, has reached the awaited child or is on its way to it, in every reachable state. |
| ChildAwait.StopHasReachedChild | vtask.h:860-868 | Once no request is under way, a stopped parent that is suspended has a stopped child, whose result has settled. |
| ChildAwait.ChildIsStoppedByParent | vtask.h:860-868 | An awaited child is stopped only because its parent is. |
| ChildAwait.StoppedParentStartsNoBody | vtask.h:168-173 | If the parent had been stopped before the await, the child's body never runs and the await throws by itself. |
| ChildAwait.WhatTheAwaitDoes | vtask.h:871-875 | It throws scheduler_rejected if the ticket was dropped; otherwise task_cancelled if the parent has been stopped, even though the child has a value; otherwise the child ran unstopped, and its value is given or its error thrown; it never blocks. |
| ChildAwait.NothingIsStuck | vtask.h:844-876 | Unless the child's body is running, the await can go on until it has ended. |
| ChildAwait.StoppingIsAsked | vtask.h:197-208 | The parent has been stopped exactly if it had been before the await or has been asked to since. |
| ChildAwait.ChildResultHasOrigin | vtask.h:382-396 | The child's result is what its body settled with, or the cancellation by a stop. |
| JoinMachine.JoinState.Fail | vtask.h:1245-1258 | fail records a failure only if there is one and none was recorded before, and says whether it did. |
| WhenAll.StepKeepsInv | vtask.h:1236-1320 | Every step of the children, of the callbacks, of the body and of a stop of the join keeps the join's invariants. |
| WhenAllRuns.WaitEndsByCompletion | vtask.h:743-775 | The wait for a child is resumed only after the child has completed: the completion callback, registered in a race with the completion, claims the operation, and the ticket of that claim is run, dropped or rejected; a stop of the join does not reach it, and nothing of a wait is left over when the body has gone on. |
| WhenAllRuns.JoinDrains | vtask.h:1288-1298 | Unless a handle is empty, the join ends only when every child has completed, whatever fails, is stopped or is rejected. |
| WhenAllRuns.EmptyHandleEndsJoin | vtask.h:1269-1272 | In every run: an empty handle, and nothing else, ends the join so, for good, with no callback registered, no failure recorded and no wait begun. |
| WhenAllRuns.FailureStopsEveryChild | vtask.h:1252-1264 | One call at most broadcasts stop, only after a failure was recorded, and once it is done every child has completed or been asked to stop. |
| WhenAllRuns.FirstFailureIsFinal | vtask.h:1252-1258 | The recorded failure never changes, and no second broadcast ever starts. |
| WhenAllRuns.JoinThrowsFirstFailure | vtask.h:1299-1318 | If a failure was recorded before the join concludes, it throws the one that the first call of fail was given; if none was, a void join returns, and one with values returns them in order or throws the error of the first handle without a value. |
| WhenAllRuns.EndingIsFinal | vtask.h:1299-1318 | What a join has ended with is final. |
| WhenAllRuns.FailuresHaveCauses | vtask.h:1274-1298 | What fail is given is the error of the callback's child, task_cancelled after a stop of the join, or scheduler_rejected after a rejected continuation. |
| WhenAllRuns.RejectionFailsJoin | vtask.h:1288-1298 | A rejected continuation makes the join fail: its failure is recorded before the join goes on. |
| WhenAllRuns.StopIsHeard | vtask.h:1286-1287 | A stop of the join before it has finished is about to be recorded or has been, unless the stop callback is yet to be constructed. |
| WhenAllRuns.EarlyStopFailsJoin | vtask.h:1286-1287 | If it came before that construction, the join goes on from there only with a failure recorded. |
| WhenAllRuns.ChildChanges | vtask.h:1250-1256 | A child settles by itself, or as cancelled when asked to stop, completes by itself, and is asked to stop by others or by the broadcast. |
| WhenAllRuns.FlagsFollowSteps | vtask.h:1286-1298 | A join is stopped by a request and rejected by a dropped ticket, and by nothing else. |
| WhenAllRuns.ReturnsValuesInOrder | vtask.h:1310-1318 | A join that returns values returns those of all children, in the order of the handles. |
| WhenAllRuns.ReturnsExactlyWithValues | vtask.h:1299-1318 | Unless the join was stopped or a continuation of it rejected, a join with values returns exactly if every child has a value. |
| WhenAllRuns.VoidJoinReturns | vtask.h:1299-1309 | Without a value, a child of a void join that returned was stopped by somebody other than the join. |
| WhenAllRuns.VoidJoinIsRightExactlyWhen | vtask.h:1273-1309 | A void join can return although a child was cancelled: a stopped child may complete before its settlement callback has run. It cannot exactly if all children had settled before the join, or one had failed by then. |
| WhenAllRuns.NothingIsStuck | vtask.h:1286-1318 | Once all children have completed, the join can always go on by itself until it has finished. |
| WhenAllRuns.OwnStepsRunOut | vtask.h:1236-1320 | The steps of the join, and of the scheduler that holds its ticket, run out: each lowers the distance of its body from the end or the work left in its calls, and no other step raises either. |
| TaskGroup.TaskList.Spawn | vtask.h:915-922 | The section of spawn: refused once stopping, otherwise finished tasks are pruned and the new one is appended. |
| TaskGroup.TaskList.BeginStop | vtask.h:932-936 | The section of requestStop: stopping is raised and the current list returned. |
| TaskGroup.PruningIsInvisible | vtask.h:967-971 | The listed tasks have all finished if and only if all tasks ever spawned have. |
| TaskGroup.FinishedIsRight | vtask.h:967-971 | finished() answers true only if every task spawned before had completed when it answered, false only if not all had when it was called. |
| TaskGroup.StopReachesEveryTask | vtask.h:929-944 | After requestStop no spawn is accepted, and when it has returned every task ever spawned has completed or been asked to stop. |
| TaskGroup.NoBodyIsEnteredAfterStop | vtask.h:168-171 | After that no body is entered any more: a task inserted but not yet resumed skips its body. |
| TaskGroup.JoinWaitsForAll | vtask.h:946-965 | When join has returned true every task spawned before the call has completed, pruned or not. |
| TaskGroup.TaskList.OwnsOne | vtask.h:953-959 | The loop over the tasks answers whether the calling thread owns one of them. |
| TaskGroup.JoinIsRefusedWhenOwned | vtask.h:953-959 | join is refused on every thread that owns a spawned task that has not completed, by the test of ExecutionScope.Owns, and only on threads that own a spawned task, whatever has been pruned. |
| TaskGroup.StepsTakeEffect | vtask.h:915-944 | Unless the group is stopping a spawn adds its task to the list; a first resume enters the body exactly if no stop has been requested; stops, joins and completions take effect. |
| TaskGroup.AnswersHaveBeginnings | vtask.h:967-971 | Every answer of finished() is about the tasks and the state at its beginning. |
| ExecutionScope.WalkUp | vtask.h:251-261 | The walk up the await chain finds the task exactly if it is the start or awaits it; it ends because parents were resumed earlier. |
| ExecutionScope.Thread.Enter | vtask.h:100-104 | Entering a scope pushes its task and remembers what was current. |
| ExecutionScope.Thread.Release | vtask.h:114-121 | Releasing a scope restores what was current; a second release does nothing. |
| ExecutionScope.Thread.RunInScope | vtask.h:165-192 | However deeply scopes, resumes and worker calls nest, the thread is left as it was found. |
| ExecutionScope.Thread.OwnsCurrentExecution | vtask.h:247-264 | The two loops answer exactly whether the task is on the thread's stack or awaits something on it. |
| ExecutionScope.RunKeepsInv | vtask.h:844-870 | In every run parent links respect the order of first resumes, and no waiting thread owns the task it waits for. |
| ExecutionScope.ParentsAreAcyclic | vtask.h:266-269 | Parent links are acyclic in every run, since they are set before the child starts. |
| ExecutionScope.NobodyWaitsForItself | vtask.h:321-327 | From the beginning to the end of a wait, the task waited for is neither on the waiting thread's stack nor an await-ancestor of anything on it. |
| ExecutionScope.LinksFollowSteps | vtask.h:844-870 | An awaited task's parent is the task on top of the awaiting thread's stack, a spawned one has none, nothing else changes a link, and scopes and waits change the stacks as they should. |
| WaitCircles.CircleClosesExactlyWhen | vtask.h:236-269 | join and get look at the calling thread only; the step that closes a circle of threads waiting for each other's tasks is exactly a wait for a task whose holder already waits, directly or through others, for the calling thread. |
| WaitCircles.NoCircleExactlyWhenCareful | vtask.h:236-269 | A run never has such a circle if and only if none of its waits begins at such a time. |
| NeuroSums.Exchange | vneuro.h:456-459 | A double sum may be taken by rows or by columns; what turns the backward pass into a transposed forward pass. |
| NeuroGradient.Transpose | vneuro.h:453-461 | Pairing error terms with a weighted sum is pairing what the backward pass propagates with the sum's inputs. |
| NeuroGradient.BackPropagationIsAdjoint | vneuro.h:439-476 | For all shapes, weights, inputs, targets and perturbations, the gradient buffer paired with the perturbation equals the chain-rule tangent of sample_loss. |
| NeuroCalculus.ProductRule | vneuro.h:394-397 | The derivative of a product, from the definition of the derivative. |
| NeuroCalculus.ChainRule | vneuro.h:382-397 | The derivative of a composition, from the definition of the derivative. |
| NeuroDerivative.ActivationDerivative | vneuro.h:399-420 | Every activation is differentiable in the parameters, with the tangent's entry as its derivative. |
| NeuroDerivative.GradientIsDerivative | vneuro.h:439-476 | The gradient buffer is the gradient: its inner product with any perturbation is the derivative of sample_loss in that direction, for every squashing function with the slope the code assumes. |
| NeuroDerivative.StepLowersLoss | vneuro.h:478-497 | A step against a gradient that is not zero lowers the sample's loss for every small enough learning rate. |
| NeuroSigmoid.SigmoidIsSmooth | vneuro.h:381-397 | For every steepness and any exponential, what sigmoid_derivative_from_output computes from the output of sigmoid is the derivative of sigmoid, in both of its branches. |
| NeuroSigmoid.SigmoidGradient | vneuro.h:439-476 | So for a network with this sigmoid the gradient buffer paired with any perturbation is the derivative of sample_loss in that direction. |
| NeuroTraining.LearningLowersLoss | vneuro.h:114-118 | Without momentum, presenting a sample lowers its loss for every small enough learning rate unless its gradient is zero. |
| NeuroTraining.OrderCoversAll | vneuro.h:113-114 | An epoch presents every training sample exactly once. |
| NeuroTraining.EpochsCompose | vneuro.h:111-119 | Training for some epochs and then for others is training for all of them. |
| NeuroTraining.NumericalGradientConverges | vneuro.h:200-208 | For every weight and bias the central difference tends to the entry that compute_gradients wrote for it. |
| NeuroTraining.UpdateIsMomentum | vneuro.h:478-497 | In one update every velocity becomes momentum times itself minus the learning rate times the gradient, and every parameter moves by its new velocity. |
| NeuroTraining.EpochPresentsOrder | vneuro.h:104-120 | An epoch presents the samples of its order one after the other, each to the network that the one before has left. |
| NeuroNet.CheckConfiguration | vneuro.h:316-338 | A configuration is accepted exactly if it has two layers, none empty, and rate, momentum and steepness in their ranges. |
| NeuroNet.ConvertLayers | vneuro.h:301-314 | Layer sizes given as ints are accepted exactly if all are positive, and then unchanged. |
| NeuroNet.WeightedInput | vneuro.h:410-414 | The innermost loop of the forward pass computes the weighted sum of one row. |
| NeuroNet.PropagatedError | vneuro.h:455-459 | The innermost loop of the backward pass computes the weighted sum of one column. |
| NeuroNet.ForwardPass | vneuro.h:399-420 | forward returns the activations of every layer. |
| NeuroNet.SampleLoss | vneuro.h:520-530 | sample_loss is half the squared error of the output. |
| NeuroNet.Network.constructor | vneuro.h:340-380 | After construction all shapes agree, biases, velocities and buffers are zero, the weights are those drawn, and the squashing function is the sigmoid of the given steepness. |
| NeuroNet.Network.Predict | vneuro.h:69-74 | predict refuses an input of the wrong size and otherwise returns the output layer. |
| NeuroNet.Network.ForwardTraining | vneuro.h:422-437 | The reused buffers hold exactly the activations that forward would allocate. |
| NeuroNet.Network.BackwardPass | vneuro.h:444-462 | The reused error buffers hold the error terms of every layer. |
| NeuroNet.Network.ComputeGradients | vneuro.h:439-476 | Leaves the gradient at the current parameters in the reused buffer: in every direction its pairing is the derivative of the sample's loss under the network's sigmoid. |
| NeuroNet.Network.ApplyGradients | vneuro.h:478-497 | Every parameter moves by its new velocity, which is momentum times the old one less the learning rate times the gradient. |
| NeuroNet.Network.AddTrainingSample | vneuro.h:81-86 | A valid sample is appended and its index joins the training order, which stays a permutation of all indices. |
| NeuroNet.Network.Shuffle | vneuro.h:113-113 | Swaps at arbitrary places keep the training order a permutation of all indices. |
| NeuroNet.Network.Train | vneuro.h:104-120 | Training is, epoch by epoch, a pass over all samples in some order with an update after each; without samples it does nothing. |
| NeuroNet.Network.TrainUntil | vneuro.h:122-132 | Stops at the first epoch boundary at which the target is met, or at the limit. |
| NeuroNet.Network.Teach | vneuro.h:134-141 | A negative number of iterations is refused, any other is a number of epochs. |
| NeuroNet.Network.TeachUntil | vneuro.h:143-163 | Trains in batches of step epochs up to one million and stops at the first boundary between batches at which the target is met; succeeds exactly if it is met then, and returns the number of epochs. |
| NeuroNet.Network.GradientCheck | vneuro.h:185-226 | Leaves every parameter as it was and the gradient buffer with the gradient it compares against, and returns the largest relative error over all parameters. |
| NeuroNet.Network.DatasetError | vneuro.h:499-518 | The mean squared error of a data set, zero for an empty one. |
| NeuroNet.RootComparison | vneuro.h:499-518 | Comparing the root of the mean square with a target is comparing the mean square with its square. |
| LoopQueues.TimerStepKeeps | veventloop.h:236-263 | Every step on the timers, by any thread, keeps: timers leave the queue and start in order of due time and id except late ones, each late one out of order; starts follow pops; none is started twice, after its cancellation, or lost. |
| LoopQueues.PopTimerKeeps | veventloop.h:646-658 | Taking the first timer keeps all this, provided the one taken before has started or been cancelled. |
| LoopQueues.InsertKeeps | veventloop.h:236-263 | Inserting a scheduled timer, at any moment on any thread, keeps the queue sorted; it is late exactly if a timer that belongs behind it has left the queue. |
| LoopQueues.NothingDueIsLeft | veventloop.h:650-656 | Where processDelays stops, be it at a timer with a newer id, no older queued timer is due. |
| LoopQueues.PopLowersOpenBelow | veventloop.h:645-665 | Every pass of processDelays lowers the number of timers it can still take, whatever callbacks schedule. |
| TimerOrder.StartsBehindExactlyWhenExposed | veventloop.h:236-246 | From any state, a timer still queued or being scheduled can come to start after a popped timer that it belongs before if and only if it is not cancelled and is due before that one, or has yet to read a clock that shows that one's due time, and had its id first. |
| TimerOrder.SecureExactlyWhenCareful | veventloop.h:236-263 | Over all histories: at no time can an open timer come to start behind its turn, if and only if each timer was popped at a time at which no scheduleAfter under way could still lose to it. |
| TimerOrder.CarefulHistoriesStartInOrder | veventloop.h:636-666 | In such a history all timers leave the queue and start in the order of due time and id. |
| TimerOrder.DelayIsKept | veventloop.h:236-246 | Wherever a timer is, it is due the delay it was scheduled with, if positive, after its scheduleAfter read the clock. |
| TimerOrder.NothingStartsEarly | veventloop.h:646-658 | No timer leaves the queue, nor starts, before it is due. |
| TimerOrder.DelayIsRespected | veventloop.h:236-263 | A timer that has started did so at least its delay after its scheduleAfter read the clock. |
| TimerOrder.NoOverlapIsCareful | veventloop.h:636-666 | A history in which no timer is popped while a scheduleAfter is under way is one. |
| TimerOrder.PopsAscendExactlyWhenNoneIsLate | veventloop.h:636-666 | The timers of any history left the queue in order if and only if none of them was late. |
| LoopQueues.LoopCompose | veventloop.h:328-336 | What any number of calls may have done to the queues composes. |
| EventLoop.EventLoop.Invoke | veventloop.h:155-171 | A posted task gets the next id and the last place. |
| EventLoop.EventLoop.DrainPostedTasks | veventloop.h:519-549 | On return every task posted before the call has started; the drain's own loop takes tasks in order and none posted after it read its limit; all starts so far are in post order, each once, however deeply drains nest. |
| EventLoop.EventLoop.DrainUpTo | veventloop.h:532-548 | The loop ends by the number of queued ids up to its limit, though callbacks post, drain and run further passes. |
| EventLoop.EventLoop.CallPredicate | veventloop.h:606-621 | A predicate is called only while it is not being called already and never once its condition has been run; its flags are restored. |
| EventLoop.EventLoop.TakeOut | veventloop.h:622-627 | A ready condition runs only if it was still listed and no cancellation came first; otherwise it counts as dropped. |
| EventLoop.EventLoop.ProcessConditions | veventloop.h:590-634 | Each listed condition is asked unless it is cancelled or being evaluated; one that has said yes and is no longer being evaluated has run, or been cancelled first; each runs at most once and never after its cancellation; conditions cancelled before the pass leave the list. |
| EventLoop.EventLoop.ScheduleWhen | veventloop.h:178-189 | A condition gets a new id and the last place in the list. |
| EventLoop.EventLoop.ResetCondition | veventloop.h:188 | A condition that is cancelled before its action started never runs. |
| EventLoop.EventLoop.PopFirst | veventloop.h:647-664 | The first timer leaves the queue and starts, before anything else is popped, unless it has been cancelled by then. |
| EventLoop.EventLoop.ScheduleAfter | veventloop.h:236-263 | The timer is queued with a new id, due the given delay after now, or now if the delay is not positive. |
| EventLoop.ScheduledIsDone | veventloop.h:636-666 | A timer that was queued once and is due when a pass begins has started or been cancelled when the pass ends. |
| EventLoop.EventLoop.ResetTimer | veventloop.h:250-262 | A cancelled timer leaves the queue and never starts if it has not. |
| EventLoop.EventLoop.DelaysUpTo | veventloop.h:642-666 | The loop ends though every callback reschedules or pumps the loop, and leaves no older timer that is due. |
| EventLoop.EventLoop.ProcessDelays | veventloop.h:636-666 | On return no timer taken before the pass and due at its time is left; the timers started during it, by this pass or nested ones, started in the order of due time and id but for late ones, and in the order in which they were popped. |
| EventLoop.EventLoop.RunReady | veventloop.h:328-336 | On return all tasks posted before have started, every timer queued and due before has started or been cancelled, starts are in order but for late ones, and all conditions cancelled before have left the list. |
| EventLoop.EventLoop.RunUntilIdle | veventloop.h:338-351 | It starts all tasks posted before; it ends after the given number of passes, or after a pass that met no posted task and left no timer that was due at its beginning. |
| EventLoop.EventLoop.RunCode | veventloop.h:668-697 | User code may post, schedule, cancel and run nested passes; it returns with all invariants kept and all flags as they were. |
| ThreadPool.TaskQueue.PushTask | vthreadpool.h:63-73 | A task is refused by a shut queue and otherwise appended. |
| ThreadPool.TaskQueue.PopTask | vthreadpool.h:75-88 | The first task is taken, or none if the queue is empty. |
| ThreadPool.TaskQueue.Shutdown | vthreadpool.h:90-95 | Shutting changes nothing but the flag. |
| ThreadPool.RunKeepsInv | vthreadpool.h:126-236 | In every run: accepted tasks are the popped ones followed by the queued ones, popped ones have finished or are being run, and a stop call has all workers of its generation. |
| ThreadPool.AcceptedIsPoppedThenQueued | vthreadpool.h:60-102 | Per generation, accepted tasks are popped and then queued ones in their order, each once, and submit answered true exactly for them. |
| ThreadPool.SubmitIsAnswered | vthreadpool.h:60-71 | An open generation accepts what is submitted and puts it last in its queue; a retired one refuses it. |
| ThreadPool.WorkerTakesOldest | vthreadpool.h:73-91 | An idle worker takes the oldest queued task, and exits only if there is none. |
| ThreadPool.StartRecruits | vthreadpool.h:155-191 | Starting a stopped pool gives it as many idle workers as it was made with, for an open generation. |
| ThreadPool.StepsTakeEffect | vthreadpool.h:193-210 | A submission goes to the current generation, a stop of a started pool retires it with all its workers, and a finished task counts as finished. |
| ThreadPool.PopFailsOnlyOnShutEmptyQueue | vthreadpool.h:79-84 | A worker gives up only when its queue is shut and empty. |
| ThreadPool.TasksRunOnce | vthreadpool.h:107-122 | No two workers run the same task, none a finished one, and each only tasks that its own generation accepted. |
| ThreadPool.StopDrains | vthreadpool.h:193-208 | When a stop call not made by a worker returns after retiring a generation, and the pool has workers, every task ever accepted into that generation has finished. |
| ThreadPool.NoWorkersNothingRuns | vthreadpool.h:171-179 | Without workers nothing ever runs. |
| ThreadPool.WorkerStopNeverBlocks | vthreadpool.h:211-228 | A stop call made by a worker detaches and never waits. |
| ThreadPool.StopWaitsForLiveWorkers | vthreadpool.h:217-227 | Any other stop call waits only for a worker that can still go on by itself. |
| ThreadPool.RetiredGenerationRunsOut | vthreadpool.h:107-122 | Each step of a generation's workers lowers what is left of it; once retired it stays retired, and no other step raises that. |
| FutureCell.CCall.SetResult | vfuture.h:189-214 | Settles a pending cell with the value, or with the exception of copying it, and takes the continuations. |
| FutureCell.CCall.SetException | vfuture.h:298-314 | Settles a pending cell; a null exception is replaced. |
| FutureCell.CCall.Cancel | vfuture.h:331-344 | Settles a pending cell as cancelled. |
| FutureCell.CCall.OnSettled | vfuture.h:452-512 | A continuation of a pending cell is listed; of a settled one it is to be run at once, with its outcome or the exception of copying its value. |
| FutureCell.CCall.Call | vfuture.h:405-414 | The target is started only once and only while the cell is pending. |
| FutureCell.NothingIsUndone | vfuture.h:187-359 | The first settlement is final; a continuation only moves forwards and keeps what it was given. |
| FutureCell.EveryContinuationIsConsumed | vfuture.h:452-512 | Once the cell has settled and nothing is left to do, every continuation has been consumed, with the cell's outcome, or with exactly the error thrown when the stored value was copied for it. |
| FutureCell.FirstSettlementWins | vfuture.h:187-359 | The cell holds what the first call to settle it brought. |
| FutureCell.CallRunsTarget | vfuture.h:405-445 | The next call of a pending cell that has not been called runs its target, and no other call does. |
| FutureCell.TargetRunsAtMostOnce | vfuture.h:405-414 | The target runs at most once, and not at all once the cell has settled. |
| FutureChain.ChainIsComposition | vfuture.h:650-661 | Where nobody cancels, a settled future of a chain holds what the first outcome becomes by going through the targets one after the other. |
| FutureChain.TargetNeedsValue | vfuture.h:653-659 | A target of a chain runs at most once, only after its predecessor has a value, and on that value. |
| FutureChain.ChainReachesEnd | vfuture.h:650-661 | Once the first future has settled and nothing is left to do, the whole chain has settled. |
| FutureWhenAll.RunKeepsInv | vfuture.h:717-799 | The counter is the number of missing values, and an unsettled join has met no failure, in every interleaving. |
| FutureWhenAll.ResultSettlesOnce | vfuture.h:776-795 | The result settles at most once, and the first failing callback to take the lock stays the first. |
| FutureWhenAll.ResultIsRight | vfuture.h:745-797 | With non-null inputs that have settled and all callbacks run, the uncancelled result has the values in order if and only if every input succeeded, and otherwise the error of the first failing callback to take the lock. |
| FutureWhenAll.FirstFailureRanFirst | vfuture.h:717-799 | The failure reported is that of the first callback that ran with one; as long as none has, none is recorded. |
| FutureWhenAll.NothingIsStuck | vfuture.h:745-797 | As long as something is left to do, a step of the loop or of a callback can do it. |
| AnyRegistry.Registry.Add | vany.h:55-59 | A later registration for the same types replaces the earlier one. |
| AnyRegistry.Registry.Path | vany.h:61-94 | Returns a chain of registered converters that no other chain is shorter than, whatever order the map is iterated in; a direct converter wins; it throws if and only if there is neither a direct converter nor, for different types, any chain. |
| AnyRegistry.Registry.Search | vany.h:73-93 | The breadth-first search finds a shortest chain exactly if the types differ and there is one, and ends. |
| AnyRegistry.Registry.Convert | vany.h:96-105 | The result is what the converters of a shortest chain make of the value one after the other, up to the first exception, and has the target type; without a chain it throws. |
| AnyRegistry.ClosedIsAll | vany.h:75-93 | A set of types closed under converters contains everything that can be reached. |
| AnyRegistry.FollowIsPassing | vany.h:96-105 | A conversion gives a value exactly if every converter of the chain gives one when applied to what the one before gave, and then it gives what the last one did. |
| Cache.ValidityIsExact | vcache.h:38-45 | For every tick and stored entry the wrapped unsigned comparison holds exactly if the age as an integer is between zero and the TTL. |
| Cache.StoredTtlIsNotNegative | vcache.h:65-68 | Stored TTLs are never negative. |
| Cache.StoredIsLatestLoad | vcache.h:51-70 | What is stored was loaded by an earlier call for that key, and every later call for it was a hit. |
| Cache.LoadIsKeptForItsTime | vcache.h:51-70 | After a miss that loads a value with a non-negative TTL, a later call for the key is a hit, with that value, exactly if its tick is within the TTL. |
| Cache.HitsChangeNothing | vcache.h:53-58 | A hit changes nothing. |
| Cache.StoredIsOfKey | vcache.h:53-68 | What a history leaves stored for a key is what its calls for that key alone leave. |
| Cache.SameCallsSameAnswer | vcache.h:53-68 | Two histories with the same calls for a key answer the next call for it alike. |
| Cache.CacheStorage.Get | vcache.h:51-70 | Over every history: a hit returns the stored value without loading, anything else loads once; a failed load leaves the key absent and other keys unchanged. |
| Strings.Replace | vstring.h:47-60 | The in-place loop computes the left-to-right rewriting without overlaps, and ends even if the replacement contains what it replaces. |
| Strings.ReplacingKeepsPieces | vstring.h:47-60 | The string falls into pieces at the occurrences met from left to right, none of which is left in a piece, and replacing joins the very same pieces with the replacement. |
| Strings.Split | vstring.h:144-154 | split returns the lines of the string. |
| Strings.Join | vstring.h:129-142 | join puts the separator behind every item but the last. |
| Strings.JoinAfterSplit | vstring.h:129-154 | Joining what was split is the string without one delimiter at its end. |
| Strings.OnlySplittableIsRestored | vstring.h:129-154 | Splitting what was joined gives the items back if and only if none contains the delimiter and the list is empty or ends in an item that is not. |
| Strings.EmptyEndIsLost | vstring.h:144-154 | An empty item at the end is lost. |

## Left out

- SDL events, waking, sleeping, frame timing and fps of the event loop: foreign calls. The clock is a number that never decreases.
- Frame and event callback lists of the event loop: only their place in a pass is kept, as user code.
- Memory orderings and spurious wakeups: sections and atomic accesses are sequentially consistent, and a wait is a step that is enabled when its condition holds.
- Frames, promises and `std::shared_ptr` lifetimes: a weak pointer to an operation, child or parent is always alive where the code locks it.
- Schedulers that run a ticket more than once, and `std::bad_alloc` in a section: excluded by the contract of `scheduler`, and not modelled.
- `TaskMachine.DoSuspend`: one operation object stands for each kind of awaiter; timers, frames, posts and the result behind a handle differ only in who signals it. What `get()` gives after an await on a handle is not modelled; it is the settled result, as for a child.
- `TaskGroup.JoinIsRefusedWhenOwned`: the stack and the await links that the test looks at are given; `ExecutionScope` models how they come about.
- `ExecutionScope.RunKeepsInv`: an expired parent pointer, which would end the walk early, is not modelled.
- Copying of task values, and types without a copy: values are integers.
- `NeuroNet.Network.DatasetError`: returns the mean square, not its root; comparisons square the target instead (`NeuroNet.RootComparison`).
- Floating-point rounding, infinities and NaN, `std::exp`, `std::sqrt`, the Mersenne Twister and the Xavier limit in `vneuro.h`: reals, an abstract exponential and arbitrary draws and swaps stand for them.
- Growing the buffers of the network in place: fields of sequence type are reassigned element by element.
- `EventLoop.EventLoop.ProcessConditions`: ids of conditions have a counter of their own; what matters is that they are unique.
- `ThreadPool.RunKeepsInv`: `start` is one step, since it holds the pool's lock throughout; a failure to launch a thread is not modelled.
- The thread-local pointer of `ThreadPoolWorkerScope`: a stop call carries the answer whether a worker of this pool makes it.
- `execute` of the thread pool: it is `submit` without an answer.
- `getResult`, `wait` and `waitFor` of futures: they block until the cell has settled and read it.
- `FutureWhenAll.RunKeepsInv`: the void overload of `when_all` is not modelled again; it has the same counter and no values. Copies that throw inside its callbacks are excluded.
- Loaders that call the cache again, and loaders that throw after storing: a loader's outcome is a parameter of the call.
- `AnyRegistry.Registry.Convert`: what a converter does to the contents is a parameter; that it yields its target type is what `register_any_type` arranges.
- The template and type-level headers, `vmeta.h`, `vconverter.h`, `vlogger.h`, `vhex.h`, `vlazy.h` and the helpers in `vutil.h`, `vhash.h` and the rest of `vstring.h`: compile-time selection, input and output, or easy members only.

# Simbrain workspace update engine, randomizer parameters and component names

A Dafny model of three parts of Simbrain. Each part is modelled and its properties are proved.

- **The workspace update engine** (`WorkspaceUpdator`) as a sequential state machine. It covers:
  - the tick counter `time`;
  - the default update controller, with its two-level barrier: one tick signal, plus one per-component signal for each enabled component;
  - the `run` flag and the `run`, `runOnce` and `stop` operations;
  - the call order of the task-synchronization hooks;
  - `setNumThreads`, listener registration, and the tick value carried by notifications;
  - the numbering of pool threads by `UpdatorThreadFactory`.
- **`Randomizer`'s parameter logic**: the defaults, the copy constructor, `mirrorCopy`, `clip`, `getDistributionName` and the setters.
- **`GuiComponent`'s `getName` and `getSimpleName`.**

Files:

- `option.dfy`: module `Optional`, a value that may be absent. It stands for a Java reference that may be null.
- `latch.dfy`: module `Latches`. It holds the counting of a completion signal's `done()`, and of the per-component signal that forwards `done()` to the tick signal.
- `tick.dfy`: module `TickSpec`. A component is modelled as a name, an update-on flag and a part count. The datatype `Barrier` holds one tick's signals and the parts still waiting in the pool. Its invariant `Valid` is kept by three transitions:
  - `NewTick` creates the tick signal;
  - `HandOver` is one turn of the controller's loop;
  - `RunPart` is one pool thread running one part.
- `updator.dfy`: module `Updator`, which contains the class `WorkspaceUpdator`. Its three executors become explicit state:
  - the queue of driver jobs;
  - the bag of submitted parts, inside `barrier`;
  - the queue of notifications.

  The controller is split into the steps between which other threads can act: `BeginTick`, `UpdateComponent`, `ExecutePart` and `FinishTick`. `DoUpdate` composes them, with the pool running the parts in an arbitrary order.
- `randomizer.dfy`: module `Randomizers`, which contains the class `Randomizer`. The `double` fields are modelled as `real`. That is exact for the negation, comparison and copying done here, with NaN and the infinities excluded and -0.0 identified with 0.0.
- `gui_component.dfy`: module `GuiComponents`. `getSimpleName` is modelled over the class's simple name as a string.

Facts about the engine's code that the model keeps:

- **Tick signal size.** The tick signal is sized to the whole snapshot, disabled components included (`WorkspaceUpdator.java:111`). A disabled component's immediate `done()` accounts for its share.
- **Empty tick.** An empty snapshot still runs `time++` first (line 335), and `doUpdate` then calls `runTasks` (line 341).
- **`done()` on a signal already at zero.** `LatchCompletionSignal` is not part of this model. Its `done()` is taken to be a `CountDownLatch.countDown()`, which saturates at zero, and its count to be read by `getLatch().getCount()`. Under that reading, every further `done()` on a per-component signal finds the count at zero and forwards to the tick signal again (`Latches.SurplusDoneForwardsAgain`).

## Model

| member | source | states |
|---|---|---|
| `Latches.LastPartForwardsOnce` | src/org/simbrain/workspace/updator/WorkspaceUpdator.java:171-186 | take a per-component signal armed with k >= 1 parts, each calling `done()` once; after m of those calls its count is k - m, and it has forwarded exactly one `done()` to the tick signal if m = k, none before |
| `Latches.SurplusDoneForwardsAgain` | src/org/simbrain/workspace/updator/WorkspaceUpdator.java:171-181 | the number of forwarded `done()` calls for any armed count k and any number m of calls: none while m < k, then one more for every call past k; a signal armed with 0 forwards on every call |
| `TickSpec.OwingUpdate` | src/org/simbrain/workspace/updator/WorkspaceUpdator.java:171-181 | changing one component's per-component count changes the number of components still owing a `done()` only by that component's own contribution |
| `TickSpec.OwingZero` | src/org/simbrain/workspace/updator/WorkspaceUpdator.java:111-118 | nothing is owed to the tick signal exactly when no component of the snapshot still owes its `done()` |
| `TickSpec.TickOpensIff` | src/org/simbrain/workspace/updator/WorkspaceUpdator.java:111-186 | once every per-component count is zero, the tick signal is at zero exactly when every enabled component has at least one part |
| `TickSpec.NewTick` | src/org/simbrain/workspace/updator/WorkspaceUpdator.java:111 | the tick signal is sized to the whole snapshot, disabled components included; nothing has been submitted yet; the barrier invariant holds |
| `TickSpec.HandOver` | src/org/simbrain/workspace/updator/WorkspaceUpdator.java:161-187 | `updateComponent` keeps the barrier invariant. For a disabled component the tick count drops by one and nothing is submitted. For an enabled component the tick count is unchanged and exactly `parts` entries of that component are added to the pool |
| `TickSpec.RunPart` | src/org/simbrain/workspace/updator/WorkspaceUpdator.java:171-185 | running a pending part keeps the barrier invariant. Only a handed-over enabled component can have one. It removes that part, lowers the component's count by one, and lowers the tick count by one exactly when the component's count reaches zero |
| `TickSpec.AwaitReturnsAfterAllParts` | src/org/simbrain/workspace/updator/WorkspaceUpdator.java:117-118 | when the loop is done and the tick signal is at zero, no submitted part is still waiting and no component still owes its `done()` |
| `TickSpec.DrainedTickOpensIff` | src/org/simbrain/workspace/updator/WorkspaceUpdator.java:111-186 | once every component has been handed over and the pool has run every part, `await` returns exactly when every enabled component has at least one part |
| `Updator.Increment` | src/org/simbrain/workspace/updator/WorkspaceUpdator.java:335 | `time++` on a Java `int` adds one modulo 2^32, and below the maximum the result is larger |
| `Updator.Without` | src/org/simbrain/workspace/updator/WorkspaceUpdator.java:369-371 | removing an absent listener leaves the list as it was; otherwise exactly one occurrence goes (multiset difference) |
| `Updator.WithoutRemovesFirst` | src/org/simbrain/workspace/updator/WorkspaceUpdator.java:369-371 | the occurrence that goes is the first one; the listeners before and after it keep their order |
| `Updator.CouplingsOnceBeforeComponents` | src/org/simbrain/workspace/updator/WorkspaceUpdator.java:99-116 | with an empty snapshot, couplings are not updated and no component is handed over. Otherwise couplings are updated exactly once, before every `updateComponent` call, and, when they do not throw, components 0 to n-1 are handed over in snapshot order |
| `Updator.UpdatorThreadFactory.constructor` | src/org/simbrain/workspace/updator/WorkspaceUpdator.java:130 | thread numbering starts at 1 |
| `Updator.UpdatorThreadFactory.NewThread` | src/org/simbrain/workspace/updator/WorkspaceUpdator.java:137-141 | each new thread gets the current number, and the next thread gets the one after it |
| `Updator.ThreadPool.constructor` | src/org/simbrain/workspace/updator/WorkspaceUpdator.java:216 | a fixed pool of the given size, built with the given thread factory |
| `Updator.WorkspaceUpdator.constructor` | src/org/simbrain/workspace/updator/WorkspaceUpdator.java:210-219 | `time` is 0 and `run` is clear; `numThreads` and the new pool's size are the thread count; the factory starts at 1; the no-op synchronization manager is installed; there are no listeners, no queued jobs and no notifications |
| `Updator.WorkspaceUpdator.SetTaskSynchronizationManager` | src/org/simbrain/workspace/updator/WorkspaceUpdator.java:226-232 | null installs the manager whose hooks do nothing; any other manager is installed as given |
| `Updator.WorkspaceUpdator.Stop` | src/org/simbrain/workspace/updator/WorkspaceUpdator.java:272-274 | clears `run` and nothing else |
| `Updator.WorkspaceUpdator.Run` | src/org/simbrain/workspace/updator/WorkspaceUpdator.java:288-308 | sets `run` and queues one driver loop |
| `Updator.WorkspaceUpdator.RunOnce` | src/org/simbrain/workspace/updator/WorkspaceUpdator.java:313-329 | queues one single-tick job and leaves `run` as it was |
| `Updator.WorkspaceUpdator.StartJob` | src/org/simbrain/workspace/updator/WorkspaceUpdator.java:291-293 | the oldest queued job starts and calls `queueTasks` first |
| `Updator.WorkspaceUpdator.ExitJob` | src/org/simbrain/workspace/updator/WorkspaceUpdator.java:304-305 | a leaving job calls `releaseTasks` and then `runTasks` |
| `Updator.WorkspaceUpdator.BeginTick` | src/org/simbrain/workspace/updator/WorkspaceUpdator.java:98-111 | `time` goes up by one before the controller runs, in every case. An empty snapshot ends the controller and `doUpdate` calls `runTasks`. If the coupling update throws, `runTasks` is skipped. Otherwise a couplings notification carrying the incremented `time` is queued and a tick signal sized to the snapshot is created |
| `Updator.WorkspaceUpdator.UpdateComponent` | src/org/simbrain/workspace/updator/WorkspaceUpdator.java:161-187 | hands the next component over: the barrier becomes `HandOver` of the old one, and each part is submitted by the loop |
| `Updator.WorkspaceUpdator.HandOverAll` | src/org/simbrain/workspace/updator/WorkspaceUpdator.java:114-116 | the controller's loop hands every component of the snapshot to `updateComponent`, in order |
| `Updator.WorkspaceUpdator.ExecutePart` | src/org/simbrain/workspace/updator/WorkspaceUpdator.java:171-185 | a pool thread runs one pending part: the barrier becomes `RunPart` of the old one |
| `Updator.WorkspaceUpdator.FinishTick` | src/org/simbrain/workspace/updator/WorkspaceUpdator.java:117-118 | `await` returns once the tick signal is at zero; by then no part is pending, and `doUpdate` then calls `runTasks` |
| `Updator.WorkspaceUpdator.RunPendingParts` | src/org/simbrain/workspace/updator/WorkspaceUpdator.java:184-186 | once the pool has run every submitted part, in any order, the tick signal is at zero exactly when every enabled component has at least one part |
| `Updator.WorkspaceUpdator.CompleteTick` | src/org/simbrain/workspace/updator/WorkspaceUpdator.java:113-118 | after the loop and the pool, `await` returns (and `runTasks` follows) exactly when every enabled component has a part; otherwise the tick stays open with a positive count and nothing left to run |
| `Updator.WorkspaceUpdator.DoUpdate` | src/org/simbrain/workspace/updator/WorkspaceUpdator.java:334-344 | `time` rises by exactly one, even on an empty tick. The controller's calls are `getComponents`, then couplings once and every component in order. The tick completes exactly when the snapshot is empty, the couplings throw, or every enabled component has a part. The hook and notification effects are as above |
| `Updator.WorkspaceUpdator.RunOnceJob` | src/org/simbrain/workspace/updator/WorkspaceUpdator.java:313-329 | a completed single-tick job makes the hook calls `queueTasks, runTasks, releaseTasks, runTasks`, or `queueTasks, releaseTasks, runTasks` when the controller threw, and never touches `run` |
| `Updator.WorkspaceUpdator.NotifyUpdateStarted` | src/org/simbrain/workspace/updator/WorkspaceUpdator.java:379-389 | queues a "starting component update" notification carrying `time` as read at the call |
| `Updator.WorkspaceUpdator.NotifyUpdateFinished` | src/org/simbrain/workspace/updator/WorkspaceUpdator.java:397-407 | queues a "finished component update" notification carrying `time` as read at the call |
| `Updator.WorkspaceUpdator.NotifyCouplingsUpdated` | src/org/simbrain/workspace/updator/WorkspaceUpdator.java:412-422 | queues an "updated couplings" notification carrying `time` as read at the call |
| `Updator.WorkspaceUpdator.DeliverEvent` | src/org/simbrain/workspace/updator/WorkspaceUpdator.java:382-388 | the oldest notification reaches every registered listener once, in list order, and leaves the queue |
| `Updator.WorkspaceUpdator.AddListener` | src/org/simbrain/workspace/updator/WorkspaceUpdator.java:351-353 | appends the listener |
| `Updator.WorkspaceUpdator.RemoveListener` | src/org/simbrain/workspace/updator/WorkspaceUpdator.java:369-371 | removes the first occurrence of the listener, if any |
| `Updator.WorkspaceUpdator.SetNumThreads` | src/org/simbrain/workspace/updator/WorkspaceUpdator.java:436-446 | `run` is cleared and `numThreads` set in every case. For n >= 1 a new pool of size n with a new factory starting at 1 replaces the old one, and every listener is told once, in list order. For n < 1 the pool constructor throws: the old pool stays and no listener hears of it |
| `Randomizers.MirrorTwice` | src/org/simbrain/util/randomizer/Randomizer.java:95-97 | mirroring twice restores the original parameters |
| `Randomizers.MirrorKeepsOrder` | src/org/simbrain/util/randomizer/Randomizer.java:95-97 | lower <= upper before mirroring exactly when it holds after |
| `Randomizers.Randomizer.constructor` | src/org/simbrain/util/randomizer/Randomizer.java:39-66 | a fresh randomizer is uniform with bounds [-1, 1], mean 0.5, standard deviation 0.5 and no clipping |
| `Randomizers.Randomizer.Copy` | src/org/simbrain/util/randomizer/Randomizer.java:74-80 | the copy constructor as written yields the default parameters whatever `dup` holds |
| `Randomizers.Randomizer.CopyOf` | src/org/simbrain/util/randomizer/Randomizer.java:68-74 | the copy constructor as its documentation describes it: the copy has exactly `dup`'s parameters |
| `Randomizers.Randomizer.MirrorCopy` | src/org/simbrain/util/randomizer/Randomizer.java:92-101 | a fresh randomizer with lower = -upper, upper = -lower and mean = -mean; distribution, standard deviation and clipping are copied |
| `Randomizers.Randomizer.Clip` | src/org/simbrain/util/randomizer/Randomizer.java:129-139 | the result is the value or one of the bounds. With ordered bounds it lies between them, and a value already inside is returned unchanged. Any value above the upper bound gives the upper bound, even with misordered bounds. A value at most the upper bound and below the lower bound gives the lower bound. Together these fix the result for every input |
| `Randomizers.Randomizer.DistributionName` | src/org/simbrain/util/randomizer/Randomizer.java:202-208 | "Gaussian" exactly when the index is 1, "Uniform" for every other index; on indices 0 and 1 it agrees with the label list |
| `Randomizers.Randomizer.SetDistributionIndex` | src/org/simbrain/util/randomizer/Randomizer.java:213-215 | changes the distribution index and no other parameter |
| `Randomizers.Randomizer.SetLowerBound` | src/org/simbrain/util/randomizer/Randomizer.java:227-229 | changes the lower bound and no other parameter |
| `Randomizers.Randomizer.SetUpperBound` | src/org/simbrain/util/randomizer/Randomizer.java:241-243 | changes the upper bound and no other parameter |
| `Randomizers.Randomizer.SetMean` | src/org/simbrain/util/randomizer/Randomizer.java:151-153 | changes the mean and no other parameter |
| `Randomizers.Randomizer.SetStandardDeviation` | src/org/simbrain/util/randomizer/Randomizer.java:165-167 | changes the standard deviation and no other parameter |
| `Randomizers.Randomizer.SetClipping` | src/org/simbrain/util/randomizer/Randomizer.java:179-181 | changes the clipping flag and no other parameter |
| `Randomizers.ClipIdempotent` | src/org/simbrain/util/randomizer/Randomizer.java:129-139 | with ordered bounds, clipping a clipped value changes nothing |
| `Randomizers.ClipFlipsWhenMisordered` | src/org/simbrain/util/randomizer/Randomizer.java:132-136 | with lower > upper, clipping is not idempotent: the upper bound clips to the lower bound and back |
| `Randomizers.CopyDropsLowerBound` | src/org/simbrain/util/randomizer/Randomizer.java:74-80 | a randomizer with lower bound 0 copied by the copy constructor gives a copy with lower bound -1 |
| `GuiComponents.IndexOf` | src/org/simbrain/workspace/gui/GuiComponent.java:219 | the index found is the first occurrence of the pattern; none is found only when there is no occurrence |
| `GuiComponents.GuiComponent.GetName` | src/org/simbrain/workspace/gui/GuiComponent.java:195-197 | "null" without a workspace component, otherwise that component's name |
| `GuiComponents.GuiComponent.GetSimpleName` | src/org/simbrain/workspace/gui/GuiComponent.java:216-222 | a name not ending in "Component" is unchanged. Otherwise the first occurrence of "Component" is removed, wherever it is, and the result is 9 characters shorter |
| `GuiComponents.SimpleNameStripsSoleSuffix` | src/org/simbrain/workspace/gui/GuiComponent.java:216-222 | when "Component" occurs only as the suffix, the simple name is the name without it |
| `GuiComponents.NetworkComponentIsNetwork` | src/org/simbrain/workspace/gui/GuiComponent.java:210-222 | "NetworkComponent" becomes "Network" |
| `GuiComponents.LeadingOccurrenceRemoved` | src/org/simbrain/workspace/gui/GuiComponent.java:219 | "ComponentXComponent" becomes "XComponent", not "ComponentX" |

## Left out

- **Threads.** The `updates`, `service` and `events` executors, their threads, blocking `await` and `volatile` visibility are replaced by explicit queues, a bag of pending parts and step methods.
- **Concurrent `done()` calls.** Each `done()` is atomic in the model. So the model cannot show two parts that finish concurrently both reading count 0 and both signalling the tick (`WorkspaceUpdator.java:173-180`). It proves nothing about that race.
- **The `while (run)` driver loop.** It is not a blocking loop here. `Run` queues the job, and the job proceeds by `StartJob`, `DoUpdate` steps while `MayTick` holds, and `ExitJob` once `MayExit` holds.
- **A tick that never completes.** When an enabled component has no parts, `await` never returns. The model leaves the driver in the `Ticking` phase, with a positive tick count and nothing left to run.
- **Logging and exception output.** `LOGGER.trace` and `printStackTrace` are not modelled. An exception from the coupling update is a flag passed to `BeginTick` and `DoUpdate`.
- **Unseen collaborators.** `Workspace`, `CouplingManager`, `WorkspaceComponent`, `ComponentUpdatePart`, `LatchCompletionSignal` and `TaskSynchronizationManager` are not part of this model. Their stand-ins are:
  - a component is a name, an update-on flag and a part count;
  - a synchronization manager is an identity;
  - a listener is an identity;
  - the work done inside a part, including any `notifyUpdateStarted`/`notifyUpdateFinished` calls it makes, is not modelled.
- **Other controllers.** Custom update controllers and `getCurrentUpdatorName` are left out; only the default controller is modelled.
- **Delegating constructors.** The two shorter constructors take the thread count from `Runtime.availableProcessors()`, so they are left out.
- `Updator.WorkspaceUpdator.constructor`: requires a thread count of at least 1 instead of modelling the pool constructor's `IllegalArgumentException`.
- `Updator.UpdatorThreadFactory.NewThread`: thread numbers are unbounded integers; the wrap of Java's `int` after 2^31 - 1 threads is not modelled.
- **Getters.** `getTime`, `isRunning`, `getNumThreads` and `getListeners` are plain field reads. The first three are `GetTime`, `IsRunning` and `GetNumThreads`, with nothing to state.
- **`Randomizer.getRandom`.** It draws from `Math.random` and `nextGaussian` and does floating-point arithmetic. It is left out, as is the `Random` field.
- **Special `double` values.** The bounds, mean and standard deviation are `real`. NaN, the infinities and -0.0 are not modelled. In Java the setters accept `Double.POSITIVE_INFINITY`, and `clip` and `mirrorCopy` handle it exactly; `mirrorCopy` of a 0.0 bound gives -0.0, which the model identifies with 0.0.
- **The getters and `getFunctionList` of `Randomizer`.** They are field reads. The label list is the constant `FunctionList`.
- **The rest of `GuiComponent`.** Swing frames, file choosers, saving and dialogs are not modelled. `getClass().getSimpleName()` becomes the `className` field.
- **Context files.** `Sensor.java`, `DenseSensorMatrixEditor.java`, `AddSensorMatrixDialog.java`, `SubnetworkNode.java`, `HopfieldDialog.java`, `NewNeuronGroupAction.java` and `CopyAction.java` hold image conversion and UI glue. They are not part of this model.

## Findings

| source | as written | input that shows it | evidently intended | confidence | as-written member | corrected member |
|---|---|---|---|---|---|---|
| src/org/simbrain/util/randomizer/Randomizer.java:74-80 | the copy constructor sets each field from the new object's own getters and never reads `dup`; the distribution index is not copied at all | copy a randomizer whose lower bound was set to 0: the copy's lower bound is -1 | the copy duplicates `dup`, as the constructor's documentation says (lines 68-73) | not executed | `Randomizers.Randomizer.Copy` (witness `Randomizers.CopyDropsLowerBound`) | `Randomizers.Randomizer.CopyOf` |

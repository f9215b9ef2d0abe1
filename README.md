# Activity lifecycle and output accumulator of a BPMN engine, in Dafny

This project models two pieces of a token-based process engine.

**The activity lifecycle** (`lib/tasks/task-activity.js`) is the state machine of one flow node. A token taken on an inbound flow makes the activity enter, emit `start`, and hand an execution context to its execute behaviour. The completion callback then either emits `error` or completes. Completing means: emit `end`, take the outbound flows, and schedule `leave` for a later turn. A token discarded on an inbound flow makes the activity enter, discard every outbound flow and leave at once. The control handle `getApi` builds for one execution offers `cancel`, `discard` and `stop`.

**The output accumulator** (`lib/io/ElementPropertyIo.js`) holds one result cell. `setOutputValue` fills it field by field, `setResult` replaces it, `getOutput` reads it, and `save` commits it to the environment.

Files and modules:

- `jsvalue.dfy` (`JsValue`): JavaScript values, truthiness, property reads, and `Object.assign` on plain objects.
- `activity_execution.dfy` (`ActivityExecution`): an abstract execution context. It holds the stop flag, the outcome of `takeAllOutbound()`, the loop marker, the signal, the child iterations, the context's own state and the values given to `setResult`.
- `task_activity.dfy` (`TaskActivity`): the class `Activity`, the pure state updates, the event trace, the control handle and the loop-event translator.
- `element_property_io.dfy` (`ElementPropertyIo`): the class `ActivityIO`, the environment's commit log, and the pure model of `setOutputValue`.
- `scenarios.dfy` (`Scenarios`): complete runs on fresh objects, each stating the exact trace or output it produces.

How the model is built:

- The activity's observable behaviour is one ordered trace. It holds the notifications (`enter`, `start`, `end`, `cancel`, `leave`, `error`) and the calls into collaborators: execute, the loop runner, `takeAllOutbound()` and each `flow.discard(root)`.
- `setImmediate` is a FIFO of pending notifications that `Tick` drains one per turn. The invariant `Activity.Valid()` states that every pending notification is a `leave` whose context has already emitted `end`. So `end` precedes its `leave`.
- The persisted state is a plain object (a map from property names to values). The code sets each flag to `true` or to `undefined`, and it tests flags by truthiness. The model does the same.

Where the code differs from what one might expect, the model follows the code:

- A canceled run ends with both `taken` and `canceled` set, provided nothing re-enters the activity while `cancel` runs (see "## Left out"). The flags are not mutually exclusive. Only the next `enter` clears both.
- The completion callback is not disarmed by `cancel`. A successful callback after a cancel emits a second `end` (`Scenarios.CompletedAfterCancel`). It schedules a second `leave` only if `takeAllOutbound()` reports outbound flows again on the stopped context. That answer comes from ActivityExecution, which the model does not include; the model fixes it per context (`takesOutbound`).
- On the loop path, `run` and `resume` emit no `start` of their own (lib/tasks/task-activity.js:59): the only `start`/`end` pairs are the iterations', and the final `end` comes from the completion callback (`Scenarios.ThreeIterations`).
- `emit` is synchronous, so a listener can use the handle while `run` is still on the stack. A `cancel` from an `enter` listener makes `end` come before `start` (`Scenarios.CanceledOnEnter`).
- The handle's `discard` calls `flow.discard` with no root flow.
- `resume` builds its context before it checks `entered`.

## Model

| member | source | states |
|---|---|---|
| `TaskActivity.Activity.constructor` | lib/tasks/task-activity.js:7-38 | the state is the given state (or `{}`) with `id` and `type` stamped on; the trace and the pending queue are empty; one listener registration per inbound flow |
| `TaskActivity.Activity.Activate` | lib/tasks/task-activity.js:40-45 | adds one registration per inbound flow, in a loop over the inbound flows; nothing else changes |
| `TaskActivity.Activity.Deactivate` | lib/tasks/task-activity.js:47-52 | removes one registration per inbound flow; removing an absent one is a no-op |
| `TaskActivity.Activity.Enter` | lib/tasks/task-activity.js:120-127 | new state is `EnterState` of the old one; exactly one `enter` is appended to the trace |
| `TaskActivity.EnterState` | lib/tasks/task-activity.js:120-124 | afterwards `entered` is truthy and `taken`/`canceled` are falsy, whatever they were; no other property changes |
| `TaskActivity.Activity.AfterEnter` | lib/tasks/task-activity.js:57-67 | with a loop, only the loop runner is started and no `start` is emitted; otherwise `start` is emitted, and execute is invoked and the API returned exactly when the context is not stopped at that moment |
| `TaskActivity.Activity.Launch` | lib/tasks/task-activity.js:56-67 | `enter`, then as `AfterEnter`: the loop runner, or `start` and execute unless stopped |
| `TaskActivity.Activity.Run` | lib/tasks/task-activity.js:54-68 | builds a fresh context from the message and inbound flow; then trace and state as `Launch`: `enter`, `start`, and `execute` only if not stopped; returns nothing when preempted |
| `TaskActivity.Activity.Resume` | lib/tasks/task-activity.js:70-87 | when the state was not entered: returns nothing, emits nothing, state unchanged; otherwise it behaves as `run` with a `null` message |
| `TaskActivity.Activity.RunLoop` | lib/tasks/task-activity.js:89-98 | the loop runner is started, or resumed exactly when the state holds loop progress; returns the runner's result |
| `TaskActivity.TranslateLoopEvent` | lib/tasks/task-activity.js:100-117 | runner `start`/`end` become the activity's `start`/`end` on the iteration's context; any other name yields nothing |
| `TaskActivity.TranslateLoopEventsAppend` | lib/tasks/task-activity.js:100-109 | translating a stream commutes with concatenation, so the order of events is kept |
| `TaskActivity.TranslateLoopEventsKeepsStartEnd` | lib/tasks/task-activity.js:100-117 | the translated stream holds only `start`/`end` notifications, each from a runner event of the same name and context, and every runner `start`/`end` appears |
| `TaskActivity.TranslateLoopEvents` | lib/tasks/task-activity.js:100-117 | each runner event yields at most one notification |
| `TaskActivity.Activity.OnLoopEvent` | lib/tasks/task-activity.js:100-117 | the trace grows by exactly the translation of the runner's event |
| `TaskActivity.Activity.OnLoopEvents` | lib/tasks/task-activity.js:100-117 | a series of runner events, fed one at a time, extends the trace by exactly the translation of the whole series, in order |
| `TaskActivity.Activity.GetState` | lib/tasks/task-activity.js:129-131 | the returned copy always carries `id` and `type`, and has the same properties and values as the state |
| `TaskActivity.Activity.OnInboundTaken` | lib/tasks/task-activity.js:133-135 | same as `run` with a `null` message on that flow |
| `TaskActivity.Activity.OnInboundDiscarded` | lib/tasks/task-activity.js:137-141 | trace is `enter`, one `discard(root)` per outbound flow in order, then `leave`; `entered` ends cleared |
| `TaskActivity.Activity.DiscardAllOutbound` | lib/tasks/task-activity.js:143-147 | loops over the outbound flows appending their discard calls in order, then clears `entered` and appends one synchronous `leave` |
| `TaskActivity.DiscardCalls` | lib/tasks/task-activity.js:144 | one `discard(root)` call per outbound flow |
| `TaskActivity.DiscardCallsInOrder` | lib/tasks/task-activity.js:144 | the i-th discard call goes to the i-th outbound flow, with the same root |
| `TaskActivity.DiscardCallsAppend` | lib/tasks/task-activity.js:144 | discarding one more flow appends exactly its own discard call after the earlier ones |
| `TaskActivity.DiscardCallsCount` | lib/tasks/task-activity.js:144 | each flow receives `discard(root)` exactly as many times as it is listed, so once for distinct flows |
| `TaskActivity.DiscardCallsSilent` | lib/tasks/task-activity.js:143-147 | discarding the outbound flows emits no notification, so never `start` or `end` |
| `TaskActivity.LeftState` | lib/tasks/task-activity.js:145 | `entered` cleared; `taken`, `canceled` and every other property kept |
| `TaskActivity.Activity.OnCompletion` | lib/tasks/task-activity.js:149-161 | with a truthy error: `entered` cleared, exactly one `error` emitted, no `end`, no outbound taken, nothing scheduled, `taken` unchanged; otherwise the values become the context's result and it completes |
| `TaskActivity.Activity.Complete` | lib/tasks/task-activity.js:163-173 | state becomes `CompletedState`; `end` then the outbound take are appended; `leave` is scheduled, never emitted inline, exactly when `takeAllOutbound()` is true |
| `TaskActivity.CompletedState` | lib/tasks/task-activity.js:164-167 | `entered` cleared and `taken` set; `canceled` and every other property kept |
| `TaskActivity.Activity.Tick` | lib/tasks/task-activity.js:229-232 | delivers the oldest scheduled notification to the trace; with nothing scheduled, nothing changes; `Valid()` (every scheduled `leave` follows its `end`) is kept |
| `TaskActivity.Activity.GetApi` | lib/tasks/task-activity.js:175-203 | handle names the activity and its context; loop marker as the context's; signal present exactly when truthy; `loop` present exactly when there are iterations, with one child handle per iteration in order |
| `TaskActivity.Activity.GetExecutingState` | lib/tasks/task-activity.js:205-207 | the activity's state overlaid with the context's state: the union of their properties, with the context's values winning |
| `TaskActivity.Activity.Cancel` | lib/tasks/task-activity.js:209-215 | `cancel` before `end`, outbound still taken; ends with `canceled` and `taken` both set; context stopped |
| `TaskActivity.CanceledState` | lib/tasks/task-activity.js:210-213 | after cancel the state is not entered and both taken and canceled, other properties kept |
| `TaskActivity.FlagsClearedOnlyOnEnter` | lib/tasks/task-activity.js:121-122 | completing and leaving keep `canceled`; cancel leaves both flags set; only a later enter clears both |
| `TaskActivity.Activity.Discard` | lib/tasks/task-activity.js:217-220 | context stopped; every outbound flow discarded without root, in order; `entered` cleared; one immediate `leave`; nothing scheduled |
| `TaskActivity.Activity.Stop` | lib/tasks/task-activity.js:222-225 | context stopped and every inbound registration removed |
| `TaskActivity.NotificationsAppend` | lib/tasks/task-activity.js:11 | the notifications of a concatenated trace are those of each part, in order |
| `JsValue.Assign` | lib/tasks/task-activity.js:206 | `Object.assign`: union of properties, the source's values overwrite |
| `ElementPropertyIo.ActivityIO.constructor` | lib/io/ElementPropertyIo.js:3-8 | `id` is the activity id, `type` is `"io:"` followed by its `$type`, and the output starts unset |
| `ElementPropertyIo.ActivityIO.GetOutput` | lib/io/ElementPropertyIo.js:24-26 | reads the result cell as it stands: `undefined` until something is set (constructor), exactly the value `setResult` stored, and unchanged by `save` |
| `ElementPropertyIo.ActivityIO.GetInput` | lib/io/ElementPropertyIo.js:20-22 | the input is the message, unchanged |
| `ElementPropertyIo.ActivityIO.SetOutputValue` | lib/io/ElementPropertyIo.js:28-31 | succeeds exactly when the result is falsy or an object; the new result is `WithOutputValue` of the old one; on failure the result is unchanged |
| `ElementPropertyIo.WithOutputValue` | lib/io/ElementPropertyIo.js:28-31 | a falsy cell becomes `{}` first; then the name holds the value and every other earlier field is kept; a truthy non-object throws |
| `ElementPropertyIo.OutputValuesCommute` | lib/io/ElementPropertyIo.js:28-31 | writes to two different names give the same result in either order |
| `ElementPropertyIo.LastOutputValueWins` | lib/io/ElementPropertyIo.js:30 | writing a name twice leaves only the second value |
| `ElementPropertyIo.OutputValuesAccumulate` | lib/io/ElementPropertyIo.js:28-31 | after any series of writes the result has the old fields plus all written names, and unwritten old fields keep their values |
| `ElementPropertyIo.OutputValuesLastWriteWins` | lib/io/ElementPropertyIo.js:28-31 | after any series of writes each written name holds the value of its last write |
| `ElementPropertyIo.ActivityIO.SetResult` | lib/io/ElementPropertyIo.js:37-39 | the output becomes exactly the given value, dropping earlier fields |
| `ElementPropertyIo.ActivityIO.Save` | lib/io/ElementPropertyIo.js:33-35 | the environment receives the current result, which is left unchanged |
| `Scenarios.TakenThenSucceeded` | lib/tasks/task-activity.js:133-172 | inbound taken, execute succeeds: `enter`, `start`, execute, `end`, outbound taken, and one turn later `leave` |
| `Scenarios.PreemptedRun` | lib/tasks/task-activity.js:61-64 | a context that is already stopped when it is built: `start` is still emitted, execute is never invoked, nothing is returned |
| `Scenarios.CanceledOnEnter` | lib/tasks/task-activity.js:54-64 | a `cancel` from an `enter` listener: `enter`, `cancel`, `end`, outbound taken, then `start`; execute never invoked, nothing returned, and `leave` a turn later |
| `Scenarios.FailedExecution` | lib/tasks/task-activity.js:152-155 | failure: one `error`, no `end`, no `leave`, `taken` not set |
| `Scenarios.CanceledWhileRunning` | lib/tasks/task-activity.js:209-215 | cancel in flight: `cancel`, `end`, outbound taken, `leave`; both flags set; context stopped |
| `Scenarios.CompletedAfterCancel` | lib/tasks/task-activity.js:152-172 | a success callback after cancel ends a second time |
| `Scenarios.DiscardedInbound` | lib/tasks/task-activity.js:137-147 | inbound discarded with root `R`: `enter`, `F2.discard(R)`, `leave`, and no `start`/`end` |
| `Scenarios.DiscardedByHandle` | lib/tasks/task-activity.js:217-220 | handle discard: outbound discarded without root, one `leave`, no `end` |
| `Scenarios.ResumeNeverEntered` | lib/tasks/task-activity.js:70-73 | resume of a never-entered state returns nothing, emits nothing, keeps the state |
| `Scenarios.ResumeEntered` | lib/tasks/task-activity.js:70-86 | resume of an entered state: `enter`, `start`, execute, with a `null` message |
| `Scenarios.ThreeIterations` | lib/tasks/task-activity.js:54-117 | a looped run: `enter` and the runner, no outer `start`; three iterations give three `start`/`end` pairs in order, other runner events dropped; then the success callback gives `end`, outbound taken, and `leave` a turn later |
| `Scenarios.StopTwice` | lib/tasks/task-activity.js:47-52 | after `stop` no inbound registration is left, and a second `stop` changes nothing |
| `Scenarios.OutputFieldsAccumulate` | lib/io/ElementPropertyIo.js:28-31 | `a=1` then `b=2` yields `{a: 1, b: 2}` |
| `Scenarios.SetResultReplacesFields` | lib/io/ElementPropertyIo.js:37-39 | a later `setResult(x)` makes the output exactly `x` |
| `Scenarios.FieldOnScalarResult` | lib/io/ElementPropertyIo.js:28-31 | a field cannot be stored on a scalar result; the result stays |
| `Scenarios.SaveTwice` | lib/io/ElementPropertyIo.js:33-35 | two saves with no set between them commit the same value |

## Left out

- Debug logging (`debug(...)`): it is diagnostic output only.
- Scheduling: `setImmediate` is a per-activity FIFO drained by `Tick`. Wall-clock timing and the interleaving with other activities' deferred tasks are not modelled.
- ActivityExecution internals: `activity-execution.js` is not part of this model. Its constructor's decisions are given as a `ContextSetup` value. A context's iterations are fixed when it is built, so iterations that the loop runner appends later are not modelled.
- TaskLoop: `task-loop.js` is not part of this model. Starting or resuming it is one trace entry, and its return value is the abstract `LoopOutcome`.
- The execute behaviour: invoking it is one trace entry. The caller of the model plays it by calling `OnCompletion` later, with an error or with values.
- TaskActivity.Activity.Launch: listeners of the activity's own notifications may call the handle's `cancel`, `discard` or `stop` while `run`/`resume` is still running, since `emit` is synchronous. `Run` and `Resume` do not interleave such calls. A stop before `isStopped()` is consulted is covered only by a context that is already stopped when it is built. A cancel from an `enter` listener is covered by calling `Enter`, `Cancel` and `AfterEnter` in turn (`Scenarios.CanceledOnEnter`).
- TaskActivity.Activity.Complete: `emit('end')` and `takeAllOutbound()` are modelled as one step that nothing re-enters. No listener calls the handle, and no outbound flow leads back to an inbound flow, whether directly or through other activities. The final-state and trace ensures hold only under that assumption. For example, an `end` listener that calls `discard` puts the discard calls and `leave` between `end` and the outbound take.
- TaskActivity.Activity.Cancel: the same assumption covers `emit('cancel')` and the nested `complete`. If `F2` leads back to `F1`, taking the outbound flows re-enters the activity before `cancel` returns, and `taken`/`canceled` end cleared. The ensures `IsCanceled(state) && IsTaken(state)` holds only without such a cycle.
- TaskActivity.Activity.OnCompletion: it inherits the assumption from `Complete` on success, and `emit('error')` is likewise one step that nothing re-enters. The model also assumes the activity has at least one `error` listener. With none, the EventEmitter's `emit('error')` throws (the error itself, or a wrapping unhandled-error exception) after `entered` has been cleared, back into the execute behaviour that called the callback. The normal return of `OnCompletion` and its `Error` entry do not model that throw, and neither does `Scenarios.FailedExecution`.
- TaskActivity.Activity.DiscardAllOutbound: each `flow.discard(root)` is one step that nothing re-enters. A discard that travels back to an inbound flow would interleave that activity's own entries into the trace.
- EventEmitter mechanics: listeners are a multiset of per-flow registrations. Dispatching flow notifications to the handlers is not modelled. Neither are exceptions thrown by listeners.
- Form, formKey, getInput and getOutput on the handle (lib/tasks/task-activity.js:182-187): these only pass through to the context.
- Object identity: the state record and the result cell are values in the model. The code mutates the caller's state object in place, and `setOutputValue` mutates the object an earlier `getOutput` returned. That aliasing is not modelled.
- ElementPropertyIo.WithOutputValue: objects are plain maps with no prototype chain, so `__proto__` is treated as an ordinary key. In the code, `resultData["__proto__"] = value` goes through the `Object.prototype.__proto__` setter instead. That setter creates no own property: it ignores a primitive value and replaces the prototype for an object or `null`. For that one name, "the name is bound to the value" does not hold in the code.
- JsValue.Assign: for the same reason, `Object.assign` copying a `__proto__` key goes through that setter. The model treats it as an ordinary key.
- Numbers are integers: NaN (falsy) and fractions are not modelled.
- `environment.assignResult`: only the argument it received is recorded.
- A missing `outbound` list (`if (outbound)`) is modelled as an empty list.

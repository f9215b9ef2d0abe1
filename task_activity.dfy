/**
 * The activity lifecycle of a flow node: how a task reacts to tokens taken
 * or discarded on its inbound flows, enters, starts, runs its (external)
 * execute behaviour, completes, is canceled or discarded, and leaves.
 *
 * Every notification the activity emits, and every call it makes into its
 * collaborators, is appended to one ordered trace. The deferred `leave`
 * (scheduled with `setImmediate` in the JavaScript code) waits in a FIFO of
 * pending notifications until `Tick` delivers it.
 */
module TaskActivity {
  import opened JsValue
  import opened ActivityExecution

  /** One observable step, in the order it happened. */
  datatype Event =
    // notifications, emitted with the activity and an execution context
    | Enter(ctx: ExecutionContext)
    | Start(ctx: ExecutionContext)
    | End(ctx: ExecutionContext)
    | Cancel(ctx: ExecutionContext)
    | Leave(ctx: ExecutionContext)
    | Error(err: Value, ctx: ExecutionContext)
    // calls into collaborators
    | ExecuteCall(ctx: ExecutionContext)                   // execute(activityApi, ctx, callback)
    | LoopRun(ctx: ExecutionContext, resumed: bool)     // loop runner's execute (or resume from state)
    | TookOutbound(ctx: ExecutionContext)               // ctx.takeAllOutbound()
    | FlowDiscard(flow: FlowId, root: Option<FlowId>)   // flow.discard(rootFlow)

  predicate IsNotification(e: Event) {
    e.Enter? || e.Start? || e.End? || e.Cancel? || e.Leave? || e.Error?
  }

  /** The notifications of a trace, in order, without the collaborator calls. */
  function Notifications(t: seq<Event>): (r: seq<Event>)
    ensures |r| <= |t|
    ensures forall e :: e in r ==> IsNotification(e) && e in t
  {
    if t == [] then []
    else (if IsNotification(t[0]) then [t[0]] else []) + Notifications(t[1..])
  }

  lemma {:induction false} NotificationsAppend(a: seq<Event>, b: seq<Event>)
    ensures Notifications(a + b) == Notifications(a) + Notifications(b)
  {
    if a == [] {
      assert a + b == b;
    } else {
      assert (a + b)[1..] == a[1..] + b;
      NotificationsAppend(a[1..], b);
    }
  }

  /** What `run`/`resume` return: nothing, the activity API, or the loop runner's result. */
  datatype RunResult = NoReturn | ActivityApi | LoopOutcome

  /**
   * The control handle `getApi` builds for one execution context. The
   * handle's `cancel`, `discard`, `stop` and `getState` are the methods
   * Cancel, Discard, Stop and GetExecutingState of Activity applied to `ctx`.
   */
  datatype Handle = Handle(
    id: string,
    typeName: string,
    ctx: ExecutionContext,
    isLoopContext: bool,
    signal: Option<Value>,
    loop: Option<seq<Handle>>)

  // ---------------------------------------------------------------------
  // The persisted state record and the flag updates made on it
  // ---------------------------------------------------------------------

  type StateRecord = map<string, Value>

  predicate IsEntered(s: StateRecord) { Truthy(Get(s, "entered")) }
  predicate IsTaken(s: StateRecord) { Truthy(Get(s, "taken")) }
  predicate IsCanceled(s: StateRecord) { Truthy(Get(s, "canceled")) }

  predicate IsFlag(k: string) { k == "entered" || k == "taken" || k == "canceled" }

  /** `enter`: stale `taken`/`canceled` are cleared and `entered` is set. */
  function EnterState(s: StateRecord): (r: StateRecord)
    ensures IsEntered(r) && !IsTaken(r) && !IsCanceled(r)
    ensures r.Keys == s.Keys + {"entered"}
    ensures forall k :: !IsFlag(k) ==> Get(r, k) == Get(s, k)
  {
    var s1 := if IsTaken(s) then s["taken" := Undefined] else s;
    var s2 := if IsCanceled(s1) then s1["canceled" := Undefined] else s1;
    s2["entered" := Bool(true)]
  }

  /** Error callback and outbound discard: `entered` is cleared, nothing else. */
  function LeftState(s: StateRecord): (r: StateRecord)
    ensures !IsEntered(r)
    ensures IsTaken(r) == IsTaken(s) && IsCanceled(r) == IsCanceled(s)
    ensures forall k :: k != "entered" ==> Get(r, k) == Get(s, k)
  {
    s["entered" := Undefined]
  }

  /** `complete`: `entered` cleared, `taken` set, `canceled` kept as it was. */
  function CompletedState(s: StateRecord): (r: StateRecord)
    ensures !IsEntered(r) && IsTaken(r) && IsCanceled(r) == IsCanceled(s)
    ensures forall k :: k != "entered" && k != "taken" ==> Get(r, k) == Get(s, k)
  {
    s["entered" := Undefined]["taken" := Bool(true)]
  }

  /** The handle's `cancel` marks the state canceled, then completes it. */
  function CanceledState(s: StateRecord): (r: StateRecord)
    ensures !IsEntered(r) && IsTaken(r) && IsCanceled(r)
    ensures forall k :: !IsFlag(k) ==> Get(r, k) == Get(s, k)
  {
    CompletedState(s["canceled" := Bool(true)])
  }

  /**
   * `taken` and `canceled` are cleared only by entering: completing and
   * leaving keep `canceled`, so a canceled run ends with both flags set,
   * and only the next enter clears both.
   */
  lemma FlagsClearedOnlyOnEnter(s: StateRecord)
    requires IsCanceled(s)
    ensures IsCanceled(CompletedState(s)) && IsCanceled(LeftState(s))
    ensures IsTaken(CanceledState(s)) && IsCanceled(CanceledState(s))
    ensures !IsTaken(EnterState(CanceledState(s))) && !IsCanceled(EnterState(CanceledState(s)))
  {
  }

  // ---------------------------------------------------------------------
  // Pure pieces of the protocol
  // ---------------------------------------------------------------------

  /** The `flow.discard(root)` calls `discardAllOutbound` makes, one per flow in order. */
  function DiscardCalls(flows: seq<FlowId>, root: Option<FlowId>): (r: seq<Event>)
    ensures |r| == |flows|
  {
    if flows == [] then [] else [FlowDiscard(flows[0], root)] + DiscardCalls(flows[1..], root)
  }

  /** The i-th discard call goes to the i-th outbound flow, with the same root. */
  lemma {:induction false} DiscardCallsInOrder(flows: seq<FlowId>, root: Option<FlowId>)
    ensures forall i :: 0 <= i < |flows| ==> DiscardCalls(flows, root)[i] == FlowDiscard(flows[i], root)
  {
    if flows != [] {
      DiscardCallsInOrder(flows[1..], root);
      forall i | 1 <= i < |flows|
        ensures DiscardCalls(flows, root)[i] == FlowDiscard(flows[i], root)
      {
        assert flows[i] == flows[1..][i - 1];
      }
    }
  }

  lemma {:induction false} DiscardCallsAppend(flows: seq<FlowId>, f: FlowId, root: Option<FlowId>)
    ensures DiscardCalls(flows + [f], root) == DiscardCalls(flows, root) + [FlowDiscard(f, root)]
  {
    if flows != [] {
      assert (flows + [f])[1..] == flows[1..] + [f];
      DiscardCallsAppend(flows[1..], f, root);
    }
  }

  /** How often `y` occurs in a sequence with `x` in front. */
  lemma CountCons<T>(x: T, t: seq<T>, y: T)
    ensures multiset([x] + t)[y] == (if x == y then 1 else 0) + multiset(t)[y]
  {
  }

  /**
   * Every outbound flow receives `discard(root)` exactly as often as it is
   * listed among the outbound flows, so exactly once when they are distinct.
   */
  lemma {:induction false} DiscardCallsCount(flows: seq<FlowId>, root: Option<FlowId>, f: FlowId)
    ensures multiset(DiscardCalls(flows, root))[FlowDiscard(f, root)] == multiset(flows)[f]
  {
    if flows != [] {
      var head := FlowDiscard(flows[0], root);
      var tail := DiscardCalls(flows[1..], root);
      DiscardCallsCount(flows[1..], root, f);
      assert DiscardCalls(flows, root) == [head] + tail;
      assert flows == [flows[0]] + flows[1..];
      CountCons(head, tail, FlowDiscard(f, root));
      CountCons(flows[0], flows[1..], f);
    }
  }

  /** Discarding the outbound flows emits no notification. */
  lemma {:induction false} DiscardCallsSilent(flows: seq<FlowId>, root: Option<FlowId>)
    ensures Notifications(DiscardCalls(flows, root)) == []
  {
    if flows != [] {
      DiscardCallsSilent(flows[1..], root);
      NotificationsAppend([FlowDiscard(flows[0], root)], DiscardCalls(flows[1..], root));
    }
  }

  /**
   * The loop runner's event translator `emitter`: its `start` and `end`
   * become the activity's own, carried on the iteration's context; every
   * other event name is dropped.
   */
  function TranslateLoopEvent(name: string, loopExecution: ExecutionContext): (r: seq<Event>)
    ensures |r| <= 1
    ensures r == [] <==> name != "start" && name != "end"
    ensures forall e :: e in r ==> (e.Start? <==> name == "start") && (e.End? <==> name == "end") && e.ctx == loopExecution
  {
    if name == "start" then [Start(loopExecution)]
    else if name == "end" then [End(loopExecution)]
    else []
  }

  /** Translation of a whole stream of loop-runner events. */
  function TranslateLoopEvents(events: seq<(string, ExecutionContext)>): (r: seq<Event>)
    ensures |r| <= |events|
  {
    if events == [] then []
    else TranslateLoopEvent(events[0].0, events[0].1) + TranslateLoopEvents(events[1..])
  }

  /** Translation works event by event: it commutes with concatenating streams, so order is kept. */
  lemma {:induction false} TranslateLoopEventsAppend(a: seq<(string, ExecutionContext)>, b: seq<(string, ExecutionContext)>)
    ensures TranslateLoopEvents(a + b) == TranslateLoopEvents(a) + TranslateLoopEvents(b)
  {
    if a == [] {
      assert a + b == b;
    } else {
      assert (a + b)[1..] == a[1..] + b;
      TranslateLoopEventsAppend(a[1..], b);
    }
  }

  /**
   * The translated stream holds exactly the runner's `start` and `end`
   * events: each runner `start`/`end` appears as the activity's own
   * `start`/`end` on the same context, nothing else appears, and all of it
   * is notification.
   */
  lemma {:induction false} TranslateLoopEventsKeepsStartEnd(events: seq<(string, ExecutionContext)>)
    ensures forall e :: e in TranslateLoopEvents(events) ==>
      && (e.Start? || e.End?)
      && (e.Start? ==> ("start", e.ctx) in events)
      && (e.End? ==> ("end", e.ctx) in events)
    ensures forall i :: 0 <= i < |events| && events[i].0 == "start" ==> Start(events[i].1) in TranslateLoopEvents(events)
    ensures forall i :: 0 <= i < |events| && events[i].0 == "end" ==> End(events[i].1) in TranslateLoopEvents(events)
    ensures Notifications(TranslateLoopEvents(events)) == TranslateLoopEvents(events)
  {
    if events != [] {
      var head := TranslateLoopEvent(events[0].0, events[0].1);
      var tail := TranslateLoopEvents(events[1..]);
      TranslateLoopEventsKeepsStartEnd(events[1..]);
      NotificationsAppend(head, tail);
      assert TranslateLoopEvents(events) == head + tail;
      forall i | 1 <= i < |events|
        ensures events[i] == events[1..][i - 1]
      {
      }
      forall e | e in tail
        ensures (e.Start? ==> ("start", e.ctx) in events) && (e.End? ==> ("end", e.ctx) in events)
      {
      }
    }
  }

  /** Every scheduled notification is a `leave` whose context has already emitted `end`. */
  predicate LeavesFollowEnds(pending: seq<Event>, trace: seq<Event>) {
    forall i :: 0 <= i < |pending| ==> pending[i].Leave? && End(pending[i].ctx) in trace
  }

  /** Removing registrations one at a time removes them all. */
  lemma RemoveOneMore(m: multiset<FlowId>, removed: multiset<FlowId>, f: FlowId)
    ensures m - removed - multiset{f} == m - (removed + multiset{f})
  {
  }

  // ---------------------------------------------------------------------
  // The activity
  // ---------------------------------------------------------------------

  class Activity {
    const id: string
    const typeName: string
    const inbound: seq<FlowId>
    const outbound: seq<FlowId>
    /** Whether a loop (multi-instance) definition is configured. */
    const hasLoop: bool

    /** The persisted state record. */
    var state: StateRecord
    /** Everything emitted or called so far, in order. */
    var trace: seq<Event>
    /** Notifications scheduled with `setImmediate`, not yet delivered. */
    var pending: seq<Event>
    /** Registrations of this activity's listeners on its inbound flows. */
    var listeners: multiset<FlowId>

    /**
     * The state always carries the activity's id and type, and every
     * scheduled notification is the `leave` of a context whose `end` has
     * already been emitted.
     */
    ghost predicate Valid()
      reads this
    {
      && Get(state, "id") == Str(id)
      && Get(state, "type") == Str(typeName)
      && LeavesFollowEnds(pending, trace)
    }

    /** `TaskActivity(task, execute, state)`: stamp id and type onto the state, then activate. */
    constructor (id: string, typeName: string, inbound: seq<FlowId>, outbound: seq<FlowId>,
                 hasLoop: bool, initial: Option<StateRecord>)
      ensures Valid()
      ensures this.id == id && this.typeName == typeName && this.hasLoop == hasLoop
      ensures this.inbound == inbound && this.outbound == outbound
      ensures state == Assign(if initial.Some? then initial.value else map[], map["id" := Str(id), "type" := Str(typeName)])
      ensures trace == [] && pending == []
      ensures listeners == multiset(inbound)
    {
      this.id := id;
      this.typeName := typeName;
      this.inbound := inbound;
      this.outbound := outbound;
      this.hasLoop := hasLoop;
      state := Assign(if initial.Some? then initial.value else map[], map["id" := Str(id), "type" := Str(typeName)]);
      trace := [];
      pending := [];
      listeners := multiset{};
      new;
      Activate();
    }

    /** `activate`: listen for `taken` and `discarded` on every inbound flow. */
    method Activate()
      requires Valid()
      modifies this`listeners
      ensures Valid()
      ensures listeners == old(listeners) + multiset(inbound)
    {
      var i := 0;
      while i < |inbound|
        invariant 0 <= i <= |inbound|
        invariant listeners == old(listeners) + multiset(inbound[..i])
      {
        assert inbound[..i + 1] == inbound[..i] + [inbound[i]];
        listeners := listeners + multiset{inbound[i]};
        i := i + 1;
      }
      assert inbound[..i] == inbound;
    }

    /** `deactivate`: remove the listeners from every inbound flow; removing an absent one does nothing. */
    method Deactivate()
      requires Valid()
      modifies this`listeners
      ensures Valid()
      ensures listeners == old(listeners) - multiset(inbound)
    {
      var i := 0;
      while i < |inbound|
        invariant 0 <= i <= |inbound|
        invariant listeners == old(listeners) - multiset(inbound[..i])
      {
        assert inbound[..i + 1] == inbound[..i] + [inbound[i]];
        RemoveOneMore(old(listeners), multiset(inbound[..i]), inbound[i]);
        listeners := listeners - multiset{inbound[i]};
        i := i + 1;
      }
      assert inbound[..i] == inbound;
    }

    /** `getState`: a copy of the state record, which always names the activity. */
    function GetState(): (s: StateRecord)
      reads this
      requires Valid()
      ensures Get(s, "id") == Str(id) && Get(s, "type") == Str(typeName)
      ensures s.Keys == state.Keys && forall k :: k in s ==> s[k] == state[k]
    {
      state
    }

    /** `enter`: clear stale `taken`/`canceled`, set `entered`, emit `enter`. */
    method Enter(ctx: ExecutionContext)
      requires Valid()
      modifies this`state, this`trace
      ensures Valid()
      ensures state == EnterState(old(state))
      ensures trace == old(trace) + [Event.Enter(ctx)]
    {
      if IsTaken(state) {
        state := state["taken" := Undefined];
      }
      if IsCanceled(state) {
        state := state["canceled" := Undefined];
      }
      state := state["entered" := Bool(true)];
      trace := trace + [Event.Enter(ctx)];
    }

    /** `runLoop`: hand the context to the loop runner, resuming it when the state holds loop progress. */
    method RunLoop(ctx: ExecutionContext) returns (r: RunResult)
      requires Valid()
      modifies this`trace
      ensures Valid()
      ensures r == LoopOutcome
      ensures trace == old(trace) + [LoopRun(ctx, Truthy(Get(state, "loop")))]
    {
      trace := trace + [LoopRun(ctx, Truthy(Get(state, "loop")))];
      r := LoopOutcome;
    }

    /**
     * What `run` and `resume` do after `enter`: either delegate to the loop
     * runner (no outer `start`), or emit `start` and, unless the context has
     * been stopped by then (a racing cancel), invoke execute.
     */
    method AfterEnter(ctx: ExecutionContext) returns (r: RunResult)
      requires Valid()
      modifies this`trace
      ensures Valid()
      ensures hasLoop ==> r == LoopOutcome
      ensures hasLoop ==> trace == old(trace) + [LoopRun(ctx, Truthy(Get(state, "loop")))]
      ensures !hasLoop ==> r == (if ctx.stopped then NoReturn else ActivityApi)
      ensures !hasLoop ==> trace == old(trace) + [Start(ctx)] + (if ctx.stopped then [] else [ExecuteCall(ctx)])
    {
      if hasLoop {
        r := RunLoop(ctx);
        return;
      }
      trace := trace + [Start(ctx)];
      if ctx.stopped {
        return NoReturn;
      }
      trace := trace + [ExecuteCall(ctx)];
      r := ActivityApi;
    }

    /** What `run` and `resume` do once they hold a context: enter, then `AfterEnter`. */
    method Launch(ctx: ExecutionContext) returns (r: RunResult)
      requires Valid()
      modifies this`state, this`trace
      ensures Valid()
      ensures state == EnterState(old(state))
      ensures hasLoop ==> r == LoopOutcome
      ensures hasLoop ==> trace == old(trace) + [Event.Enter(ctx), LoopRun(ctx, Truthy(Get(old(state), "loop")))]
      ensures !hasLoop ==> r == (if ctx.stopped then NoReturn else ActivityApi)
      ensures !hasLoop ==> trace == old(trace) + [Event.Enter(ctx), Start(ctx)] + (if ctx.stopped then [] else [ExecuteCall(ctx)])
    {
      Enter(ctx);
      assert !IsFlag("loop");
      r := AfterEnter(ctx);
    }

    /** `run(message, inboundFlow)`: build a fresh context and launch it. */
    method Run(message: Value, inboundFlow: FlowId, setup: ContextSetup) returns (r: RunResult, ctx: ExecutionContext)
      requires Valid() && setup.WellFormed()
      modifies this`state, this`trace
      ensures Valid() && fresh(ctx) && ctx.Nested()
      ensures ctx.message == message && ctx.inboundFlow == Some(inboundFlow) && ctx.rootFlow == None
      ensures ctx.stopped == setup.stopped && ctx.takesOutbound == setup.takesOutbound && ctx.result == None
      ensures ctx.isLoopContext == setup.isLoopContext && ctx.signal == setup.signal
      ensures ctx.iterations == setup.iterations && ctx.ownState == setup.ownState
      ensures state == EnterState(old(state))
      ensures hasLoop ==> r == LoopOutcome
      ensures hasLoop ==> trace == old(trace) + [Event.Enter(ctx), LoopRun(ctx, Truthy(Get(old(state), "loop")))]
      ensures !hasLoop ==> r == (if setup.stopped then NoReturn else ActivityApi)
      ensures !hasLoop ==> trace == old(trace) + [Event.Enter(ctx), Start(ctx)] + (if setup.stopped then [] else [ExecuteCall(ctx)])
    {
      ctx := new ExecutionContext(message, Some(inboundFlow), None, setup);
      r := Launch(ctx);
    }

    /** `resume`: rebuild a context; do nothing more unless the state says the activity was entered. */
    method Resume(setup: ContextSetup) returns (r: RunResult, ctx: ExecutionContext)
      requires Valid() && setup.WellFormed()
      modifies this`state, this`trace
      ensures Valid() && fresh(ctx) && ctx.Nested()
      ensures ctx.message == Null && ctx.inboundFlow == None && ctx.rootFlow == None
      ensures ctx.stopped == setup.stopped && ctx.takesOutbound == setup.takesOutbound && ctx.result == None
      ensures ctx.isLoopContext == setup.isLoopContext && ctx.signal == setup.signal
      ensures ctx.iterations == setup.iterations && ctx.ownState == setup.ownState
      ensures !IsEntered(old(state)) ==> r == NoReturn && state == old(state) && trace == old(trace)
      ensures IsEntered(old(state)) ==> state == EnterState(old(state))
      ensures IsEntered(old(state)) && hasLoop ==> r == LoopOutcome
      ensures IsEntered(old(state)) && hasLoop ==>
        trace == old(trace) + [Event.Enter(ctx), LoopRun(ctx, Truthy(Get(old(state), "loop")))]
      ensures IsEntered(old(state)) && !hasLoop ==> r == (if setup.stopped then NoReturn else ActivityApi)
      ensures IsEntered(old(state)) && !hasLoop ==>
        trace == old(trace) + [Event.Enter(ctx), Start(ctx)] + (if setup.stopped then [] else [ExecuteCall(ctx)])
    {
      ctx := new ExecutionContext(Null, None, None, setup);
      if !IsEntered(state) {
        return NoReturn, ctx;
      }
      r := Launch(ctx);
    }

    /** `onInboundTaken(flow)`: a token without payload, i.e. `run(null, flow)`. */
    method OnInboundTaken(flow: FlowId, setup: ContextSetup) returns (ctx: ExecutionContext)
      requires Valid() && setup.WellFormed()
      modifies this`state, this`trace
      ensures Valid() && fresh(ctx) && ctx.Nested()
      ensures ctx.message == Null && ctx.inboundFlow == Some(flow) && ctx.rootFlow == None
      ensures ctx.stopped == setup.stopped && ctx.takesOutbound == setup.takesOutbound && ctx.result == None
      ensures ctx.isLoopContext == setup.isLoopContext && ctx.signal == setup.signal
      ensures ctx.iterations == setup.iterations && ctx.ownState == setup.ownState
      ensures state == EnterState(old(state))
      ensures hasLoop ==> trace == old(trace) + [Event.Enter(ctx), LoopRun(ctx, Truthy(Get(old(state), "loop")))]
      ensures !hasLoop ==> trace == old(trace) + [Event.Enter(ctx), Start(ctx)] + (if setup.stopped then [] else [ExecuteCall(ctx)])
    {
      var result: RunResult;
      result, ctx := Run(Null, flow, setup);
    }

    /** `discardAllOutbound`: discard every outbound flow in order, clear `entered`, emit `leave` at once. */
    method DiscardAllOutbound(ctx: ExecutionContext, root: Option<FlowId>)
      requires Valid()
      modifies this`state, this`trace
      ensures Valid()
      ensures state == LeftState(old(state))
      ensures trace == old(trace) + DiscardCalls(outbound, root) + [Leave(ctx)]
    {
      var i := 0;
      while i < |outbound|
        invariant 0 <= i <= |outbound|
        invariant state == old(state)
        invariant trace == old(trace) + DiscardCalls(outbound[..i], root)
      {
        assert outbound[..i + 1] == outbound[..i] + [outbound[i]];
        DiscardCallsAppend(outbound[..i], outbound[i], root);
        trace := trace + [FlowDiscard(outbound[i], root)];
        i := i + 1;
      }
      assert outbound[..i] == outbound;
      state := state["entered" := Undefined];
      trace := trace + [Leave(ctx)];
    }

    /** `onInboundDiscarded(flow, root)`: enter for observability, then propagate the discard. */
    method OnInboundDiscarded(flow: FlowId, root: Option<FlowId>, setup: ContextSetup) returns (ctx: ExecutionContext)
      requires Valid() && setup.WellFormed()
      modifies this`state, this`trace
      ensures Valid() && fresh(ctx) && ctx.Nested()
      ensures ctx.message == Null && ctx.inboundFlow == Some(flow) && ctx.rootFlow == root
      ensures ctx.stopped == setup.stopped && ctx.takesOutbound == setup.takesOutbound && ctx.result == None
      ensures ctx.isLoopContext == setup.isLoopContext && ctx.signal == setup.signal
      ensures ctx.iterations == setup.iterations && ctx.ownState == setup.ownState
      ensures state == LeftState(EnterState(old(state)))
      ensures trace == old(trace) + [Event.Enter(ctx)] + DiscardCalls(outbound, root) + [Leave(ctx)]
    {
      ctx := new ExecutionContext(Null, Some(flow), root, setup);
      Enter(ctx);
      DiscardAllOutbound(ctx, root);
    }

    /**
     * `complete`: clear `entered`, set `taken`, emit `end`, take the
     * outbound flows, and when there were any, schedule `leave` for a later
     * turn instead of emitting it.
     */
    method Complete(ctx: ExecutionContext)
      requires Valid()
      modifies this`state, this`trace, this`pending
      ensures Valid()
      ensures state == CompletedState(old(state))
      ensures trace == old(trace) + [End(ctx), TookOutbound(ctx)]
      ensures pending == old(pending) + (if ctx.takesOutbound then [Leave(ctx)] else [])
    {
      state := state["entered" := Undefined];
      state := state["taken" := Bool(true)];
      trace := trace + [End(ctx)];
      trace := trace + [TookOutbound(ctx)];
      if ctx.takesOutbound {
        pending := pending + [Leave(ctx)];
      }
    }

    /**
     * The completion callback `completeCallback(ctx)` hands to execute:
     * on an error (any truthy `err`), clear `entered` and emit `error` only;
     * otherwise record the values as the context's result and complete.
     */
    method OnCompletion(ctx: ExecutionContext, err: Value, values: seq<Value>)
      requires Valid()
      modifies this`state, this`trace, this`pending, ctx
      ensures Valid()
      ensures ctx.stopped == old(ctx.stopped)
      ensures Truthy(err) ==> state == LeftState(old(state))
      ensures Truthy(err) ==> trace == old(trace) + [Error(err, ctx)]
      ensures Truthy(err) ==> pending == old(pending) && ctx.result == old(ctx.result)
      ensures !Truthy(err) ==> state == CompletedState(old(state))
      ensures !Truthy(err) ==> trace == old(trace) + [End(ctx), TookOutbound(ctx)]
      ensures !Truthy(err) ==> pending == old(pending) + (if ctx.takesOutbound then [Leave(ctx)] else [])
      ensures !Truthy(err) ==> ctx.result == Some(values)
    {
      state := state["entered" := Undefined];
      if Truthy(err) {
        trace := trace + [Error(err, ctx)];
        return;
      }
      ctx.SetResult(values);
      Complete(ctx);
      assert state == CompletedState(old(state));
    }

    /**
     * The handle's `cancel`: mark canceled, emit `cancel`, complete (so the
     * outbound flows are still taken), then stop the context.
     */
    method Cancel(ctx: ExecutionContext)
      requires Valid()
      modifies this`state, this`trace, this`pending, ctx
      ensures Valid()
      ensures state == CanceledState(old(state))
      ensures IsCanceled(state) && IsTaken(state) && !IsEntered(state)
      ensures trace == old(trace) + [Event.Cancel(ctx), End(ctx), TookOutbound(ctx)]
      ensures pending == old(pending) + (if ctx.takesOutbound then [Leave(ctx)] else [])
      ensures ctx.stopped && ctx.result == old(ctx.result)
    {
      state := state["canceled" := Bool(true)];
      trace := trace + [Event.Cancel(ctx)];
      Complete(ctx);
      ctx.Stop();
    }

    /** The handle's `discard`: stop the context, then discard every outbound flow (no root). */
    method Discard(ctx: ExecutionContext)
      requires Valid()
      modifies this`state, this`trace, ctx
      ensures Valid()
      ensures state == LeftState(old(state))
      ensures trace == old(trace) + DiscardCalls(outbound, None) + [Leave(ctx)]
      ensures pending == old(pending)
      ensures ctx.stopped && ctx.result == old(ctx.result)
    {
      ctx.Stop();
      DiscardAllOutbound(ctx, None);
    }

    /** The handle's `stop`: stop the context and deactivate the activity. */
    method Stop(ctx: ExecutionContext)
      requires Valid()
      modifies this`listeners, ctx
      ensures Valid()
      ensures listeners == old(listeners) - multiset(inbound)
      ensures ctx.stopped && ctx.result == old(ctx.result)
    {
      ctx.Stop();
      Deactivate();
    }

    /** One turn of the scheduler: deliver the oldest scheduled notification, if any. */
    method Tick()
      requires Valid()
      modifies this`trace, this`pending
      ensures Valid()
      ensures old(pending) == [] ==> trace == old(trace) && pending == []
      ensures old(pending) != [] ==> trace == old(trace) + [old(pending)[0]] && pending == old(pending)[1..]
    {
      if pending != [] {
        trace := trace + [pending[0]];
        pending := pending[1..];
      }
    }

    /** The translator `emitter` the loop runner calls with its own events. */
    method OnLoopEvent(name: string, loopExecution: ExecutionContext)
      requires Valid()
      modifies this`trace
      ensures Valid()
      ensures trace == old(trace) + TranslateLoopEvent(name, loopExecution)
    {
      if name == "start" {
        trace := trace + [Start(loopExecution)];
      } else if name == "end" {
        trace := trace + [End(loopExecution)];
      }
    }

    /** The runner reporting a series of events, one `OnLoopEvent` call each, in order. */
    method OnLoopEvents(events: seq<(string, ExecutionContext)>)
      requires Valid()
      modifies this`trace
      ensures Valid()
      ensures trace == old(trace) + TranslateLoopEvents(events)
    {
      var i := 0;
      while i < |events|
        invariant 0 <= i <= |events|
        invariant Valid()
        invariant trace == old(trace) + TranslateLoopEvents(events[..i])
      {
        assert events[..i + 1] == events[..i] + [events[i]];
        var step := [events[i]];
        assert step[1..] == [];
        TranslateLoopEventsAppend(events[..i], step);
        OnLoopEvent(events[i].0, events[i].1);
        i := i + 1;
      }
      assert events[..i] == events;
    }

    /**
     * `getApi(ctx)`: the control handle for one execution; it names the
     * activity, marks loop contexts, carries a truthy signal, and when the
     * context has iterations, one child handle per iteration in order.
     */
    function GetApi(c: ExecutionContext): (h: Handle)
      requires c.Nested()
      decreases c.depth
      ensures h.id == id && h.typeName == typeName && h.ctx == c
      ensures h.isLoopContext == c.isLoopContext
      ensures h.signal.Some? <==> Truthy(c.signal)
      ensures h.signal.Some? ==> h.signal.value == c.signal
      ensures h.loop.Some? <==> |c.iterations| > 0
      ensures h.loop.Some? ==> |h.loop.value| == |c.iterations|
      ensures h.loop.Some? ==> forall i :: 0 <= i < |c.iterations| ==>
        && h.loop.value[i].ctx == c.iterations[i]
        && h.loop.value[i].id == id && h.loop.value[i].typeName == typeName
        && h.loop.value[i].isLoopContext == c.iterations[i].isLoopContext
    {
      var loop :=
        if |c.iterations| > 0 then
          Some(seq(|c.iterations|, i requires 0 <= i < |c.iterations| => GetApi(c.iterations[i])))
        else None;
      Handle(id, typeName, c, c.isLoopContext, if Truthy(c.signal) then Some(c.signal) else None, loop)
    }

    /** The handle's `getState`: the activity's state with the context's own state laid over it. */
    function GetExecutingState(c: ExecutionContext): (s: StateRecord)
      reads this
      ensures s.Keys == state.Keys + c.ownState.Keys
      ensures forall k :: k in c.ownState ==> s[k] == c.ownState[k]
      ensures forall k :: k in state && k !in c.ownState ==> s[k] == state[k]
    {
      Assign(state, c.ownState)
    }
  }
}

/**
 * Whole runs of the activity and of its output accumulator, built from
 * fresh objects: each method states the exact trace (or output) the run
 * produces. A task `T` has inbound flow `F1` and outbound flow `F2`.
 */
module Scenarios {
  import opened JsValue
  import opened ActivityExecution
  import opened TaskActivity
  import opened ElementPropertyIo

  /** A context without loop marker, signal, iterations or own state. */
  function PlainSetup(stopped: bool, takesOutbound: bool): (setup: ContextSetup)
    ensures setup.WellFormed() && setup.stopped == stopped && setup.takesOutbound == takesOutbound
  {
    ContextSetup(stopped, takesOutbound, false, Undefined, [], map[])
  }

  /** Task `T` with inbound `F1` and outbound `F2`, nothing emitted or scheduled yet. */
  method NewTask(hasLoop: bool) returns (a: Activity)
    ensures fresh(a) && a.Valid()
    ensures a.inbound == ["F1"] && a.outbound == ["F2"] && a.hasLoop == hasLoop
    ensures a.trace == [] && a.pending == [] && a.listeners == multiset{"F1"}
    ensures !IsEntered(a.state) && !IsTaken(a.state) && !IsCanceled(a.state) && !Truthy(Get(a.state, "loop"))
  {
    a := new Activity("T", "bpmn:Task", ["F1"], ["F2"], hasLoop, None);
  }

  /** Task `T` after `F1` was taken: entered, started, and execute invoked on context `c`. */
  method TakenTask() returns (a: Activity, c: ExecutionContext)
    ensures fresh(a) && a.Valid() && a.outbound == ["F2"] && !a.hasLoop
    ensures a.trace == [Enter(c), Start(c), ExecuteCall(c)] && a.pending == []
    ensures IsEntered(a.state) && !IsTaken(a.state) && !IsCanceled(a.state)
    ensures fresh(c) && c.takesOutbound && !c.stopped
  {
    a := NewTask(false);
    c := a.OnInboundTaken("F1", PlainSetup(false, true));
  }

  /** `F1` is taken and execute succeeds: enter, start, end, then (a turn later) leave. */
  method TakenThenSucceeded() returns (c: ExecutionContext, t: seq<Event>)
    ensures t == [Enter(c), Start(c), ExecuteCall(c), End(c), TookOutbound(c), Leave(c)]
  {
    var a;
    a, c := TakenTask();
    a.OnCompletion(c, Undefined, []);
    assert a.trace == [Enter(c), Start(c), ExecuteCall(c), End(c), TookOutbound(c)];
    assert a.pending == [Leave(c)];
    a.Tick();
    t := a.trace;
  }

  /** A context built already stopped: `start` is still emitted, but execute is never invoked. */
  method PreemptedRun() returns (r: RunResult, c: ExecutionContext, t: seq<Event>)
    ensures r == NoReturn
    ensures t == [Enter(c), Start(c)]
  {
    var a := NewTask(false);
    r, c := a.Run(Null, "F1", PlainSetup(true, true));
    t := a.trace;
  }

  /** Execute fails: one `error`, no `end`, no outbound taken, `taken` not set, nothing scheduled. */
  method FailedExecution(err: Value) returns (c: ExecutionContext, t: seq<Event>, s: StateRecord)
    requires Truthy(err)
    ensures t == [Enter(c), Start(c), ExecuteCall(c), Error(err, c)]
    ensures !IsEntered(s) && !IsTaken(s) && !IsCanceled(s)
  {
    var a;
    a, c := TakenTask();
    a.OnCompletion(c, err, []);
    a.Tick();
    t := a.trace;
    s := a.GetState();
  }

  /** Cancel while execute is in flight: `cancel` before `end`, outbound still taken, both flags set. */
  method CanceledWhileRunning() returns (c: ExecutionContext, t: seq<Event>, s: StateRecord)
    ensures t == [Enter(c), Start(c), ExecuteCall(c), Cancel(c), End(c), TookOutbound(c), Leave(c)]
    ensures IsCanceled(s) && IsTaken(s) && !IsEntered(s)
    ensures c.stopped
  {
    var a;
    a, c := TakenTask();
    a.Cancel(c);
    a.Tick();
    t := a.trace;
    s := a.GetState();
  }

  /**
   * The completion callback is not disarmed by cancel: if execute still
   * calls back with success, the activity ends, takes its outbound flows
   * and leaves a second time.
   */
  method CompletedAfterCancel() returns (c: ExecutionContext, t: seq<Event>)
    ensures t == [Enter(c), Start(c), ExecuteCall(c)]   // run
               + [Cancel(c), End(c), TookOutbound(c)]  // cancel
               + [End(c), TookOutbound(c)]             // the callback, after all
               + [Leave(c)] + [Leave(c)]               // two later turns
  {
    var a;
    a, c := TakenTask();
    a.Cancel(c);
    a.OnCompletion(c, Undefined, [Num(1)]);
    assert a.pending == [Leave(c), Leave(c)];
    a.Tick();
    a.Tick();
    t := a.trace;
  }

  /** `F1` is discarded with root `R`: enter, `F2.discard(R)`, leave at once; no start, no end. */
  method DiscardedInbound() returns (c: ExecutionContext, t: seq<Event>, s: StateRecord)
    ensures t == [Enter(c), FlowDiscard("F2", Some("R")), Leave(c)]
    ensures !IsEntered(s) && !IsTaken(s)
  {
    var a := NewTask(false);
    c := a.OnInboundDiscarded("F1", Some("R"), PlainSetup(false, true));
    t := a.trace;
    s := a.GetState();
  }

  /** The handle's `discard` during a run: every outbound flow discarded without root, one `leave`, no `end`. */
  method DiscardedByHandle() returns (c: ExecutionContext, t: seq<Event>)
    ensures t == [Enter(c), Start(c), ExecuteCall(c), FlowDiscard("F2", None), Leave(c)]
    ensures c.stopped
  {
    var a;
    a, c := TakenTask();
    a.Discard(c);
    a.Tick();
    t := a.trace;
  }

  /** Resuming from a state that was never entered does nothing at all. */
  method ResumeNeverEntered() returns (r: RunResult, t: seq<Event>, s: StateRecord)
    ensures r == NoReturn && t == []
    ensures s == map["taken" := Bool(true), "id" := Str("T"), "type" := Str("bpmn:Task")]
  {
    var a := new Activity("T", "bpmn:Task", ["F1"], ["F2"], false, Some(map["taken" := Bool(true)]));
    var c;
    r, c := a.Resume(PlainSetup(false, true));
    t := a.trace;
    s := a.GetState();
  }

  /** Resuming from a state saved mid-execution enters and executes again, without message. */
  method ResumeEntered() returns (r: RunResult, c: ExecutionContext, t: seq<Event>)
    ensures r == ActivityApi
    ensures c.message == Null
    ensures t == [Enter(c), Start(c), ExecuteCall(c)]
  {
    var a := new Activity("T", "bpmn:Task", ["F1"], ["F2"], false, Some(map["entered" := Bool(true)]));
    r, c := a.Resume(PlainSetup(false, true));
    t := a.trace;
  }

  /**
   * A looped task with three iterations: the runner is started once, and
   * each iteration's `start`/`end` becomes the activity's own; other runner
   * events are dropped.
   */
  method ThreeIterations() returns (c: ExecutionContext, its: seq<ExecutionContext>, t: seq<Event>)
    ensures |its| == 3
    ensures t == [Enter(c), LoopRun(c, false)]                                                  // run
               + [Start(its[0]), End(its[0]), Start(its[1]), End(its[1]), Start(its[2]), End(its[2])]  // iterations
               + [End(c), TookOutbound(c), Leave(c)]                                                    // completion
  {
    var a := NewTask(true);
    c := a.OnInboundTaken("F1", PlainSetup(false, true));
    its := Iterations(a);
    Succeed(a, c);
    t := a.trace;
  }

  /** The runner calls back with success once its iterations are done; a turn later the activity leaves. */
  method Succeed(a: Activity, c: ExecutionContext)
    requires a.Valid() && a.pending == [] && c.takesOutbound
    modifies a`state, a`trace, a`pending, c
    ensures a.trace == old(a.trace) + [End(c), TookOutbound(c), Leave(c)]
  {
    a.OnCompletion(c, Undefined, []);
    a.Tick();
  }

  /** The runner runs three iterations, each reporting `start`, some other event, and `end`. */
  method Iterations(a: Activity) returns (its: seq<ExecutionContext>)
    requires a.Valid()
    modifies a`trace
    ensures a.Valid() && a.pending == old(a.pending)
    ensures |its| == 3
    ensures a.trace == old(a.trace) + [Start(its[0]), End(its[0]), Start(its[1]), End(its[1]), Start(its[2]), End(its[2])]
  {
    var i0 := Iteration(a, "timer");
    var i1 := Iteration(a, "wait");
    var i2 := Iteration(a, "leave");
    its := [i0, i1, i2];
  }

  /** The runner runs one iteration, reporting `start`, some other event, and `end`. */
  method Iteration(a: Activity, other: string) returns (it: ExecutionContext)
    requires a.Valid() && other != "start" && other != "end"
    modifies a`trace
    ensures a.Valid() && fresh(it)
    ensures a.pending == old(a.pending)
    ensures a.trace == old(a.trace) + [Start(it), End(it)]
  {
    it := new ExecutionContext(Null, None, None, ContextSetup(false, false, true, Undefined, [], map[]));
    var events := [("start", it), (other, it), ("end", it)];
    a.OnLoopEvents(events);
    var last := events[1..][1..];
    assert last == [("end", it)] && last[1..] == [];
    assert TranslateLoopEvents(last) == [End(it)];
    assert TranslateLoopEvents(events[1..]) == [End(it)];
  }

  /**
   * An `enter` listener cancels at once (the handle is reachable while
   * `run` is still on the stack): `end` and the outbound take come before
   * `start`, and execute is never invoked.
   */
  method CanceledOnEnter() returns (r: RunResult, c: ExecutionContext, t: seq<Event>)
    ensures r == NoReturn
    ensures t == [Enter(c)] + [Cancel(c), End(c), TookOutbound(c)] + [Start(c)] + [Leave(c)]
  {
    var a;
    a, c := EnteredTask();
    a.Cancel(c);
    assert c.stopped && a.pending == [Leave(c)];
    r := a.AfterEnter(c);
    a.Tick();
    t := a.trace;
  }

  /** Task `T` right after `enter` on a fresh context for `F1`, before `run` goes on. */
  method EnteredTask() returns (a: Activity, c: ExecutionContext)
    ensures fresh(a) && fresh(c) && a.Valid() && !a.hasLoop
    ensures a.trace == [Enter(c)] && a.pending == []
    ensures c.takesOutbound
  {
    a := NewTask(false);
    c := new ExecutionContext(Null, Some("F1"), None, PlainSetup(false, true));
    a.Enter(c);
  }

  /** `stop` unsubscribes from the inbound flows; a second `stop` changes nothing. */
  method StopTwice() returns (before: multiset<FlowId>, once: multiset<FlowId>, twice: multiset<FlowId>)
    ensures before == multiset{"F1"}
    ensures once == multiset{} && twice == multiset{}
  {
    var a := NewTask(false);
    before := a.listeners;
    var c := a.OnInboundTaken("F1", PlainSetup(false, true));
    a.Stop(c);
    once := a.listeners;
    a.Stop(c);
    twice := a.listeners;
  }

  /** `setOutputValue("a", 1)` then `setOutputValue("b", 2)` yields `{a: 1, b: 2}`. */
  method OutputFieldsAccumulate() returns (out: Value)
    ensures out == Obj(map["a" := Num(1), "b" := Num(2)])
  {
    var env := new Environment();
    var io := new ActivityIO("T", "bpmn:Task", env);
    var ok := io.SetOutputValue("a", Num(1));
    ok := io.SetOutputValue("b", Num(2));
    out := io.GetOutput();
  }

  /** A later `setResult(x)` replaces the named fields entirely. */
  method SetResultReplacesFields(x: Value) returns (out: Value)
    ensures out == x
  {
    var env := new Environment();
    var io := new ActivityIO("T", "bpmn:Task", env);
    var ok := io.SetOutputValue("a", Num(1));
    io.SetResult(x);
    out := io.GetOutput();
  }

  /** A scalar result cannot take a named field: the store fails and the result stays. */
  method FieldOnScalarResult() returns (ok: bool, out: Value)
    ensures !ok && out == Num(5)
  {
    var env := new Environment();
    var io := new ActivityIO("T", "bpmn:Task", env);
    io.SetResult(Num(5));
    ok := io.SetOutputValue("a", Num(1));
    out := io.GetOutput();
  }

  /** Two saves with no set in between commit the same value twice. */
  method SaveTwice() returns (committed: seq<Value>)
    ensures committed == [Obj(map["a" := Num(1)]), Obj(map["a" := Num(1)])]
  {
    var env := new Environment();
    var io := new ActivityIO("T", "bpmn:Task", env);
    var ok := io.SetOutputValue("a", Num(1));
    io.Save();
    io.Save();
    committed := env.committed;
  }
}

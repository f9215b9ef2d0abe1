/**
 * An abstract stand-in for the execution context that the activity core
 * receives from its external ActivityExecution collaborator. Only what the
 * core consults or changes is kept: the stop flag, the outcome of
 * `takeAllOutbound()`, the loop marker, the external signal, the child
 * iteration contexts, the context's own state snapshot, and the values the
 * completion callback hands to `setResult`.
 */
module ActivityExecution {
  import opened JsValue

  type FlowId = string

  /** What the external constructor decides about a context it builds. */
  datatype ContextSetup = ContextSetup(
    stopped: bool,
    takesOutbound: bool,
    isLoopContext: bool,
    signal: Value,
    iterations: seq<ExecutionContext>,
    ownState: map<string, Value>)
  {
    /** Every child iteration context is itself a well-nested context. */
    predicate WellFormed() {
      forall i :: 0 <= i < |iterations| ==> iterations[i].Nested()
    }
  }

  /** The greatest nesting depth among a sequence of contexts (0 for none). */
  function MaxDepth(cs: seq<ExecutionContext>): (d: nat)
    ensures forall i :: 0 <= i < |cs| ==> cs[i].depth <= d
  {
    if cs == [] then 0
    else
      var rest := MaxDepth(cs[1..]);
      assert forall i :: 1 <= i < |cs| ==> cs[i] == cs[1..][i - 1];
      if cs[0].depth > rest then cs[0].depth else rest
  }

  class ExecutionContext {
    /** The message that triggered this execution (`null` for a token without payload). */
    const message: Value
    /** The inbound flow that delivered the token, if any. */
    const inboundFlow: Option<FlowId>
    /** The root flow of the discard being propagated, if any. */
    const rootFlow: Option<FlowId>
    /** What `takeAllOutbound()` reports: whether there were outbound flows to take. */
    const takesOutbound: bool
    const isLoopContext: bool
    const signal: Value
    /** Child contexts, one per loop iteration, in iteration order. */
    const iterations: seq<ExecutionContext>
    /** What `getState()` of this context returns. */
    const ownState: map<string, Value>
    /** One more than the deepest child; bounds recursion over `iterations`. */
    const depth: nat

    var stopped: bool
    /** The values last passed to `setResult`, if it was called. */
    var result: Option<seq<Value>>

    /** Each child lies strictly deeper than its parent, all the way down. */
    predicate Nested()
      decreases depth
    {
      forall i :: 0 <= i < |iterations| ==>
        iterations[i].depth < depth && iterations[i].Nested()
    }

    constructor (message: Value, inboundFlow: Option<FlowId>, rootFlow: Option<FlowId>, setup: ContextSetup)
      requires setup.WellFormed()
      ensures Nested()
      ensures this.message == message && this.inboundFlow == inboundFlow && this.rootFlow == rootFlow
      ensures stopped == setup.stopped && takesOutbound == setup.takesOutbound
      ensures isLoopContext == setup.isLoopContext && signal == setup.signal
      ensures iterations == setup.iterations && ownState == setup.ownState
      ensures result == None
    {
      this.message := message;
      this.inboundFlow := inboundFlow;
      this.rootFlow := rootFlow;
      takesOutbound := setup.takesOutbound;
      isLoopContext := setup.isLoopContext;
      signal := setup.signal;
      iterations := setup.iterations;
      ownState := setup.ownState;
      depth := MaxDepth(setup.iterations) + 1;
      stopped := setup.stopped;
      result := None;
    }

    /** `stop()`: raise the stop flag; nothing else changes. */
    method Stop()
      modifies this
      ensures stopped && result == old(result)
    {
      stopped := true;
    }

    /** `setResult(...values)`: record the values the execution produced. */
    method SetResult(values: seq<Value>)
      modifies this
      ensures result == Some(values) && stopped == old(stopped)
    {
      result := Some(values);
    }
  }
}

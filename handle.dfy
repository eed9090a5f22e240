/** The Handle given to the host's event loop (src/runtime.rs:62-96, 144-148). */
module Handle {
  import opened Ids
  import opened Outcome
  import opened Runtime

  /** `resolve` (src/runtime.rs:69-76): queues a success outcome for `id`; if
      the dispatch loop is gone the send fails and is only logged. */
  method Resolve<D, C, O, E>(rt: PluginRuntime<D, C, O, E>, id: CallId, v: O)
    requires rt.Valid() && rt.handleAlive
    modifies rt`resultQueue
    ensures rt.Valid()
    ensures rt.resultQueue ==
      if rt.dispatching then old(rt.resultQueue) + [OpResult(id, Ok(v))] else old(rt.resultQueue)
  {
    if rt.dispatching {
      rt.resultQueue := rt.resultQueue + [OpResult(id, Ok(v))];
    }
  }

  /** `reject` (src/runtime.rs:78-85): queues a failure outcome for `id`; a
      failed send is only logged. */
  method Reject<D, C, O, E>(rt: PluginRuntime<D, C, O, E>, id: CallId, v: E)
    requires rt.Valid() && rt.handleAlive
    modifies rt`resultQueue
    ensures rt.Valid()
    ensures rt.resultQueue ==
      if rt.dispatching then old(rt.resultQueue) + [OpResult(id, Err(v))] else old(rt.resultQueue)
  {
    if rt.dispatching {
      rt.resultQueue := rt.resultQueue + [OpResult(id, Err(v))];
    }
  }

  /** `receive` (src/runtime.rs:87-95): the blocking receive on the call
      queue, at the moment it returns, which is when an envelope is queued or
      every call sender is gone. Envelopes come out in the order they were sent. */
  method Receive<D, C, O, E>(rt: PluginRuntime<D, C, O, E>) returns (r: Result<Envelope<D, C>, string>)
    requires rt.Valid() && rt.handleAlive
    requires rt.callQueue != [] || !rt.CallConnected()
    modifies rt`callQueue
    ensures rt.Valid()
    ensures old(rt.callQueue) != [] ==> r == Ok(old(rt.callQueue)[0]) && rt.callQueue == old(rt.callQueue)[1..]
    ensures old(rt.callQueue) == [] ==> r == Err(RECV_CLOSED) && rt.callQueue == []
  {
    if rt.callQueue == [] {
      r := Err(RECV_CLOSED);
    } else {
      r := Ok(rt.callQueue[0]);
      rt.callQueue := rt.callQueue[1..];
    }
  }

  /** The event loop returns (src/runtime.rs:144-148), dropping its Handle:
      the call receiver and one result sender go away. */
  method EndEventLoop<D, C, O, E>(rt: PluginRuntime<D, C, O, E>)
    requires rt.Valid()
    modifies rt`handleAlive
    ensures rt.Valid()
    ensures !rt.handleAlive
  {
    rt.handleAlive := false;
  }
}

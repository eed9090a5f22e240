/** The plugin proxy and its `execute` (src/lib.rs:34-62).

    `execute` registers a callback, sends the envelope, then blocks on the
    callback. In a sequential model the other units run while it blocks, so
    the call is two steps: `ExecuteBegin` (register, then send) and
    `ExecuteEnd` (the blocking receive, at the moment it returns). */
module Proxy {
  import opened Ids
  import opened Outcome
  import opened Errors
  import opened Runtime

  /** A proxy for one plugin. Its clone of the call sender and its reference
      to the correlation table are the shared ones of the runtime it belongs to. */
  datatype Plugin<D> = Plugin(pluginData: D)

  const ALREADY_REGISTERED: string := "call id already registered"

  /** `Dispatcher::register` (called at src/lib.rs:42-44; its body is not part
      of this model): inserts a pending entry for the freshly minted `id` and
      fails if that id is already known. A minted id (`Uuid::new_v4`,
      src/runtime.rs:27) is never the nil id. */
  method Register<D, C, O, E>(rt: PluginRuntime<D, C, O, E>, id: CallId) returns (r: Result<CallId, string>)
    requires rt.Valid() && !IsNil(id)
    modifies rt`table
    ensures rt.Valid()
    ensures r.Err? <==> id in old(rt.table) || id in rt.inbox
    ensures r.Ok? ==> r.value == id && rt.table == old(rt.table)[id := Mailbox(true)]
    ensures r.Err? ==> r.error == ALREADY_REGISTERED && rt.table == old(rt.table)
  {
    if id in rt.table || id in rt.inbox {
      return Err(ALREADY_REGISTERED);
    }
    rt.table := rt.table[id := Mailbox(true)];
    r := Ok(id);
  }

  /** The first two steps of `execute` (src/lib.rs:41-54), for a call id the
      proxy has just minted: register it, then send the envelope carrying that
      id and the caller's payload. A failed registration sends nothing; a
      failed send drops the callback, so the entry stays with no receiver. */
  method ExecuteBegin<D, C, O, E>(rt: PluginRuntime<D, C, O, E>, proxy: Plugin<D>, call: C, id: CallId)
    returns (r: Result<CallId, PluginError>)
    requires rt.Valid() && rt.liveProxies > 0 && !IsNil(id)
    modifies rt`table, rt`callQueue
    ensures rt.Valid()
    // registration failed: RuntimeError, no envelope
    ensures (id in old(rt.table) || id in old(rt.inbox)) ==>
      r == Err(RuntimeError(ALREADY_REGISTERED)) &&
      rt.table == old(rt.table) && rt.callQueue == old(rt.callQueue)
    // registered, but the event loop is gone: RuntimeError, no envelope
    ensures id !in old(rt.table) && id !in old(rt.inbox) && !rt.handleAlive ==>
      r == Err(RuntimeError(SEND_CLOSED)) &&
      rt.table == old(rt.table)[id := Mailbox(false)] && rt.callQueue == old(rt.callQueue)
    // registered, then sent: the envelope carries the registered id and the payload
    ensures id !in old(rt.table) && id !in old(rt.inbox) && rt.handleAlive ==>
      r == Ok(id) &&
      rt.table == old(rt.table)[id := Mailbox(true)] &&
      rt.callQueue == old(rt.callQueue) + [Envelope(proxy.pluginData, id, call)]
  {
    var callback := Register(rt, id);
    if callback.Err? {
      return Err(RuntimeError(callback.error));
    }
    if !rt.handleAlive {
      // the callback goes out of scope: the waiter's receiver is dropped
      rt.table := rt.table[id := Mailbox(false)];
      return Err(RuntimeError(SEND_CLOSED));
    }
    rt.callQueue := rt.callQueue + [Envelope(proxy.pluginData, callback.value, call)];
    r := Ok(id);
  }

  /** The last step of `execute` (src/lib.rs:55-60): the blocking receive on
      the callback returns once an outcome has been forwarded to it, or once
      its sender has left the table without sending. The first yields exactly
      the business result delivered; the second is a RuntimeError. */
  method ExecuteEnd<D, C, O, E>(rt: PluginRuntime<D, C, O, E>, id: CallId)
    returns (r: Result<Result<O, E>, PluginError>)
    requires rt.Valid()
    requires id in rt.inbox || id !in rt.table
    modifies rt`inbox
    ensures rt.Valid()
    ensures id in old(rt.inbox) ==>
      r == Ok(IntoResult(old(rt.inbox)[id])) && rt.inbox == old(rt.inbox) - {id}
    ensures id !in old(rt.inbox) ==>
      r == Err(RuntimeError(RECV_CLOSED)) && rt.inbox == old(rt.inbox)
  {
    if id !in rt.inbox {
      return Err(RuntimeError(RECV_CLOSED));
    }
    var res := rt.inbox[id];
    rt.inbox := rt.inbox - {id};
    r := Ok(IntoResult(res));
  }

  /** The proxy is dropped: its clone of the call sender goes away. `proxy`
      only names the clone being released; its data plays no part. */
  method DropProxy<D, C, O, E>(rt: PluginRuntime<D, C, O, E>, proxy: Plugin<D>)
    requires rt.Valid() && rt.liveProxies > 0
    modifies rt`liveProxies
    ensures rt.Valid()
    ensures rt.liveProxies == old(rt.liveProxies) - 1
  {
    rt.liveProxies := rt.liveProxies - 1;
  }
}

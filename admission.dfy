/** Plugin admission: `PluginRuntime::load_plugin` (src/runtime.rs:151-171).

    It checks that `run` has happened, builds the bootstrap call with
    `plugin_loader`, makes a proxy and runs the call through `execute`. Like
    `execute` it blocks, so it is split the same way. */
module Admission {
  import opened Ids
  import opened Outcome
  import opened Errors
  import opened Runtime
  import opened Proxy

  const RUN_FIRST: string := "run runtime first"

  /** Up to the blocking receive (src/runtime.rs:155-167): before `run` (no
      call sender or no table) it fails with FailedToLoad and sends nothing;
      otherwise it creates the proxy and sends the bootstrap call. An error
      from `execute` is passed on unchanged and the proxy is dropped. */
  method LoadPluginBegin<D, C, O, E>(rt: PluginRuntime<D, C, O, E>, plugin: D, id: CallId)
    returns (r: Result<CallId, PluginError>)
    requires rt.Valid() && !IsNil(id)
    modifies rt`table, rt`callQueue, rt`liveProxies
    ensures rt.Valid()
    ensures !old(rt.callSender) || !old(rt.subscribers) ==>
      r == Err(FailedToLoad(RUN_FIRST)) &&
      rt.table == old(rt.table) && rt.callQueue == old(rt.callQueue) &&
      rt.liveProxies == old(rt.liveProxies)
    ensures old(rt.callSender) && old(rt.subscribers) ==>
      && (r.Ok? <==> id !in old(rt.table) && id !in old(rt.inbox) && rt.handleAlive)
      && (r.Ok? ==>
            r.value == id &&
            rt.table == old(rt.table)[id := Mailbox(true)] &&
            rt.callQueue == old(rt.callQueue) + [Envelope(plugin, id, rt.pluginLoader(plugin))] &&
            rt.liveProxies == old(rt.liveProxies) + 1)
      && (r.Err? ==>
            rt.callQueue == old(rt.callQueue) && rt.liveProxies == old(rt.liveProxies))
      // the two `execute` failures, passed on as they are
      && (id in old(rt.table) || id in old(rt.inbox) ==>
            r == Err(RuntimeError(ALREADY_REGISTERED)) && rt.table == old(rt.table))
      && (id !in old(rt.table) && id !in old(rt.inbox) && !rt.handleAlive ==>
            r == Err(RuntimeError(SEND_CLOSED)) &&
            rt.table == old(rt.table)[id := Mailbox(false)])
  {
    if !rt.callSender {
      return Err(FailedToLoad(RUN_FIRST));
    }
    if !rt.subscribers {
      return Err(FailedToLoad(RUN_FIRST));
    }
    var loadingCall := rt.pluginLoader(plugin);
    var pl := Plugin(plugin);
    rt.liveProxies := rt.liveProxies + 1;
    r := ExecuteBegin(rt, pl, loadingCall, id);
    if r.Err? {
      DropProxy(rt, pl);
    }
  }

  /** The rest (src/runtime.rs:167-170): once the bootstrap call's outcome
      arrives, a business success hands out the proxy, a business failure
      becomes FailedToLoad with the error's text, and a transport error from
      `execute` is passed on unchanged. Only a success keeps the proxy alive. */
  method LoadPluginEnd<D, C, O, E>(rt: PluginRuntime<D, C, O, E>, plugin: D, id: CallId)
    returns (r: Result<Plugin<D>, PluginError>)
    requires rt.Valid() && rt.liveProxies > 0
    requires id in rt.inbox || id !in rt.table
    modifies rt`inbox, rt`liveProxies
    ensures rt.Valid()
    ensures id in old(rt.inbox) && old(rt.inbox)[id].RtOk? ==>
      r == Ok(Plugin(plugin)) && rt.liveProxies == old(rt.liveProxies)
    ensures id in old(rt.inbox) && old(rt.inbox)[id].RtErr? ==>
      r == Err(FailedToLoad(rt.errorText(old(rt.inbox)[id].err))) &&
      rt.liveProxies == old(rt.liveProxies) - 1
    ensures id !in old(rt.inbox) ==>
      r == Err(RuntimeError(RECV_CLOSED)) && rt.liveProxies == old(rt.liveProxies) - 1
    ensures rt.inbox == old(rt.inbox) - {id}
  {
    var pl := Plugin(plugin);
    var executed := ExecuteEnd(rt, id);
    match executed
    case Err(e) =>
      DropProxy(rt, pl);
      r := Err(e);
    case Ok(Ok(_)) =>
      r := Ok(pl);
    case Ok(Err(e)) =>
      DropProxy(rt, pl);
      r := Err(FailedToLoad(rt.errorText(e)));
  }
}

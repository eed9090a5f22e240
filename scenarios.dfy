/** Whole runs of the state machine: the repository's tests and other
    end-to-end runs, each driven step by step. */
module Scenarios {
  import opened Ids
  import opened Outcome
  import opened Errors
  import opened Runtime
  import opened Handle
  import opened Dispatch
  import opened Proxy
  import opened Admission

  /** A runtime that has run and admitted plugin "p1" through the host's
      answer to its bootstrap call (call id 1). */
  method StartWithPlugin()
    returns (rt: PluginRuntime<string, string, string, string>, p: Plugin<string>, boot: Envelope<string, string>)
    ensures fresh(rt) && rt.Valid()
    ensures boot == Envelope("p1", 1, "bootstrap p1")
    ensures p == Plugin("p1")
    ensures rt.callSender && rt.resultSender && rt.subscribers && rt.handleAlive && rt.dispatching
    ensures rt.callQueue == [] && rt.resultQueue == [] && rt.table == map[] && rt.inbox == map[]
    ensures rt.liveProxies == 1
  {
    rt := new PluginRuntime<string, string, string, string>((d: string) => "bootstrap " + d, (e: string) => e);
    rt.Run();
    var begun := LoadPluginBegin(rt, "p1", 1);
    assert rt.pluginLoader("p1") == "bootstrap p1";
    var received := Receive(rt);
    boot := received.value;
    Resolve(rt, boot.callId, "welcome");
    assert rt.resultQueue == [OpResult(1, Ok("welcome"))] && rt.table == map[1 := Mailbox(true)];
    var step := DispatchStep(rt);
    assert rt.inbox == map[1 := RtOk("welcome")] && rt.table == map[];
    var loaded := LoadPluginEnd(rt, "p1", 1);
    p := loaded.value;
  }

  /** Admission and then one business call (cf. the test at src/lib.rs:161-184):
      the bootstrap call and the business call reach the host unchanged, the
      host resolves both, and `execute` returns exactly the delivered value. */
  method RoundTrip()
    returns (hostSaw: seq<Envelope<string, string>>,
             answer: Result<Result<string, string>, PluginError>)
    ensures hostSaw == [Envelope("p1", 1, "bootstrap p1"), Envelope("p1", 2, "payload")]
    ensures answer == Ok(Ok("result"))
  {
    var rt, p, boot := StartWithPlugin();
    var sent := ExecuteBegin(rt, p, "payload", 2);
    var second := Receive(rt);
    Resolve(rt, second.value.callId, "result");
    assert rt.resultQueue == [OpResult(2, Ok("result"))];
    var step := DispatchStep(rt);
    answer := ExecuteEnd(rt, 2);
    hostSaw := [boot, second.value];
  }

  /** Admission before `run` fails with "run runtime first" and sends nothing
      (src/runtime.rs:155-160). */
  method LoadBeforeRun() returns (r: Result<CallId, PluginError>, queued: seq<Envelope<string, string>>)
    ensures r == Err(FailedToLoad("run runtime first"))
    ensures queued == []
  {
    var rt := new PluginRuntime<string, string, string, string>((d: string) => d, (e: string) => e);
    r := LoadPluginBegin(rt, "p1", 1);
    queued := rt.callQueue;
  }

  /** A bootstrap call the host rejects: `load_plugin` fails with FailedToLoad
      carrying the rejection's text (src/runtime.rs:167-170). */
  method RejectedBootstrap() returns (loaded: Result<Plugin<string>, PluginError>)
    ensures loaded == Err(FailedToLoad("unknown kind"))
  {
    var rt := new PluginRuntime<string, string, string, string>((d: string) => d, (e: string) => e);
    rt.Run();
    var begun := LoadPluginBegin(rt, "p1", 7);
    var call := Receive(rt);
    Reject(rt, call.value.callId, "unknown kind");
    var step := DispatchStep(rt);
    loaded := LoadPluginEnd(rt, "p1", 7);
  }

  /** The fatal broadcast: two calls pending, the host sends one nil-id failure
      "boom", both callers get that business failure, the loop ends and the
      table is empty (src/runtime.rs:120-132). Once the event loop has gone, a
      further call fails at the send with a RuntimeError. */
  method FatalBroadcast()
    returns (step: Step, a: Result<Result<string, string>, PluginError>,
             b: Result<Result<string, string>, PluginError>,
             later: Result<CallId, PluginError>)
    ensures step == Stopped(Broadcast)
    ensures a == Ok(Err("boom")) && b == Ok(Err("boom"))
    ensures later == Err(RuntimeError("sending on a closed channel"))
  {
    var rt, p, _ := StartWithPlugin();
    var sentA := ExecuteBegin(rt, p, "first", 2);
    assert rt.table == map[2 := Mailbox(true)];
    var sentB := ExecuteBegin(rt, p, "second", 3);
    assert rt.table == map[2 := Mailbox(true), 3 := Mailbox(true)];
    Reject(rt, NIL, "boom");
    assert rt.resultQueue == [OpResult(NIL, Err("boom"))];
    step := DispatchStep(rt);
    assert rt.inbox == map[2 := RtErr("boom"), 3 := RtErr("boom")];
    a := ExecuteEnd(rt, 2);
    b := ExecuteEnd(rt, 3);

    EndEventLoop(rt);
    later := ExecuteBegin(rt, p, "third", 4);
  }

  /** Resolving the same id twice: the second outcome finds no entry and the
      `unwrap` at src/runtime.rs:133 ends the dispatch loop. */
  method DoubleResolve() returns (first: Step, second: Step)
    ensures first == Continue
    ensures second == Stopped(UnknownId)
  {
    var rt := new PluginRuntime<string, string, string, string>((d: string) => d, (e: string) => e);
    rt.Run();
    var begun := LoadPluginBegin(rt, "p1", 1);
    Resolve(rt, 1, "welcome");
    Resolve(rt, 1, "welcome again");
    first := DispatchStep(rt);
    second := DispatchStep(rt);
  }

  /** The test at src/runtime.rs:179-190: run, then drop the runtime. With no
      call sender left the event loop's `receive` fails, so the event loop
      returns and drops the Handle; with no result sender left the dispatch
      loop's `recv` fails too, so both loops end. */
  method Shutdown() returns (recv: Result<Envelope<string, string>, string>, last: Step)
    ensures recv == Err("receiving on a closed channel")
    ensures last == Stopped(Disconnected)
  {
    var rt := new PluginRuntime<string, string, string, string>((d: string) => d, (e: string) => e);
    rt.Run();
    rt.Drop();
    recv := Receive(rt);
    EndEventLoop(rt);
    last := DispatchStep(rt);
  }

  /** The tests at src/loader.rs:52-87: after admission, dropping the proxies
      and then the loader's runtime ends both loops the same way. */
  method ShutdownAfterAdmission() returns (recv: Result<Envelope<string, string>, string>, last: Step)
    ensures recv == Err("receiving on a closed channel")
    ensures last == Stopped(Disconnected)
  {
    var rt, p, boot := StartWithPlugin();
    DropProxy(rt, p);
    rt.Drop();
    recv := Receive(rt);
    EndEventLoop(rt);
    last := DispatchStep(rt);
  }
}

# plao correlation runtime in Dafny

This project models the core of `plao`, a Rust library that lets a host process
call operations inside plugins and get each result back to the caller that
asked. Its parts are:

- the **runtime** (`PluginRuntime`): it owns the call queue, the result queue
  and the correlation table;
- the **Handle** given to the host's event loop;
- the **dispatch loop**: it routes each outcome to the caller waiting on its
  call id. An outcome tagged with the nil id is broadcast to every waiter;
- the **plugin proxy** and its `execute`;
- **admission** (`load_plugin`): a bootstrap call checks a plugin before its
  proxy is handed out;
- the **batch loader** (`load_plugins`);
- the **error type** (`PluginError`) and its `Display`.

The threads and channels only carry the logic, so the model is one sequential
state machine. One object, `Runtime.PluginRuntime`, holds all of its state.

- The runtime's own optional fields are booleans: event loop, call sender,
  result sender and table reference.
- The call queue and the result queue are sequences.
- The correlation table is a `map<CallId, Mailbox>`. A `Mailbox` is the sending
  half of one caller's reply channel. It records whether the caller still holds
  the receiving half.
- The outcomes delivered to callers and not yet read wait in `inbox`.
- Each other unit that holds a channel end has a liveness flag: the Handle
  (`handleAlive`) and the dispatch loop (`dispatching`). The live proxies are
  counted (`liveProxies`).

Each operation is one atomic method. A blocking receive is a step that happens
when it would return, which is when a message is queued or every sender is
gone. Its precondition says exactly that. `execute` blocks between its send and
its receive, and other units run in that gap, so it is two steps:
`ExecuteBegin` (register, then send) and `ExecuteEnd` (receive). `load_plugin`
is split the same way. The batch loader treats `open` and each `load_plugin`
as given functions. `Scenarios` drives complete runs step by step: admission
followed by a business call, the fatal broadcast, admission before `run`, a
rejected bootstrap, a double resolve, and shutdown both right after `run` and after
admission.

Behaviour of the code worth noting, all of it modelled as written:

- An outcome for an id with no table entry makes `remove(..).unwrap()` panic
  (src/runtime.rs:133), and the dispatch loop ends there. The model returns
  `Stopped(UnknownId)`, and `Scenarios.DoubleResolve` shows that resolving one
  id twice does this.
- A transport error inside `load_plugin`'s `execute` is passed on unchanged as
  a `RuntimeError` by `and_then` (src/runtime.rs:167). Only a business failure
  becomes `FailedToLoad`.
- The broadcast stops at the first send that fails. The drained entries not yet
  visited are dropped with the table's drain, so their callers get no outcome.
- `Drop` on the runtime releases only the runtime's own senders and its table
  reference (src/runtime.rs:54-60). The Handle and the proxies keep theirs. A
  pending call therefore keeps waiting while its entry stays in the table.
- After the broadcast, a new call fails at its send only if the event loop has
  also ended, because the call receiver belongs to the Handle and not to the
  dispatch loop.

## Model

| member | source | states |
|---|---|---|
| Outcome.IntoResult | src/runtime.rs:14-25 | The conversion keeps the tag: `RtOk` becomes `Ok` and `RtErr` becomes `Err`, each with the same payload. |
| Outcome.FromResult | src/runtime.rs:134-137 | The match before forwarding is undone by `IntoResult`: `IntoResult(FromResult(r)) == r`. |
| Outcome.FromIntoResult | src/runtime.rs:14-25 | The other half of the round trip: `FromResult(IntoResult(r)) == r`. |
| Errors.Display | src/lib.rs:111-125 | Each variant is rendered as its fixed prefix ("Failed to load plugin: ", "Invalid plugin: ", "Error occured while using plugin: "), then the detail, then a newline. `Parse` reads back exactly that variant and detail. |
| Errors.ParseOnlyDisplays | src/lib.rs:111-125 | Any text that `Parse` accepts is the `Display` of the error it yields. |
| Errors.DisplayInjective | src/lib.rs:104-125 | Two errors with the same display are equal. |
| Runtime.PluginRuntime.constructor | src/runtime.rs:40-52 | A new runtime has its event loop and bootstrap function. No sender and no table is set. |
| Runtime.PluginRuntime.Run | src/runtime.rs:99-110 | Later calls cannot run `run` again, because the event loop has been taken. Both senders and the table are set. The queues and the table start empty. The Handle and the dispatch loop are live. |
| Runtime.PluginRuntime.Drop | src/runtime.rs:54-60 | The call sender, the result sender and the table reference are cleared. No other field changes. |
| Handle.Resolve | src/runtime.rs:69-76 | Appends `{id, Ok(v)}` to the result queue while the dispatch loop is alive. Otherwise the queue is unchanged, because a failed send is only logged. |
| Handle.Reject | src/runtime.rs:78-85 | Appends `{id, Err(v)}` in the same way. |
| Handle.Receive | src/runtime.rs:87-95 | Returns the oldest queued envelope and removes it (FIFO). On an empty, disconnected queue it returns `Err("receiving on a closed channel")`. |
| Handle.EndEventLoop | src/runtime.rs:144-148 | When the event loop returns, its Handle is dropped. |
| Dispatch.SendToDrained | src/runtime.rs:121-130 | Each drained entry is visited at most once. All visited waiters before the first failed send receive the outcome. A failed send is always the last visit. If no send fails, every entry is visited. |
| Dispatch.BroadcastReachesAll | src/runtime.rs:120-132 | When every drained waiter still holds its receiver, every one of them receives the outcome. |
| Dispatch.DrainAndSend | src/runtime.rs:120-132 | The table ends empty. The inbox gains the outcome for exactly the visited waiters that were sent to, and for all pending waiters when all are still listening. |
| Dispatch.DispatchStep | src/runtime.rs:113-141 | An empty, disconnected queue stops the loop and changes nothing. A nil-id outcome empties the table and sends the same outcome to the drained waiters. An unknown id stops the loop (the `unwrap` panics). Any other id removes exactly its own entry and leaves every other entry unchanged. The outcome is forwarded with the same tag and payload, or the loop stops if the waiter is gone. |
| Dispatch.DispatchLoop | src/runtime.rs:111-143 | The loop runs until it has stopped, or until its receive would block. |
| Proxy.Register | src/lib.rs:42-47 | Registering inserts a live entry for the new id. It fails, leaving the table untouched, exactly when that id is already pending or holds an undelivered outcome. |
| Proxy.ExecuteBegin | src/lib.rs:41-54 | A failed registration returns `RuntimeError` and sends nothing. A failed send returns `RuntimeError("sending on a closed channel")`. Otherwise the registered entry is in the table before the envelope is sent, and the envelope carries that id and the caller's payload unchanged. |
| Proxy.ExecuteEnd | src/lib.rs:55-60 | Returns `Ok` of exactly the delivered business result and consumes it. Returns `RuntimeError("receiving on a closed channel")` if the entry left the table without a delivery. |
| Proxy.DropProxy | src/lib.rs:34-38 | Dropping a proxy releases its clone of the call sender. |
| Admission.LoadPluginBegin | src/runtime.rs:151-167 | Before `run` (call sender or table unset) it returns `FailedToLoad("run runtime first")` and sends nothing. Otherwise it sends the bootstrap envelope `plugin_loader(plugin)` with the registered id. An `execute` error is passed on as it is: `RuntimeError("call id already registered")` with the table untouched, or `RuntimeError("sending on a closed channel")` with a dead entry left for the id. In both cases the proxy is dropped. |
| Admission.LoadPluginEnd | src/runtime.rs:167-171 | A business success returns the proxy for that plugin. A business failure returns `FailedToLoad` with the error's text. A transport error is returned unchanged. Only success keeps the proxy. |
| Loader.Opened | src/loader.rs:28-30 | The names passed to `open` are never more than the source's names. |
| Loader.AdmittedNames | src/loader.rs:28-42 | Every admitted name passes the whole chain: it is not excluded, it opens, and it loads. |
| Loader.AdmittedMatchesNames | src/loader.rs:36-42 | There is one proxy per admitted name, in the same order. Each is the proxy `load_plugin` returned for that name's opened plugin. |
| Loader.AdmittedAreTheirPlugins | src/loader.rs:36-42 | When `load` is `load_plugin`, which returns the proxy for exactly the plugin it was given (src/runtime.rs:162-168), each proxy collected is the proxy for its admitted name's opened plugin. |
| Loader.AdmittedNoLonger | src/lib.rs:86-100 | The result is never longer than `plugins()`. |
| Loader.AdmittedNamesMembership | src/lib.rs:86-100 | A name is admitted if and only if it is listed, not excluded, opens, and loads. |
| Loader.AdmittedNamesSubsequence | src/loader.rs:28-42 | The admitted names are an order-preserving subsequence of the source's names. |
| Loader.OpenedMembership | src/lib.rs:87-88 | A name is passed to `open` if and only if it is listed and not excluded. An excluded name is never opened. |
| Loader.OpenedAppend | src/loader.rs:28-35 | Names are opened one at a time, in list order. |
| Loader.AdmittedAppend | src/lib.rs:89-99 | The result for a list is the result for its first part followed by the result for the rest. A failing name therefore drops only itself, and the remaining names are still processed. |
| Loader.FailingNameYieldsNothing | src/loader.rs:31-41 | A name that is excluded, fails to `open` or fails `load_plugin` contributes no proxy. |
| Loader.PluginLoader.constructor | src/loader.rs:18-23 | The loader holds the given source and runtime. |
| Loader.PluginLoader.Drop | src/loader.rs:10-15 | Takes the runtime out, leaving none, and runs the runtime's `Drop`, which clears its senders and table reference. No other runtime field can change. |
| Loader.PluginLoader.LoadPlugins | src/loader.rs:25-43 | Returns exactly `Admitted` over the source's names. The names passed to `open` are exactly `Opened`: the names that are not excluded, in order. |
| Loader.LoadsTheOnePlugin | src/loader.rs:52-69 | For the one-plugin test source with no excludes, exactly one proxy is produced. |
| Loader.ExcludingTheOnePlugin | src/loader.rs:71-87 | Excluding "test" produces no proxy and opens nothing. |
| Scenarios.StartWithPlugin | src/runtime.rs:151-171 | The host sees the bootstrap envelope `plugin_loader("p1")`. Its success admits proxy "p1" and leaves the table and the queues empty. |
| Scenarios.RoundTrip | src/lib.rs:161-184 | After admission, the payload reaches the host unchanged, and `execute` returns `Ok(Ok("result"))`, the host's answer. |
| Scenarios.LoadBeforeRun | src/runtime.rs:155-160 | `load_plugin` before `run` returns `FailedToLoad("run runtime first")` and queues nothing. |
| Scenarios.RejectedBootstrap | src/runtime.rs:167-170 | A rejected bootstrap call gives `FailedToLoad` carrying the rejection's text. |
| Scenarios.FatalBroadcast | src/runtime.rs:120-132 | With two calls pending, one nil-id failure "boom" reaches both as a business failure, and the loop stops. Once the event loop has ended, a new call fails at its send with `RuntimeError`. |
| Scenarios.DoubleResolve | src/runtime.rs:133 | A second outcome for an already delivered id stops the dispatch loop. |
| Scenarios.Shutdown | src/runtime.rs:179-190 | Once the runtime is dropped right after `run`, the event loop's `receive` fails with "receiving on a closed channel". The event loop ending then disconnects the dispatch loop, so both loops end. |
| Scenarios.ShutdownAfterAdmission | src/loader.rs:52-87 | After a plugin is admitted, dropping its proxy and then the runtime ends both loops the same way. |

## Left out

- Threads, async futures, tokio spawning and joining: the model is sequential. A blocking receive is a step whose precondition says it would return.
- Mutex locking and poisoning: the table's lock is not modelled. So the poisoned lock after the panic at src/runtime.rs:133 is not modelled either.
- `eprintln!` logging: it has no effect on state.
- UUID generation (src/runtime.rs:27): call ids are parameters. `Proxy.Register` rejects an id already known. The text of that rejection, "call id already registered", belongs to the model, because `Dispatcher::register` is not part of this model.
- `TypedBuilder` construction: it is replaced by a plain constructor. `Handle` cloning and the `tokio_utils` module are not part of this model.
- Reference counting of the table: the model never drops the table. A caller whose entry stays in the table waits forever.
- The two proxy shapes differ: `Plugin<C, R>` with a dispatcher (src/lib.rs:34-38) and `Plugin { plugin_data, .. }` (src/runtime.rs:162-166). The model uses the second shape, and its envelope carries the plugin data (src/runtime.rs:29-33).
- `PluginSource::open` takes `&mut self` (src/source.rs:6). The model treats it as a pure function of the name. `load_plugin` inside the loader is given as the result it returns for each plugin.
- `PluginLoader` in src/lib.rs:64-101 is the same chain as src/loader.rs. `Loader.PluginLoader.LoadPlugins` models both. The variant's `Drop` (a `take` without `unwrap`) is not modelled separately.
- Dispatch.DispatchStep: for a nil-id outcome it states only which waiters may have received the outcome, and that all of them do when all are listening. It does not state the drain order; `Dispatch.DrainAndSend` does.
- Dispatch.DispatchLoop: it states when the loop returns, not the combined effect of all its steps. Each step's effect is in `Dispatch.DispatchStep`.

/** The plugin runtime (src/runtime.rs) as one sequential state machine.

    Threads and channels become fields: each queue is a sequence, the
    correlation table is a map from call id to the sending half of the
    waiting caller's reply channel, and each unit that holds a channel end
    (the Handle given to the event loop, the dispatch loop, every plugin
    proxy) is represented by whether it is still alive. */
module Runtime {
  import opened Ids
  import opened Outcome

  /** A call on its way to the host's event loop (`PluginOpCall`, src/runtime.rs:29-33). */
  datatype Envelope<D, C> = Envelope(pluginData: D, callId: CallId, call: C)

  /** An outcome on its way to the dispatch loop (`PluginOpCallResult`, src/runtime.rs:35-38). */
  datatype OpResult<O, E> = OpResult(callId: CallId, result: Result<O, E>)

  /** The sending half of one caller's reply channel, as the table keeps it: a
      send through it succeeds exactly when the caller still holds the
      receiving half. */
  datatype Mailbox = Mailbox(receiverAlive: bool)

  /** The texts of the standard channel errors (`RecvError`, `SendError`). */
  const RECV_CLOSED: string := "receiving on a closed channel"
  const SEND_CLOSED: string := "sending on a closed channel"

  class PluginRuntime<D, C, O, E> {
    /** `plugin_loader`: builds the bootstrap call for a plugin. */
    const pluginLoader: D -> C
    /** `to_string` of the business error type, used by `load_plugin`. */
    const errorText: E -> string

    // The runtime's own optional fields (src/runtime.rs:41-52): present or not.
    var hasEventLoop: bool
    var callSender: bool
    var resultSender: bool
    var subscribers: bool

    // What `run` creates and the other units share.
    /** Envelopes sent and not yet received by the event loop. */
    var callQueue: seq<Envelope<D, C>>
    /** Plugin proxies alive, each holding a clone of the call sender. */
    var liveProxies: nat
    /** The Handle: it holds the call receiver and a clone of the result sender. */
    var handleAlive: bool
    /** Outcomes sent and not yet taken by the dispatch loop. */
    var resultQueue: seq<OpResult<O, E>>
    /** The dispatch loop: it holds the result receiver. */
    var dispatching: bool
    /** The correlation table, shared between the runtime, its proxies and the dispatch loop. */
    var table: map<CallId, Mailbox>
    /** Outcomes forwarded to a waiting caller and not yet read by it. */
    var inbox: map<CallId, RuntimeResult<O, E>>

    ghost predicate Valid()
      reads this
    {
      // an id is either awaiting its outcome or holds it, never both
      && table.Keys !! inbox.Keys
      // channel ends exist only once `run` has taken the event loop
      && (callSender || resultSender || subscribers || handleAlive || dispatching || liveProxies > 0
          ==> !hasEventLoop)
    }


    /** Some sender of the call queue is alive: `receive` blocks rather than fails. */
    predicate CallConnected()
      reads this
    {
      callSender || liveProxies > 0
    }

    /** Some sender of the result queue is alive: the dispatch loop blocks rather than stops. */
    predicate ResultConnected()
      reads this
    {
      resultSender || handleAlive
    }

    /** Built with an event loop and a bootstrap function; nothing else is set
        (src/runtime.rs:40-52). */
    constructor (pluginLoader: D -> C, errorText: E -> string)
      ensures Valid()
      ensures this.pluginLoader == pluginLoader && this.errorText == errorText
      ensures hasEventLoop && !callSender && !resultSender && !subscribers
      ensures callQueue == [] && resultQueue == [] && table == map[] && inbox == map[]
      ensures liveProxies == 0 && !handleAlive && !dispatching
    {
      this.pluginLoader := pluginLoader;
      this.errorText := errorText;
      hasEventLoop := true;
      callSender, resultSender, subscribers := false, false, false;
      callQueue, resultQueue := [], [];
      table, inbox := map[], map[];
      liveProxies := 0;
      handleAlive, dispatching := false, false;
    }

    /** `run` (src/runtime.rs:99-149): creates both queues and an empty table,
        keeps a sender of each and the table, takes the event loop, and starts
        the dispatch loop and the event loop with a fresh Handle. A second
        call would panic on the missing event loop, hence the precondition. */
    method Run()
      requires Valid() && hasEventLoop
      modifies this
      ensures Valid()
      ensures !hasEventLoop && callSender && resultSender && subscribers
      ensures callQueue == [] && resultQueue == [] && table == map[] && inbox == map[]
      ensures handleAlive && dispatching && liveProxies == 0
    {
      callQueue, resultQueue := [], [];
      table, inbox := map[], map[];
      callSender := true;
      hasEventLoop := false;
      handleAlive := true;
      resultSender := true;
      subscribers := true;
      dispatching := true;
    }

    /** `Drop` (src/runtime.rs:54-60): releases the runtime's senders and its
        reference to the table. The other units keep theirs. */
    method Drop()
      requires Valid()
      modifies this`callSender, this`resultSender, this`subscribers
      ensures Valid()
      ensures !callSender && !resultSender && !subscribers
    {
      callSender := false;
      resultSender := false;
      subscribers := false;
    }
  }
}

/** The dispatch loop started by `run` (src/runtime.rs:111-143): it takes
    outcomes off the result queue and forwards each to the caller waiting on
    its id, or, for the nil id, to every caller still waiting. */
module Dispatch {
  import opened Ids
  import opened Outcome
  import opened Runtime

  /** Why the loop ended. */
  datatype Stop =
    | Disconnected     // every result sender is gone (src/runtime.rs:113-117)
    | Broadcast        // a nil-id outcome was sent to every waiter (src/runtime.rs:120-132)
    | UnknownId        // `remove(..).unwrap()` on an id with no entry panics (src/runtime.rs:133)
    | ForwardFailed    // the waiter had dropped its receiver (src/runtime.rs:138-141)

  datatype Step = Continue | Stopped(reason: Stop)

  predicate Distinct(s: seq<CallId>) {
    forall i, j :: 0 <= i < j < |s| ==> s[i] != s[j]
  }

  /** The replies a broadcast leaves: `v` for every id in `ids`. */
  function Broadcasted<O, E>(ids: seq<CallId>, v: RuntimeResult<O, E>): (m: map<CallId, RuntimeResult<O, E>>)
    ensures forall id :: id in m <==> id in ids
    ensures forall id :: id in m ==> m[id] == v
  {
    map id | id in ids :: v
  }

  /** The `for` loop over `drain()` (src/runtime.rs:121-130), on the entries
      taken out of the table: they are visited in the map's own order, which
      the model leaves open and reports as `order`, and each visited waiter is
      sent `v` until a send fails. `got` holds the replies sent. */
  method SendToDrained<O, E>(drained: map<CallId, Mailbox>, v: RuntimeResult<O, E>)
    returns (order: seq<CallId>, sent: nat, got: map<CallId, RuntimeResult<O, E>>)
    ensures Distinct(order) && forall i :: 0 <= i < |order| ==> order[i] in drained
    ensures sent <= |order| <= sent + 1
    ensures forall i :: 0 <= i < sent ==> drained[order[i]].receiverAlive
    ensures sent < |order| ==> !drained[order[sent]].receiverAlive
    ensures sent == |order| ==> forall id :: id in drained ==> id in order
    ensures got == Broadcasted(order[..sent], v)
  {
    var remaining := drained.Keys;
    order, sent, got := [], 0, map[];
    while remaining != {}
      invariant remaining <= drained.Keys
      invariant sent == |order|
      invariant Distinct(order)
      invariant forall i :: 0 <= i < |order| ==> order[i] in drained && order[i] !in remaining
      invariant forall id :: id in drained ==> id in remaining || id in order
      invariant forall i :: 0 <= i < sent ==> drained[order[i]].receiverAlive
      invariant got == Broadcasted(order, v)
      decreases remaining
    {
      var id :| id in remaining;
      remaining := remaining - {id};
      AppendFresh(order, id, v);
      if !drained[id].receiverAlive {
        assert (order + [id])[..sent] == order;
        order := order + [id];
        break;
      }
      order := order + [id];
      got := got[id := v];
      sent := sent + 1;
    }
  }

  /** Visiting one more, not yet visited, id. */
  lemma AppendFresh<O, E>(order: seq<CallId>, id: CallId, v: RuntimeResult<O, E>)
    requires Distinct(order) && id !in order
    ensures Distinct(order + [id])
    ensures Broadcasted(order + [id], v) == Broadcasted(order, v)[id := v]
  {
  }

  /** When every waiter still holds its receiver, the broadcast reaches all of them. */
  lemma {:induction false} BroadcastReachesAll<O, E>(
    drained: map<CallId, Mailbox>, order: seq<CallId>, sent: nat, v: RuntimeResult<O, E>)
    requires sent <= |order| <= sent + 1
    requires forall i :: 0 <= i < |order| ==> order[i] in drained
    requires sent < |order| ==> !drained[order[sent]].receiverAlive
    requires sent == |order| ==> forall id :: id in drained ==> id in order
    requires forall id :: id in drained ==> drained[id].receiverAlive
    ensures Broadcasted(order[..sent], v) == map id | id in drained :: v
  {
    assert sent == |order|;
    assert order[..sent] == order;
  }

  /** The nil-id branch (src/runtime.rs:120-132): `drain()` empties the
      table; the drained entries get `v` until a send fails, and the ones not
      reached are dropped with the drain. */
  method DrainAndSend<D, C, O, E>(rt: PluginRuntime<D, C, O, E>, v: RuntimeResult<O, E>)
    returns (order: seq<CallId>, sent: nat)
    requires rt.Valid()
    modifies rt`table, rt`inbox
    ensures rt.Valid()
    ensures rt.table == map[]
    ensures Distinct(order) && forall i :: 0 <= i < |order| ==> order[i] in old(rt.table)
    ensures sent <= |order| <= sent + 1
    ensures forall i :: 0 <= i < sent ==> old(rt.table)[order[i]].receiverAlive
    ensures sent < |order| ==> !old(rt.table)[order[sent]].receiverAlive
    ensures sent == |order| ==> forall id :: id in old(rt.table) ==> id in order
    ensures rt.inbox == old(rt.inbox) + Broadcasted(order[..sent], v)
    ensures (forall id :: id in old(rt.table) ==> old(rt.table)[id].receiverAlive) ==>
              rt.inbox == old(rt.inbox) + map id | id in old(rt.table) :: v
  {
    var drained := rt.table;
    rt.table := map[];
    var got;
    order, sent, got := SendToDrained(drained, v);
    rt.inbox := rt.inbox + got;
    if forall id :: id in drained ==> drained[id].receiverAlive {
      BroadcastReachesAll(drained, order, sent, v);
    }
  }

  /** One pass of the loop body (src/runtime.rs:113-141), taken when the
      blocking receive on the result queue returns: when an outcome is queued
      or every result sender is gone. */
  method DispatchStep<D, C, O, E>(rt: PluginRuntime<D, C, O, E>) returns (step: Step)
    requires rt.Valid() && rt.dispatching
    requires rt.resultQueue != [] || !rt.ResultConnected()
    modifies rt`resultQueue, rt`table, rt`inbox, rt`dispatching
    ensures rt.Valid()
    ensures rt.dispatching <==> step == Continue
    // a disconnected, empty queue ends the loop and touches nothing
    ensures old(rt.resultQueue) == [] ==>
      step == Stopped(Disconnected) && rt.resultQueue == [] &&
      rt.table == old(rt.table) && rt.inbox == old(rt.inbox)
    ensures old(rt.resultQueue) != [] ==> rt.resultQueue == old(rt.resultQueue)[1..]
    // the nil id: the table ends empty, the same outcome reaches drained waiters
    ensures old(rt.resultQueue) != [] && IsNil(old(rt.resultQueue)[0].callId) ==>
      var v := FromResult(old(rt.resultQueue)[0].result);
      && step == Stopped(Broadcast)
      && rt.table == map[]
      && (forall id :: id in old(rt.inbox) ==> id in rt.inbox && rt.inbox[id] == old(rt.inbox)[id])
      && (forall id :: id in rt.inbox && id !in old(rt.inbox) ==>
            id in old(rt.table) && old(rt.table)[id].receiverAlive && rt.inbox[id] == v)
      && ((forall id :: id in old(rt.table) ==> old(rt.table)[id].receiverAlive) ==>
            rt.inbox == old(rt.inbox) + map id | id in old(rt.table) :: v)
    // an id with no entry: the `unwrap` panics and the loop dies
    ensures old(rt.resultQueue) != [] && !IsNil(old(rt.resultQueue)[0].callId) &&
            old(rt.resultQueue)[0].callId !in old(rt.table) ==>
      step == Stopped(UnknownId) && rt.table == old(rt.table) && rt.inbox == old(rt.inbox)
    // any other id: exactly its entry leaves the table and its waiter gets the outcome
    ensures old(rt.resultQueue) != [] && !IsNil(old(rt.resultQueue)[0].callId) &&
            old(rt.resultQueue)[0].callId in old(rt.table) ==>
      var id := old(rt.resultQueue)[0].callId;
      && rt.table == old(rt.table) - {id}
      && (old(rt.table)[id].receiverAlive ==>
            step == Continue && rt.inbox == old(rt.inbox)[id := FromResult(old(rt.resultQueue)[0].result)])
      && (!old(rt.table)[id].receiverAlive ==>
            step == Stopped(ForwardFailed) && rt.inbox == old(rt.inbox))
  {
    if rt.resultQueue == [] {
      rt.dispatching := false;
      return Stopped(Disconnected);
    }
    var res := rt.resultQueue[0];
    rt.resultQueue := rt.resultQueue[1..];
    if IsNil(res.callId) {
      var order, sent := DrainAndSend(rt, FromResult(res.result));
      rt.dispatching := false;
      return Stopped(Broadcast);
    }
    if res.callId !in rt.table {
      rt.dispatching := false;
      return Stopped(UnknownId);
    }
    var mailbox := rt.table[res.callId];
    rt.table := rt.table - {res.callId};
    if !mailbox.receiverAlive {
      rt.dispatching := false;
      return Stopped(ForwardFailed);
    }
    rt.inbox := rt.inbox[res.callId := FromResult(res.result)];
    step := Continue;
  }

  /** The whole `loop` (src/runtime.rs:112-142), run for as long as its
      receive does not block: it returns when the loop has ended, or when the
      result queue is empty while some sender is still alive. */
  method DispatchLoop<D, C, O, E>(rt: PluginRuntime<D, C, O, E>) returns (last: Step)
    requires rt.Valid() && rt.dispatching
    modifies rt`resultQueue, rt`table, rt`inbox, rt`dispatching
    ensures rt.Valid()
    ensures rt.dispatching <==> last == Continue
    ensures rt.dispatching ==> rt.resultQueue == [] && rt.ResultConnected()
    ensures |rt.resultQueue| <= |old(rt.resultQueue)|
  {
    last := Continue;
    while rt.dispatching && (rt.resultQueue != [] || !rt.ResultConnected())
      invariant rt.Valid()
      invariant rt.dispatching <==> last == Continue
      invariant |rt.resultQueue| <= |old(rt.resultQueue)|
      decreases |rt.resultQueue| + (if rt.dispatching then 1 else 0)
    {
      last := DispatchStep(rt);
    }
  }
}

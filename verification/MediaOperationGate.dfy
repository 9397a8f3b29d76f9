/** The gate of lib/matrix/media.ts as an object; each method is the operation of MediaGate of the same name. */
module MediaOperationGateObject {
  import opened Basics
  import opened MediaGate
  import opened MediaGateProofs

  class MediaOperationGate {
    var active: Option<int>
    var queue: seq<int>
    var queuedBytes: int
    var closed: bool
    var nodes: seq<Node>
    ghost var settled: seq<int>

    ghost function View(): Gate
      reads this
    {
      Gate(active, queue, queuedBytes, closed, nodes, settled)
    }

    constructor ()
      ensures View() == EMPTY && Valid(View())
    {
      active, queue, queuedBytes, closed, nodes, settled := None, [], 0, false, [], [];
    }

    method Acquire(reservationBytes: int, aborted: bool) returns (refused: Option<Refusal>)
      requires Valid(View())
      modifies this
      ensures View() == MediaGate.Acquire(old(View()), reservationBytes, aborted) && Valid(View())
      ensures refused == Refuses(old(View()), reservationBytes, aborted)
    {
      ghost var g := View();
      if !(0 <= reservationBytes <= MAX_SAFE_INTEGER) { return Some(Invalid); }
      if closed || aborted { return Some(Closed); }
      var held := if active.Some? then 1 else 0;
      if |queue| + held >= MAX_CAPACITY || |queue| >= MAX_QUEUE || queuedBytes + reservationBytes > MAX_QUEUED_BYTES {
        return Some(Busy);
      }
      EnqueueKeepsBooks(g, reservationBytes);
      AcquireKeepsValid(g, reservationBytes, aborted);
      var id := |nodes|;
      nodes := nodes + [Node(reservationBytes, true, false, false, Pending)];
      queue := queue + [id];
      queuedBytes := queuedBytes + reservationBytes;
      assert View() == Enqueued(g, reservationBytes);
      PumpQueue();
      return None;
    }

    method PumpQueue()
      requires Books(View())
      modifies this
      ensures View() == Pump(old(View()))
    {
      if active.Some? || closed || queue == [] { return; }
      PumpStartsTheHead(View());
      var node := queue[0];
      queue := queue[1..];
      queuedBytes := Max0(queuedBytes - nodes[node].reservation);
      // `start` would return early on a closed gate or a released node; neither can be the case here.
      nodes := nodes[node := nodes[node].(queued := false, outcome := Granted)];
      active := Some(node);
      settled := settled + [node];
    }

    /** The `release` of a granted lease. */
    method Release(id: int)
      requires Valid(View()) && 0 <= id < |nodes| && nodes[id].outcome.Granted?
      modifies this
      ensures View() == MediaGate.Release(old(View()), id) && Valid(View())
    {
      ReleaseKeepsValid(View(), id);
      if nodes[id].released { return; }
      ReleasedKeepsBooks(View(), id);
      nodes := nodes[id := nodes[id].(released := true)];
      if active == Some(id) {
        active := None;
        PumpQueue();
      }
    }

    method AbortNode(id: int)
      requires Valid(View()) && 0 <= id < |nodes|
      modifies this
      ensures View() == Abort(old(View()), id) && Valid(View())
    {
      AbortKeepsValid(View(), id);
      if nodes[id].released { return; }
      if nodes[id].queued {
        var index := 0;
        while index < |queue| && queue[index] != id
          invariant 0 <= index <= |queue|
          invariant forall k :: 0 <= k < index ==> queue[k] != id
        {
          index := index + 1;
        }
        SplicedIsWithout(queue, index, id);
        if index < |queue| {
          queue := queue[..index] + queue[index + 1..];
          queuedBytes := Max0(queuedBytes - nodes[id].reservation);
        }
        nodes := nodes[id := Reject(nodes[id])];
        settled := settled + [id];
        return;
      }
      nodes := nodes[id := nodes[id].(aborted := true)];
    }

    method RejectWaiters(queued: seq<int>)
      requires forall j :: 0 <= j < |queued| ==> 0 <= queued[j] < |nodes|
      modifies `nodes
      ensures nodes == RejectAll(old(nodes), queued)
    {
      var k := 0;
      while k < |queued|
        invariant 0 <= k <= |queued|
        invariant |nodes| == old(|nodes|)
        invariant RejectAll(nodes, queued[k..]) == RejectAll(old(nodes), queued)
      {
        assert queued[k..][1..] == queued[k + 1..];
        nodes := nodes[queued[k] := Reject(nodes[queued[k]])];
        k := k + 1;
      }
    }

    method Close()
      requires Valid(View())
      modifies this
      ensures View() == MediaGate.Close(old(View())) && Valid(View())
    {
      CloseKeepsValid(View());
      if closed { return; }
      closed := true;
      var queued := queue;
      queue := [];
      queuedBytes := 0;
      RejectWaiters(queued);
      settled := settled + queued;
      if active.Some? {
        nodes := nodes[active.value := nodes[active.value].(aborted := true)];
      }
    }
  }

  lemma {:induction false} SplicedIsWithout(q: seq<int>, i: nat, id: int)
    requires i <= |q| && (forall k :: 0 <= k < i ==> q[k] != id) && (i < |q| ==> q[i] == id)
    ensures Without(q, id) == (if i < |q| then q[..i] + q[i + 1..] else q)
    ensures id in q <==> i < |q|
  {
    if i == 0 {
      if q != [] { assert q[..0] + q[1..] == q[1..]; }
    } else {
      var rest := q[1..];
      SplicedIsWithout(rest, i - 1, id);
      assert q == [q[0]] + rest;
      if i < |q| { assert q[..i] + q[i + 1..] == [q[0]] + (rest[..i - 1] + rest[i..]); }
    }
  }
}

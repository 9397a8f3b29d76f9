/** The gate keeps exact books, serves in order and loses no waiter. */
module MediaGateProofs {
  import opened Basics
  import opened MediaGate

  lemma {:induction false} SumUnder(q: seq<int>, a: seq<Node>, b: seq<Node>)
    requires forall k :: 0 <= k < |q| ==> Reserved(q[k], a) == Reserved(q[k], b)
    ensures Sum(q, a) == Sum(q, b)
  {
    if q != [] { SumUnder(q[1..], a, b); }
  }

  lemma {:induction false} SumOfTwo(p: seq<int>, q: seq<int>, nodes: seq<Node>)
    ensures Sum(p + q, nodes) == Sum(p, nodes) + Sum(q, nodes)
  {
    if p == [] {
      assert p + q == q;
    } else {
      assert (p + q)[1..] == p[1..] + q;
      SumOfTwo(p[1..], q, nodes);
    }
  }

  lemma {:induction false} SumIsNat(q: seq<int>, nodes: seq<Node>)
    requires forall k :: 0 <= k < |q| ==> Reserved(q[k], nodes) >= 0
    ensures Sum(q, nodes) >= 0
  {
    if q != [] { SumIsNat(q[1..], nodes); }
  }

  /** Everything but the promise that a waiter has a holder, which pump re-establishes. */
  ghost predicate Books(g: Gate) {
    && QueueOk(g)
    && BytesOk(g)
    && LeaseOk(g)
    && InOrder(g)
    && SettledOnce(g)
    && (g.closed ==> g.queue == [])
    && |g.queue| <= (if g.active.Some? then MAX_QUEUE else MAX_QUEUE + 1)
  }

  /** The head of the queue can always be started: the early return of `start` is never reached from pump. */
  lemma PumpStartsTheHead(g: Gate)
    requires Books(g) && g.active.None? && g.queue != []
    ensures !g.closed && !g.nodes[g.queue[0]].released
    ensures Pump(g).active == Some(g.queue[0]) && Pump(g).queue == g.queue[1..]
    ensures Pump(g).nodes[g.queue[0]].outcome.Granted?
    ensures Max0(g.queuedBytes - g.nodes[g.queue[0]].reservation) == g.queuedBytes - g.nodes[g.queue[0]].reservation
  {
    SumIsNat(g.queue[1..], g.nodes);
  }

  lemma PumpQueue(g: Gate)
    requires Books(g) && g.active.None? && g.queue != []
    ensures QueueOk(Pump(g)) && InOrder(Pump(g)) && |Pump(g).queue| <= MAX_QUEUE
  {
    PumpStartsTheHead(g);
    var head, v := g.queue[0], Pump(g);
    forall id | 0 <= id < |v.nodes| && v.nodes[id].outcome.Pending? ensures id in v.queue {
      assert id in g.queue && id != head;
    }
    forall i | 0 <= i < |g.nodes| && g.nodes[i].outcome.Pending? ensures head <= i { assert i in g.queue; }
  }

  lemma PumpLedger(g: Gate)
    requires Books(g) && g.active.None? && g.queue != []
    ensures LeaseOk(Pump(g)) && SettledOnce(Pump(g))
  {
    PumpStartsTheHead(g);
  }

  lemma PumpKeepsValid(g: Gate)
    requires Books(g)
    ensures Valid(Pump(g))
  {
    if g.active.None? && g.queue != [] {
      PumpStartsTheHead(g);
      PumpQueue(g);
      PumpLedger(g);
      SumUnder(g.queue[1..], g.nodes, Pump(g).nodes);
      SumIsNat(g.queue[..1], g.nodes);
    }
  }

  lemma EnqueueSum(q: seq<int>, nodes: seq<Node>, n: Node)
    requires forall k :: 0 <= k < |q| ==> 0 <= q[k] < |nodes|
    ensures Sum(q + [|nodes|], nodes + [n]) == Sum(q, nodes) + n.reservation
  {
    var longer := nodes + [n];
    SumUnder(q, nodes, longer);
    SumOfTwo(q, [|nodes|], longer);
    assert Sum([], longer) == 0 && [|nodes|][1..] == [];
  }

  lemma EnqueueQueue(g: Gate, reservation: int)
    requires Valid(g) && reservation >= 0
    ensures QueueOk(Enqueued(g, reservation))
  {
    var v := Enqueued(g, reservation);
    forall id | 0 <= id < |v.nodes| && v.nodes[id].outcome.Pending? ensures id in v.queue {
      if id == |g.nodes| { assert v.queue[|g.queue|] == id; }
    }
  }

  lemma EnqueueLedger(g: Gate, reservation: int)
    requires Valid(g)
    ensures LeaseOk(Enqueued(g, reservation)) && InOrder(Enqueued(g, reservation)) && SettledOnce(Enqueued(g, reservation))
  {
  }

  lemma EnqueueKeepsBooks(g: Gate, reservation: int)
    requires Valid(g) && Refuses(g, reservation, false).None?
    ensures Books(Enqueued(g, reservation))
  {
    EnqueueSum(g.queue, g.nodes, Node(reservation, true, false, false, Pending));
    EnqueueQueue(g, reservation);
    EnqueueLedger(g, reservation);
  }

  lemma AcquireKeepsValid(g: Gate, reservation: int, aborted: bool)
    requires Valid(g)
    ensures Valid(Acquire(g, reservation, aborted))
  {
    if Refuses(g, reservation, aborted).None? {
      EnqueueKeepsBooks(g, reservation);
      PumpKeepsValid(Enqueued(g, reservation));
    }
  }

  lemma ReleasedKeepsBooks(g: Gate, id: int)
    requires Valid(g) && g.active == Some(id)
    ensures Books(ReleasedNode(g, id))
  {
    SumUnder(g.queue, g.nodes, ReleasedNode(g, id).nodes);
  }

  lemma ReleaseKeepsValid(g: Gate, id: int)
    requires Valid(g)
    ensures Valid(Release(g, id))
  {
    if g.active == Some(id) {
      ReleasedKeepsBooks(g, id);
      PumpKeepsValid(ReleasedNode(g, id));
    }
  }

  lemma {:induction false} WithoutKeepsTheRest(q: seq<int>, id: int)
    requires forall i, j :: 0 <= i < j < |q| ==> q[i] < q[j]
    ensures var w := Without(q, id);
      && id !in w && |w| <= |q|
      && (forall x :: x in q && x != id ==> x in w)
      && (forall x :: x in w ==> x in q)
      && (forall i, j :: 0 <= i < j < |w| ==> w[i] < w[j])
  {
    if q != [] {
      WithoutKeepsTheRest(q[1..], id);
      assert q == [q[0]] + q[1..];
      var w := Without(q, id);
      if q[0] != id {
        forall i, j | 0 <= i < j < |w| ensures w[i] < w[j] {
          assert w[j] == Without(q[1..], id)[j - 1];
          assert w[j] in q[1..];
        }
      }
    }
  }

  lemma {:induction false} SumWithout(q: seq<int>, id: int, nodes: seq<Node>)
    requires id in q
    ensures Sum(q, nodes) == Reserved(id, nodes) + Sum(Without(q, id), nodes)
  {
    if q[0] != id {
      SumWithout(q[1..], id, nodes);
      assert ([q[0]] + Without(q[1..], id))[1..] == Without(q[1..], id);
    }
  }

  lemma AbortSum(g: Gate, id: int)
    requires Valid(g) && id in g.queue
    ensures BytesOk(Abort(g, id))
  {
    SumWithout(g.queue, id, g.nodes);
    WithoutKeepsTheRest(g.queue, id);
    RestIsNat(g, id);
    SumUnder(Without(g.queue, id), g.nodes, Abort(g, id).nodes);
  }

  lemma RestIsNat(g: Gate, id: int)
    requires QueueOk(g)
    ensures Sum(Without(g.queue, id), g.nodes) >= 0
  {
    WithoutKeepsTheRest(g.queue, id);
    var rest := Without(g.queue, id);
    forall k | 0 <= k < |rest| ensures Reserved(rest[k], g.nodes) >= 0 { assert rest[k] in g.queue; }
    SumIsNat(rest, g.nodes);
  }

  lemma AbortQueue(g: Gate, id: int)
    requires Valid(g) && id in g.queue
    ensures QueueOk(Abort(g, id))
  {
    var v := Abort(g, id);
    WithoutKeepsTheRest(g.queue, id);
    forall k | 0 <= k < |v.queue| ensures 0 <= v.queue[k] < |v.nodes| && Waits(v.nodes[v.queue[k]]) { assert v.queue[k] in g.queue; }
  }

  lemma AbortLedger(g: Gate, id: int)
    requires Valid(g)
    ensures LeaseOk(Abort(g, id)) && InOrder(Abort(g, id)) && SettledOnce(Abort(g, id))
  {
  }

  lemma AbortKeepsValid(g: Gate, id: int)
    requires Valid(g)
    ensures Valid(Abort(g, id))
  {
    AbortLedger(g, id);
    if 0 <= id < |g.nodes| && !g.nodes[id].released && g.nodes[id].queued {
      assert id in g.queue;
      AbortSum(g, id);
      AbortQueue(g, id);
      WithoutKeepsTheRest(g.queue, id);
    } else if 0 <= id < |g.nodes| && !g.nodes[id].released {
      SumUnder(g.queue, g.nodes, Abort(g, id).nodes);
    }
  }

  /** Aborting never frees the lease: its holder is signalled and keeps it until it lets go. */
  lemma AbortNeverFreesTheLease(g: Gate, id: int)
    requires Valid(g)
    ensures Abort(g, id).active == g.active
    ensures g.active == Some(id) ==> Holds(Abort(g, id), id) && Abort(g, id).nodes[id].aborted
    ensures 0 <= id < |g.nodes| && g.nodes[id].outcome.Pending? ==>
      Abort(g, id).nodes[id].outcome.Rejected? && id !in Abort(g, id).queue
      && forall x :: x in g.queue && x != id ==> x in Abort(g, id).queue
  {
    if 0 <= id < |g.nodes| && g.nodes[id].outcome.Pending? {
      assert id in g.queue;
      WithoutKeepsTheRest(g.queue, id);
    }
  }

  lemma {:induction false} RejectAllAt(nodes: seq<Node>, q: seq<int>, id: int)
    requires 0 <= id < |nodes|
    ensures RejectAll(nodes, q)[id] == if id in q then Reject(nodes[id]) else nodes[id]
    decreases |q|
  {
    if q != [] {
      RejectAllAt(if 0 <= q[0] < |nodes| then nodes[q[0] := Reject(nodes[q[0]])] else nodes, q[1..], id);
    }
  }

  lemma CloseKeepsValid(g: Gate)
    requires Valid(g)
    ensures Valid(Close(g))
  {
    if !g.closed {
      var v := Close(g);
      forall id | 0 <= id < |g.nodes|
        ensures v.nodes[id].outcome == (if id in g.queue then Rejected else g.nodes[id].outcome)
        ensures v.nodes[id].released == (id in g.queue || g.nodes[id].released)
        ensures v.nodes[id].queued == g.nodes[id].queued
      {
        RejectAllAt(g.nodes, g.queue, id);
        if id in g.queue { assert g.nodes[id].outcome.Pending?; }
      }
      forall i, j | 0 <= i < j < |v.settled| ensures v.settled[i] != v.settled[j] {
        if i < |g.settled| <= j { assert v.settled[j] in g.queue; }
      }
      forall k | 0 <= k < |v.settled| ensures 0 <= v.settled[k] < |v.nodes| && !v.nodes[v.settled[k]].outcome.Pending? {
        if k >= |g.settled| { assert v.settled[k] in g.queue; }
      }
    }
  }

  lemma StepKeepsValid(g: Gate, e: Event)
    requires Valid(g)
    ensures Valid(Step(g, e))
  {
    match e
    case Arrives(reservation, aborted) => AcquireKeepsValid(g, reservation, aborted);
    case Releases(id) => ReleaseKeepsValid(g, id);
    case Aborts(id) => AbortKeepsValid(g, id);
    case Closes => CloseKeepsValid(g);
  }

  /** The gate after any calls whatever. */
  function Run(es: seq<Event>): (g: Gate)
    ensures Valid(g)
  {
    if es == [] then EMPTY
    else
      var g := Run(es[..|es| - 1]);
      StepKeepsValid(g, es[|es| - 1]);
      Step(g, es[|es| - 1])
  }

  /* ---- What this means for a request ---- */

  ghost predicate OneLease(g: Gate) {
    forall i, j :: 0 <= i < |g.nodes| && 0 <= j < |g.nodes| && Holds(g, i) && Holds(g, j) ==> i == j
  }

  /** The lease of request `id` is out. */
  predicate Holds(g: Gate, id: int)
    requires 0 <= id < |g.nodes|
  {
    g.nodes[id].outcome.Granted? && !g.nodes[id].released
  }

  /** After any calls: exact accounting, one lease at most, room for four, and a waiter only behind a holder. */
  lemma GateIsExact(es: seq<Event>)
    ensures var g := Run(es);
      && g.queuedBytes == Sum(g.queue, g.nodes) && 0 <= g.queuedBytes <= MAX_QUEUED_BYTES
      && OneLease(g)
      && |g.queue| + (if g.active.Some? then 1 else 0) <= MAX_CAPACITY
      && (!g.closed && g.queue != [] ==> g.active.Some? && Holds(g, g.active.value))
  {
    var g := Run(es);
    SumIsNat(g.queue, g.nodes);
  }

  /** A settled promise stays as it was settled. */
  lemma SettlesAtMostOnce(g: Gate, e: Event, id: int)
    requires Valid(g) && 0 <= id < |g.nodes| && !g.nodes[id].outcome.Pending?
    ensures Stays(g, Step(g, e), id)
  {
    match e
    case Arrives(reservation, aborted) =>
      if Refuses(g, reservation, aborted).None? {
        EnqueueKeepsBooks(g, reservation);
        PumpKeepsOthers(Enqueued(g, reservation), id);
      }
    case Releases(r) =>
      if g.active == Some(r) {
        ReleasedKeepsBooks(g, r);
        PumpKeepsOthers(ReleasedNode(g, r), id);
      }
    case Aborts(_) =>
    case Closes => if !g.closed { CloseKeepsOthers(g, id); }
  }

  ghost predicate Stays(g: Gate, v: Gate, id: int)
    requires 0 <= id < |g.nodes|
  {
    0 <= id < |v.nodes| && v.nodes[id].outcome == g.nodes[id].outcome && g.settled <= v.settled
  }

  lemma CloseKeepsOthers(g: Gate, id: int)
    requires Valid(g) && !g.closed && 0 <= id < |g.nodes| && !g.nodes[id].outcome.Pending?
    ensures Stays(g, Close(g), id)
  {
    RejectAllAt(g.nodes, g.queue, id);
  }

  lemma PumpKeepsOthers(g: Gate, id: int)
    requires Books(g) && 0 <= id < |g.nodes| && !g.nodes[id].outcome.Pending?
    ensures Stays(g, Pump(g), id)
  {
    if g.active.None? && g.queue != [] { PumpStartsTheHead(g); }
  }

  /** The holder hands over to the first waiter, and to no other. */
  lemma ReleaseServesTheFirst(g: Gate, id: int)
    requires Valid(g) && g.active == Some(id)
    ensures Release(g, id).active == (if g.queue == [] then None else Some(g.queue[0]))
    ensures Release(g, id).queue == (if g.queue == [] then [] else g.queue[1..])
    ensures Release(g, id).closed == g.closed
  {
    ReleasedKeepsBooks(g, id);
    if g.queue != [] { PumpStartsTheHead(ReleasedNode(g, id)); }
  }

  /** The holder releases, `n` times over. */
  function Released(g: Gate, n: nat): Gate
    requires Valid(g)
    decreases n
  {
    if n == 0 || g.active.None? then g
    else
      ReleaseKeepsValid(g, g.active.value);
      Released(Release(g, g.active.value), n - 1)
  }

  /** No waiter is lost: the k-th in the queue holds the lease after k + 1 releases. */
  lemma {:induction false} EveryWaiterIsServed(g: Gate, k: nat)
    requires Valid(g) && !g.closed && k < |g.queue|
    ensures Released(g, k + 1).active == Some(g.queue[k])
    decreases k
  {
    var id := g.active.value;
    ReleaseKeepsValid(g, id);
    ReleaseServesTheFirst(g, id);
    if k > 0 {
      EveryWaiterIsServed(Release(g, id), k - 1);
    } else {
      assert Released(Release(g, id), 0) == Release(g, id);
    }
  }

  /** An idle open gate grants at once; a refused request changes nothing and is refused for a stated reason only. */
  lemma IdleGateGrantsAtOnce(g: Gate, reservation: int)
    requires Valid(g) && !g.closed && g.active.None?
    ensures 0 <= reservation <= MAX_QUEUED_BYTES <==> Refuses(g, reservation, false).None?
    ensures Refuses(g, reservation, false).None? ==>
      Acquire(g, reservation, false).active == Some(|g.nodes|) && Acquire(g, reservation, false).queuedBytes == 0
  {
    if Refuses(g, reservation, false).None? {
      EnqueueKeepsBooks(g, reservation);
      PumpStartsTheHead(Enqueued(g, reservation));
    }
  }

  /** Closing settles every waiter and leaves the lease that is out to its holder. */
  lemma CloseRejectsEveryWaiter(g: Gate, id: int)
    requires Valid(g) && 0 <= id < |g.nodes| && !g.closed
    ensures Close(g).active == g.active && Close(g).queue == []
    ensures g.nodes[id].outcome.Pending? ==> Close(g).nodes[id].outcome.Rejected?
    ensures g.active == Some(id) ==> Close(g).nodes[id].aborted && !Close(g).nodes[id].released
  {
    CloseKeepsValid(g);
    RejectAllAt(g.nodes, g.queue, id);
  }
}

/**
The admission gate for memory-heavy media work (lib/matrix/media.ts): one
active lease, a short queue, byte accounting, abort and close.

Requests are numbered in order of arrival.  Every call is one step; promises
resolve later, so no call happens inside another.
*/
module MediaGate {
  import opened Basics

  const MAX_QUEUE := 3
  const MAX_CAPACITY := 4
  const MAX_QUEUED_BYTES := 256 * 1024 * 1024
  const MAX_SAFE_INTEGER := 0x1F_FFFF_FFFF_FFFF

  /** A rejection is final; `aborted` is the lease's own signal. */
  datatype Outcome = Pending | Granted | Rejected

  datatype Node = Node(reservation: int, queued: bool, released: bool, aborted: bool, outcome: Outcome)

  datatype Refusal = Invalid | Closed | Busy

  /** `settled` lists the requests whose promise was resolved or rejected, oldest first. */
  datatype Gate = Gate(active: Option<int>, queue: seq<int>, queuedBytes: int, closed: bool, nodes: seq<Node>, settled: seq<int>)

  /* ---- The operations ---- */

  function Refuses(g: Gate, reservation: int, aborted: bool): Option<Refusal> {
    if !(0 <= reservation <= MAX_SAFE_INTEGER) then Some(Invalid)
    else if g.closed || aborted then Some(Closed)
    else if |g.queue| + (if g.active.Some? then 1 else 0) >= MAX_CAPACITY || |g.queue| >= MAX_QUEUE
            || g.queuedBytes + reservation > MAX_QUEUED_BYTES
    then Some(Busy)
    else None
  }

  /** `start` of a node: it does nothing on a closed gate or a released node. */
  function Start(g: Gate, id: int): Gate
    requires 0 <= id < |g.nodes|
  {
    if g.closed || g.nodes[id].released then g
    else g.(active := Some(id), nodes := g.nodes[id := g.nodes[id].(queued := false, outcome := Granted)],
            settled := g.settled + [id])
  }

  function Pump(g: Gate): Gate
    requires |g.queue| > 0 ==> 0 <= g.queue[0] < |g.nodes|
  {
    if g.active.Some? || g.closed || g.queue == [] then g
    else Start(g.(queue := g.queue[1..], queuedBytes := Max0(g.queuedBytes - g.nodes[g.queue[0]].reservation)), g.queue[0])
  }

  function Enqueued(g: Gate, reservation: int): Gate {
    g.(nodes := g.nodes + [Node(reservation, true, false, false, Pending)],
       queue := g.queue + [|g.nodes|], queuedBytes := g.queuedBytes + reservation)
  }

  function Acquire(g: Gate, reservation: int, aborted: bool): Gate
    requires Valid(g)
  {
    if Refuses(g, reservation, aborted).Some? then g else Pump(Enqueued(g, reservation))
  }

  function ReleasedNode(g: Gate, id: int): Gate
    requires 0 <= id < |g.nodes|
  {
    g.(nodes := g.nodes[id := g.nodes[id].(released := true)], active := if g.active == Some(id) then None else g.active)
  }

  function Release(g: Gate, id: int): Gate
    requires Valid(g)
  {
    if !(0 <= id < |g.nodes|) || !g.nodes[id].outcome.Granted? || g.nodes[id].released then g
    else if g.active == Some(id) then Pump(ReleasedNode(g, id))
    else ReleasedNode(g, id)
  }

  /** The queue without the first occurrence of `id`. */
  function Without(q: seq<int>, id: int): seq<int> {
    if q == [] then [] else if q[0] == id then q[1..] else [q[0]] + Without(q[1..], id)
  }

  function Reject(n: Node): Node { n.(released := true, outcome := Rejected) }

  function Abort(g: Gate, id: int): Gate {
    if !(0 <= id < |g.nodes|) || g.nodes[id].released then g
    else if g.nodes[id].queued then
      g.(queue := Without(g.queue, id),
         queuedBytes := if id in g.queue then Max0(g.queuedBytes - g.nodes[id].reservation) else g.queuedBytes,
         nodes := g.nodes[id := Reject(g.nodes[id])], settled := g.settled + [id])
    else g.(nodes := g.nodes[id := g.nodes[id].(aborted := true)])
  }

  function RejectAll(nodes: seq<Node>, q: seq<int>): (r: seq<Node>)
    ensures |r| == |nodes|
    decreases |q|
  {
    if q == [] then nodes
    else RejectAll(if 0 <= q[0] < |nodes| then nodes[q[0] := Reject(nodes[q[0]])] else nodes, q[1..])
  }

  function Close(g: Gate): Gate
    requires Valid(g)
  {
    if g.closed then g
    else
      var rejected := RejectAll(g.nodes, g.queue);
      g.(closed := true, queue := [], queuedBytes := 0, settled := g.settled + g.queue,
         nodes := if g.active.Some? then rejected[g.active.value := rejected[g.active.value].(aborted := true)] else rejected)
  }

  datatype Event = Arrives(reservation: int, aborted: bool) | Releases(id: int) | Aborts(id: int) | Closes

  function Step(g: Gate, e: Event): Gate
    requires Valid(g)
  {
    match e
    case Arrives(reservation, aborted) => Acquire(g, reservation, aborted)
    case Releases(id) => Release(g, id)
    case Aborts(id) => Abort(g, id)
    case Closes => Close(g)
  }

  const EMPTY := Gate(None, [], 0, false, [], [])

  /* ---- What always holds ---- */

  function Reserved(id: int, nodes: seq<Node>): int {
    if 0 <= id < |nodes| then nodes[id].reservation else 0
  }

  function Sum(q: seq<int>, nodes: seq<Node>): int {
    if q == [] then 0 else Reserved(q[0], nodes) + Sum(q[1..], nodes)
  }

  /** The queue is in order of arrival and holds exactly the requests still waiting. */
  ghost predicate QueueOk(g: Gate) {
    && (forall k :: 0 <= k < |g.queue| ==> 0 <= g.queue[k] < |g.nodes| && Waits(g.nodes[g.queue[k]]))
    && (forall i, j :: 0 <= i < j < |g.queue| ==> g.queue[i] < g.queue[j])
    && (forall id :: 0 <= id < |g.nodes| && g.nodes[id].outcome.Pending? ==> id in g.queue)
  }

  predicate Waits(n: Node) { n.outcome.Pending? && n.queued && !n.released && n.reservation >= 0 }

  /** At most one lease is out, and `active` is it. */
  ghost predicate LeaseOk(g: Gate) {
    && (g.active.Some? ==> 0 <= g.active.value < |g.nodes|)
    && (forall id :: 0 <= id < |g.nodes| && g.nodes[id].outcome.Granted? ==> !g.nodes[id].queued)
    && (forall id :: 0 <= id < |g.nodes| ==>
          (g.nodes[id].outcome.Granted? && !g.nodes[id].released <==> g.active == Some(id)))
    && (forall id :: 0 <= id < |g.nodes| && g.nodes[id].outcome.Rejected? ==> g.nodes[id].released)
  }

  /** Nobody is overtaken: whoever arrived before a granted request has been settled. */
  ghost predicate InOrder(g: Gate) {
    forall i, j :: 0 <= i < j < |g.nodes| && g.nodes[j].outcome.Granted? ==> !g.nodes[i].outcome.Pending?
  }

  /** Every promise is settled at most once, and exactly when its request stops waiting. */
  ghost predicate SettledOnce(g: Gate) {
    && (forall i, j :: 0 <= i < j < |g.settled| ==> g.settled[i] != g.settled[j])
    && (forall k :: 0 <= k < |g.settled| ==> 0 <= g.settled[k] < |g.nodes| && !g.nodes[g.settled[k]].outcome.Pending?)
  }

  /** The bytes counted are the bytes queued. */
  ghost predicate BytesOk(g: Gate) { g.queuedBytes == Sum(g.queue, g.nodes) <= MAX_QUEUED_BYTES }

  ghost predicate Valid(g: Gate) {
    && QueueOk(g)
    && |g.queue| <= MAX_QUEUE
    && BytesOk(g)
    && LeaseOk(g)
    && InOrder(g)
    && SettledOnce(g)
    && (!g.closed && g.queue != [] ==> g.active.Some?)
    && (g.closed ==> g.queue == [])
  }
}

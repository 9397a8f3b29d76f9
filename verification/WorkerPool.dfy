/**
The shared-cursor worker pool of lib/push-server.ts.

A worker runs without interruption from one mapper call to the next, so one
step is: store the answer it waited for, then take the next index or stop.
*/
module WorkerPool {
  import opened Basics

  /** A worker has not started, awaits the mapper for an index, or has returned. */
  datatype Worker = Idle | Mapping(index: nat) | Returned

  /** `started` counts the mapper calls made for each index. */
  datatype Pool<T, R> = Pool(items: seq<T>, cursor: nat, results: seq<Option<R>>, workers: seq<Worker>, started: seq<nat>)

  function Start<T, R>(items: seq<T>, concurrency: int): Pool<T, R> {
    Pool(items, 0, seq(|items|, _ => None), seq(Max0(Min(concurrency, |items|)), _ => Idle), seq(|items|, _ => 0))
  }

  /** The head of the loop: take the next index, if there is one. */
  function TakeNext<T, R>(p: Pool<T, R>, k: int): Pool<T, R>
    requires 0 <= k < |p.workers| && |p.started| == |p.items|
  {
    if p.cursor < |p.items|
    then p.(cursor := p.cursor + 1, workers := p.workers[k := Mapping(p.cursor)], started := p.started[p.cursor := p.started[p.cursor] + 1])
    else p.(workers := p.workers[k := Returned])
  }

  /** Worker `k` moves: it starts, or its mapper call has been answered. */
  function Step<T, R>(p: Pool<T, R>, mapper: T -> R, k: int): Pool<T, R>
    requires Shape(p)
  {
    if !(0 <= k < |p.workers|) || p.workers[k].Returned? then p
    else if p.workers[k].Idle? then TakeNext(p, k)
    else
      var i := p.workers[k].index;
      if i >= |p.items| then p
      else TakeNext(p.(results := p.results[i := Some(mapper(p.items[i]))]), k)
  }

  predicate Shape<T, R>(p: Pool<T, R>) { |p.results| == |p.started| == |p.items| }

  /** One schedule: which worker moves next, each time. */
  function Run<T, R>(p: Pool<T, R>, mapper: T -> R, schedule: seq<int>): (q: Pool<T, R>)
    requires Shape(p)
    ensures Shape(q) && q.items == p.items && |q.workers| == |p.workers|
    decreases |schedule|
  {
    if schedule == [] then p else Run(Step(p, mapper, schedule[0]), mapper, schedule[1..])
  }

  predicate AllReturned<T, R>(p: Pool<T, R>) { forall k :: 0 <= k < |p.workers| ==> p.workers[k].Returned? }

  /* ---- What every schedule keeps ---- */

  /** Indexes below the cursor have been taken once: each is being mapped by one worker, or has its answer. */
  ghost predicate Inv<T(!new), R(!new)>(p: Pool<T, R>, mapper: T -> R) {
    && Shape(p)
    && p.cursor <= |p.items|
    && (forall i :: 0 <= i < |p.items| ==> p.started[i] == if i < p.cursor then 1 else 0)
    && (forall k :: 0 <= k < |p.workers| && p.workers[k].Mapping? ==> p.workers[k].index < p.cursor && p.results[p.workers[k].index].None?)
    && (forall k, l :: 0 <= k < l < |p.workers| && p.workers[k].Mapping? && p.workers[l].Mapping? ==> p.workers[k].index != p.workers[l].index)
    && (forall i :: 0 <= i < |p.items| && p.results[i].Some? ==> i < p.cursor && p.results[i].value == mapper(p.items[i]))
    && (forall i :: 0 <= i < p.cursor && p.results[i].None? ==> MappedBySomeone(p, i))
    && (forall k :: 0 <= k < |p.workers| && p.workers[k].Returned? ==> p.cursor == |p.items|)
  }

  predicate MappedBySomeone<T, R>(p: Pool<T, R>, i: nat) { exists k :: 0 <= k < |p.workers| && p.workers[k] == Mapping(i) }

  lemma TakeKeepsInv<T(!new), R(!new)>(p: Pool<T, R>, mapper: T -> R, k: int)
    requires Inv(p, mapper) && 0 <= k < |p.workers| && p.workers[k].Idle?
    ensures Inv(TakeNext(p, k), mapper)
  {
    var q := TakeNext(p, k);
    forall i | 0 <= i < q.cursor && q.results[i].None? ensures MappedBySomeone(q, i) {
      if i == p.cursor {
        assert q.workers[k] == Mapping(i);
      } else {
        assert MappedBySomeone(p, i);
        var l :| 0 <= l < |p.workers| && p.workers[l] == Mapping(i);
        assert q.workers[l] == Mapping(i);
      }
    }
  }

  /** The answer is stored and the worker is about to look at the cursor again. */
  function Answered<T, R>(p: Pool<T, R>, mapper: T -> R, k: int): Pool<T, R>
    requires Shape(p) && 0 <= k < |p.workers| && p.workers[k].Mapping? && p.workers[k].index < |p.items|
  {
    var i := p.workers[k].index;
    p.(results := p.results[i := Some(mapper(p.items[i]))], workers := p.workers[k := Idle])
  }

  lemma AnswerKeepsInv<T(!new), R(!new)>(p: Pool<T, R>, mapper: T -> R, k: int)
    requires Inv(p, mapper) && 0 <= k < |p.workers| && p.workers[k].Mapping?
    ensures Inv(Answered(p, mapper, k), mapper)
  {
    var q := Answered(p, mapper, k);
    forall i | 0 <= i < q.cursor && q.results[i].None? ensures MappedBySomeone(q, i) {
      assert MappedBySomeone(p, i);
      var l :| 0 <= l < |p.workers| && p.workers[l] == Mapping(i);
      assert q.workers[l] == Mapping(i);
    }
  }

  lemma StepKeepsInv<T(!new), R(!new)>(p: Pool<T, R>, mapper: T -> R, k: int)
    requires Inv(p, mapper)
    ensures Inv(Step(p, mapper, k), mapper)
  {
    if 0 <= k < |p.workers| && p.workers[k].Idle? {
      TakeKeepsInv(p, mapper, k);
    } else if 0 <= k < |p.workers| && p.workers[k].Mapping? {
      var a := Answered(p, mapper, k);
      AnswerKeepsInv(p, mapper, k);
      TakeKeepsInv(a, mapper, k);
      assert Step(p, mapper, k) == TakeNext(a, k);
    }
  }

  lemma {:induction false} RunKeepsInv<T(!new), R(!new)>(p: Pool<T, R>, mapper: T -> R, schedule: seq<int>)
    requires Inv(p, mapper)
    ensures Inv(Run(p, mapper, schedule), mapper)
    decreases |schedule|
  {
    if schedule != [] {
      StepKeepsInv(p, mapper, schedule[0]);
      RunKeepsInv(Step(p, mapper, schedule[0]), mapper, schedule[1..]);
    }
  }

  /**
  In any interleaving: no index is mapped twice, nothing wrong is ever stored, at most min(concurrency, n) calls are
  in flight; and when all workers have returned, every index was mapped exactly once and holds its answer, provided
  there was a worker at all.
  */
  lemma PoolIsExact<T(!new), R(!new)>(items: seq<T>, concurrency: int, mapper: T -> R, schedule: seq<int>)
    ensures var p := Run(Start<T, R>(items, concurrency), mapper, schedule);
      && (forall i :: 0 <= i < |items| ==> p.started[i] <= 1)
      && (forall i :: 0 <= i < |items| && p.results[i].Some? ==> p.results[i].value == mapper(items[i]))
      && |p.workers| == Max0(Min(concurrency, |items|))
      && (AllReturned(p) && (concurrency >= 1 || items == []) ==>
            forall i :: 0 <= i < |items| ==> p.started[i] == 1 && p.results[i] == Some(mapper(items[i])))
  {
    var start := Start<T, R>(items, concurrency);
    RunKeepsInv(start, mapper, schedule);
    var p := Run(start, mapper, schedule);
    if AllReturned(p) && concurrency >= 1 && items != [] {
      assert p.workers[0].Returned?;
      forall i | 0 <= i < |items| ensures p.results[i].Some? {
        NobodyMaps(p, i);
      }
    }
  }

  lemma NobodyMaps<T(!new), R(!new)>(p: Pool<T, R>, i: nat)
    requires AllReturned(p)
    ensures !MappedBySomeone(p, i)
  {
  }

  /** Moves left: an index not yet taken costs one, and so does every worker that has not returned. */
  function Left<T, R>(p: Pool<T, R>): int { |p.items| - p.cursor + Unreturned(p.workers) }

  function Unreturned(ws: seq<Worker>): (n: nat)
    ensures n == 0 <==> forall k :: 0 <= k < |ws| ==> ws[k].Returned?
  {
    if ws == [] then 0 else (if ws[0].Returned? then 0 else 1) + Unreturned(ws[1..])
  }

  lemma {:induction false} UnreturnedUpdate(ws: seq<Worker>, k: int, w: Worker)
    requires 0 <= k < |ws|
    ensures Unreturned(ws[k := w]) == Unreturned(ws) - (if ws[k].Returned? then 0 else 1) + (if w.Returned? then 0 else 1)
  {
    if k > 0 {
      assert ws[k := w][1..] == ws[1..][k - 1 := w];
      UnreturnedUpdate(ws[1..], k - 1, w);
    } else {
      assert ws[k := w][1..] == ws[1..];
    }
  }

  /** Every move of a worker that has not returned brings the pool nearer to its end. */
  lemma EveryMoveCounts<T(!new), R(!new)>(p: Pool<T, R>, mapper: T -> R, k: int)
    requires Inv(p, mapper) && 0 <= k < |p.workers| && !p.workers[k].Returned?
    ensures Left(Step(p, mapper, k)) == Left(p) - 1 && Left(p) >= 1
  {
    UnreturnedUpdate(p.workers, k, Mapping(p.cursor));
    UnreturnedUpdate(p.workers, k, Returned);
  }

  /** A schedule that only moves workers that can move. */
  ghost predicate Fair<T(!new), R(!new)>(p: Pool<T, R>, mapper: T -> R, schedule: seq<int>)
    requires Shape(p)
    decreases |schedule|
  {
    schedule == [] ||
    (0 <= schedule[0] < |p.workers| && !p.workers[schedule[0]].Returned?
     && Fair(Step(p, mapper, schedule[0]), mapper, schedule[1..]))
  }

  lemma {:induction false} FairRunCounts<T(!new), R(!new)>(p: Pool<T, R>, mapper: T -> R, schedule: seq<int>)
    requires Inv(p, mapper) && Fair(p, mapper, schedule)
    ensures Left(Run(p, mapper, schedule)) == Left(p) - |schedule|
    decreases |schedule|
  {
    if schedule != [] {
      EveryMoveCounts(p, mapper, schedule[0]);
      StepKeepsInv(p, mapper, schedule[0]);
      FairRunCounts(Step(p, mapper, schedule[0]), mapper, schedule[1..]);
    }
  }

  lemma {:induction false} IdleCount(n: nat)
    ensures Unreturned(seq(n, _ => Idle)) == n
  {
    if n > 0 {
      IdleCount(n - 1);
      assert seq(n, _ => Idle)[1..] == seq(n - 1, _ => Idle);
    }
  }

  /** The pool finishes: it is over after exactly n plus the number of workers moves, in whatever order they come. */
  lemma PoolFinishes<T(!new), R(!new)>(items: seq<T>, concurrency: int, mapper: T -> R, schedule: seq<int>)
    requires Fair(Start<T, R>(items, concurrency), mapper, schedule)
    ensures var w := Max0(Min(concurrency, |items|));
      && |schedule| <= |items| + w
      && (concurrency >= 1 || items == [] ==>
            (AllReturned(Run(Start<T, R>(items, concurrency), mapper, schedule)) <==> |schedule| == |items| + w))
  {
    var start := Start<T, R>(items, concurrency);
    StartLeaves(items, concurrency, mapper);
    FairRunCounts(start, mapper, schedule);
    RunKeepsInv(start, mapper, schedule);
    NothingLeft(Run(start, mapper, schedule), mapper);
  }

  lemma StartLeaves<T(!new), R(!new)>(items: seq<T>, concurrency: int, mapper: T -> R)
    ensures var start := Start<T, R>(items, concurrency);
      Inv(start, mapper) && Left(start) == |items| + Max0(Min(concurrency, |items|))
  {
    IdleCount(Max0(Min(concurrency, |items|)));
  }

  /** No moves are left exactly when every worker has returned. */
  lemma NothingLeft<T(!new), R(!new)>(p: Pool<T, R>, mapper: T -> R)
    requires Inv(p, mapper)
    ensures Left(p) >= 0
    ensures p.workers != [] || p.items == [] ==> (Left(p) == 0 <==> AllReturned(p))
  {
    if AllReturned(p) && p.workers != [] { assert p.workers[0].Returned?; }
  }

  /** Without a worker nothing is mapped: the results stay empty. */
  lemma NoWorkersNoResults<T(!new), R(!new)>(items: seq<T>, concurrency: int, mapper: T -> R)
    ensures (forall i :: 0 <= i < |items| ==> Run(Start<T, R>(items, concurrency), mapper, []).results[i].None?)
    ensures AllReturned(Start<T, R>(items, concurrency)) <==> concurrency <= 0 || items == []
  {
    var start := Start<T, R>(items, concurrency);
    if concurrency >= 1 && items != [] { assert start.workers[0].Idle?; }
  }

  /* ---- The pool as an object ---- */

  class Workers<T(!new), R(!new)> {
    const items: seq<T>
    var cursor: nat
    var results: array<Option<R>>
    var workers: seq<Worker>
    ghost var started: seq<nat>

    ghost function View(): Pool<T, R>
      reads this, results
    {
      Pool(items, cursor, results[..], workers, started)
    }

    constructor (items: seq<T>, concurrency: int)
      ensures View() == Start(items, concurrency) && fresh(results)
    {
      this.items := items;
      cursor := 0;
      results := new Option<R>[|items|](_ => None);
      workers := seq(Max0(Min(concurrency, |items|)), _ => Idle);
      started := seq(|items|, _ => 0);
      new;
      assert results[..] == seq(|items|, _ => None);
    }

    /** The loop's condition and `cursor++`; the mapper call follows. */
    method TakeNextIndex(k: int)
      requires 0 <= k < |workers| && |started| == |items|
      modifies `cursor, `workers, `started
      ensures View() == TakeNext(old(View()), k)
    {
      if cursor < |items| {
        var index := cursor;
        cursor := cursor + 1;
        workers := workers[k := Mapping(index)];
        started := started[index := started[index] + 1];
      } else {
        workers := workers[k := Returned];
      }
    }

    /** The mapper has answered worker `k`. */
    method Resume(k: int, mapper: T -> R)
      requires Inv(View(), mapper) && 0 <= k < |workers| && !workers[k].Returned?
      modifies this, results
      ensures results == old(results)
      ensures View() == Step(old(View()), mapper, k) && Inv(View(), mapper)
    {
      StepKeepsInv(View(), mapper, k);
      ghost var before := View();
      if workers[k].Mapping? {
        var index := workers[k].index;
        results[index] := Some(mapper(items[index]));
        assert results[..] == before.results[index := Some(mapper(items[index]))];
      }
      TakeNextIndex(k);
    }
  }
}

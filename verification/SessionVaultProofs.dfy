/** What every run of the session vault keeps, whatever tabs and leases interleave. */
module SessionVaultProofs {
  import opened Basics
  import opened SessionVault

  /* ---- The history of the cell ---- */

  ghost predicate SameId(a: Cell, b: Cell) {
    HasId(a) && HasId(b) && Id(a) == Id(b)
  }

  /** Revisions of one id strictly increase, and a tombstone is final for its id. */
  ghost predicate Ordered(log: seq<Cell>) {
    forall i, j :: 0 <= i < j < |log| && SameId(log[i], log[j]) ==>
      Revision(log[i]) < Revision(log[j]) && (log[j].Locked? ==> log[i].Locked?)
  }

  /** What a stored locked record may replace. */
  ghost predicate MayReplace(before: Cell, after: Cell) {
    after.Locked? ==>
      || Available(before)
      || before.Legacy?
      || (before.Locked? && SameId(before, after) && after.record.revision == before.record.revision + 1
          && after.record.storage == before.record.storage && after.record.slots == before.record.slots)
  }

  ghost predicate Unseen(log: seq<Cell>, id: RecordId) {
    forall k :: 0 <= k < |log| && HasId(log[k]) ==> Id(log[k]) != id
  }

  ghost predicate Grows(log: seq<Cell>, c: Cell) {
    && |log| > 0
    && HasId(c)
    && MayReplace(log[|log| - 1], c)
    && (Unseen(log, Id(c)) ||
        (SameId(log[|log| - 1], c) && Revision(c) == Revision(log[|log| - 1]) + 1
         && (c.Locked? ==> log[|log| - 1].Locked?)))
  }

  ghost predicate History(log: seq<Cell>, cell: Cell) {
    && |log| > 0
    && log[|log| - 1] == cell
    && Ordered(log)
    && forall k :: 0 < k < |log| ==> HasId(log[k]) && MayReplace(log[k - 1], log[k])
  }

  lemma GrowsKeepsHistory(log: seq<Cell>, cell: Cell, c: Cell)
    requires History(log, cell) && Grows(log, c)
    ensures History(log + [c], c)
  {
    var longer := log + [c];
    forall i, j | 0 <= i < j < |longer| && SameId(longer[i], longer[j])
      ensures Revision(longer[i]) < Revision(longer[j]) && (longer[j].Locked? ==> longer[i].Locked?)
    {
      if j == |log| && i < |log| - 1 {
        assert SameId(log[i], log[|log| - 1]);
      }
    }
  }

  ghost predicate Stored(log: seq<Cell>, r: Record) {
    Locked(r) in log
  }

  /** The session was that of the last locked record of its id, directly replaced by its tombstone. */
  ghost predicate DeletedAt(log: seq<Cell>, k: nat, session: Session, target: Record) {
    && k + 1 < |log|
    && log[k] == Locked(target)
    && log[k + 1] == TombstoneFor(target)
    && target.payload.session == session
  }

  /* ---- Leases, outcomes and tasks ---- */

  ghost predicate HeadOk(log: seq<Cell>, l: Lease, request: Request, phase: Phase) {
    match phase
    case Sealing(expected, session, key) =>
      expected == l.record && request == ResealTo(Some(session)) && (l.dek.Some? ==> key == l.dek.value)
    case Committing(expected, next) =>
      && expected == l.record
      && request == ResealTo(Some(next.payload.session))
      && next == Seal(next.payload.session, expected.recordId, expected.revision + 1, expected.storage, expected.slots, next.payload.key, next.payload.nonce)
      && (l.dek.Some? ==> next.payload.key == l.dek.value)
    case Committed(next) =>
      && Stored(log, next)
      && next.recordId == l.record.recordId
      && request == ResealTo(Some(next.payload.session))
      && (l.dek.Some? ==> Open(next, l.dek.value) == Some(next.payload.session))
    case Deleting(session, target) =>
      request.DeleteRecord? && target == l.record && target.payload.session == session
    case Deleted(session, target) =>
      request.DeleteRecord? && target.recordId == l.record.recordId && exists k :: DeletedAt(log, k, session, target)
    case _ => true
  }

  ghost predicate LeaseOk(log: seq<Cell>, l: Lease) {
    && Stored(log, l.record)
    && (l.dek.None? <==> l.session.None?)
    && (l.dek.Some? ==> Open(l.record, l.dek.value) == l.session)
    && (forall k :: 0 < k < |l.chain| ==> l.chain[k].phase.Waiting?)
    && (|l.chain| > 0 ==> HeadOk(log, l, l.chain[0].request, l.chain[0].phase))
    && (forall k :: 0 <= k < |l.answers| ==> AnswerOk(log, l.record.recordId, l.answers[k]))
  }

  ghost predicate AnswerOk(log: seq<Cell>, id: RecordId, a: Answer) {
    match a.outcome
    case Resealed(next) =>
      Stored(log, next) && next.recordId == id && a.request == ResealTo(Some(next.payload.session))
    case DeletionDone(session, cleanup) =>
      && a.request.DeleteRecord?
      && exists k, target :: DeletedAt(log, k, session, target) && target.recordId == id && cleanup == CleanupFor(target)
    case _ => true
  }

  /** The record a task has sealed under a fresh id and not stored yet. */
  ghost predicate SealedFor(w: World, session: Session, r: Record) {
    && r.recordId in w.drawn
    && Unseen(w.log, r.recordId)
    && Open(r, r.slots.wrapped) == Some(session)
    && r.revision == 1
  }

  ghost predicate TaskOk(w: World, task: Task) {
    match task
    case CreateStarted(_, start) => Available(start)
    case CreateSealed(session, start, r) => Available(start) && SealedFor(w, session, r)
    case MigrateSealed(session, expected, r) => expected.Legacy? && SealedFor(w, session, r)
    case MigrateCleared(session, expected, r) => expected.Legacy? && SealedFor(w, session, r)
    case Enrolled(session, r) => Stored(w.log, r) && Open(r, r.slots.wrapped) == Some(session)
    case UnlockRead(r) => Stored(w.log, r)
    case CleanupChecked(_) => w.cell.Tombstone?
    case RuntimeChecked(_) => w.cell.Tombstone?
    case _ => true
  }

  ghost predicate Inv(w: World) {
    && History(w.log, w.cell)
    && (forall k :: 0 <= k < |w.log| && HasId(w.log[k]) ==> Id(w.log[k]) in w.drawn)
    && (forall t :: t in w.tasks ==> w.lock == Some(t) && TaskOk(w, w.tasks[t]))
    && (forall i :: i in w.leases ==> LeaseOk(w.log, w.leases[i]))
  }

  lemma InitialInv(w: World)
    requires Initial(w)
    ensures Inv(w)
  {
  }

  /* ---- Storing a value ---- */

  lemma AnswerAfter(log: seq<Cell>, c: Cell, id: RecordId, a: Answer)
    requires AnswerOk(log, id, a)
    ensures AnswerOk(log + [c], id, a)
  {
    if a.outcome.DeletionDone? {
      var o := a.outcome;
      var k, target :| DeletedAt(log, k, o.session, target) && target.recordId == id && o.cleanup == CleanupFor(target);
      assert DeletedAt(log + [c], k, o.session, target);
    }
  }

  lemma StoredAfter(log: seq<Cell>, c: Cell, l: Lease)
    requires LeaseOk(log, l)
    ensures LeaseOk(log + [c], l)
  {
    if |l.chain| > 0 && l.chain[0].phase.Deleted? {
      var p := l.chain[0].phase;
      var k :| DeletedAt(log, k, p.session, p.target);
      assert DeletedAt(log + [c], k, p.session, p.target);
    }
    forall k | 0 <= k < |l.answers| ensures AnswerOk(log + [c], l.record.recordId, l.answers[k]) {
      AnswerAfter(log, c, l.record.recordId, l.answers[k]);
    }
  }

  /** A write that fits the history, keeps checked markers and steals no sealed id, keeps everything. */
  lemma PutKeepsInv(w: World, c: Cell)
    requires Inv(w) && Grows(w.log, c) && Id(c) in w.drawn
    requires w.cell.Tombstone? ==> c.Tombstone? || forall t :: t in w.tasks ==> !w.tasks[t].CleanupChecked? && !w.tasks[t].RuntimeChecked?
    requires forall t :: t in w.tasks && (w.tasks[t].CreateSealed? || w.tasks[t].MigrateSealed? || w.tasks[t].MigrateCleared?)
               ==> w.tasks[t].record.recordId != Id(c)
    ensures Inv(Put(w, c))
  {
    var v := Put(w, c);
    GrowsKeepsHistory(w.log, w.cell, c);
    forall i | i in v.leases ensures LeaseOk(v.log, v.leases[i]) { StoredAfter(w.log, c, w.leases[i]); }
    forall t | t in v.tasks ensures v.lock == Some(t) && TaskOk(v, v.tasks[t]) { assert TaskOk(w, w.tasks[t]); }
  }

  /** A write under the cell's own id. */
  lemma ContinueKeepsInv(w: World, c: Cell)
    requires Inv(w) && SameId(w.cell, c) && Grows(w.log, c)
    requires w.cell.Tombstone? ==> c.Tombstone?
    ensures Inv(Put(w, c))
  {
    var last := |w.log| - 1;
    assert w.log[last] == w.cell && Id(w.log[last]) == Id(c);
    forall t | t in w.tasks && (w.tasks[t].CreateSealed? || w.tasks[t].MigrateSealed? || w.tasks[t].MigrateCleared?)
      ensures w.tasks[t].record.recordId != Id(c)
    {
      assert TaskOk(w, w.tasks[t]);
    }
    PutKeepsInv(w, c);
  }

  /** A lease whose record carries the cell's pair holds exactly the cell's record. */
  lemma PairNamesRecord(log: seq<Cell>, cell: Cell, r: Record)
    requires History(log, cell) && Stored(log, r) && SamePair(cell, r)
    ensures cell == Locked(r)
  {
    var i :| 0 <= i < |log| && log[i] == Locked(r);
    if i < |log| - 1 { assert SameId(log[i], log[|log| - 1]); }
  }

  /* ---- One segment of a lease ---- */

  lemma PublishKeepsInv(w: World, i: nat, l: Lease)
    requires Inv(w) && LeaseOk(w.log, l)
    ensures Inv(w.(leases := w.leases[i := l]))
  {
  }

  lemma BeginKeepsLease(log: seq<Cell>, l: Lease)
    requires LeaseOk(log, l) && |l.chain| > 0 && l.chain[0].phase.Waiting?
    ensures LeaseOk(log, BeginJob(l).lease)
  {
  }

  lemma TransactKeepsLease(log: seq<Cell>, cell: Cell, l: Lease)
    requires LeaseOk(log, l) && |l.chain| > 0 && RunTransaction(l, cell).put.None?
    ensures LeaseOk(log, RunTransaction(l, cell).lease)
  {
  }

  lemma ResumeKeepsLease(log: seq<Cell>, l: Lease)
    requires LeaseOk(log, l) && |l.chain| > 0
    ensures LeaseOk(log, ResumeJob(l).lease)
  {
    if l.chain[0].phase.Deleted? {
      var p := l.chain[0].phase;
      var k :| DeletedAt(log, k, p.session, p.target);
      assert AnswerOk(log, l.record.recordId, Answer(l.chain[0].request, DeletionDone(p.session, CleanupFor(p.target))));
    }
  }

  lemma QuietMoveKeepsLease(log: seq<Cell>, cell: Cell, l: Lease, m: Move)
    requires LeaseOk(log, l) && LeaseStep(l, cell, m).put.None?
    ensures LeaseOk(log, LeaseStep(l, cell, m).lease)
  {
    if |l.chain| > 0 {
      match m
      case Begin => if l.chain[0].phase.Waiting? { BeginKeepsLease(log, l); }
      case Transact => TransactKeepsLease(log, cell, l);
      case Resume => ResumeKeepsLease(log, l);
      case _ =>
    }
  }

  /** The three cases in which a lease's transaction overwrites the cell. */
  lemma PutMoveKeepsLease(log: seq<Cell>, cell: Cell, l: Lease, m: Move)
    requires LeaseOk(log, l) && History(log, cell) && LeaseStep(l, cell, m).put.Some?
    ensures m.Transact? && |l.chain| > 0
    ensures cell == Locked(l.record) && SameId(cell, LeaseStep(l, cell, m).put.value)
    ensures Grows(log, LeaseStep(l, cell, m).put.value)
    ensures LeaseOk(log + [LeaseStep(l, cell, m).put.value], LeaseStep(l, cell, m).lease)
  {
    var e := LeaseStep(l, cell, m);
    var c := e.put.value;
    PairNamesRecord(log, cell, l.record);
    StoredAfter(log, c, l);
    var longer := log + [c];
    assert longer[|log|] == c && longer[|log| - 1] == cell;
    if l.chain[0].phase.Deleting? {
      var p := l.chain[0].phase;
      assert DeletedAt(longer, |log| - 1, p.session, p.target);
    }
  }

  lemma LeaseMoveKeepsInv(w: World, i: nat, m: Move)
    requires Inv(w) && i in w.leases
    ensures Inv(ApplyLease(w, i, m))
  {
    var l := w.leases[i];
    var e := LeaseStep(l, w.cell, m);
    if e.put.Some? {
      PutMoveKeepsLease(w.log, w.cell, l, m);
      ContinueKeepsInv(w, e.put.value);
      PublishKeepsInv(Put(w, e.put.value), i, e.lease);
    } else {
      QuietMoveKeepsLease(w.log, w.cell, l, m);
      PublishKeepsInv(w, i, e.lease);
    }
  }

  /* ---- One segment of a lock-holding task ---- */

  lemma ReleaseKeepsInv(w: World, t: nat)
    requires Inv(w) && t in w.tasks
    ensures Inv(Release(w, t))
  {
    assert forall u :: u in w.tasks ==> u == t;
  }

  lemma BecomeKeepsInv(w: World, t: nat, task: Task)
    requires Inv(w) && t in w.tasks && TaskOk(w, task)
    ensures Inv(Become(w, t, task))
  {
  }

  /** The lock makes the holder the only task, so it may store an unseen id. */
  lemma EnrolKeepsInv(w: World, t: nat, session: Session, r: Record)
    requires Inv(w) && t in w.tasks && SealedFor(w, session, r)
    requires Available(w.cell) || w.cell.Legacy?
    ensures Inv(Become(Put(w, Locked(r)), t, Enrolled(session, r)))
  {
    var alone := w.(tasks := map[t := CreateOwned(session)]);
    assert forall u :: u in w.tasks ==> u == t;
    assert Inv(alone);
    assert Grows(w.log, Locked(r));
    PutKeepsInv(alone, Locked(r));
    var v := Put(alone, Locked(r));
    assert v.log[|w.log|] == Locked(r);
    BecomeKeepsInv(v, t, Enrolled(session, r));
    assert Become(Put(w, Locked(r)), t, Enrolled(session, r)) == Become(v, t, Enrolled(session, r)) by {
      assert w.tasks[t := Enrolled(session, r)] == alone.tasks[t := Enrolled(session, r)];
    }
  }

  lemma DrawKeepsInv(w: World, id: RecordId)
    requires Inv(w) && id !in w.drawn
    ensures Inv(w.(drawn := w.drawn + {id})) && Unseen(w.log, id)
  {
    var v := w.(drawn := w.drawn + {id});
    forall t | t in v.tasks ensures v.lock == Some(t) && TaskOk(v, v.tasks[t]) { assert TaskOk(w, w.tasks[t]); }
  }

  lemma ForgetKeepsInv(w: World, t: nat, id: RecordId)
    requires Inv(w) && t in w.tasks && id !in w.drawn
    ensures Inv(Release(Put(w.(drawn := w.drawn + {id}), Forget(w.cell, id)), t))
  {
    DrawKeepsInv(w, id);
    var d := w.(drawn := w.drawn + {id});
    ReleaseKeepsInv(d, t);
    var free := Release(d, t);
    assert forall u :: u in w.tasks ==> u == t;
    var c := Forget(w.cell, id);
    assert Grows(free.log, c);
    assert Id(c) in free.drawn by { assert w.cell == w.log[|w.log| - 1]; }
    PutKeepsInv(free, c);
    assert Put(free, c) == Release(Put(d, c), t);
  }

  lemma CreateKeepsInv(w: World, t: nat, d: Draw, task: Task)
    requires Inv(w) && t in w.tasks && task == w.tasks[t] && Creates(task)
    ensures Inv(CreateSegment(w, t, d, task))
  {
    assert TaskOk(w, task);
    match task
    case CreateOwned(session) =>
      if Available(w.cell) { BecomeKeepsInv(w, t, CreateStarted(session, w.cell)); } else { ReleaseKeepsInv(w, t); }
    case CreateStarted(session, start) =>
      if d.recordId !in w.drawn {
        DrawKeepsInv(w, d.recordId);
        BecomeKeepsInv(w.(drawn := w.drawn + {d.recordId}), t, CreateSegment(w, t, d, task).tasks[t]);
      }
    case CreateSealed(session, start, r) =>
      if w.cell == start { EnrolKeepsInv(w, t, session, r); } else { ReleaseKeepsInv(w, t); }
  }

  lemma MigrateKeepsInv(w: World, t: nat, d: Draw, task: Task)
    requires Inv(w) && t in w.tasks && task == w.tasks[t] && Migrates(task)
    ensures Inv(MigrateSegment(w, t, d, task))
  {
    assert TaskOk(w, task);
    match task
    case MigrateOwned(session, expected) =>
      if w.cell != expected || !expected.Legacy? || session.prefix != expected.session.prefix {
        ReleaseKeepsInv(w, t);
      } else if d.recordId !in w.drawn {
        DrawKeepsInv(w, d.recordId);
        BecomeKeepsInv(w.(drawn := w.drawn + {d.recordId}), t, MigrateSegment(w, t, d, task).tasks[t]);
      }
    case MigrateSealed(session, expected, r) =>
      if d.ok { BecomeKeepsInv(w, t, MigrateCleared(session, expected, r)); } else { ReleaseKeepsInv(w, t); }
    case MigrateCleared(session, expected, r) =>
      if w.cell == expected { EnrolKeepsInv(w, t, session, r); } else { ReleaseKeepsInv(w, t); }
  }

  lemma LeaseSegmentKeepsInv(w: World, t: nat, d: Draw, task: Task)
    requires Inv(w) && t in w.tasks && task == w.tasks[t] && Leases(task)
    ensures Inv(LeaseSegment(w, t, d, task))
  {
    assert TaskOk(w, task);
    ReleaseKeepsInv(w, t);
    match task
    case Enrolled(session, r) =>
      if d.lease !in w.leases { PublishKeepsInv(Release(w, t), d.lease, NewLease(r, session, r.slots.wrapped)); }
    case UnlockOwned(_, _, _) =>
      if w.cell.Locked? {
        assert w.cell == w.log[|w.log| - 1];
        BecomeKeepsInv(w, t, UnlockRead(w.cell.record));
      }
    case UnlockRead(r) => UnlockReadKeepsInv(w, t, d, r);
    case UnlockVerifying(i) =>
      if i in w.leases {
        LeaseMoveKeepsInv(w, i, Dispose);
        ReleaseKeepsInv(ApplyLease(w, i, Dispose), t);
      }
  }

  lemma UnlockReadKeepsInv(w: World, t: nat, d: Draw, r: Record)
    requires Inv(w) && t in w.tasks && Stored(w.log, r)
    ensures Inv(LeaseSegment(w, t, d, UnlockRead(r)))
  {
    ReleaseKeepsInv(w, t);
    var plain := Open(r, r.slots.wrapped);
    if plain.Some? && d.lease !in w.leases {
      var l := NewLease(r, plain.value, r.slots.wrapped).(chain := [Job(AssertCurrent, Waiting)]);
      PublishKeepsInv(w, d.lease, l);
      BecomeKeepsInv(w.(leases := w.leases[d.lease := l]), t, UnlockVerifying(d.lease));
    }
  }

  lemma CleanupKeepsInv(w: World, t: nat, d: Draw, task: Task)
    requires Inv(w) && t in w.tasks && task == w.tasks[t] && !Creates(task) && !Migrates(task) && !Leases(task)
    ensures Inv(CleanupSegment(w, t, d, task))
  {
    if task.ForgetOwned? {
      if d.recordId !in w.drawn { ForgetKeepsInv(w, t, d.recordId); }
    } else {
      var v := CleanupSegment(w, t, d, task);
      if t in v.tasks && v == Become(w, t, v.tasks[t]) {
        BecomeKeepsInv(w, t, v.tasks[t]);
      } else if v != w {
        ReleaseKeepsInv(w, t);
      }
    }
  }

  lemma AdvanceKeepsInv(w: World, t: nat, d: Draw)
    requires Inv(w) && t in w.tasks
    ensures Inv(AdvanceTask(w, t, d))
  {
    var task := w.tasks[t];
    if Creates(task) { CreateKeepsInv(w, t, d, task); }
    else if Migrates(task) { MigrateKeepsInv(w, t, d, task); }
    else if Leases(task) { LeaseSegmentKeepsInv(w, t, d, task); }
    else { CleanupKeepsInv(w, t, d, task); }
  }

  lemma CompletionGrows(log: seq<Cell>, cell: Cell, d: Cleanup)
    requires History(log, cell) && MatchesMarker(cell, d)
    ensures Grows(log, Completed(d))
  {
    assert log[|log| - 1] == cell;
  }

  lemma CompleteKeepsInv(w: World, d: Cleanup)
    requires Inv(w) && MatchesMarker(w.cell, d)
    ensures Inv(Put(w, Completed(d)))
  {
    CompletionGrows(w.log, w.cell, d);
    ContinueKeepsInv(w, Completed(d));
  }

  lemma CompleteStepKeepsInv(w: World, d: Cleanup)
    requires Inv(w)
    ensures Inv(Step(w, Complete(d)))
  {
    if MatchesMarker(w.cell, d) {
      CompleteKeepsInv(w, d);
      assert Step(w, Complete(d)) == Put(w, Completed(d));
    } else {
      assert Step(w, Complete(d)) == w;
    }
  }

  lemma AcquireKeepsInv(w: World, t: nat, kind: Task)
    requires Inv(w)
    ensures Inv(Step(w, Acquire(t, kind)))
  {
  }

  lemma CloseKeepsInv(w: World, i: nat)
    requires Inv(w)
    ensures Inv(Step(w, WindowClosed(i)))
  {
  }

  lemma StepKeepsInv(w: World, e: Event)
    requires Inv(w)
    ensures Inv(Step(w, e))
  {
    match e
    case Acquire(t, kind) => AcquireKeepsInv(w, t, kind);
    case Advance(t, d) => if t in w.tasks { AdvanceKeepsInv(w, t, d); }
    case Abandon(t) => if t in w.tasks { ReleaseKeepsInv(w, t); }
    case LeaseMove(i, m) => if i in w.leases { LeaseMoveKeepsInv(w, i, m); }
    case WindowClosed(i) => CloseKeepsInv(w, i);
    case Complete(marker) => CompleteStepKeepsInv(w, marker);
  }

  lemma {:induction false} RunKeepsInv(w: World, es: seq<Event>)
    requires Inv(w)
    ensures Inv(Run(w, es))
    decreases |es|
  {
    if es != [] {
      StepKeepsInv(w, es[0]);
      RunKeepsInv(Step(w, es[0]), es[1..]);
    }
  }

  /* ---- Main results ---- */

  ghost predicate Reachable(w: World) {
    exists start, es :: Initial(start) && w == Run(start, es)
  }

  lemma ReachableInv(w: World)
    requires Reachable(w)
    ensures Inv(w)
  {
    var start, es :| Initial(start) && w == Run(start, es);
    InitialInv(start);
    RunKeepsInv(start, es);
  }

  /** Over a whole run a (recordId, revision) pair names one stored value, at one point of the history. */
  lemma PairNamesOneValue(w: World, i: nat, j: nat)
    requires Reachable(w)
    requires i < |w.log| && j < |w.log| && SameId(w.log[i], w.log[j]) && Revision(w.log[i]) == Revision(w.log[j])
    ensures i == j
  {
    ReachableInv(w);
    assert SameId(w.log[j], w.log[i]);
  }

  /** The two-field check of reseal and delete is as strong as the full comparison of assertCurrent. */
  lemma TwoFieldCheckIsExact(w: World, i: nat)
    requires Reachable(w) && i in w.leases
    ensures SamePair(w.cell, w.leases[i].record) <==> w.cell == Locked(w.leases[i].record)
  {
    ReachableInv(w);
    assert LeaseOk(w.log, w.leases[i]);
    if SamePair(w.cell, w.leases[i].record) { PairNamesRecord(w.log, w.cell, w.leases[i].record); }
  }

  lemma StepExtendsLog(w: World, e: Event)
    ensures w.log <= Step(w, e).log
  {
  }

  lemma {:induction false} RunExtendsLog(w: World, es: seq<Event>)
    ensures w.log <= Run(w, es).log
    decreases |es|
  {
    if es != [] {
      StepExtendsLog(w, es[0]);
      RunExtendsLog(Step(w, es[0]), es[1..]);
    }
  }

  ghost predicate Buried(log: seq<Cell>, id: RecordId) {
    exists k :: 0 <= k < |log| && log[k].Tombstone? && log[k].recordId == id
  }

  lemma NoLockedAfter(log: seq<Cell>, b: nat, k: nat)
    requires Ordered(log) && b <= k < |log| && log[b].Tombstone?
    ensures log[k].Locked? ==> log[k].record.recordId != log[b].recordId
  {
    var same := SameId(log[b], log[k]);
  }

  /** Once a tombstone for an id is stored, no later state holds a locked record with that id. */
  lemma DeletionIsPermanent(w: World, es: seq<Event>, id: RecordId)
    requires Reachable(w) && Buried(w.log, id)
    ensures Run(w, es).cell.Locked? ==> Run(w, es).cell.record.recordId != id
  {
    ReachableInv(w);
    RunKeepsInv(w, es);
    RunExtendsLog(w, es);
    var v := Run(w, es);
    var b :| 0 <= b < |w.log| && w.log[b].Tombstone? && w.log[b].recordId == id;
    assert v.log[b] == w.log[b];
    NoLockedAfter(v.log, b, |v.log| - 1);
  }

  /** The session a deletion reports is that of the last locked record ever stored under its id. */
  lemma DeletionReportsLastSession(w: World, i: nat, n: nat) returns (k: nat)
    requires Reachable(w) && i in w.leases && n < |w.leases[i].answers| && w.leases[i].answers[n].outcome.DeletionDone?
    ensures k + 1 < |w.log| && w.log[k].Locked? && w.log[k].record.recordId == w.leases[i].record.recordId
    ensures w.log[k].record.payload.session == w.leases[i].answers[n].outcome.session
    ensures w.log[k + 1] == TombstoneFor(w.log[k].record)
    ensures w.leases[i].answers[n].outcome.cleanup == CleanupFor(w.log[k].record)
    ensures forall j :: k < j < |w.log| && SameId(w.log[k], w.log[j]) ==> !w.log[j].Locked?
  {
    ReachableInv(w);
    assert LeaseOk(w.log, w.leases[i]);
    k := LastSessionOf(w.log, w.cell, w.leases[i], n);
  }

  lemma LastSessionOf(log: seq<Cell>, cell: Cell, l: Lease, n: nat) returns (k: nat)
    requires History(log, cell) && LeaseOk(log, l) && n < |l.answers| && l.answers[n].outcome.DeletionDone?
    ensures k + 1 < |log| && log[k].Locked? && log[k].record.recordId == l.record.recordId
    ensures log[k].record.payload.session == l.answers[n].outcome.session
    ensures log[k + 1] == TombstoneFor(log[k].record)
    ensures l.answers[n].outcome.cleanup == CleanupFor(log[k].record)
    ensures forall j :: k < j < |log| && SameId(log[k], log[j]) ==> !log[j].Locked?
  {
    var o := l.answers[n].outcome;
    assert AnswerOk(log, l.record.recordId, l.answers[n]);
    var at, target :| DeletedAt(log, at, o.session, target) && target.recordId == l.record.recordId && o.cleanup == CleanupFor(target);
    k := at;
    forall j | k < j < |log| && SameId(log[k], log[j]) ensures !log[j].Locked? {
      if j > k + 1 { NoLockedAfter(log, k + 1, j); }
    }
  }

  /** Behind a committed deletion no reseal of that record, on any lease, ever writes the cell. */
  lemma ResealBehindDeleteNeverCommits(w: World, i: nat, m: Move)
    requires Reachable(w) && i in w.leases && Buried(w.log, w.leases[i].record.recordId)
    ensures LeaseStep(w.leases[i], w.cell, m).put.None?
    ensures Step(w, LeaseMove(i, m)).cell == w.cell && Step(w, LeaseMove(i, m)).log == w.log
  {
    ReachableInv(w);
    BuriedLeaseIsQuiet(w.log, w.cell, w.leases[i], m);
  }

  lemma BuriedLeaseIsQuiet(log: seq<Cell>, cell: Cell, l: Lease, m: Move)
    requires History(log, cell) && LeaseOk(log, l) && Buried(log, l.record.recordId)
    ensures LeaseStep(l, cell, m).put.None?
  {
    var b :| 0 <= b < |log| && log[b].Tombstone? && log[b].recordId == l.record.recordId;
    NoLockedAfter(log, b, |log| - 1);
  }

  /** A disposed lease never regains its key or its session while its window lives. */
  lemma {:induction false} DisposedForGood(w: World, es: seq<Event>, i: nat)
    requires i in w.leases && w.leases[i].dek.None? && w.leases[i].session.None?
    requires WindowClosed(i) !in es
    ensures i in Run(w, es).leases && Run(w, es).leases[i].dek.None? && Run(w, es).leases[i].session.None?
    decreases |es|
  {
    if es != [] {
      DisposedStep(w, es[0], i);
      DisposedForGood(Step(w, es[0]), es[1..], i);
    }
  }

  lemma DisposedStep(w: World, e: Event, i: nat)
    requires i in w.leases && w.leases[i].dek.None? && w.leases[i].session.None?
    ensures i in Step(w, e).leases ==> Step(w, e).leases[i].dek.None? && Step(w, e).leases[i].session.None?
    ensures i !in Step(w, e).leases ==> e == WindowClosed(i)
  {
  }

  /** A new login replaces only an absent cell or a tombstone with nothing left to clean. */
  lemma LoginReplacesOnlyAvailable(w: World, t: nat, d: Draw)
    requires Reachable(w) && t in w.tasks && Creates(w.tasks[t])
    ensures Step(w, Advance(t, d)).log != w.log ==> Available(w.cell) && w.lock == Some(t)
    ensures Step(w, Advance(t, d)).cell != w.cell ==>
      Step(w, Advance(t, d)).cell.Locked? && Unseen(w.log, Step(w, Advance(t, d)).cell.record.recordId)
  {
    ReachableInv(w);
    assert TaskOk(w, w.tasks[t]);
  }

  /** Every stored locked record either continues the one before it or takes an available or legacy cell. */
  lemma EveryLockedRecordHadARightTo(w: World, k: nat)
    requires Reachable(w) && 0 < k < |w.log| && w.log[k].Locked?
    ensures SameId(w.log[k - 1], w.log[k]) ==>
              w.log[k - 1].Locked? && Revision(w.log[k]) == Revision(w.log[k - 1]) + 1
              && w.log[k].record.storage == w.log[k - 1].record.storage && w.log[k].record.slots == w.log[k - 1].record.slots
    ensures !SameId(w.log[k - 1], w.log[k]) ==> Available(w.log[k - 1]) || w.log[k - 1].Legacy?
  {
    ReachableInv(w);
    assert MayReplace(w.log[k - 1], w.log[k]);
    if SameId(w.log[k - 1], w.log[k]) { assert w.log[k - 1].Locked?; }
  }

  /** The segments that hand database names to deleteDatabase. */
  predicate IssuesCryptoDeletion(w: World, e: Event) {
    e.Advance? && e.task in w.tasks && (w.tasks[e.task].CleanupChecked? || w.tasks[e.task].RuntimeChecked?)
  }

  /** Crypto databases are deleted only under the vault lock and never beside a locked record. */
  lemma CleanupNeverHitsLiveSession(w: World, e: Event)
    requires Reachable(w) && IssuesCryptoDeletion(w, e)
    ensures w.lock == Some(e.task) && w.tasks.Keys == {e.task} && w.cell.Tombstone?
  {
    ReachableInv(w);
    assert TaskOk(w, w.tasks[e.task]);
    assert forall t :: t in w.tasks ==> t == e.task;
  }
}

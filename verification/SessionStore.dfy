/**
The objects of lib/matrix/session-store.ts: the stored cell and the lease.
A method is the code between two awaits; its contract is the step of
SessionVault, so the results about runs hold of these methods in any
interleaving, and each keeps what those results rest on: the history of the
cell, and a lease whose record, key and answers agree with that history.
*/
module SessionStore {
  import opened Basics
  import opened SessionVault
  import opened SessionVaultProofs

  /** The single IndexedDB key. Each method is one read-write transaction. */
  class StoredSession {
    var cell: Cell
    ghost var log: seq<Cell>   // every value the key has held

    /** Revisions increase per id, tombstones are final, and every locked record had a right to its place. */
    ghost predicate Valid()
      reads this
    {
      History(log, cell)
    }

    constructor (initial: Cell)
      ensures cell == initial && log == [initial] && Valid()
    {
      cell, log := initial, [initial];
    }

    /** `store.put(...)`. */
    method Put(value: Cell)
      modifies this
      ensures cell == value && log == old(log) + [value]
      ensures old(Valid()) && Grows(old(log), value) ==> Valid()
    {
      ghost var before := log;
      if History(before, cell) && Grows(before, value) { GrowsKeepsHistory(before, cell, value); }
      cell, log := value, log + [value];
    }

    method CommitNewRecord(start: Cell, record: Record) returns (ok: bool)
      modifies this
      ensures ok <==> SessionVault.CommitNewRecord(old(cell), start, record).Ok?
      ensures cell == if ok then SessionVault.CommitNewRecord(old(cell), start, record).value else old(cell)
      ensures log == if ok then old(log) + [cell] else old(log)
      ensures old(Valid()) && Available(start) && Unseen(old(log), record.recordId) ==> Valid()
    {
      if cell != start { return false; }
      Put(Locked(record));
      return true;
    }

    method CommitMigratedRecord(expected: Cell, record: Record) returns (ok: bool)
      modifies this
      ensures ok <==> SessionVault.CommitMigratedRecord(old(cell), expected, record).Ok?
      ensures cell == if ok then SessionVault.CommitMigratedRecord(old(cell), expected, record).value else old(cell)
      ensures log == if ok then old(log) + [cell] else old(log)
      ensures old(Valid()) && expected.Legacy? && Unseen(old(log), record.recordId) ==> Valid()
    {
      if cell.Absent? || cell != expected { return false; }
      Put(Locked(record));
      return true;
    }

    method CommitReseal(expected: Record, next: Record) returns (ok: bool)
      modifies this
      ensures ok <==> SessionVault.CommitReseal(old(cell), expected, next).Ok?
      ensures cell == if ok then SessionVault.CommitReseal(old(cell), expected, next).value else old(cell)
      ensures log == if ok then old(log) + [cell] else old(log)
      ensures old(Valid()) && Stored(old(log), expected) && next == expected.(revision := expected.revision + 1, payload := next.payload) ==>
                Valid() && (ok ==> old(cell) == Locked(expected))
    {
      if !cell.Locked? { return false; }
      var current := cell.record;
      if current.recordId != expected.recordId || current.revision != expected.revision { return false; }
      ghost var before := log;
      if History(before, cell) && Stored(before, expected) { PairNamesRecord(before, cell, expected); }
      Put(Locked(next));
      return true;
    }

    method CommitTombstone(record: Record) returns (ok: bool)
      modifies this
      ensures ok <==> SessionVault.CommitTombstone(old(cell), record).Ok?
      ensures cell == if ok then SessionVault.CommitTombstone(old(cell), record).value else old(cell)
      ensures log == if ok then old(log) + [cell] else old(log)
      ensures old(Valid()) ==> Valid()
    {
      if !cell.Locked? { return false; }
      var current := cell.record;
      if current.recordId != record.recordId || current.revision != record.revision { return false; }
      Put(Tombstone(record.recordId, record.revision + 1, Some(Exact(record.storage))));
      return true;
    }

    method ForgetLocalSession(drawn: RecordId) returns (cleanup: Cleanup)
      modifies this
      ensures cell == Forget(old(cell), drawn)
      ensures MatchesMarker(cell, cleanup) && log == old(log) + [cell]
      ensures old(Valid()) && Unseen(old(log), drawn) ==> Valid()
    {
      var recordId, revision, pending := drawn, 1, AllOwned;
      match cell {
        case Locked(locked) =>
          recordId, revision := locked.recordId, locked.revision + 1;
        case Tombstone(id, rev, scope) =>
          recordId, revision := id, rev + 1;
          if scope.Some? { pending := scope.value; }
        case Legacy(session, sync) =>
          pending := Exact(Storage(session.prefix, Some(sync)));
        case _ =>
      }
      Put(Tombstone(recordId, revision, Some(pending)));
      cleanup := Cleanup(recordId, revision, pending);
    }

    method CompleteLocalSessionCleanup(descriptor: Cleanup) returns (ok: bool)
      modifies this
      ensures ok <==> CompleteCleanup(old(cell), descriptor).Ok?
      ensures cell == if ok then CompleteCleanup(old(cell), descriptor).value else old(cell)
      ensures log == if ok then old(log) + [cell] else old(log)
      ensures old(Valid()) ==> Valid()
    {
      if !cell.Tombstone? { return false; }
      if cell.recordId != descriptor.recordId || cell.revision != descriptor.revision
         || cell.pending != Some(descriptor.scope) {
        return false;
      }
      Put(Tombstone(cell.recordId, cell.revision + 1, None));
      return true;
    }
  }

  /** An unlocked record: its key, its plaintext, and the chain that serializes its operations. */
  class SessionLease {
    var record: Record
    var session: Option<Session>
    var dek: Option<Key>
    var serialized: seq<Job>
    var answers: seq<Answer>

    function View(): Lease
      reads this
    {
      Lease(record, session, dek, serialized, answers)
    }

    /** The record was stored, the key opens it to the session, only the head has begun, and the answers are true. */
    ghost predicate Valid(store: StoredSession)
      reads this, store
    {
      store.Valid() && LeaseOk(store.log, View())
    }

    constructor (record: Record, session: Session, dek: Key, ghost store: StoredSession)
      requires store.Valid() && Stored(store.log, record) && Open(record, dek) == Some(session)
      ensures View() == NewLease(record, session, dek) && Valid(store)
    {
      this.record, this.session, this.dek := record, Some(session), Some(dek);
      serialized, answers := [], [];
    }

    /** reseal, deleteRecord and assertCurrent up to `this.#serialized.then`. */
    method Enqueue(request: Request, ghost store: StoredSession) returns (accepted: bool)
      requires Valid(store)
      modifies this
      ensures Valid(store)
      ensures View() == LeaseStep(old(View()), store.cell, Call(request)).lease
      ensures accepted <==> old(View()).dek.Some?
    {
      QuietMoveKeepsLease(store.log, store.cell, View(), Call(request));
      if dek.None? { return false; }
      serialized := serialized + [Job(request, Waiting)];
      accepted := true;
    }

    method Settled(outcome: Outcome)
      requires |serialized| > 0
      modifies this
      ensures View() == Settle(old(View()), outcome).lease
    {
      answers := answers + [Answer(serialized[0].request, outcome)];
      serialized := serialized[1..];
    }

    method Enter(phase: Phase)
      requires |serialized| > 0
      modifies this
      ensures View() == InPhase(old(View()), phase)
    {
      serialized := serialized[0 := serialized[0].(phase := phase)];
    }

    /** The head's first segment, up to its first await. */
    method BeginNext(ghost store: StoredSession)
      requires Valid(store) && |serialized| > 0 && serialized[0].phase.Waiting?
      modifies this
      ensures Valid(store)
      ensures View() == LeaseStep(old(View()), store.cell, Begin).lease
    {
      QuietMoveKeepsLease(store.log, store.cell, View(), Begin);
      if dek.None? || session.None? {
        Settled(Refused(Disposed));
      } else {
        match serialized[0].request {
          case ResealTo(None) => Settled(Refused(InvalidInput));
          case ResealTo(Some(next)) =>
            if session.value.account != next.account || session.value.prefix != next.prefix {
              Settled(Refused(InvalidInput));
            } else {
              Enter(Sealing(record, next, dek.value));
            }
          case DeleteRecord => Enter(Deleting(session.value, record));
          case AssertCurrent => Enter(Reading);
        }
      }
    }

    method EncryptionFinished(nonce: nat, ghost store: StoredSession)
      requires Valid(store) && |serialized| > 0 && serialized[0].phase.Sealing?
      modifies this
      ensures Valid(store)
      ensures View() == LeaseStep(old(View()), store.cell, Encrypted(nonce)).lease
    {
      QuietMoveKeepsLease(store.log, store.cell, View(), Encrypted(nonce));
      if dek.None? {
        Settled(Refused(Disposed));
      } else {
        var p := serialized[0].phase;
        var revision := p.expected.revision + 1;
        var payload := Box(p.key, nonce, Aad(p.expected.recordId, revision, p.expected.storage, p.expected.slots), p.session);
        Enter(Committing(p.expected, p.expected.(revision := revision, payload := payload)));
      }
    }

    /** The transaction itself. */
    method Transact(store: StoredSession)
      requires |serialized| > 0
      modifies this, store
      ensures var e := LeaseStep(old(View()), old(store.cell), Move.Transact);
              && View() == e.lease
              && store.cell == (if e.put.Some? then e.put.value else old(store.cell))
              && store.log == (if e.put.Some? then old(store.log) + [e.put.value] else old(store.log))
    {
      match serialized[0].phase {
        case Committing(expected, next) =>
          var ok := store.CommitReseal(expected, next);
          if ok { Enter(Phase.Committed(next)); } else { Settled(Refused(Conflict)); }
        case Deleting(session, target) =>
          var ok := store.CommitTombstone(target);
          if ok { Enter(Deleted(session, target)); } else { Settled(Refused(Conflict)); }
        case Reading => Enter(ReadBack(store.cell));
        case _ =>
      }
    }

    method RunTransaction(store: StoredSession)
      requires Valid(store) && |serialized| > 0
      modifies this, store
      ensures Valid(store)
      ensures var e := LeaseStep(old(View()), old(store.cell), Move.Transact);
              && View() == e.lease
              && store.cell == (if e.put.Some? then e.put.value else old(store.cell))
              && store.log == (if e.put.Some? then old(store.log) + [e.put.value] else old(store.log))
    {
      TransactionKeeps(store.log, store.cell, View());
      Transact(store);
    }

    /** The head's last segment, after its transaction completed. */
    method FinishJob(ghost store: StoredSession)
      requires Valid(store) && |serialized| > 0
      modifies this
      ensures Valid(store)
      ensures View() == LeaseStep(old(View()), store.cell, Resume).lease
    {
      QuietMoveKeepsLease(store.log, store.cell, View(), Resume);
      match serialized[0].phase {
        case Committed(next) =>
          if dek.Some? {
            record, session := next, Some(next.payload.session);
          }
          Settled(Resealed(next));
        case Deleted(captured, target) =>
          dek, session := None, None;
          Settled(DeletionDone(captured, Cleanup(target.recordId, target.revision + 1, Exact(target.storage))));
        case ReadBack(stored) =>
          if dek.None? { Settled(Refused(Disposed)); }
          else if stored == Locked(record) { Settled(StillCurrent); }
          else { Settled(Refused(Conflict)); }
        case _ =>
      }
    }

    method DisposeLease(ghost store: StoredSession)
      requires Valid(store)
      modifies this
      ensures Valid(store)
      ensures View() == LeaseStep(old(View()), store.cell, Dispose).lease
    {
      QuietMoveKeepsLease(store.log, store.cell, View(), Dispose);
      dek, session := None, None;
    }
  }

  /** A lease's transaction keeps the history and the lease. */
  lemma TransactionKeeps(log: seq<Cell>, cell: Cell, l: Lease)
    requires History(log, cell) && LeaseOk(log, l) && |l.chain| > 0
    ensures var e := LeaseStep(l, cell, Transact);
      if e.put.Some? then History(log + [e.put.value], e.put.value) && LeaseOk(log + [e.put.value], e.lease)
      else LeaseOk(log, e.lease)
  {
    var e := LeaseStep(l, cell, Transact);
    if e.put.Some? {
      PutMoveKeepsLease(log, cell, l, Transact);
      GrowsKeepsHistory(log, cell, e.put.value);
    } else {
      QuietMoveKeepsLease(log, cell, l, Transact);
    }
  }
}

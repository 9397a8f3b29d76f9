/**
The stored session cell, the lease object and the operations that race on the
cell (lib/matrix/session-store.ts), as values and as a step system.

Encryption is an opaque box: it opens only with its own key and with the exact
additional data it was sealed under.  Everything between two awaits is one
step, and so is every IndexedDB transaction.
*/
module SessionVault {
  import opened Basics

  type RecordId = nat
  type Key = nat

  /** `account` stands for the fields a reseal may not change, apart from the prefix. */
  datatype Session = Session(account: nat, prefix: nat, credential: int)

  datatype Storage = Storage(prefix: nat, legacySync: Option<nat>)

  /** The unlock slots; the right secret yields `wrapped`. */
  datatype Slots = Slots(secret: nat, wrapped: Key)

  datatype Aad = Aad(recordId: RecordId, revision: nat, storage: Storage, slots: Slots)

  datatype Box = Box(key: Key, nonce: nat, aad: Aad, session: Session)

  datatype Record = Record(recordId: RecordId, revision: nat, storage: Storage, slots: Slots, payload: Box)

  datatype Scope = AllOwned | Exact(storage: Storage)

  /** What the one IndexedDB key can hold. */
  datatype Cell =
    | Absent
    | Locked(record: Record)
    | Tombstone(recordId: RecordId, revision: nat, pending: Option<Scope>)
    | Legacy(session: Session, sync: nat)
    | Corrupt(raw: nat)

  datatype Cleanup = Cleanup(recordId: RecordId, revision: nat, scope: Scope)

  datatype Failure = Disposed | Conflict | InvalidInput | Authentication | Unavailable

  /* ---- Encryption ---- */

  function Seal(session: Session, id: RecordId, revision: nat, storage: Storage, slots: Slots, key: Key, nonce: nat): Record {
    Record(id, revision, storage, slots, Box(key, nonce, Aad(id, revision, storage, slots), session))
  }

  function Open(r: Record, key: Key): Option<Session> {
    if r.payload.key == key && r.payload.aad == Aad(r.recordId, r.revision, r.storage, r.slots)
    then Some(r.payload.session) else None
  }

  /* ---- The transactions on the cell ---- */

  /** `store.put(...)` happened with this value, or the transaction was rejected. */
  type Commit = Result<Cell, Failure>

  /** A starting state a new login may replace. */
  predicate Available(c: Cell) {
    c.Absent? || (c.Tombstone? && c.pending.None?)
  }

  function CommitNewRecord(cell: Cell, start: Cell, r: Record): Commit {
    if cell == start then Ok(Locked(r)) else Err(Conflict)
  }

  function CommitMigratedRecord(cell: Cell, expected: Cell, r: Record): Commit {
    if cell == expected && !cell.Absent? then Ok(Locked(r)) else Err(Conflict)
  }

  predicate SamePair(c: Cell, r: Record) {
    c.Locked? && c.record.recordId == r.recordId && c.record.revision == r.revision
  }

  function CommitReseal(cell: Cell, expected: Record, next: Record): Commit {
    if SamePair(cell, expected) then Ok(Locked(next)) else Err(Conflict)
  }

  function TombstoneFor(r: Record): Cell {
    Tombstone(r.recordId, r.revision + 1, Some(Exact(r.storage)))
  }

  function CommitTombstone(cell: Cell, r: Record): Commit {
    if SamePair(cell, r) then Ok(TombstoneFor(r)) else Err(Conflict)
  }

  function ForgetScope(cell: Cell): Scope {
    match cell
    case Tombstone(_, _, Some(scope)) => scope
    case Legacy(session, sync) => Exact(Storage(session.prefix, Some(sync)))
    case _ => AllOwned
  }

  function Forget(cell: Cell, drawn: RecordId): Cell {
    match cell
    case Locked(r) => Tombstone(r.recordId, r.revision + 1, Some(AllOwned))
    case Tombstone(id, revision, _) => Tombstone(id, revision + 1, Some(ForgetScope(cell)))
    case _ => Tombstone(drawn, 1, Some(ForgetScope(cell)))
  }

  predicate MatchesMarker(cell: Cell, d: Cleanup) {
    cell == Tombstone(d.recordId, d.revision, Some(d.scope))
  }

  function Completed(d: Cleanup): Cell { Tombstone(d.recordId, d.revision + 1, None) }

  function CompleteCleanup(cell: Cell, d: Cleanup): Commit {
    if MatchesMarker(cell, d) then Ok(Completed(d)) else Err(Conflict)
  }

  /* ---- The lease and its serialized chain ---- */

  datatype Request = ResealTo(next: Option<Session>) | DeleteRecord | AssertCurrent

  /** Where the head of the chain stands; jobs behind it are Waiting. */
  datatype Phase =
    | Waiting
    | Sealing(expected: Record, session: Session, key: Key)
    | Committing(expected: Record, next: Record)
    | Committed(next: Record)
    | Deleting(session: Session, target: Record)
    | Deleted(session: Session, target: Record)
    | Reading
    | ReadBack(stored: Cell)

  datatype Job = Job(request: Request, phase: Phase)

  datatype Outcome =
    | Resealed(next: Record)
    | DeletionDone(session: Session, cleanup: Cleanup)
    | StillCurrent
    | Refused(why: Failure)

  datatype Answer = Answer(request: Request, outcome: Outcome)

  /** The chain is first-in first-out, so the k-th accepted call is answered by `answers[k]`. */
  datatype Lease = Lease(record: Record, session: Option<Session>, dek: Option<Key>, chain: seq<Job>, answers: seq<Answer>)

  /** One segment of a lease's code. `Fails` is a storage or encryption error at an await. */
  datatype Move =
    | Call(request: Request)
    | Begin
    | Encrypted(nonce: nat)
    | Transact
    | Resume
    | Fails
    | Dispose

  /** The lease afterwards and the value put in the cell. */
  datatype Effect = Effect(lease: Lease, put: Option<Cell>)

  function NewLease(r: Record, session: Session, key: Key): Lease {
    Lease(r, Some(session), Some(key), [], [])
  }

  function Quiet(l: Lease): Effect { Effect(l, None) }

  function WithoutKey(l: Lease): Lease { l.(dek := None, session := None) }

  function Settle(l: Lease, outcome: Outcome): Effect
    requires |l.chain| > 0
  {
    Quiet(l.(chain := l.chain[1..], answers := l.answers + [Answer(l.chain[0].request, outcome)]))
  }

  function InPhase(l: Lease, phase: Phase): Lease
    requires |l.chain| > 0
  {
    l.(chain := l.chain[0 := l.chain[0].(phase := phase)])
  }

  predicate ImmutableFieldsEqual(a: Session, b: Session) {
    a.account == b.account && a.prefix == b.prefix
  }

  function BeginJob(l: Lease): Effect
    requires |l.chain| > 0
  {
    if l.dek.None? || l.session.None? then Settle(l, Refused(Disposed))
    else match l.chain[0].request
      case ResealTo(None) => Settle(l, Refused(InvalidInput))
      case ResealTo(Some(next)) =>
        if ImmutableFieldsEqual(l.session.value, next)
        then Quiet(InPhase(l, Sealing(l.record, next, l.dek.value)))
        else Settle(l, Refused(InvalidInput))
      case DeleteRecord => Quiet(InPhase(l, Deleting(l.session.value, l.record)))
      case AssertCurrent => Quiet(InPhase(l, Reading))
  }

  function FinishEncryption(l: Lease, expected: Record, session: Session, key: Key, nonce: nat): Effect
    requires |l.chain| > 0
  {
    if l.dek.None? then Settle(l, Refused(Disposed))
    else
      var next := Seal(session, expected.recordId, expected.revision + 1, expected.storage, expected.slots, key, nonce);
      Quiet(InPhase(l, Committing(expected, next)))
  }

  function RunTransaction(l: Lease, cell: Cell): Effect
    requires |l.chain| > 0
  {
    match l.chain[0].phase
    case Committing(expected, next) =>
      (match CommitReseal(cell, expected, next)
       case Ok(c) => Effect(InPhase(l, Phase.Committed(next)), Some(c))
       case Err(e) => Settle(l, Refused(e)))
    case Deleting(session, target) =>
      (match CommitTombstone(cell, target)
       case Ok(c) => Effect(InPhase(l, Deleted(session, target)), Some(c))
       case Err(e) => Settle(l, Refused(e)))
    case Reading => Quiet(InPhase(l, ReadBack(cell)))
    case _ => Quiet(l)
  }

  function CleanupFor(r: Record): Cleanup { Cleanup(r.recordId, r.revision + 1, Exact(r.storage)) }

  function ResumeJob(l: Lease): Effect
    requires |l.chain| > 0
  {
    match l.chain[0].phase
    case Committed(next) =>
      if l.dek.None? then Settle(l, Resealed(next))
      else Settle(l.(record := next, session := Some(next.payload.session)), Resealed(next))
    case Deleted(session, target) =>
      Settle(WithoutKey(l), DeletionDone(session, CleanupFor(target)))
    case ReadBack(stored) =>
      if l.dek.None? then Settle(l, Refused(Disposed))
      else if stored == Locked(l.record) then Settle(l, StillCurrent)
      else Settle(l, Refused(Conflict))
    case _ => Quiet(l)
  }

  /** A rejected await settles the head; a transaction that already put its value has succeeded. */
  predicate CanFail(phase: Phase) {
    phase.Sealing? || phase.Committing? || phase.Deleting? || phase.Reading?
  }

  function LeaseStep(l: Lease, cell: Cell, m: Move): Effect {
    match m
    case Call(request) =>
      // On a disposed lease the call is rejected at once and never joins the chain.
      if l.dek.None? then Quiet(l) else Quiet(l.(chain := l.chain + [Job(request, Waiting)]))
    case Dispose => Quiet(WithoutKey(l))
    case Begin =>
      if |l.chain| > 0 && l.chain[0].phase.Waiting? then BeginJob(l) else Quiet(l)
    case Encrypted(nonce) =>
      if |l.chain| > 0 && l.chain[0].phase.Sealing?
      then var p := l.chain[0].phase; FinishEncryption(l, p.expected, p.session, p.key, nonce)
      else Quiet(l)
    case Transact => if |l.chain| > 0 then RunTransaction(l, cell) else Quiet(l)
    case Resume => if |l.chain| > 0 then ResumeJob(l) else Quiet(l)
    case Fails =>
      if |l.chain| > 0 && CanFail(l.chain[0].phase) then Settle(l, Refused(Unavailable)) else Quiet(l)
  }

  /* ---- Operations that run while the vault lock is held ---- */

  datatype Task =
    | CreateOwned(session: Session)
    | CreateStarted(session: Session, start: Cell)
    | CreateSealed(session: Session, start: Cell, record: Record)
    | MigrateOwned(session: Session, expected: Cell)
    | MigrateSealed(session: Session, expected: Cell, record: Record)
    | MigrateCleared(session: Session, expected: Cell, record: Record)
    | Enrolled(session: Session, record: Record)
    | UnlockOwned(recordId: RecordId, revision: nat, prefix: nat)
    | UnlockRead(record: Record)
    | UnlockVerifying(lease: nat)
    | ForgetOwned
    | CleanupOwned(marker: Cleanup)
    | CleanupChecked(marker: Cleanup)
    | Runtime
    | RuntimeCleaning(marker: Cleanup)
    | RuntimeChecked(marker: Cleanup)

  /** A stage in which the lock has just been granted. */
  predicate Fresh(t: Task) {
    t.CreateOwned? || t.MigrateOwned? || t.UnlockOwned? || t.ForgetOwned? || t.CleanupOwned? || t.Runtime?
  }

  /** Random draws and outside answers consumed by one segment. */
  datatype Draw = Draw(recordId: RecordId, key: Key, nonce: nat, secret: nat, ok: bool, lease: nat, marker: Cleanup)

  datatype World = World(
    cell: Cell,
    lock: Option<nat>,
    tasks: map<nat, Task>,
    leases: map<nat, Lease>,
    log: seq<Cell>,         // every value the cell has held, oldest first
    drawn: set<RecordId>)   // record ids drawn so far

  datatype Event =
    | Acquire(task: nat, kind: Task)   // the lock was free and is granted
    | Advance(task: nat, draw: Draw)   // the next segment of a lock-holding operation
    | Abandon(task: nat)               // it threw, was aborted, or its window closed
    | LeaseMove(lease: nat, move: Move)
    | WindowClosed(lease: nat)
    | Complete(marker: Cleanup)        // completeLocalSessionCleanup takes no lock

  function Put(w: World, c: Cell): World { w.(cell := c, log := w.log + [c]) }

  function Become(w: World, t: nat, task: Task): World { w.(tasks := w.tasks[t := task]) }

  function Release(w: World, t: nat): World { w.(tasks := w.tasks - {t}, lock := None) }

  function ApplyLease(w: World, i: nat, m: Move): World
    requires i in w.leases
  {
    var e := LeaseStep(w.leases[i], w.cell, m);
    var v := w.(leases := w.leases[i := e.lease]);
    if e.put.Some? then Put(v, e.put.value) else v
  }

  /** createLockedSession. */
  function CreateSegment(w: World, t: nat, d: Draw, task: Task): World {
    match task
    case CreateOwned(session) =>
      if Available(w.cell) then Become(w, t, CreateStarted(session, w.cell)) else Release(w, t)
    case CreateStarted(session, start) =>
      if d.recordId in w.drawn then w
      else
        var r := Seal(session, d.recordId, 1, Storage(session.prefix, None), Slots(d.secret, d.key), d.key, d.nonce);
        Become(w.(drawn := w.drawn + {d.recordId}), t, CreateSealed(session, start, r))
    case CreateSealed(session, start, r) =>
      (match CommitNewRecord(w.cell, start, r)
       case Ok(c) => Become(Put(w, c), t, Enrolled(session, r))
       case Err(_) => Release(w, t))
    case _ => w
  }

  /** migrateLegacySession. */
  function MigrateSegment(w: World, t: nat, d: Draw, task: Task): World {
    match task
    case MigrateOwned(session, expected) =>
      if w.cell != expected || !expected.Legacy? || session.prefix != expected.session.prefix then Release(w, t)
      else if d.recordId in w.drawn then w
      else
        var r := Seal(session, d.recordId, 1, Storage(session.prefix, Some(expected.sync)), Slots(d.secret, d.key), d.key, d.nonce);
        Become(w.(drawn := w.drawn + {d.recordId}), t, MigrateSealed(session, expected, r))
    case MigrateSealed(session, expected, r) =>
      if d.ok then Become(w, t, MigrateCleared(session, expected, r)) else Release(w, t)
    case MigrateCleared(session, expected, r) =>
      (match CommitMigratedRecord(w.cell, expected, r)
       case Ok(c) => Become(Put(w, c), t, Enrolled(session, r))
       case Err(_) => Release(w, t))
    case _ => w
  }

  /** unlockSession, and the lease a committed enrolment returns. */
  function LeaseSegment(w: World, t: nat, d: Draw, task: Task): World {
    match task
    case Enrolled(session, r) =>
      if d.lease in w.leases then w
      else Release(w, t).(leases := w.leases[d.lease := NewLease(r, session, r.slots.wrapped)])
    case UnlockOwned(id, revision, prefix) =>
      if w.cell.Locked? && w.cell.record.recordId == id && w.cell.record.revision == revision
         && w.cell.record.storage.prefix == prefix
      then Become(w, t, UnlockRead(w.cell.record)) else Release(w, t)
    case UnlockRead(r) =>
      var plain := Open(r, r.slots.wrapped);
      if d.secret != r.slots.secret || plain.None? || plain.value.prefix != r.storage.prefix then Release(w, t)
      else if d.lease in w.leases then w
      else
        var l := NewLease(r, plain.value, r.slots.wrapped).(chain := [Job(AssertCurrent, Waiting)]);
        Become(w.(leases := w.leases[d.lease := l]), t, UnlockVerifying(d.lease))
    case UnlockVerifying(i) =>
      if i !in w.leases then Release(w, t)
      else if w.leases[i].answers == [] then w
      else if w.leases[i].answers[0].outcome.StillCurrent? && d.ok then Release(w, t)
      else Release(ApplyLease(w, i, Dispose), t)
    case _ => w
  }

  /** forgetLocalSession, cleanupSessionDatabases, and the same cleanup under the runtime's lock. */
  function CleanupSegment(w: World, t: nat, d: Draw, task: Task): World {
    match task
    case ForgetOwned =>
      if d.recordId in w.drawn then w
      else Release(Put(w.(drawn := w.drawn + {d.recordId}), Forget(w.cell, d.recordId)), t)
    case CleanupOwned(marker) =>
      if MatchesMarker(w.cell, marker) then Become(w, t, CleanupChecked(marker)) else Release(w, t)
    case CleanupChecked(_) => Release(w, t)
    case Runtime =>
      if d.marker.scope.Exact? then Become(w, t, RuntimeCleaning(d.marker)) else w
    case RuntimeCleaning(marker) =>
      Become(w, t, if MatchesMarker(w.cell, marker) then RuntimeChecked(marker) else Runtime)
    case RuntimeChecked(_) => Become(w, t, Runtime)
    case _ => w
  }

  function AdvanceTask(w: World, t: nat, d: Draw): World
    requires t in w.tasks
  {
    var task := w.tasks[t];
    if Creates(task) then CreateSegment(w, t, d, task)
    else if Migrates(task) then MigrateSegment(w, t, d, task)
    else if Leases(task) then LeaseSegment(w, t, d, task)
    else CleanupSegment(w, t, d, task)
  }

  predicate Creates(task: Task) { task.CreateOwned? || task.CreateStarted? || task.CreateSealed? }

  predicate Migrates(task: Task) { task.MigrateOwned? || task.MigrateSealed? || task.MigrateCleared? }

  predicate Leases(task: Task) {
    task.UnlockOwned? || task.UnlockRead? || task.UnlockVerifying? || task.Enrolled?
  }

  function Step(w: World, e: Event): World {
    match e
    case Acquire(t, kind) =>
      if w.lock.None? && t !in w.tasks && Fresh(kind)
      then w.(lock := Some(t), tasks := w.tasks[t := kind]) else w
    case Advance(t, d) => if t in w.tasks then AdvanceTask(w, t, d) else w
    case Abandon(t) => if t in w.tasks then Release(w, t) else w
    case LeaseMove(i, m) =>
      if i in w.leases then ApplyLease(w, i, m) else w
    case WindowClosed(i) => w.(leases := w.leases - {i})
    case Complete(marker) =>
      if CompleteCleanup(w.cell, marker).Ok? then Put(w, Completed(marker)) else w
  }

  function Run(w: World, es: seq<Event>): World
    decreases |es|
  {
    if es == [] then w else Run(Step(w, es[0]), es[1..])
  }

  /** A run starts with any stored value, no lock holder and no lease. */
  predicate Initial(w: World) {
    && w.lock == None && w.tasks == map[] && w.leases == map[]
    && w.log == [w.cell]
    && (HasId(w.cell) ==> Id(w.cell) in w.drawn)
  }

  predicate HasId(c: Cell) { c.Locked? || c.Tombstone? }

  function Id(c: Cell): RecordId
    requires HasId(c)
  {
    if c.Locked? then c.record.recordId else c.recordId
  }

  function Revision(c: Cell): nat
    requires HasId(c)
  {
    if c.Locked? then c.record.revision else c.revision
  }
}

/**
Push setup and cleanup (lib/matrix/notifications.ts) as a step system over
localStorage.

Every setItem and every removeItem is one step, a write may fail, and the
window may close between any two steps.  Setup and cleanup run under the
lifecycle lock, so at most one of them is in progress; announcing a cleanup,
capturing credentials for a refresh and acknowledging the warning need no lock.
*/
module PushJournal {
  import opened Basics

  type Key = int

  /** A generation is drawn, or is a management key itself (legacy), or that key's digest. */
  datatype Generation = Drawn(n: int) | OfKey(key: Key) | Digest(key: Key)

  datatype Credentials = Credentials(delivery: Key, management: Key, generation: Generation, legacy: bool)

  datatype Config = Config(delivery: Key, management: Key, generation: Option<Generation>)

  /* ---- What localStorage holds ---- */

  datatype Slot = Slot(delivery: Option<Key>, management: Option<Key>, generation: Option<Generation>)

  datatype Target = Target(delivery: Key, management: Key, gatewayDone: bool, pusherDone: bool)

  datatype Primary = Primary(
    generation: Option<Generation>, delivery: Option<Key>, management: Option<Key>, gatewayDone: bool, pusherDone: bool)

  datatype Browser = Browser(subscriptionDone: bool, workerDone: bool, notificationsDone: bool, badgeDone: bool)

  /** The cleanup journal. */
  datatype Cleanup = Cleanup(primary: Primary, extra: seq<Target>, browser: Browser, allowAbandonment: bool)

  datatype FallbackTarget = FallbackTarget(delivery: Key, management: Key, generation: Generation, workerMayBeConfigured: bool)

  /** The two cleanup records; an absent fallback record is the empty list. */
  datatype Records = Records(journal: Option<Cleanup>, fallback: seq<FallbackTarget>)

  datatype Gate = Gate(intent: bool, epoch: Option<int>)

  datatype Disk = Disk(records: Records, slot: Slot, gate: Gate, warned: bool)

  /* ---- Who holds the lifecycle lock, and where it stands ---- */

  datatype Registration = Present | Missing | Unknown

  datatype Options = Options(registration: Registration, service: bool, abandon: bool)

  datatype Install =
    | Queued | Configured | Posted | Registered | Checked
    | WroteDelivery | WroteManagement | WroteGeneration | Rotated

  datatype Stage =
    | Begun | Allowed | Canonicalized | Merged | Cleared
    | Remote(orphan: bool) | Joined(orphan: bool) | Emptying(orphan: bool)
    | Ending | Unsubscribing | Finishing

  datatype Op =
    | Idle
    // setup
    | Probing(epoch: int, known: Option<Credentials>)
    | Queueing(credentials: Credentials)
    | Journaling(credentials: Credentials, epoch: int)
    | Falling(credentials: Credentials)
    | RollingBack(credentials: Credentials, saved: bool)
    | RolledBack(credentials: Credentials, saved: bool, confirmed: bool)
    | Leaving
    | Installing(credentials: Credentials, epoch: int, install: Install)
    // cleanup
    | Beginning(options: Options)
    | Reading(options: Options, config: Option<Config>)
    | Cleaning(cleanup: Cleanup, stage: Stage, options: Options, config: Option<Config>)
    | Removing(left: int)

  /* ---- What the outside world has been told ---- */

  /** Keys sent to the gateway and not confirmed deleted since; keys confirmed deleted since last sent. */
  datatype Gateway = Gateway(owed: set<Key>, deleted: set<Key>, givenUp: set<Key>)

  /** Pushers confirmed removed, and those a durable warning has been recorded for. */
  datatype Pushers = Pushers(removed: set<Key>, abandoned: set<Key>)

  /** Every key the present journal has held, and those the worker's configuration displaced. */
  datatype Held = Held(management: set<Key>, delivery: set<Key>, lostManagement: set<Key>, lostDelivery: set<Key>, tidy: bool)

  datatype Books = Books(gateway: Gateway, pushers: Pushers, held: Held)

  datatype Capture = Capture(epoch: int, credentials: Credentials)

  /** `clearing` is 0, or the next of the three slot removals the lock holder is in the middle of. */
  datatype World = World(
    disk: Disk, worker: Option<Config>, op: Op, clearing: int,
    drawn: set<int>, captured: set<Capture>, books: Books)

  /* ---- Credentials ---- */

  /** readPushCredentials(false). */
  function ReadCredentials(s: Slot): Option<Credentials> {
    if s.delivery.None? || s.management.None? then None
    else
      var management := s.management.value;
      Some(Credentials(s.delivery.value, management,
                       if s.generation.Some? then s.generation.value else OfKey(management),
                       s.generation == None || s.generation == Some(OfKey(management))))
  }

  /** readPushCredentials(true), given the three random draws. */
  function ReadOrCreate(s: Slot, delivery: Key, management: Key, generation: int): Credentials {
    Credentials(
      if s.delivery.Some? then s.delivery.value else delivery,
      if s.management.Some? then s.management.value else management,
      if s.generation.Some? then s.generation.value
      else if s.management.Some? then OfKey(s.management.value)
      else Drawn(generation),
      s.management.Some? && (s.generation == None || s.generation == Some(OfKey(s.management.value))))
  }

  function Effective(c: Credentials, config: Option<Config>): Credentials {
    if c.legacy then c.(generation := Digest(c.management))
    else if config.Some? && config.value.delivery == c.delivery && config.value.management == c.management
            && config.value.generation.Some?
    then c.(generation := config.value.generation.value)
    else c
  }

  /** Probing the worker migrates a configuration without a generation of its own. */
  function Migrated(config: Option<Config>): Option<Config> {
    if config.Some? && (config.value.generation == None || config.value.generation == Some(OfKey(config.value.management)))
    then Some(config.value.(generation := Some(Digest(config.value.management))))
    else config
  }

  /** clearPushConfig of the worker answers `cleared`. */
  predicate WorkerClears(config: Option<Config>, generation: Option<Generation>, delivery: Option<Key>) {
    || config.None?
    || (generation.Some? && config.value.generation == generation)
    || (config.value.generation.None? && delivery == Some(config.value.delivery))
  }

  /** The guard of clearPushCredentials: whether the slot belongs to this cleanup. */
  predicate MayClear(s: Slot, generation: Option<Generation>, management: Option<Key>, delivery: Option<Key>) {
    || generation.None?
    || s.generation == generation
    || ((s.generation.None? || (management.Some? && s.generation == Some(OfKey(management.value))))
        && management.Some? && delivery.Some? && s.management == management && s.delivery == delivery)
  }

  function Removed(s: Slot, which: int): Slot {
    if which == 1 then s.(delivery := None)
    else if which == 2 then s.(management := None)
    else s.(generation := None)
  }

  /* ---- Cleanup records ---- */

  function Opt(k: Option<Key>): set<Key> { if k.Some? then {k.value} else {} }

  function Managements(extra: seq<Target>): set<Key> { set t | t in extra :: t.management }

  function Deliveries(extra: seq<Target>): set<Key> { set t | t in extra :: t.delivery }

  function ManagementKeys(c: Cleanup): set<Key> { Opt(c.primary.management) + Managements(c.extra) }

  function DeliveryKeys(c: Cleanup): set<Key> { Opt(c.primary.delivery) + Deliveries(c.extra) }

  function FallbackKeys(f: seq<FallbackTarget>): set<Key> { set t | t in f :: t.management }

  function Pending(delivery: Key, management: Key): Target { Target(delivery, management, false, false) }

  predicate AllGatewaysDone(c: Cleanup) {
    c.primary.gatewayDone && forall t :: t in c.extra ==> t.gatewayDone
  }

  predicate AllPushersDone(c: Cleanup) {
    c.primary.pusherDone && forall t :: t in c.extra ==> t.pusherDone
  }

  predicate Complete(c: Cleanup) {
    && AllGatewaysDone(c) && AllPushersDone(c)
    && c.browser == Browser(true, true, true, true)
  }

  /** queuePushSetupCleanup must not fence credentials of another generation. */
  predicate Protects(s: Slot, c: Credentials) {
    var active := ReadCredentials(s);
    active.Some? && active.value.generation != c.generation
    && (active.value.delivery != c.delivery || active.value.management != c.management)
  }

  function QueuedJournal(c: Credentials, shielded: bool): Cleanup {
    Cleanup(Primary(Some(c.generation), Some(c.delivery), Some(c.management), false, false), [],
            Browser(shielded, shielded, shielded, shielded), false)
  }

  function AddTarget(c: Cleanup, delivery: Key, management: Key): Cleanup {
    if management in ManagementKeys(c) then c else c.(extra := c.extra + [Pending(delivery, management)])
  }

  /** The journal queuePushSetupCleanup writes. */
  function JournalToQueue(d: Disk, c: Credentials): Cleanup {
    if d.records.journal.Some? then
      var merged := AddTarget(d.records.journal.value, c.delivery, c.management);
      merged.(browser := merged.browser.(subscriptionDone := false))
    else QueuedJournal(c, Protects(d.slot, c))
  }

  /** persistFallbackPushCleanupTarget always passes `workerMayBeConfigured` here. */
  function FallbackWith(f: seq<FallbackTarget>, c: Credentials): seq<FallbackTarget> {
    if c.management in FallbackKeys(f) then Configurable(f, c.management)
    else f + [FallbackTarget(c.delivery, c.management, c.generation, true)]
  }

  function Configurable(f: seq<FallbackTarget>, management: Key): seq<FallbackTarget> {
    if f == [] then []
    else if f[0].management == management then [f[0].(workerMayBeConfigured := true)] + f[1..]
    else [f[0]] + Configurable(f[1..], management)
  }

  function AddAll(c: Cleanup, f: seq<FallbackTarget>): Cleanup
    decreases |f|
  {
    if f == [] then c else AddAll(AddTarget(c, f[0].delivery, f[0].management), f[1..])
  }

  /** mergeFallbackPushCleanup. */
  function MergeFallback(c: Cleanup, f: seq<FallbackTarget>): Cleanup {
    var merged := AddAll(c, f);
    merged.(browser := merged.browser.(subscriptionDone := false))
  }

  function Targets(f: seq<FallbackTarget>): seq<Target> {
    if f == [] then [] else [Pending(f[0].delivery, f[0].management)] + Targets(f[1..])
  }

  function FromFallback(f: seq<FallbackTarget>): Cleanup
    requires f != []
  {
    Cleanup(Primary(Some(f[0].generation), Some(f[0].delivery), Some(f[0].management), false, false), Targets(f[1..]),
            Browser(false, !f[0].workerMayBeConfigured, false, false), false)
  }

  function FromSlot(s: Slot): Cleanup {
    Cleanup(Primary(if s.generation.None? && s.management.Some? then Some(OfKey(s.management.value)) else s.generation,
                    s.delivery, s.management, s.management.None?, s.delivery.None?), [],
            Browser(false, false, false, false), false)
  }

  /** A worker configuration fills in a journal that lacks a key; it can also correct the generation. */
  predicate Overrides(c: Cleanup, config: Option<Config>) {
    config.Some? && (c.primary.generation.None? || c.primary.delivery.None? || c.primary.management.None?)
  }

  function Overridden(c: Cleanup, config: Config): Cleanup {
    c.(primary := Primary(config.generation, Some(config.delivery), Some(config.management), false, false))
  }

  predicate Corrects(c: Cleanup, config: Option<Config>) {
    config.Some? && c.primary.delivery == Some(config.value.delivery)
    && c.primary.management == Some(config.value.management) && c.primary.generation != config.value.generation
  }

  /** The credentials found in the worker's database, added to the cleanup; None when they conflict with it. */
  function RecoverOrphan(c: Cleanup, config: Config): Option<Cleanup> {
    var p := c.primary;
    if p.delivery.None? && p.management.None? then
      Some(c.(primary := Primary(config.generation, Some(config.delivery), Some(config.management), false, false)))
    else if p.management == Some(config.management) then
      if (p.delivery.Some? && p.delivery != Some(config.delivery)) || (p.generation.Some? && p.generation != config.generation)
      then None
      else Some(c.(primary := Primary(config.generation, Some(config.delivery), p.management, p.gatewayDone,
                                      p.delivery.Some? && p.pusherDone)))
    else if exists t :: t in c.extra && t.management == config.management && t.delivery != config.delivery then None
    else Some(AddIfNew(c, config))
  }

  /** mergeOrphanedPushCredentials. */
  function MergeOrphan(c: Cleanup, config: Config): Option<Cleanup> {
    var recovered := RecoverOrphan(c, config);
    if recovered.None? then None
    else Some(recovered.value.(browser := Browser(false, false, false, recovered.value.browser.badgeDone)))
  }

  /** Unlike AddTarget, only the additional targets are searched here. */
  function AddIfNew(c: Cleanup, config: Config): Cleanup {
    if exists t :: t in c.extra && t.management == config.management then c
    else c.(extra := c.extra + [Pending(config.delivery, config.management)])
  }

  predicate Whole(c: Cleanup) {
    c.primary.delivery.Some? == c.primary.management.Some? == c.primary.generation.Some?
  }

  /* ---- Steps ---- */

  datatype Part = PrimaryGateway | PrimaryPusher | ExtraGateway(i: nat) | ExtraPusher(i: nat) | Worker | Notifications | Badge

  /** Random draws and outside answers consumed by one step. `ok` says whether its storage write or request succeeded. */
  datatype Draw = Draw(ok: bool, also: bool, epoch: int, delivery: Key, management: Key, generation: int)

  datatype Event =
    | StartSetup(epoch: int, known: Option<Credentials>)
    | StartCleanup(options: Options)
    | Advance(draw: Draw)          // the lock holder's next storage access or request
    | Answered(part: Part, ok: bool)   // one of the parallel removals of a cleanup finished
    | Stop                         // the lock holder threw, or its window closed
    | Intend                       // forgetLocalPushState announces itself without the lock
    | Rotate(epoch: int)
    | CaptureForRefresh(epoch: int)
    | Acknowledge

  function Go(w: World, op: Op): World { w.(op := op) }

  function WriteEpoch(w: World, epoch: int): World {
    w.(disk := w.disk.(gate := w.disk.gate.(epoch := Some(epoch))), drawn := w.drawn + {epoch})
  }

  function WriteJournal(w: World, c: Cleanup): World {
    var h := w.books.held;
    var held :=
      if w.disk.records.journal.None? then Held(ManagementKeys(c), DeliveryKeys(c), {}, {}, Whole(c))
      else h.(management := h.management + ManagementKeys(c), delivery := h.delivery + DeliveryKeys(c));
    w.(disk := w.disk.(records := w.disk.records.(journal := Some(c))), books := w.books.(held := held))
  }

  function RemoveJournal(w: World): World {
    w.(disk := w.disk.(records := w.disk.records.(journal := None)),
       books := w.books.(held := Held({}, {}, {}, {}, true)))
  }

  function WriteSlot(w: World, s: Slot): World { w.(disk := w.disk.(slot := s)) }

  function StartClearing(w: World, generation: Option<Generation>, management: Option<Key>, delivery: Option<Key>): World {
    if MayClear(w.disk.slot, generation, management, delivery) then w.(clearing := 1) else w
  }

  function Confirm(w: World, k: Key): World {
    var g := w.books.gateway;
    w.(books := w.books.(gateway := g.(owed := g.owed - {k}, deleted := g.deleted + {k})))
  }

  function Send(w: World, k: Key): World {
    w.(books := w.books.(gateway := Gateway(w.books.gateway.owed + {k}, w.books.gateway.deleted - {k}, w.books.gateway.givenUp - {k})))
  }

  function GiveUp(w: World, k: Key): World {
    w.(books := w.books.(gateway := w.books.gateway.(givenUp := w.books.gateway.givenUp + {k})))
  }

  function Unpush(w: World, delivery: Key): World {
    w.(books := w.books.(pushers := w.books.pushers.(removed := w.books.pushers.removed + {delivery})))
  }

  /** assertOwnedPushSetupJournal. */
  predicate Owned(d: Disk, c: Credentials, epoch: int) {
    && d.gate == Gate(false, Some(epoch))
    && d.records.journal.Some?
    && d.records.journal.value.primary.management == Some(c.management)
    && d.records.journal.value.primary.delivery == Some(c.delivery)
    && d.records.journal.value.primary.generation == Some(c.generation)
    && d.records.journal.value.extra == []
  }

  /* ---- Setup ---- */

  /** The lock was granted: hasPendingLocalPushCleanup and the lifecycle epoch are checked. */
  function StartSetupStep(w: World, epoch: int, known: Option<Credentials>): World {
    if w.disk.records != Records(None, []) || w.disk.gate != Gate(false, Some(epoch)) then w
    else if known.Some? && Capture(epoch, known.value) !in w.captured then w
    else Go(w, Probing(epoch, known))
  }

  function ProbeStep(w: World, d: Draw): World
    requires w.op.Probing?
  {
    if w.disk.gate.epoch != Some(w.op.epoch) then Go(w, Idle)
    else
      var v := w.(worker := Migrated(w.worker));
      var c := if w.op.known.Some? then w.op.known.value
               else ReadOrCreate(w.disk.slot, d.delivery, d.management, d.generation);
      Go(v, Queueing(Effective(c, v.worker)))
  }

  function QueueStep(w: World, d: Draw): World
    requires w.op.Queueing?
  {
    if !d.ok then Go(w, Falling(w.op.credentials))
    else if d.epoch in w.drawn then w
    else Go(WriteEpoch(w, d.epoch), Journaling(w.op.credentials, d.epoch))
  }

  function JournalStep(w: World, d: Draw): World
    requires w.op.Journaling?
  {
    var c := w.op.credentials;
    if !d.ok then Go(w, Falling(c))
    else
      var v := Go(WriteJournal(w, JournalToQueue(w.disk, c)), Installing(c, w.op.epoch, Queued));
      if w.disk.records.journal.Some? || Protects(w.disk.slot, c) then v
      else StartClearing(v, Some(c.generation), Some(c.management), Some(c.delivery))
  }

  function FallbackStep(w: World, d: Draw): World
    requires w.op.Falling?
  {
    var c := w.op.credentials;
    if !d.ok then Go(w, RollingBack(c, false))
    else Go(w.(disk := w.disk.(records := w.disk.records.(fallback := FallbackWith(w.disk.records.fallback, c)))), RollingBack(c, true))
  }

  /** Both remote removals have settled: `ok` for the gateway, `also` for the pusher. */
  function RollbackStep(w: World, d: Draw): World
    requires w.op.RollingBack?
  {
    var c := w.op.credentials;
    var v := if d.ok then Confirm(w, c.management) else w;
    Go(if d.also then Unpush(v, c.delivery) else v, RolledBack(c, w.op.saved, d.ok))
  }

  /** The credentials are about to go although nothing else holds them and the gateway has not confirmed. */
  predicate GivesUp(w: World) {
    && w.op.RolledBack? && !w.op.saved && !w.op.confirmed
    && MayLeave(w)
  }

  /** The slot still holds this generation, or no complete credentials, and may be cleared. */
  predicate MayLeave(w: World)
    requires w.op.RolledBack?
  {
    var c := w.op.credentials;
    var active := ReadCredentials(w.disk.slot);
    && !(active.Some? && active.value.generation != c.generation)
    && MayClear(w.disk.slot, Some(c.generation), Some(c.management), Some(c.delivery))
  }

  function LeaveStep(w: World, d: Draw): World
    requires w.op.RolledBack?
  {
    var c := w.op.credentials;
    var v := if d.ok && WorkerClears(w.worker, Some(c.generation), Some(c.delivery)) then w.(worker := None) else w;
    if !MayLeave(w) then Go(w, Idle)
    else Go(if GivesUp(w) then GiveUp(v, c.management) else v, Leaving).(clearing := 1)
  }

  /** The journal is written. Each stage is the code from one await to the next request or write. */
  function InstallStep(w: World, d: Draw): World
    requires w.op.Installing?
  {
    var c := w.op.credentials;
    var next := (v: World, i: Install) => Go(v, Installing(c, w.op.epoch, i));
    if w.op.install.Queued? || w.op.install.Configured? || w.op.install.Posted? || w.op.install.Registered? || w.op.install.Checked? then
      if !Owned(w.disk, c, w.op.epoch) then Go(w, Idle)
      else if w.op.install.Queued? then
        next(w.(worker := Some(Config(c.delivery, c.management, Some(c.generation)))), Configured)
      else if w.op.install.Configured? then next(Send(w, c.management), Posted)
      else if w.op.install.Posted? then
        next(w.(books := w.books.(pushers := Pushers(w.books.pushers.removed - {c.delivery}, w.books.pushers.abandoned - {c.delivery}))), Registered)
      else if w.op.install.Registered? then next(w, Checked)
      else if !d.ok then Go(w, Idle)
      else next(WriteSlot(w, w.disk.slot.(delivery := Some(c.delivery))), WroteDelivery)
    else if w.op.install.Rotated? then Go(RemoveJournal(w), Idle)
    else if !d.ok then Go(w, Idle)
    else if w.op.install.WroteDelivery? then next(WriteSlot(w, w.disk.slot.(management := Some(c.management))), WroteManagement)
    else if w.op.install.WroteManagement? then next(WriteSlot(w, w.disk.slot.(generation := Some(c.generation))), WroteGeneration)
    else if d.epoch in w.drawn then w
    else next(WriteEpoch(w, d.epoch), Rotated)
  }

  /* ---- Cleanup ---- */

  function BeginStep(w: World, d: Draw): World
    requires w.op.Beginning?
  {
    if !d.ok then Go(w, Idle)
    else if d.epoch in w.drawn then w
    else
      var o := w.op.options;
      var v := if o.registration.Present? then w.(worker := Migrated(w.worker)) else w;
      Go(WriteEpoch(v, d.epoch), Reading(o, if o.registration.Present? then v.worker else None))
  }

  /** beginLocalPushCleanup after its epoch write. */
  function ReadStep(w: World, d: Draw): World
    requires w.op.Reading?
  {
    var r := w.disk.records;
    if r.journal.Some? then
      StartWork(w, if r.fallback == [] then r.journal.value else MergeFallback(r.journal.value, r.fallback))
    else if r.fallback != [] then
      // A failed write is tolerated: the fallback record still holds every key.
      var c := FromFallback(r.fallback);
      StartWork(if d.ok then WriteJournal(w, c) else w, c)
    else if d.ok then
      var c := FromSlot(w.disk.slot);
      StartWork(WriteJournal(w, c), c)
    else Go(w, Idle)
  }

  function StartWork(w: World, c: Cleanup): World
    requires w.op.Reading?
  {
    ClearFor(Go(w, Cleaning(c, Begun, w.op.options, w.op.config)), c)
  }

  function ClearFor(w: World, c: Cleanup): World {
    StartClearing(w, c.primary.generation, c.primary.management, c.primary.delivery)
  }

  function At(w: World, c: Cleanup, stage: Stage): World
    requires w.op.Cleaning?
  {
    Go(w, w.op.(cleanup := c, stage := stage))
  }

  /** Persist a changed cleanup and go on; a failed write ends the cleanup. */
  function Persist(w: World, c: Cleanup, stage: Stage, ok: bool): World
    requires w.op.Cleaning?
  {
    if ok then At(WriteJournal(w, c), c, stage) else Go(w, Idle)
  }

  function AllowStep(w: World, d: Draw): World
    requires w.op.Cleaning?
  {
    var c := w.op.cleanup;
    if w.op.options.abandon && !c.allowAbandonment then Persist(w, c.(allowAbandonment := true), Allowed, d.ok)
    else At(w, c, Allowed)
  }

  function CanonicalizeStep(w: World, d: Draw): World
    requires w.op.Cleaning?
  {
    var c := w.op.cleanup;
    if c.primary.management.Some? && c.primary.generation == Some(OfKey(c.primary.management.value))
    then Persist(w, c.(primary := c.primary.(generation := Some(Digest(c.primary.management.value)))), Canonicalized, d.ok)
    else At(w, c, Canonicalized)
  }

  /** Only what the changed cleanup no longer names is lost. */
  function Displace(w: World, before: Cleanup, after: Cleanup): World {
    var h := w.books.held;
    w.(books := w.books.(held := h.(lostManagement := h.lostManagement + (ManagementKeys(before) - ManagementKeys(after)),
                                    lostDelivery := h.lostDelivery + (DeliveryKeys(before) - DeliveryKeys(after)))))
  }

  function MergeStep(w: World, d: Draw): World
    requires w.op.Cleaning?
  {
    var c := w.op.cleanup;
    var config := w.op.config;
    if Overrides(c, config) then
      if !d.ok then Go(w, Idle)
      else
        At(WriteJournal(Displace(w, c, Overridden(c, config.value)), Overridden(c, config.value)), Overridden(c, config.value), Merged)
    else if Corrects(c, config) then
      Persist(w, c.(primary := c.primary.(generation := config.value.generation)), Merged, d.ok)
    else At(w, c, Merged)
  }

  function ReclearStep(w: World): World
    requires w.op.Cleaning?
  {
    var c := w.op.cleanup;
    var v := At(w, c, Cleared);
    if c.primary.generation.Some? then ClearFor(v, c) else v
  }

  /** The parallel removals start; a missing key has nothing to remove. */
  function StartRemote(w: World, c: Cleanup, orphan: bool): World
    requires w.op.Cleaning?
  {
    var p := c.primary;
    At(w, c.(primary := p.(gatewayDone := p.gatewayDone || p.management.None?, pusherDone := p.pusherDone || p.delivery.None?)), Remote(orphan))
  }

  /** Without a registration the worker's database is inspected directly; `ok` says that it could be. */
  function InspectStep(w: World, d: Draw): World
    requires w.op.Cleaning?
  {
    var c := w.op.cleanup;
    if !w.op.options.registration.Missing? || !d.ok then StartRemote(w, c, false)
    else if w.worker.None? then
      StartRemote(w, c.(browser := Browser(true, true, true, c.browser.badgeDone)), false)
    else
      var merged := MergeOrphan(c, Migrated(w.worker).value);
      if merged.None? || !d.also then StartRemote(w, c, false)
      else StartRemote(WriteJournal(w, merged.value), merged.value, true)
  }

  function AnswerPart(w: World, part: Part, ok: bool): World
    requires w.op.Cleaning? && w.op.stage.Remote?
  {
    var c := w.op.cleanup;
    var p := c.primary;
    var here := (v: World, changed: Cleanup) => Go(v, w.op.(cleanup := changed));
    match part
    case PrimaryGateway =>
      if ok && !p.gatewayDone && p.management.Some?
      then here(Confirm(w, p.management.value), c.(primary := p.(gatewayDone := true))) else w
    case PrimaryPusher =>
      if ok && w.op.options.service && !p.pusherDone && p.delivery.Some?
      then here(Unpush(w, p.delivery.value), c.(primary := p.(pusherDone := true))) else w
    case ExtraGateway(i) =>
      if ok && i < |c.extra| && !c.extra[i].gatewayDone
      then here(Confirm(w, c.extra[i].management), c.(extra := c.extra[i := c.extra[i].(gatewayDone := true)])) else w
    case ExtraPusher(i) =>
      if ok && w.op.options.service && i < |c.extra| && !c.extra[i].pusherDone
      then here(Unpush(w, c.extra[i].delivery), c.(extra := c.extra[i := c.extra[i].(pusherDone := true)])) else w
    case Worker =>
      // The worker may clear its configuration although the answer never arrives.
      if w.op.options.registration.Present? && !c.browser.workerDone && WorkerClears(w.worker, p.generation, p.delivery)
      then here(w.(worker := None), if ok then c.(browser := c.browser.(workerDone := true)) else c) else w
    case Notifications =>
      if ok && w.op.options.registration.Present? then here(w, c.(browser := c.browser.(notificationsDone := true))) else w
    case Badge => if ok then here(w, c.(browser := c.browser.(badgeDone := true))) else w
  }

  function PushersGivenUp(extra: seq<Target>): (r: seq<Target>)
    ensures |r| == |extra|
    ensures forall i :: 0 <= i < |extra| ==> r[i] == extra[i].(pusherDone := true)
  {
    if extra == [] then [] else [extra[0].(pusherDone := true)] + PushersGivenUp(extra[1..])
  }

  /** A pusher that could not be removed is given up only after every gateway deletion and a durable warning. */
  predicate Warns(c: Cleanup) {
    c.allowAbandonment && AllGatewaysDone(c) && !AllPushersDone(c)
  }

  function WarnStep(w: World, d: Draw): World
    requires w.op.Cleaning? && w.op.stage.Joined?
  {
    var c := w.op.cleanup;
    var next := Emptying(w.op.stage.orphan);
    if !Warns(c) || !d.ok then At(w, c, next)
    else
      var v := w.(disk := w.disk.(warned := true),
                  books := w.books.(pushers := w.books.pushers.(abandoned := w.books.pushers.abandoned + DeliveryKeys(c))));
      At(v, c.(primary := c.primary.(pusherDone := true), extra := PushersGivenUp(c.extra)), next)
  }

  function EmptyStep(w: World, d: Draw): World
    requires w.op.Cleaning? && w.op.stage.Emptying?
  {
    var c := w.op.cleanup;
    if w.op.stage.orphan && AllGatewaysDone(c) && AllPushersDone(c) && d.ok
    then At(w.(worker := None), c.(browser := Browser(true, true, true, c.browser.badgeDone)), Ending)
    else At(w, c, Ending)
  }

  /**
  Unsubscribing waits for the worker. A subscription was found (`ok`), its endpoint being known already (`also`) or
  written to the journal first; or there is none (only `also`); or the lookup or that write failed.
  */
  function EndStep(w: World, d: Draw): World
    requires w.op.Cleaning?
  {
    var c := w.op.cleanup;
    if !c.browser.workerDone || c.browser.subscriptionDone || !w.op.options.registration.Present? then At(w, c, Finishing)
    else if !d.ok then At(w, if d.also then c.(browser := c.browser.(subscriptionDone := true)) else c, Finishing)
    else if d.also then At(w, c, Unsubscribing)
    else At(WriteJournal(w, c), c, Unsubscribing)
  }

  function UnsubscribeStep(w: World, d: Draw): World
    requires w.op.Cleaning?
  {
    var c := w.op.cleanup;
    At(w, if d.ok then c.(browser := c.browser.(subscriptionDone := true)) else c, Finishing)
  }

  function FinishStep(w: World, d: Draw): World
    requires w.op.Cleaning?
  {
    if Complete(w.op.cleanup) then Go(RemoveJournal(w), Removing(3))
    else Go(if d.ok then WriteJournal(w, w.op.cleanup) else w, Idle)
  }

  function RemoveStep(w: World): World
    requires w.op.Removing?
  {
    var d := w.disk;
    if w.op.left == 3 then Go(w.(disk := d.(records := d.records.(fallback := []))), Removing(2))
    else if w.op.left == 2 then Go(w.(disk := d.(gate := d.gate.(intent := false))), Removing(1))
    else Go(w.(disk := d.(gate := d.gate.(epoch := None))), Idle)
  }

  function CleanStep(w: World, d: Draw): World
    requires w.op.Cleaning?
  {
    match w.op.stage
    case Begun => AllowStep(w, d)
    case Allowed => CanonicalizeStep(w, d)
    case Canonicalized => MergeStep(w, d)
    case Merged => ReclearStep(w)
    case Cleared => InspectStep(w, d)
    case Remote(orphan) => At(w, w.op.cleanup, Joined(orphan))
    case Joined(_) => WarnStep(w, d)
    case Emptying(_) => EmptyStep(w, d)
    case Ending => EndStep(w, d)
    case Unsubscribing => UnsubscribeStep(w, d)
    case Finishing => FinishStep(w, d)
  }

  function ClearStep(w: World): World {
    WriteSlot(w, Removed(w.disk.slot, w.clearing)).(clearing := if w.clearing >= 3 then 0 else w.clearing + 1)
  }

  function AdvanceStep(w: World, d: Draw): World {
    if w.clearing > 0 then ClearStep(w)
    else match w.op
      case Idle => w
      case Probing(_, _) => ProbeStep(w, d)
      case Queueing(_) => QueueStep(w, d)
      case Journaling(_, _) => JournalStep(w, d)
      case Falling(_) => FallbackStep(w, d)
      case RollingBack(_, _) => RollbackStep(w, d)
      case RolledBack(_, _, _) => LeaveStep(w, d)
      case Leaving => Go(w, Idle)
      case Installing(_, _, _) => InstallStep(w, d)
      case Beginning(_) => BeginStep(w, d)
      case Reading(_, _) => ReadStep(w, d)
      case Cleaning(_, _, _, _) => CleanStep(w, d)
      case Removing(_) => RemoveStep(w)
  }

  /** performPushStateRefresh reads the credentials, then the lifecycle epoch, creating one if there is none. */
  function CaptureStep(w: World, epoch: int): World {
    var c := ReadCredentials(w.disk.slot);
    if w.disk.records != Records(None, []) || w.disk.gate.intent || c.None? then w
    else if w.disk.gate.epoch.Some? then w.(captured := w.captured + {Capture(w.disk.gate.epoch.value, c.value)})
    else if epoch in w.drawn then w
    else WriteEpoch(w, epoch).(captured := w.captured + {Capture(epoch, c.value)})
  }

  function Step(w: World, e: Event): World {
    match e
    case StartSetup(epoch, known) => if w.op.Idle? then StartSetupStep(w, epoch, known) else w
    case StartCleanup(options) => if w.op.Idle? then Go(w, Beginning(options)) else w
    case Advance(d) => AdvanceStep(w, d)
    case Answered(part, ok) =>
      if w.clearing == 0 && w.op.Cleaning? && w.op.stage.Remote? then AnswerPart(w, part, ok) else w
    case Stop => w.(op := Idle, clearing := 0)
    case Intend => w.(disk := w.disk.(gate := w.disk.gate.(intent := true)))
    case Rotate(epoch) => if epoch in w.drawn then w else WriteEpoch(w, epoch)
    case CaptureForRefresh(epoch) => CaptureStep(w, epoch)
    case Acknowledge => w.(disk := w.disk.(warned := false))
  }

  function Run(w: World, es: seq<Event>): World
    decreases |es|
  {
    if es == [] then w else Run(Step(w, es[0]), es[1..])
  }

  /** No cleanup record yet. Whatever the slot's management key still owes, its delivery key is there too. */
  predicate Initial(w: World) {
    && w.op.Idle? && w.clearing == 0 && w.captured == {}
    && w.disk.records == Records(None, [])
    && (w.disk.gate.epoch.Some? ==> w.disk.gate.epoch.value in w.drawn)
    && w.books.gateway.owed <= Opt(w.disk.slot.management)
    && (w.books.gateway.owed != {} ==> w.disk.slot.delivery.Some?)
    && w.books.gateway.deleted == {} && w.books.gateway.givenUp == {}
    && w.books.held == Held({}, {}, {}, {}, true)
  }
}

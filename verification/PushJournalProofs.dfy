/** What every run of push setup and cleanup keeps, wherever it is cut off. */
module PushJournalProofs {
  import opened Basics
  import opened PushJournal

  /* ---- Invariants ---- */

  /** Sent, not confirmed deleted since, and not given up. */
  predicate Owes(g: Gateway, k: Key) { k in g.owed && k !in g.givenUp }

  function Saved(r: Records): set<Key> {
    (if r.journal.Some? then ManagementKeys(r.journal.value) else {}) + FallbackKeys(r.fallback)
  }

  /** The first main result: a key that can still reach the gateway can be read back from storage. */
  ghost predicate Covered(w: World) {
    forall k :: Owes(w.books.gateway, k) ==> k in Saved(w.disk.records) || w.disk.slot.management == Some(k)
  }

  /** The slot's key is also in a cleanup record, so the slot may be cleared. */
  ghost predicate Shadowed(w: World) {
    forall k :: Owes(w.books.gateway, k) && w.disk.slot.management == Some(k) ==> k in Saved(w.disk.records)
  }

  ghost predicate SlotWhole(w: World) {
    forall k :: Owes(w.books.gateway, k) && w.disk.slot.management == Some(k) ==>
      w.disk.slot.delivery.Some? || k in Saved(w.disk.records)
  }

  ghost predicate Recorded(w: World) {
    w.disk.records.journal.Some? || w.disk.records.fallback != [] || w.clearing > 0 ==> Shadowed(w)
  }

  ghost predicate Apart(g: Gateway) { forall k :: k in g.deleted ==> k !in g.owed }

  ghost predicate TargetOk(t: Target, g: Gateway, p: Pushers) {
    && (t.gatewayDone ==> t.management in g.deleted)
    && (t.pusherDone ==> t.delivery in p.removed || t.delivery in p.abandoned)
  }

  ghost predicate PrimaryOk(c: Primary, g: Gateway, p: Pushers) {
    && (c.gatewayDone && c.management.Some? ==> c.management.value in g.deleted)
    && (c.pusherDone && c.delivery.Some? ==> c.delivery.value in p.removed || c.delivery.value in p.abandoned)
    && (c.management.Some? && Owes(g, c.management.value) ==> c.delivery.Some? && c.generation.Some?)
  }

  /** Every flag a cleanup carries is true of the outside world. */
  ghost predicate CleanupOk(c: Cleanup, b: Books, worker: Option<Config>) {
    && PrimaryOk(c.primary, b.gateway, b.pushers)
    && (forall t :: t in c.extra ==> TargetOk(t, b.gateway, b.pushers))
    && (c.browser.workerDone ==> worker.None?)
  }

  /** The cleanup still names every key the journal has held, unless the worker's configuration displaced it. */
  ghost predicate HeldIn(h: Held, c: Cleanup) {
    && (forall k :: k in h.management ==> k in ManagementKeys(c) || k in h.lostManagement)
    && (forall k :: k in h.delivery ==> k in DeliveryKeys(c) || k in h.lostDelivery)
    && (h.tidy ==> Whole(c) && h.lostManagement == {} && h.lostDelivery == {})
  }

  ghost predicate JournalOk(w: World) {
    if w.disk.records.journal.Some? then
      var c := w.disk.records.journal.value;
      && CleanupOk(c, w.books, w.worker) && HeldIn(w.books.held, c)
      && (forall k :: k in ManagementKeys(c) ==> k in w.books.held.management)
      && (forall k :: k in DeliveryKeys(c) ==> k in w.books.held.delivery)
    else w.books.held.management == {} && w.books.held.delivery == {}
  }

  ghost predicate FallbackOk(w: World) {
    forall t :: t in w.disk.records.fallback ==> t.workerMayBeConfigured
  }

  ghost predicate Linked(s: Slot, c: Credentials) {
    ReadCredentials(s).None? || ReadCredentials(s) == Some(c)
  }

  /** Whoever captured credentials under the present epoch captured what the slot still holds. */
  ghost predicate LinkAll(w: World) {
    forall p :: p in w.captured && w.disk.gate.epoch == Some(p.epoch) ==> Linked(w.disk.slot, p.credentials)
  }

  ghost predicate Link(w: World) { w.disk.records.journal.None? ==> LinkAll(w) }

  ghost predicate Epochs(w: World) {
    && (w.disk.gate.epoch.Some? ==> w.disk.gate.epoch.value in w.drawn)
    && (forall p :: p in w.captured ==> p.epoch in w.drawn)
  }

  ghost predicate NoCapture(w: World) {
    forall p :: p in w.captured ==> w.disk.gate.epoch != Some(p.epoch)
  }

  /** Nothing in storage competes with the credentials being set up. */
  ghost predicate Sole(w: World, c: Credentials) {
    && w.disk.records == Records(None, [])
    && (forall k :: Owes(w.books.gateway, k) ==> k == c.management)
    && !Protects(w.disk.slot, c)
  }

  ghost predicate InstallOk(w: World, c: Credentials, install: Install) {
    && w.disk.records == Records(Some(QueuedJournal(c, false)), [])
    && w.books.held.tidy
    && (!install.Queued? ==> w.clearing == 0)
    && (install.WroteDelivery? || install.WroteManagement? || install.WroteGeneration? || install.Rotated? ==> w.disk.slot.delivery == Some(c.delivery))
    && (install.WroteManagement? || install.WroteGeneration? || install.Rotated? ==> w.disk.slot.management == Some(c.management))
    && (install.WroteGeneration? || install.Rotated? ==> w.disk.slot.generation == Some(c.generation))
    && (install.Rotated? ==> NoCapture(w))
  }

  ghost predicate CleaningOk(w: World, c: Cleanup) {
    && LinkAll(w)
    && CleanupOk(c, w.books, w.worker)
    && (w.disk.records.journal.Some? || w.disk.records.fallback != [])
    && (forall k :: Owes(w.books.gateway, k) ==> k in ManagementKeys(c))
    && (w.disk.records.journal.Some? ==> HeldIn(w.books.held, c) && Keeps(w.disk.records.journal.value, c))
  }

  /** Whatever the journal names, the cleanup in memory names too. */
  ghost predicate Keeps(journal: Cleanup, c: Cleanup) {
    && (forall k :: k in ManagementKeys(journal) ==> k in ManagementKeys(c))
    && (forall k :: k in DeliveryKeys(journal) ==> k in DeliveryKeys(c))
  }

  /** Probing the worker leaves no configuration without a generation. */
  ghost predicate Probed(config: Option<Config>) { config.Some? ==> config.value.generation.Some? }

  ghost predicate OpOk(w: World) {
    match w.op
    case Idle => w.clearing == 0
    case Probing(epoch, known) =>
      && w.clearing == 0
      && w.disk.records == Records(None, [])
      && (known.Some? ==> Capture(epoch, known.value) in w.captured)
    case Queueing(c) => w.clearing == 0 && Sole(w, c)
    case Journaling(c, _) => w.clearing == 0 && Sole(w, c)
    case Falling(c) => w.clearing == 0 && Sole(w, c)
    case RollingBack(c, saved) => w.clearing == 0 && RollbackOk(w, c, saved)
    case RolledBack(c, saved, confirmed) =>
      w.clearing == 0 && RollbackOk(w, c, saved) && (confirmed ==> !Owes(w.books.gateway, c.management))
    case Leaving => true
    case Installing(c, _, install) => InstallOk(w, c, install)
    case Beginning(_) => w.clearing == 0
    case Reading(_, config) => w.clearing == 0 && LinkAll(w) && Probed(config)
    case Cleaning(c, stage, _, config) =>
      CleaningOk(w, c) && Probed(config) && (stage.Unsubscribing? ==> c.browser.workerDone)
    case Removing(_) => w.clearing == 0 && w.disk.records.journal.None? && LinkAll(w) && (forall k :: !Owes(w.books.gateway, k))
  }

  ghost predicate RollbackOk(w: World, c: Credentials, saved: bool) {
    && w.disk.records.journal.None?
    && (forall k :: Owes(w.books.gateway, k) ==> k == c.management)
    && (if saved then c.management in FallbackKeys(w.disk.records.fallback) else w.disk.records.fallback == [])
  }

  ghost predicate Inv(w: World) {
    && 0 <= w.clearing <= 3 && (w.clearing >= 2 ==> w.disk.slot.delivery.None?)
    && Covered(w) && Recorded(w) && SlotWhole(w)
    && Apart(w.books.gateway)
    && JournalOk(w) && FallbackOk(w)
    && Link(w) && Epochs(w)
    && OpOk(w)
  }

  /* ---- Setup steps ---- */

  lemma InitialInv(w: World)
    requires Initial(w)
    ensures Inv(w)
  {
  }

  lemma ProbeKeepsInv(w: World, d: Draw)
    requires Inv(w) && w.op.Probing?
    ensures Inv(ProbeStep(w, d))
  {
  }

  lemma QueueKeepsInv(w: World, d: Draw)
    requires Inv(w) && w.op.Queueing?
    ensures Inv(QueueStep(w, d))
  {
  }

  lemma JournalKeepsInv(w: World, d: Draw)
    requires Inv(w) && w.op.Journaling?
    ensures Inv(JournalStep(w, d))
  {
  }

  lemma FallbackKeepsInv(w: World, d: Draw)
    requires Inv(w) && w.op.Falling?
    ensures Inv(FallbackStep(w, d))
  {
  }

  lemma RollbackKeepsInv(w: World, d: Draw)
    requires Inv(w) && w.op.RollingBack?
    ensures Inv(RollbackStep(w, d))
  {
    var v := RollbackStep(w, d);
    assert forall k :: Owes(v.books.gateway, k) ==> Owes(w.books.gateway, k);
  }

  lemma LeaveKeepsInv(w: World, d: Draw)
    requires Inv(w) && w.op.RolledBack?
    ensures Inv(LeaveStep(w, d))
  {
    var v := LeaveStep(w, d);
    assert forall k :: Owes(v.books.gateway, k) ==> Owes(w.books.gateway, k);
  }

  /** Before the commit: each request is preceded by the ownership check. */
  lemma InstallBeforeCommit(w: World, d: Draw)
    requires Inv(w) && w.op.Installing? && w.clearing == 0
    requires w.op.install.Queued? || w.op.install.Configured? || w.op.install.Posted? || w.op.install.Registered? || w.op.install.Checked?
    ensures Inv(InstallStep(w, d))
  {
    var c := w.op.credentials;
    assert ManagementKeys(QueuedJournal(c, false)) == {c.management};
  }

  lemma InstallCommit(w: World, d: Draw)
    requires Inv(w) && w.op.Installing? && w.clearing == 0
    requires w.op.install.WroteDelivery? || w.op.install.WroteManagement? || w.op.install.WroteGeneration? || w.op.install.Rotated?
    ensures Inv(InstallStep(w, d))
  {
    var c := w.op.credentials;
    assert ManagementKeys(QueuedJournal(c, false)) == {c.management};
  }

  lemma ClearKeepsInv(w: World)
    requires Inv(w) && w.clearing > 0
    ensures Inv(ClearStep(w))
  {
  }

  /* ---- Cleanup steps ---- */

  /** A cleanup that may be written over the journal. */
  ghost predicate Sound(w: World, c: Cleanup) {
    && CleanupOk(c, w.books, w.worker)
    && (forall k :: Owes(w.books.gateway, k) ==> k in ManagementKeys(c))
    && (w.disk.records.journal.Some? ==> HeldIn(w.books.held, c))
  }

  /** A cleanup that may take the place of the present one in memory. */
  ghost predicate Fits(w: World, c: Cleanup) {
    && Sound(w, c)
    && (w.disk.records.journal.Some? ==> Keeps(w.disk.records.journal.value, c))
  }

  lemma MemoryKeepsInv(w: World, c: Cleanup, stage: Stage)
    requires Inv(w) && w.op.Cleaning? && Fits(w, c) && (stage.Unsubscribing? ==> c.browser.workerDone)
    ensures Inv(At(w, c, stage))
  {
  }

  lemma WriteKeepsInv(w: World, c: Cleanup, stage: Stage)
    requires Inv(w) && w.op.Cleaning? && w.clearing == 0 && Sound(w, c) && (stage.Unsubscribing? ==> c.browser.workerDone)
    ensures Inv(At(WriteJournal(w, c), c, stage)) && Inv(Go(WriteJournal(w, c), Idle))
  {
    assert HeldIn(WriteJournal(w, c).books.held, c);
  }

  lemma ConfirmKeepsInv(w: World, k: Key)
    requires Inv(w) && w.op.Cleaning?
    ensures Inv(Confirm(w, k))
  {
    var v := Confirm(w, k);
    assert forall j :: Owes(v.books.gateway, j) ==> Owes(w.books.gateway, j);
  }

  lemma UnpushKeepsInv(w: World, delivery: Key)
    requires Inv(w) && w.op.Cleaning?
    ensures Inv(Unpush(w, delivery))
  {
  }

  lemma WorkerGoneKeepsInv(w: World)
    requires Inv(w) && w.op.Cleaning?
    ensures Inv(w.(worker := None))
  {
  }

  lemma BeginKeepsInv(w: World, d: Draw)
    requires Inv(w) && w.op.Beginning?
    ensures Inv(BeginStep(w, d))
  {
  }

  lemma RemoveKeepsInv(w: World)
    requires Inv(w) && w.op.Removing?
    ensures Inv(RemoveStep(w))
  {
  }

  lemma AddTargetFits(c: Cleanup, delivery: Key, management: Key)
    ensures ManagementKeys(AddTarget(c, delivery, management)) == ManagementKeys(c) + {management}
    ensures DeliveryKeys(c) <= DeliveryKeys(AddTarget(c, delivery, management))
  {
    var a := AddTarget(c, delivery, management);
    if management !in ManagementKeys(c) {
      assert a.extra[|c.extra|] == Pending(delivery, management);
      forall t | t in c.extra ensures t in a.extra {}
    }
  }

  lemma {:induction false} AddAllFits(c: Cleanup, f: seq<FallbackTarget>, b: Books, worker: Option<Config>)
    requires CleanupOk(c, b, worker)
    ensures CleanupOk(AddAll(c, f), b, worker)
    ensures ManagementKeys(AddAll(c, f)) == ManagementKeys(c) + FallbackKeys(f)
    ensures DeliveryKeys(c) <= DeliveryKeys(AddAll(c, f))
    ensures AddAll(c, f).primary == c.primary
    decreases |f|
  {
    if f != [] {
      AddTargetFits(c, f[0].delivery, f[0].management);
      AddAllFits(AddTarget(c, f[0].delivery, f[0].management), f[1..], b, worker);
      assert FallbackKeys(f) == {f[0].management} + FallbackKeys(f[1..]);
    }
  }

  lemma {:induction false} TargetsFit(f: seq<FallbackTarget>)
    ensures forall t :: t in Targets(f) ==> !t.gatewayDone && !t.pusherDone
    ensures Managements(Targets(f)) == FallbackKeys(f)
  {
    if f != [] {
      TargetsFit(f[1..]);
      assert FallbackKeys(f) == {f[0].management} + FallbackKeys(f[1..]);
      var first, rest := Pending(f[0].delivery, f[0].management), Targets(f[1..]);
      assert first in [first] + rest;
      forall t | t in rest ensures t in [first] + rest {}
    }
  }

  /** The cleanup chosen by beginLocalPushCleanup takes over every key that storage holds. */
  lemma PendingFits(w: World)
    requires Inv(w) && w.op.Reading? && w.disk.records.journal.Some?
    ensures Fits(w, MergeFallback(w.disk.records.journal.value, w.disk.records.fallback))
  {
    AddAllFits(w.disk.records.journal.value, w.disk.records.fallback, w.books, w.worker);
  }

  lemma FallbackFits(w: World)
    requires Inv(w) && w.op.Reading? && w.disk.records.journal.None? && w.disk.records.fallback != []
    ensures Fits(w, FromFallback(w.disk.records.fallback))
  {
    var f := w.disk.records.fallback;
    TargetsFit(f[1..]);
    assert FallbackKeys(f) == {f[0].management} + FallbackKeys(f[1..]);
    assert f[0] in f;
  }

  lemma SlotFits(w: World)
    requires Inv(w) && w.op.Reading? && w.disk.records == Records(None, [])
    ensures Fits(w, FromSlot(w.disk.slot))
  {
  }

  lemma StartWorkKeepsInv(w: World, c: Cleanup)
    requires Inv(w) && w.op.Reading? && Fits(w, c)
    requires w.disk.records.journal.Some? || w.disk.records.fallback != []
    ensures Inv(StartWork(w, c))
  {
  }

  lemma StartWrittenKeepsInv(w: World, c: Cleanup)
    requires Inv(w) && w.op.Reading? && w.disk.records.journal.None? && Fits(w, c)
    ensures Inv(StartWork(WriteJournal(w, c), c))
  {
    assert HeldIn(WriteJournal(w, c).books.held, c);
  }

  lemma ReadKeepsInv(w: World, d: Draw)
    requires Inv(w) && w.op.Reading?
    ensures Inv(ReadStep(w, d))
  {
    var r := w.disk.records;
    if r.journal.Some? {
      PendingFits(w);
      StartWorkKeepsInv(w, if r.fallback == [] then r.journal.value else MergeFallback(r.journal.value, r.fallback));
    } else if r.fallback != [] {
      FallbackFits(w);
      if d.ok { StartWrittenKeepsInv(w, FromFallback(r.fallback)); } else { StartWorkKeepsInv(w, FromFallback(r.fallback)); }
    } else if d.ok {
      SlotFits(w);
      StartWrittenKeepsInv(w, FromSlot(w.disk.slot));
    }
  }

  lemma StopKeepsInv(w: World)
    requires Inv(w)
    ensures Inv(w.(op := Idle, clearing := 0))
  {
  }

  lemma AllowKeepsInv(w: World, d: Draw)
    requires Inv(w) && w.op.Cleaning? && w.clearing == 0
    ensures Inv(AllowStep(w, d))
  {
    var c := w.op.cleanup;
    var allowed := c.(allowAbandonment := true);
    assert Fits(w, allowed);
    MemoryKeepsInv(w, c, Allowed);
    WriteKeepsInv(w, allowed, Allowed);
    StopKeepsInv(w);
  }

  lemma CanonicalizeKeepsInv(w: World, d: Draw)
    requires Inv(w) && w.op.Cleaning? && w.clearing == 0
    ensures Inv(CanonicalizeStep(w, d))
  {
    var c := w.op.cleanup;
    MemoryKeepsInv(w, c, Canonicalized);
    StopKeepsInv(w);
    if c.primary.management.Some? && c.primary.generation == Some(OfKey(c.primary.management.value)) {
      var canonical := c.(primary := c.primary.(generation := Some(Digest(c.primary.management.value))));
      assert Fits(w, canonical);
      WriteKeepsInv(w, canonical, Canonicalized);
    }
  }

  /** The worker's configuration displaces no owed key, unless a rollback has given it up. */
  lemma DisplaceKeepsInv(w: World, config: Config)
    requires Inv(w) && w.op.Cleaning? && Overrides(w.op.cleanup, Some(config)) && config.generation.Some?
    ensures var o := Overridden(w.op.cleanup, config);
      Inv(Displace(w, w.op.cleanup, o)) && Sound(Displace(w, w.op.cleanup, o), o)
  {
    var c := w.op.cleanup;
    var o := Overridden(c, config);
    var v := Displace(w, c, o);
    if Whole(c) {
      assert v.books.held.lostManagement == w.books.held.lostManagement + {};
      assert v.books.held.lostDelivery == w.books.held.lostDelivery + {};
    }
  }

  lemma MergeKeepsInv(w: World, d: Draw)
    requires Inv(w) && w.op.Cleaning? && w.clearing == 0
    ensures Inv(MergeStep(w, d))
  {
    var c := w.op.cleanup;
    StopKeepsInv(w);
    MemoryKeepsInv(w, c, Merged);
    if Overrides(c, w.op.config) {
      DisplaceKeepsInv(w, w.op.config.value);
      WriteKeepsInv(Displace(w, c, Overridden(c, w.op.config.value)), Overridden(c, w.op.config.value), Merged);
    } else if Corrects(c, w.op.config) {
      var corrected := c.(primary := c.primary.(generation := w.op.config.value.generation));
      assert Fits(w, corrected);
      WriteKeepsInv(w, corrected, Merged);
    }
  }

  lemma ReclearKeepsInv(w: World)
    requires Inv(w) && w.op.Cleaning? && w.clearing == 0
    ensures Inv(ReclearStep(w))
  {
    MemoryKeepsInv(w, w.op.cleanup, Cleared);
  }

  lemma RemoteKeepsInv(w: World, c: Cleanup, orphan: bool)
    requires Inv(w) && w.op.Cleaning? && Fits(w, c)
    ensures Inv(StartRemote(w, c, orphan))
  {
    var p := c.primary;
    var started := c.(primary := p.(gatewayDone := p.gatewayDone || p.management.None?, pusherDone := p.pusherDone || p.delivery.None?));
    assert Fits(w, started);
    MemoryKeepsInv(w, started, Remote(orphan));
  }

  lemma AddIfNewKeeps(c: Cleanup, config: Config)
    ensures var a := AddIfNew(c, config);
      && a.primary == c.primary && a.browser == c.browser
      && (forall t :: t in c.extra ==> t in a.extra)
      && (forall t :: t in a.extra ==> t in c.extra || t == Pending(config.delivery, config.management))
      && ManagementKeys(c) <= ManagementKeys(a) && DeliveryKeys(c) <= DeliveryKeys(a)
  {
    var a := AddIfNew(c, config);
    forall t | t in c.extra ensures t in a.extra {}
  }

  lemma RecoveryKeeps(c: Cleanup, config: Config, b: Books, worker: Option<Config>)
    requires CleanupOk(c, b, worker) && config.generation.Some? && RecoverOrphan(c, config).Some?
    ensures CleanupOk(RecoverOrphan(c, config).value, b, worker) && Keeps(c, RecoverOrphan(c, config).value)
    ensures Whole(c) ==> Whole(RecoverOrphan(c, config).value)
  {
    AddIfNewKeeps(c, config);
  }

  lemma OrphanFits(w: World, config: Config)
    requires Inv(w) && w.op.Cleaning? && config.generation.Some? && MergeOrphan(w.op.cleanup, config).Some?
    ensures Fits(w, MergeOrphan(w.op.cleanup, config).value)
  {
    RecoveryKeeps(w.op.cleanup, config, w.books, w.worker);
    var r := RecoverOrphan(w.op.cleanup, config).value;
    assert Fits(w, r);
  }

  lemma InspectKeepsInv(w: World, d: Draw)
    requires Inv(w) && w.op.Cleaning? && w.clearing == 0
    ensures Inv(InspectStep(w, d))
  {
    var c := w.op.cleanup;
    RemoteKeepsInv(w, c, false);
    if w.worker.None? {
      var cleared := c.(browser := Browser(true, true, true, c.browser.badgeDone));
      assert Fits(w, cleared);
      RemoteKeepsInv(w, cleared, false);
    } else {
      var merged := MergeOrphan(c, Migrated(w.worker).value);
      if merged.Some? {
        OrphanFits(w, Migrated(w.worker).value);
        WriteKeepsInv(w, merged.value, Cleared);
        var v := At(WriteJournal(w, merged.value), merged.value, Cleared);
        RemoteKeepsInv(v, merged.value, true);
        assert StartRemote(WriteJournal(w, merged.value), merged.value, true) == StartRemote(v, merged.value, true);
      }
    }
  }

  lemma SameNames(a: seq<Target>, b: seq<Target>)
    requires |a| == |b|
    requires forall j :: 0 <= j < |a| ==> a[j].management == b[j].management && a[j].delivery == b[j].delivery
    ensures Managements(a) <= Managements(b) && Deliveries(a) <= Deliveries(b)
  {
    forall t | t in a ensures exists u :: u in b && u.management == t.management && u.delivery == t.delivery {
      var j :| 0 <= j < |a| && a[j] == t;
      assert b[j] in b;
    }
  }

  lemma ExtraFits(w: World, i: nat, t: Target)
    requires Inv(w) && w.op.Cleaning? && i < |w.op.cleanup.extra|
    requires t.management == w.op.cleanup.extra[i].management && t.delivery == w.op.cleanup.extra[i].delivery
    requires TargetOk(t, w.books.gateway, w.books.pushers)
    ensures Fits(w, w.op.cleanup.(extra := w.op.cleanup.extra[i := t]))
  {
    SameNames(w.op.cleanup.extra, w.op.cleanup.extra[i := t]);
    assert Fits(w, w.op.cleanup);
  }

  lemma ExtraKeepsInv(w: World, i: nat, t: Target)
    requires Inv(w) && w.op.Cleaning? && w.op.stage.Remote? && i < |w.op.cleanup.extra|
    requires t.management == w.op.cleanup.extra[i].management && t.delivery == w.op.cleanup.extra[i].delivery
    requires TargetOk(t, w.books.gateway, w.books.pushers)
    ensures Inv(At(w, w.op.cleanup.(extra := w.op.cleanup.extra[i := t]), w.op.stage))
  {
    ExtraFits(w, i, t);
    MemoryKeepsInv(w, w.op.cleanup.(extra := w.op.cleanup.extra[i := t]), w.op.stage);
  }

  lemma AnswerKeepsInv(w: World, part: Part, ok: bool)
    requires Inv(w) && w.op.Cleaning? && w.op.stage.Remote? && w.clearing == 0
    ensures Inv(AnswerPart(w, part, ok))
  {
    if part.PrimaryGateway? || part.PrimaryPusher? {
      AnswerPrimaryKeepsInv(w, part, ok);
    } else if part.ExtraGateway? || part.ExtraPusher? {
      AnswerExtraKeepsInv(w, part, ok);
    } else {
      AnswerLocalKeepsInv(w, part, ok);
    }
  }

  lemma AnswerPrimaryKeepsInv(w: World, part: Part, ok: bool)
    requires Inv(w) && w.op.Cleaning? && w.op.stage.Remote? && w.clearing == 0
    requires part.PrimaryGateway? || part.PrimaryPusher?
    ensures Inv(AnswerPart(w, part, ok))
  {
    var c := w.op.cleanup;
    var p := c.primary;
    if part.PrimaryGateway? && p.management.Some? {
      ConfirmKeepsInv(w, p.management.value);
      PrimaryKeepsInv(Confirm(w, p.management.value), p.(gatewayDone := true));
    } else if part.PrimaryPusher? && p.delivery.Some? {
      UnpushKeepsInv(w, p.delivery.value);
      PrimaryKeepsInv(Unpush(w, p.delivery.value), p.(pusherDone := true));
    }
  }

  lemma PrimaryKeepsInv(w: World, p: Primary)
    requires Inv(w) && w.op.Cleaning? && w.op.stage.Remote? && PrimaryOk(p, w.books.gateway, w.books.pushers)
    requires var q := w.op.cleanup.primary; p.management == q.management && p.delivery == q.delivery && p.generation == q.generation
    ensures Inv(At(w, w.op.cleanup.(primary := p), w.op.stage))
  {
    assert Fits(w, w.op.cleanup.(primary := p));
    MemoryKeepsInv(w, w.op.cleanup.(primary := p), w.op.stage);
  }

  lemma AnswerExtraKeepsInv(w: World, part: Part, ok: bool)
    requires Inv(w) && w.op.Cleaning? && w.op.stage.Remote? && w.clearing == 0
    requires part.ExtraGateway? || part.ExtraPusher?
    ensures Inv(AnswerPart(w, part, ok))
  {
    var c := w.op.cleanup;
    if part.i < |c.extra| {
      var t := c.extra[part.i];
      assert t in c.extra;
      if part.ExtraGateway? {
        ConfirmKeepsInv(w, t.management);
        ExtraKeepsInv(Confirm(w, t.management), part.i, t.(gatewayDone := true));
      } else {
        UnpushKeepsInv(w, t.delivery);
        ExtraKeepsInv(Unpush(w, t.delivery), part.i, t.(pusherDone := true));
      }
    }
  }

  lemma AnswerLocalKeepsInv(w: World, part: Part, ok: bool)
    requires Inv(w) && w.op.Cleaning? && w.op.stage.Remote? && w.clearing == 0
    requires part.Worker? || part.Notifications? || part.Badge?
    ensures Inv(AnswerPart(w, part, ok))
  {
    var c := w.op.cleanup;
    var b := c.browser;
    var stage := w.op.stage;
    if part.Worker? {
      var v := w.(worker := None);
      WorkerGoneKeepsInv(w);
      assert Fits(v, c.(browser := b.(workerDone := true)));
      MemoryKeepsInv(v, c.(browser := b.(workerDone := true)), stage);
      MemoryKeepsInv(v, c, stage);
    } else {
      var changed := c.(browser := if part.Badge? then b.(badgeDone := true) else b.(notificationsDone := true));
      assert Fits(w, changed);
      MemoryKeepsInv(w, changed, stage);
    }
  }

  lemma AbandonKeepsInv(w: World, ks: set<Key>)
    requires Inv(w) && w.op.Cleaning?
    ensures Inv(w.(disk := w.disk.(warned := true),
                   books := w.books.(pushers := w.books.pushers.(abandoned := w.books.pushers.abandoned + ks))))
  {
  }

  lemma WarnedFits(w: World, c: Cleanup)
    requires Fits(w, c) && DeliveryKeys(c) <= w.books.pushers.abandoned
    ensures Fits(w, c.(primary := c.primary.(pusherDone := true), extra := PushersGivenUp(c.extra)))
  {
    var g := PushersGivenUp(c.extra);
    SameNames(c.extra, g);
    forall t | t in g ensures exists u :: u in c.extra && t == u.(pusherDone := true) {
      var i :| 0 <= i < |g| && g[i] == t;
      assert c.extra[i] in c.extra;
    }
  }

  lemma WarnKeepsInv(w: World, d: Draw)
    requires Inv(w) && w.op.Cleaning? && w.op.stage.Joined? && w.clearing == 0
    ensures Inv(WarnStep(w, d))
  {
    var c := w.op.cleanup;
    MemoryKeepsInv(w, c, Emptying(w.op.stage.orphan));
    AbandonKeepsInv(w, DeliveryKeys(c));
    var v := w.(disk := w.disk.(warned := true),
                books := w.books.(pushers := w.books.pushers.(abandoned := w.books.pushers.abandoned + DeliveryKeys(c))));
    assert Fits(v, c);
    WarnedFits(v, c);
    MemoryKeepsInv(v, c.(primary := c.primary.(pusherDone := true), extra := PushersGivenUp(c.extra)), Emptying(w.op.stage.orphan));
  }

  lemma EmptyKeepsInv(w: World, d: Draw)
    requires Inv(w) && w.op.Cleaning? && w.op.stage.Emptying? && w.clearing == 0
    ensures Inv(EmptyStep(w, d))
  {
    var c := w.op.cleanup;
    MemoryKeepsInv(w, c, Ending);
    WorkerGoneKeepsInv(w);
    var emptied := c.(browser := Browser(true, true, true, c.browser.badgeDone));
    assert Fits(w.(worker := None), emptied);
    MemoryKeepsInv(w.(worker := None), emptied, Ending);
  }

  lemma EndKeepsInv(w: World, d: Draw)
    requires Inv(w) && w.op.Cleaning? && w.clearing == 0
    ensures Inv(EndStep(w, d)) && Inv(UnsubscribeStep(w, d))
  {
    var c := w.op.cleanup;
    var unsubscribed := c.(browser := c.browser.(subscriptionDone := true));
    assert Fits(w, unsubscribed);
    MemoryKeepsInv(w, c, Finishing);
    MemoryKeepsInv(w, unsubscribed, Finishing);
    if c.browser.workerDone {
      MemoryKeepsInv(w, c, Unsubscribing);
      WriteKeepsInv(w, c, Unsubscribing);
    }
  }

  /** A complete cleanup has settled every key it names. */
  lemma CompleteIsSettled(w: World)
    requires Inv(w) && w.op.Cleaning? && Complete(w.op.cleanup)
    ensures forall k :: !Owes(w.books.gateway, k)
    ensures forall k :: k in ManagementKeys(w.op.cleanup) ==> k in w.books.gateway.deleted
    ensures forall k :: k in DeliveryKeys(w.op.cleanup) ==> k in w.books.pushers.removed || k in w.books.pushers.abandoned
    ensures w.worker.None?
  {
  }

  lemma FinishKeepsInv(w: World, d: Draw)
    requires Inv(w) && w.op.Cleaning? && w.clearing == 0
    ensures Inv(FinishStep(w, d))
  {
    StopKeepsInv(w);
    WriteKeepsInv(w, w.op.cleanup, Finishing);
    if Complete(w.op.cleanup) { CompleteIsSettled(w); }
  }

  /* ---- Every step ---- */

  lemma CleanKeepsInv(w: World, d: Draw)
    requires Inv(w) && w.op.Cleaning? && w.clearing == 0
    ensures Inv(CleanStep(w, d))
  {
    match w.op.stage
    case Begun => AllowKeepsInv(w, d);
    case Allowed => CanonicalizeKeepsInv(w, d);
    case Canonicalized => MergeKeepsInv(w, d);
    case Merged => ReclearKeepsInv(w);
    case Cleared => InspectKeepsInv(w, d);
    case Remote(orphan) => MemoryKeepsInv(w, w.op.cleanup, Joined(orphan));
    case Joined(_) => WarnKeepsInv(w, d);
    case Emptying(_) => EmptyKeepsInv(w, d);
    case Ending => EndKeepsInv(w, d);
    case Unsubscribing => EndKeepsInv(w, d);
    case Finishing => FinishKeepsInv(w, d);
  }

  lemma SetupKeepsInv(w: World, d: Draw)
    requires Inv(w) && w.clearing == 0 && (w.op.Probing? || w.op.Queueing? || w.op.Journaling? || w.op.Installing?)
    ensures Inv(AdvanceStep(w, d))
  {
    match w.op
    case Probing(_, _) => ProbeKeepsInv(w, d);
    case Queueing(_) => QueueKeepsInv(w, d);
    case Journaling(_, _) => JournalKeepsInv(w, d);
    case Installing(_, _, i) =>
      if i.Queued? || i.Configured? || i.Posted? || i.Registered? || i.Checked? { InstallBeforeCommit(w, d); } else { InstallCommit(w, d); }
  }

  lemma AdvanceKeepsInv(w: World, d: Draw)
    requires Inv(w)
    ensures Inv(AdvanceStep(w, d))
  {
    if w.clearing > 0 {
      ClearKeepsInv(w);
    } else {
      match w.op
      case Idle =>
      case Falling(_) => FallbackKeepsInv(w, d);
      case RollingBack(_, _) => RollbackKeepsInv(w, d);
      case RolledBack(_, _, _) => LeaveKeepsInv(w, d);
      case Leaving => StopKeepsInv(w);
      case Beginning(_) => BeginKeepsInv(w, d);
      case Reading(_, _) => ReadKeepsInv(w, d);
      case Cleaning(_, _, _, _) => CleanKeepsInv(w, d);
      case Removing(_) => RemoveKeepsInv(w);
      case _ => SetupKeepsInv(w, d);
    }
  }

  /** What other tabs do without the lock. */
  lemma AnnounceKeepsInv(w: World, e: Event)
    requires Inv(w) && (e.Intend? || e.Rotate? || e.Acknowledge?)
    ensures Inv(Step(w, e))
  {
  }

  lemma CaptureKeepsInv(w: World, epoch: int)
    requires Inv(w)
    ensures Inv(CaptureStep(w, epoch))
  {
  }

  lemma StartKeepsInv(w: World, e: Event)
    requires Inv(w) && (e.StartSetup? || e.StartCleanup?)
    ensures Inv(Step(w, e))
  {
  }

  lemma StepKeepsInv(w: World, e: Event)
    requires Inv(w)
    ensures Inv(Step(w, e))
  {
    match e
    case Advance(d) => AdvanceKeepsInv(w, d);
    case Answered(part, ok) =>
      if w.clearing == 0 && w.op.Cleaning? && w.op.stage.Remote? { AnswerKeepsInv(w, part, ok); }
    case Stop => StopKeepsInv(w);
    case StartSetup(_, _) => StartKeepsInv(w, e);
    case StartCleanup(_) => StartKeepsInv(w, e);
    case CaptureForRefresh(epoch) => CaptureKeepsInv(w, epoch);
    case _ => AnnounceKeepsInv(w, e);
  }

  lemma {:induction false} RunKeepsInv(w: World, es: seq<Event>)
    requires Inv(w)
    ensures Inv(Run(w, es))
    decreases |es|
  {
    if es != [] {
      StepKeepsInv(w, es[0]);
      RunKeepsInv(Step(w, es[0]), es[1..]);
    }
  }

  /* ---- No capability is lost ---- */

  predicate Readable(w: World, k: Key) {
    k in Saved(w.disk.records) || w.disk.slot.management == Some(k)
  }

  predicate GivesUpAt(w: World, e: Event) { e.Advance? && w.clearing <= 0 && GivesUp(w) }

  predicate GivesUpIn(w: World, es: seq<Event>)
    decreases |es|
  {
    es != [] && (GivesUpAt(w, es[0]) || GivesUpIn(Step(w, es[0]), es[1..]))
  }

  lemma CleaningGivesNothingUp(w: World, d: Draw)
    requires w.op.Cleaning?
    ensures CleanStep(w, d).books.gateway == w.books.gateway
  {
    match w.op.stage
    case Cleared =>
      var merged := if w.worker.Some? then MergeOrphan(w.op.cleanup, Migrated(w.worker).value) else None;
      if merged.Some? { assert WriteJournal(w, merged.value).books.gateway == w.books.gateway; }
    case _ =>
  }

  lemma SetupGivesNothingUp(w: World, d: Draw)
    requires w.clearing <= 0 && !GivesUp(w) && !w.op.Cleaning?
    ensures forall k :: k in AdvanceStep(w, d).books.gateway.givenUp ==> k in w.books.gateway.givenUp
  {
  }

  lemma AnswersGiveNothingUp(w: World, part: Part, ok: bool)
    requires w.op.Cleaning? && w.op.stage.Remote?
    ensures AnswerPart(w, part, ok).books.gateway.givenUp == w.books.gateway.givenUp
  {
  }

  lemma GivenUpOnlyThere(w: World, e: Event)
    requires !GivesUpAt(w, e)
    ensures forall k :: k in Step(w, e).books.gateway.givenUp ==> k in w.books.gateway.givenUp
  {
    if e.Advance? && w.clearing <= 0 {
      if w.op.Cleaning? { CleaningGivesNothingUp(w, e.draw); } else { SetupGivesNothingUp(w, e.draw); }
    } else if e.Answered? && w.op.Cleaning? && w.op.stage.Remote? {
      AnswersGiveNothingUp(w, e.part, e.ok);
    }
  }

  lemma {:induction false} NothingGivenUp(w: World, es: seq<Event>)
    requires !GivesUpIn(w, es)
    ensures forall k :: k in Run(w, es).books.gateway.givenUp ==> k in w.books.gateway.givenUp
    decreases |es|
  {
    if es != [] {
      GivenUpOnlyThere(w, es[0]);
      NothingGivenUp(Step(w, es[0]), es[1..]);
    }
  }

  /**
  Wherever a run is cut off, a management key that was sent to the gateway and has not been confirmed deleted
  can be read from the journal, the fallback record or the slot, unless a rollback gave it up.
  */
  lemma NoCapabilityIsLost(w: World, es: seq<Event>)
    requires Initial(w)
    ensures forall k :: k in Run(w, es).books.gateway.owed ==> Readable(Run(w, es), k) || k in Run(w, es).books.gateway.givenUp
    ensures !GivesUpIn(w, es) ==> forall k :: k in Run(w, es).books.gateway.owed ==> Readable(Run(w, es), k)
  {
    InitialInv(w);
    RunKeepsInv(w, es);
    var v := Run(w, es);
    forall k | k in v.books.gateway.owed && k !in v.books.gateway.givenUp ensures Readable(v, k) {
      assert Owes(v.books.gateway, k);
    }
    if !GivesUpIn(w, es) { NothingGivenUp(w, es); }
  }

  /** A rollback, run to its end. */
  function Left(w: World, d: Draw): World
    requires w.op.RolledBack?
  {
    ClearStep(ClearStep(ClearStep(LeaveStep(w, d))))
  }

  /**
  Exactly which rollbacks lose a key: both record writes failed, the gateway has not confirmed, the slot may be
  cleared, and the key had been sent before.
  */
  lemma RollbackLosesExactlyThen(w: World, d: Draw)
    requires Inv(w) && w.op.RolledBack? && MayLeave(w)
    requires forall k :: k in w.books.gateway.givenUp ==> k !in w.books.gateway.owed
    ensures (forall k :: k in Left(w, d).books.gateway.owed ==> Readable(Left(w, d), k)) <==>
            !(!w.op.saved && !w.op.confirmed && w.op.credentials.management in w.books.gateway.owed)
  {
    var v := Left(w, d);
    var m := w.op.credentials.management;
    assert forall k :: k in w.books.gateway.owed ==> Owes(w.books.gateway, k);
    if !w.op.saved && !w.op.confirmed && m in w.books.gateway.owed {
      assert m in v.books.gateway.owed && !Readable(v, m);
    }
  }

  ghost predicate Reaches(w: World, v: World) { exists es :: Run(w, es) == v }

  lemma {:induction false} RunOneMore(w: World, es: seq<Event>, e: Event)
    ensures Run(w, es + [e]) == Step(Run(w, es), e)
    decreases |es|
  {
    if es == [] {
      assert es + [e] == [e] && [e][1..] == [];
    } else {
      assert (es + [e])[1..] == es[1..] + [e];
      RunOneMore(Step(w, es[0]), es[1..], e);
    }
  }

  lemma ReachStep(w: World, v: World, e: Event)
    requires Reaches(w, v)
    ensures Reaches(w, Step(v, e))
  {
    var es :| Run(w, es) == v;
    RunOneMore(w, es, e);
  }

  const NO := Advance(Draw(false, false, 0, 0, 0, 0))

  /** Such a run: a setup over existing credentials in which every write and request fails. */
  lemma QuotaCanLoseACapability()
    ensures exists w, v, k :: Initial(w) && Reaches(w, v) && k in v.books.gateway.owed && !Readable(v, k)
  {
    var disk := Disk(Records(None, []), Slot(Some(1), Some(2), Some(Drawn(3))), Gate(false, Some(0)), false);
    var w := World(disk, None, Idle, 0, {0}, {}, Books(Gateway({2}, {}, {}), Pushers({}, {}), Held({}, {}, {}, {}, true)));
    var c := Credentials(1, 2, Drawn(3), false);
    assert Run(w, []) == w;
    ReachStep(w, w, StartSetup(0, None));
    assert Step(w, StartSetup(0, None)) == w.(op := Probing(0, None));
    ReachStep(w, w.(op := Probing(0, None)), NO);
    ReachStep(w, w.(op := Queueing(c)), NO);
    ReachStep(w, w.(op := Falling(c)), NO);
    ReachStep(w, w.(op := RollingBack(c, false)), NO);
    var left := QuotaEnds(w, w.(op := RolledBack(c, false, false)));
    assert Initial(w) && 2 in left.books.gateway.owed && !Readable(left, 2);
  }

  lemma QuotaEnds(w: World, v: World) returns (left: World)
    requires Reaches(w, v) && v.op == RolledBack(Credentials(1, 2, Drawn(3), false), false, false) && v.clearing == 0
    requires v.disk.records == Records(None, []) && v.disk.slot == Slot(Some(1), Some(2), Some(Drawn(3)))
    requires 2 in v.books.gateway.owed
    ensures Reaches(w, left) && 2 in left.books.gateway.owed && !Readable(left, 2)
  {
    left := Step(v, NO);
    ReachStep(w, v, NO);
    ReachStep(w, left, NO);
    ReachStep(w, Step(left, NO), NO);
    left := Step(Step(left, NO), NO);
  }

  /* ---- The journal goes only when its work is done ---- */

  /** Every key the journal has ever held is settled, apart from those displaced. */
  ghost predicate Settled(b: Books) {
    && (forall k :: k in b.held.management ==> k in b.gateway.deleted || k in b.held.lostManagement)
    && (forall k :: k in b.held.delivery ==> k in b.pushers.removed || k in b.pushers.abandoned || k in b.held.lostDelivery)
  }

  /** The slot holds exactly the credentials that were set up, and the journal held no other. */
  ghost predicate CommittedSetup(w: World) {
    && w.op.Installing?
    && w.disk.slot == Slot(Some(w.op.credentials.delivery), Some(w.op.credentials.management), Some(w.op.credentials.generation))
    && (forall k :: k in w.books.held.management ==> k == w.op.credentials.management)
  }

  lemma CleaningKeepsJournal(w: World, d: Draw)
    requires w.op.Cleaning? && w.disk.records.journal.Some? && CleanStep(w, d).disk.records.journal.None?
    ensures w.op.stage.Finishing? && Complete(w.op.cleanup)
  {
    if w.op.stage.Cleared? { InspectKeepsJournal(w, d); }
  }

  lemma InspectKeepsJournal(w: World, d: Draw)
    requires w.op.Cleaning? && w.disk.records.journal.Some?
    ensures InspectStep(w, d).disk.records.journal.Some?
  {
  }

  lemma SetupKeepsJournal(w: World, d: Draw)
    requires w.clearing == 0 && !w.op.Cleaning?
    requires w.disk.records.journal.Some? && AdvanceStep(w, d).disk.records.journal.None?
    ensures w.op.Installing? && w.op.install.Rotated?
  {
  }

  lemma CommitIsDone(w: World)
    requires Inv(w) && w.op.Installing? && w.op.install.Rotated?
    ensures CommittedSetup(w)
  {
    assert ManagementKeys(QueuedJournal(w.op.credentials, false)) == {w.op.credentials.management};
  }

  lemma CompletionIsDone(w: World)
    requires Inv(w) && w.op.Cleaning? && w.disk.records.journal.Some? && Complete(w.op.cleanup)
    ensures Settled(w.books) && w.worker.None?
  {
    CompleteIsSettled(w);
  }

  lemma RemovalIsDone(w: World, e: Event)
    requires Inv(w) && w.disk.records.journal.Some? && Step(w, e).disk.records.journal.None?
    ensures CommittedSetup(w) || (Settled(w.books) && w.worker.None?)
  {
    if w.clearing > 0 || !e.Advance? {
      OnlyAdvanceWrites(w, e);
    } else {
      if w.op.Cleaning? {
        CleaningKeepsJournal(w, e.draw);
        CompletionIsDone(w);
      } else {
        SetupKeepsJournal(w, e.draw);
        CommitIsDone(w);
      }
    }
  }

  /**
  At any point of any run, the journal disappears only in two ways: a setup commits, and the slot holds its
  credentials; or every management key the journal ever held is confirmed deleted, and every delivery key had its
  pusher removed or a durable warning recorded. Displaced keys are the exception, and a journal created with its
  three primary fields all present or all absent has none.
  */
  lemma JournalGoesOnlyWhenDone(w: World, es: seq<Event>, e: Event)
    requires Initial(w)
    requires Run(w, es).disk.records.journal.Some? && Step(Run(w, es), e).disk.records.journal.None?
    ensures CommittedSetup(Run(w, es)) || (Settled(Run(w, es).books) && Run(w, es).worker.None?)
    ensures Run(w, es).books.held.tidy ==>
      Run(w, es).books.held.lostManagement == {} && Run(w, es).books.held.lostDelivery == {}
  {
    InitialInv(w);
    RunKeepsInv(w, es);
    RemovalIsDone(Run(w, es), e);
  }

  /** Only the lock holder's own steps touch the records. */
  lemma OnlyAdvanceWrites(w: World, e: Event)
    requires !e.Advance? || w.clearing > 0
    ensures Step(w, e).disk.records == w.disk.records && Step(w, e).books.held == w.books.held
  {
    if e.Answered? && w.op.Cleaning? && w.op.stage.Remote? { AnswersWriteNothing(w, e.part, e.ok); }
  }

  lemma AnswersWriteNothing(w: World, part: Part, ok: bool)
    requires w.op.Cleaning? && w.op.stage.Remote?
    ensures AnswerPart(w, part, ok).disk == w.disk && AnswerPart(w, part, ok).books.held == w.books.held
  {
  }

  /** What `held` means: it takes up every key the journal names and forgets none while there is a journal. */
  lemma HeldNeverForgets(w: World, e: Event)
    requires Inv(w) && w.disk.records.journal.Some? && Step(w, e).disk.records.journal.Some?
    ensures forall k :: k in w.books.held.management ==> k in Step(w, e).books.held.management
    ensures forall k :: k in w.books.held.delivery ==> k in Step(w, e).books.held.delivery
    ensures forall k :: k in ManagementKeys(Step(w, e).disk.records.journal.value) ==> k in Step(w, e).books.held.management
    ensures forall k :: k in DeliveryKeys(Step(w, e).disk.records.journal.value) ==> k in Step(w, e).books.held.delivery
    ensures Step(w, e).books.held.tidy == w.books.held.tidy
  {
    StepKeepsInv(w, e);
    if w.clearing > 0 || !e.Advance? {
      OnlyAdvanceWrites(w, e);
    } else if w.op.Cleaning? {
      CleaningHolds(w, e.draw);
    } else {
      SetupHolds(w, e.draw);
    }
  }

  ghost predicate HoldsOn(a: Held, b: Held) {
    a.management <= b.management && a.delivery <= b.delivery && a.tidy == b.tidy
  }

  lemma CleaningHolds(w: World, d: Draw)
    requires w.op.Cleaning? && w.disk.records.journal.Some? && CleanStep(w, d).disk.records.journal.Some?
    ensures HoldsOn(w.books.held, CleanStep(w, d).books.held)
  {
  }

  lemma SetupHolds(w: World, d: Draw)
    requires w.clearing == 0 && !w.op.Cleaning?
    requires w.disk.records.journal.Some? && AdvanceStep(w, d).disk.records.journal.Some?
    ensures HoldsOn(w.books.held, AdvanceStep(w, d).books.held)
  {
  }

  /** The one step that overwrites a key the journal names. */
  ghost predicate DropsKey(w: World, e: Event, k: Key) {
    && e.Advance? && w.clearing == 0 && w.op.Cleaning? && w.op.stage.Canonicalized? && e.draw.ok
    && Overrides(w.op.cleanup, w.op.config)
    && w.op.cleanup.primary.management == Some(k)
    && k !in Managements(w.op.cleanup.extra) && w.op.config.value.management != k
  }

  /** Exactly when a key leaves a journal that stays: the worker's configuration replaces an incomplete primary entry. */
  lemma KeyLeavesJournalExactlyThen(w: World, e: Event, k: Key)
    requires Inv(w) && w.disk.records.journal.Some? && Step(w, e).disk.records.journal.Some?
    requires k in ManagementKeys(w.disk.records.journal.value)
    ensures k !in ManagementKeys(Step(w, e).disk.records.journal.value) <==> DropsKey(w, e, k)
  {
    if w.clearing > 0 || !e.Advance? {
      OnlyAdvanceWrites(w, e);
    } else if !w.op.Cleaning? {
      SetupKeepsKeys(w, e.draw, k);
    } else if w.op.stage.Canonicalized? {
      MergeDropsExactlyThen(w, e.draw, k);
    } else if w.op.stage.Cleared? {
      InspectKeepsKeys(w, e.draw, k);
    } else {
      OtherStagesKeepKeys(w, e.draw, k);
    }
  }

  lemma MergeDropsExactlyThen(w: World, d: Draw, k: Key)
    requires Inv(w) && w.op.Cleaning? && w.clearing == 0 && w.op.stage.Canonicalized? && w.disk.records.journal.Some?
    requires k in ManagementKeys(w.disk.records.journal.value)
    ensures k !in ManagementKeys(MergeStep(w, d).disk.records.journal.value) <==> DropsKey(w, Advance(d), k)
  {
    assert k in ManagementKeys(w.op.cleanup);
  }

  lemma InspectKeepsKeys(w: World, d: Draw, k: Key)
    requires Inv(w) && w.op.Cleaning? && w.clearing == 0 && w.disk.records.journal.Some?
    requires k in ManagementKeys(w.disk.records.journal.value)
    ensures InspectStep(w, d).disk.records.journal.Some? && k in ManagementKeys(InspectStep(w, d).disk.records.journal.value)
  {
    assert k in ManagementKeys(w.op.cleanup);
    if w.worker.Some? && MergeOrphan(w.op.cleanup, Migrated(w.worker).value).Some? {
      RecoveryKeeps(w.op.cleanup, Migrated(w.worker).value, w.books, w.worker);
    }
  }

  lemma OtherStagesKeepKeys(w: World, d: Draw, k: Key)
    requires Inv(w) && w.op.Cleaning? && w.clearing == 0 && !w.op.stage.Canonicalized? && !w.op.stage.Cleared?
    requires w.disk.records.journal.Some? && CleanStep(w, d).disk.records.journal.Some?
    requires k in ManagementKeys(w.disk.records.journal.value)
    ensures k in ManagementKeys(CleanStep(w, d).disk.records.journal.value)
  {
    assert k in ManagementKeys(w.op.cleanup);
  }

  lemma SetupKeepsKeys(w: World, d: Draw, k: Key)
    requires Inv(w) && w.clearing == 0 && !w.op.Cleaning?
    requires w.disk.records.journal.Some? && AdvanceStep(w, d).disk.records.journal.Some?
    requires k in ManagementKeys(w.disk.records.journal.value)
    ensures k in ManagementKeys(AdvanceStep(w, d).disk.records.journal.value)
  {
  }

  /** A pusher is given up only with every gateway deletion confirmed and the warning stored. */
  lemma WarningFollowsEveryDeletion(w: World, e: Event, k: Key)
    requires Inv(w) && k !in w.books.pushers.abandoned && k in Step(w, e).books.pushers.abandoned
    ensures w.op.Cleaning? && w.op.cleanup.allowAbandonment && Step(w, e).disk.warned
    ensures forall m :: m in ManagementKeys(w.op.cleanup) ==> m in w.books.gateway.deleted
    ensures w.disk.records.journal.Some? ==>
      forall m :: m in w.books.held.management ==> m in w.books.gateway.deleted || m in w.books.held.lostManagement
  {
    if w.clearing == 0 && e.Advance? {
      if w.op.Cleaning? { CleaningWarns(w, e.draw, k); } else { SetupWarnsNot(w, e.draw, k); }
    }
  }

  lemma CleaningWarns(w: World, d: Draw, k: Key)
    requires w.op.Cleaning? && k !in w.books.pushers.abandoned && k in CleanStep(w, d).books.pushers.abandoned
    ensures w.op.stage.Joined? && Warns(w.op.cleanup) && d.ok
  {
  }

  lemma SetupWarnsNot(w: World, d: Draw, k: Key)
    requires w.clearing == 0 && !w.op.Cleaning? && k !in w.books.pushers.abandoned
    ensures k !in AdvanceStep(w, d).books.pushers.abandoned
  {
  }

  /** The browser subscription is only touched once the worker can no longer recreate it. */
  lemma UnsubscribesOnlyAfterWorker(w: World, es: seq<Event>)
    requires Initial(w)
    ensures var v := Run(w, es); v.op.Cleaning? && v.op.stage.Unsubscribing? ==> v.worker.None?
  {
    InitialInv(w);
    RunKeepsInv(w, es);
  }

  /** A setup never finds its journal or its slot taken by another generation. */
  lemma SetupOwnsTheSlot(w: World, es: seq<Event>)
    requires Initial(w)
    ensures var v := Run(w, es); v.op.Journaling? ==>
      v.disk.records == Records(None, []) && !Protects(v.disk.slot, v.op.credentials)
      && JournalToQueue(v.disk, v.op.credentials) == QueuedJournal(v.op.credentials, false)
  {
    InitialInv(w);
    RunKeepsInv(w, es);
  }

  const OK := Advance(Draw(true, true, 1, 0, 0, 0))

  const OTHER := Config(1, 2, Some(Drawn(5)))

  const PRESENT := Options(Present, true, false)

  /**
  Completing does not always mean that every key the journal held was deleted. A setup whose cleanup record could not
  be written rolls back, and its window closes after the first of the three removals from the slot; the slot then makes
  an incomplete journal, which the worker's other configuration displaces.
  */
  lemma AnIncompleteJournalCanForgetAKey()
    ensures exists w, v, e, k ::
      Initial(w) && Reaches(w, v) && v.disk.records.journal.Some? && Step(v, e).disk.records.journal.None?
      && !v.op.Installing? && k in v.books.held.management && k !in v.books.gateway.deleted
  {
    var disk := Disk(Records(None, []), Slot(Some(3), Some(7), Some(Drawn(4))), Gate(false, Some(0)), false);
    var w := World(disk, Some(OTHER), Idle, 0, {0}, {}, Books(Gateway({7}, {}, {}), Pushers({}, {}), Held({}, {}, {}, {}, true)));
    var torn := RollbackCutOff(w);
    ReachStep(w, torn, StartCleanup(PRESENT));
    ReachStep(w, torn.(op := Beginning(PRESENT)), OK);
    var v := ForgottenKeyBegin(w, Step(torn.(op := Beginning(PRESENT)), OK));
    assert Step(v, OK).disk.records.journal.None?;
    assert Initial(w);
  }

  lemma RollbackCutOff(w: World) returns (torn: World)
    requires w == World(Disk(Records(None, []), Slot(Some(3), Some(7), Some(Drawn(4))), Gate(false, Some(0)), false),
                        Some(OTHER), Idle, 0, {0}, {}, Books(Gateway({7}, {}, {}), Pushers({}, {}), Held({}, {}, {}, {}, true)))
    ensures Reaches(w, torn) && torn.op.Idle? && torn.clearing == 0 && torn.worker == w.worker && torn.drawn == {0}
    ensures torn.disk == w.disk.(slot := Slot(None, Some(7), Some(Drawn(4)))) && torn.books.gateway.deleted == {}
  {
    var c := Credentials(3, 7, Drawn(4), false);
    assert Run(w, []) == w;
    ReachStep(w, w, StartSetup(0, None));
    ReachStep(w, w.(op := Probing(0, None)), NO);
    ReachStep(w, w.(op := Queueing(c)), NO);
    ReachStep(w, w.(op := Falling(c)), NO);
    ReachStep(w, w.(op := RollingBack(c, false)), NO);
    torn := RollbackLeaves(w, w.(op := RolledBack(c, false, false)));
  }

  lemma RollbackLeaves(w: World, v: World) returns (torn: World)
    requires Reaches(w, v) && v.op == RolledBack(Credentials(3, 7, Drawn(4), false), false, false) && v.clearing == 0
    requires v.disk.slot == Slot(Some(3), Some(7), Some(Drawn(4)))
    ensures Reaches(w, torn) && torn.op.Idle? && torn.clearing == 0 && torn.worker == v.worker && torn.drawn == v.drawn
    ensures torn.disk == v.disk.(slot := Slot(None, Some(7), Some(Drawn(4)))) && torn.books.gateway.deleted == v.books.gateway.deleted
  {
    ReachStep(w, v, NO);
    torn := Step(v, NO);
    assert torn.clearing == 1;
    ReachStep(w, torn, NO);
    torn := Step(torn, NO);
    ReachStep(w, torn, Stop);
    torn := Step(torn, Stop);
  }

  const TORN := Cleanup(Primary(Some(Drawn(4)), None, Some(7), false, true), [], Browser(false, false, false, false), false)

  lemma ForgottenKeyBegin(w: World, v: World) returns (u: World)
    requires Reaches(w, v) && v.clearing == 0 && v.disk.slot == Slot(None, Some(7), Some(Drawn(4))) && v.disk.records == Records(None, [])
    requires v.op == Reading(PRESENT, Some(OTHER)) && v.worker == Some(OTHER) && 7 !in v.books.gateway.deleted
    ensures Reaches(w, u) && u.clearing == 0 && u.op.Cleaning? && u.op.stage.Finishing? && Complete(u.op.cleanup) && u.disk.records.journal.Some?
    ensures 7 in u.books.held.management && 7 !in u.books.gateway.deleted
  {
    ReachStep(w, v, OK);
    u := Step(v, OK);
    assert u.op == Cleaning(TORN, Begun, PRESENT, Some(OTHER)) && u.clearing == 1;
    u := SlotCleared(w, u);
    ReachStep(w, u, OK);
    u := Step(u, OK);
    u := ForgottenKey(w, u);
  }

  /** The three removals of a clearing. */
  lemma SlotCleared(w: World, v: World) returns (u: World)
    requires Reaches(w, v) && v.clearing == 1
    ensures Reaches(w, u) && u == v.(clearing := 0, disk := v.disk.(slot := Slot(None, None, None)))
  {
    ReachStep(w, v, OK);
    u := Step(v, OK);
    ReachStep(w, u, OK);
    u := Step(u, OK);
    ReachStep(w, u, OK);
    u := Step(u, OK);
  }

  lemma ForgottenKey(w: World, v: World) returns (u: World)
    requires Reaches(w, v) && v.clearing == 0 && v.disk.slot == Slot(None, None, None) && v.disk.records.journal.Some?
    requires v.op == Cleaning(TORN, Allowed, PRESENT, Some(OTHER))
    requires v.worker == Some(OTHER) && 7 in v.books.held.management && 7 !in v.books.gateway.deleted
    ensures Reaches(w, u) && u.clearing == 0 && u.op.Cleaning? && u.op.stage.Finishing? && Complete(u.op.cleanup) && u.disk.records.journal.Some?
    ensures 7 in u.books.held.management && 7 !in u.books.gateway.deleted
  {
    u := v;
    ReachStep(w, u, OK); u := Step(u, OK);
    assert u.op.cleanup.primary.delivery.None? && u.op.stage.Canonicalized?;
    ReachStep(w, u, OK); u := Step(u, OK);
    assert u.op.cleanup == Cleanup(Primary(Some(Drawn(5)), Some(1), Some(2), false, false), [], Browser(false, false, false, false), false);
    ReachStep(w, u, OK); u := Step(u, OK);
    assert u.op.stage.Cleared? && u.clearing == 0;
    ReachStep(w, u, OK); u := Step(u, OK);
    u := ForgottenKeyAnswers(w, u);
  }

  lemma ForgottenKeyAnswers(w: World, v: World) returns (u: World)
    requires Reaches(w, v) && v.clearing == 0 && v.disk.records.journal.Some?
    requires v.op == Cleaning(Cleanup(Primary(Some(Drawn(5)), Some(1), Some(2), false, false), [], Browser(false, false, false, false), false),
                              Remote(false), PRESENT, Some(OTHER))
    requires v.worker == Some(OTHER) && 7 in v.books.held.management && 7 !in v.books.gateway.deleted
    ensures Reaches(w, u) && u.clearing == 0 && u.op.Cleaning? && u.op.stage.Finishing? && Complete(u.op.cleanup) && u.disk.records.journal.Some?
    ensures 7 in u.books.held.management && 7 !in u.books.gateway.deleted
  {
    u := v;
    ReachStep(w, u, Answered(PrimaryGateway, true)); u := Step(u, Answered(PrimaryGateway, true));
    ReachStep(w, u, Answered(PrimaryPusher, true)); u := Step(u, Answered(PrimaryPusher, true));
    ReachStep(w, u, Answered(Worker, true)); u := Step(u, Answered(Worker, true));
    ReachStep(w, u, Answered(Notifications, true)); u := Step(u, Answered(Notifications, true));
    ReachStep(w, u, Answered(Badge, true)); u := Step(u, Answered(Badge, true));
    assert u.op.cleanup == Cleanup(Primary(Some(Drawn(5)), Some(1), Some(2), true, true), [], Browser(false, true, true, true), false);
    u := ForgottenKeyEnd(w, u);
  }

  lemma ForgottenKeyEnd(w: World, v: World) returns (u: World)
    requires Reaches(w, v) && v.clearing == 0 && v.disk.records.journal.Some?
    requires v.op == Cleaning(Cleanup(Primary(Some(Drawn(5)), Some(1), Some(2), true, true), [], Browser(false, true, true, true), false),
                              Remote(false), PRESENT, Some(OTHER))
    requires 7 in v.books.held.management && 7 !in v.books.gateway.deleted
    ensures Reaches(w, u) && u.clearing == 0 && u.op.Cleaning? && u.op.stage.Finishing? && Complete(u.op.cleanup) && u.disk.records.journal.Some?
    ensures 7 in u.books.held.management && 7 !in u.books.gateway.deleted
  {
    u := v;
    ReachStep(w, u, OK); u := Step(u, OK);
    ReachStep(w, u, OK); u := Step(u, OK);
    ReachStep(w, u, OK); u := Step(u, OK);
    var lookup := Advance(Draw(false, true, 0, 0, 0, 0));
    ReachStep(w, u, lookup); u := Step(u, lookup);
  }
}

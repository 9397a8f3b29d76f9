/**
The storage keys and the cleanup record of lib/matrix/notifications.ts, written
in place.  A method is a stretch of code without an await; its contract says
that it follows the steps of PushJournal, so what is proved of every prefix of
a run holds wherever the method is cut off.  The ghost parameter is the run's
world at the time of the call; the Boolean parameters say which writes succeed.
*/
module PushStorage {
  import opened Basics
  import opened PushJournal

  /** A clearing carried through. */
  function Settle(w: World): World {
    if w.clearing == 1 then ClearStep(ClearStep(ClearStep(w))) else w
  }

  function Did(ok: bool, epoch: int): Draw { Draw(ok, false, epoch, 0, 0, 0) }

  function Committed(w: World, first: bool, second: bool, third: bool): World {
    AdvanceStep(AdvanceStep(AdvanceStep(w, Did(first, 0)), Did(second, 0)), Did(third, 0))
  }

  /** queuePushSetupCleanup carried through: the epoch, then the journal, then the slot; or the fallback record. */
  function QueuedWorld(w: World, epoch: int, epochOk: bool, journalOk: bool, fallbackOk: bool): World
    requires w.op.Queueing?
  {
    var a := QueueStep(w, Did(epochOk, epoch));
    var b := if a.op.Journaling? then JournalStep(a, Did(journalOk, 0)) else a;
    if b.op.Falling? then FallbackStep(b, Did(fallbackOk, 0)) else Settle(b)
  }

  function BegunWorld(w: World, epoch: int, epochOk: bool, journalOk: bool): World
    requires w.op.Beginning?
  {
    var a := BeginStep(w, Did(epochOk, epoch));
    if a.op.Reading? then Settle(ReadStep(a, Did(journalOk, 0))) else a
  }

  lemma {:induction false} AddAllSnoc(c: Cleanup, f: seq<FallbackTarget>, t: FallbackTarget)
    ensures AddAll(c, f + [t]) == AddTarget(AddAll(c, f), t.delivery, t.management)
    decreases |f|
  {
    if f == [] {
      assert f + [t] == [t];
      assert AddAll(AddTarget(c, t.delivery, t.management), [t][1..]) == AddTarget(c, t.delivery, t.management);
    } else {
      assert (f + [t])[1..] == f[1..] + [t];
      AddAllSnoc(AddTarget(c, f[0].delivery, f[0].management), f[1..], t);
    }
  }

  lemma {:induction false} ConfigurableAt(f: seq<FallbackTarget>, i: nat)
    requires i < |f| && forall j :: 0 <= j < i ==> f[j].management != f[i].management
    ensures Configurable(f, f[i].management) == f[i := f[i].(workerMayBeConfigured := true)]
  {
    if i > 0 {
      ConfigurableAt(f[1..], i - 1);
    }
  }

  /** The record of one cleanup, mutated step by step and persisted now and then. */
  class PendingCleanup {
    var generation: Option<Generation>
    var delivery: Option<Key>
    var management: Option<Key>
    var gatewayDone: bool
    var pusherDone: bool
    var allowAbandonment: bool
    var browser: Browser
    var additionalTargets: seq<Target>

    function View(): Cleanup
      reads this
    {
      Cleanup(Primary(generation, delivery, management, gatewayDone, pusherDone), additionalTargets, browser, allowAbandonment)
    }

    constructor (c: Cleanup)
      ensures View() == c
    {
      generation, delivery, management := c.primary.generation, c.primary.delivery, c.primary.management;
      gatewayDone, pusherDone := c.primary.gatewayDone, c.primary.pusherDone;
      allowAbandonment, browser, additionalTargets := c.allowAbandonment, c.browser, c.extra;
    }

    method MergeFallbackPushCleanup(targets: seq<FallbackTarget>)
      modifies this
      ensures View() == MergeFallback(old(View()), targets)
    {
      var k := 0;
      while k < |targets|
        invariant 0 <= k <= |targets|
        invariant View() == AddAll(old(View()), targets[..k])
      {
        var target := targets[k];
        AddAllSnoc(old(View()), targets[..k], target);
        assert targets[..k + 1] == targets[..k] + [target];
        var duplicate := management == Some(target.management);
        if !duplicate { duplicate := Names(target.management); }
        if !duplicate {
          additionalTargets := additionalTargets + [Pending(target.delivery, target.management)];
        }
        k := k + 1;
      }
      assert targets[..k] == targets;
      browser := browser.(subscriptionDone := false);
    }

    /** Whether an additional target has this management key. */
    method Names(key: Key) returns (found: bool)
      ensures found <==> key in Managements(additionalTargets)
    {
      var k := 0;
      while k < |additionalTargets|
        invariant 0 <= k <= |additionalTargets|
        invariant forall j :: 0 <= j < k ==> additionalTargets[j].management != key
      {
        if additionalTargets[k].management == key { return true; }
        k := k + 1;
      }
      return false;
    }

    method IsComplete() returns (complete: bool)
      ensures complete <==> Complete(View())
    {
      if !gatewayDone || !pusherDone || browser != Browser(true, true, true, true) { return false; }
      var k := 0;
      while k < |additionalTargets|
        invariant 0 <= k <= |additionalTargets|
        invariant forall j :: 0 <= j < k ==> additionalTargets[j].gatewayDone && additionalTargets[j].pusherDone
      {
        if !additionalTargets[k].gatewayDone || !additionalTargets[k].pusherDone {
          assert additionalTargets[k] in additionalTargets;
          return false;
        }
        k := k + 1;
      }
      return true;
    }

    method AbandonPushers()
      modifies this
      ensures View() == var c := old(View()); c.(primary := c.primary.(pusherDone := true), extra := PushersGivenUp(c.extra))
    {
      ghost var before := additionalTargets;
      pusherDone := true;
      var k := 0;
      while k < |additionalTargets|
        invariant 0 <= k <= |additionalTargets| == |before| == |PushersGivenUp(before)|
        invariant forall j :: 0 <= j < k ==> additionalTargets[j] == PushersGivenUp(before)[j]
        invariant forall j :: k <= j < |before| ==> additionalTargets[j] == before[j]
        invariant View() == old(View()).(primary := old(View()).primary.(pusherDone := true), extra := additionalTargets)
      {
        additionalTargets := additionalTargets[k := additionalTargets[k].(pusherDone := true)];
        k := k + 1;
      }
      assert additionalTargets == PushersGivenUp(before);
    }
  }

  datatype QueueResult = PrimaryRecord | FallbackRecord | NoRecord

  /** The localStorage keys, each written on its own. */
  class LocalStorage {
    var cleanup: Option<Cleanup>
    var fallback: seq<FallbackTarget>
    var deliveryKey: Option<Key>
    var managementKey: Option<Key>
    var generation: Option<Generation>
    var intent: bool
    var epoch: Option<int>
    var warned: bool

    function View(): Disk
      reads this
    {
      Disk(Records(cleanup, fallback), Slot(deliveryKey, managementKey, generation), Gate(intent, epoch), warned)
    }

    method PersistPushCredentials(c: Credentials, first: bool, second: bool, third: bool, ghost w: World)
      requires w.disk == View() && w.clearing == 0
      requires w.op.Installing? && w.op.install.Checked? && w.op.credentials == c && Owned(View(), c, w.op.epoch)
      modifies this
      ensures View() == Committed(w, first, second, third).disk
    {
      if !first { return; }
      deliveryKey := Some(c.delivery);
      if !second { return; }
      managementKey := Some(c.management);
      if !third { return; }
      generation := Some(c.generation);
    }

    method ClearPushCredentials(g: Option<Generation>, m: Option<Key>, d: Option<Key>, ghost w: World)
      requires w.disk == View() && w.clearing == 0
      modifies this
      ensures View() == Settle(StartClearing(w, g, m, d)).disk
      ensures View().records == old(View()).records && View().gate == old(View()).gate
    {
      if g.Some? && generation != g
         && !((generation.None? || (m.Some? && generation == Some(OfKey(m.value))))
              && m.Some? && d.Some? && managementKey == m && deliveryKey == d) {
        return;
      }
      deliveryKey := None;
      managementKey := None;
      generation := None;
    }

    method PersistFallbackPushCleanupTarget(c: Credentials, ok: bool) returns (saved: bool)
      modifies this
      ensures saved == ok
      ensures View() == if ok then old(View()).(records := Records(old(View()).records.journal, FallbackWith(old(View()).records.fallback, c))) else old(View())
    {
      if !ok { return false; }
      var k := 0;
      while k < |fallback| && fallback[k].management != c.management
        invariant 0 <= k <= |fallback|
        invariant forall j :: 0 <= j < k ==> fallback[j].management != c.management
      {
        k := k + 1;
      }
      if k < |fallback| {
        ConfigurableAt(fallback, k);
        fallback := fallback[k := fallback[k].(workerMayBeConfigured := true)];
      } else {
        fallback := fallback + [FallbackTarget(c.delivery, c.management, c.generation, true)];
      }
      return true;
    }

    method QueuePushSetupCleanup(c: Credentials, lifecycleEpoch: int, epochOk: bool, journalOk: bool, fallbackOk: bool, ghost w: World)
      returns (result: QueueResult)
      requires w.disk == View() && w.clearing == 0 && w.op == Queueing(c) && lifecycleEpoch !in w.drawn
      modifies this
      ensures var v := QueuedWorld(w, lifecycleEpoch, epochOk, journalOk, fallbackOk);
        && View() == v.disk
        && (result.PrimaryRecord? <==> v.op == Installing(c, lifecycleEpoch, Queued))
        && (result.FallbackRecord? <==> v.op == RollingBack(c, true))
        && (result.NoRecord? <==> v.op == RollingBack(c, false))
    {
      var written := epochOk;
      if written {
        ghost var a := QueueStep(w, Did(true, lifecycleEpoch));
        var next := JournalToQueue(View(), c);
        var clears := cleanup.None? && !Protects(Slot(deliveryKey, managementKey, generation), c);
        epoch := Some(lifecycleEpoch);
        written := journalOk;
        if written {
          cleanup := Some(next);
          assert View() == JournalStep(a, Did(true, 0)).disk;
          if clears {
            ClearPushCredentials(Some(c.generation), Some(c.management), Some(c.delivery), JournalStep(a, Did(true, 0)).(clearing := 0));
          }
          return PrimaryRecord;
        }
      }
      var saved := PersistFallbackPushCleanupTarget(c, fallbackOk);
      return if saved then FallbackRecord else NoRecord;
    }

    /** None: a write failed before the cleanup could start. */
    method BeginLocalPushCleanup(lifecycleEpoch: int, epochOk: bool, journalOk: bool, ghost w: World)
      returns (started: Option<PendingCleanup>)
      requires w.disk == View() && w.clearing == 0 && w.op.Beginning? && lifecycleEpoch !in w.drawn
      modifies this
      ensures var v := BegunWorld(w, lifecycleEpoch, epochOk, journalOk);
        && View() == v.disk
        && (started.Some? <==> v.op.Cleaning?)
        && (started.Some? ==> v.op.cleanup == started.value.View() && v.op.stage.Begun?)
      ensures started.Some? ==> fresh(started.value)
    {
      if !epochOk { return None; }
      epoch := Some(lifecycleEpoch);
      ghost var a := BeginStep(w, Did(true, lifecycleEpoch));
      var chosen: Cleanup;
      ghost var b := a;
      if cleanup.Some? {
        chosen := cleanup.value;
        if fallback != [] {
          var merged := new PendingCleanup(chosen);
          merged.MergeFallbackPushCleanup(fallback);
          chosen := merged.View();
        }
      } else if fallback != [] {
        chosen := FromFallback(fallback);
        if journalOk {
          cleanup := Some(chosen);
          b := WriteJournal(a, chosen);
        }
      } else {
        if !journalOk { return None; }
        chosen := FromSlot(Slot(deliveryKey, managementKey, generation));
        cleanup := Some(chosen);
        b := WriteJournal(a, chosen);
      }
      b := Go(b, Cleaning(chosen, Begun, a.op.options, a.op.config));
      ClearPushCredentials(chosen.primary.generation, chosen.primary.management, chosen.primary.delivery, b);
      var record := new PendingCleanup(chosen);
      return Some(record);
    }
  }
}

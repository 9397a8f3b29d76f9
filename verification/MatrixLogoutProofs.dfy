/** When exactly logout tells the truth, and a run in which it does not. */
module MatrixLogoutProofs {
  import opened Basics
  import opened SessionVault
  import opened SessionVaultProofs
  import opened MatrixSession
  import opened MatrixSessionProofs

  /* ---- Credentials the vault has, or is about to get ---- */

  predicate Brings(request: Request, x: int) {
    request.ResealTo? && request.next.Some? && request.next.value.credential == x
  }

  predicate TaskBrings(task: Task, x: int) {
    (Creates(task) || Migrates(task)) && task.session.credential == x
  }

  predicate HasCredential(c: Cell, x: int) { c.Locked? && c.record.payload.session.credential == x }

  /** No pending call but number `n` would seal `x`. */
  ghost predicate NotPending(l: Lease, x: int, n: int) {
    forall k :: 0 <= k < |l.chain| && |l.answers| + k != n ==> !Brings(l.chain[k].request, x)
  }

  /** `x` was never stored, and nothing but call `n` of lease `me` can store it. */
  ghost predicate Unknown(w: World, x: int, me: nat, n: int) {
    && (forall k :: 0 <= k < |w.log| ==> !HasCredential(w.log[k], x))
    && (forall t :: t in w.tasks ==> !TaskBrings(w.tasks[t], x))
    && (forall i :: i in w.leases ==> NotPending(w.leases[i], x, if i == me then n else -1))
  }

  /** Call `n` has committed. */
  predicate Through(l: Lease, n: nat) {
    || (n < |l.answers| && l.answers[n].outcome.Resealed?)
    || (n == |l.answers| && |l.chain| > 0 && l.chain[0].phase.Committed?)
  }

  predicate Introduces(e: SessionVault.Event, x: int) {
    || (e.LeaseMove? && e.move.Call? && Brings(e.move.request, x))
    || (e.Acquire? && TaskBrings(e.kind, x))
  }

  lemma SettleStaysUnknown(l: Lease, k: Lease, outcome: Outcome, x: int, n: int)
    requires |l.chain| > 0 && k.chain == l.chain && k.answers == l.answers && NotPending(l, x, n)
    ensures NotPending(Settle(k, outcome).lease, x, n)
  {
    var m := Settle(k, outcome).lease;
    forall j | 0 <= j < |m.chain| && |m.answers| + j != n ensures !Brings(m.chain[j].request, x) {
      assert m.chain[j] == l.chain[j + 1];
    }
  }

  lemma TransactStaysUnknown(log: seq<Cell>, l: Lease, cell: Cell, x: int, n: int)
    requires LeaseOk(log, l) && NotPending(l, x, n) && |l.chain| > 0
    ensures var e := RunTransaction(l, cell);
      NotPending(e.lease, x, n) && (e.put.Some? && HasCredential(e.put.value, x) ==> n >= 0 && Through(e.lease, n))
  {
    SettleStaysUnknown(l, l, Refused(Conflict), x, n);
  }

  lemma QuietStaysUnknown(l: Lease, cell: Cell, m: Move, x: int, n: int)
    requires NotPending(l, x, n) && |l.chain| > 0 && (m.Begin? || m.Encrypted? || m.Resume? || m.Fails?)
    ensures NotPending(LeaseStep(l, cell, m).lease, x, n) && LeaseStep(l, cell, m).put.None?
  {
    var e := LeaseStep(l, cell, m).lease;
    if e.answers != l.answers {
      SettleStaysUnknown(l, l.(record := e.record, session := e.session, dek := e.dek), e.answers[|l.answers|].outcome, x, n);
    }
  }

  lemma MoveStaysUnknown(log: seq<Cell>, l: Lease, cell: Cell, m: Move, x: int, n: int)
    requires LeaseOk(log, l) && NotPending(l, x, n) && !(m.Call? && Brings(m.request, x))
    ensures var e := LeaseStep(l, cell, m);
      NotPending(e.lease, x, n) && (e.put.Some? && HasCredential(e.put.value, x) ==> n >= 0 && Through(e.lease, n))
  {
    if |l.chain| > 0 {
      match m
      case Transact => TransactStaysUnknown(log, l, cell, x, n);
      case Call(request) =>
      case Dispose =>
      case _ => QuietStaysUnknown(l, cell, m, x, n);
    }
  }

  lemma MoveStaysThrough(log: seq<Cell>, l: Lease, cell: Cell, m: Move, n: nat)
    requires LeaseOk(log, l) && Through(l, n)
    ensures Through(LeaseStep(l, cell, m).lease, n)
  {
  }

  lemma LeaseMoveStaysUnknown(w: World, i: nat, m: Move, x: int, me: nat, n: int)
    requires Inv(w) && Unknown(w, x, me, n) && i in w.leases && !(m.Call? && Brings(m.request, x))
    ensures var v := ApplyLease(w, i, m);
      Unknown(v, x, me, n) || (i == me && n >= 0 && Through(v.leases[me], n))
  {
    assert LeaseOk(w.log, w.leases[i]);
    MoveStaysUnknown(w.log, w.leases[i], w.cell, m, x, if i == me then n else -1);
  }

  lemma EnrolStaysUnknown(w: World, t: nat, d: Draw, x: int, me: nat, n: int)
    requires Inv(w) && Unknown(w, x, me, n) && t in w.tasks && (Creates(w.tasks[t]) || Migrates(w.tasks[t]))
    ensures Unknown(AdvanceTask(w, t, d), x, me, n) && AdvanceTask(w, t, d).leases == w.leases
  {
    assert TaskOk(w, w.tasks[t]) && !TaskBrings(w.tasks[t], x);
  }

  lemma NewLeaseStaysUnknown(w: World, i: nat, l: Lease, x: int, me: nat, n: int)
    requires Unknown(w, x, me, n) && me in w.leases && i !in w.leases && NotPending(l, x, -1)
    ensures Unknown(w.(leases := w.leases[i := l]), x, me, n)
  {
  }

  lemma EnrolledStaysUnknown(w: World, t: nat, d: Draw, task: Task, x: int, me: nat, n: int)
    requires Unknown(w, x, me, n) && me in w.leases && (task.Enrolled? || task.UnlockOwned? || task.UnlockRead?)
    ensures me in LeaseSegment(w, t, d, task).leases && Unknown(LeaseSegment(w, t, d, task), x, me, n)
  {
    if d.lease !in w.leases {
      match task
      case Enrolled(session, r) => NewLeaseStaysUnknown(w, d.lease, NewLease(r, session, r.slots.wrapped), x, me, n);
      case UnlockRead(r) =>
        var plain := Open(r, r.slots.wrapped);
        if plain.Some? {
          NewLeaseStaysUnknown(w, d.lease, NewLease(r, plain.value, r.slots.wrapped).(chain := [Job(AssertCurrent, Waiting)]), x, me, n);
        }
      case _ =>
    }
  }

  lemma LeaseSegmentStaysUnknown(w: World, t: nat, d: Draw, task: Task, x: int, me: nat, n: int)
    requires Inv(w) && Unknown(w, x, me, n) && me in w.leases && Leases(task)
    ensures var v := LeaseSegment(w, t, d, task);
      me in v.leases && (Unknown(v, x, me, n) || (n >= 0 && Through(v.leases[me], n)))
  {
    match task
    case UnlockVerifying(i) => if i in w.leases { LeaseMoveStaysUnknown(w, i, Dispose, x, me, n); }
    case _ => EnrolledStaysUnknown(w, t, d, task, x, me, n);
  }

  lemma CleanupStaysUnknown(w: World, t: nat, d: Draw, task: Task, x: int, me: nat, n: int)
    requires Unknown(w, x, me, n) && t in w.tasks && !Creates(task) && !Migrates(task) && !Leases(task)
    ensures Unknown(CleanupSegment(w, t, d, task), x, me, n) && CleanupSegment(w, t, d, task).leases == w.leases
  {
  }

  lemma AdvanceStaysUnknown(w: World, t: nat, d: Draw, x: int, me: nat, n: int)
    requires Inv(w) && Unknown(w, x, me, n) && t in w.tasks && me in w.leases
    ensures var v := AdvanceTask(w, t, d);
      me in v.leases && (Unknown(v, x, me, n) || (n >= 0 && Through(v.leases[me], n)))
  {
    var task := w.tasks[t];
    if Creates(task) || Migrates(task) { EnrolStaysUnknown(w, t, d, x, me, n); }
    else if Leases(task) { LeaseSegmentStaysUnknown(w, t, d, task, x, me, n); }
    else { CleanupStaysUnknown(w, t, d, task, x, me, n); }
  }

  lemma StepStaysUnknown(w: World, e: SessionVault.Event, x: int, me: nat, n: int)
    requires Inv(w) && Unknown(w, x, me, n) && me in w.leases && !Introduces(e, x) && e != WindowClosed(me)
    ensures var v := Step(w, e);
      me in v.leases && (Unknown(v, x, me, n) || (n >= 0 && Through(v.leases[me], n)))
  {
    match e
    case Advance(t, d) => if t in w.tasks { AdvanceStaysUnknown(w, t, d, x, me, n); }
    case LeaseMove(i, m) => if i in w.leases { LeaseMoveStaysUnknown(w, i, m, x, me, n); }
    case _ =>
  }

  lemma StepStaysThrough(w: World, e: SessionVault.Event, me: nat, n: nat)
    requires Inv(w) && me in w.leases && Through(w.leases[me], n) && e != WindowClosed(me)
    ensures me in Step(w, e).leases && Through(Step(w, e).leases[me], n)
  {
    StepMovesLease(w, e, me);
    assert LeaseOk(w.log, w.leases[me]);
    if m :| Step(w, e).leases[me] == LeaseStep(w.leases[me], w.cell, m).lease {
      MoveStaysThrough(w.log, w.leases[me], w.cell, m, n);
    }
  }

  /* ---- Tracing the credential in hand ---- */

  /** Issued, not revoked, and nowhere in the vault. */
  ghost predicate Loose(c: Control, w: World, me: nat, x: int) {
    x in c.ledger.issued && x !in c.ledger.revoked && Unknown(w, x, me, -1)
  }

  /** Call `n` carries `x`: it has committed, or `x` is loose but for this call. */
  ghost predicate Carried(c: Control, w: World, me: nat, x: int, n: nat)
    requires me in w.leases
  {
    || (x in c.ledger.issued && x !in c.ledger.revoked && Unknown(w, x, me, n))
    || Through(w.leases[me], n)
  }

  ghost predicate Traced(c: Control, w: World, me: nat)
    requires me in w.leases
  {
    match c.refresh
    case Responded(_, x) => Loose(c, w, me, x)
    case Discarding(x) => Loose(c, w, me, x)
    case Unsealed(x) => Loose(c, w, me, x)
    case Resealing(x, n) => Carried(c, w, me, x, n)
    case Settled(how) => SaysUnconfirmed(how) && !c.report.uncertain ==> exists x :: Loose(c, w, me, x)
    case _ => true
  }

  /** Credentials come from their own issue only: the endpoint's are new to the vault, and no other tab has this service's. */
  ghost predicate Original(s: Service, h: Happening) {
    match h
    case VaultMoves(v) => forall x :: x in s.c.ledger.issued ==> !Introduces(v, x)
    case Occurs(TokenResponse(x)) => Unknown(s.vault, x, s.me, -1)
    case _ => true
  }

  ghost predicate AllOriginal(s: Service, hs: seq<Happening>)
    decreases |hs|
  {
    hs != [] ==> Original(s, hs[0]) && AllOriginal(Next(s, hs[0]), hs[1..])
  }

  lemma VaultKeepsTrace(c: Control, w: World, me: nat, e: SessionVault.Event)
    requires Inv(w) && me in w.leases && Traced(c, w, me) && e != WindowClosed(me)
    requires forall x :: x in c.ledger.issued ==> !Introduces(e, x)
    ensures me in Step(w, e).leases && Traced(c, Step(w, e), me)
  {
    StepMovesLease(w, e, me);
    match c.refresh
    case Responded(_, x) => StepStaysUnknown(w, e, x, me, -1);
    case Discarding(x) => StepStaysUnknown(w, e, x, me, -1);
    case Unsealed(x) => StepStaysUnknown(w, e, x, me, -1);
    case Resealing(x, n) =>
      if Through(w.leases[me], n) { StepStaysThrough(w, e, me, n); } else { StepStaysUnknown(w, e, x, me, n); }
    case Settled(how) =>
      if SaysUnconfirmed(how) && !c.report.uncertain {
        var x :| Loose(c, w, me, x);
        StepStaysUnknown(w, e, x, me, -1);
        assert Loose(c, Step(w, e), me, x);
      }
    case _ =>
  }

  function VaultEvent(ask: Ask, me: nat, runtime: nat): SessionVault.Event {
    match ask case OnLease(m) => LeaseMove(me, m) case ReleaseLocks => Abandon(runtime)
  }

  lemma {:induction false} PerformKeepsTrace(c: Control, w: World, me: nat, runtime: nat, asks: seq<Ask>)
    requires Inv(w) && me in w.leases && Traced(c, w, me)
    requires Harmless(asks)
    ensures me in Perform(w, me, runtime, asks).leases && Traced(c, Perform(w, me, runtime, asks), me)
    decreases |asks|
  {
    if asks != [] {
      var e := VaultEvent(asks[0], me, runtime);
      VaultKeepsTrace(c, w, me, e);
      StepKeepsInv(w, e);
      PerformKeepsTrace(c, Step(w, e), me, runtime, asks[1..]);
    }
  }

  /* ---- Every event of the service keeps the trace ---- */

  /** The trace sees the refresh, the uncertainty mark and the ledger, of which revocations must spare it. */
  lemma SameTrace(c: Control, d: Control, w: World, me: nat)
    requires me in w.leases && Traced(c, w, me)
    requires d.refresh == c.refresh && c.ledger.issued <= d.ledger.issued
    requires c.report.uncertain ==> d.report.uncertain
    requires forall x :: x in d.ledger.revoked && x !in c.ledger.revoked ==> exists k :: 0 <= k < |w.log| && HasCredential(w.log[k], x)
    ensures Traced(d, w, me)
  {
    match c.refresh
    case Settled(how) =>
      if SaysUnconfirmed(how) && !d.report.uncertain {
        var x :| Loose(c, w, me, x);
        assert Loose(d, w, me, x);
      }
    case _ =>
  }

  lemma RequestKeepsTrace(c: Control, w: World, me: nat, seen: Seen, e: MatrixSession.Event)
    requires Flags(c) && me in w.leases && Traced(c, w, me) && OfRequest(e)
    requires e.TokenResponse? ==> Unknown(w, e.credential, me, -1)
    ensures Traced(RequestReaction(c, seen, e).c, w, me)
  {
    var d := RequestReaction(c, seen, e).c;
    match e
    case RefreshTokens =>
    case TokenResponse(x) =>
    case TokenRejected =>
    case Deadline =>
      if c.refresh.Requesting? {
        DeadlineLedger(c);
        assert d.report.uncertain;
      }
    case LateResponse(x) =>
      if d != c { assert c.report.uncertain && d.report == c.report; }
    case LateRevocation(x, confirmed) =>
      if d != c { assert c.report.uncertain && d.report == c.report; }
  }

  /** The sealing segments other than the call of reseal itself. */
  lemma SealKeepsTrace(c: Control, w: World, me: nat, e: MatrixSession.Event)
    requires Flags(c) && me in w.leases && Traced(c, w, me) && OfSeal(e)
    requires e.ResumeRefresh? && c.refresh.Responded? ==> c.mode != Running || w.leases[me].dek.None?
    ensures Traced(SealReaction(c, Look(c, w.leases[me]), e).c, w, me)
  {
    var seen := Look(c, w.leases[me]);
    match e
    case ResumeRefresh =>
    case ResealSettled =>
    case RevocationSettled(confirmed) => DiscardKeepsTrace(c, w, me, confirmed);
    case RefreshTaskCleared => if c.refresh.Settled? { SameTrace(c, c.(refreshTask := false), w, me); }
  }

  lemma DiscardKeepsTrace(c: Control, w: World, me: nat, confirmed: bool)
    requires me in w.leases && Traced(c, w, me)
    ensures Traced(DiscardRevoked(c, confirmed).c, w, me)
  {
    if c.refresh.Discarding? || c.refresh.Unsealed? {
      var x := c.refresh.credential;
      var d := Revoked(c, x, confirmed);
      var e := DiscardRevoked(c, confirmed).c;
      InvalidatingOnlyEnds(SettleRefresh(d, RefreshFailed), SessionLocked);
      InvalidatingOnlyEnds(SettleRefresh(d, RevocationUnconfirmed), UnconfirmedRevocation);
      assert e.ledger == d.ledger && e.refresh.Settled?;
      if !confirmed { assert Loose(e, w, me, x); }
    }
  }

  lemma StopKeepsTrace(c: Control, w: World, me: nat, e: MatrixSession.Event)
    requires me in w.leases && Traced(c, w, me)
    ensures Traced(StopReaction(c, e).c, w, me)
  {
    StopLedger(c, e);
    SameTrace(c, StopReaction(c, e).c, w, me);
  }

  /** Only the final session's revocation is added, and it is in the vault. */
  lemma LogoutRevokes(c: Control, seen: Seen, e: MatrixSession.Event)
    ensures var d := LogoutReaction(c, seen, e).c;
      d.ledger.issued == c.ledger.issued
      && (d.ledger.revoked == c.ledger.revoked || (c.logout.EndingRemote? && d.ledger.revoked == c.ledger.revoked + {c.logout.final.credential}))
  {
    if e.DatabasesRemoved? || e.AbortSettled? { LogoutEndsLedger(c, seen, e); }
    else if e.RemoteLogoutSettled? { } else { LogoutMovesOn(c, seen, e); }
  }

  lemma LogoutEndsLedger(c: Control, seen: Seen, e: MatrixSession.Event)
    requires e.DatabasesRemoved? || e.AbortSettled?
    ensures var d := LogoutReaction(c, seen, e).c; d == c || (OnlyEnds(c.(logout := d.logout), d) && !d.logout.NoLogout? && d.mode == c.mode)
  {
  }

  /** The other segments leave the ledger alone, and once logout is called they only move it on. */
  predicate MovesOn(c: Control, d: Control) {
    d.ledger == c.ledger && (!c.logout.NoLogout? ==> d == c.(logout := d.logout) && !d.logout.NoLogout?)
  }

  lemma BeginMovesOn(c: Control, seen: Seen)
    ensures MovesOn(c, c) && MovesOn(c, BeginLogout(c, seen).c)
  {
  }

  lemma AnswerMovesOn(c: Control, seen: Seen)
    requires c.logout.DeletingRecord?
    ensures MovesOn(c, DeletionAnswered(c, seen.deletion))
  {
  }

  lemma EvaluationMovesOn(c: Control)
    ensures MovesOn(c, EvaluateLogout(c))
  {
  }

  lemma LogoutMovesOn(c: Control, seen: Seen, e: MatrixSession.Event)
    requires !e.DatabasesRemoved? && !e.AbortSettled? && !e.RemoteLogoutSettled?
    ensures MovesOn(c, LogoutReaction(c, seen, e).c)
  {
    BeginMovesOn(c, seen);
    match e
    case CallLogout =>
    case DeletionSettled => if c.logout.DeletingRecord? { AnswerMovesOn(c, seen); }
    case LogoutEvaluated => EvaluationMovesOn(c);
    case _ =>
  }

  lemma LogoutKeepsTrace(c: Control, w: World, me: nat, seen: Seen, e: MatrixSession.Event, id: RecordId)
    requires me in w.leases && Traced(c, w, me) && FinalKnown(c, w.log, id)
    ensures Traced(LogoutReaction(c, seen, e).c, w, me)
  {
    LogoutLeavesRefresh(c, seen, e);
    LogoutRevokes(c, seen, e);
    if c.logout.EndingRemote? {
      var k: nat :| FinalAt(w.log, id, c.logout.final, k);
      assert HasCredential(w.log[k], c.logout.final.credential);
    }
    SameTrace(c, LogoutReaction(c, seen, e).c, w, me);
  }

  /** The call of reseal takes the credential with it. */
  lemma ResealTakesCredential(c: Control, w: World, me: nat, runtime: nat)
    requires Inv(w) && me in w.leases && Traced(c, w, me) && c.refresh.Responded? && c.mode == Running && w.leases[me].dek.Some?
    ensures var r := ResumeRefreshed(c, Look(c, w.leases[me]));
      var v := Perform(w, me, runtime, r.asks);
      me in v.leases && Traced(r.c, v, me)
  {
    var l := w.leases[me];
    var r := ResumeRefreshed(c, Look(c, l));
    var x := c.refresh.credential;
    var request := ResealTo(Some(c.refresh.base.(credential := x)));
    var n := |l.answers| + |l.chain|;
    var v := Step(w, LeaseMove(me, Call(request)));
    assert r.asks == [OnLease(Call(request))] && r.asks[1..] == [];
    assert Perform(w, me, runtime, r.asks) == Perform(v, me, runtime, []) == v;
    assert v.leases[me] == l.(chain := l.chain + [Job(request, Waiting)]);
    assert Unknown(v, x, me, n);
  }

  /** Asks that bring no credential into the vault. */
  predicate Harmless(asks: seq<Ask>) {
    forall k :: 0 <= k < |asks| ==> asks[k].ReleaseLocks? || !asks[k].move.Call? || asks[k].move.request.DeleteRecord?
  }

  lemma StoppingIsHarmless(c: Control)
    ensures Harmless(DisposingAndUnlocking(c).asks) && Harmless(StopWithError(c).asks)
  {
  }

  lemma EndingsAreHarmless(c: Control, error: Callback)
    ensures Harmless(Invalidate(c, error).asks)
  {
    StoppingIsHarmless(c.(report := Report(c.report.uncertain, true, c.report.reported || error.UnconfirmedRevocation?, c.report.callbacks + [error])));
  }

  lemma SealIsHarmless(c: Control, seen: Seen, e: MatrixSession.Event)
    requires OfSeal(e) && !(e.ResumeRefresh? && c.refresh.Responded? && c.mode == Running && seen.active)
    ensures Harmless(SealReaction(c, seen, e).asks)
  {
    if e.RevocationSettled? && (c.refresh.Discarding? || c.refresh.Unsealed?) {
      var d := Revoked(c, c.refresh.credential, e.confirmed);
      EndingsAreHarmless(SettleRefresh(d, RefreshFailed), SessionLocked);
      EndingsAreHarmless(SettleRefresh(d, RevocationUnconfirmed), UnconfirmedRevocation);
    }
  }

  lemma StopIsHarmless(c: Control, e: MatrixSession.Event)
    ensures Harmless(StopReaction(c, e).asks)
  {
    match e
    case Stop => StoppingIsHarmless(c);
    case Takeover => EndingsAreHarmless(c, SessionLocked);
    case _ =>
  }

  lemma LogoutIsHarmless(c: Control, seen: Seen, e: MatrixSession.Event)
    ensures Harmless(LogoutReaction(c, seen, e).asks)
  {
  }

  lemma QuietAsks(c: Control, seen: Seen, e: MatrixSession.Event)
    requires !(e.ResumeRefresh? && c.refresh.Responded? && c.mode == Running && seen.active)
    ensures Harmless(React(c, seen, e).asks)
  {
    if OfRequest(e) { EndingsAreHarmless(SettleRefresh(TimedOut(c), RevocationUnconfirmed), UnconfirmedRevocation); }
    else if OfSeal(e) { SealIsHarmless(c, seen, e); }
    else if OfStop(e) { StopIsHarmless(c, e); }
    else { LogoutIsHarmless(c, seen, e); }
  }

  lemma ReactionKeepsTrace(c: Control, w: World, me: nat, e: MatrixSession.Event, id: RecordId)
    requires Flags(c) && me in w.leases && Traced(c, w, me) && FinalKnown(c, w.log, id)
    requires !(e.ResumeRefresh? && c.refresh.Responded? && c.mode == Running && w.leases[me].dek.Some?)
    requires e.TokenResponse? ==> Unknown(w, e.credential, me, -1)
    ensures Traced(React(c, Look(c, w.leases[me]), e).c, w, me)
  {
    var seen := Look(c, w.leases[me]);
    if OfRequest(e) { RequestKeepsTrace(c, w, me, seen, e); }
    else if OfSeal(e) { SealKeepsTrace(c, w, me, e); }
    else if OfStop(e) { StopKeepsTrace(c, w, me, e); }
    else { LogoutKeepsTrace(c, w, me, seen, e, id); }
  }

  ghost predicate STraced(s: Service) { s.me in s.vault.leases && Traced(s.c, s.vault, s.me) }

  lemma NextKeepsTrace(s: Service, h: Happening)
    requires SInv(s) && STraced(s) && Original(s, h)
    ensures STraced(Next(s, h))
  {
    match h
    case VaultMoves(v) => if v != WindowClosed(s.me) { VaultKeepsTrace(s.c, s.vault, s.me, v); }
    case Occurs(e) =>
      if e.ResumeRefresh? && s.c.refresh.Responded? && s.c.mode == Running && s.vault.leases[s.me].dek.Some? {
        ResealTakesCredential(s.c, s.vault, s.me, s.runtime);
      } else {
        var r := React(s.c, Look(s.c, s.vault.leases[s.me]), e);
        ReactionKeepsTrace(s.c, s.vault, s.me, e, MyId(s));
        QuietAsks(s.c, Look(s.c, s.vault.leases[s.me]), e);
        PerformKeepsTrace(r.c, s.vault, s.me, s.runtime, r.asks);
      }
  }

  lemma {:induction false} RunKeepsTrace(s: Service, hs: seq<Happening>)
    requires SInv(s) && STraced(s) && AllOriginal(s, hs)
    ensures SInv(RunService(s, hs)) && STraced(RunService(s, hs))
    decreases |hs|
  {
    if hs != [] {
      NextKeepsSInv(s, hs[0]);
      NextKeepsTrace(s, hs[0]);
      RunKeepsTrace(Next(s, hs[0]), hs[1..]);
    }
  }

  /* ---- When logout tells the truth ---- */

  /** What a called logout never changes: whether it was called in time, and the settlement it may have missed. */
  ghost predicate Called(c: Control, inTime: bool) {
    && !c.logout.NoLogout? && c.mode != Running && c.inTime == inTime
    && (!inTime ==> SettledUnconfirmed(c.refresh) && !c.report.uncertain)
  }

  lemma CalledRequest(c: Control, seen: Seen, e: MatrixSession.Event, inTime: bool)
    requires Called(c, inTime) && OfRequest(e)
    ensures Called(RequestReaction(c, seen, e).c, inTime)
  {
    if e.Deadline? { DeadlineLedger(c); }
  }

  lemma CalledSeal(c: Control, seen: Seen, e: MatrixSession.Event, inTime: bool)
    requires Called(c, inTime) && OfSeal(e)
    ensures Called(SealReaction(c, seen, e).c, inTime)
  {
  }

  lemma CalledStop(c: Control, e: MatrixSession.Event, inTime: bool)
    requires Called(c, inTime)
    ensures Called(StopReaction(c, e).c, inTime)
  {
    StopLedger(c, e);
  }

  lemma CalledLogout(c: Control, seen: Seen, e: MatrixSession.Event, inTime: bool)
    requires Called(c, inTime)
    ensures Called(LogoutReaction(c, seen, e).c, inTime)
  {
    if e.DatabasesRemoved? || e.AbortSettled? { LogoutEndsLedger(c, seen, e); }
    else if e.RemoteLogoutSettled? { } else { LogoutMovesOn(c, seen, e); }
  }

  lemma {:induction false} CalledForGood(s: Service, hs: seq<Happening>, inTime: bool)
    requires Called(s.c, inTime)
    ensures Called(RunService(s, hs).c, inTime)
    decreases |hs|
  {
    if hs != [] {
      if hs[0].Occurs? && s.me in s.vault.leases {
        var seen, e := Look(s.c, s.vault.leases[s.me]), hs[0].e;
        if OfRequest(e) { CalledRequest(s.c, seen, e, inTime); }
        else if OfSeal(e) { CalledSeal(s.c, seen, e, inTime); }
        else if OfStop(e) { CalledStop(s.c, e, inTime); }
        else { CalledLogout(s.c, seen, e, inTime); }
      }
      CalledForGood(Next(s, hs[0]), hs[1..], inTime);
    }
  }

  /** A call of logout() that is not refused. */
  predicate CanCall(s: Service) { s.me in s.vault.leases && s.c.logout.NoLogout? && s.c.leaseHeld }

  lemma CallIsRecorded(s: Service)
    requires CanCall(s) && SInv(s)
    ensures Called(Next(s, Occurs(CallLogout)).c, InTime(s.c))
  {
  }

  /** A loose credential is neither revoked nor overtaken. */
  lemma LooseIsLeft(u: Service)
    requires STraced(u) && SettledUnconfirmed(u.c.refresh) && !u.c.report.uncertain
    ensures !NothingLeft(u.c, u.vault.log, MyId(u))
  {
    var x :| Loose(u.c, u.vault, u.me, x);
    var ended := Ended(u.c, u.vault.log, MyId(u), x);
  }

  /**
  In every run and for every way it goes on after logout() is called: if that
  logout answers true and was called in time, the answer is right; and if not
  in time, it is wrong, given that no credential comes from anywhere but its
  own issue.
  */
  lemma LogoutIsTruthfulExactlyThen(s: Service, hs: seq<Happening>, t: Service, more: seq<Happening>, u: Service)
    requires ServiceRun(s, hs, t) && CanCall(t)
    requires u == RunService(Next(t, Occurs(CallLogout)), more) && u.c.logout == LoggedOut(true)
    ensures u.me in u.vault.leases
    ensures InTime(t.c) ==> NothingLeft(u.c, u.vault.log, MyId(u))
    ensures AllOriginal(s, hs) && AllOriginal(Next(t, Occurs(CallLogout)), more) ==>
      (NothingLeft(u.c, u.vault.log, MyId(u)) <==> InTime(t.c))
  {
    ServiceRunInv(s, hs, t);
    var called := Next(t, Occurs(CallLogout));
    CallIsRecorded(t);
    NextKeepsSInv(t, Occurs(CallLogout));
    RunKeepsSInv(called, more);
    CalledForGood(called, more, InTime(t.c));
    if !InTime(t.c) && AllOriginal(s, hs) && AllOriginal(called, more) {
      StartsSInv(s);
      RunKeepsTrace(s, hs);
      NextKeepsTrace(t, Occurs(CallLogout));
      RunKeepsTrace(called, more);
      LooseIsLeft(u);
    }
  }

  /* ---- A run in which it does not ---- */

  /** The lease has no call pending and its record is the stored one. */
  ghost predicate AtRest(s: Service) {
    s.me in s.vault.leases && s.vault.leases[s.me].chain == [] && s.vault.leases[s.me].dek.Some?
    && s.vault.cell == Locked(s.vault.leases[s.me].record)
  }

  lemma {:induction false} RunAppend(s: Service, hs: seq<Happening>, more: seq<Happening>)
    ensures RunService(s, hs + more) == RunService(RunService(s, hs), more)
    decreases |hs|
  {
    if hs == [] {
      assert hs + more == more;
    } else {
      assert (hs + more)[1..] == hs[1..] + more;
      RunAppend(Next(s, hs[0]), hs[1..], more);
    }
  }

  /** One more happening at the end of a run. */
  lemma RunOn(s: Service, hs: seq<Happening>, t: Service, h: Happening) returns (longer: seq<Happening>, u: Service)
    requires t == RunService(s, hs)
    ensures longer == hs + [h] && u == Next(t, h) && u == RunService(s, longer)
  {
    longer, u := hs + [h], Next(t, h);
    RunAppend(s, hs, [h]);
    assert [h][1..] == [];
  }

  /** An event that asks nothing of the vault. */
  lemma Quietly(s: Service, hs: seq<Happening>, c: Control, e: MatrixSession.Event, d: Control)
    returns (longer: seq<Happening>, t: Service)
    requires s.me in s.vault.leases && RunService(s, hs) == s.(c := c)
    requires React(c, Look(c, s.vault.leases[s.me]), e) == Only(d)
    ensures t == s.(c := d) && t == RunService(s, longer)
  {
    longer, t := RunOn(s, hs, s.(c := c), Occurs(e));
  }

  /** stop() overtakes a refresh, and the credential it discards is not confirmed revoked. */
  function LossEvent(x: int, i: nat): MatrixSession.Event {
    match i
    case 0 => RefreshTokens
    case 1 => TokenResponse(x)
    case 2 => Stop
    case 3 => ResumeRefresh
    case 4 => RevocationSettled(false)
    case _ => RefreshTaskCleared
  }

  function Halted(c: Control, x: int, refresh: Refresh, refreshTask: bool): Control {
    c.(mode := Stopping, stopRelease := true, refresh := refresh, refreshTask := refreshTask, ledger := Issue(c.ledger, x))
  }

  /** After all six: the refresh task is cleared, and the stop's release continuation has not run. */
  function LossAt(c: Control, base: Session, x: int, i: nat): Control {
    match i
    case 0 => c
    case 1 => c.(refresh := Requesting(base), refreshTask := true)
    case 2 => c.(refresh := Responded(base, x), refreshTask := true, ledger := Issue(c.ledger, x))
    case 3 => Halted(c, x, Responded(base, x), true)
    case 4 => Halted(c, x, Discarding(x), true)
    case 5 => Halted(c, x, Settled(Discarded(false)), true)
    case _ => Halted(c, x, Settled(Discarded(false)), false)
  }

  lemma LossStep(c: Control, seen: Seen, x: int, i: nat)
    requires JustStarted(c) && seen.session.Some? && i < 6
    ensures React(LossAt(c, seen.session.value, x, i), seen, LossEvent(x, i)) == Only(LossAt(c, seen.session.value, x, i + 1))
  {
  }

  lemma {:induction false} StopLosesCredential(s: Service, x: int, i: nat) returns (hs: seq<Happening>)
    requires SInv(s) && JustStarted(s.c) && AtRest(s) && i <= 6
    ensures RunService(s, hs) == s.(c := LossAt(s.c, s.vault.leases[s.me].session.value, x, i))
  {
    assert LeaseOk(s.vault.log, s.vault.leases[s.me]);
    if i == 0 {
      hs := [];
    } else {
      hs := StopLosesCredential(s, x, i - 1);
      var l := s.vault.leases[s.me];
      var c := LossAt(s.c, l.session.value, x, i - 1);
      LossStep(s.c, Look(c, l), x, i - 1);
      var t;
      hs, t := Quietly(s, hs, c, LossEvent(x, i - 1), LossAt(s.c, l.session.value, x, i));
    }
  }

  /** The vault after the lease's deletion, called and run through. */
  function Deletion(w: World, me: nat): World {
    Step(Step(Step(Step(w, LeaseMove(me, Call(DeleteRecord))), LeaseMove(me, Begin)), LeaseMove(me, Transact)), LeaseMove(me, Resume))
  }

  lemma LeaseDeletes(l: Lease, cell: Cell)
    requires l.chain == [] && l.dek.Some? && l.session.Some? && cell == Locked(l.record)
    ensures var called := LeaseStep(l, cell, Call(DeleteRecord));
      var begun := LeaseStep(called.lease, cell, Begin);
      var deleted := LeaseStep(begun.lease, cell, Transact);
      var settled := LeaseStep(deleted.lease, TombstoneFor(l.record), Resume);
      && called.put.None? && begun.put.None? && deleted.put == Some(TombstoneFor(l.record)) && settled.put.None?
      && settled.lease.record == l.record
      && settled.lease.answers == l.answers + [Answer(DeleteRecord, DeletionDone(l.session.value, CleanupFor(l.record)))]
  {
    assert LeaseStep(l, cell, Call(DeleteRecord)).lease.chain == [Job(DeleteRecord, Waiting)];
  }

  lemma DeletionSucceeds(w: World, me: nat)
    requires Inv(w) && me in w.leases && w.leases[me].chain == [] && w.leases[me].dek.Some?
    requires w.cell == Locked(w.leases[me].record)
    ensures var l := w.leases[me];
      var v := Deletion(w, me);
      me in v.leases && v.log == w.log + [TombstoneFor(l.record)] && v.leases[me].record == l.record
      && v.leases[me].answers == l.answers + [Answer(DeleteRecord, DeletionDone(l.session.value, CleanupFor(l.record)))]
  {
    assert LeaseOk(w.log, w.leases[me]);
    LeaseDeletes(w.leases[me], w.cell);
  }

  /** Whatever a logout ends with, it writes nothing more. */
  lemma {:induction false} EndingWritesNothing(w: World, me: nat, runtime: nat, asks: seq<Ask>)
    requires me in w.leases && forall k :: 0 <= k < |asks| ==> asks[k].ReleaseLocks? || asks[k].move.Dispose?
    ensures var v := Perform(w, me, runtime, asks);
      v.log == w.log && me in v.leases && v.leases[me].record == w.leases[me].record
    decreases |asks|
  {
    if asks != [] {
      EndingWritesNothing(Step(w, VaultEvent(asks[0], me, runtime)), me, runtime, asks[1..]);
    }
  }

  lemma CallAsksForDeletion(t: Service)
    requires AtRest(t) && t.c.leaseHeld && t.c.logout.NoLogout? && !t.c.refreshTask
    ensures Next(t, Occurs(CallLogout)) ==
      t.(vault := Step(t.vault, LeaseMove(t.me, Call(DeleteRecord))),
         c := t.c.(mode := LoggingOut, inTime := InTime(t.c), logout := DeletingRecord(|t.vault.leases[t.me].answers|, false)))
  {
    var asks := [OnLease(Call(DeleteRecord))];
    var w := Step(t.vault, LeaseMove(t.me, Call(DeleteRecord)));
    assert BeginLogout(t.c, Look(t.c, t.vault.leases[t.me])).asks == asks;
    assert asks[1..] == [] && Perform(t.vault, t.me, t.runtime, asks) == Perform(w, t.me, t.runtime, []);
  }

  lemma CallDeletes(t: Service) returns (more: seq<Happening>, u: Service)
    requires AtRest(t) && t.c.leaseHeld && t.c.logout.NoLogout? && !t.c.refreshTask
    ensures u == RunService(t, more)
    ensures u == t.(vault := Deletion(t.vault, t.me),
                    c := t.c.(mode := LoggingOut, inTime := InTime(t.c), logout := DeletingRecord(|t.vault.leases[t.me].answers|, false)))
  {
    CallAsksForDeletion(t);
    more, u := RunOn(t, [], t, Occurs(CallLogout));
    more, u := RunOn(t, more, u, VaultMoves(LeaseMove(t.me, Begin)));
    more, u := RunOn(t, more, u, VaultMoves(LeaseMove(t.me, Transact)));
    more, u := RunOn(t, more, u, VaultMoves(LeaseMove(t.me, Resume)));
  }

  lemma AnswerSteps(c: Control, seen: Seen, final: Session)
    requires c.logout.DeletingRecord? && !c.logout.awaits && !c.report.uncertain && seen.deletion == DeletedWith(final)
    ensures var c1 := c.(logout := EndingRemote(final, NoVerdict, false));
      var c2 := Revoked(c1, final.credential, true).(logout := EndingRemote(final, Confirmed, false));
      && React(c, seen, DeletionSettled) == Only(c1)
      && React(c1, seen, RemoteLogoutSettled(true)) == Only(c2)
      && React(c2, seen, LogoutEvaluated) == Only(c2.(logout := RemovingDatabases(true)))
  {
  }

  /** From the deleted record to the answer. */
  lemma AnswerFollows(t: Service, before: seq<Happening>, s: Service, final: Session) returns (more: seq<Happening>, u: Service)
    requires s == RunService(t, before) && s.me in s.vault.leases
    requires s.c.logout.DeletingRecord? && !s.c.logout.awaits && !s.c.report.uncertain
    requires Look(s.c, s.vault.leases[s.me]).deletion == DeletedWith(final)
    ensures u == RunService(t, more) && u.c.logout == LoggedOut(true) && u.me == s.me
    ensures u.c.ledger == Revoke(s.c.ledger, final.credential, true)
    ensures u.me in u.vault.leases && u.vault.leases[u.me].record == s.vault.leases[s.me].record && u.vault.log == s.vault.log
  {
    var l := s.vault.leases[s.me];
    var c1 := s.c.(logout := EndingRemote(final, NoVerdict, false));
    var c2 := Revoked(c1, final.credential, true).(logout := EndingRemote(final, Confirmed, false));
    AnswerSteps(s.c, Look(s.c, l), final);
    more, u := Quietly(s, [], s.c, DeletionSettled, c1);
    AnswerSteps(s.c, Look(c1, l).(deletion := DeletedWith(final)), final);
    more, u := Quietly(s, more, c1, RemoteLogoutSettled(true), c2);
    more, u := Quietly(s, more, c2, LogoutEvaluated, c2.(logout := RemovingDatabases(true)));
    more, u := AnswerGiven(s, more, c2.(logout := RemovingDatabases(true)));
    RunAppend(t, before, more);
    more := before + more;
  }

  lemma AnswerGiven(s: Service, before: seq<Happening>, c: Control) returns (more: seq<Happening>, u: Service)
    requires s.me in s.vault.leases && RunService(s, before) == s.(c := c) && c.logout == RemovingDatabases(true)
    ensures u == RunService(s, more) && u.c.logout == LoggedOut(true) && u.me == s.me && u.c.ledger == c.ledger
    ensures u.me in u.vault.leases && u.vault.leases[u.me].record == s.vault.leases[s.me].record && u.vault.log == s.vault.log
  {
    more, u := RunOn(s, before, s.(c := c), Occurs(DatabasesRemoved(true)));
    EndingWritesNothing(s.vault, s.me, s.runtime, FinishLogout(c, LoggedOut(true)).asks);
    FinishingOnlyEnds(c, LoggedOut(true));
  }

  /**
  stop() may leave logout a gap to be called in: for every service that has just
  started, with its record in the vault, and every credential new to the vault,
  there is a run in which logout answers true, although that credential was
  issued and is neither revoked nor overtaken.
  */
  lemma LogoutAfterStopCanMislead(s: Service, x: int) returns (hs: seq<Happening>, t: Service)
    requires Starts(s) && AtRest(s) && Unknown(s.vault, x, s.me, -1)
    ensures ServiceRun(s, hs, t) && t.c.logout == LoggedOut(true) && t.me in t.vault.leases
    ensures x in t.c.ledger.issued && !Ended(t.c, t.vault.log, MyId(t), x)
  {
    StartsSInv(s);
    hs := StopLosesCredential(s, x, 6);
    var more, called := CallDeletes(RunService(s, hs));
    RunAppend(s, hs, more);
    hs, t := LossStays(s, x, hs + more, called);
  }

  lemma LossStays(s: Service, x: int, before: seq<Happening>, called: Service) returns (hs: seq<Happening>, t: Service)
    requires SInv(s) && AtRest(s) && Unknown(s.vault, x, s.me, -1) && x !in s.c.ledger.revoked && !s.c.report.uncertain
    requires called == RunService(s, before) && called.me == s.me && called.vault == Deletion(s.vault, s.me)
    requires called.c.logout == DeletingRecord(|s.vault.leases[s.me].answers|, false) && !called.c.report.uncertain
    requires called.c.ledger == Issue(s.c.ledger, x)
    ensures t == RunService(s, hs) && t.c.logout == LoggedOut(true) && t.me in t.vault.leases
    ensures x in t.c.ledger.issued && !Ended(t.c, t.vault.log, MyId(t), x)
  {
    var l := s.vault.leases[s.me];
    assert LeaseOk(s.vault.log, l);
    DeletionSucceeds(s.vault, s.me);
    hs, t := AnswerFollows(s, before, called, l.session.value);
    assert HasCredential(s.vault.log[|s.vault.log| - 1], l.session.value.credential);
  }
}

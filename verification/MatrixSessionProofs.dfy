/** Logout tells the truth and an unconfirmed revocation is reported, over every run of a started service. */
module MatrixSessionProofs {
  import opened Basics
  import opened SessionVault
  import opened SessionVaultProofs
  import opened MatrixSession

  /* ---- What a vault step leaves of this service's lease ---- */

  function RequestAt(l: Lease, n: nat): Option<Request> {
    if n < |l.answers| then Some(l.answers[n].request)
    else if n < |l.answers| + |l.chain| then Some(l.chain[n - |l.answers|].request)
    else None
  }

  /** Calls keep their number and their request; the record keeps its id. */
  ghost predicate Continues(l: Lease, m: Lease) {
    && m.record.recordId == l.record.recordId
    && l.answers <= m.answers
    && (forall n: nat :: RequestAt(l, n).Some? ==> RequestAt(m, n) == RequestAt(l, n))
  }

  /** Updates that leave the record id and the calls alone, then settle or re-phase the head. */
  lemma SettleContinues(l: Lease, k: Lease, outcome: Outcome)
    requires |l.chain| > 0 && k.chain == l.chain && k.answers == l.answers && k.record.recordId == l.record.recordId
    ensures Continues(l, Settle(k, outcome).lease)
  {
  }

  lemma PhaseContinues(l: Lease, phase: Phase)
    requires |l.chain| > 0
    ensures Continues(l, InPhase(l, phase))
  {
  }

  lemma ResumeContinues(log: seq<Cell>, l: Lease)
    requires LeaseOk(log, l) && |l.chain| > 0
    ensures Continues(l, ResumeJob(l).lease)
  {
    match l.chain[0].phase
    case Committed(next) =>
      SettleContinues(l, l.(record := next, session := Some(next.payload.session)), Resealed(next));
      SettleContinues(l, l, Resealed(next));
    case Deleted(session, target) => SettleContinues(l, WithoutKey(l), DeletionDone(session, CleanupFor(target)));
    case ReadBack(stored) =>
      SettleContinues(l, l, Refused(Disposed));
      SettleContinues(l, l, Refused(Conflict));
      SettleContinues(l, l, StillCurrent);
    case _ =>
  }

  lemma BeginContinues(l: Lease)
    requires |l.chain| > 0
    ensures Continues(l, BeginJob(l).lease)
  {
    if l.dek.None? || l.session.None? {
      SettleContinues(l, l, Refused(Disposed));
    } else {
      match l.chain[0].request
      case ResealTo(None) => SettleContinues(l, l, Refused(InvalidInput));
      case ResealTo(Some(next)) =>
        SettleContinues(l, l, Refused(InvalidInput));
        PhaseContinues(l, Sealing(l.record, next, l.dek.value));
      case DeleteRecord => PhaseContinues(l, Deleting(l.session.value, l.record));
      case AssertCurrent => PhaseContinues(l, Reading);
    }
  }

  lemma TransactContinues(l: Lease, cell: Cell)
    requires |l.chain| > 0
    ensures Continues(l, RunTransaction(l, cell).lease)
  {
    SettleContinues(l, l, Refused(Conflict));
    match l.chain[0].phase
    case Committing(expected, next) => PhaseContinues(l, Phase.Committed(next));
    case Deleting(session, target) => PhaseContinues(l, Deleted(session, target));
    case Reading => PhaseContinues(l, ReadBack(cell));
    case _ =>
  }

  lemma EncryptedContinues(l: Lease, expected: Record, session: Session, key: Key, nonce: nat)
    requires |l.chain| > 0
    ensures Continues(l, FinishEncryption(l, expected, session, key, nonce).lease)
  {
    SettleContinues(l, l, Refused(Disposed));
    PhaseContinues(l, Committing(expected,
      Seal(session, expected.recordId, expected.revision + 1, expected.storage, expected.slots, key, nonce)));
  }

  lemma LeaseContinues(log: seq<Cell>, l: Lease, cell: Cell, m: Move)
    requires LeaseOk(log, l)
    ensures Continues(l, LeaseStep(l, cell, m).lease)
  {
    if |l.chain| > 0 {
      match m
      case Begin => BeginContinues(l);
      case Encrypted(nonce) =>
        if l.chain[0].phase.Sealing? {
          var p := l.chain[0].phase;
          EncryptedContinues(l, p.expected, p.session, p.key, nonce);
        }
      case Transact => TransactContinues(l, cell);
      case Resume => ResumeContinues(log, l);
      case Fails => SettleContinues(l, l, Refused(Unavailable));
      case _ =>
    }
  }

  lemma VaultStepFacts(w: World, e: SessionVault.Event, me: nat)
    requires Inv(w) && me in w.leases && e != WindowClosed(me)
    ensures Inv(Step(w, e)) && w.log <= Step(w, e).log
    ensures me in Step(w, e).leases && Continues(w.leases[me], Step(w, e).leases[me])
  {
    StepKeepsInv(w, e);
    StepExtendsLog(w, e);
    StepMovesLease(w, e, me);
    assert LeaseOk(w.log, w.leases[me]);
    if m :| Step(w, e).leases[me] == LeaseStep(w.leases[me], w.cell, m).lease {
      LeaseContinues(w.log, w.leases[me], w.cell, m);
    }
  }

  lemma StepMovesLease(w: World, e: SessionVault.Event, me: nat)
    requires me in w.leases && e != WindowClosed(me)
    ensures me in Step(w, e).leases
    ensures Step(w, e).leases[me] == w.leases[me]
         || exists m :: Step(w, e).leases[me] == LeaseStep(w.leases[me], w.cell, m).lease
  {
    if e.Advance? && e.task in w.tasks && w.tasks[e.task] == UnlockVerifying(me) {
      assert Step(w, e).leases[me] == w.leases[me]
          || Step(w, e).leases[me] == LeaseStep(w.leases[me], w.cell, Dispose).lease;
    } else if e.LeaseMove? && e.lease == me {
      assert Step(w, e).leases[me] == LeaseStep(w.leases[me], w.cell, e.move).lease;
    }
  }

  /* ---- Credentials in the history ---- */

  ghost predicate HoldsAt(log: seq<Cell>, id: RecordId, c: int, k: nat) {
    k < |log| && log[k].Locked? && log[k].record.recordId == id && log[k].record.payload.session.credential == c
  }

  /** Credential `c` was committed to the vault. */
  ghost predicate WasCommitted(log: seq<Cell>, id: RecordId, c: int) {
    exists k :: HoldsAt(log, id, c, k)
  }

  /** Another credential was committed later than `c`. */
  ghost predicate Superseded(log: seq<Cell>, id: RecordId, c: int) {
    exists a, b, d :: a < b && c != d && HoldsAt(log, id, c, a) && HoldsAt(log, id, d, b)
  }

  /** The final session: the record at `k` held it and its tombstone follows. */
  ghost predicate FinalAt(log: seq<Cell>, id: RecordId, final: Session, k: nat) {
    && HoldsAt(log, id, final.credential, k)
    && k + 1 < |log|
    && log[k + 1].Tombstone? && log[k + 1].recordId == id
  }

  lemma CommittedOrFinal(log: seq<Cell>, id: RecordId, final: Session, k: nat, c: int)
    requires Ordered(log) && FinalAt(log, id, final, k) && WasCommitted(log, id, c)
    ensures c == final.credential || Superseded(log, id, c)
  {
    var a: nat :| HoldsAt(log, id, c, a);
    assert a <= k by { var same := SameId(log[k + 1], log[a]); }
    assert a == k || (a < k && HoldsAt(log, id, final.credential, k));
  }

  /* ---- The flags ---- */

  predicate Active(r: Refresh) { !r.Idle? && !r.Settled? }

  predicate Holds(r: Refresh, credential: int) {
    (r.Responded? || r.Resealing? || r.Discarding? || r.Unsealed?) && r.credential == credential
  }

  predicate UnawaitedLogout(l: Logout) {
    (l.DeletingRecord? || l.EndingRemote?) && !l.awaits
  }

  predicate SaidEnded(l: Logout) {
    (l.RemovingDatabases? && l.ended) || (l.LoggedOut? && l.remoteSessionEnded)
  }

  predicate Flags(c: Control) {
    && (Active(c.refresh) ==> c.refreshTask)
    && c.ledger.late >= 0 && (c.ledger.late > 0 || c.ledger.lateDiscards != {} ==> c.report.uncertain)
    && (c.report.uncertain ==> !Active(c.refresh))
    && (c.report.reported ==> !Active(c.refresh) && (c.report.uncertain || SettledUnconfirmed(c.refresh)))
    && (c.mode == Running ==>
          && !c.report.uncertain && !c.report.reported && !c.report.invalidated && c.logout.NoLogout? && !c.inTime
          && !c.refresh.Discarding? && !SettledUnconfirmed(c.refresh) && c.locksHeld && !c.stopRelease)
    && (c.mode == Stopping ==> c.logout.NoLogout? && !c.inTime && (c.locksHeld ==> c.stopRelease))
    && (c.hideRelease ==> c.mode == PageHidden)
    && (c.mode == PageHidden ==> !c.leaseHeld)
    && (c.mode == Stopping && !c.locksHeld ==>
          !c.leaseHeld && !Active(c.refresh) && (c.report.uncertain || SettledUnconfirmed(c.refresh) ==> c.report.reported))
    && (c.inTime && UnawaitedLogout(c.logout) ==> !Active(c.refresh) && (c.report.uncertain || !SettledUnconfirmed(c.refresh)))
    && (c.inTime && SaidEnded(c.logout) ==> !Active(c.refresh) && !c.report.uncertain && !SettledUnconfirmed(c.refresh))
    && (c.inTime ==> c.mode == LoggingOut || c.mode == PageHidden)
  }

  lemma DeadlineFlags(c: Control)
    requires Flags(c) && c.refresh.Requesting?
    ensures Flags(DeadlinePassed(c).c)
  {
  }

  lemma ShutdownDiscardFlags(c: Control, confirmed: bool)
    requires Flags(c) && c.mode != Running && (c.refresh.Discarding? || c.refresh.Unsealed?)
    ensures Flags(SettleRefresh(Revoked(c, c.refresh.credential, confirmed), Discarded(confirmed)))
  {
  }

  lemma UnsealedFlags(c: Control, confirmed: bool)
    requires Flags(c) && c.mode == Running && c.refresh.Unsealed?
    ensures Flags(UnsealedRevoked(Revoked(c, c.refresh.credential, confirmed), confirmed).c)
  {
  }

  lemma DiscardFlags(c: Control, confirmed: bool)
    requires Flags(c)
    ensures Flags(DiscardRevoked(c, confirmed).c)
  {
    if c.refresh.Discarding? || (c.refresh.Unsealed? && c.mode != Running) {
      ShutdownDiscardFlags(c, confirmed);
    } else if c.refresh.Unsealed? {
      UnsealedFlags(c, confirmed);
    }
  }

  lemma RequestFlags(c: Control, me: Seen, credential: int)
    requires Flags(c)
    ensures Flags(BeginRefresh(c, me).c)
    ensures c.refresh.Requesting? ==>
      && Flags(c.(refresh := Responded(c.refresh.base, credential), ledger := Issue(c.ledger, credential)))
      && Flags(c.(refresh := Settled(RefreshFailed)))
    ensures c.refresh.Settled? ==> Flags(c.(refreshTask := false))
  {
  }

  lemma LateFlags(c: Control, credential: int, confirmed: bool)
    requires Flags(c)
    ensures c.ledger.late > 0 ==> Flags(c.(ledger := IssueLate(c.ledger, credential)))
    ensures credential in c.ledger.lateDiscards ==> Flags(c.(ledger := RevokeLate(c.ledger, credential, confirmed)))
  {
  }

  lemma ResumeFlags(c: Control, me: Seen)
    requires Flags(c) && c.refresh.Responded?
    ensures Flags(ResumeRefreshed(c, me).c)
  {
  }

  lemma ResealAnsweredFlags(c: Control, answer: ResealAnswer)
    requires Flags(c) && c.refresh.Resealing?
    ensures Flags(ResealAnswered(c, answer))
  {
  }

  lemma RequestReactionFlags(c: Control, me: Seen, e: MatrixSession.Event)
    requires Flags(c) && OfRequest(e)
    ensures Flags(RequestReaction(c, me, e).c)
  {
    var d := RequestReaction(c, me, e).c;
    match e
    case Deadline => if c.refresh.Requesting? { DeadlineFlags(c); } else { assert d == c; }
    case LateResponse(credential) => LateFlags(c, credential, true); assert c.ledger.late <= 0 || !Unused(c.ledger, credential) ==> d == c;
    case LateRevocation(credential, confirmed) =>
      LateFlags(c, credential, confirmed);
      assert credential !in c.ledger.lateDiscards ==> d == c;
    case TokenResponse(credential) => RequestFlags(c, me, credential); assert !c.refresh.Requesting? || !Unused(c.ledger, credential) ==> d == c;
    case RefreshTokens => RequestFlags(c, me, 0);
    case TokenRejected => RequestFlags(c, me, 0); assert !c.refresh.Requesting? ==> d == c;
  }

  lemma SealReactionFlags(c: Control, me: Seen, e: MatrixSession.Event)
    requires Flags(c) && OfSeal(e)
    ensures Flags(SealReaction(c, me, e).c)
  {
    var d := SealReaction(c, me, e).c;
    match e
    case RevocationSettled(confirmed) => DiscardFlags(c, confirmed);
    case ResumeRefresh => if c.refresh.Responded? { ResumeFlags(c, me); } else { assert d == c; }
    case ResealSettled =>
      if c.refresh.Resealing? { ResealAnsweredFlags(c, me.reseal); } else { assert d == c; }
    case RefreshTaskCleared => RequestFlags(c, me, 0); assert !c.refresh.Settled? ==> d == c;
  }

  lemma StopFlags(c: Control)
    requires Flags(c)
    ensures Flags(StopWithError(c).c)
  {
  }

  lemma TakeoverFlags(c: Control)
    requires Flags(c) && c.mode == Running
    ensures Flags(Invalidate(c, SessionLocked).c)
  {
  }

  lemma StopReleaseFlags(c: Control)
    requires Flags(c)
    ensures Flags(StopRelease(c).c)
  {
  }

  lemma HideFlags(c: Control)
    requires Flags(c)
    ensures Flags(HidePage(c).c) && Flags(HideRelease(c).c)
  {
  }

  lemma BeginLogoutFlags(c: Control, me: Seen)
    requires Flags(c)
    ensures Flags(BeginLogout(c, me).c)
  {
  }

  lemma EvaluateFlags(c: Control)
    requires Flags(c)
    ensures Flags(EvaluateLogout(c))
  {
  }

  lemma DeletionAnsweredFlags(c: Control, answer: DeletionAnswer)
    requires Flags(c) && c.logout.DeletingRecord?
    ensures Flags(DeletionAnswered(c, answer))
  {
  }

  lemma RemoteFlags(c: Control, ok: bool)
    requires Flags(c) && c.logout.EndingRemote?
    ensures Flags(RemoteAnswered(c, ok))
  {
  }

  lemma FinishFlags(c: Control, logout: Logout)
    requires Flags(c) && (c.logout.RemovingDatabases? || c.logout.Aborting?)
    requires logout.LogoutFailed? || (c.logout.RemovingDatabases? && logout == LoggedOut(c.logout.ended))
    ensures Flags(FinishLogout(c, logout).c)
  {
  }

  lemma LogoutReactionFlags(c: Control, me: Seen, e: MatrixSession.Event)
    requires Flags(c)
    ensures Flags(LogoutReaction(c, me, e).c)
  {
    var d := LogoutReaction(c, me, e).c;
    match e
    case CallLogout => BeginLogoutFlags(c, me);
    case DeletionSettled =>
      if c.logout.DeletingRecord? { DeletionAnsweredFlags(c, me.deletion); } else { assert d == c; }
    case RemoteLogoutSettled(confirmed) =>
      if c.logout.EndingRemote? && c.logout.remote.NoVerdict? { RemoteFlags(c, confirmed); } else { assert d == c; }
    case LogoutEvaluated => EvaluateFlags(c);
    case DatabasesRemoved(ok) =>
      if c.logout.RemovingDatabases? { FinishFlags(c, if ok then LoggedOut(c.logout.ended) else LogoutFailed); }
      else { assert d == c; }
    case AbortSettled =>
      if c.logout.Aborting? && RefreshDone(c, c.logout.awaits) { FinishFlags(c, LogoutFailed); } else { assert d == c; }
    case _ => assert d == c;
  }

  lemma StopReactionFlags(c: Control, e: MatrixSession.Event)
    requires Flags(c)
    ensures Flags(StopReaction(c, e).c)
  {
    match e
    case Stop => StopFlags(c);
    case Takeover => if c.mode == Running { TakeoverFlags(c); }
    case StopReleased => StopReleaseFlags(c);
    case PageHide => HideFlags(c);
    case HideReleased => HideFlags(c);
    case _ =>
  }

  lemma FlagsKept(c: Control, me: Seen, e: MatrixSession.Event)
    requires Flags(c)
    ensures Flags(React(c, me, e).c)
  {
    if OfRequest(e) { RequestReactionFlags(c, me, e); }
    else if OfSeal(e) { SealReactionFlags(c, me, e); }
    else if OfStop(e) { StopReactionFlags(c, e); }
    else { LogoutReactionFlags(c, me, e); }
  }

  /* ---- The uncertainty callback ---- */

  function Reports(cs: seq<Callback>): nat {
    multiset(cs)[UnconfirmedRevocation]
  }

  ghost predicate Counted(c: Control) {
    Reports(c.report.callbacks) == if c.report.reported then 1 else 0
  }

  lemma ReportsAppend(cs: seq<Callback>, x: Callback)
    ensures Reports(cs + [x]) == Reports(cs) + if x.UnconfirmedRevocation? then 1 else 0
  {
    assert (cs + [x])[..|cs|] == cs;
  }

  /** Stopping and invalidating leave the refresh, the logout and the ledger alone. */
  ghost predicate OnlyEnds(c: Control, d: Control) {
    && d.refresh == c.refresh && d.refreshTask == c.refreshTask && d.logout == c.logout
    && d.inTime == c.inTime && d.ledger == c.ledger && d.report.uncertain == c.report.uncertain
  }

  lemma StoppingOnlyEnds(c: Control)
    ensures OnlyEnds(c, StopWithError(c).c) && OnlyEnds(c, DisposingAndUnlocking(c).c)
  {
  }

  lemma InvalidatingOnlyEnds(c: Control, error: Callback)
    ensures OnlyEnds(c, Invalidate(c, error).c)
  {
    if !c.report.invalidated {
      StoppingOnlyEnds(c.(report := Report(c.report.uncertain, true, c.report.reported || error.UnconfirmedRevocation?, c.report.callbacks + [error])));
    }
  }

  lemma FinishingOnlyEnds(c: Control, logout: Logout)
    ensures OnlyEnds(c.(logout := logout), FinishLogout(c, logout).c)
  {
    StoppingOnlyEnds(c.(logout := logout));
  }

  lemma LogoutCounted(c: Control, me: Seen, e: MatrixSession.Event)
    requires Counted(c)
    ensures Counted(LogoutReaction(c, me, e).c)
  {
    LogoutLeavesRefresh(c, me, e);
  }

  lemma InvalidateCounted(c: Control, error: Callback)
    requires Counted(c) && (error.UnconfirmedRevocation? && !c.report.invalidated ==> !c.report.reported)
    ensures Counted(Invalidate(c, error).c)
  {
    ReportsAppend(c.report.callbacks, error);
  }

  lemma ReportCounted(c: Control)
    requires Counted(c)
    ensures Counted(StopRelease(c).c)
  {
    ReportsAppend(c.report.callbacks, UnconfirmedRevocation);
  }

  lemma SealCounted(c: Control, confirmed: bool)
    requires Flags(c) && Counted(c)
    ensures Counted(DiscardRevoked(c, confirmed).c)
  {
    if c.refresh.Unsealed? && c.mode == Running {
      var d := Revoked(c, c.refresh.credential, confirmed);
      InvalidateCounted(SettleRefresh(d, RefreshFailed), SessionLocked);
      InvalidateCounted(SettleRefresh(d, RevocationUnconfirmed), UnconfirmedRevocation);
    }
  }

  lemma DeadlineCounted(c: Control)
    requires Flags(c) && Counted(c) && c.refresh.Requesting?
    ensures Counted(DeadlinePassed(c).c)
  {
    InvalidateCounted(SettleRefresh(TimedOut(c), RevocationUnconfirmed), UnconfirmedRevocation);
  }

  lemma RequestCounted(c: Control, me: Seen, e: MatrixSession.Event)
    requires Flags(c) && Counted(c) && OfRequest(e)
    ensures Counted(RequestReaction(c, me, e).c)
  {
    match e
    case Deadline => if c.refresh.Requesting? { DeadlineCounted(c); }
    case _ =>
  }

  lemma SealReactionCounted(c: Control, me: Seen, e: MatrixSession.Event)
    requires Flags(c) && Counted(c) && OfSeal(e)
    ensures Counted(SealReaction(c, me, e).c)
  {
    match e
    case RevocationSettled(confirmed) => SealCounted(c, confirmed);
    case _ =>
  }

  lemma StopCounted(c: Control, e: MatrixSession.Event)
    requires Counted(c) && OfStop(e)
    ensures Counted(StopReaction(c, e).c)
  {
    match e
    case Takeover => InvalidateCounted(c, SessionLocked);
    case StopReleased => ReportCounted(c);
    case _ =>
  }

  /** The callback fires at most once: an invalidation that reports finds nothing reported yet. */
  lemma CountedKept(c: Control, me: Seen, e: MatrixSession.Event)
    requires Flags(c) && Counted(c)
    ensures Counted(React(c, me, e).c)
  {
    if OfRequest(e) {
      RequestCounted(c, me, e);
    } else if OfSeal(e) {
      SealReactionCounted(c, me, e);
    } else if OfStop(e) {
      StopCounted(c, e);
    } else {
      LogoutCounted(c, me, e);
    }
  }

  /* ---- Every issued credential is accounted for, in hand, or in doubt ---- */

  ghost predicate Accounted(c: Control, log: seq<Cell>, id: RecordId, credential: int) {
    credential in c.ledger.revoked || WasCommitted(log, id, credential)
  }

  predicate Doubt(c: Control) {
    c.report.uncertain || c.report.reported || SettledUnconfirmed(c.refresh)
  }

  ghost predicate Covered(c: Control, log: seq<Cell>, id: RecordId) {
    Doubt(c) || forall k :: k in c.ledger.issued ==> Accounted(c, log, id, k) || Holds(c.refresh, k)
  }

  lemma RequestCovered(c: Control, me: Seen, e: MatrixSession.Event, log: seq<Cell>, id: RecordId)
    requires Flags(c) && Covered(c, log, id) && OfRequest(e)
    ensures Covered(RequestReaction(c, me, e).c, log, id)
  {
  }

  lemma SealCovered(c: Control, me: Seen, e: MatrixSession.Event, log: seq<Cell>, id: RecordId)
    requires Flags(c) && Covered(c, log, id) && OfSeal(e)
    requires c.refresh.Resealing? && me.reseal.ResealCommitted? ==> WasCommitted(log, id, c.refresh.credential)
    ensures Covered(SealReaction(c, me, e).c, log, id)
  {
  }

  lemma StopCovered(c: Control, e: MatrixSession.Event, log: seq<Cell>, id: RecordId)
    requires Covered(c, log, id)
    ensures Covered(StopReaction(c, e).c, log, id)
  {
  }

  lemma SameCovered(c: Control, d: Control, log: seq<Cell>, id: RecordId)
    requires Covered(c, log, id)
    requires d.refresh == c.refresh && d.report == c.report
    requires c.ledger.revoked <= d.ledger.revoked && d.ledger.issued <= c.ledger.issued
    ensures Covered(d, log, id)
  {
  }

  predicate SameRefresh(c: Control, d: Control) {
    d.refresh == c.refresh && d.report == c.report
  }

  lemma LogoutSegmentsLeaveRefresh(c: Control, me: Seen)
    ensures SameRefresh(c, BeginLogout(c, me).c) && SameRefresh(c, EvaluateLogout(c))
    ensures c.logout.DeletingRecord? ==> SameRefresh(c, DeletionAnswered(c, me.deletion))
  {
  }

  lemma LogoutLeavesRefresh(c: Control, me: Seen, e: MatrixSession.Event)
    ensures SameRefresh(c, LogoutReaction(c, me, e).c)
  {
    if e.DatabasesRemoved? || e.AbortSettled? { LogoutEnds(c, me, e); } else { LogoutSegmentsLeaveRefresh(c, me); }
  }

  /** The last segments of a logout only settle it. */
  lemma LogoutEnds(c: Control, me: Seen, e: MatrixSession.Event)
    requires e.DatabasesRemoved? || e.AbortSettled?
    ensures var d := LogoutReaction(c, me, e).c; SameRefresh(c, d) && !(d.logout.DeletingRecord? && d.logout != c.logout)
  {
    FinishingOnlyEnds(c, LogoutFailed);
    if c.logout.RemovingDatabases? { FinishingOnlyEnds(c, LoggedOut(c.logout.ended)); }
  }

  lemma LogoutLedger(c: Control, me: Seen, e: MatrixSession.Event)
    ensures LedgerGrows(c, LogoutReaction(c, me, e).c)
  {
  }

  lemma LogoutCovered(c: Control, me: Seen, e: MatrixSession.Event, log: seq<Cell>, id: RecordId)
    requires Covered(c, log, id)
    ensures Covered(LogoutReaction(c, me, e).c, log, id)
  {
    LogoutLeavesRefresh(c, me, e);
    LogoutLedger(c, me, e);
    SameCovered(c, LogoutReaction(c, me, e).c, log, id);
  }

  lemma CoveredKept(c: Control, me: Seen, e: MatrixSession.Event, log: seq<Cell>, id: RecordId)
    requires Flags(c) && Covered(c, log, id)
    requires c.refresh.Resealing? && me.reseal.ResealCommitted? ==> WasCommitted(log, id, c.refresh.credential)
    ensures Covered(React(c, me, e).c, log, id)
  {
    if OfRequest(e) { RequestCovered(c, me, e, log, id); }
    else if OfSeal(e) { SealCovered(c, me, e, log, id); }
    else if OfStop(e) { StopCovered(c, e, log, id); }
    else { LogoutCovered(c, me, e, log, id); }
  }

  /* ---- The vault part of a step ---- */

  ghost predicate Follows(v: World, w: World, me: nat) {
    && me in v.leases && me in w.leases
    && v.log <= w.log
    && Continues(v.leases[me], w.leases[me])
  }

  ghost predicate Later(v: World, w: World, me: nat) {
    Inv(w) && Follows(v, w, me)
  }

  lemma ContinuesTrans(l: Lease, m: Lease, k: Lease)
    requires Continues(l, m) && Continues(m, k)
    ensures Continues(l, k)
  {
    forall n: nat | RequestAt(l, n).Some? ensures RequestAt(k, n) == RequestAt(l, n) {
      assert RequestAt(m, n) == RequestAt(l, n);
    }
  }

  lemma LaterStep(v: World, w: World, me: nat, e: SessionVault.Event)
    requires Later(v, w, me) && e != WindowClosed(me)
    ensures Later(v, Step(w, e), me)
  {
    VaultStepFacts(w, e, me);
    ContinuesTrans(v.leases[me], w.leases[me], Step(w, e).leases[me]);
  }

  lemma {:induction false} PerformLater(v: World, w: World, me: nat, runtime: nat, asks: seq<Ask>)
    requires Later(v, w, me)
    ensures Later(v, Perform(w, me, runtime, asks), me)
    decreases |asks|
  {
    if asks != [] {
      var e := match asks[0] case OnLease(m) => LeaseMove(me, m) case ReleaseLocks => Abandon(runtime);
      LaterStep(v, w, me, e);
      PerformLater(v, Step(w, e), me, runtime, asks[1..]);
    }
  }

  /** An accepted call takes the next number. */
  lemma CallTakesNumber(w: World, me: nat, runtime: nat, request: Request)
    requires me in w.leases && w.leases[me].dek.Some?
    ensures var l, m := w.leases[me], Perform(w, me, runtime, [OnLease(Call(request))]);
            me in m.leases && RequestAt(m.leases[me], |l.answers| + |l.chain|) == Some(request)
  {
    var asks := [OnLease(Call(request))];
    var m := Step(w, LeaseMove(me, Call(request)));
    assert asks[1..] == [];
    assert Perform(m, me, runtime, asks[1..]) == m;
    assert m.leases[me] == w.leases[me].(chain := w.leases[me].chain + [Job(request, Waiting)]);
  }

  /* ---- Awaited answers ---- */

  /** The awaited calls are the ones this service made. */
  ghost predicate Tickets(c: Control, l: Lease) {
    && (c.refresh.Resealing? ==>
          exists next: Session :: RequestAt(l, c.refresh.call) == Some(ResealTo(Some(next))) && next.credential == c.refresh.credential)
    && (c.logout.DeletingRecord? ==> RequestAt(l, c.logout.call) == Some(DeleteRecord))
  }

  lemma TicketsLater(c: Control, l: Lease, m: Lease)
    requires Tickets(c, l) && Continues(l, m)
    ensures Tickets(c, m)
  {
  }

  /** The step waits for no new answer. */
  predicate SameAwaited(c: Control, d: Control) {
    && (d.refresh.Resealing? ==>
          c.refresh.Resealing? && d.refresh.call == c.refresh.call && d.refresh.credential == c.refresh.credential)
    && (d.logout.DeletingRecord? ==> c.logout.DeletingRecord? && d.logout.call == c.logout.call)
  }

  lemma RequestAwaits(c: Control, me: Seen, e: MatrixSession.Event)
    ensures SameAwaited(c, RequestReaction(c, me, e).c)
  {
  }

  lemma DiscardAwaits(c: Control, confirmed: bool)
    ensures SameAwaited(c, DiscardRevoked(c, confirmed).c)
  {
    if c.refresh.Discarding? || c.refresh.Unsealed? {
      var d := Revoked(c, c.refresh.credential, confirmed);
      InvalidatingOnlyEnds(SettleRefresh(d, RefreshFailed), SessionLocked);
      InvalidatingOnlyEnds(SettleRefresh(d, RevocationUnconfirmed), UnconfirmedRevocation);
    }
  }

  lemma SealAwaits(c: Control, me: Seen, e: MatrixSession.Event)
    requires e.ResumeRefresh? ==> !c.refresh.Responded?
    ensures SameAwaited(c, SealReaction(c, me, e).c)
  {
    match e
    case ResealSettled =>
    case RevocationSettled(confirmed) => DiscardAwaits(c, confirmed);
    case _ =>
  }

  lemma StopAwaits(c: Control, e: MatrixSession.Event)
    ensures SameAwaited(c, StopReaction(c, e).c)
  {
    StopLedger(c, e);
  }

  lemma LogoutAwaits(c: Control, me: Seen, e: MatrixSession.Event)
    requires !e.CallLogout?
    ensures SameAwaited(c, LogoutReaction(c, me, e).c)
  {
    if e.DatabasesRemoved? || e.AbortSettled? { LogoutEnds(c, me, e); }
  }

  lemma QuietAwaits(c: Control, me: Seen, e: MatrixSession.Event)
    requires !e.CallLogout? && (e.ResumeRefresh? ==> !c.refresh.Responded?)
    ensures SameAwaited(c, React(c, me, e).c)
  {
    if OfRequest(e) { RequestAwaits(c, me, e); }
    else if OfSeal(e) { SealAwaits(c, me, e); }
    else if OfStop(e) { StopAwaits(c, e); }
    else { LogoutAwaits(c, me, e); }
  }

  lemma SameAwaitedTickets(c: Control, d: Control, l: Lease)
    requires Tickets(c, l) && SameAwaited(c, d)
    ensures Tickets(d, l)
  {
  }

  lemma ResumeTickets(c: Control, w: World, me: nat, runtime: nat, v: World)
    requires me in w.leases && Tickets(c, w.leases[me]) && c.refresh.Responded?
    requires v == Perform(w, me, runtime, ResumeRefreshed(c, Look(c, w.leases[me])).asks) && Follows(w, v, me)
    ensures Tickets(ResumeRefreshed(c, Look(c, w.leases[me])).c, v.leases[me])
  {
    var l := w.leases[me];
    TicketsLater(c, l, v.leases[me]);
    if c.mode == Running && l.dek.Some? {
      ResumeCalls(c, w, me, runtime, v);
    } else {
      SameAwaitedTickets(c, ResumeRefreshed(c, Look(c, l)).c, v.leases[me]);
    }
  }

  lemma ResumeCalls(c: Control, w: World, me: nat, runtime: nat, v: World)
    requires me in w.leases && me in v.leases && c.refresh.Responded? && c.mode == Running && w.leases[me].dek.Some?
    requires v == Perform(w, me, runtime, ResumeRefreshed(c, Look(c, w.leases[me])).asks) && Tickets(c, v.leases[me])
    ensures Tickets(ResumeRefreshed(c, Look(c, w.leases[me])).c, v.leases[me])
  {
    var l := w.leases[me];
    var next := c.refresh.base.(credential := c.refresh.credential);
    var call := |l.answers| + |l.chain|;
    assert ResumeRefreshed(c, Look(c, l)) == Reaction(c.(refresh := Resealing(next.credential, call)), [OnLease(Call(ResealTo(Some(next))))]);
    CallTakesNumber(w, me, runtime, ResealTo(Some(next)));
    ResealTicket(c, v.leases[me], next, call);
  }

  lemma ResealTicket(c: Control, l: Lease, next: Session, call: nat)
    requires Tickets(c, l) && RequestAt(l, call) == Some(ResealTo(Some(next)))
    ensures Tickets(c.(refresh := Resealing(next.credential, call)), l)
  {
  }

  lemma LogoutTickets(c: Control, w: World, me: nat, runtime: nat, v: World)
    requires me in w.leases && Tickets(c, w.leases[me])
    requires v == Perform(w, me, runtime, BeginLogout(c, Look(c, w.leases[me])).asks) && Follows(w, v, me)
    ensures Tickets(BeginLogout(c, Look(c, w.leases[me])).c, v.leases[me])
  {
    TicketsLater(c, w.leases[me], v.leases[me]);
    if c.logout.NoLogout? && c.leaseHeld && w.leases[me].dek.Some? {
      CallTakesNumber(w, me, runtime, DeleteRecord);
    }
  }

  lemma TicketsKept(c: Control, w: World, me: nat, runtime: nat, e: MatrixSession.Event, v: World)
    requires me in w.leases && Tickets(c, w.leases[me])
    requires v == Perform(w, me, runtime, React(c, Look(c, w.leases[me]), e).asks) && Follows(w, v, me)
    ensures Tickets(React(c, Look(c, w.leases[me]), e).c, v.leases[me])
  {
    var seen := Look(c, w.leases[me]);
    if e.CallLogout? {
      LogoutTickets(c, w, me, runtime, v);
    } else if e.ResumeRefresh? && c.refresh.Responded? {
      ResumeTickets(c, w, me, runtime, v);
    } else {
      TicketsLater(c, w.leases[me], v.leases[me]);
      QuietAwaits(c, seen, e);
      SameAwaitedTickets(c, React(c, seen, e).c, v.leases[me]);
    }
  }

  /* ---- The final session and what logout leaves behind ---- */

  ghost predicate FinalKnown(c: Control, log: seq<Cell>, id: RecordId) {
    c.logout.EndingRemote? ==>
      && (exists k :: FinalAt(log, id, c.logout.final, k))
      && (c.logout.remote.Confirmed? ==> c.logout.final.credential in c.ledger.revoked)
  }

  /** Revoked, or overtaken by a committed successor. */
  ghost predicate Ended(c: Control, log: seq<Cell>, id: RecordId, credential: int) {
    credential in c.ledger.revoked || Superseded(log, id, credential)
  }

  ghost predicate NothingLeft(c: Control, log: seq<Cell>, id: RecordId) {
    && Buried(log, id)
    && (forall k :: k in c.ledger.issued ==> Ended(c, log, id, k))
    && (forall k :: WasCommitted(log, id, k) ==> Ended(c, log, id, k))
  }

  ghost predicate TruthfulLogout(c: Control, log: seq<Cell>, id: RecordId) {
    c.inTime && SaidEnded(c.logout) ==> NothingLeft(c, log, id)
  }

  lemma HoldsLater(log: seq<Cell>, more: seq<Cell>, id: RecordId, credential: int, k: nat)
    requires log <= more && k < |log|
    ensures HoldsAt(log, id, credential, k) <==> HoldsAt(more, id, credential, k)
  {
  }

  lemma CommittedLater(log: seq<Cell>, more: seq<Cell>, id: RecordId, credential: int)
    requires log <= more
    ensures WasCommitted(log, id, credential) ==> WasCommitted(more, id, credential)
    ensures Superseded(log, id, credential) ==> Superseded(more, id, credential)
  {
    if k: nat :| HoldsAt(log, id, credential, k) { HoldsLater(log, more, id, credential, k); }
    if a: nat, b: nat, d: int :| a < b && credential != d && HoldsAt(log, id, credential, a) && HoldsAt(log, id, d, b) {
      HoldsLater(log, more, id, credential, a);
      HoldsLater(log, more, id, d, b);
    }
  }

  /** Once the id is buried, no credential is committed under it any more. */
  lemma BuriedCommitsNothing(log: seq<Cell>, more: seq<Cell>, id: RecordId, credential: int)
    requires log <= more && Ordered(more) && Buried(log, id) && WasCommitted(more, id, credential)
    ensures WasCommitted(log, id, credential)
  {
    var b: nat :| b < |log| && log[b].Tombstone? && log[b].recordId == id;
    var k: nat :| HoldsAt(more, id, credential, k);
    var same := SameId(more[b], more[k]);
    HoldsLater(log, more, id, credential, k);
  }

  lemma LedgerLater(c: Control, log: seq<Cell>, more: seq<Cell>, id: RecordId)
    requires log <= more && Ordered(more)
    requires Covered(c, log, id) && FinalKnown(c, log, id) && TruthfulLogout(c, log, id)
    ensures Covered(c, more, id) && FinalKnown(c, more, id) && TruthfulLogout(c, more, id)
  {
    forall k: int ensures WasCommitted(log, id, k) ==> WasCommitted(more, id, k)
      ensures Superseded(log, id, k) ==> Superseded(more, id, k)
    { CommittedLater(log, more, id, k); }
    if c.logout.EndingRemote? {
      var k :| FinalAt(log, id, c.logout.final, k);
      assert FinalAt(more, id, c.logout.final, k);
    }
    if c.inTime && SaidEnded(c.logout) { NothingLeftLater(c, log, more, id); }
  }

  lemma NothingLeftLater(c: Control, log: seq<Cell>, more: seq<Cell>, id: RecordId)
    requires log <= more && Ordered(more) && NothingLeft(c, log, id)
    ensures NothingLeft(c, more, id)
  {
    forall k: int | k in c.ledger.issued ensures Ended(c, more, id, k) { CommittedLater(log, more, id, k); }
    forall k: int | WasCommitted(more, id, k) ensures Ended(c, more, id, k) {
      BuriedCommitsNothing(log, more, id, k);
      CommittedLater(log, more, id, k);
    }
  }

  /** The moment the answer is computed: a true answer has every credential behind it. */
  lemma EvaluationIsTruthful(c: Control, log: seq<Cell>, id: RecordId)
    requires Flags(c) && Covered(c, log, id) && FinalKnown(c, log, id) && Ordered(log)
    requires c.inTime && !SaidEnded(c.logout) && SaidEnded(EvaluateLogout(c).logout)
    ensures NothingLeft(EvaluateLogout(c), log, id)
  {
    var k :| FinalAt(log, id, c.logout.final, k);
    assert !Doubt(c) && !Active(c.refresh);
    forall x: int | WasCommitted(log, id, x) ensures Ended(c, log, id, x) {
      CommittedOrFinal(log, id, c.logout.final, k, x);
    }
  }

  /** A ledger step that adds no issued credential keeps a finished logout truthful. */
  ghost predicate LedgerGrows(c: Control, d: Control) {
    c.ledger.revoked <= d.ledger.revoked && d.ledger.issued <= c.ledger.issued
  }

  lemma TruthKept(c: Control, d: Control, log: seq<Cell>, id: RecordId)
    requires NothingLeft(c, log, id) && LedgerGrows(c, d)
    ensures NothingLeft(d, log, id)
  {
  }

  /** Nothing can be issued any more once a logout called in time has answered yes. */
  lemma RequestLedger(c: Control, me: Seen, e: MatrixSession.Event)
    requires OfRequest(e)
    ensures var d := RequestReaction(c, me, e).c;
            && d.inTime == c.inTime && d.logout == c.logout
            && c.ledger.revoked <= d.ledger.revoked
            && (!c.refresh.Requesting? && c.ledger.late <= 0 ==> d.ledger.issued == c.ledger.issued)
  {
    match e
    case RefreshTokens =>
    case TokenResponse(credential) =>
    case TokenRejected =>
    case Deadline => DeadlineLedger(c);
    case LateResponse(credential) =>
    case LateRevocation(credential, confirmed) =>
  }

  lemma DeadlineLedger(c: Control)
    ensures OnlyEnds(SettleRefresh(TimedOut(c), RevocationUnconfirmed), DeadlinePassed(c).c)
  {
    InvalidatingOnlyEnds(SettleRefresh(TimedOut(c), RevocationUnconfirmed), UnconfirmedRevocation);
  }

  lemma RequestTruth(c: Control, me: Seen, e: MatrixSession.Event, log: seq<Cell>, id: RecordId)
    requires Flags(c) && TruthfulLogout(c, log, id) && FinalKnown(c, log, id) && OfRequest(e)
    ensures TruthfulLogout(RequestReaction(c, me, e).c, log, id)
    ensures FinalKnown(RequestReaction(c, me, e).c, log, id)
  {
    RequestLedger(c, me, e);
    if c.inTime && SaidEnded(c.logout) { TruthKept(c, RequestReaction(c, me, e).c, log, id); }
  }

  lemma SealTruth(c: Control, me: Seen, e: MatrixSession.Event, log: seq<Cell>, id: RecordId)
    requires TruthfulLogout(c, log, id) && FinalKnown(c, log, id) && OfSeal(e)
    ensures TruthfulLogout(SealReaction(c, me, e).c, log, id)
    ensures FinalKnown(SealReaction(c, me, e).c, log, id)
  {
    var d := SealReaction(c, me, e).c;
    SealLedger(c, me, e);
    if c.inTime && SaidEnded(c.logout) { TruthKept(c, d, log, id); }
  }

  lemma SealLedger(c: Control, me: Seen, e: MatrixSession.Event)
    requires OfSeal(e)
    ensures var d := SealReaction(c, me, e).c;
            LedgerGrows(c, d) && d.inTime == c.inTime && d.logout == c.logout
  {
    match e
    case RevocationSettled(confirmed) => DiscardLedger(c, confirmed);
    case ResumeRefresh => if c.refresh.Responded? { ResumingOnlyResumes(c, me); }
    case ResealSettled =>
    case RefreshTaskCleared =>
  }

  lemma ResumingOnlyResumes(c: Control, me: Seen)
    requires c.refresh.Responded?
    ensures ResumeRefreshed(c, me).c == c.(refresh := ResumeRefreshed(c, me).c.refresh)
  {
  }

  lemma UnsealedLedger(c: Control, confirmed: bool)
    ensures var d := UnsealedRevoked(c, confirmed).c;
            d.ledger == c.ledger && d.inTime == c.inTime && d.logout == c.logout
  {
    InvalidatingOnlyEnds(SettleRefresh(c, RefreshFailed), SessionLocked);
    InvalidatingOnlyEnds(SettleRefresh(c, RevocationUnconfirmed), UnconfirmedRevocation);
  }

  lemma DiscardLedger(c: Control, confirmed: bool)
    ensures var d := DiscardRevoked(c, confirmed).c;
            LedgerGrows(c, d) && d.inTime == c.inTime && d.logout == c.logout
  {
    if c.refresh.Discarding? || c.refresh.Unsealed? {
      UnsealedLedger(Revoked(c, c.refresh.credential, confirmed), confirmed);
    }
  }

  lemma ReleasingOnlyEnds(c: Control)
    ensures OnlyEnds(c, StopRelease(c).c)
  {
  }

  lemma HidingOnlyEnds(c: Control)
    ensures OnlyEnds(c, HidePage(c).c) && OnlyEnds(c, HideRelease(c).c)
  {
  }

  lemma StopLedger(c: Control, e: MatrixSession.Event)
    ensures OnlyEnds(c, StopReaction(c, e).c)
  {
    match e
    case Stop => StoppingOnlyEnds(c);
    case Takeover => InvalidatingOnlyEnds(c, SessionLocked);
    case StopReleased => ReleasingOnlyEnds(c);
    case PageHide => HidingOnlyEnds(c);
    case HideReleased => HidingOnlyEnds(c);
    case _ =>
  }

  lemma StopTruth(c: Control, e: MatrixSession.Event, log: seq<Cell>, id: RecordId)
    requires TruthfulLogout(c, log, id) && FinalKnown(c, log, id)
    ensures TruthfulLogout(StopReaction(c, e).c, log, id)
    ensures FinalKnown(StopReaction(c, e).c, log, id)
  {
    var d := StopReaction(c, e).c;
    StopLedger(c, e);
    if c.inTime && SaidEnded(c.logout) { TruthKept(c, d, log, id); }
  }

  /** The deletion's answer names the final session. */
  ghost predicate DeletionTells(me: Seen, log: seq<Cell>, id: RecordId) {
    me.deletion.DeletedWith? ==> exists k :: FinalAt(log, id, me.deletion.session, k)
  }

  lemma AnsweredTruth(c: Control, me: Seen, log: seq<Cell>, id: RecordId)
    requires DeletionTells(me, log, id) && c.logout.DeletingRecord?
    ensures TruthfulLogout(DeletionAnswered(c, me.deletion), log, id)
    ensures FinalKnown(DeletionAnswered(c, me.deletion), log, id)
  {
  }

  lemma RemoteTruth(c: Control, confirmed: bool, log: seq<Cell>, id: RecordId)
    requires FinalKnown(c, log, id) && c.logout.EndingRemote?
    ensures TruthfulLogout(RemoteAnswered(c, confirmed), log, id)
    ensures FinalKnown(RemoteAnswered(c, confirmed), log, id)
  {
  }

  lemma EvaluatedTruth(c: Control, log: seq<Cell>, id: RecordId)
    requires Flags(c) && Covered(c, log, id) && Ordered(log)
    requires TruthfulLogout(c, log, id) && FinalKnown(c, log, id)
    ensures TruthfulLogout(EvaluateLogout(c), log, id)
    ensures FinalKnown(EvaluateLogout(c), log, id)
  {
    if c.inTime && !SaidEnded(c.logout) && SaidEnded(EvaluateLogout(c).logout) { EvaluationIsTruthful(c, log, id); }
  }

  lemma FinishedTruth(c: Control, logout: Logout, log: seq<Cell>, id: RecordId)
    requires TruthfulLogout(c, log, id) && !logout.EndingRemote?
    requires SaidEnded(logout) ==> SaidEnded(c.logout)
    ensures TruthfulLogout(FinishLogout(c, logout).c, log, id)
    ensures FinalKnown(FinishLogout(c, logout).c, log, id)
  {
    if c.inTime && SaidEnded(logout) { TruthKept(c, FinishLogout(c, logout).c, log, id); }
  }

  lemma CallTruth(c: Control, me: Seen, log: seq<Cell>, id: RecordId)
    requires TruthfulLogout(c, log, id) && FinalKnown(c, log, id)
    ensures TruthfulLogout(BeginLogout(c, me).c, log, id) && FinalKnown(BeginLogout(c, me).c, log, id)
  {
  }

  lemma LogoutTruth(c: Control, me: Seen, e: MatrixSession.Event, log: seq<Cell>, id: RecordId)
    requires Flags(c) && Covered(c, log, id) && Ordered(log)
    requires TruthfulLogout(c, log, id) && FinalKnown(c, log, id) && DeletionTells(me, log, id)
    ensures TruthfulLogout(LogoutReaction(c, me, e).c, log, id)
    ensures FinalKnown(LogoutReaction(c, me, e).c, log, id)
  {
    match e
    case CallLogout => CallTruth(c, me, log, id);
    case DeletionSettled => if c.logout.DeletingRecord? { AnsweredTruth(c, me, log, id); }
    case RemoteLogoutSettled(confirmed) => if c.logout.EndingRemote? { RemoteTruth(c, confirmed, log, id); }
    case LogoutEvaluated => EvaluatedTruth(c, log, id);
    case DatabasesRemoved(ok) =>
      if c.logout.RemovingDatabases? { FinishedTruth(c, if ok then LoggedOut(c.logout.ended) else LogoutFailed, log, id); }
    case AbortSettled => FinishedTruth(c, LogoutFailed, log, id);
    case _ =>
  }

  /* ---- The invariant of a service in its vault ---- */

  ghost function MyId(s: Service): RecordId
    requires s.me in s.vault.leases
  {
    s.vault.leases[s.me].record.recordId
  }

  ghost predicate Books(c: Control, log: seq<Cell>, id: RecordId) {
    Covered(c, log, id) && FinalKnown(c, log, id) && TruthfulLogout(c, log, id)
  }

  ghost predicate SInv(s: Service) {
    && Inv(s.vault)
    && s.me in s.vault.leases
    && Flags(s.c) && Counted(s.c)
    && Tickets(s.c, s.vault.leases[s.me])
    && Books(s.c, s.vault.log, MyId(s))
  }

  lemma BooksKept(c: Control, me: Seen, e: MatrixSession.Event, log: seq<Cell>, id: RecordId)
    requires Flags(c) && Books(c, log, id) && Ordered(log) && DeletionTells(me, log, id)
    requires c.refresh.Resealing? && me.reseal.ResealCommitted? ==> WasCommitted(log, id, c.refresh.credential)
    ensures Books(React(c, me, e).c, log, id)
  {
    CoveredKept(c, me, e, log, id);
    if OfRequest(e) { RequestTruth(c, me, e, log, id); }
    else if OfSeal(e) { SealTruth(c, me, e, log, id); }
    else if OfStop(e) { StopTruth(c, e, log, id); }
    else { LogoutTruth(c, me, e, log, id); }
  }

  /** What the vault proves about the two awaited answers. */
  lemma AnswersTell(c: Control, log: seq<Cell>, l: Lease)
    requires LeaseOk(log, l) && Tickets(c, l)
    ensures DeletionTells(Look(c, l), log, l.record.recordId)
    ensures c.refresh.Resealing? && Look(c, l).reseal.ResealCommitted? ==> WasCommitted(log, l.record.recordId, c.refresh.credential)
  {
    if Look(c, l).deletion.DeletedWith? { DeletionNamesFinal(log, l, c.logout.call); }
    if c.refresh.Resealing? && Look(c, l).reseal.ResealCommitted? { ResealCommits(c, log, l); }
  }

  lemma ResealCommits(c: Control, log: seq<Cell>, l: Lease)
    requires LeaseOk(log, l) && Tickets(c, l) && c.refresh.Resealing? && ResealAnswerTo(l, c.refresh.call).ResealCommitted?
    ensures WasCommitted(log, l.record.recordId, c.refresh.credential)
  {
    var a := l.answers[c.refresh.call];
    assert AnswerOk(log, l.record.recordId, a);
    assert RequestAt(l, c.refresh.call) == Some(a.request);
    var k :| 0 <= k < |log| && log[k] == Cell.Locked(a.outcome.next);
    assert HoldsAt(log, l.record.recordId, c.refresh.credential, k);
  }

  lemma DeletionNamesFinal(log: seq<Cell>, l: Lease, call: nat)
    requires LeaseOk(log, l) && DeletionAnswerTo(l, call).DeletedWith?
    ensures exists k :: FinalAt(log, l.record.recordId, l.answers[call].outcome.session, k)
  {
    var a := l.answers[call];
    assert AnswerOk(log, l.record.recordId, a);
    var o := a.outcome;
    var k, target :| DeletedAt(log, k, o.session, target) && target.recordId == l.record.recordId && o.cleanup == CleanupFor(target);
    assert FinalAt(log, l.record.recordId, o.session, k);
  }

  lemma VaultKeepsSInv(s: Service, v: SessionVault.Event)
    requires SInv(s) && v != WindowClosed(s.me)
    ensures SInv(s.(vault := Step(s.vault, v)))
  {
    VaultStepFacts(s.vault, v, s.me);
    var w := Step(s.vault, v);
    TicketsLater(s.c, s.vault.leases[s.me], w.leases[s.me]);
    LedgerLater(s.c, s.vault.log, w.log, MyId(s));
  }

  lemma ReactionKeepsSInv(s: Service, e: MatrixSession.Event)
    requires SInv(s)
    ensures SInv(Next(s, Occurs(e)))
  {
    var l := s.vault.leases[s.me];
    var me := Look(s.c, l);
    var r := React(s.c, me, e);
    var v := Perform(s.vault, s.me, s.runtime, r.asks);
    assert LeaseOk(s.vault.log, l);
    PerformLater(s.vault, s.vault, s.me, s.runtime, r.asks);
    FlagsKept(s.c, me, e);
    CountedKept(s.c, me, e);
    AnswersTell(s.c, s.vault.log, l);
    BooksKept(s.c, me, e, s.vault.log, MyId(s));
    TicketsKept(s.c, s.vault, s.me, s.runtime, e, v);
    LedgerLater(r.c, s.vault.log, v.log, MyId(s));
    assert Next(s, Occurs(e)) == s.(vault := v, c := r.c);
  }

  lemma NextKeepsSInv(s: Service, h: Happening)
    requires SInv(s)
    ensures SInv(Next(s, h)) && Next(s, h).me == s.me
  {
    match h
    case VaultMoves(v) => if v != WindowClosed(s.me) { VaultKeepsSInv(s, v); }
    case Occurs(e) => ReactionKeepsSInv(s, e);
  }

  /* ---- Runs and main results ---- */

  lemma {:induction false} RunKeepsSInv(s: Service, hs: seq<Happening>)
    requires SInv(s)
    ensures SInv(RunService(s, hs)) && RunService(s, hs).me == s.me
    decreases |hs|
  {
    if hs != [] {
      NextKeepsSInv(s, hs[0]);
      RunKeepsSInv(Next(s, hs[0]), hs[1..]);
    }
  }

  /** A run of a started service. */
  ghost predicate ServiceRun(s: Service, hs: seq<Happening>, t: Service) {
    Starts(s) && t == RunService(s, hs)
  }

  lemma ServiceRunInv(s: Service, hs: seq<Happening>, t: Service)
    requires ServiceRun(s, hs, t)
    ensures SInv(t)
  {
    StartsSInv(s);
    RunKeepsSInv(s, hs);
  }

  /** A service that has just started, in any reachable vault in which its lease lives. */
  ghost predicate Starts(s: Service) {
    Reachable(s.vault) && s.me in s.vault.leases && JustStarted(s.c)
  }

  lemma StartsSInv(s: Service)
    requires Starts(s)
    ensures SInv(s)
  {
    ReachableInv(s.vault);
  }

  /**
  If logout() was called in time and returns remoteSessionEnded = true, then in every interleaving each credential ever
  issued to it, and each ever committed to its record, was overtaken by another
  committed later or had its revocation confirmed; no request is
  outstanding, and its record is gone for good.
  */
  lemma LogoutIsSound(s: Service, hs: seq<Happening>, t: Service, credential: int)
    requires ServiceRun(s, hs, t) && t.c.inTime && t.c.logout == LoggedOut(true)
    ensures t.me in t.vault.leases && Buried(t.vault.log, MyId(t))
    ensures t.c.ledger.late == 0 && !Active(t.c.refresh)
    ensures credential in t.c.ledger.issued || WasCommitted(t.vault.log, MyId(t), credential) ==>
      credential in t.c.ledger.revoked || Superseded(t.vault.log, MyId(t), credential)
  {
    ServiceRunInv(s, hs, t);
    assert NothingLeft(t.c, t.vault.log, MyId(t));
    var ended := Ended(t.c, t.vault.log, MyId(t), credential);
  }

  /**
  On a service stopped by stop(), a takeover, the refresh deadline or a failed
  reseal: once its ownership locks are released, either every issued credential
  is in the vault or confirmed revoked and no request is outstanding, or the
  unconfirmed-revocation callback has already fired, exactly once.
  */
  lemma UncertaintyIsReported(s: Service, hs: seq<Happening>, t: Service)
    requires ServiceRun(s, hs, t) && t.c.mode == Stopping && !t.c.locksHeld
    ensures t.me in t.vault.leases
    ensures
      || Reports(t.c.report.callbacks) == 1
      || (Reports(t.c.report.callbacks) == 0 && t.c.ledger.late == 0
          && forall k :: k in t.c.ledger.issued ==> Accounted(t.c, t.vault.log, MyId(t), k))
  {
    ServiceRunInv(s, hs, t);
    assert Flags(t.c) && Counted(t.c) && Covered(t.c, t.vault.log, MyId(t));
  }

  /** In no run, whatever the shutdown, does the unconfirmed-revocation callback fire twice. */
  lemma UncertaintyReportedAtMostOnce(s: Service, hs: seq<Happening>, t: Service)
    requires ServiceRun(s, hs, t)
    ensures Reports(t.c.report.callbacks) <= 1
  {
    ServiceRunInv(s, hs, t);
  }

  /** Released by stop: nothing active, and all that had to be said has been. */
  predicate Closed(c: Control) {
    && (c.mode == Stopping || c.mode == PageHidden) && !c.locksHeld && !c.leaseHeld && c.logout.NoLogout?
    && !Active(c.refresh)
    && (c.report.uncertain || SettledUnconfirmed(c.refresh) ==> c.report.reported)
  }

  lemma ClosedRequest(c: Control, me: Seen, e: MatrixSession.Event)
    requires Closed(c)
    ensures Closed(RequestReaction(c, me, e).c) && RequestReaction(c, me, e).c.report == c.report
  {
  }

  lemma ClosedSeal(c: Control, me: Seen, e: MatrixSession.Event)
    requires Closed(c)
    ensures Closed(SealReaction(c, me, e).c) && SealReaction(c, me, e).c.report == c.report
  {
  }

  lemma ClosedStop(c: Control, e: MatrixSession.Event)
    requires Closed(c)
    ensures Closed(StopReaction(c, e).c) && StopReaction(c, e).c.report == c.report
  {
  }

  lemma ClosedLogout(c: Control, me: Seen, e: MatrixSession.Event)
    requires Closed(c)
    ensures LogoutReaction(c, me, e).c == c
  {
  }

  lemma ClosedStays(s: Service, h: Happening)
    requires Closed(s.c)
    ensures Closed(Next(s, h).c) && Next(s, h).c.report == s.c.report
  {
    if h.Occurs? && s.me in s.vault.leases {
      var me := Look(s.c, s.vault.leases[s.me]);
      ClosedRequest(s.c, me, h.e);
      ClosedSeal(s.c, me, h.e);
      ClosedStop(s.c, h.e);
      ClosedLogout(s.c, me, h.e);
    }
  }

  lemma {:induction false} ClosedForGood(s: Service, hs: seq<Happening>)
    requires Closed(s.c)
    ensures Closed(RunService(s, hs).c) && RunService(s, hs).c.report == s.c.report
    decreases |hs|
  {
    if hs != [] {
      ClosedStays(s, hs[0]);
      ClosedForGood(Next(s, hs[0]), hs[1..]);
    }
  }

  /** What was said before the locks were released is final: nothing that follows adds a callback. */
  lemma NothingIsSaidAfterRelease(s: Service, hs: seq<Happening>, t: Service, more: seq<Happening>)
    requires ServiceRun(s, hs, t) && t.c.mode == Stopping && !t.c.locksHeld
    ensures RunService(t, more).c.report == t.c.report
  {
    ServiceRunInv(s, hs, t);
    assert Closed(t.c);
    ClosedForGood(t, more);
  }
}

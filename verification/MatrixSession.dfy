/**
Token refresh, logout and stop of a started MatrixService
(lib/matrix/client.ts), on top of the session vault.  A function is the code
between two awaits; the vault, other tabs and the network answer in any order.
*/
module MatrixSession {
  import opened Basics
  import opened SessionVault

  /** `shutdownMode`; `stopped` is every mode but Running. */
  datatype Mode = Running | Stopping | LoggingOut | PageHidden

  /** How the refresh promise settled. */
  datatype Settlement =
    | Fulfilled
    | CommittedDuringShutdown
    | Discarded(confirmed: bool)
    | RevocationUnconfirmed
    | RefreshFailed

  datatype Refresh =
    | Idle
    | Requesting(base: Session)                    // the token request is out and its deadline armed
    | Responded(base: Session, credential: int)
    | Resealing(credential: int, call: nat)        // waiting for the lease's answer number `call`
    | Discarding(credential: int)                  // stopped before the reseal; revoking
    | Unsealed(credential: int)                    // the reseal failed; revoking
    | Settled(how: Settlement)

  /** The answer to a bounded revocation of the final session. */
  datatype Verdict = NoVerdict | Confirmed | NotConfirmed

  datatype Logout =
    | NoLogout
    | DeletingRecord(call: nat, awaits: bool)
    | Aborting(awaits: bool)
    | EndingRemote(final: Session, remote: Verdict, awaits: bool)
    | RemovingDatabases(ended: bool)
    | LoggedOut(remoteSessionEnded: bool)
    | LogoutFailed

  /** What onSessionInvalidated received. */
  datatype Callback = SessionLocked | UnconfirmedRevocation

  /** What has been said through onSessionInvalidated, and what must still be said. */
  datatype Report = Report(
    uncertain: bool,         // refreshSessionEndUncertain
    invalidated: bool,       // invalidationReported
    reported: bool,          // revocationUncertaintyReported
    callbacks: seq<Callback>)

  /** Credentials on the server's side. */
  datatype Ledger = Ledger(
    issued: set<int>,        // credentials a token endpoint has issued to this service
    revoked: set<int>,       // credentials whose revocation was confirmed
    late: int,               // timed-out requests that may still answer
    lateDiscards: set<int>)  // their credentials, revoked best-effort

  /** The fields of MatrixService, and what the token endpoint and the homeserver have done. */
  datatype Control = Control(
    mode: Mode,
    refresh: Refresh,
    refreshTask: bool,       // this.refreshTask !== null
    leaseHeld: bool,         // this.lease !== null
    locksHeld: bool,
    stopRelease: bool,       // pendingStopReleaseTask !== null
    hideRelease: bool,       // pageHideReleaseTask !== null
    logout: Logout,
    inTime: bool,            // logout() was called, and InTime held
    report: Report,
    ledger: Ledger)

  datatype Event =
    | RefreshTokens
    | TokenResponse(credential: int)
    | TokenRejected
    | Deadline
    | LateResponse(credential: int)
    | LateRevocation(credential: int, confirmed: bool)
    | ResumeRefresh
    | ResealSettled
    | RevocationSettled(confirmed: bool)
    | RefreshTaskCleared
    | CallLogout
    | DeletionSettled
    | RemoteLogoutSettled(confirmed: bool)
    | LogoutEvaluated
    | DatabasesRemoved(ok: bool)
    | AbortSettled
    | Stop
    | Takeover
    | StopReleased
    | PageHide
    | HideReleased

  /** What a segment asks of the vault: a call on its lease, or the release of its locks. */
  datatype Ask = OnLease(move: Move) | ReleaseLocks

  datatype Reaction = Reaction(c: Control, asks: seq<Ask>)

  /** What a segment can see of its lease: whether it is active, and its awaited answers. */
  datatype Seen = Seen(
    session: Option<Session>,
    active: bool,
    nextCall: nat,
    reseal: ResealAnswer,
    deletion: DeletionAnswer)

  datatype ResealAnswer = NoResealYet | ResealCommitted | ResealRefused

  datatype DeletionAnswer = NoDeletionYet | DeletedWith(session: Session) | DeletionRefused

  function Look(c: Control, me: Lease): Seen {
    Seen(me.session, me.dek.Some?, |me.answers| + |me.chain|,
         if c.refresh.Resealing? then ResealAnswerTo(me, c.refresh.call) else NoResealYet,
         if c.logout.DeletingRecord? then DeletionAnswerTo(me, c.logout.call) else NoDeletionYet)
  }

  function ResealAnswerTo(me: Lease, call: nat): ResealAnswer {
    if |me.answers| <= call then NoResealYet
    else if me.answers[call].outcome.Resealed? then ResealCommitted else ResealRefused
  }

  function DeletionAnswerTo(me: Lease, call: nat): DeletionAnswer {
    if |me.answers| <= call then NoDeletionYet
    else if me.answers[call].outcome.DeletionDone? then DeletedWith(me.answers[call].outcome.session) else DeletionRefused
  }

  /* ---- Shared endings ---- */

  function Only(c: Control): Reaction { Reaction(c, []) }

  function Disposing(c: Control): Reaction {
    Reaction(c.(leaseHeld := false), if c.leaseHeld then [OnLease(Dispose)] else [])
  }

  function Unlocking(c: Control): Reaction {
    Reaction(c.(locksHeld := false), if c.locksHeld then [ReleaseLocks] else [])
  }

  function DisposingAndUnlocking(c: Control): Reaction {
    Reaction(c.(leaseHeld := false, locksHeld := false), Disposing(c).asks + Unlocking(c).asks)
  }

  function StopWithError(c: Control): Reaction {
    if c.mode == PageHidden || c.mode == LoggingOut then Only(c)
    else
      var d := c.(mode := Stopping);
      if d.stopRelease then Only(d)
      else if d.refreshTask then Only(d.(stopRelease := true))
      else DisposingAndUnlocking(d)
  }

  function Invalidate(c: Control, error: Callback): Reaction {
    if c.report.invalidated then Only(c)
    else
      StopWithError(c.(report := Report(
        c.report.uncertain,
        true,
        c.report.reported || error.UnconfirmedRevocation?,
        c.report.callbacks + [error])))
  }

  function ReportUncertainty(r: Report): Report {
    if r.reported then r else r.(reported := true, callbacks := r.callbacks + [UnconfirmedRevocation])
  }

  /** No endpoint issues a credential twice, so a confirmed revocation is always one from after the issue. */
  predicate Unused(g: Ledger, credential: int) { credential !in g.issued && credential !in g.revoked }

  function Issue(g: Ledger, credential: int): Ledger { g.(issued := g.issued + {credential}) }

  function Revoke(g: Ledger, credential: int, confirmed: bool): Ledger {
    if confirmed then g.(revoked := g.revoked + {credential}) else g
  }

  function IssueLate(g: Ledger, credential: int): Ledger {
    Issue(g, credential).(late := g.late - 1, lateDiscards := g.lateDiscards + {credential})
  }

  function RevokeLate(g: Ledger, credential: int, confirmed: bool): Ledger {
    Revoke(g, credential, confirmed).(lateDiscards := g.lateDiscards - {credential})
  }

  function Revoked(c: Control, credential: int, confirmed: bool): Control {
    c.(ledger := Revoke(c.ledger, credential, confirmed))
  }

  function SettleRefresh(c: Control, how: Settlement): Control {
    c.(refresh := Settled(how))
  }

  /* ---- Refresh ---- */

  function BeginRefresh(c: Control, me: Seen): Reaction {
    if c.refreshTask || c.mode != Running || !c.leaseHeld || me.session.None? then Only(c)
    else Only(c.(refresh := Requesting(me.session.value), refreshTask := true))
  }

  function TimedOut(c: Control): Control {
    c.(report := c.report.(uncertain := true), ledger := c.ledger.(late := c.ledger.late + 1))
  }

  function DeadlinePassed(c: Control): Reaction {
    Invalidate(SettleRefresh(TimedOut(c), RevocationUnconfirmed), UnconfirmedRevocation)
  }

  function ResumeRefreshed(c: Control, me: Seen): Reaction
    requires c.refresh.Responded?
  {
    var credential := c.refresh.credential;
    if c.mode != Running then Only(c.(refresh := Discarding(credential)))
    else if !me.active then Only(c.(refresh := Unsealed(credential)))
    else
      Reaction(c.(refresh := Resealing(credential, me.nextCall)),
               [OnLease(Call(ResealTo(Some(c.refresh.base.(credential := credential)))))])
  }

  function ResealAnswered(c: Control, answer: ResealAnswer): Control
    requires c.refresh.Resealing?
  {
    match answer
    case NoResealYet => c
    case ResealRefused => c.(refresh := Unsealed(c.refresh.credential))
    case ResealCommitted =>
      c.(refresh := Settled(if c.mode != Running || !c.leaseHeld then CommittedDuringShutdown else Fulfilled))
  }

  /** The revocation of credentials whose reseal failed, on a service still running. */
  function UnsealedRevoked(c: Control, confirmed: bool): Reaction {
    if confirmed then Invalidate(SettleRefresh(c, RefreshFailed), SessionLocked)
    else Invalidate(SettleRefresh(c, RevocationUnconfirmed), UnconfirmedRevocation)
  }

  function DiscardRevoked(c: Control, confirmed: bool): Reaction {
    if !c.refresh.Discarding? && !c.refresh.Unsealed? then Only(c)
    else
      var d := Revoked(c, c.refresh.credential, confirmed);
      if c.refresh.Unsealed? && c.mode == Running then UnsealedRevoked(d, confirmed)
      else Only(SettleRefresh(d, Discarded(confirmed)))
  }

  /* ---- Logout ---- */

  predicate SaysUnconfirmed(how: Settlement) {
    how.RevocationUnconfirmed? || (how.Discarded? && !how.confirmed)
  }

  predicate SettledUnconfirmed(r: Refresh) { r.Settled? && SaysUnconfirmed(r.how) }

  /**
  logout() can still learn of a revocation that stays unconfirmed: from the task
  it awaits or from the uncertainty mark.  What fails is the gap between the
  refresh task's `finally`, which clears the field, and the release continuation
  of an earlier stop, which alone reads the settlement then.
  */
  predicate InTime(c: Control) {
    c.refreshTask || !SettledUnconfirmed(c.refresh) || c.report.uncertain
  }

  function BeginLogout(c: Control, me: Seen): Reaction {
    if !c.logout.NoLogout? || !c.leaseHeld then Only(c)
    else
      var d := c.(mode := LoggingOut, inTime := InTime(c));
      if !me.active then Only(d.(logout := Aborting(c.refreshTask)))
      else Reaction(d.(logout := DeletingRecord(me.nextCall, c.refreshTask)), [OnLease(Call(DeleteRecord))])
  }

  function DeletionAnswered(c: Control, answer: DeletionAnswer): Control
    requires c.logout.DeletingRecord?
  {
    match answer
    case NoDeletionYet => c
    case DeletedWith(session) => c.(logout := EndingRemote(session, NoVerdict, c.logout.awaits))
    case DeletionRefused => c.(logout := Aborting(c.logout.awaits))
  }

  function RemoteAnswered(c: Control, confirmed: bool): Control
    requires c.logout.EndingRemote?
  {
    if confirmed
    then Revoked(c, c.logout.final.credential, true).(logout := EndingRemote(c.logout.final, Confirmed, c.logout.awaits))
    else c.(logout := EndingRemote(c.logout.final, NotConfirmed, c.logout.awaits))
  }

  predicate RefreshDone(c: Control, awaits: bool) {
    awaits ==> c.refresh.Settled?
  }

  predicate AccountedFor(how: Settlement) {
    how.Fulfilled? || how.CommittedDuringShutdown? || (how.Discarded? && how.confirmed)
  }

  function EvaluateLogout(c: Control): Control {
    if !c.logout.EndingRemote? || c.logout.remote.NoVerdict? || !RefreshDone(c, c.logout.awaits) then c
    else
      c.(logout := RemovingDatabases(
        c.logout.remote.Confirmed? && (c.logout.awaits ==> AccountedFor(c.refresh.how)) && !c.report.uncertain))
  }

  function FinishLogout(c: Control, logout: Logout): Reaction {
    DisposingAndUnlocking(c.(logout := logout))
  }

  /* ---- Stop ---- */

  function StopRelease(c: Control): Reaction {
    if !c.stopRelease || !c.refresh.Settled? then Only(c)
    else
      var report := if SaysUnconfirmed(c.refresh.how) || c.report.uncertain then ReportUncertainty(c.report) else c.report;
      var d := c.(stopRelease := false, report := report);
      if d.mode == Stopping then DisposingAndUnlocking(d) else Only(d)
  }

  function HidePage(c: Control): Reaction {
    if c.mode == PageHidden then Only(c)
    else if c.refreshTask || !c.logout.NoLogout? then Disposing(c.(mode := PageHidden, hideRelease := true))
    else DisposingAndUnlocking(c.(mode := PageHidden))
  }

  predicate LogoutOver(l: Logout) {
    l.NoLogout? || l.LoggedOut? || l.LogoutFailed?
  }

  function HideRelease(c: Control): Reaction {
    if c.hideRelease && (c.refreshTask ==> c.refresh.Settled?) && LogoutOver(c.logout)
    then Unlocking(c.(hideRelease := false)) else Only(c)
  }

  /* ---- One event, and runs ---- */

  /** The token endpoint's side of a refresh. */
  function RequestReaction(c: Control, me: Seen, e: Event): Reaction {
    match e
    case RefreshTokens => BeginRefresh(c, me)
    case TokenResponse(credential) =>
      Only(if c.refresh.Requesting? && Unused(c.ledger, credential)
           then c.(refresh := Responded(c.refresh.base, credential), ledger := Issue(c.ledger, credential)) else c)
    case TokenRejected => Only(if c.refresh.Requesting? then c.(refresh := Settled(RefreshFailed)) else c)
    case Deadline => if c.refresh.Requesting? then DeadlinePassed(c) else Only(c)
    case LateResponse(credential) =>
      Only(if c.ledger.late > 0 && Unused(c.ledger, credential) then c.(ledger := IssueLate(c.ledger, credential)) else c)
    case LateRevocation(credential, confirmed) =>
      Only(if credential in c.ledger.lateDiscards then c.(ledger := RevokeLate(c.ledger, credential, confirmed)) else c)
    case _ => Only(c)
  }

  /** What becomes of the credentials in hand. */
  function SealReaction(c: Control, me: Seen, e: Event): Reaction {
    match e
    case ResumeRefresh => if c.refresh.Responded? then ResumeRefreshed(c, me) else Only(c)
    case ResealSettled => Only(if c.refresh.Resealing? then ResealAnswered(c, me.reseal) else c)
    case RevocationSettled(confirmed) => DiscardRevoked(c, confirmed)
    case RefreshTaskCleared => Only(if c.refresh.Settled? then c.(refreshTask := false) else c)
    case _ => Only(c)
  }

  function LogoutReaction(c: Control, me: Seen, e: Event): Reaction {
    match e
    case CallLogout => BeginLogout(c, me)
    case DeletionSettled => Only(if c.logout.DeletingRecord? then DeletionAnswered(c, me.deletion) else c)
    case RemoteLogoutSettled(confirmed) =>
      Only(if c.logout.EndingRemote? && c.logout.remote.NoVerdict? then RemoteAnswered(c, confirmed) else c)
    case LogoutEvaluated => Only(EvaluateLogout(c))
    case DatabasesRemoved(ok) =>
      if c.logout.RemovingDatabases? then FinishLogout(c, if ok then LoggedOut(c.logout.ended) else LogoutFailed) else Only(c)
    case AbortSettled =>
      if c.logout.Aborting? && RefreshDone(c, c.logout.awaits) then FinishLogout(c, LogoutFailed) else Only(c)
    case _ => Only(c)
  }

  function StopReaction(c: Control, e: Event): Reaction {
    match e
    case Stop => StopWithError(c)
    case Takeover => if c.mode == Running then Invalidate(c, SessionLocked) else Only(c)
    case StopReleased => StopRelease(c)
    case PageHide => HidePage(c)
    case HideReleased => HideRelease(c)
    case _ => Only(c)
  }

  predicate OfRequest(e: Event) {
    e.RefreshTokens? || e.TokenResponse? || e.TokenRejected? || e.Deadline? || e.LateResponse? || e.LateRevocation?
  }

  predicate OfSeal(e: Event) {
    e.ResumeRefresh? || e.ResealSettled? || e.RevocationSettled? || e.RefreshTaskCleared?
  }

  predicate OfStop(e: Event) {
    e.Stop? || e.Takeover? || e.StopReleased? || e.PageHide? || e.HideReleased?
  }

  function React(c: Control, me: Seen, e: Event): Reaction {
    if OfRequest(e) then RequestReaction(c, me, e)
    else if OfSeal(e) then SealReaction(c, me, e)
    else if OfStop(e) then StopReaction(c, e)
    else LogoutReaction(c, me, e)
  }

  datatype Service = Service(vault: World, me: nat, runtime: nat, c: Control)

  /** A move of the vault (another tab, the lease's chain, a task) or an event of this service. */
  datatype Happening = VaultMoves(v: SessionVault.Event) | Occurs(e: Event)

  function Perform(w: World, me: nat, runtime: nat, asks: seq<Ask>): World
    decreases |asks|
  {
    if asks == [] then w
    else
      var e := match asks[0] case OnLease(m) => LeaseMove(me, m) case ReleaseLocks => Abandon(runtime);
      Perform(Step(w, e), me, runtime, asks[1..])
  }

  /** The window outlives its service: a move that would close it is not part of these runs. */
  function Next(s: Service, h: Happening): Service {
    if s.me !in s.vault.leases || h == VaultMoves(WindowClosed(s.me)) then s
    else match h
      case VaultMoves(v) => s.(vault := Step(s.vault, v))
      case Occurs(e) =>
        var r := React(s.c, Look(s.c, s.vault.leases[s.me]), e);
        s.(vault := Perform(s.vault, s.me, s.runtime, r.asks), c := r.c)
  }

  function RunService(s: Service, hs: seq<Happening>): Service
    decreases |hs|
  {
    if hs == [] then s else RunService(Next(s, hs[0]), hs[1..])
  }

  /** A started service holds the locks and its lease, and nothing is in flight. */
  predicate JustStarted(c: Control) {
    && c.mode == Running && c.refresh == Idle && !c.refreshTask
    && c.leaseHeld && c.locksHeld
    && !c.stopRelease && !c.hideRelease && c.logout.NoLogout? && !c.inTime
    && c.report == Report(false, false, false, [])
    && c.ledger.issued == {} && c.ledger.revoked == {} && c.ledger.late == 0 && c.ledger.lateDiscards == {}
  }
}

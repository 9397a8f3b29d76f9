/**
The MatrixService object (lib/matrix/client.ts): its lifecycle fields and the
code between its awaits.  Each method is proved to be the segment of
MatrixSession, so the results about runs are results about these methods.
What a method asks of its lease and its locks is its result.  Every segment
keeps `Valid`; the methods without it are called in the middle of one.
*/
module MatrixServiceObject {
  import opened Basics
  import opened SessionVault
  import opened MatrixSession
  import opened MatrixSessionProofs

  class MatrixService {
    var shutdownMode: Mode
    var refresh: Refresh
    var refreshTask: bool
    var lease: bool
    var locks: bool
    var pendingStopReleaseTask: bool
    var pageHideReleaseTask: bool
    var logoutTask: Logout
    var refreshSessionEndUncertain: bool
    var invalidationReported: bool
    var revocationUncertaintyReported: bool
    var callbacks: seq<Callback>
    ghost var inTime: bool
    ghost var ledger: Ledger

    ghost function View(): Control
      reads this
    {
      Control(shutdownMode, refresh, refreshTask, lease, locks, pendingStopReleaseTask, pageHideReleaseTask, logoutTask,
              inTime,
              Report(refreshSessionEndUncertain, invalidationReported, revocationUncertaintyReported, callbacks),
              ledger)
    }

    /** The flags agree, and the unconfirmed-revocation callback has fired exactly if it is marked as reported. */
    ghost predicate Valid()
      reads this
    {
      Flags(View()) && Counted(View())
    }

    constructor ()
      ensures JustStarted(View()) && Valid()
    {
      shutdownMode, refresh, refreshTask, lease, locks := Running, Idle, false, true, true;
      pendingStopReleaseTask, pageHideReleaseTask, logoutTask := false, false, NoLogout;
      refreshSessionEndUncertain, invalidationReported, revocationUncertaintyReported := false, false, false;
      callbacks := [];
      inTime := false;
      ledger := Ledger({}, {}, 0, {});
    }

    method DisposeLease() returns (asks: seq<Ask>)
      modifies `lease
      ensures Reaction(View(), asks) == Disposing(old(View()))
    {
      asks := [];
      if lease { asks := [OnLease(Dispose)]; }
      lease := false;
    }

    method ReleaseOwnershipLocks() returns (asks: seq<Ask>)
      modifies `locks
      ensures Reaction(View(), asks) == Unlocking(old(View()))
    {
      asks := [];
      if locks { asks := [ReleaseLocks]; }
      locks := false;
    }

    method DisposeLeaseAndReleaseLock() returns (asks: seq<Ask>)
      modifies `lease, `locks
      ensures Reaction(View(), asks) == DisposingAndUnlocking(old(View()))
    {
      var disposal := DisposeLease();
      var release := ReleaseOwnershipLocks();
      asks := disposal + release;
    }

    method StopWithError() returns (asks: seq<Ask>)
      modifies this
      ensures Reaction(View(), asks) == MatrixSession.StopWithError(old(View()))
    {
      asks := [];
      if shutdownMode == PageHidden || shutdownMode == LoggingOut { return; }
      shutdownMode := Stopping;
      if pendingStopReleaseTask { return; }
      if refreshTask {
        pendingStopReleaseTask := true;
        return;
      }
      asks := DisposeLeaseAndReleaseLock();
    }

    method InvalidateSession(error: Callback) returns (asks: seq<Ask>)
      modifies this
      ensures Reaction(View(), asks) == Invalidate(old(View()), error)
    {
      asks := [];
      if invalidationReported { return; }
      invalidationReported := true;
      if error.UnconfirmedRevocation? { revocationUncertaintyReported := true; }
      callbacks := callbacks + [error];
      asks := StopWithError();
    }

    method ReportRevocationUncertainty()
      modifies `revocationUncertaintyReported, `callbacks
      ensures View() == old(View()).(report := ReportUncertainty(old(View()).report))
    {
      if revocationUncertaintyReported { return; }
      revocationUncertaintyReported := true;
      callbacks := callbacks + [UnconfirmedRevocation];
    }

    method Stop() returns (asks: seq<Ask>)
      requires Valid()
      modifies this
      ensures Valid()
      ensures Reaction(View(), asks) == StopReaction(old(View()), MatrixSession.Stop)
    {
      StopFlags(View());
      asks := StopWithError();
    }

    method HandleTakeoverRequest() returns (asks: seq<Ask>)
      requires Valid()
      modifies this
      ensures Valid()
      ensures Reaction(View(), asks) == StopReaction(old(View()), Takeover)
    {
      asks := [];
      if shutdownMode != Running { return; }
      TakeoverFlags(View());
      InvalidateCounted(View(), SessionLocked);
      asks := InvalidateSession(SessionLocked);
    }

    method RefreshTokens(seen: Seen)
      requires Valid()
      modifies `refresh, `refreshTask
      ensures Valid()
      ensures View() == BeginRefresh(old(View()), seen).c
    {
      RequestFlags(View(), seen, 0);
      if refreshTask { return; }
      if shutdownMode != Running || !lease || seen.session.None? { return; }
      refresh, refreshTask := Requesting(seen.session.value), true;
    }

    method RefreshDeadlinePassed() returns (asks: seq<Ask>)
      requires Valid() && refresh.Requesting?
      modifies this
      ensures Valid()
      ensures Reaction(View(), asks) == DeadlinePassed(old(View()))
    {
      DeadlineFlags(View());
      DeadlineCounted(View());
      ghost var before := View();
      refreshSessionEndUncertain := true;
      ledger := ledger.(late := ledger.late + 1);
      refresh := Settled(RevocationUnconfirmed);
      assert View() == SettleRefresh(TimedOut(before), RevocationUnconfirmed);
      asks := InvalidateSession(UnconfirmedRevocation);
    }

    method ResumeRefresh(seen: Seen) returns (asks: seq<Ask>)
      requires Valid()
      requires refresh.Responded?
      modifies `refresh
      ensures Valid()
      ensures Reaction(View(), asks) == ResumeRefreshed(old(View()), seen)
    {
      ResumeFlags(View(), seen);
      asks := [];
      var credential := refresh.credential;
      if shutdownMode != Running {
        refresh := Discarding(credential);
      } else if !seen.active {
        refresh := Unsealed(credential);
      } else {
        asks := [OnLease(Call(ResealTo(Some(refresh.base.(credential := credential)))))];
        refresh := Resealing(credential, seen.nextCall);
      }
    }

    method ResealAnswered(answer: ResealAnswer)
      requires Valid()
      requires refresh.Resealing?
      modifies `refresh
      ensures Valid()
      ensures View() == MatrixSession.ResealAnswered(old(View()), answer)
    {
      ResealAnsweredFlags(View(), answer);
      match answer {
        case NoResealYet =>
        case ResealRefused => refresh := Unsealed(refresh.credential);
        case ResealCommitted =>
          if shutdownMode != Running || !lease { refresh := Settled(CommittedDuringShutdown); }
          else { refresh := Settled(Fulfilled); }
      }
    }

    method DiscardRevoked(confirmed: bool) returns (asks: seq<Ask>)
      requires Valid()
      requires refresh.Discarding? || refresh.Unsealed?
      modifies this
      ensures Valid()
      ensures Reaction(View(), asks) == MatrixSession.DiscardRevoked(old(View()), confirmed)
    {
      DiscardFlags(View(), confirmed);
      SealCounted(View(), confirmed);
      asks := [];
      var resealFailed := refresh.Unsealed?;
      ledger := Revoke(ledger, refresh.credential, confirmed);
      if !resealFailed || shutdownMode != Running {
        refresh := Settled(Discarded(confirmed));
      } else if confirmed {
        refresh := Settled(RefreshFailed);
        asks := InvalidateSession(SessionLocked);
      } else {
        refresh := Settled(RevocationUnconfirmed);
        asks := InvalidateSession(UnconfirmedRevocation);
      }
    }

    method CallLogout(seen: Seen) returns (asks: seq<Ask>)
      requires Valid()
      modifies this
      ensures Valid()
      ensures Reaction(View(), asks) == BeginLogout(old(View()), seen)
    {
      BeginLogoutFlags(View(), seen);
      asks := [];
      if !logoutTask.NoLogout? || !lease { return; }
      inTime := InTime(View());
      shutdownMode := LoggingOut;
      if !seen.active {
        logoutTask := Aborting(refreshTask);
      } else {
        logoutTask := DeletingRecord(seen.nextCall, refreshTask);
        asks := [OnLease(Call(DeleteRecord))];
      }
    }

    method DeletionAnswered(answer: DeletionAnswer)
      requires Valid()
      requires logoutTask.DeletingRecord?
      modifies `logoutTask
      ensures Valid()
      ensures View() == MatrixSession.DeletionAnswered(old(View()), answer)
    {
      DeletionAnsweredFlags(View(), answer);
      match answer {
        case NoDeletionYet =>
        case DeletedWith(session) => logoutTask := EndingRemote(session, NoVerdict, logoutTask.awaits);
        case DeletionRefused => logoutTask := Aborting(logoutTask.awaits);
      }
    }

    method EvaluateLogout()
      requires Valid()
      modifies `logoutTask
      ensures Valid()
      ensures View() == MatrixSession.EvaluateLogout(old(View()))
    {
      ghost var before := View();
      EvaluateFlags(before);
      if !logoutTask.EndingRemote? || logoutTask.remote.NoVerdict? { return; }
      if logoutTask.awaits && !refresh.Settled? { return; }
      var refreshSessionAccountedFor := true;
      if logoutTask.awaits {
        refreshSessionAccountedFor := refresh.how.Fulfilled? || refresh.how.CommittedDuringShutdown?
          || (refresh.how.Discarded? && refresh.how.confirmed);
      }
      logoutTask := RemovingDatabases(logoutTask.remote.Confirmed? && refreshSessionAccountedFor && !refreshSessionEndUncertain);
      assert View() == MatrixSession.EvaluateLogout(before);
    }

    method FinishLogout(logout: Logout) returns (asks: seq<Ask>)
      requires Valid() && (logoutTask.RemovingDatabases? || logoutTask.Aborting?)
      requires logout.LogoutFailed? || (logoutTask.RemovingDatabases? && logout == LoggedOut(logoutTask.ended))
      modifies this
      ensures Valid()
      ensures Reaction(View(), asks) == MatrixSession.FinishLogout(old(View()), logout)
    {
      FinishFlags(View(), logout);
      logoutTask := logout;
      asks := DisposeLeaseAndReleaseLock();
    }

    /** The continuation of a stop: report first, then let go. */
    method ReportAndRelease() returns (asks: seq<Ask>)
      modifies this
      ensures Reaction(View(), asks) == MatrixSession.StopRelease(old(View()))
    {
      asks := [];
      if !pendingStopReleaseTask || !refresh.Settled? { return; }
      ghost var before := View();
      if refresh.how.RevocationUnconfirmed? || (refresh.how.Discarded? && !refresh.how.confirmed) {
        ReportRevocationUncertainty();
      } else if refreshSessionEndUncertain {
        ReportRevocationUncertainty();
      }
      pendingStopReleaseTask := false;
      assert View() == before.(stopRelease := false,
        report := if SaysUnconfirmed(before.refresh.how) || before.report.uncertain then ReportUncertainty(before.report) else before.report);
      if shutdownMode == Stopping { asks := DisposeLeaseAndReleaseLock(); }
    }

    method StopRelease() returns (asks: seq<Ask>)
      requires Valid()
      modifies this
      ensures Valid()
      ensures Reaction(View(), asks) == MatrixSession.StopRelease(old(View()))
    {
      StopReleaseFlags(View());
      ReportCounted(View());
      asks := ReportAndRelease();
    }

    /** What the page's hiding can still release at once. */
    method DisposeForPageHide() returns (asks: seq<Ask>)
      modifies this
      ensures Reaction(View(), asks) == HidePage(old(View()))
    {
      asks := [];
      if shutdownMode == PageHidden { return; }
      shutdownMode := PageHidden;
      if refreshTask || !logoutTask.NoLogout? {
        pageHideReleaseTask := true;
        asks := DisposeLease();
      } else {
        asks := DisposeLeaseAndReleaseLock();
      }
    }

    method ShutdownForPageHide() returns (asks: seq<Ask>)
      requires Valid()
      modifies this
      ensures Valid()
      ensures Reaction(View(), asks) == HidePage(old(View()))
    {
      HideFlags(View());
      asks := DisposeForPageHide();
    }

    method PageHideRelease() returns (asks: seq<Ask>)
      requires Valid()
      modifies this
      ensures Valid()
      ensures Reaction(View(), asks) == HideRelease(old(View()))
    {
      HideFlags(View());
      asks := [];
      if pageHideReleaseTask && (!refreshTask || refresh.Settled?) && LogoutOver(logoutTask) {
        pageHideReleaseTask := false;
        asks := ReleaseOwnershipLocks();
      }
    }
  }
}

/**
 * The call screen of src/app/call/page.tsx: the five-state screen flow, its
 * synchronisation with the call hook, the call-duration clock and the
 * once-per-mount automatic start of matching.
 *
 * The hook itself is not run here: what the page reads from it (connected,
 * matching, error) arrives as parameters, and what the page asks of it is
 * recorded in `hookCalls`.
 */
module CallPage {
  import opened Wrappers
  import opened TimeText

  datatype AppState = Matching | Connected | CallEnded | FriendAdded | NextChoice

  /** A request from the page to the call hook. */
  datatype HookCall = StartMatching | CancelMatching | EndCall | ClearError

  /** An `alert` the page raises. */
  datatype PageAlert = HookError(message: string) | FriendInfoMissing | FriendAddRefused | FriendAddError

  /** A `POST /friends/add` the page sent: its bearer token and target user. */
  datatype FriendRequest = FriendRequest(token: string, targetUserId: int)

  /** How the friend request settled: a parsed 2xx body, a non-2xx status, or a network/parse error. */
  datatype FriendOutcome = Answered(added: bool) | NotOk(status: int) | Threw

  const ZeroDuration: string := "00:00"

  /** JavaScript truthiness of a nullable number: null and 0 are falsy. */
  predicate NumberSet(n: Option<int>) {
    n.Some? && n.value != 0
  }

  /** JavaScript truthiness of a nullable string: null and "" are falsy. */
  predicate TextSet(s: Option<string>) {
    s.Some? && s.value != ""
  }

  /** The sync effect: a connection wins, then matching, otherwise the screen stays. */
  function Synced(app: AppState, isConnected: bool, isMatching: bool): (r: AppState)
    ensures r == Connected <==> isConnected || (app == Connected && !isMatching)
    ensures !isConnected && isMatching ==> r == Matching
    ensures !isConnected && !isMatching ==> r == app
  {
    if isConnected then Connected else if isMatching then Matching else app
  }

  /** Re-running the sync effect with the same hook state changes nothing more. */
  lemma SyncIdempotent(app: AppState, isConnected: bool, isMatching: bool)
    ensures Synced(Synced(app, isConnected, isMatching), isConnected, isMatching) == Synced(app, isConnected, isMatching)
  {
  }

  /**
   * The text the interval writes: whole seconds since the start, as
   * zero-padded minutes and seconds. It reads back as those seconds.
   */
  function DurationText(startMs: int, nowMs: int): (r: string)
    requires startMs <= nowMs
    ensures |r| >= 5 && r[|r| - 3] == ':'
    ensures AllDigits(r[..|r| - 3]) && AllDigits(r[|r| - 2..])
    ensures ParseDecimal(r[..|r| - 3]) * 60 + ParseDecimal(r[|r| - 2..]) == (nowMs - startMs) / 1000
    ensures nowMs - startMs < 6000000 <==> |r| == 5
  {
    MinSec((nowMs - startMs) / 1000)
  }

  /** What the page holds: React state, the start guard, pending timers, and what it asked of others. */
  datatype Page = Page(
    mounted: bool, appState: AppState, callDuration: string, callStartTime: Option<int>, ticking: bool,
    hasStartedMatching: bool, isSliding: bool, slideTimers: nat, navigatedHome: bool,
    hookCalls: seq<HookCall>, alerts: seq<PageAlert>, friendRequests: seq<FriendRequest>)

  class CallScreen {
    const mockMode: bool
    var mounted: bool
    var appState: AppState
    var callDuration: string
    var callStartTime: Option<int>
    /** Whether the interval that refreshes `callDuration` is installed. */
    var ticking: bool
    /** The `hasStartedMatching` ref: the automatic-start guard. */
    var hasStartedMatching: bool
    var isSliding: bool
    /** Slide-out timers scheduled by the next-call choice and not yet fired. */
    var slideTimers: nat
    var navigatedHome: bool
    var hookCalls: seq<HookCall>
    var alerts: seq<PageAlert>
    var friendRequests: seq<FriendRequest>

    function State(): Page
      reads this
    {
      Page(mounted, appState, callDuration, callStartTime, ticking, hasStartedMatching, isSliding, slideTimers,
           navigatedHome, hookCalls, alerts, friendRequests)
    }

    /** The page's own bookkeeping: a running interval always has a start time to count from. */
    predicate Valid()
      reads this
    {
      ticking ==> NumberSet(callStartTime)
    }

    constructor (mockMode: bool)
      ensures this.mockMode == mockMode
      ensures State() == Page(false, Matching, ZeroDuration, None, false, false, false, 0, false, [], [], [])
      ensures Valid()
    {
      this.mockMode := mockMode;
      mounted := false;
      appState := Matching;
      callDuration := ZeroDuration;
      callStartTime := None;
      ticking := false;
      hasStartedMatching := false;
      isSliding := false;
      slideTimers := 0;
      navigatedHome := false;
      hookCalls := [];
      alerts := [];
      friendRequests := [];
    }

    /** The mount effect. */
    method Mount()
      modifies this
      ensures State() == old(State()).(mounted := true)
    {
      mounted := true;
    }

    /**
     * The automatic-start effect: once mounted, outside mock mode, and only
     * while the guard is down, it raises the guard and starts matching.
     */
    method AutoStartEffect()
      modifies this
      ensures mounted && !mockMode && !old(hasStartedMatching) ==>
                State() == old(State()).(hasStartedMatching := true, hookCalls := old(hookCalls) + [StartMatching])
      ensures !(mounted && !mockMode && !old(hasStartedMatching)) ==> State() == old(State())
    {
      if !mounted {
        return;
      }
      if !mockMode && !hasStartedMatching {
        hasStartedMatching := true;
        hookCalls := hookCalls + [StartMatching];
      }
    }

    /** The sync effect, run with the hook's current flags. */
    method SyncEffect(isConnected: bool, isMatching: bool)
      modifies this
      ensures State() == old(State()).(appState := Synced(old(appState), isConnected, isMatching))
    {
      if isConnected {
        appState := Connected;
      } else if isMatching {
        appState := Matching;
      }
    }

    /**
     * One run of the duration effect with the start time of the render it
     * belongs to: a new connection records `now`, an existing one (re)installs
     * the interval, and no connection drops the start time and the interval.
     */
    method DurationEffect(isConnected: bool, now: int)
      requires Valid()
      modifies this
      ensures Valid()
      ensures isConnected && !NumberSet(old(callStartTime)) ==>
                State() == old(State()).(callStartTime := Some(now), ticking := false)
      ensures isConnected && NumberSet(old(callStartTime)) ==> State() == old(State()).(ticking := true)
      ensures !isConnected ==> State() == old(State()).(callStartTime := None, ticking := false)
    {
      var start := callStartTime;
      // the previous run's cleanup clears its interval
      ticking := false;
      if isConnected && !NumberSet(start) {
        callStartTime := Some(now);
      }
      if isConnected && NumberSet(start) {
        ticking := true;
      }
      if !isConnected {
        callStartTime := None;
      }
    }

    /** One firing of the one-second interval (a clock that never runs backwards). */
    method IntervalTick(now: int)
      requires Valid() && (ticking ==> callStartTime.value <= now)
      modifies this
      ensures Valid()
      ensures old(ticking) ==> State() == old(State()).(callDuration := DurationText(old(callStartTime).value, now))
      ensures !old(ticking) ==> State() == old(State())
    {
      if ticking {
        callDuration := DurationText(callStartTime.value, now);
      }
    }

    /** The error effect: a non-empty hook error is shown and then cleared in the hook. */
    method ErrorEffect(error: Option<string>)
      modifies this
      ensures TextSet(error) ==>
                State() == old(State()).(alerts := old(alerts) + [HookError(error.value)],
                                         hookCalls := old(hookCalls) + [ClearError])
      ensures !TextSet(error) ==> State() == old(State())
    {
      if TextSet(error) {
        alerts := alerts + [HookError(error.value)];
        hookCalls := hookCalls + [ClearError];
      }
    }

    /** `handleEndCall`: end the call in the hook, then show the end screen. */
    method HandleEndCall()
      modifies this
      ensures State() == old(State()).(hookCalls := old(hookCalls) + [EndCall], appState := CallEnded)
    {
      hookCalls := hookCalls + [EndCall];
      appState := CallEnded;
    }

    /** `handleCancelMatching`: cancel in the hook and leave the page. */
    method HandleCancelMatching()
      modifies this
      ensures State() == old(State()).(hookCalls := old(hookCalls) + [CancelMatching], navigatedHome := true)
    {
      hookCalls := hookCalls + [CancelMatching];
      navigatedHome := true;
    }

    /**
     * `handleAddFriend` up to its request: a missing (null or empty) token or
     * a missing (null or zero) peer id only raises an alert; otherwise the
     * request goes out. The screen does not change here.
     */
    method HandleAddFriend(token: Option<string>, peerUserId: Option<int>) returns (requested: bool)
      modifies this
      ensures requested <==> TextSet(token) && NumberSet(peerUserId)
      ensures requested ==>
                State() == old(State()).(friendRequests := old(friendRequests) + [FriendRequest(token.value, peerUserId.value)])
      ensures !requested ==> State() == old(State()).(alerts := old(alerts) + [FriendInfoMissing])
    {
      if !TextSet(token) || !NumberSet(peerUserId) {
        alerts := alerts + [FriendInfoMissing];
        return false;
      }
      friendRequests := friendRequests + [FriendRequest(token.value, peerUserId.value)];
      requested := true;
    }

    /** `handleAddFriend` once the request settled: only an `added` answer reaches the friend-added screen. */
    method OnFriendAddSettled(outcome: FriendOutcome)
      modifies this
      ensures outcome == Answered(true) ==> State() == old(State()).(appState := FriendAdded)
      ensures outcome == Answered(false) ==> State() == old(State()).(alerts := old(alerts) + [FriendAddRefused])
      ensures !outcome.Answered? ==> State() == old(State()).(alerts := old(alerts) + [FriendAddError])
    {
      match outcome {
        case Answered(added) =>
          if added {
            appState := FriendAdded;
          } else {
            alerts := alerts + [FriendAddRefused];
          }
        case _ =>
          alerts := alerts + [FriendAddError];
      }
    }

    /** `handleSkipFriend`. */
    method HandleSkipFriend()
      modifies this
      ensures State() == old(State()).(appState := NextChoice)
    {
      appState := NextChoice;
    }

    /**
     * The restart both next-call paths share, as written: zero the clock,
     * lower the automatic-start guard, show matching and start matching.
     */
    method RestartMatching()
      modifies this
      ensures State() == old(State()).(callDuration := ZeroDuration, hasStartedMatching := false, appState := Matching,
                                       hookCalls := old(hookCalls) + [StartMatching])
    {
      callDuration := ZeroDuration;
      hasStartedMatching := false;
      appState := Matching;
      hookCalls := hookCalls + [StartMatching];
    }

    /** The restart with the guard raised, as the direct call to start matching has already happened. */
    method RestartMatchingOnce()
      modifies this
      ensures State() == old(State()).(callDuration := ZeroDuration, hasStartedMatching := true, appState := Matching,
                                       hookCalls := old(hookCalls) + [StartMatching])
    {
      callDuration := ZeroDuration;
      hasStartedMatching := true;
      appState := Matching;
      hookCalls := hookCalls + [StartMatching];
    }

    /** `handleNextCallFromFriendAdded`. */
    method HandleNextCallFromFriendAdded()
      modifies this
      ensures State() == old(State()).(callDuration := ZeroDuration, hasStartedMatching := false, appState := Matching,
                                       hookCalls := old(hookCalls) + [StartMatching])
    {
      RestartMatching();
    }

    /** `handleNextCallFromChoice`: slide out and schedule the restart 300 ms later. */
    method HandleNextCallFromChoice()
      modifies this
      ensures State() == old(State()).(isSliding := true, slideTimers := old(slideTimers) + 1)
    {
      isSliding := true;
      slideTimers := slideTimers + 1;
    }

    /** The slide timer firing: the slide ends and matching restarts. */
    method OnSlideTimer()
      requires slideTimers > 0
      modifies this
      ensures State() == old(State()).(isSliding := false, slideTimers := old(slideTimers) - 1,
                                       callDuration := ZeroDuration, hasStartedMatching := false, appState := Matching,
                                       hookCalls := old(hookCalls) + [StartMatching])
    {
      isSliding := false;
      slideTimers := slideTimers - 1;
      RestartMatching();
    }

    /** `handleEndFromChoice`: zero the clock and leave the page. */
    method HandleEndFromChoice()
      modifies this
      ensures State() == old(State()).(callDuration := ZeroDuration, navigatedHome := true)
    {
      callDuration := ZeroDuration;
      navigatedHome := true;
    }
  }

  /** However often the automatic-start effect re-runs, it starts matching at most once. */
  method AutoStartRunsOnce(p: CallScreen, runs: nat)
    modifies p
    ensures p.State() == if runs > 0 && p.mounted && !p.mockMode && !old(p.hasStartedMatching)
                         then old(p.State()).(hasStartedMatching := true, hookCalls := old(p.hookCalls) + [StartMatching])
                         else old(p.State())
  {
    var i := 0;
    while i < runs
      invariant 0 <= i <= runs
      invariant p.State() == if i > 0 && p.mounted && !p.mockMode && !old(p.hasStartedMatching)
                             then old(p.State()).(hasStartedMatching := true, hookCalls := old(p.hookCalls) + [StartMatching])
                             else old(p.State())
    {
      p.AutoStartEffect();
      i := i + 1;
    }
  }

  /**
   * As written, a next call on a mounted page outside mock mode starts
   * matching twice: once directly, and once more from the automatic-start
   * effect, which re-runs on the next render and finds its guard lowered.
   */
  method NextCallStartsMatchingTwice(p: CallScreen)
    requires p.mounted && !p.mockMode
    modifies p
    ensures p.hookCalls == old(p.hookCalls) + [StartMatching, StartMatching]
  {
    p.HandleNextCallFromFriendAdded();
    p.AutoStartEffect();
  }

  /** With the guard raised by the restart itself, the same sequence starts matching exactly once. */
  method CorrectedNextCallStartsMatchingOnce(p: CallScreen)
    modifies p
    ensures p.hookCalls == old(p.hookCalls) + [StartMatching]
    ensures p.appState == Matching && p.callDuration == ZeroDuration
  {
    p.RestartMatchingOnce();
    p.AutoStartEffect();
  }

  /** A call that connects and stays connected: the clock is installed on the second effect run and then counts from the connection. */
  method ConnectedClock(p: CallScreen, connectedAt: int, later: int)
    requires p.Valid() && connectedAt != 0 && connectedAt <= later
    modifies p
    ensures p.ticking && p.callStartTime == Some(connectedAt)
    ensures p.callDuration == DurationText(connectedAt, later)
  {
    p.DurationEffect(false, connectedAt);
    p.DurationEffect(true, connectedAt);
    p.DurationEffect(true, later);
    p.IntervalTick(later);
  }
}

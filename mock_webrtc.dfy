/**
 * The server-less call hook of src/hooks/useMockWebrtc.ts: matching and
 * connecting are simulated by two timers, the second scheduled by the first.
 * Each timer firing is an event method; media acquisition is an outcome
 * passed in.
 */
module MockWebRtc {
  import opened Wrappers

  /** The call record of src/types/webrtc.ts (its optional `peerUserId` is never set here). */
  datatype CallState = CallState(isMatching: bool, isConnected: bool, roomId: Option<string>, remoteUserId: Option<string>)

  const Idle: CallState := CallState(false, false, None, None)
  const MockRoomId: string := "mock-room-123"
  const MockUserId: string := "mock-user-456"

  datatype MediaStream = MediaStream(id: nat)

  /** What a failed `getUserMedia` threw: an Error object with its message, or any other value. */
  datatype Thrown = ErrorObject(message: string) | OtherValue

  datatype MediaOutcome = Acquired(stream: MediaStream) | Denied(thrown: Thrown)

  /** The error slot: an Error's own message, or the fallback for anything else thrown. */
  datatype MockError = Failed(message: string) | MatchRequestFailed

  /** The error `startMatching`'s catch leaves behind. */
  function CaughtError(t: Thrown): (e: MockError)
    ensures t.ErrorObject? ==> e == Failed(t.message)
    ensures t.OtherValue? <==> e == MatchRequestFailed
  {
    match t
    case ErrorObject(m) => Failed(m)
    case OtherValue => MatchRequestFailed
  }

  /** Everything the mock hook holds: its React state, the remote-stream ref, and the timers still pending. */
  datatype Mock = Mock(
    callState: CallState, localStream: Option<MediaStream>, remoteStream: Option<MediaStream>,
    error: Option<MockError>, remoteStreamRef: Option<MediaStream>, stopped: seq<MediaStream>,
    matchTimers: nat, connectTimers: nat)

  class MockHook {
    var callState: CallState
    var localStream: Option<MediaStream>
    var remoteStream: Option<MediaStream>
    var error: Option<MockError>
    /** The socket flag: constantly true, as there is no server. */
    const wsConnected: bool := true
    /** `remoteStreamRef`: the simulated remote stream whose tracks `endCall` stops. */
    var remoteStreamRef: Option<MediaStream>
    /** Streams whose tracks were stopped, oldest first. */
    var stopped: seq<MediaStream>
    /** Scheduled and not yet fired: the 2-second match timers and the 1-second connect timers. */
    var matchTimers: nat
    var connectTimers: nat

    function State(): Mock
      reads this
    {
      Mock(callState, localStream, remoteStream, error, remoteStreamRef, stopped, matchTimers, connectTimers)
    }

    constructor ()
      ensures State() == Mock(Idle, None, None, None, None, [], 0, 0)
    {
      callState := Idle;
      localStream := None;
      remoteStream := None;
      error := None;
      remoteStreamRef := None;
      stopped := [];
      matchTimers := 0;
      connectTimers := 0;
    }

    /**
     * `startMatching`: acquires the camera only when there is no local
     * stream yet. A refusal ends matching with the caught error; otherwise
     * matching starts, the error clears and the match timer is scheduled.
     */
    method StartMatching(media: MediaOutcome)
      modifies this
      ensures old(localStream).None? && media.Denied? ==>
                State() == old(State()).(callState := old(callState).(isMatching := false),
                                         error := Some(CaughtError(media.thrown)))
      ensures old(localStream).None? && media.Acquired? ==>
                State() == old(State()).(callState := old(callState).(isMatching := true), error := None,
                                         localStream := Some(media.stream), matchTimers := old(matchTimers) + 1)
      ensures old(localStream).Some? ==>
                State() == old(State()).(callState := old(callState).(isMatching := true), error := None,
                                         matchTimers := old(matchTimers) + 1)
    {
      if localStream.None? {
        match media {
          case Acquired(stream) =>
            localStream := Some(stream);
          case Denied(thrown) =>
            error := Some(CaughtError(thrown));
            callState := callState.(isMatching := false);
            return;
        }
      }
      callState := callState.(isMatching := true);
      error := None;
      matchTimers := matchTimers + 1;
    }

    /** The match timer: the whole record becomes the fixed mock match, and the connect timer is scheduled. */
    method OnMatchTimer()
      requires matchTimers > 0
      modifies this
      ensures State() == old(State()).(callState := CallState(false, false, Some(MockRoomId), Some(MockUserId)),
                                       matchTimers := old(matchTimers) - 1, connectTimers := old(connectTimers) + 1)
    {
      callState := CallState(false, false, Some(MockRoomId), Some(MockUserId));
      matchTimers := matchTimers - 1;
      connectTimers := connectTimers + 1;
    }

    /**
     * The connect timer: a second camera stream stands in for the remote one
     * when it can be acquired; the call is marked connected either way and
     * nothing else in the record changes.
     */
    method OnConnectTimer(fakeRemote: Option<MediaStream>)
      requires connectTimers > 0
      modifies this
      ensures fakeRemote.Some? ==>
                State() == old(State()).(remoteStream := fakeRemote, remoteStreamRef := fakeRemote,
                                         callState := old(callState).(isConnected := true),
                                         connectTimers := old(connectTimers) - 1)
      ensures fakeRemote.None? ==>
                State() == old(State()).(callState := old(callState).(isConnected := true),
                                         connectTimers := old(connectTimers) - 1)
    {
      if fakeRemote.Some? {
        remoteStreamRef := fakeRemote;
        remoteStream := fakeRemote;
      }
      callState := callState.(isConnected := true);
      connectTimers := connectTimers - 1;
    }

    /** `cancelMatching`: only the matching flag; the pending timers stay scheduled. */
    method CancelMatching()
      modifies this
      ensures State() == old(State()).(callState := old(callState).(isMatching := false))
    {
      callState := callState.(isMatching := false);
    }

    /** `endCall`: stops and forgets the simulated remote stream and resets the record. */
    method EndCall()
      modifies this
      ensures State() == old(State()).(
                stopped := old(stopped) + (if old(remoteStreamRef).Some? then [old(remoteStreamRef).value] else []),
                remoteStreamRef := None, remoteStream := None, callState := Idle)
    {
      if remoteStreamRef.Some? {
        stopped := stopped + [remoteStreamRef.value];
        remoteStreamRef := None;
      }
      remoteStream := None;
      callState := Idle;
    }

    /** `clearError`. */
    method ClearError()
      modifies this
      ensures State() == old(State()).(error := None)
    {
      error := None;
    }
  }

  /** Ending the call a second time changes nothing further, not even the stopped-stream log. */
  method EndCallIdempotent(h: MockHook)
    modifies h
    ensures h.State() == old(h.State()).(
              stopped := old(h.stopped) + (if old(h.remoteStreamRef).Some? then [old(h.remoteStreamRef).value] else []),
              remoteStreamRef := None, remoteStream := None, callState := Idle)
  {
    h.EndCall();
    ghost var once := h.State();
    h.EndCall();
    assert h.State() == once;
  }

  /** Cancelling while the match timer is pending does not stop the simulated match or connection. */
  method CancelledMatchStillConnects(h: MockHook)
    requires h.matchTimers > 0
    modifies h
    ensures h.callState == CallState(false, true, Some(MockRoomId), Some(MockUserId))
  {
    h.CancelMatching();
    h.OnMatchTimer();
    h.OnConnectTimer(None);
  }

  /** Nor does ending the call: a pending connect timer marks the reset record connected again. */
  method EndedCallStillConnects(h: MockHook)
    requires h.connectTimers > 0
    modifies h
    ensures h.callState == Idle.(isConnected := true) && h.remoteStream == None
  {
    h.EndCall();
    h.OnConnectTimer(None);
  }

  /** A first start whose camera access is refused leaves the hook not matching, with an error. */
  method RefusedCameraStopsMatching(t: Thrown) returns (h: MockHook)
    ensures !h.callState.isMatching && h.error.Some? && h.matchTimers == 0 && h.wsConnected
  {
    h := new MockHook();
    h.StartMatching(Denied(t));
  }
}

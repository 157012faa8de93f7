/**
 * The signaling hook of src/hooks/useWebRTC.ts with the records of
 * src/types/webtrc.ts: the call record, the peer connection it owns, the
 * error slot and the messages it sends over the signaling socket.
 *
 * Session descriptions, ICE candidates and media streams are opaque values;
 * the socket is an open / not-open flag. Each awaited WebRTC step arrives as
 * an outcome, and each browser callback as an event. `Hook` is one snapshot
 * of the hook's state and the `On...` functions are its handlers; the class
 * `SignalingHook` runs the same handlers on its fields in place.
 */
module WebRtcHook {
  import opened Wrappers

  datatype CallState = CallState(isMatching: bool, isConnected: bool, roomId: Option<string>, remoteUserId: Option<string>)

  const Idle: CallState := CallState(false, false, None, None)

  /** A session description, an ICE candidate and a media stream, all opaque. */
  datatype Sdp = Sdp(text: string)
  datatype Candidate = Candidate(text: string)
  datatype MediaStream = MediaStream(id: nat)

  datatype MessageType =
    | Offer | Answer | IceCandidate | MatchRequest | MatchFound | MatchCancelled | UserDisconnected
    | Unknown(name: string)

  datatype SignalingMessage = SignalingMessage(
    kind: MessageType,
    offer: Option<Sdp>,
    answer: Option<Sdp>,
    candidate: Option<Candidate>,
    roomId: Option<string>,
    userId: Option<string>,
    message: Option<string>)

  /** A message that carries only its type. */
  function Plain(kind: MessageType): SignalingMessage {
    SignalingMessage(kind, None, None, None, None, None, None)
  }

  function OfferMessage(sdp: Sdp): SignalingMessage {
    Plain(Offer).(offer := Some(sdp))
  }

  function AnswerMessage(sdp: Sdp): SignalingMessage {
    Plain(Answer).(answer := Some(sdp))
  }

  function CandidateMessage(c: Candidate): SignalingMessage {
    Plain(IceCandidate).(candidate := Some(c))
  }

  /** The kinds of message this hook ever sends. */
  predicate Outbound(m: SignalingMessage) {
    m.kind in {Offer, Answer, IceCandidate, MatchRequest, MatchCancelled, UserDisconnected}
  }

  /** Raw socket data: JSON that did not parse, or a parsed message. */
  datatype Inbound = Malformed | Parsed(msg: SignalingMessage)

  /**
   * How the awaited WebRTC calls of one handler settled: all succeeded (with
   * the description produced, for offers and answers), the remote
   * description was refused, or a later local step failed.
   */
  datatype Rtc = Done(produced: Sdp) | RemoteRefused | LocalFailed

  datatype MediaResult = Granted(stream: MediaStream) | Refused

  datatype PeerState = New | Connecting | PeerConnected | Disconnected | Failed | Closed

  /** The error slot's messages. */
  datatype HookError = WebSocketFailure | MatchCancelNotice | CallSetupFailed | PeerLost | MediaPermissionNeeded

  /**
   * A peer connection: its number, the local stream whose tracks were added
   * to it, its local and remote descriptions and the remote candidates added.
   */
  datatype Peer = Peer(id: nat, tracks: Option<MediaStream>, local: Option<Sdp>, remote: Option<Sdp>, candidates: seq<Candidate>)

  /**
   * One snapshot of the hook. `handlerStream` is the local stream as the
   * socket's message handler sees it: that handler is installed once, when
   * the socket is connected, and keeps that render's value. `created` counts
   * the peer connections made so far (numbered from 0) and `closed` lists
   * those closed.
   */
  datatype Hook = Hook(
    call: CallState,
    localStream: Option<MediaStream>,
    remoteStream: Option<MediaStream>,
    wsConnected: bool,
    socketOpen: bool,
    error: Option<HookError>,
    handlerStream: Option<MediaStream>,
    pc: Option<Peer>,
    created: nat,
    closed: seq<nat>,
    sent: seq<SignalingMessage>)

  /** The state once mounted: nothing set, and the socket (not yet open) connected with the first render's handlers. */
  function Mounted(): (h: Hook)
    ensures h.call == Idle && h.localStream == None && h.remoteStream == None && h.error == None
    ensures !h.socketOpen && h.pc == None && h.sent == []
  {
    Hook(Idle, None, None, false, false, None, None, None, 0, [], [])
  }

  /** `sendSignalingMessage`: sent when the socket is open, dropped otherwise. */
  function Send(h: Hook, m: SignalingMessage): (r: Hook)
    ensures r.sent == h.sent + (if h.socketOpen then [m] else [])
    ensures r.(sent := h.sent) == h
  {
    if h.socketOpen then h.(sent := h.sent + [m]) else h
  }

  /** Close the current peer connection, if any, and forget it. */
  function ClosePeer(h: Hook): (r: Hook)
    ensures r.pc == None
    ensures r.closed == h.closed + (if h.pc.Some? then [h.pc.value.id] else [])
    ensures r.(pc := h.pc, closed := h.closed) == h
  {
    match h.pc
    case None => h
    case Some(p) => h.(pc := None, closed := h.closed + [p.id])
  }

  /** `createPeerConnection`: close the current one, then install a new one carrying `tracks`. */
  function CreatePeer(h: Hook, tracks: Option<MediaStream>): (r: Hook)
    ensures r.pc == Some(Peer(h.created, tracks, None, None, []))
    ensures r.created == h.created + 1
    ensures r.closed == h.closed + (if h.pc.Some? then [h.pc.value.id] else [])
    ensures r.(pc := h.pc, created := h.created, closed := h.closed) == h
  {
    ClosePeer(h).(pc := Some(Peer(h.created, tracks, None, None, [])), created := h.created + 1)
  }

  function SetLocal(h: Hook, sdp: Sdp): Hook
    requires h.pc.Some?
  {
    h.(pc := Some(h.pc.value.(local := Some(sdp))))
  }

  function SetRemote(h: Hook, sdp: Sdp): Hook
    requires h.pc.Some?
  {
    h.(pc := Some(h.pc.value.(remote := Some(sdp))))
  }

  /** The reset `endCall` and `handleDisconnect` share: no peer connection, no remote stream, a blank call record. */
  function ResetCall(h: Hook): (r: Hook)
    ensures r.pc == None && r.remoteStream == None && r.call == Idle
    ensures r.error == h.error && r.sent == h.sent && r.socketOpen == h.socketOpen
  {
    ClosePeer(h).(remoteStream := None, call := Idle)
  }

  /** `handleDisconnect`: the reset, reported as a lost peer. */
  function Disconnect(h: Hook): Hook {
    ResetCall(h).(error := Some(PeerLost))
  }

  /** `endCall`: the reset, announced to the other side, without an error. */
  function EndCall(h: Hook): Hook {
    Send(ResetCall(h), Plain(UserDisconnected))
  }

  /**
   * `match-found` followed by `createOffer`: matching stops, the room and
   * peer ids are taken when non-empty, the connection flag is untouched, a
   * new peer connection replaces the old one, and the offer it produced is
   * sent; a failed offer only sets the error.
   */
  function OnMatchFound(h: Hook, msg: SignalingMessage, rtc: Rtc, tracks: Option<MediaStream>): (r: Hook)
    ensures !r.call.isMatching && r.call.isConnected == h.call.isConnected
    ensures r.call.roomId == NonEmpty(msg.roomId) && r.call.remoteUserId == NonEmpty(msg.userId)
    ensures r.pc.Some? && r.pc.value.id == h.created && r.created == h.created + 1
    ensures r.pc.value.tracks == tracks && r.pc.value.remote == None
    ensures r.closed == h.closed + (if h.pc.Some? then [h.pc.value.id] else [])
    ensures rtc.Done? ==>
              r.pc.value.local == Some(rtc.produced) && r.error == h.error
              && r.sent == h.sent + (if h.socketOpen then [OfferMessage(rtc.produced)] else [])
    ensures !rtc.Done? ==> r.pc.value.local == None && r.error == Some(CallSetupFailed) && r.sent == h.sent
    ensures r.remoteStream == h.remoteStream && r.localStream == h.localStream && r.socketOpen == h.socketOpen
  {
    var matched := h.(call := h.call.(isMatching := false, roomId := NonEmpty(msg.roomId), remoteUserId := NonEmpty(msg.userId)));
    var withPeer := CreatePeer(matched, tracks);
    match rtc
    case Done(offer) => Send(SetLocal(withPeer, offer), OfferMessage(offer))
    case _ => withPeer.(error := Some(CallSetupFailed))
  }

  /**
   * `handleOffer`: a new peer connection takes the remote offer and sends
   * back the answer it produced; a refused offer or a failed answer sets the
   * error instead.
   */
  function OnOffer(h: Hook, offer: Sdp, rtc: Rtc, tracks: Option<MediaStream>): (r: Hook)
    ensures r.pc.Some? && r.pc.value.id == h.created && r.created == h.created + 1 && r.pc.value.tracks == tracks
    ensures r.closed == h.closed + (if h.pc.Some? then [h.pc.value.id] else [])
    ensures r.pc.value.remote == (if rtc.RemoteRefused? then None else Some(offer))
    ensures rtc.Done? ==>
              r.pc.value.local == Some(rtc.produced) && r.error == h.error
              && r.sent == h.sent + (if h.socketOpen then [AnswerMessage(rtc.produced)] else [])
    ensures !rtc.Done? ==> r.pc.value.local == None && r.error == Some(CallSetupFailed) && r.sent == h.sent
    ensures r.call == h.call && r.remoteStream == h.remoteStream && r.localStream == h.localStream
  {
    var withPeer := CreatePeer(h, tracks);
    match rtc
    case RemoteRefused => withPeer.(error := Some(CallSetupFailed))
    case LocalFailed => SetRemote(withPeer, offer).(error := Some(CallSetupFailed))
    case Done(answer) => Send(SetLocal(SetRemote(withPeer, offer), answer), AnswerMessage(answer))
  }

  /** `handleAnswer`: only with a peer connection, and a refusal is only logged. */
  function OnAnswer(h: Hook, answer: Sdp, rtc: Rtc): (r: Hook)
    ensures h.pc.None? || !rtc.Done? ==> r == h
    ensures h.pc.Some? && rtc.Done? ==> r == h.(pc := Some(h.pc.value.(remote := Some(answer))))
  {
    if h.pc.Some? && rtc.Done? then SetRemote(h, answer) else h
  }

  /** `handleIceCandidate`: only with a peer connection, and a refusal is only logged. */
  function OnIceCandidate(h: Hook, c: Candidate, rtc: Rtc): (r: Hook)
    ensures h.pc.None? || !rtc.Done? ==> r == h
    ensures h.pc.Some? && rtc.Done? ==>
              r == h.(pc := Some(h.pc.value.(candidates := h.pc.value.candidates + [c])))
  {
    if h.pc.Some? && rtc.Done? then h.(pc := Some(h.pc.value.(candidates := h.pc.value.candidates + [c]))) else h
  }

  /** `handleSignalingMessage` behind the socket's parse: dispatch on the type; unparseable data and unknown types change nothing. */
  function OnSocketMessage(h: Hook, m: Inbound, rtc: Rtc, tracks: Option<MediaStream>): (r: Hook)
  {
    match m
    case Malformed => h
    case Parsed(msg) =>
      match msg.kind
      case MatchFound => OnMatchFound(h, msg, rtc, tracks)
      case Offer => if msg.offer.Some? then OnOffer(h, msg.offer.value, rtc, tracks) else h
      case Answer => if msg.answer.Some? then OnAnswer(h, msg.answer.value, rtc) else h
      case IceCandidate => if msg.candidate.Some? then OnIceCandidate(h, msg.candidate.value, rtc) else h
      case UserDisconnected => Disconnect(h)
      case MatchCancelled => h.(call := h.call.(isMatching := false), error := Some(MatchCancelNotice))
      case _ => h
  }

  /** `ontrack`: an event carrying a stream shows it and marks the call connected. A closed or absent connection raises no events. */
  function OnTrack(h: Hook, streams: seq<MediaStream>): (r: Hook)
  {
    if h.pc.Some? && |streams| > 0 then
      h.(remoteStream := Some(streams[0]), call := h.call.(isConnected := true))
    else h
  }

  /** `onconnectionstatechange`: a disconnected or failed connection is a lost peer. */
  function OnConnectionStateChange(h: Hook, s: PeerState): (r: Hook)
  {
    if h.pc.Some? && (s == Disconnected || s == Failed) then Disconnect(h) else h
  }

  /** `onicecandidate`: a gathered candidate goes to the other side; the end-of-candidates null does not. */
  function OnLocalIceCandidate(h: Hook, c: Option<Candidate>): (r: Hook)
  {
    if h.pc.Some? && c.Some? then Send(h, CandidateMessage(c.value)) else h
  }

  /** `startLocalStream`: keep the stream, or report the missing permission (and rethrow). */
  function StartLocalStream(h: Hook, media: MediaResult): (r: Hook)
  {
    match media
    case Granted(s) => h.(localStream := Some(s))
    case Refused => h.(error := Some(MediaPermissionNeeded))
  }

  /**
   * `startMatching`: acquire the local stream only when there is none; a
   * refusal propagates and nothing else happens. Otherwise matching starts
   * and a match request is sent.
   */
  function StartMatching(h: Hook, media: MediaResult): (r: Hook)
    ensures h.localStream.None? && media.Refused? ==> r == h.(error := Some(MediaPermissionNeeded))
    ensures !(h.localStream.None? && media.Refused?) ==>
              r.call == h.call.(isMatching := true)
              && r.localStream == (if h.localStream.Some? then h.localStream else Some(media.stream))
              && r.sent == h.sent + (if h.socketOpen then [Plain(MatchRequest)] else [])
              && r.error == h.error && r.pc == h.pc
  {
    if h.localStream.None? && media.Refused? then
      StartLocalStream(h, media)
    else
      var ready := if h.localStream.None? then StartLocalStream(h, media) else h;
      Send(ready.(call := ready.call.(isMatching := true)), Plain(MatchRequest))
  }

  /** `cancelMatching`: only the matching flag changes, and the server is told. */
  function CancelMatching(h: Hook): (r: Hook)
    ensures r.(sent := h.sent) == h.(call := h.call.(isMatching := false))
    ensures r.sent == h.sent + (if h.socketOpen then [Plain(MatchCancelled)] else [])
  {
    Send(h.(call := h.call.(isMatching := false)), Plain(MatchCancelled))
  }

  /** Everything that can happen to the hook once it is mounted. */
  datatype Event =
    | SocketMessage(data: Inbound, rtc: Rtc)
    | Track(streams: seq<MediaStream>)
    | ConnectionState(state: PeerState)
    | LocalCandidate(candidate: Option<Candidate>)
    | SocketOpen
    | SocketClose
    | SocketFault
    | LocalStreamRequest(media: MediaResult)
    | MatchingStart(media: MediaResult)
    | MatchingCancel
    | CallEnd
    | ErrorClear

  /** One event; new peer connections get the tracks of `tracks`. */
  function StepWith(h: Hook, e: Event, tracks: Option<MediaStream>): Hook {
    match e
    case SocketMessage(data, rtc) => OnSocketMessage(h, data, rtc, tracks)
    case Track(streams) => OnTrack(h, streams)
    case ConnectionState(s) => OnConnectionStateChange(h, s)
    case LocalCandidate(c) => OnLocalIceCandidate(h, c)
    case SocketOpen => h.(socketOpen := true, wsConnected := true, error := None)
    case SocketClose => h.(socketOpen := false, wsConnected := false)
    case SocketFault => h.(error := Some(WebSocketFailure))
    case LocalStreamRequest(media) => StartLocalStream(h, media)
    case MatchingStart(media) => StartMatching(h, media)
    case MatchingCancel => CancelMatching(h)
    case CallEnd => EndCall(h)
    case ErrorClear => h.(error := None)
  }

  /** One event as written: peer connections made from socket messages use the stream the message handler captured. */
  function Step(h: Hook, e: Event): Hook {
    StepWith(h, e, h.handlerStream)
  }

  /** One event with the current local stream attached to new peer connections. */
  function StepCorrected(h: Hook, e: Event): Hook {
    StepWith(h, e, h.localStream)
  }

  function Run(h: Hook, es: seq<Event>): Hook
    decreases |es|
  {
    if es == [] then h else Run(Step(h, es[0]), es[1..])
  }

  /**
   * The hook's invariant: the call is connected exactly when a remote stream
   * is shown, and every peer connection made and not closed is the current one.
   */
  predicate Valid(h: Hook) {
    (h.call.isConnected <==> h.remoteStream.Some?) && PeersValid(h.pc, h.created, h.closed)
  }

  /** The current connection is the newest one and open; every other connection made has been closed. */
  predicate PeersValid(pc: Option<Peer>, created: nat, closed: seq<nat>) {
    (pc.Some? ==> pc.value.id + 1 == created && pc.value.id !in closed)
    && (forall i :: 0 <= i < |closed| ==> closed[i] < created)
    && (forall id: nat :: id < created && id !in closed ==> pc.Some? && pc.value.id == id)
  }

  /** Updating the current connection in place keeps the bookkeeping. */
  lemma SamePeerKeepsValid(pc: Option<Peer>, p: Peer, created: nat, closed: seq<nat>)
    requires PeersValid(pc, created, closed) && pc.Some? && p.id == pc.value.id
    ensures PeersValid(Some(p), created, closed)
  {
  }

  /** The peer connections made and not yet closed. */
  function Live(h: Hook): set<nat> {
    set id: nat | id < h.created && id !in h.closed
  }

  /** At most one peer connection is ever open: the current one. */
  lemma AtMostOneLivePeer(h: Hook)
    requires Valid(h)
    ensures Live(h) == if h.pc.Some? then {h.pc.value.id} else {}
  {
    if h.pc.Some? {
      assert h.pc.value.id in Live(h);
    }
  }

  lemma CreatePeerKeepsValid(h: Hook, tracks: Option<MediaStream>)
    requires Valid(h)
    ensures var r := CreatePeer(h, tracks); PeersValid(r.pc, r.created, r.closed)
  {
    var r := CreatePeer(h, tracks);
    forall id: nat | id < r.created && id !in r.closed
      ensures r.pc.Some? && r.pc.value.id == id
    {
      if id < h.created {
        assert false;
      }
    }
  }

  lemma ResetKeepsValid(h: Hook)
    requires Valid(h)
    ensures Valid(ResetCall(h))
  {
    var r := ResetCall(h);
    forall id: nat | id < r.created && id !in r.closed
      ensures false
    {
    }
  }

  lemma MatchFoundKeepsValid(h: Hook, msg: SignalingMessage, rtc: Rtc, tracks: Option<MediaStream>)
    requires Valid(h)
    ensures Valid(OnMatchFound(h, msg, rtc, tracks))
  {
    var matched := h.(call := h.call.(isMatching := false, roomId := NonEmpty(msg.roomId), remoteUserId := NonEmpty(msg.userId)));
    CreatePeerKeepsValid(matched, tracks);
  }

  lemma OfferKeepsValid(h: Hook, offer: Sdp, rtc: Rtc, tracks: Option<MediaStream>)
    requires Valid(h)
    ensures Valid(OnOffer(h, offer, rtc, tracks))
  {
    CreatePeerKeepsValid(h, tracks);
  }

  lemma SocketMessageKeepsValid(h: Hook, m: Inbound, rtc: Rtc, tracks: Option<MediaStream>)
    requires Valid(h)
    ensures Valid(OnSocketMessage(h, m, rtc, tracks))
  {
    if m.Parsed? {
      var msg := m.msg;
      match msg.kind {
        case MatchFound =>
          MatchFoundKeepsValid(h, msg, rtc, tracks);
        case Offer =>
          if msg.offer.Some? {
            OfferKeepsValid(h, msg.offer.value, rtc, tracks);
          }
        case Answer =>
          if msg.answer.Some? && h.pc.Some? && rtc.Done? {
            SamePeerKeepsValid(h.pc, h.pc.value.(remote := msg.answer), h.created, h.closed);
          }
        case IceCandidate =>
          if msg.candidate.Some? && h.pc.Some? && rtc.Done? {
            SamePeerKeepsValid(h.pc, h.pc.value.(candidates := h.pc.value.candidates + [msg.candidate.value]), h.created, h.closed);
          }
        case UserDisconnected =>
          ResetKeepsValid(h);
        case _ =>
      }
    }
  }

  /** Every event keeps the invariant, whichever stream new peer connections carry. */
  lemma StepKeepsValid(h: Hook, e: Event, tracks: Option<MediaStream>)
    requires Valid(h)
    ensures Valid(StepWith(h, e, tracks))
  {
    match e {
      case SocketMessage(data, rtc) => SocketMessageKeepsValid(h, data, rtc, tracks);
      case ConnectionState(s) => ResetKeepsValid(h);
      case CallEnd => ResetKeepsValid(h);
      case _ =>
    }
  }

  lemma {:induction false} RunKeepsValid(h: Hook, es: seq<Event>)
    requires Valid(h)
    ensures Valid(Run(h, es))
    decreases |es|
  {
    if es != [] {
      StepKeepsValid(h, es[0], h.handlerStream);
      RunKeepsValid(Step(h, es[0]), es[1..]);
    }
  }

  /** Whatever happens after mounting, the invariant holds. */
  lemma ReachableValid(es: seq<Event>)
    ensures Valid(Run(Mounted(), es))
  {
    RunKeepsValid(Mounted(), es);
  }

  /** Only a track event on a live connection, carrying a stream, turns the call connected. */
  lemma ConnectsOnlyOnTrack(h: Hook, e: Event, tracks: Option<MediaStream>)
    requires !h.call.isConnected && StepWith(h, e, tracks).call.isConnected
    ensures e.Track? && h.pc.Some? && |e.streams| > 0
    ensures StepWith(h, e, tracks).remoteStream == Some(e.streams[0])
  {
  }

  /** The outbound log only grows, by at most one message of an outbound kind, and only while the socket is open. */
  lemma SendsOnlyWhenOpen(h: Hook, e: Event, tracks: Option<MediaStream>)
    ensures var r := StepWith(h, e, tracks);
            h.sent <= r.sent && |r.sent| <= |h.sent| + 1
            && (|r.sent| > |h.sent| ==> h.socketOpen && Outbound(r.sent[|h.sent|]))
  {
    if e.SocketMessage? {
      SocketMessageSendsOnlyWhenOpen(h, e.data, e.rtc, tracks);
    }
  }

  lemma SocketMessageSendsOnlyWhenOpen(h: Hook, m: Inbound, rtc: Rtc, tracks: Option<MediaStream>)
    ensures var r := OnSocketMessage(h, m, rtc, tracks);
            h.sent <= r.sent && |r.sent| <= |h.sent| + 1
            && (|r.sent| > |h.sent| ==> h.socketOpen && Outbound(r.sent[|h.sent|]))
  {
    if m.Parsed? && m.msg.kind == Offer && m.msg.offer.Some? {
      var r := OnOffer(h, m.msg.offer.value, rtc, tracks);
      assert r.sent == h.sent + (if h.socketOpen && rtc.Done? then [AnswerMessage(rtc.produced)] else []);
    }
  }

  /** Malformed data, unknown types and messages missing their payload are ignored. */
  lemma IgnoredMessages(h: Hook, msg: SignalingMessage, rtc: Rtc, tracks: Option<MediaStream>)
    ensures OnSocketMessage(h, Malformed, rtc, tracks) == h
    ensures msg.kind.Unknown? || msg.kind == MatchRequest ==> OnSocketMessage(h, Parsed(msg), rtc, tracks) == h
    ensures msg.kind == Offer && msg.offer.None? ==> OnSocketMessage(h, Parsed(msg), rtc, tracks) == h
    ensures msg.kind == Answer && (msg.answer.None? || h.pc.None?) ==> OnSocketMessage(h, Parsed(msg), rtc, tracks) == h
    ensures msg.kind == IceCandidate && (msg.candidate.None? || h.pc.None?) ==> OnSocketMessage(h, Parsed(msg), rtc, tracks) == h
  {
  }

  /** A cancellation from the server clears only the matching flag and reports it. */
  lemma ServerCancelClearsOnlyMatching(h: Hook, msg: SignalingMessage, rtc: Rtc, tracks: Option<MediaStream>)
    requires msg.kind == MatchCancelled
    ensures OnSocketMessage(h, Parsed(msg), rtc, tracks)
              == h.(call := h.call.(isMatching := false), error := Some(MatchCancelNotice))
  {
  }

  /**
   * `endCall` and `handleDisconnect` leave the same call, stream and
   * connection state; only the disconnect reports an error, and only the
   * end of call tells the other side.
   */
  lemma EndCallAndDisconnectAgree(h: Hook)
    ensures EndCall(h).(sent := h.sent) == Disconnect(h).(error := h.error)
    ensures Disconnect(h).sent == h.sent && Disconnect(h).error == Some(PeerLost)
    ensures EndCall(h).error == h.error
    ensures EndCall(h).sent == h.sent + (if h.socketOpen then [Plain(UserDisconnected)] else [])
  {
  }

  /** Ending a call twice leaves the same state as ending it once, apart from the repeated announcement. */
  lemma EndCallIdempotent(h: Hook)
    ensures EndCall(EndCall(h)).(sent := EndCall(h).sent) == EndCall(h)
  {
  }

  /** A lost or failed connection is handled as a disconnect; other states change nothing. */
  lemma ConnectionLossDisconnects(h: Hook, s: PeerState)
    requires h.pc.Some?
    ensures s == Disconnected || s == Failed ==> OnConnectionStateChange(h, s) == Disconnect(h)
    ensures s != Disconnected && s != Failed ==> OnConnectionStateChange(h, s) == h
  {
  }

  /** Cancelling does not fence off a late match: a `match-found` arriving afterwards still sets up a call. */
  lemma LateMatchAfterCancel(h: Hook, msg: SignalingMessage, rtc: Rtc, tracks: Option<MediaStream>)
    requires msg.kind == MatchFound
    ensures var r := OnSocketMessage(CancelMatching(h), Parsed(msg), rtc, tracks);
            r.pc.Some? && r.pc.value.id == h.created && r.call.roomId == NonEmpty(msg.roomId)
  {
  }

  /** Nothing keeps matching and connected apart: starting to match during a call leaves both flags set. */
  lemma MatchingWhileConnected(h: Hook, media: MediaResult)
    requires h.call.isConnected && (h.localStream.Some? || media.Granted?)
    ensures StartMatching(h, media).call.isConnected && StartMatching(h, media).call.isMatching
  {
  }

  /** The stale-handler invariant: the captured stream is empty, so no connection carries local tracks. */
  predicate NoLocalTracks(h: Hook) {
    h.handlerStream == None && (h.pc.Some? ==> h.pc.value.tracks == None)
  }

  lemma {:induction false} RunSendsNoLocalMedia(h: Hook, es: seq<Event>)
    requires NoLocalTracks(h)
    ensures NoLocalTracks(Run(h, es))
    decreases |es|
  {
    if es != [] {
      var e := es[0];
      assert NoLocalTracks(Step(h, e)) by {
        match e {
          case SocketMessage(data, rtc) =>
            if data.Parsed? && data.msg.kind == MatchFound {
              assert Step(h, e).pc.value.tracks == h.handlerStream;
            }
          case _ =>
        }
      }
      RunSendsNoLocalMedia(Step(h, e), es[1..]);
    }
  }

  /**
   * As written, no peer connection made after mounting ever carries local
   * media, even once `startMatching` has acquired the camera: the message
   * handler was captured on the first render, whose local stream is null.
   */
  lemma StaleHandlerSendsNoMedia(es: seq<Event>)
    ensures var h := Run(Mounted(), es); h.pc.Some? ==> h.pc.value.tracks == None
  {
    RunSendsNoLocalMedia(Mounted(), es);
  }

  /** The concrete run: camera granted, then a match; the new connection has no tracks although a local stream exists. */
  lemma StaleHandlerExample(s: MediaStream, msg: SignalingMessage, offer: Sdp)
    requires msg.kind == MatchFound
    ensures var h := Run(Mounted(), [MatchingStart(Granted(s)), SocketMessage(Parsed(msg), Done(offer))]);
            h.localStream == Some(s) && h.pc.Some? && h.pc.value.tracks == None
  {
    var h0 := Mounted();
    var h1 := Step(h0, MatchingStart(Granted(s)));
    assert h1.localStream == Some(s) && h1.handlerStream == None;
    var h2 := Step(h1, SocketMessage(Parsed(msg), Done(offer)));
    assert Run(h0, [MatchingStart(Granted(s)), SocketMessage(Parsed(msg), Done(offer))]) == Run(h1, [SocketMessage(Parsed(msg), Done(offer))]);
    assert Run(h1, [SocketMessage(Parsed(msg), Done(offer))]) == Run(h2, []);
  }

  /** With the current stream read at the time, every new peer connection carries the local stream the hook holds. */
  lemma CorrectedPeersCarryLocalStream(h: Hook, e: Event)
    requires StepCorrected(h, e).created > h.created
    ensures StepCorrected(h, e).pc.Some? && StepCorrected(h, e).pc.value.tracks == h.localStream
  {
  }

  /** The same run with the correction: the connection made on the match carries the acquired stream. */
  lemma CorrectedExample(s: MediaStream, msg: SignalingMessage, offer: Sdp)
    requires msg.kind == MatchFound
    ensures var h := StepCorrected(StepCorrected(Mounted(), MatchingStart(Granted(s))), SocketMessage(Parsed(msg), Done(offer)));
            h.pc.Some? && h.pc.value.tracks == Some(s)
  {
  }

  /** The hook as an object: its fields are the snapshot, and each handler updates them in place. */
  class SignalingHook {
    var call: CallState
    var localStream: Option<MediaStream>
    var remoteStream: Option<MediaStream>
    var wsConnected: bool
    var socketOpen: bool
    var error: Option<HookError>
    var handlerStream: Option<MediaStream>
    var peerConnection: Option<Peer>
    var created: nat
    var closed: seq<nat>
    var sent: seq<SignalingMessage>

    function Snapshot(): Hook
      reads this
    {
      Hook(call, localStream, remoteStream, wsConnected, socketOpen, error, handlerStream, peerConnection, created, closed, sent)
    }

    /** Mounting: the initial state, then `connectWebSocket` installs the handlers with the first render's (null) stream. */
    constructor ()
      ensures Snapshot() == Mounted() && Valid(Snapshot())
    {
      call := Idle;
      localStream := None;
      remoteStream := None;
      wsConnected := false;
      socketOpen := false;
      error := None;
      peerConnection := None;
      created := 0;
      closed := [];
      sent := [];
      handlerStream := localStream;
    }

    method SendSignaling(m: SignalingMessage)
      modifies this
      ensures Snapshot() == Send(old(Snapshot()), m)
    {
      if socketOpen {
        sent := sent + [m];
      }
    }

    method ClosePeerConnection()
      modifies this
      ensures Snapshot() == ClosePeer(old(Snapshot()))
    {
      if peerConnection.Some? {
        closed := closed + [peerConnection.value.id];
        peerConnection := None;
      }
    }

    method CreatePeerConnection(tracks: Option<MediaStream>)
      modifies this
      ensures Snapshot() == CreatePeer(old(Snapshot()), tracks)
    {
      ClosePeerConnection();
      peerConnection := Some(Peer(created, tracks, None, None, []));
      created := created + 1;
    }

    method HandleDisconnect()
      modifies this
      ensures Snapshot() == Disconnect(old(Snapshot()))
    {
      ClosePeerConnection();
      remoteStream := None;
      call := Idle;
      error := Some(PeerLost);
    }

    method EndCall()
      requires Valid(Snapshot())
      modifies this
      ensures Snapshot() == Step(old(Snapshot()), CallEnd) && Valid(Snapshot())
    {
      StepKeepsValid(Snapshot(), CallEnd, handlerStream);
      ClosePeerConnection();
      remoteStream := None;
      call := Idle;
      SendSignaling(Plain(UserDisconnected));
    }

    /** `onmessage`: parse, then `handleSignalingMessage`. */
    method OnMessage(data: Inbound, rtc: Rtc)
      requires Valid(Snapshot())
      modifies this
      ensures Snapshot() == Step(old(Snapshot()), SocketMessage(data, rtc)) && Valid(Snapshot())
    {
      StepKeepsValid(Snapshot(), SocketMessage(data, rtc), handlerStream);
      if data.Malformed? {
        return;
      }
      var msg := data.msg;
      match msg.kind {
        case MatchFound =>
          HandleMatchFound(msg, rtc);
        case Offer =>
          if msg.offer.Some? {
            HandleOffer(msg.offer.value, rtc);
          }
        case Answer =>
          if msg.answer.Some? && peerConnection.Some? && rtc.Done? {
            peerConnection := Some(peerConnection.value.(remote := msg.answer));
          }
        case IceCandidate =>
          if msg.candidate.Some? && peerConnection.Some? && rtc.Done? {
            peerConnection := Some(peerConnection.value.(candidates := peerConnection.value.candidates + [msg.candidate.value]));
          }
        case UserDisconnected =>
          HandleDisconnect();
        case MatchCancelled =>
          call := call.(isMatching := false);
          error := Some(MatchCancelNotice);
        case _ =>
      }
    }

    /** The `match-found` case, then `createOffer`. */
    method HandleMatchFound(msg: SignalingMessage, rtc: Rtc)
      modifies this
      ensures Snapshot() == OnMatchFound(old(Snapshot()), msg, rtc, old(handlerStream))
    {
      call := call.(isMatching := false, roomId := NonEmpty(msg.roomId), remoteUserId := NonEmpty(msg.userId));
      CreatePeerConnection(handlerStream);
      match rtc {
        case Done(offer) =>
          peerConnection := Some(peerConnection.value.(local := Some(offer)));
          SendSignaling(OfferMessage(offer));
        case _ =>
          error := Some(CallSetupFailed);
      }
    }

    /** `handleOffer`. */
    method HandleOffer(offer: Sdp, rtc: Rtc)
      modifies this
      ensures Snapshot() == OnOffer(old(Snapshot()), offer, rtc, old(handlerStream))
    {
      CreatePeerConnection(handlerStream);
      match rtc {
        case RemoteRefused =>
          error := Some(CallSetupFailed);
        case LocalFailed =>
          peerConnection := Some(peerConnection.value.(remote := Some(offer)));
          error := Some(CallSetupFailed);
        case Done(answer) =>
          peerConnection := Some(peerConnection.value.(remote := Some(offer)));
          peerConnection := Some(peerConnection.value.(local := Some(answer)));
          SendSignaling(AnswerMessage(answer));
      }
    }

    method OnTrack(streams: seq<MediaStream>)
      requires Valid(Snapshot())
      modifies this
      ensures Snapshot() == Step(old(Snapshot()), Track(streams)) && Valid(Snapshot())
    {
      StepKeepsValid(Snapshot(), Track(streams), handlerStream);
      if peerConnection.Some? && |streams| > 0 {
        remoteStream := Some(streams[0]);
        call := call.(isConnected := true);
      }
    }

    method OnConnectionStateChange(s: PeerState)
      requires Valid(Snapshot())
      modifies this
      ensures Snapshot() == Step(old(Snapshot()), ConnectionState(s)) && Valid(Snapshot())
    {
      StepKeepsValid(Snapshot(), ConnectionState(s), handlerStream);
      if peerConnection.Some? && (s == Disconnected || s == Failed) {
        HandleDisconnect();
      }
    }

    method OnIceCandidate(c: Option<Candidate>)
      requires Valid(Snapshot())
      modifies this
      ensures Snapshot() == Step(old(Snapshot()), LocalCandidate(c)) && Valid(Snapshot())
    {
      StepKeepsValid(Snapshot(), LocalCandidate(c), handlerStream);
      if peerConnection.Some? && c.Some? {
        SendSignaling(CandidateMessage(c.value));
      }
    }

    method OnSocketOpen()
      requires Valid(Snapshot())
      modifies this
      ensures Snapshot() == Step(old(Snapshot()), SocketOpen) && Valid(Snapshot())
    {
      socketOpen := true;
      wsConnected := true;
      error := None;
    }

    method OnSocketClose()
      requires Valid(Snapshot())
      modifies this
      ensures Snapshot() == Step(old(Snapshot()), SocketClose) && Valid(Snapshot())
    {
      socketOpen := false;
      wsConnected := false;
    }

    method OnSocketError()
      requires Valid(Snapshot())
      modifies this
      ensures Snapshot() == Step(old(Snapshot()), SocketFault) && Valid(Snapshot())
    {
      error := Some(WebSocketFailure);
    }

    method StartLocalStream(media: MediaResult)
      requires Valid(Snapshot())
      modifies this
      ensures Snapshot() == Step(old(Snapshot()), LocalStreamRequest(media)) && Valid(Snapshot())
    {
      match media {
        case Granted(s) => localStream := Some(s);
        case Refused => error := Some(MediaPermissionNeeded);
      }
    }

    method StartMatching(media: MediaResult)
      requires Valid(Snapshot())
      modifies this
      ensures Snapshot() == Step(old(Snapshot()), MatchingStart(media)) && Valid(Snapshot())
    {
      if localStream.None? {
        StartLocalStream(media);
        if media.Refused? {
          return;
        }
      }
      call := call.(isMatching := true);
      SendSignaling(Plain(MatchRequest));
    }

    method CancelMatching()
      requires Valid(Snapshot())
      modifies this
      ensures Snapshot() == Step(old(Snapshot()), MatchingCancel) && Valid(Snapshot())
    {
      call := call.(isMatching := false);
      SendSignaling(Plain(MatchCancelled));
    }

    method ClearError()
      requires Valid(Snapshot())
      modifies this
      ensures Snapshot() == Step(old(Snapshot()), ErrorClear) && Valid(Snapshot())
    {
      error := None;
    }
  }
}

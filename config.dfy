/** Endpoint builders and reconnection constants (src/utils/config.ts). */
module Config {
  import opened Wrappers

  /** Reconnection options handed to the reconnecting socket; the growth factor 1.5 is kept as 3/2. */
  const MaxRetries: nat := 10
  const MaxReconnectionDelay: nat := 10000
  const MinReconnectionDelay: nat := 1000
  const DelayGrowNumerator: nat := 3
  const DelayGrowDenominator: nat := 2
  const ConnectionTimeout: nat := 4000

  /** The delay bounds are ordered, the growth factor exceeds one and a retry budget exists. */
  lemma ReconnectConfigConsistent()
    ensures 0 < MinReconnectionDelay <= MaxReconnectionDelay
    ensures DelayGrowDenominator < DelayGrowNumerator
    ensures MaxRetries == 10 && ConnectionTimeout == 4000
  {
  }

  /** How a template string prints the socket base address; an unset environment variable prints "undefined". */
  function BaseText(base: Option<string>): string {
    match base
    case Some(b) => b
    case None => "undefined"
  }

  const SignalingSegment := "/signaling/"

  /** `WS_ENDPOINTS.SIGNALING(sessionId)`. */
  function SignalingUrl(base: Option<string>, sessionId: string): (url: string)
    ensures |url| == |BaseText(base)| + |SignalingSegment| + |sessionId| + 1
  {
    BaseText(base) + SignalingSegment + sessionId + "/"
  }

  /** Reads the session id back out of a signaling address, if the address has the signaling shape. */
  function SessionOf(base: Option<string>, url: string): Option<string> {
    var prefix := BaseText(base) + SignalingSegment;
    if |prefix| < |url| && url[..|prefix|] == prefix && url[|url| - 1] == '/' then
      Some(url[|prefix|..|url| - 1])
    else
      None
  }

  /** The session id can always be recovered from the signaling address built for it. */
  lemma SignalingRoundTrip(base: Option<string>, sessionId: string)
    ensures SessionOf(base, SignalingUrl(base, sessionId)) == Some(sessionId)
  {
    var prefix := BaseText(base) + SignalingSegment;
    var url := SignalingUrl(base, sessionId);
    assert url == prefix + (sessionId + "/");
    assert url[..|prefix|] == prefix;
    assert url[|prefix|..|url| - 1] == sessionId;
  }

  /** Distinct sessions are addressed at distinct signaling URLs. */
  lemma SignalingInjective(base: Option<string>, a: string, b: string)
    requires a != b
    ensures SignalingUrl(base, a) != SignalingUrl(base, b)
  {
    SignalingRoundTrip(base, a);
    SignalingRoundTrip(base, b);
  }

  /** `WS_ENDPOINTS.TEST`: a fixed address under the base, independent of any session. */
  function TestUrl(base: Option<string>): (url: string)
    ensures |url| == |BaseText(base)| + 9
    ensures url[..|BaseText(base)|] == BaseText(base)
    ensures SessionOf(base, url) == None
  {
    var url := BaseText(base) + "/ws/test/";
    url
  }
}

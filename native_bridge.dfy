/**
 * The React Native WebView bridge (`window.ReactNativeWebView`). Code that
 * posts checks for the bridge first; the channel records what was posted.
 */
module NativeBridge {

  datatype BridgeMessage =
    | SaveRefreshToken(token: string)
    | DeleteRefreshToken
    | GetRefreshToken

  class Channel {
    /** Whether the page runs inside the native WebView (and not during server rendering). */
    const present: bool
    var posted: seq<BridgeMessage>

    constructor (present: bool)
      ensures this.present == present && posted == []
    {
      this.present := present;
      posted := [];
    }

    /** `if (window.ReactNativeWebView) window.ReactNativeWebView.postMessage(JSON.stringify(m))`. */
    method PostIfPresent(m: BridgeMessage)
      modifies this
      ensures posted == old(posted) + (if present then [m] else [])
    {
      if present {
        posted := posted + [m];
      }
    }
  }
}

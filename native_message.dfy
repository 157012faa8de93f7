/**
 * The native message listener of src/hooks/useNativeMessage.ts: on mount it
 * registers a handler and asks the native side for the refresh token; the
 * handler stores a delivered refresh token in the src/lib/auth.ts store.
 */
module NativeMessage {
  import opened Wrappers
  import NativeBridge
  import LibAuth
  import UtilsAuth

  /** A `message` event's data: text that is not JSON, or a parsed object with its `type` and `token` fields. */
  datatype Incoming =
    | Unparseable
    | Parsed(kind: string, token: Option<string>)

  /** The refresh token a message delivers: only a `REFRESH_TOKEN` message with a truthy token delivers one. */
  function DeliveredToken(m: Incoming): (t: Option<string>)
    ensures t.Some? <==> m.Parsed? && m.kind == "REFRESH_TOKEN" && m.token.Some? && m.token.value != ""
    ensures t.Some? ==> t == m.token
  {
    match m
    case Unparseable => None
    case Parsed(kind, token) =>
      if kind == "REFRESH_TOKEN" && token.Some? && token.value != "" then token else None
  }

  class Listener {
    /** Whether the handler is registered on `window` and `document`. */
    var listening: bool
    const store: LibAuth.AuthStore
    const bridge: NativeBridge.Channel

    constructor (store: LibAuth.AuthStore, bridge: NativeBridge.Channel)
      ensures this.store == store && this.bridge == bridge && !listening
    {
      this.store := store;
      this.bridge := bridge;
      listening := false;
    }

    /** The mount effect: registers the handler and posts one `GET_REFRESH_TOKEN` request when the bridge exists. */
    method Mount()
      modifies this, bridge
      ensures listening
      ensures bridge.posted == old(bridge.posted) + (if bridge.present then [NativeBridge.GetRefreshToken] else [])
    {
      listening := true;
      bridge.PostIfPresent(NativeBridge.GetRefreshToken);
    }

    /** The effect cleanup: the handler is removed. */
    method Unmount()
      modifies this
      ensures !listening
    {
      listening := false;
    }

    /**
     * A `message` event. While registered, a delivered refresh token replaces
     * the store's refresh token; everything else (other types, an empty
     * token, unparseable data) changes nothing and nothing is thrown.
     */
    method Deliver(m: Incoming)
      modifies store
      ensures listening && DeliveredToken(m).Some? ==> store.refreshToken == DeliveredToken(m)
      ensures !(listening && DeliveredToken(m).Some?) ==> store.refreshToken == old(store.refreshToken)
      ensures store.accessToken == old(store.accessToken)
    {
      var t := DeliveredToken(m);
      if listening && t.Some? {
        store.SetRefreshTokenFromNative(t.value);
      }
    }
  }

  /**
   * The two stores are distinct: a refresh token delivered by the native
   * side is invisible to the store the HTTP client refreshes with.
   */
  method DeliveredTokenNotSeenByApi(l: Listener, apiStore: UtilsAuth.AuthStore, m: Incoming)
    modifies l.store
    ensures apiStore.accessToken == old(apiStore.accessToken)
    ensures apiStore.refreshToken == old(apiStore.refreshToken)
  {
    l.Deliver(m);
  }
}

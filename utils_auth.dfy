/**
 * The in-memory token store of src/utils/auth.ts: two module-level variables
 * that start with development tokens. The HTTP client reads and refreshes
 * these tokens.
 */
module UtilsAuth {
  import opened Wrappers
  import NativeBridge

  const DevAccessToken := "dev_access_token_temp"
  const DevRefreshToken := "dev_refresh_token_temp"

  class AuthStore {
    var accessToken: Option<string>
    var refreshToken: Option<string>
    const bridge: NativeBridge.Channel

    /** Module initialisation: both development tokens are present, so a token exists from the start. */
    constructor (bridge: NativeBridge.Channel)
      ensures this.bridge == bridge
      ensures accessToken == Some(DevAccessToken) && refreshToken == Some(DevRefreshToken)
      ensures HasTokenNow()
    {
      this.bridge := bridge;
      accessToken := Some(DevAccessToken);
      refreshToken := Some(DevRefreshToken);
    }

    /** `hasToken`: a strict `!== null` test, so an empty access token still counts as a token. */
    predicate HasTokenNow()
      reads this
    {
      accessToken != None
    }

    /** Stores both tokens and asks the native side to persist the refresh token. */
    method SetTokens(access: string, refresh: string)
      modifies this, bridge
      ensures accessToken == Some(access) && refreshToken == Some(refresh)
      ensures HasTokenNow()
      ensures bridge.posted == old(bridge.posted) + (if bridge.present then [NativeBridge.SaveRefreshToken(refresh)] else [])
    {
      accessToken := Some(access);
      refreshToken := Some(refresh);
      bridge.PostIfPresent(NativeBridge.SaveRefreshToken(refresh));
    }

    method GetAccessToken() returns (t: Option<string>)
      ensures t == accessToken
      ensures t.Some? <==> HasTokenNow()
    {
      t := accessToken;
    }

    method GetRefreshToken() returns (t: Option<string>)
      ensures t == refreshToken
    {
      t := refreshToken;
    }

    /** Logs out: both tokens become null (again null when repeated) and the native side is asked to delete its copy. */
    method ClearTokens()
      modifies this, bridge
      ensures accessToken == None && refreshToken == None
      ensures !HasTokenNow()
      ensures bridge.posted == old(bridge.posted) + (if bridge.present then [NativeBridge.DeleteRefreshToken] else [])
    {
      accessToken := None;
      refreshToken := None;
      bridge.PostIfPresent(NativeBridge.DeleteRefreshToken);
    }

    /** Replaces the refresh token only; nothing is posted. */
    method SetRefreshTokenFromNative(token: string)
      modifies this
      ensures refreshToken == Some(token)
      ensures accessToken == old(accessToken)
    {
      refreshToken := Some(token);
    }

    method HasToken() returns (b: bool)
      ensures b <==> accessToken != None
    {
      b := accessToken != None;
    }
  }

  /** Setting the tokens on any store and then reading them back gives what was set. */
  method TokenStoreRoundTrip(store: AuthStore, access: string, refresh: string)
    returns (a: Option<string>, r: Option<string>, hadToken: bool)
    modifies store, store.bridge
    ensures a == Some(access) && r == Some(refresh) && hadToken
    ensures store.bridge.posted == old(store.bridge.posted)
              + (if store.bridge.present then [NativeBridge.SaveRefreshToken(refresh)] else [])
  {
    store.SetTokens(access, refresh);
    a := store.GetAccessToken();
    r := store.GetRefreshToken();
    hadToken := store.HasToken();
  }

  /**
   * Clearing any store twice leaves the tokens as one clear does; the bridge,
   * when present, is told to delete the native copy each time.
   */
  method ClearTokensTwice(store: AuthStore) returns (a: Option<string>, r: Option<string>, hadToken: bool)
    modifies store, store.bridge
    ensures a == None && r == None && !hadToken
    ensures store.accessToken == None && store.refreshToken == None
    ensures store.bridge.posted == old(store.bridge.posted)
              + (if store.bridge.present then [NativeBridge.DeleteRefreshToken, NativeBridge.DeleteRefreshToken] else [])
  {
    store.ClearTokens();
    store.ClearTokens();
    a := store.GetAccessToken();
    r := store.GetRefreshToken();
    hadToken := store.HasToken();
  }
}

/**
 * The second token store, src/lib/auth.ts. It has its own module-level
 * variables, both initially null; the native message listener writes here,
 * while the HTTP client reads the store of src/utils/auth.ts.
 */
module LibAuth {
  import opened Wrappers
  import NativeBridge

  class AuthStore {
    var accessToken: Option<string>
    var refreshToken: Option<string>
    const bridge: NativeBridge.Channel

    constructor (bridge: NativeBridge.Channel)
      ensures this.bridge == bridge
      ensures accessToken == None && refreshToken == None
    {
      this.bridge := bridge;
      accessToken := None;
      refreshToken := None;
    }

    method SetTokens(access: string, refresh: string)
      modifies this, bridge
      ensures accessToken == Some(access) && refreshToken == Some(refresh)
      ensures bridge.posted == old(bridge.posted) + (if bridge.present then [NativeBridge.SaveRefreshToken(refresh)] else [])
    {
      accessToken := Some(access);
      refreshToken := Some(refresh);
      bridge.PostIfPresent(NativeBridge.SaveRefreshToken(refresh));
    }

    method GetAccessToken() returns (t: Option<string>)
      ensures t == accessToken
    {
      t := accessToken;
    }

    method GetRefreshToken() returns (t: Option<string>)
      ensures t == refreshToken
    {
      t := refreshToken;
    }

    method ClearTokens()
      modifies this, bridge
      ensures accessToken == None && refreshToken == None
      ensures bridge.posted == old(bridge.posted) + (if bridge.present then [NativeBridge.DeleteRefreshToken] else [])
    {
      accessToken := None;
      refreshToken := None;
      bridge.PostIfPresent(NativeBridge.DeleteRefreshToken);
    }

    method SetRefreshTokenFromNative(token: string)
      modifies this
      ensures refreshToken == Some(token)
      ensures accessToken == old(accessToken)
    {
      refreshToken := Some(token);
    }
  }
}

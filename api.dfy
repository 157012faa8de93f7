/**
 * The HTTP client of src/lib/api.ts: a request interceptor that attaches the
 * bearer token and a response interceptor that, on a first 401, refreshes
 * the tokens once and retries. Tokens live in the src/utils/auth.ts store.
 */
module Api {
  import opened Wrappers
  import UtilsAuth
  import NativeBridge

  /** The parts of an outgoing request the interceptors look at; `retried` is axios's `_retry` mark. */
  datatype Request = Request(path: string, authorization: Option<string>, retried: bool)

  /** A rejected request: the HTTP status when a response arrived, and the request's config. */
  datatype HttpFailure = HttpFailure(status: Option<int>, config: Request)

  /** What `POST /auth/refresh/` produced, when it is called. */
  datatype RefreshReply =
    | Refreshed(access: string, newRefresh: Option<string>)
    | RefreshRejected(reason: string)

  /** Why the caller's promise is rejected. */
  datatype ApiError =
    | Original(failure: HttpFailure)
    | RefreshFailed(reason: string)

  /** What the response interceptor does with a failure: reject, or re-send the (marked) request. */
  datatype Decision =
    | Reject(error: ApiError)
    | Retry(request: Request)

  /** The `Authorization` header for a stored token: set only when the token is truthy (non-null and non-empty). */
  function BearerFor(token: Option<string>): (h: Option<string>)
    ensures h.Some? <==> token.Some? && token.value != ""
    ensures h.Some? ==> h.value == "Bearer " + token.value
  {
    if token.Some? && token.value != "" then Some("Bearer " + token.value) else None
  }

  /** The request interceptor: reads the access token and attaches the bearer header when there is one. */
  method InterceptRequest(store: UtilsAuth.AuthStore, req: Request) returns (out: Request)
    ensures out.path == req.path && out.retried == req.retried
    ensures store.accessToken.Some? && store.accessToken.value != "" ==>
              out.authorization == Some("Bearer " + store.accessToken.value)
    ensures !(store.accessToken.Some? && store.accessToken.value != "") ==> out == req
  {
    var token := store.GetAccessToken();
    var header := BearerFor(token);
    if header.Some? {
      out := req.(authorization := header);
    } else {
      out := req;
    }
  }

  /** A refresh is attempted exactly for a 401 on a request that has not been retried yet. */
  predicate ShouldRefresh(f: HttpFailure) {
    f.status == Some(401) && !f.config.retried
  }

  /** The refresh token kept after a refresh: the new one when it is truthy, otherwise the one sent. */
  function KeptRefresh(newRefresh: Option<string>, sent: string): (r: string)
    ensures newRefresh.Some? && newRefresh.value != "" ==> r == newRefresh.value
    ensures !(newRefresh.Some? && newRefresh.value != "") ==> r == sent
  {
    if newRefresh.Some? && newRefresh.value != "" then newRefresh.value else sent
  }

  /** What a post through `bridge` leaves in its log: the messages when the bridge is there, nothing otherwise. */
  function Posted(bridge: NativeBridge.Channel, ms: seq<NativeBridge.BridgeMessage>): seq<NativeBridge.BridgeMessage> {
    if bridge.present then ms else []
  }

  /**
   * The response interceptor's error path. `reply` is what the refresh call
   * would return; `refreshCalled` says whether that call was made.
   */
  method InterceptResponseError(store: UtilsAuth.AuthStore, f: HttpFailure, reply: RefreshReply)
    returns (d: Decision, refreshCalled: bool)
    modifies store, store.bridge
    ensures refreshCalled ==> ShouldRefresh(f)
    // Not a first 401: the original error is passed on and the store is untouched.
    ensures !ShouldRefresh(f) ==>
              d == Reject(Original(f)) && !refreshCalled
              && store.accessToken == old(store.accessToken) && store.refreshToken == old(store.refreshToken)
              && store.bridge.posted == old(store.bridge.posted)
    // A first 401 with no usable refresh token: tokens are cleared, the marked request's error is rejected.
    ensures ShouldRefresh(f) && !(old(store.refreshToken).Some? && old(store.refreshToken).value != "") ==>
              d == Reject(Original(f.(config := f.config.(retried := true)))) && !refreshCalled
              && store.accessToken == None && store.refreshToken == None
              && store.bridge.posted == old(store.bridge.posted) + Posted(store.bridge, [NativeBridge.DeleteRefreshToken])
    // A first 401 with a refresh token: exactly one refresh call.
    ensures ShouldRefresh(f) && old(store.refreshToken).Some? && old(store.refreshToken).value != "" ==>
              refreshCalled
              && match reply
                 case Refreshed(access, newRefresh) =>
                   && store.accessToken == Some(access)
                   && store.refreshToken == Some(KeptRefresh(newRefresh, old(store.refreshToken).value))
                   && store.bridge.posted == old(store.bridge.posted)
                        + Posted(store.bridge, [NativeBridge.SaveRefreshToken(KeptRefresh(newRefresh, old(store.refreshToken).value))])
                   && d == Retry(f.config.(retried := true, authorization := Some("Bearer " + access)))
                 case RefreshRejected(reason) =>
                   && store.accessToken == None && store.refreshToken == None
                   && store.bridge.posted == old(store.bridge.posted) + Posted(store.bridge, [NativeBridge.DeleteRefreshToken])
                   && d == Reject(RefreshFailed(reason))
    // Whatever is re-sent is marked, so it can never be retried again.
    ensures d.Retry? ==> d.request.retried
  {
    refreshCalled := false;
    if !ShouldRefresh(f) {
      d := Reject(Original(f));
      return;
    }
    var marked := f.config.(retried := true);
    var refresh := store.GetRefreshToken();
    if refresh.None? || refresh.value == "" {
      store.ClearTokens();
      d := Reject(Original(f.(config := marked)));
      return;
    }
    refreshCalled := true;
    match reply
    case Refreshed(access, newRefresh) =>
      store.SetTokens(access, KeptRefresh(newRefresh, refresh.value));
      d := Retry(marked.(authorization := Some("Bearer " + access)));
    case RefreshRejected(reason) =>
      store.ClearTokens();
      d := Reject(RefreshFailed(reason));
  }

  /** A retried request that fails again, with any status, is rejected as it is: at most one retry per request. */
  lemma AtMostOneRetry(req: Request, status: Option<int>)
    requires req.retried
    ensures !ShouldRefresh(HttpFailure(status, req))
  {
  }

  const LoginPath := "/auth/login/"

  /** A response to `POST /auth/login/`: the token pair, or an HTTP failure (its status, when a response arrived). */
  datatype LoginResponse = LoginOk(access: string, refresh: string) | LoginError(status: Option<int>)

  /**
   * `authAPI.login`. The request goes out through the `api` instance, so the
   * request interceptor attaches the stored bearer and a failure passes
   * through the response interceptor: a first 401 may refresh the tokens and
   * re-send the login once (`retry` is what the re-sent login gets back).
   * The re-sent request is marked, so its own failure is rejected as it is.
   * A login that finally succeeds stores the returned pair.
   */
  method Login(store: UtilsAuth.AuthStore, first: LoginResponse, reply: RefreshReply, retry: LoginResponse)
    returns (ok: bool)
    modifies store, store.bridge
    ensures first.LoginOk? ==>
              ok && store.accessToken == Some(first.access) && store.refreshToken == Some(first.refresh)
              && store.bridge.posted == old(store.bridge.posted) + Posted(store.bridge, [NativeBridge.SaveRefreshToken(first.refresh)])
    // Not a 401: rejected, tokens and bridge untouched.
    ensures first.LoginError? && first.status != Some(401) ==>
              !ok && store.accessToken == old(store.accessToken) && store.refreshToken == old(store.refreshToken)
              && store.bridge.posted == old(store.bridge.posted)
    // A 401 without a usable refresh token: rejected, tokens cleared.
    ensures first.LoginError? && first.status == Some(401)
            && !(old(store.refreshToken).Some? && old(store.refreshToken).value != "") ==>
              !ok && store.accessToken == None && store.refreshToken == None
              && store.bridge.posted == old(store.bridge.posted) + Posted(store.bridge, [NativeBridge.DeleteRefreshToken])
    // A 401 with a refresh token: the refresh decides.
    ensures first.LoginError? && first.status == Some(401)
            && old(store.refreshToken).Some? && old(store.refreshToken).value != "" ==>
              match reply
              case RefreshRejected(_) =>
                !ok && store.accessToken == None && store.refreshToken == None
                && store.bridge.posted == old(store.bridge.posted) + Posted(store.bridge, [NativeBridge.DeleteRefreshToken])
              case Refreshed(access, newRefresh) =>
                var kept := KeptRefresh(newRefresh, old(store.refreshToken).value);
                (ok <==> retry.LoginOk?)
                && (retry.LoginOk? ==>
                      store.accessToken == Some(retry.access) && store.refreshToken == Some(retry.refresh)
                      && store.bridge.posted == old(store.bridge.posted)
                           + Posted(store.bridge, [NativeBridge.SaveRefreshToken(kept), NativeBridge.SaveRefreshToken(retry.refresh)]))
                && (retry.LoginError? ==>
                      store.accessToken == Some(access) && store.refreshToken == Some(kept)
                      && store.bridge.posted == old(store.bridge.posted) + Posted(store.bridge, [NativeBridge.SaveRefreshToken(kept)]))
  {
    var req := InterceptRequest(store, Request(LoginPath, None, false));
    match first {
      case LoginOk(access, refresh) =>
        store.SetTokens(access, refresh);
        ok := true;
      case LoginError(status) =>
        var d, _ := InterceptResponseError(store, HttpFailure(status, req), reply);
        match d {
          case Reject(_) =>
            ok := false;
          case Retry(again) =>
            match retry {
              case LoginOk(access, refresh) =>
                store.SetTokens(access, refresh);
                ok := true;
              case LoginError(status2) =>
                var d2, _ := InterceptResponseError(store, HttpFailure(status2, again), reply);
                ok := false;
            }
        }
    }
  }

  /** `authAPI.logout`: both tokens cleared, and the bridge (when there) told to delete its copy. */
  method Logout(store: UtilsAuth.AuthStore)
    modifies store, store.bridge
    ensures store.accessToken == None && store.refreshToken == None
    ensures store.bridge.posted == old(store.bridge.posted) + Posted(store.bridge, [NativeBridge.DeleteRefreshToken])
  {
    store.ClearTokens();
  }
}

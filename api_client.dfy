/** The shared HTTP client (components/axiosInstance.ts): a request interceptor
    that attaches the stored bearer token, and a response interceptor that, on
    a 401, refreshes the access token once and resends the request, or clears
    the session and sends the user to the login page when the refresh fails. */
module ApiClient {
  import opened Wrappers
  import opened Browser

  const AuthorizationHeader := "Authorization"
  const LoginPath := "/auth/login"

  function Bearer(token: string): string {
    "Bearer " + token
  }

  /** The headers the request interceptor sends: the given ones, with
      `Authorization` set to the bearer form of the stored access token when a
      non-empty one is stored. */
  function WithBearer(store: map<string, string>, headers: map<string, string>): (r: map<string, string>)
    ensures forall k :: k != AuthorizationHeader ==> (k in r <==> k in headers)
    ensures forall k :: k != AuthorizationHeader && k in headers ==> r[k] == headers[k]
    ensures HasTruthy(store, AccessKey) ==>
      AuthorizationHeader in r && r[AuthorizationHeader] == Bearer(store[AccessKey])
    ensures !HasTruthy(store, AccessKey) ==> r == headers
  {
    if HasTruthy(store, AccessKey) then headers[AuthorizationHeader := Bearer(store[AccessKey])]
    else headers
  }

  /** What one call through the client leaves behind: the outcome handed to
      the caller, the browser store and location, the request's headers and
      `_retry` flag, the headers of every request that went out, and the body
      of the refresh call (`None` when no refresh was made; `Some(None)` when
      `{ refresh: null }` was posted). */
  datatype Trace = Trace(
    result: Reply<string>,
    storage: map<string, string>,
    location: Option<string>,
    headers: map<string, string>,
    retry: bool,
    sent: seq<map<string, string>>,
    refreshBody: Option<Option<string>>)

  /** The error branch of the response interceptor, for a request whose
      headers are `headers` and whose failure is `Err(status, message)`:
      `refresh` is the reply of the refresh endpoint and `second` the final
      outcome of the resent request. `sent` lists only the resent request. */
  function OnError(storage: map<string, string>, location: Option<string>,
                   headers: map<string, string>, retry: bool,
                   status: Option<int>, message: string,
                   refresh: Reply<string>, second: Reply<string>): Trace
  {
    if status == Some(401) && !retry then
      var body := Lookup(storage, RefreshKey);
      match refresh
      case Ok(access) =>
        var stored := storage[AccessKey := access];
        var resent := WithBearer(stored, headers[AuthorizationHeader := Bearer(access)]);
        Trace(second, stored, location, resent, true, [resent], Some(body))
      case Err(_, _) =>
        Trace(Err(status, message), map[], Some(LoginPath), headers, true, [], Some(body))
    else
      Trace(Err(status, message), storage, location, headers, retry, [], None)
  }

  /** One call through the client: the request interceptor, the server's
      `first` reply, and the response interceptor. */
  function Run(storage: map<string, string>, location: Option<string>,
               headers: map<string, string>, retry: bool,
               first: Reply<string>, refresh: Reply<string>, second: Reply<string>): Trace
  {
    var out := WithBearer(storage, headers);
    match first
    case Ok(_) => Trace(first, storage, location, out, retry, [out], None)
    case Err(status, message) =>
      var t := OnError(storage, location, out, retry, status, message, refresh, second);
      t.(sent := [out] + t.sent)
  }

  /** The request being sent: axios's `config`, with its headers and the
      `_retry` mark the response interceptor sets. */
  class RequestConfig {
    var headers: map<string, string>
    var retry: bool

    constructor(headers: map<string, string>)
      ensures this.headers == headers && !retry
    {
      this.headers := headers;
      retry := false;
    }
  }

  /** The request interceptor (components/axiosInstance.ts:12-18). */
  method InterceptRequest(w: Window, config: RequestConfig)
    modifies config
    ensures config.headers == WithBearer(w.storage, old(config.headers))
    ensures config.retry == old(config.retry)
  {
    var token := w.GetItem(AccessKey);
    if token.Some? && token.value != "" {
      config.headers := config.headers[AuthorizationHeader := Bearer(token.value)];
    }
  }

  /** The response interceptor's error handler (components/axiosInstance.ts:23-40).
      The resent request goes through both interceptors again; its own failure
      meets a request already marked `_retry` and is passed on unchanged. */
  method InterceptError(w: Window, config: RequestConfig, status: Option<int>, message: string,
                        refresh: Reply<string>, second: Reply<string>)
    returns (r: Reply<string>, resent: seq<map<string, string>>, refreshBody: Option<Option<string>>)
    modifies w, config
    ensures Trace(r, w.storage, w.location, config.headers, config.retry, resent, refreshBody)
         == OnError(old(w.storage), old(w.location), old(config.headers), old(config.retry),
                    status, message, refresh, second)
    decreases if config.retry then 0 else 1
  {
    r, resent, refreshBody := Err(status, message), [], None;
    if status == Some(401) && !config.retry {
      config.retry := true;
      var token := w.GetItem(RefreshKey);
      refreshBody := Some(token);
      match refresh {
        case Ok(access) =>
          w.SetItem(AccessKey, access);
          config.headers := config.headers[AuthorizationHeader := Bearer(access)];
          InterceptRequest(w, config);
          resent := [config.headers];
          match second {
            case Ok(_) =>
              r := second;
            case Err(status2, message2) =>
              var again, _, _ := InterceptError(w, config, status2, message2, refresh, second);
              r := again;
          }
        case Err(_, _) =>
          w.Clear();
          w.Navigate(LoginPath);
      }
    }
  }

  /** A request made through the client, given the server's replies. */
  method Send(w: Window, config: RequestConfig, first: Reply<string>, refresh: Reply<string>,
              second: Reply<string>)
    returns (r: Reply<string>, sent: seq<map<string, string>>, refreshBody: Option<Option<string>>)
    modifies w, config
    ensures Trace(r, w.storage, w.location, config.headers, config.retry, sent, refreshBody)
         == Run(old(w.storage), old(w.location), old(config.headers), old(config.retry),
                first, refresh, second)
  {
    InterceptRequest(w, config);
    sent := [config.headers];
    match first {
      case Ok(_) =>
        r, refreshBody := first, None;
      case Err(status, message) =>
        var resent;
        r, resent, refreshBody := InterceptError(w, config, status, message, refresh, second);
        sent := sent + resent;
    }
  }

  // ---------------------------------------------------------------------
  // Properties of one call
  // ---------------------------------------------------------------------

  /** Every call sends the request once, with the stored token attached when
      there is one and the caller's headers untouched otherwise. */
  lemma FirstRequestCarriesToken(storage: map<string, string>, location: Option<string>,
                                 headers: map<string, string>, retry: bool,
                                 first: Reply<string>, refresh: Reply<string>, second: Reply<string>)
    ensures var t := Run(storage, location, headers, retry, first, refresh, second);
      1 <= |t.sent| &&
      (HasTruthy(storage, AccessKey) ==> t.sent[0][AuthorizationHeader] == Bearer(storage[AccessKey])) &&
      (!HasTruthy(storage, AccessKey) ==> t.sent[0] == headers)
  {
  }

  /** A successful reply is handed back unchanged, with no store write. */
  lemma SuccessPassesThrough(storage: map<string, string>, location: Option<string>,
                             headers: map<string, string>, retry: bool,
                             first: Reply<string>, refresh: Reply<string>, second: Reply<string>)
    requires first.Ok?
    ensures var t := Run(storage, location, headers, retry, first, refresh, second);
      t.result == first && t.storage == storage && t.location == location &&
      t.retry == retry && |t.sent| == 1 && t.refreshBody == None
  {
  }

  /** A refresh is attempted exactly for a 401 on a request not yet retried,
      and the refresh posts whatever `refresh_token` holds, `null` included. */
  lemma RefreshOnlyOnFirst401(storage: map<string, string>, location: Option<string>,
                              headers: map<string, string>, retry: bool,
                              first: Reply<string>, refresh: Reply<string>, second: Reply<string>)
    ensures var t := Run(storage, location, headers, retry, first, refresh, second);
      (t.refreshBody.Some? <==> first.Err? && first.status == Some(401) && !retry) &&
      (t.refreshBody.Some? ==> t.refreshBody.value == Lookup(storage, RefreshKey) && t.retry)
  {
  }

  /** A request is resent at most once: at most two requests go out, and the
      request is marked `_retry` once a second one went out. */
  lemma AtMostOneResend(storage: map<string, string>, location: Option<string>,
                        headers: map<string, string>, retry: bool,
                        first: Reply<string>, refresh: Reply<string>, second: Reply<string>)
    ensures var t := Run(storage, location, headers, retry, first, refresh, second);
      |t.sent| <= 2 && (|t.sent| == 2 ==> t.retry && t.refreshBody.Some?)
  {
  }

  /** A request already marked `_retry` is never refreshed again, whatever the
      server answers: sending it once more makes no refresh call and puts out
      only itself. */
  lemma RetriedNeverRefreshes(storage: map<string, string>, location: Option<string>,
                              headers: map<string, string>,
                              first: Reply<string>, refresh: Reply<string>, second: Reply<string>)
    ensures var t := Run(storage, location, headers, true, first, refresh, second);
      t.refreshBody == None && |t.sent| == 1 && t.result == first &&
      t.storage == storage && t.location == location
  {
  }

  /** After a successful refresh the new access token is stored, the resent
      request carries exactly that token, and the caller gets the resent
      request's outcome; nothing else in the store changes. */
  lemma RefreshSuccess(storage: map<string, string>, location: Option<string>,
                       headers: map<string, string>, message: string,
                       access: string, second: Reply<string>)
    ensures var t := Run(storage, location, headers, false, Err(Some(401), message), Ok(access), second);
      t.storage == storage[AccessKey := access] &&
      |t.sent| == 2 && t.sent[1][AuthorizationHeader] == Bearer(access) &&
      t.result == second && t.location == location && t.retry
  {
  }

  /** When the refresh fails, every key of the store is cleared, the window
      goes to the login page, and the caller gets the original 401 error. */
  lemma RefreshFailure(storage: map<string, string>, location: Option<string>,
                       headers: map<string, string>, message: string,
                       refresh: Reply<string>, second: Reply<string>)
    requires refresh.Err?
    ensures var t := Run(storage, location, headers, false, Err(Some(401), message), refresh, second);
      t.storage == map[] && t.location == Some(LoginPath) &&
      t.result == Err(Some(401), message) && |t.sent| == 1
  {
  }

  /** Any other error, and a 401 on a request already retried, is handed back
      unchanged with no refresh and no store or location change. */
  lemma OtherErrorsPassThrough(storage: map<string, string>, location: Option<string>,
                               headers: map<string, string>, retry: bool,
                               status: Option<int>, message: string,
                               refresh: Reply<string>, second: Reply<string>)
    requires status != Some(401) || retry
    ensures var t := Run(storage, location, headers, retry, Err(status, message), refresh, second);
      t.result == Err(status, message) && t.storage == storage && t.location == location &&
      t.retry == retry && t.refreshBody == None && |t.sent| == 1
  {
  }
}

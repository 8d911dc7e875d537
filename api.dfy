/**
 * The HTTP client adapter of src/services/api.js: the base-URL fallback and
 * the two interceptors installed on the shared client. The browser's
 * `localStorage` and `window.location.href` are the fields of one `Browser`
 * object that the interceptors and the session store share.
 */
module Api {
  import opened Wrappers

  /** The storage key under which the bearer token is persisted. */
  const TokenKey: string := "auth_token"

  /** The header the request interceptor writes. */
  const AuthorizationHeader: string := "Authorization"

  /** The base URL used when the environment does not configure one. */
  const DefaultBaseUrl: string := "http://localhost:3000"

  /** Where an unauthorized response sends the browser. */
  const LoginLocation: string := "/login"

  /** The state of the browser tab the client runs in. */
  class Browser {
    /** `window.localStorage`: string keys to string values. */
    var localStorage: map<string, string>
    /** The last value assigned to `window.location.href`. */
    var href: string

    constructor (storage: map<string, string>, location: string)
      ensures localStorage == storage && href == location
    {
      localStorage := storage;
      href := location;
    }
  }

  /** The part of a response the model looks at: its status and `data.status.message`. */
  datatype ErrorResponse = ErrorResponse(status: int, message: Option<string>)

  /** A rejected request; `response` is absent for a network failure. */
  datatype ApiError = ApiError(response: Option<ErrorResponse>)

  /** `localStorage.getItem(key)`: the stored value, or null when the key is absent. */
  function GetItem(storage: map<string, string>, key: string): (v: Option<string>)
    ensures v.Some? <==> key in storage
    ensures v.Some? ==> v.value == storage[key]
  {
    if key in storage then Some(storage[key]) else None
  }

  /** JavaScript truthiness of a nullable string: present and non-empty. */
  predicate Truthy(s: Option<string>)
  {
    s.Some? && s.value != ""
  }

  /**
   * `import.meta.env.VITE_API_URL || 'http://localhost:3000'`: the configured
   * value when it is a non-empty string, otherwise the local default.
   */
  function BaseUrl(configured: Option<string>): (url: string)
    ensures url != ""
    ensures Truthy(configured) ==> url == configured.value
    ensures !Truthy(configured) ==> url == DefaultBaseUrl
  {
    if Truthy(configured) then configured.value else DefaultBaseUrl
  }

  /**
   * The headers the request interceptor leaves behind, given the headers it
   * found and the stored token: `Authorization: Bearer <token>` is added
   * exactly when the stored token is truthy, and no other header is touched.
   */
  function Authorize(headers: map<string, string>, stored: Option<string>): (h: map<string, string>)
    ensures Truthy(stored) ==> AuthorizationHeader in h && h[AuthorizationHeader] == "Bearer " + stored.value
    ensures Truthy(stored) ==> h.Keys == headers.Keys + {AuthorizationHeader}
    ensures !Truthy(stored) ==> h == headers
    ensures forall k :: k != AuthorizationHeader ==> (k in h <==> k in headers)
    ensures forall k :: k != AuthorizationHeader && k in headers ==> h[k] == headers[k]
  {
    if Truthy(stored) then headers[AuthorizationHeader := "Bearer " + stored.value] else headers
  }

  /** The status test of the response error hook: `error.response?.status === 401`. */
  predicate IsUnauthorized(e: ApiError)
  {
    e.response.Some? && e.response.value.status == 401
  }

  /** The request config the interceptor receives and mutates in place; `verb` is its HTTP method. */
  class RequestConfig {
    var verb: string
    var url: string
    var headers: map<string, string>

    constructor (verb: string, url: string, headers: map<string, string>)
      ensures this.verb == verb && this.url == url && this.headers == headers
    {
      this.verb := verb;
      this.url := url;
      this.headers := headers;
    }
  }

  /**
   * The request interceptor: reads the stored token and, when it is truthy,
   * writes the bearer header into the config it was given, which it returns.
   */
  method InterceptRequest(config: RequestConfig, browser: Browser) returns (out: RequestConfig)
    modifies config`headers
    ensures out == config
    ensures config.headers == Authorize(old(config.headers), GetItem(browser.localStorage, TokenKey))
  {
    var token := GetItem(browser.localStorage, TokenKey);
    if Truthy(token) {
      config.headers := config.headers[AuthorizationHeader := "Bearer " + token.value];
    }
    out := config;
  }

  /**
   * The response interceptor pair: a resolved response passes through; a
   * rejection with status 401 first removes the stored token and sends the
   * browser to the login page. Every rejection is propagated unchanged.
   */
  method InterceptResponse<T>(outcome: Result<T, ApiError>, browser: Browser) returns (r: Result<T, ApiError>)
    modifies browser
    ensures r == outcome
    ensures outcome.Err? && IsUnauthorized(outcome.error) ==>
      browser.localStorage == old(browser.localStorage) - {TokenKey} && browser.href == LoginLocation
    ensures !(outcome.Err? && IsUnauthorized(outcome.error)) ==>
      browser.localStorage == old(browser.localStorage) && browser.href == old(browser.href)
  {
    if outcome.Err? && IsUnauthorized(outcome.error) {
      browser.localStorage := browser.localStorage - {TokenKey};
      browser.href := LoginLocation;
    }
    r := outcome;
  }
}

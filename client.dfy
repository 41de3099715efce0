/**
 * `src/client/AuthClient.js`: the browser-side client. It keeps a base URL and a bearer
 * token, and each call issues one `fetch`. The network is abstract: a call returns the
 * request it issues, and the parsed response body is a parameter.
 */
module Client {
  import opened Js
  import Middleware
  import Http

  const DefaultBaseUrl := "http://localhost:3000/auth"

  /** `s.replace(/\/$/, "")`: one trailing slash is removed, and only one. */
  function StripTrailingSlash(s: string): (r: string)
    ensures |s| > 0 && s[|s| - 1] == '/' ==> s == r + "/"
    ensures (|s| == 0 || s[|s| - 1] != '/') ==> r == s
  {
    if |s| > 0 && s[|s| - 1] == '/' then s[..|s| - 1] else s
  }

  /** A base URL ending in two slashes keeps one of them. */
  lemma OnlyOneSlashRemoved(s: string)
    ensures StripTrailingSlash(s + "//") == s + "/"
  {
    assert (s + "//")[..|s| + 1] == s + "/";
  }

  /** `getAuthHeaders()` for a given token: the JSON content type, and the bearer header when the token is truthy. */
  function HeadersFor(token: JsVal<string>): (h: map<string, string>)
    ensures "Content-Type" in h && h["Content-Type"] == Http.JsonContentType
    ensures "Authorization" in h <==> TruthyString(token)
    ensures TruthyString(token) ==> h["Authorization"] == Middleware.Scheme + token.v
    ensures h.Keys <= {"Content-Type", "Authorization"}
  {
    var base := map["Content-Type" := Http.JsonContentType];
    if TruthyString(token) then base["Authorization" := Middleware.Scheme + token.v] else base
  }

  /** The header a logged-in client sends is read back by the middleware as exactly its token. */
  lemma ClientHeaderReachesMiddleware(t: string)
    requires t != ""
    ensures Middleware.ExtractToken(Some(HeadersFor(Is(t))["Authorization"])) == Some(t)
  {
    Middleware.BearerHeaderYieldsToken(t);
  }

  /** A body `JSON.stringify` is given: `None` for a call without one. */
  datatype Request = Request(verb: string, url: string, headers: map<string, string>, body: Option<map<string, JsVal<string>>>)

  /** The parsed response body: its `token` field and the rest. */
  datatype ResponseJson = ResponseJson(token: JsVal<string>, fields: map<string, JsVal<string>>)

  class AuthClient {
    var baseUrl: string
    var token: JsVal<string>

    /** `new AuthClient(baseUrl)`; an omitted base URL takes the default. */
    constructor (baseUrl: Option<string>)
      ensures this.baseUrl == StripTrailingSlash(if baseUrl.Some? then baseUrl.value else DefaultBaseUrl)
      ensures token == Null
    {
      this.baseUrl := StripTrailingSlash(if baseUrl.Some? then baseUrl.value else DefaultBaseUrl);
      token := Null;
    }

    method SetToken(t: JsVal<string>)
      modifies this`token
      ensures token == t
    {
      token := t;
    }

    method Logout()
      modifies this`token
      ensures token == Null
    {
      token := Null;
    }

    /** `getAuthHeaders()`. */
    function AuthHeaders(): map<string, string>
      reads this
    {
      HeadersFor(token)
    }

    /** `register(userData)`: a truthy `token` in the response replaces the stored one. */
    method Register(userData: map<string, JsVal<string>>, response: ResponseJson) returns (request: Request, data: ResponseJson)
      modifies this`token
      ensures request == Request("POST", baseUrl + "/register", HeadersFor(old(token)), Some(userData))
      ensures data == response
      ensures TruthyString(response.token) ==> token == response.token
      ensures !TruthyString(response.token) ==> token == old(token)
    {
      request := Request("POST", baseUrl + "/register", AuthHeaders(), Some(userData));
      data := response;
      if TruthyString(data.token) {
        SetToken(data.token);
      }
    }

    /** `login(email, password)`: a truthy `token` in the response replaces the stored one. */
    method Login(email: string, password: string, response: ResponseJson) returns (request: Request, data: ResponseJson)
      modifies this`token
      ensures request.verb == "POST" && request.url == baseUrl + "/login"
      ensures request.headers == HeadersFor(old(token))
      ensures request.body == Some(map["email" := Is(email), "password" := Is(password)])
      ensures data == response
      ensures TruthyString(response.token) ==> token == response.token
      ensures !TruthyString(response.token) ==> token == old(token)
    {
      request := Request("POST", baseUrl + "/login", AuthHeaders(), Some(map["email" := Is(email), "password" := Is(password)]));
      data := response;
      if TruthyString(data.token) {
        SetToken(data.token);
      }
    }

    /** `getProfile()`: a GET carrying the bearer header whenever a token is held. */
    method GetProfile(response: ResponseJson) returns (request: Request, data: ResponseJson)
      ensures request.verb == "GET" && request.url == baseUrl + "/me" && request.body.None?
      ensures TruthyString(token) ==> "Authorization" in request.headers && request.headers["Authorization"] == Middleware.Scheme + token.v
      ensures !TruthyString(token) ==> "Authorization" !in request.headers
      ensures data == response
    {
      request := Request("GET", baseUrl + "/me", AuthHeaders(), None);
      data := response;
    }

    method VerifyEmail(t: string, response: ResponseJson) returns (request: Request, data: ResponseJson)
      ensures request.verb == "POST" && request.url == baseUrl + "/verify-email"
      ensures request.headers == HeadersFor(token)
      ensures request.body == Some(map["token" := Is(t)])
      ensures data == response
    {
      request := Request("POST", baseUrl + "/verify-email", AuthHeaders(), Some(map["token" := Is(t)]));
      data := response;
    }

    method ForgotPassword(email: string, response: ResponseJson) returns (request: Request, data: ResponseJson)
      ensures request.verb == "POST" && request.url == baseUrl + "/forgot-password"
      ensures request.headers == HeadersFor(token)
      ensures request.body == Some(map["email" := Is(email)])
      ensures data == response
    {
      request := Request("POST", baseUrl + "/forgot-password", AuthHeaders(), Some(map["email" := Is(email)]));
      data := response;
    }

    method ResetPassword(t: string, newPassword: string, response: ResponseJson) returns (request: Request, data: ResponseJson)
      ensures request.verb == "POST" && request.url == baseUrl + "/reset-password"
      ensures request.headers == HeadersFor(token)
      ensures request.body == Some(map["token" := Is(t), "newPassword" := Is(newPassword)])
      ensures data == response
    {
      request := Request("POST", baseUrl + "/reset-password", AuthHeaders(), Some(map["token" := Is(t), "newPassword" := Is(newPassword)]));
      data := response;
    }
  }
}

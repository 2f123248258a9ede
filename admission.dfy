/** The request admission rule of internal/pkg/httpsrv/server.go: the origin
    allow-list and the accept/reject decision of the CSRF middleware.

    A request is reduced to what the decision reads. Go's `Header.Get`
    yields "" for a missing header, so headers are plain strings; a missing
    `csrf_token` cookie (the error of `r.Cookie`) is `None`. The cookie's
    value is compared as it arrives. */
module Admission {
  import opened Wrappers

  const StatusForbidden: int := 403

  /** The allow-list map built by `isValidOrigin`. */
  const AllowedOrigins: map<string, bool> :=
    map["http://localhost:8080" := true, "https://localhost:8080" := true]

  /** A Go map lookup of a missing key yields false. */
  function IsValidOrigin(origin: string): (ok: bool)
    ensures ok <==> origin == "http://localhost:8080" || origin == "https://localhost:8080"
  {
    origin in AllowedOrigins && AllowedOrigins[origin]
  }

  datatype Request = Request(
    upgrade: string,             // the Upgrade header
    origin: string,              // the Origin header
    verb: string,                // the HTTP method
    csrfHeader: string,          // the X-CSRF-Token header
    csrfCookie: Option<string>)  // the value of the csrf_token cookie, if sent

  /** Forward: the request is passed to the next handler. Deny: an error
      response with the status and message of `http.Error`. */
  datatype Decision = Forward | Deny(status: int, message: string)

  /** Reference statement of the rule: a websocket upgrade needs an allowed
      origin and nothing else; any other request is let through when it is a
      GET, or when it carries a non-empty token equal to the cookie's value. */
  predicate Admissible(r: Request)
  {
    if r.upgrade == "websocket" then
      r.origin in {"http://localhost:8080", "https://localhost:8080"}
    else
      r.verb == "GET" || (r.csrfHeader != "" && r.csrfCookie == Some(r.csrfHeader))
  }

  /** The decision `csrfMiddleware` takes for one request. */
  function CsrfDecision(r: Request): (d: Decision)
    ensures d.Forward? <==> Admissible(r)
    ensures d.Deny? ==> d.status == StatusForbidden
    ensures d.Deny? ==> (d.message == "Invalid origin" <==> r.upgrade == "websocket")
  {
    if r.upgrade == "websocket" then
      if !IsValidOrigin(r.origin) then Deny(StatusForbidden, "Invalid origin") else Forward
    else if r.verb != "GET" &&
            (r.csrfCookie.None? || r.csrfHeader == "" || r.csrfHeader != r.csrfCookie.value) then
      Deny(StatusForbidden, "Invalid CSRF token")
    else
      Forward
  }

  /** An upgrade from an origin off the list is refused with 403. */
  lemma UpgradeFromUnknownOriginIsRefused(r: Request)
    requires r.upgrade == "websocket" && !IsValidOrigin(r.origin)
    ensures CsrfDecision(r) == Deny(StatusForbidden, "Invalid origin")
  {
  }

  /** An upgrade from an allowed origin is passed on with no CSRF check,
      whatever its method, token and cookie. */
  lemma UpgradeSkipsCsrfCheck(r: Request, verb: string, token: string, cookie: Option<string>)
    requires r.upgrade == "websocket" && IsValidOrigin(r.origin)
    ensures CsrfDecision(r.(verb := verb, csrfHeader := token, csrfCookie := cookie)) == Forward
  {
  }

  /** A GET that is not an upgrade is always passed on. */
  lemma PlainGetIsForwarded(r: Request)
    requires r.upgrade != "websocket" && r.verb == "GET"
    ensures CsrfDecision(r) == Forward
  {
  }

  /** Any other request is refused with 403 exactly when the cookie is missing,
      the token is empty, or the token differs from the cookie's value. */
  lemma NonGetNeedsMatchingToken(r: Request)
    requires r.upgrade != "websocket" && r.verb != "GET"
    ensures CsrfDecision(r) == Deny(StatusForbidden, "Invalid CSRF token") <==>
      r.csrfCookie.None? || r.csrfHeader == "" || r.csrfHeader != r.csrfCookie.value
    ensures CsrfDecision(r) == Forward <==>
      r.csrfCookie.Some? && r.csrfHeader != "" && r.csrfHeader == r.csrfCookie.value
  {
  }
}

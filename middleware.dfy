/** The request middleware of middleware.ts: which paths it runs on
    (`config.matcher`), the "/admin" prefix test of the default export, and
    the session-cookie redirect of `authMiddleware`. The bot-detection
    decision of the wrapping Arcjet middleware is an input. */
module Middleware {
  import opened JsValues

  /** What happens to a request. */
  datatype Decision =
    | NotRun        // the matcher excludes the path: the middleware does not run
    | Blocked       // the bot-detection rule denied the request
    | Next          // the request passes through
    | RedirectHome  // redirect to "/" on the request's own origin

  /** The `favicon.ico` alternative of the matcher: its `.` is a regular
      expression wildcard, so it matches any one character. */
  predicate FaviconPattern(rest: string) {
    |rest| >= 11 && rest[..7] == "favicon" && rest[8..11] == "ico"
  }

  /** The negative lookahead `(?!_next/static|_next/image|favicon.ico|api/auth)`,
      applied to the path after its leading "/". */
  predicate ExcludedRest(rest: string) {
    StartsWith(rest, "_next/static") || StartsWith(rest, "_next/image") || FaviconPattern(rest) || StartsWith(rest, "api/auth")
  }

  /** `config.matcher`: "/" followed by anything that does not begin with an
      excluded alternative. */
  predicate Matched(path: string) {
    |path| >= 1 && path[0] == '/' && !ExcludedRest(path[1..])
  }

  /** `authMiddleware`: a missing or empty session cookie redirects to "/";
      the cookie's value is not checked. */
  function AuthMiddleware(sessionCookie: Option<string>): (d: Decision)
    ensures d == Next <==> TruthyText(sessionCookie)
    ensures d == RedirectHome <==> !TruthyText(sessionCookie)
  {
    if !TruthyText(sessionCookie) then RedirectHome else Next
  }

  /** The whole middleware for a request to `path`. */
  function Handle(path: string, botDenied: bool, sessionCookie: Option<string>): (d: Decision)
    ensures !Matched(path) ==> d == NotRun
    ensures Matched(path) && botDenied ==> d == Blocked
    ensures Matched(path) && !botDenied && !StartsWith(path, "/admin") ==> d == Next
    ensures Matched(path) && !botDenied && StartsWith(path, "/admin") ==>
      (d == RedirectHome <==> !TruthyText(sessionCookie))
    ensures d == RedirectHome ==> StartsWith(path, "/admin")
  {
    if !Matched(path) then NotRun
    else if botDenied then Blocked
    else if StartsWith(path, "/admin") then AuthMiddleware(sessionCookie)
    else Next
  }

  /** Outside "/admin" the cookie plays no part. */
  lemma {:induction false} CookieOnlyMattersUnderAdmin(path: string, botDenied: bool, c1: Option<string>, c2: Option<string>)
    requires !StartsWith(path, "/admin")
    ensures Handle(path, botDenied, c1) == Handle(path, botDenied, c2)
  {
  }

  /** Under "/admin" any two present cookies are treated alike: only presence counts. */
  lemma {:induction false} CookieValueIgnored(path: string, botDenied: bool, a: string, b: string)
    requires a != "" && b != ""
    ensures Handle(path, botDenied, Some(a)) == Handle(path, botDenied, Some(b))
  {
  }

  /** Every excluded rest begins with '_', 'f' or "ap". */
  lemma ExcludedRestHead(rest: string)
    ensures ExcludedRest(rest) ==> |rest| > 1 && (rest[0] == '_' || rest[0] == 'f' || (rest[0] == 'a' && rest[1] == 'p'))
  {
    if |rest| > 1 {
      assert StartsWith(rest, "_next/static") ==> rest[0] == rest[..12][0] == '_';
      assert StartsWith(rest, "_next/image") ==> rest[0] == rest[..11][0] == '_';
      assert FaviconPattern(rest) ==> rest[0] == rest[..7][0] == 'f';
      assert StartsWith(rest, "api/auth") ==> rest[0] == rest[..8][0] == 'a' && rest[1] == rest[..8][1] == 'p';
    }
  }

  /** The prefix test is on characters, not path segments: every path that
      begins with "/admin" ("/admin/courses", but also "/administrator") is
      gated, and without a cookie it is redirected home. */
  lemma {:induction false} AdminPrefixIsTextual(rest: string, botDenied: bool)
    ensures Handle("/admin" + rest, false, None) == RedirectHome
    ensures Handle("/admin" + rest, botDenied, Some("token")) == (if botDenied then Blocked else Next)
  {
    var p := "/admin" + rest;
    assert StartsWith(p, "/admin") by { assert p[..6] == "/admin"; }
    assert p[1..] == "admin" + rest;
    ExcludedRestHead(p[1..]);
    assert p[1] == 'a' && p[2] == 'd';
  }

  /** Static assets, images, the favicon and the auth API are never seen by
      the middleware; the wildcard also excludes "/favicon_ico". */
  lemma ExcludedPaths(rest: string)
    ensures !Matched("/_next/static" + rest) && !Matched("/_next/image" + rest)
    ensures !Matched("/api/auth" + rest) && !Matched("/favicon.ico" + rest)
    ensures !Matched("/favicon_ico")
  {
    assert ("/_next/static" + rest)[1..] == "_next/static" + rest;
    assert ("/_next/image" + rest)[1..] == "_next/image" + rest;
    assert ("/api/auth" + rest)[1..] == "api/auth" + rest;
    assert ("/favicon.ico" + rest)[1..] == "favicon.ico" + rest;
    assert ("_next/static" + rest)[..12] == "_next/static";
    assert ("_next/image" + rest)[..11] == "_next/image";
    assert ("api/auth" + rest)[..8] == "api/auth";
    assert ("favicon.ico" + rest)[..7] == "favicon" && ("favicon.ico" + rest)[8..11] == "ico";
    assert "/favicon_ico"[1..][..7] == "favicon";
  }
}

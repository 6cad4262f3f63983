/**
  The request gate in front of every page and API route. It decides, from
  the path and two cookies, whether a request passes, is sent to the login
  page or the home page, or is refused. The decision is a pure function;
  the rules are tried in the order the gate tries them.
*/
module Middleware {
  import opened Common

  datatype Decision =
    | Pass                  // NextResponse.next()
    | RedirectToLogin       // redirect to /login
    | RedirectHome          // redirect to /
    | RedirectAccessDenied  // redirect to /?error=access_denied
    | Forbidden             // 403 JSON

  /** Paths reachable without a session, with everything below them. */
  const PublicPaths: seq<string> := ["/login", "/api/auth/login", "/api/auth/otp"]

  /** A restricted path prefix and the e-mail addresses allowed under it. */
  datatype Restriction = Restriction(prefix: string, allowed: seq<string>)

  /** The restricted prefixes, in the order the gate checks them. */
  const Restricted: seq<Restriction> := [
    Restriction("/users", ["vinayak@enrich.so"]),
    Restriction("/api/users", ["vinayak@enrich.so"])
  ]

  const StaticExtensions: seq<string> :=
    [".svg", ".png", ".jpg", ".jpeg", ".gif", ".ico", ".css", ".js", ".woff", ".woff2", ".ttf"]

  predicate IsStaticFile(path: string)
  {
    exists i :: 0 <= i < |StaticExtensions| && EndsWith(path, StaticExtensions[i])
  }

  /** Static assets and the framework's own routes skip the gate. */
  predicate Skipped(path: string)
  {
    IsStaticFile(path) || StartsWith(path, "/_next/")
  }

  /** `path === p || path.startsWith(p + '/')` for some public `p`. */
  predicate IsPublicPath(path: string)
  {
    exists i :: 0 <= i < |PublicPaths| && (path == PublicPaths[i] || StartsWith(path, PublicPaths[i] + "/"))
  }

  /** Whether `email` (already lower-cased, `None` when the cookie is
      missing) may not see a path under `r`. */
  predicate Denied(r: Restriction, email: Option<string>)
  {
    email.None? || email.value == "" || email.value !in r.allowed
  }

  /** The loop over the restricted prefixes: the first prefix of `path` whose
      allow-list excludes `email` refuses the request. */
  function CheckRestricted(path: string, email: Option<string>, rules: seq<Restriction>): (d: Decision)
    ensures d == Pass || d == Forbidden || d == RedirectAccessDenied
    ensures d != Pass <==> exists i :: 0 <= i < |rules| && StartsWith(path, rules[i].prefix) && Denied(rules[i], email)
    ensures d != Pass ==> (d == Forbidden <==> StartsWith(path, "/api/"))
  {
    if |rules| == 0 then Pass
    else if StartsWith(path, rules[0].prefix) && Denied(rules[0], email) then
      if StartsWith(path, "/api/") then Forbidden else RedirectAccessDenied
    else
      var d := CheckRestricted(path, email, rules[1..]);
      assert forall i :: 0 <= i < |rules| - 1 ==> rules[1..][i] == rules[i + 1];
      d
  }

  /** The gate. `session` is the `support_session` cookie's value and
      `emailCookie` the `support_user_email` cookie's value (`None` when
      absent). */
  function Decide(path: string, session: Option<string>, emailCookie: Option<string>): (d: Decision)
  {
    if Skipped(path) then Pass
    else
      var email := if emailCookie.Some? then Some(ToLower(emailCookie.value)) else None;
      if session.None? || session.value == "" then
        if IsPublicPath(path) then Pass else RedirectToLogin
      else if path == "/login" then RedirectHome
      else CheckRestricted(path, email, Restricted)
  }

  predicate HasSession(session: Option<string>)
  {
    session.Some? && session.value != ""
  }

  // ---------------------------------------------------------------------
  // Properties
  // ---------------------------------------------------------------------

  /** Static files and `/_next/` paths pass, whatever the cookies. */
  lemma SkippedPasses(path: string, session: Option<string>, emailCookie: Option<string>)
    requires Skipped(path)
    ensures Decide(path, session, emailCookie) == Pass
  {
  }

  /** Without a session a request passes exactly when its path is public,
      and is otherwise sent to the login page. */
  lemma NoSessionGate(path: string, session: Option<string>, emailCookie: Option<string>)
    requires !Skipped(path) && !HasSession(session)
    ensures Decide(path, session, emailCookie) == Pass <==> IsPublicPath(path)
    ensures Decide(path, session, emailCookie) != Pass ==> Decide(path, session, emailCookie) == RedirectToLogin
  {
  }

  /** A nested path under a public path is public; a path that merely
      shares its characters is not. */
  lemma PublicPathBoundary()
    ensures IsPublicPath("/login/x")
    ensures !IsPublicPath("/loginx")
    ensures Decide("/loginx", None, None) == RedirectToLogin
  {
    assert StartsWith("/login/x", PublicPaths[0] + "/") by {
      assert ("/login/x")[..|PublicPaths[0] + "/"|] == "/login/";
    }
    assert !IsStaticFile("/loginx") by {
      forall i | 0 <= i < |StaticExtensions|
        ensures !EndsWith("/loginx", StaticExtensions[i])
      {
      }
    }
    assert ("/loginx")[..7][1] == 'l';
    forall i | 0 <= i < |PublicPaths|
      ensures !("/loginx" == PublicPaths[i] || StartsWith("/loginx", PublicPaths[i] + "/"))
    {
      assert ("/loginx")[6] == 'x';
    }
  }

  /** A signed-in user asking for the login page goes home. */
  lemma SignedInLogin(session: Option<string>, emailCookie: Option<string>)
    requires HasSession(session)
    ensures Decide("/login", session, emailCookie) == RedirectHome
  {
    assert !IsStaticFile("/login") by {
      forall i | 0 <= i < |StaticExtensions|
        ensures !EndsWith("/login", StaticExtensions[i])
      {
      }
    }
  }

  /** With a session, a path outside every restricted prefix (and not the
      login page) passes; under a restricted prefix, an e-mail missing from
      the allow-list gets 403 on API paths and the access-denied redirect on
      pages. */
  lemma SignedInGate(path: string, session: Option<string>, emailCookie: Option<string>)
    requires !Skipped(path) && HasSession(session) && path != "/login"
    ensures var d := Decide(path, session, emailCookie);
      var email := if emailCookie.Some? then Some(ToLower(emailCookie.value)) else None;
      (d != Pass <==> exists i :: 0 <= i < |Restricted| && StartsWith(path, Restricted[i].prefix) && Denied(Restricted[i], email)) &&
      (d != Pass ==> (d == Forbidden <==> StartsWith(path, "/api/"))) &&
      (d == Pass || d == Forbidden || d == RedirectAccessDenied)
  {
  }

  /** Only the case of the e-mail cookie is irrelevant: the cookie is
      lower-cased before the allow-list comparison. */
  lemma EmailCaseInsensitive(path: string, session: Option<string>, e1: string, e2: string)
    requires ToLower(e1) == ToLower(e2)
    ensures Decide(path, session, Some(e1)) == Decide(path, session, Some(e2))
  {
  }

  /** The allowed address passes in any letter case; another address on a
      restricted page is redirected, and on the restricted API refused. */
  lemma AllowListExamples(page: string, api: string, allowed: string, other: string)
    requires page == "/users" && api == "/api/users"
    requires allowed == "Vinayak@Enrich.so" && other == "ops@enrich.so"
    ensures Decide(page, Some("s"), Some(allowed)) == Pass
    ensures Decide(page, Some("s"), Some(other)) == RedirectAccessDenied
    ensures Decide(api, Some("s"), None) == Forbidden
  {
    NotSkipped(page);
    NotSkipped(api);
    SignedInDecide(page, Some("s"), Some(allowed));
    SignedInDecide(page, Some("s"), Some(other));
    SignedInDecide(api, Some("s"), None);
    LowerAllowed(allowed);
    OtherIsLower(other);
    PrefixFacts(page, api);
  }

  /** With a session and off the login page, the gate is the restricted
      prefix loop over the lower-cased e-mail. */
  lemma SignedInDecide(path: string, session: Option<string>, emailCookie: Option<string>)
    requires !Skipped(path) && HasSession(session) && path != "/login"
    ensures Decide(path, session, emailCookie)
      == CheckRestricted(path, if emailCookie.Some? then Some(ToLower(emailCookie.value)) else None, Restricted)
  {
  }

  lemma LowerAllowed(e: string)
    requires e == "Vinayak@Enrich.so"
    ensures ToLower(e) == Restricted[0].allowed[0] && ToLower(e) == Restricted[1].allowed[0]
  {
    assert ToLower(e) == "vinayak@enrich.so";
  }

  lemma OtherIsLower(e: string)
    requires e == "ops@enrich.so"
    ensures ToLower(e) !in Restricted[0].allowed && ToLower(e) != ""
  {
    assert ToLower(e)[0] == 'o';
  }

  lemma PrefixFacts(page: string, api: string)
    requires page == "/users" && api == "/api/users"
    ensures StartsWith(page, Restricted[0].prefix) && !StartsWith(page, Restricted[1].prefix)
    ensures !StartsWith(page, "/api/")
    ensures !StartsWith(api, Restricted[0].prefix) && StartsWith(api, Restricted[1].prefix)
    ensures StartsWith(api, "/api/")
  {
    assert page[1] != api[1];
    assert api[..5] == "/api/";
  }

  /** The restricted test is a plain prefix test: `/usersX` is restricted
      too. */
  lemma PlainPrefixRestriction()
    ensures Decide("/usersX", Some("s"), Some("ops@enrich.so")) == RedirectAccessDenied
  {
    NotSkipped("/usersX");
    assert StartsWith("/usersX", "/users");
  }

  /** A path ending in a static extension passes even under a restricted
      prefix and without a session. */
  lemma StaticExtensionPrecedes()
    ensures Decide("/api/users/a.js", None, None) == Pass
  {
    assert EndsWith("/api/users/a.js", StaticExtensions[7]);
  }

  /** A path without a dot and without `_` in second position is neither
      a static file nor a framework route. */
  lemma NotSkipped(path: string)
    requires forall i :: 0 <= i < |path| ==> path[i] != '.'
    requires |path| >= 2 && path[1] != '_'
    ensures !Skipped(path)
  {
    forall i | 0 <= i < |StaticExtensions|
      ensures !EndsWith(path, StaticExtensions[i])
    {
      var e := StaticExtensions[i];
      if |e| <= |path| {
        assert path[|path| - |e|..][0] == path[|path| - |e|];
      }
    }
    if |path| >= 7 {
      assert path[..7][1] == path[1];
    }
  }
}

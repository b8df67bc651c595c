/** The route gate: from (session present?, pathname) to pass-through or a redirect. */
module RouteGate {

  /** `publicRoutes`. */
  const PublicRoutes: seq<string> := ["/", "/login", "/register", "/auth/callback"]

  /** `publicRoutes.includes(pathname)`: exact string equality. */
  predicate IsPublicRoute(path: string)
  {
    path in PublicRoutes
  }

  /** `pathname.startsWith('/auth')`: a plain prefix test. */
  predicate IsAuthRoute(path: string)
  {
    "/auth" <= path
  }

  datatype Decision = Pass | RedirectToLogin(returnUrl: string) | RedirectToDashboard

  /** `middleware`. The source also computes `pathname.startsWith('/dashboard')` but never
      reads it; it has no counterpart here. */
  function Middleware(hasSession: bool, path: string): (d: Decision)
    ensures !hasSession && (IsPublicRoute(path) || IsAuthRoute(path)) ==> d == Pass
    ensures !hasSession && !IsPublicRoute(path) && !IsAuthRoute(path) ==> d == RedirectToLogin(path)
    ensures hasSession && (IsPublicRoute(path) || IsAuthRoute(path)) ==> d == RedirectToDashboard
    ensures hasSession && !IsPublicRoute(path) && !IsAuthRoute(path) ==> d == Pass
  {
    var open := IsPublicRoute(path) || IsAuthRoute(path);
    if !hasSession then
      if open then Pass else RedirectToLogin(path)
    else if open then RedirectToDashboard
    else Pass
  }

  /** Next.js `:path*`: the base path itself or anything below it. */
  predicate UnderSegment(base: string, path: string)
  {
    path == base || base + "/" <= path
  }

  /** `config.matcher`: the paths the gate runs on at all. */
  predicate Matched(path: string)
  {
    || path == "/" || path == "/login" || path == "/register"
    || UnderSegment("/dashboard", path)
    || UnderSegment("/auth", path)
    || UnderSegment("/api/protected", path)
  }

  /** A request as the framework routes it: the gate only runs on matched paths. */
  function Route(hasSession: bool, path: string): Decision
  {
    if Matched(path) then Middleware(hasSession, path) else Pass
  }

  /** No redirect loop: the target of each redirect is let through for the same session
      state, both by the gate itself and by the framework's routing. */
  lemma RedirectTargetsPass(hasSession: bool, path: string)
    ensures Middleware(hasSession, path).RedirectToLogin? ==> Route(false, "/login") == Pass
    ensures Middleware(hasSession, path).RedirectToDashboard? ==> Route(true, "/dashboard") == Pass
  {
    assert IsPublicRoute("/login");
    assert !IsPublicRoute("/dashboard") by {
      assert "/dashboard" != "/" && "/dashboard" != "/login";
      assert "/dashboard" != "/register" && "/dashboard" != "/auth/callback";
    }
    assert !IsAuthRoute("/dashboard") by {
      assert "/dashboard"[1] != "/auth"[1];
    }
  }

  /** The decision depends on the path only through "public or auth route" (and, for the
      login redirect, the path it carries back), so the unused dashboard flag cannot matter. */
  lemma DecisionDependsOnOpenness(hasSession: bool, p: string, q: string)
    requires (IsPublicRoute(p) || IsAuthRoute(p)) == (IsPublicRoute(q) || IsAuthRoute(q))
    ensures Middleware(hasSession, p).Pass? == Middleware(hasSession, q).Pass?
    ensures Middleware(hasSession, p).RedirectToDashboard? == Middleware(hasSession, q).RedirectToDashboard?
    ensures Middleware(hasSession, p).RedirectToLogin? == Middleware(hasSession, q).RedirectToLogin?
  {
  }

  /** The prefix test makes `/authx` an auth route for the gate, while the matcher does not
      send `/authx` to the gate at all. */
  lemma AuthPrefixIsNotSegment()
    ensures IsAuthRoute("/authx") && !IsPublicRoute("/authx")
    ensures Middleware(false, "/authx") == Pass && Middleware(true, "/authx") == RedirectToDashboard
    ensures !Matched("/authx") && Route(true, "/authx") == Pass
  {
    assert "/auth" <= "/authx";
    assert !UnderSegment("/auth", "/authx") by {
      assert "/authx" != "/auth";
      assert "/authx"[5] != "/auth/"[5];
    }
    assert !UnderSegment("/dashboard", "/authx") by { assert "/authx"[1] != "/dashboard"[1]; }
    assert !UnderSegment("/api/protected", "/authx") by { assert "/authx"[2] != "/api/protected"[2]; }
  }

  /** A signed-out request for a protected dashboard page is sent to the login page
      carrying that page; a signed-in one passes. */
  lemma DashboardIsProtected(sub: string)
    requires sub == [] || sub[0] == '/'
    ensures var path := "/dashboard" + sub;
      Route(false, path) == RedirectToLogin(path) && Route(true, path) == Pass
  {
    var path := "/dashboard" + sub;
    assert path[1] == 'd';
    assert path[..10] == "/dashboard";
    assert Matched(path) by {
      if sub == [] {
        assert path == "/dashboard";
      } else {
        assert "/dashboard/" <= path by { assert path[..11] == "/dashboard/"; }
      }
    }
    assert !IsAuthRoute(path) by { assert path[1] != "/auth"[1]; }
    assert !IsPublicRoute(path) by {
      assert |path| >= 10;
      assert path != "/" && path != "/login" && path != "/register";
      assert path != "/auth/callback" by { assert path[1] != "/auth/callback"[1]; }
    }
  }

  /** Paths outside the matcher never reach the gate: a signed-out request for `/alerts`,
      `/zones` or `/analytics` passes through. */
  lemma UnmatchedPathsPass()
    ensures Route(false, "/alerts") == Pass
    ensures Route(false, "/zones") == Pass
    ensures Route(false, "/analytics") == Pass
  {
    assert !Matched("/alerts") by {
      assert "/alerts"[1] != "/dashboard"[1];
      assert "/alerts"[2] != "/auth"[2] && "/alerts"[2] != "/api/protected"[2];
    }
    assert !Matched("/zones") by {
      assert "/zones"[1] != "/dashboard"[1] && "/zones"[1] != "/auth"[1] && "/zones"[1] != "/api/protected"[1];
    }
    assert !Matched("/analytics") by {
      assert "/analytics"[1] != "/dashboard"[1];
      assert "/analytics"[2] != "/auth"[2] && "/analytics"[2] != "/api/protected"[2];
    }
  }
}

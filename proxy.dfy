/**
 * The request gate run before every route (proxy.js): a fixed allow-list of
 * public path prefixes, then a redirect to the login page when the backend
 * reports no signed-in user.
 */
module Proxy {
  import opened Wrappers
  import opened Backend

  /** The parts of a request URL; the gate reads and rewrites only `pathname`. */
  datatype Url = Url(protocol: string, host: string, pathname: string, search: string, hash: string)

  /** `NextResponse.next()` or `NextResponse.redirect(url)`. */
  datatype Response = Continue | Redirect(location: Url)

  /** The allow-list: raw, case-sensitive `startsWith` tests. */
  predicate IsPublicPath(pathname: string)
  {
    "/login" <= pathname || "/mfa" <= pathname || "/_next" <= pathname || "/favicon.ico" <= pathname
  }

  /**
   * The gate. The user lookup (`getUser()`) happens only after the allow-list
   * check, so `session` matters only for non-public paths, and then only
   * through whether a user is present.
   */
  function Gate(request: Url, session: Session): (r: Response)
    ensures r.Redirect? <==> !IsPublicPath(request.pathname) && session.user.None?
    ensures r.Redirect? ==> r.location == request.(pathname := LoginPath)
  {
    if IsPublicPath(request.pathname) then Continue
    else if session.user.None? then Redirect(request.(pathname := LoginPath))
    else Continue
  }

  /** A public path passes whatever the session is: the lookup's answer is never used. */
  lemma PublicPathIgnoresSession(request: Url, s1: Session, s2: Session)
    requires IsPublicPath(request.pathname)
    ensures Gate(request, s1) == Continue && Gate(request, s2) == Continue
  {
  }

  /** The gate depends on the session only through the presence of a user: assurance levels are never read. */
  lemma GateReadsOnlyUserPresence(request: Url, s1: Session, s2: Session)
    requires s1.user.Some? <==> s2.user.Some?
    ensures Gate(request, s1) == Gate(request, s2)
  {
  }

  /** A signed-in user at aal1 whose account requires aal2 still reaches `/`. */
  lemma Aal1UserReachesHome(request: Url, user: User)
    requires request.pathname == HomePath
    ensures Gate(request, Session(Some(user), Some(AssuranceLevels(Some(Aal1), Some(Aal2))))) == Continue
  {
  }

  /** The redirect keeps protocol, host, query and fragment; only the path becomes `/login`. */
  lemma RedirectKeepsUrl(request: Url, session: Session)
    requires Gate(request, session).Redirect?
    ensures var u := Gate(request, session).location;
      u.pathname == LoginPath && u.protocol == request.protocol && u.host == request.host
      && u.search == request.search && u.hash == request.hash
  {
  }

  /** No redirect loop: the redirect target passes the gate for every session. */
  lemma {:induction false} RedirectTargetPasses(request: Url, session: Session, later: Session)
    requires Gate(request, session).Redirect?
    ensures Gate(Gate(request, session).location, later) == Continue
  {
    assert "/login" <= LoginPath;
  }

  /** Matching is by raw prefix and case-sensitive. */
  lemma PrefixMatchingIsRaw()
    ensures IsPublicPath("/loginx") && IsPublicPath("/mfa-x") && IsPublicPath("/mfa/verify")
    ensures !IsPublicPath("/Login") && !IsPublicPath("/") && !IsPublicPath("/settings/security")
  {
    assert "/login" <= "/loginx";
    assert "/mfa" <= "/mfa-x";
    assert "/mfa" <= "/mfa/verify";
    assert !("/login" <= "/Login") by { assert "/Login"[1] != "/login"[1]; }
    var settings := "/settings/security";
    assert settings[1] == 's';
    assert !("/login" <= settings) && !("/mfa" <= settings) && !("/_next" <= settings)
      && !("/favicon.ico" <= settings) by {
      assert "/login"[1] != 's' && "/mfa"[1] != 's' && "/_next"[1] != 's' && "/favicon.ico"[1] != 's';
    }
  }
}

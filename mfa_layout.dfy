/**
 * The layout around the `/mfa` routes (app/mfa/layout.js): a server-side
 * check that someone is signed in. The request gate lets every `/mfa` path
 * through, so this is the only presence check those pages get.
 */
module MfaLayout {
  import opened Wrappers
  import opened Backend
  import Proxy

  /** `redirect(path)` or the children, unchanged. */
  datatype LayoutResult<C> = RedirectTo(path: string) | Render(children: C)

  function Layout<C>(session: Session, children: C): (r: LayoutResult<C>)
    ensures r == RedirectTo(LoginPath) <==> session.user.None?
    ensures r == Render(children) <==> session.user.Some?
  {
    if session.user.None? then RedirectTo(LoginPath) else Render(children)
  }

  /** Assurance levels are not read: a signed-in aal1 session gets the verify page. */
  lemma Aal1SessionReachesVerifyPage<C>(user: User, next: Option<Level>, children: C)
    ensures Layout(Session(Some(user), Some(AssuranceLevels(Some(Aal1), next))), children) == Render(children)
  {
  }

  /** What a request for an `/mfa` page meets: the gate, then this layout. */
  function MfaRoute<C>(request: Proxy.Url, session: Session, children: C): LayoutResult<C>
  {
    match Proxy.Gate(request, session)
    case Redirect(location) => RedirectTo(location.pathname)
    case Continue => Layout(session, children)
  }

  /**
   * On `/mfa` paths the gate always passes, so the layout alone decides:
   * without a user the request goes to `/login`, with one the page renders.
   */
  lemma {:induction false} LayoutIsOnlyMfaPresenceCheck<C>(request: Proxy.Url, session: Session, children: C)
    requires "/mfa" <= request.pathname
    ensures Proxy.Gate(request, session) == Proxy.Continue
    ensures MfaRoute(request, session, children) == Layout(session, children)
    ensures MfaRoute(request, session, children) == RedirectTo(LoginPath) <==> session.user.None?
  {
    assert Proxy.IsPublicPath(request.pathname);
  }
}

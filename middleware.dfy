/** The request middleware guarding the admin pages. */
module Middleware {
  import opened Text

  datatype Decision = RedirectTo(target: string) | Next

  /** The authentication stand-in: nobody is an administrator. */
  const IsAdmin := false

  /** The guard for a given administrator flag. */
  function Guard(pathname: string, isAdmin: bool): (d: Decision)
  {
    if StartsWith(pathname, "/admin") && !isAdmin then RedirectTo("/") else Next
  }

  /** The middleware as deployed. */
  function Decide(pathname: string): (d: Decision)
  {
    Guard(pathname, IsAdmin)
  }

  /** With the flag fixed to false, a path is sent to '/' exactly when it starts with
      '/admin', and passed on otherwise; only an administrator would ever pass. */
  lemma DecideSpec(pathname: string)
    ensures Decide(pathname) == RedirectTo("/") <==> StartsWith(pathname, "/admin")
    ensures Decide(pathname) == Next <==> !StartsWith(pathname, "/admin")
    ensures Guard(pathname, true) == Next
  {
  }

  /** The test is a raw prefix, so a path that merely begins with the same letters is
      redirected too. */
  lemma AdministratorRedirected(pathname: string)
    requires pathname == "/administrator"
    ensures Decide(pathname) == RedirectTo("/")
  {
    assert pathname[..6] == "/admin";
  }

  /** The `/admin/:path*` matcher: the admin root and anything below it. */
  predicate Matched(pathname: string) {
    pathname == "/admin" || StartsWith(pathname, "/admin/")
  }

  /** Every request the matcher hands to the middleware is redirected, and such a path
      always begins with '/admin'. */
  lemma MatchedRedirected(pathname: string)
    requires Matched(pathname)
    ensures StartsWith(pathname, "/admin")
    ensures Decide(pathname) == RedirectTo("/")
  {
    if pathname != "/admin" {
      assert pathname[..6] == pathname[..7][..6];
    }
  }

  /** '/administrator' is not matched, so the middleware never sees it. */
  lemma AdministratorNotMatched(pathname: string)
    requires pathname == "/administrator"
    ensures !Matched(pathname)
  {
    assert pathname[6] != '/';
  }
}

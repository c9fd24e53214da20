/** The route guard that runs before a dashboard page is served: an
    administrator passes, anyone else is sent back to the login page at `/`.
    Whether the caller is an administrator (the role in the decoded session
    token) is an input. */
module Middleware {
  import opened Text

  /** The parts of a request URL; the guard only ever changes `pathname`. */
  datatype Url = Url(origin: string, pathname: string, search: string, hash: string)

  datatype Decision = Next | Redirect(to: Url)

  const DashboardPrefix: string := "/dashboard"

  /** `middleware(req)` for a request to `url`. */
  function Guard(url: Url, isAdmin: bool): (d: Decision)
    ensures d.Redirect? ==> !isAdmin && d.to == url.(pathname := "/")
  {
    if url.pathname == "/" then Next
    else if StartsWith(url.pathname, DashboardPrefix) && !isAdmin then Redirect(url.(pathname := "/"))
    else Next
  }

  /** The `matcher` `/dashboard/:path*`: the dashboard itself and every path
      below it. */
  predicate MatcherApplies(pathname: string) {
    pathname == DashboardPrefix || StartsWith(pathname, DashboardPrefix + "/")
  }

  /** What a request meets: the guard where the matcher applies, otherwise
      the page is served untouched. */
  function Route(url: Url, isAdmin: bool): (d: Decision)
    ensures d.Redirect? ==> MatcherApplies(url.pathname) && !isAdmin
  {
    if MatcherApplies(url.pathname) then Guard(url, isAdmin) else Next
  }

  lemma RootPasses(url: Url, isAdmin: bool)
    requires url.pathname == "/"
    ensures Guard(url, isAdmin) == Next && Route(url, isAdmin) == Next
  {
  }

  /** A non-administrator on a dashboard path is redirected to the same
      URL with only the path replaced by `/`. */
  lemma NonAdminRedirected(url: Url)
    requires StartsWith(url.pathname, "/dashboard")
    ensures Guard(url, false).Redirect?
    ensures var to := Guard(url, false).to;
      to.pathname == "/" && to.origin == url.origin && to.search == url.search && to.hash == url.hash
  {
  }

  /** The guard redirects exactly non-administrators on dashboard paths. */
  lemma RedirectIff(url: Url, isAdmin: bool)
    ensures Guard(url, isAdmin).Redirect? <==> StartsWith(url.pathname, "/dashboard") && !isAdmin
  {
  }

  /** Every path the matcher hands to the guard starts with `/dashboard`,
      so on them the guard's decision depends on the admin flag alone. */
  lemma MatchedPathsAreGuarded(url: Url, isAdmin: bool)
    requires MatcherApplies(url.pathname)
    ensures Route(url, isAdmin) == if isAdmin then Next else Redirect(url.(pathname := "/"))
  {
    assert DashboardPrefix <= DashboardPrefix + "/";
  }

  /** `/dashboardx` would be refused by the guard's prefix test, but the
      matcher never sends it there. */
  lemma PrefixLookalikeNotMatched(url: Url)
    requires url.pathname == "/dashboardx"
    ensures Guard(url, false).Redirect? && Route(url, false) == Next
  {
    assert DashboardPrefix <= url.pathname;
    assert url.pathname[10] == 'x';
    assert !(DashboardPrefix + "/" <= url.pathname) by {
      assert (DashboardPrefix + "/")[10] == '/';
    }
  }
}

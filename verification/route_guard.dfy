/** The client layout's guard (frontend/src/app/components/ClientLayout.tsx):
    from the loading flag, the authentication flag and the current path it
    decides where to redirect and what to render, and it marks the active
    navigation tab. The flag the layout reads is never provided by the auth
    context (frontend/src/app/context/AuthContext.tsx), so the layout as
    written always sees it as false; `GuardAsWritten` and `Guard` below are
    that behaviour and the intended one. */
module RouteGuard {
  import opened Wrappers
  import opened Text

  const AUTH_PREFIX: string := "/auth"
  const LOGIN: string := "/auth/login"
  const DASHBOARD: string := "/dashboard"

  datatype Redirect = Stay | ToLogin | ToDashboard

  /** What the layout renders: the spinner, the page alone, nothing, or the
      page inside the navigation shell. */
  datatype View = Spinner | Bare | Blank | Shell

  predicate IsAuthPage(path: string) { StartsWith(path, AUTH_PREFIX) }

  predicate IsPublicPage(path: string) { path == "/" }

  /** A page that needs a signed-in user. */
  predicate IsProtected(path: string) { !IsAuthPage(path) && !IsPublicPage(path) }

  /** The effect's decision: nothing while loading; a signed-out user on a
      protected page goes to the login page; a signed-in user on an auth
      page goes to the dashboard. */
  function RedirectFor(loading: bool, authenticated: bool, path: string): (r: Redirect)
    ensures loading ==> r == Stay
    ensures r == ToLogin <==> !loading && !authenticated && IsProtected(path)
    ensures r == ToDashboard <==> !loading && authenticated && IsAuthPage(path)
    ensures IsPublicPage(path) ==> r == Stay
  {
    if loading then Stay
    else if !authenticated && !IsAuthPage(path) && !IsPublicPage(path) then ToLogin
    else if authenticated && IsAuthPage(path) then ToDashboard
    else Stay
  }

  /** The render decision: the spinner while loading; auth and public pages
      alone whatever the user; a protected page inside the shell for a
      signed-in user and nothing otherwise. */
  function ViewFor(loading: bool, authenticated: bool, path: string): (v: View)
    ensures loading <==> v == Spinner
    ensures v == Bare <==> !loading && !IsProtected(path)
    ensures v == Blank <==> !loading && !authenticated && IsProtected(path)
    ensures v == Shell <==> !loading && authenticated && IsProtected(path)
  {
    if loading then Spinner
    else if IsAuthPage(path) || IsPublicPage(path) then Bare
    else if !authenticated then Blank
    else Shell
  }

  function Target(r: Redirect): (path: string)
    requires r != Stay
    ensures r == ToLogin ==> IsAuthPage(path)
    ensures r == ToDashboard ==> IsProtected(path)
  {
    assert DASHBOARD[1] != AUTH_PREFIX[1];
    if r == ToLogin then LOGIN else DASHBOARD
  }

  /** A redirect lands on a page that does not redirect again. */
  lemma NoRedirectLoop(authenticated: bool, path: string)
    requires RedirectFor(false, authenticated, path) != Stay
    ensures RedirectFor(false, authenticated, Target(RedirectFor(false, authenticated, path))) == Stay
  {
  }

  /** A page that is about to be left for the login page shows nothing of
      itself, and the shell is only rendered where no redirect is due. */
  lemma RenderAgreesWithRedirect(loading: bool, authenticated: bool, path: string)
    ensures RedirectFor(loading, authenticated, path) == ToLogin ==> ViewFor(loading, authenticated, path) == Blank
    ensures ViewFor(loading, authenticated, path) == Shell ==> RedirectFor(loading, authenticated, path) == Stay
  {
  }

  /** The guard as written: the flag it reads is missing from the context
      and so always false, whoever is signed in. */
  function GuardAsWritten(loading: bool, user: Option<string>, path: string): (r: (Redirect, View))
    ensures r.0 != ToDashboard && r.1 != Shell
  {
    (RedirectFor(loading, false, path), ViewFor(loading, false, path))
  }

  /** The guard as intended: a user is authenticated when the context holds
      one. */
  function Guard(loading: bool, user: Option<string>, path: string): (r: (Redirect, View))
    ensures !loading && user.Some? && IsProtected(path) ==> r == (Stay, Shell)
    ensures !loading && user.None? && IsProtected(path) ==> r == (ToLogin, Blank)
    ensures !loading && user.Some? && IsAuthPage(path) ==> r == (ToDashboard, Bare)
  {
    (RedirectFor(loading, user.Some?, path), ViewFor(loading, user.Some?, path))
  }

  /** A signed-in user opening the dashboard is sent to the login page and
      shown nothing by the guard as written, and shown the dashboard by the
      intended one. */
  lemma SignedInUserLockedOut(user: string)
    ensures GuardAsWritten(false, Some(user), DASHBOARD) == (ToLogin, Blank)
    ensures Guard(false, Some(user), DASHBOARD) == (Stay, Shell)
  {
    assert !IsAuthPage(DASHBOARD) by {
      assert DASHBOARD[1] != AUTH_PREFIX[1];
    }
  }

  datatype Tab = DashboardTab | CustomersTab | OrdersTab | CampaignsTab | AnalyticsTab | SettingsTab

  function Href(t: Tab): string {
    match t
    case DashboardTab => DASHBOARD
    case CustomersTab => "/dashboard/customers"
    case OrdersTab => "/dashboard/orders"
    case CampaignsTab => "/dashboard/campaigns"
    case AnalyticsTab => "/dashboard/analytics"
    case SettingsTab => "/dashboard/settings"
  }

  /** The Dashboard tab is active on exactly its own path; every other tab
      on any path under its own. */
  predicate Active(t: Tab, path: string)
    ensures Active(t, path) ==> StartsWith(path, Href(t))
  {
    if t == DashboardTab then path == Href(t) else StartsWith(path, Href(t))
  }

  /** Each tab is active on its own page. */
  lemma ActiveOnOwnPage(t: Tab)
    ensures Active(t, Href(t))
  {
  }

  /** Two paths that differ at a position both reach cannot both prefix one
      path. */
  lemma PrefixesClash(path: string, a: string, b: string, i: nat)
    requires i < |a| && i < |b| && a[i] != b[i]
    ensures !(StartsWith(path, a) && StartsWith(path, b))
  {
  }

  /** At most one tab is active on any path. */
  lemma TabsExclusive(t: Tab, u: Tab, path: string)
    requires t != u
    ensures !(Active(t, path) && Active(u, path))
  {
    if t != DashboardTab && u != DashboardTab {
      var i := if Href(t)[11] != Href(u)[11] then 11 else 12;
      PrefixesClash(path, Href(t), Href(u), i);
    }
  }
}

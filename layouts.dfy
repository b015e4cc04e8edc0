/**
 * The two console layouts, support and admin: the role gate their effect
 * applies to the token's claims, the sidebar's active-item rule, the
 * avatar initials and logout. Navigation is the list of paths pushed to
 * the router.
 */
module Layouts {
  import opened Wrappers
  import opened Text
  import Api

  datatype Console = SupportConsole | AdminConsole

  const LoginPath := "/login"
  const DashboardPath := "/dashboard"

  /** Roles each console admits. */
  function AllowedRoles(console: Console): set<string>
  {
    match console
    case SupportConsole => {"support_agent", "platform_admin"}
    case AdminConsole => {"platform_admin"}
  }

  datatype ConsoleUser = ConsoleUser(email: string, role: string)

  datatype GateResult = RedirectTo(path: string) | Admit(user: ConsoleUser)

  /**
   * The effect's decision on the decoded claims: no claims go to the login
   * page, a role the console does not admit goes to the dashboard, and an
   * admitted role becomes the user, with the token subject as e-mail.
   */
  function Gate(claims: Option<Api.TokenClaims>, console: Console): (r: GateResult)
    ensures claims.None? <==> r == RedirectTo(LoginPath)
    ensures claims.Some? && claims.value.role !in AllowedRoles(console) <==> r == RedirectTo(DashboardPath)
    ensures r.Admit? <==> claims.Some? && claims.value.role in AllowedRoles(console)
    ensures r.Admit? ==> r.user == ConsoleUser(claims.value.sub, claims.value.role)
  {
    match claims
    case None => RedirectTo(LoginPath)
    case Some(c) =>
      if c.role !in AllowedRoles(console) then RedirectTo(DashboardPath)
      else Admit(ConsoleUser(c.sub, c.role))
  }

  /** Whoever the admin console admits, the support console admits too. */
  lemma AdminAdmitsOnlySupportUsers(claims: Option<Api.TokenClaims>)
    ensures Gate(claims, AdminConsole).Admit? ==> Gate(claims, SupportConsole) == Gate(claims, AdminConsole)
  {
  }

  // ---------------------------------------------------------------------
  // Sidebar.
  // ---------------------------------------------------------------------

  const SupportItems: seq<string> := ["/support", "/support/lookup", "/support/sessions"]
  const AdminItems: seq<string> := ["/admin/orgs", "/admin/users", "/admin/health"]

  function SidebarItems(console: Console): seq<string>
  {
    match console
    case SupportConsole => SupportItems
    case AdminConsole => AdminItems
  }

  /**
   * The support sidebar: the exact page, or a page under the item's path
   * for every item but the console's home.
   */
  predicate SupportIsActive(pathname: string, href: string) {
    pathname == href || (href != "/support" && StartsWith(pathname, href))
  }

  /** The admin sidebar: any page whose path starts with the item's path. */
  predicate AdminIsActive(pathname: string, href: string) {
    StartsWith(pathname, href)
  }

  predicate IsActive(console: Console, pathname: string, href: string) {
    match console
    case SupportConsole => SupportIsActive(pathname, href)
    case AdminConsole => AdminIsActive(pathname, href)
  }

  /** Two prefixes of one string are prefixes of each other. */
  lemma PrefixesComparable(s: string, a: string, b: string)
    requires StartsWith(s, a) && StartsWith(s, b) && |a| <= |b|
    ensures StartsWith(b, a)
  {
    assert b[..|a|] == s[..|b|][..|a|];
  }

  /** No admin item path is a prefix of another. */
  lemma AdminItemsPrefixFree()
    ensures forall i, j :: 0 <= i < |AdminItems| && 0 <= j < |AdminItems| && i != j
              ==> !StartsWith(AdminItems[j], AdminItems[i])
  {
    assert "/admin/orgs"[7] != "/admin/users"[7];
    assert "/admin/orgs"[7] != "/admin/health"[7];
    assert "/admin/users"[7] != "/admin/health"[7];
  }

  /** Every item is active on its own page. */
  lemma ItemActiveOnItsPage(console: Console, i: nat)
    requires i < |SidebarItems(console)|
    ensures IsActive(console, SidebarItems(console)[i], SidebarItems(console)[i])
  {
  }

  /** For every path at most one sidebar item is active. */
  lemma AtMostOneActive(console: Console, pathname: string, i: nat, j: nat)
    requires i < j < |SidebarItems(console)|
    ensures !(IsActive(console, pathname, SidebarItems(console)[i])
              && IsActive(console, pathname, SidebarItems(console)[j]))
  {
    var items := SidebarItems(console);
    if IsActive(console, pathname, items[i]) && IsActive(console, pathname, items[j]) {
      match console
      case AdminConsole =>
        AdminItemsPrefixFree();
        if |items[i]| <= |items[j]| {
          PrefixesComparable(pathname, items[i], items[j]);
        } else {
          PrefixesComparable(pathname, items[j], items[i]);
        }
        assert false;
      case SupportConsole =>
        if i == 0 {
          assert false;
        } else {
          assert "/support/lookup"[9] != "/support/sessions"[9];
          PrefixesComparable(pathname, items[1], items[2]);
          assert false;
        }
    }
  }

  /** The support home item is active only on the home page itself. */
  lemma SupportHomeOnlyExact(pathname: string)
    ensures SupportIsActive(pathname, "/support") <==> pathname == "/support"
  {
  }

  // ---------------------------------------------------------------------
  // Initials.
  // ---------------------------------------------------------------------

  /**
   * The avatar initials: the upper-cased first characters of the
   * "."-separated parts of the e-mail's local part, empty parts skipped,
   * at most two.
   */
  function Initials(email: string): (r: string)
    ensures var parts := NonEmpty(Split(Split(email, '@')[0], '.'));
            && |r| == (if |parts| < 2 then |parts| else 2)
            && forall i :: 0 <= i < |r| ==> r[i] == ToUpperChar(parts[i][0])
  {
    var parts := NonEmpty(Split(Split(email, '@')[0], '.'));
    var firsts := UpperFirsts(parts);
    if |firsts| <= 2 then firsts else firsts[..2]
  }

  /** `parts.map(n => n[0]?.toUpperCase()).join("")` for parts that are not empty. */
  function UpperFirsts(parts: seq<string>): (r: string)
    requires forall i :: 0 <= i < |parts| ==> parts[i] != ""
    ensures |r| == |parts|
    ensures forall i :: 0 <= i < |r| ==> r[i] == ToUpperChar(parts[i][0])
  {
    if parts == [] then []
    else [ToUpperChar(parts[0][0])] + UpperFirsts(parts[1..])
  }

  /** "first.last@domain" gives the upper-cased first letters of first and last. */
  lemma InitialsOfFirstDotLast(first: string, last: string, domain: string)
    requires first != "" && last != ""
    requires '.' !in first && '.' !in last && '@' !in first && '@' !in last
    ensures Initials(first + "." + last + "@" + domain) == [ToUpperChar(first[0]), ToUpperChar(last[0])]
  {
    var local := first + "." + last;
    assert '@' !in local;
    assert local + "@" + domain == local + ['@'] + domain;
    SplitHead(local, domain, '@');
    assert Join([first, last], ".") == local;
    SplitJoin([first, last], '.');
    NonEmptyKeepsNonEmpty([first, last]);
  }

  // ---------------------------------------------------------------------
  // The layout.
  // ---------------------------------------------------------------------

  class ConsoleLayout {
    const console: Console
    var user: Option<ConsoleUser>
    var loading: bool
    /** Paths pushed to the router, oldest first. */
    var navigations: seq<string>

    constructor (console: Console)
      ensures this.console == console
      ensures user == None && loading && navigations == []
    {
      this.console := console;
      user, loading, navigations := None, true, [];
    }

    /** The initials shown once a user is admitted. */
    function UserInitials(): (r: Option<string>)
      reads this
      ensures r.Some? <==> !loading && user.Some?
      ensures r.Some? ==> r.value == Initials(user.value.email) && |r.value| <= 2
    {
      if !loading && user.Some? then Some(Initials(user.value.email)) else None
    }

    /**
     * The mount effect: decode the token's claims through the API client,
     * then redirect or admit as `Gate` decides. A redirect leaves the
     * loading screen up.
     */
    method AuthEffect(api: Api.ApiClient, decode: string -> Option<Api.TokenClaims>)
      modifies this, api
      ensures var claims := Api.DecodeClaims(Api.CachedToken(old(api.token), old(api.storage), api.inBrowser), decode);
              match Gate(claims, console)
              case RedirectTo(path) =>
                navigations == old(navigations) + [path] && user == old(user) && loading == old(loading)
              case Admit(u) =>
                navigations == old(navigations) && user == Some(u) && !loading
      ensures api.storage == old(api.storage)
      ensures api.token == Api.CachedToken(old(api.token), old(api.storage), api.inBrowser)
    {
      var tokenData := api.DecodeToken(decode);
      if tokenData.None? {
        navigations := navigations + [LoginPath];
        return;
      }
      if tokenData.value.role !in AllowedRoles(console) {
        navigations := navigations + [DashboardPath];
        return;
      }
      user := Some(ConsoleUser(tokenData.value.sub, tokenData.value.role));
      loading := false;
    }

    /** Logout: forget the token and go to the login page. */
    method HandleLogout(api: Api.ApiClient)
      modifies this, api
      ensures api.token == None
      ensures api.storage == if api.inBrowser then old(api.storage) - {Api.TokenStorageKey} else old(api.storage)
      ensures Api.CachedToken(api.token, api.storage, api.inBrowser) == None
      ensures navigations == old(navigations) + [LoginPath]
      ensures user == old(user) && loading == old(loading)
    {
      api.ClearToken();
      navigations := navigations + [LoginPath];
    }
  }

  /** After logout the next mount of either console redirects to the login page. */
  method LogoutThenMount(layout: ConsoleLayout, api: Api.ApiClient, decode: string -> Option<Api.TokenClaims>,
                         next: ConsoleLayout)
    requires layout != next
    modifies layout, api, next
    ensures next.navigations == old(next.navigations) + [LoginPath]
    ensures next.user == old(next.user)
  {
    layout.HandleLogout(api);
    next.AuthEffect(api, decode);
  }
}

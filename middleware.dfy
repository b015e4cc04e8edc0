/**
 * Path-based tenant routing (middleware.ts): one decision per request path,
 * either pass the request through unchanged or rewrite it under `/app/` and
 * attach the tenant identifier as a response header and a cookie.
 */
module TenantRouter {
  import opened Wrappers
  import opened Text

  /** First path segments that are never taken for an organization slug. */
  const ReservedPaths: set<string> := {
    "login", "signup", "forgot-password", "reset-password", "verify-email",
    "admin", "support", "api", "_next", "static",
    "favicon.ico", "robots.txt", "sitemap.xml"
  }

  /** Whole paths that need no tenant context. */
  const PublicPaths: set<string> := {
    "/", "/login", "/signup", "/forgot-password", "/reset-password",
    "/verify-email", "/pricing", "/about", "/contact"
  }

  /** First segments meant to select the personal tenant. */
  const PersonalPaths: seq<string> := [
    "dashboard", "settings", "transactions", "accounts", "reports", "profile"
  ]

  const TenantHeaderName := "X-Tenant-Slug"
  const TenantCookieName := "tenant-slug"
  const PersonalTenant := "personal"

  datatype Header = Header(name: string, value: string)

  datatype Cookie = Cookie(
    name: string, value: string, httpOnly: bool, secure: bool, sameSite: string, path: string)

  /** What the middleware returns: `NextResponse.next()` or a rewrite carrying the tenant. */
  datatype Response = Next | Rewrite(path: string, header: Header, cookie: Cookie)

  /** The cookie both rewrite branches set: readable by scripts, lax, site-wide, secure in production. */
  function TenantCookie(tenant: string, production: bool): Cookie {
    Cookie(TenantCookieName, tenant, false, production, "lax", "/")
  }

  function TenantRewrite(target: string, tenant: string, production: bool): Response {
    Rewrite(target, Header(TenantHeaderName, tenant), TenantCookie(tenant, production))
  }

  /** Length of the longest suffix of `s` made of ASCII letters and digits. */
  function TrailingAlnumRun(s: string): (n: nat)
    ensures n <= |s|
    ensures forall j :: |s| - n <= j < |s| ==> IsAsciiAlnum(s[j])
    ensures n < |s| ==> !IsAsciiAlnum(s[|s| - n - 1])
  {
    if s == [] || !IsAsciiAlnum(s[|s| - 1]) then 0 else 1 + TrailingAlnumRun(s[..|s| - 1])
  }

  /** `FILE_EXTENSION_REGEX.test(s)` for the pattern `\.[a-zA-Z0-9]+$`. */
  predicate EndsWithExtension(s: string) {
    var n := TrailingAlnumRun(s);
    0 < n < |s| && s[|s| - n - 1] == '.'
  }

  /** `s` ends with a dot followed by one or more ASCII letters or digits. */
  ghost predicate HasFileExtension(s: string) {
    exists k :: 0 <= k < |s| - 1 && s[k] == '.' && forall j :: k < j < |s| ==> IsAsciiAlnum(s[j])
  }

  /** The right-to-left scan decides exactly the extension pattern. */
  lemma ExtensionTestCorrect(s: string)
    ensures EndsWithExtension(s) <==> HasFileExtension(s)
  {
    var n := TrailingAlnumRun(s);
    if EndsWithExtension(s) {
      var k := |s| - n - 1;
      assert s[k] == '.' && forall j :: k < j < |s| ==> IsAsciiAlnum(s[j]);
    }
    if HasFileExtension(s) {
      var k :| 0 <= k < |s| - 1 && s[k] == '.' && forall j :: k < j < |s| ==> IsAsciiAlnum(s[j]);
      assert !IsAsciiAlnum(s[k]);
      assert n == |s| - k - 1;
    }
  }

  predicate IsSlugChar(c: char) { IsLowerAlnum(c) || c == '-' }

  /** `ORG_SLUG_REGEX`, that is `^[a-z0-9][a-z0-9-]{1,61}[a-z0-9]$`. */
  predicate IsOrgSlug(s: string)
    ensures IsOrgSlug(s) ==> 3 <= |s| <= 63 && s[0] != '-' && s[|s| - 1] != '-'
  {
    && |s| >= 2
    && IsLowerAlnum(s[0])
    && 1 <= |s| - 2 <= 61
    && (forall i :: 1 <= i < |s| - 1 ==> IsSlugChar(s[i]))
    && IsLowerAlnum(s[|s| - 1])
  }

  /** `pathname.split("/").filter(Boolean)` */
  function Segments(pathname: string): (segments: seq<string>)
    ensures forall x :: x in segments ==> x != "" && '/' !in x
  {
    NonEmpty(Split(pathname, '/'))
  }

  /** The four tests made before the path is split, each of which passes the request through. */
  predicate SkippedBeforeSplit(pathname: string) {
    || StartsWith(pathname, "/api/")
    || StartsWith(pathname, "/_next/")
    || EndsWithExtension(pathname)
    || pathname in PublicPaths
  }

  /** `pathname.slice(1)` */
  function DropFirst(s: string): string {
    if s == [] then [] else s[1..]
  }

  /**
   * The middleware as written. Its personal branch comes after the slug
   * branch and can never be taken (see `PersonalBranchUnreachable`).
   */
  function Middleware(pathname: string, production: bool): (r: Response)
    ensures StartsWith(pathname, "/api/") || StartsWith(pathname, "/_next/") ==> r == Next
    ensures HasFileExtension(pathname) || pathname in PublicPaths ==> r == Next
    ensures |Segments(pathname)| > 0 && Segments(pathname)[0] in ReservedPaths ==> r == Next
    ensures r.Rewrite? ==> StartsWith(r.path, "/app/")
    ensures r.Rewrite? ==> r.header == Header(TenantHeaderName, r.cookie.value)
                           && r.cookie == TenantCookie(r.cookie.value, production)
  {
    ExtensionTestCorrect(pathname);
    if SkippedBeforeSplit(pathname) then Next
    else
      var segments := Segments(pathname);
      if |segments| == 0 then Next
      else
        var first := segments[0];
        if first in ReservedPaths then Next
        else if IsOrgSlug(first) then
          TenantRewrite(OrgTarget(first, segments[1..]), first, production)
        else if first in PersonalPaths then
          TenantRewrite("/app/personal/" + DropFirst(pathname), PersonalTenant, production)
        else Next
  }

  /** Every personal route name already has the shape of an org slug. */
  lemma PersonalNamesAreSlugs()
    ensures forall name :: name in PersonalPaths ==> IsOrgSlug(name)
  {
    forall name | name in PersonalPaths ensures IsOrgSlug(name) {
      assert name == "dashboard" || name == "settings" || name == "transactions"
          || name == "accounts" || name == "reports" || name == "profile";
    }
  }

  /**
   * A request is rewritten exactly when it survives the early tests, has a
   * first segment, that segment is not reserved and it is an org slug; the
   * tenant is then that segment. So the personal branch never fires.
   */
  lemma PersonalBranchUnreachable(pathname: string, production: bool)
    ensures var r := Middleware(pathname, production);
            var segments := Segments(pathname);
            && (r.Rewrite? <==>
                  !SkippedBeforeSplit(pathname) && |segments| > 0
                  && segments[0] !in ReservedPaths && IsOrgSlug(segments[0]))
            && (r.Rewrite? ==> r.cookie.value == segments[0])
  {
    PersonalNamesAreSlugs();
  }

  /** The rewrite target built from a slug and the remaining segments. */
  function OrgTarget(slug: string, rest: seq<string>): (r: string)
    ensures StartsWith(r, "/app/" + slug + "/") && |r| > |"/app/" + slug + "/"|
  {
    var remaining := Join(rest, "/");
    "/app/" + slug + "/" + (if remaining == "" then "dashboard" else remaining)
  }

  /** Splitting an organization target gives back `app`, the slug and the remaining segments. */
  lemma OrgTargetSegments(slug: string, rest: seq<string>)
    requires slug != "" && '/' !in slug
    requires forall i :: 0 <= i < |rest| ==> rest[i] != "" && '/' !in rest[i]
    ensures Segments(OrgTarget(slug, rest)) == ["app", slug] + (if rest == [] then ["dashboard"] else rest)
  {
    var tail := if rest == [] then ["dashboard"] else rest;
    var parts := ["", "app", slug] + tail;
    OrgTargetJoin(slug, rest);
    assert Split(Join(parts, "/"), '/') == parts by {
      assert forall i :: 0 <= i < |parts| ==> '/' !in parts[i];
      SplitJoin(parts, '/');
    }
    OrgTargetParts(slug, tail);
  }

  /** The target is the slash-join of an empty first part, `app`, the slug and the remaining segments. */
  lemma OrgTargetJoin(slug: string, rest: seq<string>)
    requires forall i :: 0 <= i < |rest| ==> rest[i] != ""
    ensures OrgTarget(slug, rest) == Join(["", "app", slug] + (if rest == [] then ["dashboard"] else rest), "/")
  {
    var tail := if rest == [] then ["dashboard"] else rest;
    var head := ["", "app", slug];
    var remaining := Join(rest, "/");
    assert Join(tail, "/") == (if remaining == "" then "dashboard" else remaining) by {
      if rest != [] && |rest| > 1 { JoinAppend([rest[0]], rest[1..], "/"); }
    }
    JoinHead(slug);
    JoinAppend(head, tail, "/");
    assert OrgTarget(slug, rest) == "/app/" + slug + "/" + Join(tail, "/");
  }

  /** The parts before the slug's own join to `/app/<slug>`. */
  lemma JoinHead(slug: string)
    ensures Join(["", "app", slug], "/") == "/app/" + slug
  {
    var head := ["", "app", slug];
    assert head[1..] == ["app", slug] && head[1..][1..] == [slug];
    assert Join([slug], "/") == slug;
    assert Join(["app", slug], "/") == "app" + "/" + slug;
    assert Join(head, "/") == "" + "/" + ("app" + "/" + slug);
    assert "" + "/" + ("app" + "/" + slug) == "/app/" + slug;
  }

  /** Dropping the empty parts of the target's parts leaves `app`, the slug and the tail. */
  lemma OrgTargetParts(slug: string, tail: seq<string>)
    requires slug != ""
    requires forall i :: 0 <= i < |tail| ==> tail[i] != ""
    ensures NonEmpty(["", "app", slug] + tail) == ["app", slug] + tail
  {
    var head := ["", "app", slug];
    NonEmptyAppend(head, tail);
    NonEmptyKeepsNonEmpty(tail);
    assert NonEmpty([slug]) == [slug];
    assert NonEmpty(["app", slug]) == ["app", slug];
    assert NonEmpty(head) == ["app", slug];
  }

  /** Every rewrite is an organization rewrite for the first segment. */
  lemma RewriteIsOrganization(pathname: string, production: bool)
    requires Middleware(pathname, production).Rewrite?
    ensures var segments := Segments(pathname);
            |segments| > 0
            && Middleware(pathname, production)
               == TenantRewrite(OrgTarget(segments[0], segments[1..]), segments[0], production)
  {
    PersonalNamesAreSlugs();
  }

  /** The segments after the first are as clean as the whole list. */
  lemma RestSegmentsClean(segments: seq<string>)
    requires |segments| > 0
    requires forall x :: x in segments ==> x != "" && '/' !in x
    ensures segments[0] != "" && '/' !in segments[0]
    ensures forall i :: 0 <= i < |segments[1..]| ==> segments[1..][i] != "" && '/' !in segments[1..][i]
  {
    assert segments[0] in segments;
    forall i | 0 <= i < |segments[1..]| ensures segments[1..][i] != "" && '/' !in segments[1..][i] {
      assert segments[1..][i] == segments[i + 1] && segments[i + 1] in segments;
    }
  }

  /** The target built from a path's segments is those segments under `app`. */
  lemma OrgTargetKeepsSegments(segments: seq<string>)
    requires |segments| > 0
    requires forall x :: x in segments ==> x != "" && '/' !in x
    ensures Segments(OrgTarget(segments[0], segments[1..]))
            == ["app"] + segments + (if |segments| == 1 then ["dashboard"] else [])
  {
    RestSegmentsClean(segments);
    OrgTargetSegments(segments[0], segments[1..]);
    AppPrefixShape(segments);
  }

  /** Putting `app` before the first segment and then the rest is putting it before them all. */
  lemma AppPrefixShape(segments: seq<string>)
    requires |segments| > 0
    ensures ["app", segments[0]] + (if segments[1..] == [] then ["dashboard"] else segments[1..])
            == ["app"] + segments + (if |segments| == 1 then ["dashboard"] else [])
  {
    assert segments == [segments[0]] + segments[1..];
  }

  /**
   * A rewrite keeps the request's segments and puts `app` in front of them,
   * adding `dashboard` when the slug stood alone; empty segments are gone.
   */
  lemma RewriteTargetSegments(pathname: string, production: bool)
    requires Middleware(pathname, production).Rewrite?
    ensures var segments := Segments(pathname);
            Segments(Middleware(pathname, production).path)
              == ["app"] + segments + (if |segments| == 1 then ["dashboard"] else [])
  {
    RewriteIsOrganization(pathname, production);
    OrgTargetKeepsSegments(Segments(pathname));
  }

  /** The segments of a path given as its `/`-separated parts. */
  lemma SegmentsOfJoin(parts: seq<string>)
    requires |parts| >= 1
    requires forall i :: 0 <= i < |parts| ==> '/' !in parts[i]
    ensures Segments(Join(parts, "/")) == NonEmpty(parts)
  {
    SplitJoin(parts, '/');
  }

  lemma DashboardSegments()
    ensures Segments("/dashboard") == ["dashboard"]
  {
    var parts := ["", "dashboard"];
    assert Join(parts, "/") == "/dashboard";
    SegmentsOfJoin(parts);
    assert NonEmpty(parts) == ["dashboard"];
  }

  lemma DashboardNotSkipped()
    ensures !SkippedBeforeSplit("/dashboard")
  {
    assert !StartsWith("/dashboard", "/api/") by { assert "/dashboard"[1] != "/api/"[1]; }
    assert !StartsWith("/dashboard", "/_next/") by { assert "/dashboard"[1] != "/_next/"[1]; }
    assert '.' !in "/dashboard";
  }

  /**
   * The documented personal route `/dashboard` is taken for an organization
   * called `dashboard`: the rewrite goes to `/app/dashboard/dashboard`, not
   * to `/app/personal/dashboard`.
   */
  lemma DashboardRoutesAsOrganization(production: bool)
    ensures Middleware("/dashboard", production).Rewrite?
    ensures Middleware("/dashboard", production).cookie.value == "dashboard"
    ensures Middleware("/dashboard", production).path == "/app/" + "dashboard" + "/" + "dashboard"
  {
    DashboardRewrite(production);
    assert Join([], "/") == "";
  }

  /** `/dashboard` takes the organization branch with the slug `dashboard` and nothing after it. */
  lemma DashboardRewrite(production: bool)
    ensures Middleware("/dashboard", production) == TenantRewrite(OrgTarget("dashboard", []), "dashboard", production)
  {
    DashboardSegments();
    DashboardNotSkipped();
    assert "dashboard" in PersonalPaths;
    PersonalNamesNotReserved();
    PersonalNamesAreSlugs();
    assert Segments("/dashboard")[1..] == [];
  }

  /**
   * The routing the documentation describes: the personal route names are
   * tested before the slug pattern, so they select the personal tenant.
   */
  function MiddlewarePersonalFirst(pathname: string, production: bool): (r: Response)
    ensures r.Rewrite? ==> StartsWith(r.path, "/app/")
    ensures r.Rewrite? ==> r.header == Header(TenantHeaderName, r.cookie.value)
                           && r.cookie == TenantCookie(r.cookie.value, production)
  {
    if SkippedBeforeSplit(pathname) then Next
    else
      var segments := Segments(pathname);
      if |segments| == 0 then Next
      else
        var first := segments[0];
        if first in ReservedPaths then Next
        else if first in PersonalPaths then
          TenantRewrite("/app/personal/" + DropFirst(pathname), PersonalTenant, production)
        else if IsOrgSlug(first) then
          TenantRewrite(OrgTarget(first, segments[1..]), first, production)
        else Next
  }

  /**
   * With the personal names tested first, a path opening with one of them is
   * rewritten under `/app/personal/`; every other path is routed exactly as
   * the middleware as written routes it.
   */
  lemma PersonalFirstRoutesPersonalNames(pathname: string, production: bool)
    ensures var segments := Segments(pathname);
            var r := MiddlewarePersonalFirst(pathname, production);
            if !SkippedBeforeSplit(pathname) && |segments| > 0 && segments[0] in PersonalPaths
            then r.Rewrite? && r.cookie.value == PersonalTenant
                 && r.path == "/app/personal/" + DropFirst(pathname)
            else r == Middleware(pathname, production)
  {
    var segments := Segments(pathname);
    if !SkippedBeforeSplit(pathname) && |segments| > 0 {
      if segments[0] in PersonalPaths {
        PersonalFirstTakesPersonal(pathname, production);
      } else {
        PersonalFirstAgrees(pathname, production);
      }
    }
  }

  /** A personal name opening the path selects the personal tenant. */
  lemma PersonalFirstTakesPersonal(pathname: string, production: bool)
    requires !SkippedBeforeSplit(pathname) && |Segments(pathname)| > 0
    requires Segments(pathname)[0] in PersonalPaths
    ensures MiddlewarePersonalFirst(pathname, production)
            == TenantRewrite("/app/personal/" + DropFirst(pathname), PersonalTenant, production)
  {
    PersonalNamesNotReserved();
  }

  /** No personal route name is reserved. */
  lemma PersonalNamesNotReserved()
    ensures forall name :: name in PersonalPaths ==> name !in ReservedPaths
  {
    forall name | name in PersonalPaths ensures name !in ReservedPaths {
      if name == "dashboard" {
        assert name !in ReservedPaths;
      } else if name == "settings" {
        assert name !in ReservedPaths;
      } else if name == "transactions" {
        assert name !in ReservedPaths;
      } else if name == "accounts" {
        assert name !in ReservedPaths;
      } else if name == "reports" {
        assert name !in ReservedPaths;
      } else {
        assert name == "profile";
      }
    }
  }

  /** Away from the personal names the two orders of the tests agree. */
  lemma PersonalFirstAgrees(pathname: string, production: bool)
    requires !SkippedBeforeSplit(pathname) && |Segments(pathname)| > 0
    requires Segments(pathname)[0] !in PersonalPaths
    ensures MiddlewarePersonalFirst(pathname, production) == Middleware(pathname, production)
  {
  }

  /** With the personal names first, `/dashboard` selects the personal tenant as documented. */
  lemma DashboardRoutesToPersonal(production: bool)
    ensures MiddlewarePersonalFirst("/dashboard", production).Rewrite?
    ensures MiddlewarePersonalFirst("/dashboard", production).cookie.value == PersonalTenant
    ensures MiddlewarePersonalFirst("/dashboard", production).path == "/app/personal/" + "dashboard"
  {
    DashboardSegments();
    DashboardNotSkipped();
    PersonalFirstRoutesPersonalNames("/dashboard", production);
    assert DropFirst("/dashboard") == "dashboard";
  }
}

# Numbersence web front end — a Dafny model

This project models the decision logic of the Numbersence multi-tenant web
front end and proves properties of it. The model covers:

- **Tenant routing.** The middleware turns a request path into a pass-through
  or a rewrite under `/app/<tenant>/…`. A rewrite carries the tenant as the
  `X-Tenant-Slug` header and the `tenant-slug` cookie.
- **The new-organization form.** The `generateSlug` pipeline, the form's slug
  rule, and the rule that keeps an untouched slug in step with the name. Also
  submission and "Create Another".
- **Category display.** The badge variant and the title-case name of a Plaid
  category.
- **The API client.** The access-token cache, kept in a field and in local
  storage. The headers and errors of a request, the transactions query string,
  and the unverified reading of the token's claims.
- **The transactions table.** Its header with the date filters and the sync
  button, and the pager.
- **The role guards.**
- **The support and admin consoles.** The role gate, the active sidebar item,
  the avatar initials and logout.
- **The support console's active-sessions page.**
- **The floating support widget.**
- **The admin list of organizations.** Its badges and counts.

The shape of each module follows the source:

- **Pure code is functions and lemmas.** This covers the middleware, the
  formatters, the pager, the guards, the sidebar rule and the initials.
- **Components and the API client are classes.** Their state fields are
  updated by methods with `modifies` clauses.
- **Local storage is a `map<string, string>` field.** The router's `push` is
  the log `navigations`.
- **Outside inputs are parameters.** Server replies, JSON and base64 decoding,
  date parsing, the clock and the e-mail check all come in as parameters.

Modules, one per file:

- `Wrappers`: `Option`.
- `Text`: the JavaScript string operations the code uses. These are
  `toLowerCase` and `toUpperCase` on ASCII, `split`, `join`, `trim`,
  `filter(Boolean)` and decimal printing.
- `TenantRouter`: `middleware.ts`.
- `OrgForm`: `src/app/admin/orgs/new/page.tsx`.
- `Format`: `src/lib/format.ts`.
- `Api`: `src/lib/api.ts`.
- `TransactionTable`, `TransactionTableHeader` and `TransactionPagination`:
  the three transaction components.
- `RoleGuard`: `role-guard.tsx`.
- `Layouts`: the support and admin `layout.tsx`. They differ only in their
  sidebar items, their allowed roles and their active-item test.
- `Sessions`: `src/app/support/sessions/page.tsx`.
- `SupportWidget`: `support-widget.tsx`.
- `OrgList`: `src/app/admin/orgs/page.tsx`.

## Model

| member | source | states |
|---|---|---|
| TenantRouter.Middleware | middleware.ts:60-156 | These paths are passed through: paths starting with `/api/` or `/_next/`, paths ending in a file extension, the public paths, and paths whose first segment is reserved. Every rewrite targets `/app/…` and carries the tenant in both the header and the cookie. The cookie is lax, site-wide and script-readable, and it is secure exactly in production. |
| TenantRouter.ExtensionTestCorrect | middleware.ts:55 | The right-to-left scan holds exactly when the path ends in "." followed by one or more ASCII letters or digits. |
| TenantRouter.TrailingAlnumRun | middleware.ts:55 | The length of the longest run of ASCII letters and digits at the end of the path. |
| TenantRouter.IsOrgSlug | middleware.ts:58 | A matching slug has 3 to 63 characters and neither starts nor ends with "-". |
| TenantRouter.Segments | middleware.ts:84 | The segments of a path are its non-empty, "/"-free parts. |
| TenantRouter.SegmentsOfJoin | middleware.ts:84 | Splitting a "/"-joined path and dropping empty parts gives back the non-empty parts. |
| TenantRouter.PersonalNamesAreSlugs | middleware.ts:128-135 | Every personal route name matches the org slug pattern. |
| TenantRouter.PersonalNamesNotReserved | middleware.ts:25-39 | No personal route name is reserved. |
| TenantRouter.PersonalBranchUnreachable | middleware.ts:98-153 | A path is rewritten exactly when it passes the early tests and its first segment is a non-reserved org slug. The tenant is then that segment, so the personal branch never fires. |
| TenantRouter.RewriteIsOrganization | middleware.ts:100-124 | Every rewrite is the organization rewrite of the first segment. |
| TenantRouter.OrgTargetSegments | middleware.ts:103-107 | The segments of the target are `app`, the slug, then the remaining segments, or `dashboard` when none remain. |
| TenantRouter.OrgTarget | middleware.ts:102-107 | The target lies under `/app/<slug>/` and has something after it. |
| TenantRouter.OrgTargetKeepsSegments | middleware.ts:103-107 | The target built from a path's segments is `app` followed by those segments, plus `dashboard` when the slug stood alone. |
| TenantRouter.RewriteTargetSegments | middleware.ts:84-107 | A rewrite keeps the request's non-empty segments in order under `app`. For example, `/acme-co//reports/` goes to `/app/acme-co/reports`. |
| TenantRouter.DashboardSegments | middleware.ts:84 | The segments of `/dashboard` are `["dashboard"]`. |
| TenantRouter.DashboardNotSkipped | middleware.ts:64-81 | `/dashboard` passes none of the early pass-through tests. |
| TenantRouter.DashboardRewrite | middleware.ts:98-107 | `/dashboard` takes the organization branch with slug `dashboard` and no remaining segments. |
| TenantRouter.DashboardRoutesAsOrganization | middleware.ts:12-14 | The documented personal route `/dashboard` is rewritten to `/app/dashboard/dashboard` with tenant `dashboard`. |
| TenantRouter.MiddlewarePersonalFirst | middleware.ts:126-153 | The corrected order of tests (personal names before the slug pattern). Every rewrite is under `/app/` with a matching header and cookie. |
| TenantRouter.PersonalFirstRoutesPersonalNames | middleware.ts:12-14 | With the corrected order, a path opening with a personal name goes to `/app/personal/…` with tenant `personal`. Every other path is routed exactly as the middleware as written routes it. |
| TenantRouter.PersonalFirstTakesPersonal | middleware.ts:137-152 | The corrected order rewrites a personal name to `/app/personal/` plus the path without its leading "/". |
| TenantRouter.PersonalFirstAgrees | middleware.ts:98-155 | Away from the personal names, the corrected order and the written order agree. |
| TenantRouter.DashboardRoutesToPersonal | middleware.ts:12-14 | With the corrected order, `/dashboard` goes to `/app/personal/dashboard` with tenant `personal`. |
| OrgForm.KeepSlugChars | src/app/admin/orgs/new/page.tsx:41 | Removing the disallowed characters never lengthens the name. |
| OrgForm.KeepSlugCharsMembers | src/app/admin/orgs/new/page.tsx:41 | A character survives the filter exactly when it is in the input and is a-z, 0-9, whitespace or "-". |
| OrgForm.SpacesToHyphens | src/app/admin/orgs/new/page.tsx:42 | Replacing whitespace runs never lengthens the string. |
| OrgForm.SpacesToHyphensMembers | src/app/admin/orgs/new/page.tsx:42 | No whitespace is left and every other character is kept. The only character added is "-". |
| OrgForm.CollapseHyphens | src/app/admin/orgs/new/page.tsx:43 | The result has no "--". After a "-" it does not start with one. |
| OrgForm.CollapseHyphensMembers | src/app/admin/orgs/new/page.tsx:43 | Collapsing adds no character and loses no character other than surplus "-". |
| OrgForm.TrimHyphens | src/app/admin/orgs/new/page.tsx:44 | At most one "-" is removed at each end. On a string with no "--", the result neither starts nor ends with "-". |
| OrgForm.CutToMax | src/app/admin/orgs/new/page.tsx:45 | The result is the prefix of length min(n, 63). |
| OrgForm.TrimmedSlug | src/app/admin/orgs/new/page.tsx:39-44 | Before the cut, the slug has only a-z, 0-9 and "-", has no "--", and has no "-" at either end. |
| OrgForm.GenerateSlug | src/app/admin/orgs/new/page.tsx:38-46 | The generated slug has at most 63 characters, all of them a-z, 0-9 or "-". It has no "--" and does not start with "-". It can end with "-" only when it is 63 characters long. |
| OrgForm.SlugRuleIsRouterSlug | src/app/admin/orgs/new/page.tsx:24-31 | The form's slug rule accepts exactly the strings the middleware's slug pattern accepts. |
| OrgForm.ReservedNamesPassSlugRule | src/app/admin/orgs/new/page.tsx:24-31 | `admin` and `support` are reserved by the router, yet the form accepts them as slugs. |
| OrgForm.GeneratedSlugShape | src/app/admin/orgs/new/page.tsx:38-46 | A generated slug of at least two characters that does not end in "-" matches the form's slug pattern. |
| OrgForm.GeneratedSlugRule | src/app/admin/orgs/new/page.tsx:24-46 | A generated slug passes the slug rule exactly when it has at least 3 characters and does not end in "-". |
| OrgForm.TruncatedSlugEndsInHyphen | src/app/admin/orgs/new/page.tsx:44-45 | The name of 62 lower-case letters or digits followed by " b" gives those 62 characters and a "-". That slug fails the form's own rule. |
| OrgForm.ValidSlugIsFixedPoint | src/app/admin/orgs/new/page.tsx:38-46 | Generating a slug from a valid slug with no "--" gives back that slug, with both generators. |
| OrgForm.GenerateSlugFixed | src/app/admin/orgs/new/page.tsx:38-46 | The corrected generator keeps every guarantee of `GenerateSlug` and never ends in "-". It equals `GenerateSlug` whenever that does not end in "-". Its result passes the slug rule exactly when it is at least 3 characters long. |
| OrgForm.NewOrganizationForm.constructor | src/app/admin/orgs/new/page.tsx:80-85 | The default values: empty name, slug and e-mail, and the Pro tier. |
| OrgForm.NewOrganizationForm.HandleNameChange | src/app/admin/orgs/new/page.tsx:93-103 | As the page does it: the slug is regenerated with `generateSlug` from the new name only if it was empty or generated from the previous name. Otherwise it is unchanged. A regenerated slug passes the slug rule exactly when it has at least 3 characters and does not end in "-". |
| OrgForm.NewOrganizationForm.HandleNameChangeFixed | src/app/admin/orgs/new/page.tsx:93-103 | The same handler with the corrected generator. A regenerated slug passes the slug rule exactly when it has at least 3 characters. |
| OrgForm.NewOrganizationForm.EditSlug | src/app/admin/orgs/new/page.tsx:263 | Typing in the slug field changes only the slug. |
| OrgForm.LongNameBlocksSubmit | src/app/admin/orgs/new/page.tsx:93-120 | On the page as written, a fresh form given the name of 62 letters or digits followed by " b" gets a slug ending in "-". That slug fails the schema, so submission sends nothing. |
| OrgForm.LongNameFixedSlugValid | src/app/admin/orgs/new/page.tsx:93-103 | With the corrected handler, the same name gives the 62-character slug, which passes the schema. |
| OrgForm.NewOrganizationForm.Submit | src/app/admin/orgs/new/page.tsx:105-120 | A request is sent exactly when the schema holds, and it carries the form's fields. A success records the invitation link. After a sent request `submitting` is false; otherwise it is unchanged. |
| OrgForm.NewOrganizationForm.CreateAnother | src/app/admin/orgs/new/page.tsx:192-197 | The link, name, slug and e-mail are cleared and the tier is kept. The slug then follows the name again. |
| Format.GetCategoryVariant | src/lib/format.ts:59-62 | A missing or empty category gives `secondary`. A mapped one gives its variant and any other gives `secondary`. |
| Format.FormatCategory | src/lib/format.ts:64-66 | A missing or empty category is shown as "Uncategorized". |
| Format.SuccessOnlyForIncome | src/lib/format.ts:40-57 | Only `INCOME` and `TRANSFER_IN` get `success`. |
| Format.WarningOnlyForCharges | src/lib/format.ts:40-57 | Only `LOAN_PAYMENTS` and `BANK_FEES` get `warning`. |
| Format.FormatCategoryHasNoUnderscore | src/lib/format.ts:64-72 | A formatted category never contains "_", whether it is "Uncategorized" or built from the words. |
| Format.FormatCategoryWords | src/lib/format.ts:67-71 | For a category without spaces, the output has one " "-separated word per "_"-separated input word, which is the number of "_" plus one. Word i is input word i lower-cased with its first character upper-cased. |
| Format.FormatCategoryKeepsLength | src/lib/format.ts:67-71 | A formatted category is as long as the category. |
| Api.Lookup | src/lib/api.ts:42 | `getItem` gives a value exactly when the key is stored, and the value is the stored one. |
| Api.CachedToken | src/lib/api.ts:39-45 | A truthy cached token is returned as it is. Any token returned is either the cached one or, in a browser, the stored one. |
| Api.GetAfterSet | src/lib/api.ts:32-45 | After `setToken(t)`, reading the token gives `t`. |
| Api.GetAfterClear | src/lib/api.ts:39-52 | After `clearToken()`, reading the token gives null. |
| Api.GetTokenIdempotent | src/lib/api.ts:39-45 | Reading the token a second time gives what the first read gave. |
| Api.CachedTokenSources | src/lib/api.ts:39-45 | A truthy cached token wins. Otherwise, in a browser, the stored value is returned. Outside a browser, the field is returned as it is. |
| Api.RequestHeaders | src/lib/api.ts:58-66 | Content-Type comes first. An Authorization header is present exactly when the token is truthy, and its value is "Bearer " + token. |
| Api.ErrorMessage | src/lib/api.ts:73-78 | A failed reply raises its `detail`. An unreadable body gives "An error occurred". A JSON body without `detail` gives the empty message. |
| Api.OptionalParam | src/lib/api.ts:151-154 | A parameter is present exactly when its filter is truthy, with that filter's value. |
| Api.RankedAppend | src/lib/api.ts:151-154 | Appending a parameter of a higher rank keeps the keys strictly ordered. |
| Api.QueryParams | src/lib/api.ts:150-154 | The parameters appear in the order start_date, end_date, page, page_size. |
| Api.QueryParts | src/lib/api.ts:150-154 | The query is the concatenation of the four optional parts. |
| Api.QueryParamsPresence | src/lib/api.ts:150-154 | Each filter is in the query exactly when it is truthy (page 0 and size 0 are left out), with its value in decimal. No other key appears. |
| Api.QueryDatesPresence | src/lib/api.ts:151-152 | Each date is in the query exactly when it is truthy, with its value. |
| Api.QueryPagingPresence | src/lib/api.ts:153-154 | The page and the page size are in the query exactly when they are non-zero, in decimal. |
| Api.QueryKeys | src/lib/api.ts:150-154 | Only the four filter keys appear. |
| Api.Pairs | src/lib/api.ts:156 | Each parameter is rendered as key=value. |
| Api.EncodeQuery | src/lib/api.ts:156 | The query string is empty exactly when there are no parameters. |
| Api.QueryRoundTrip | src/lib/api.ts:156 | Splitting the query string at "&" gives back the key=value pairs. |
| Api.TransactionsEndpoint | src/lib/api.ts:147-160 | The endpoint is the transactions path, followed by "?" and the query only when the query is non-empty. |
| Api.SetFilterParams | src/lib/api.ts:150-154 | The successive `params.set` calls build exactly the specified parameter list. |
| Api.DecodeClaims | src/lib/api.ts:163-165 | Without a truthy token, the result is null. |
| Api.DecodeWithoutPayload | src/lib/api.ts:167-177 | A token without "." has no payload, so the result is null rather than an exception. |
| Api.DecodeThreePartToken | src/lib/api.ts:167-174 | The claims of `h.p.s` are the decoding of `p`. |
| Api.ApiClient.constructor | src/lib/api.ts:25-30 | No cached token, and the given URLs. |
| Api.ApiClient.SetToken | src/lib/api.ts:32-37 | The field holds `t`, storage holds it in a browser, and it reads back as `t`. |
| Api.ApiClient.GetToken | src/lib/api.ts:39-45 | The result is the cached-token function of the old state. The field caches it and storage is unchanged. |
| Api.ApiClient.ClearToken | src/lib/api.ts:47-52 | The field is null, the key is removed in a browser, and the token reads back as null. |
| Api.ApiClient.Request | src/lib/api.ts:54-81 | The URL is base + endpoint and the headers follow the token rule. A success gives the body and a failure gives the error message. |
| Api.ApiClient.GetTransactions | src/lib/api.ts:147-160 | The request goes to the endpoint built from the filters, with the token's headers. |
| Api.ApiClient.DecodeToken | src/lib/api.ts:163-178 | The claims are decoded from the token `getToken()` returns. |
| TransactionPagination.CountLabel | src/components/transactions/transaction-pagination.tsx:24 | The label is the total followed by " transaction" or " transactions", and it ends in "s" exactly when the total is not 1. |
| TransactionPagination.SingularLabelIff | src/components/transactions/transaction-pagination.tsx:24 | The singular label is used exactly for one transaction. |
| TransactionPagination.Pager | src/components/transactions/transaction-pagination.tsx:19-45 | Nothing is rendered exactly when there are at most 1 pages. Previous asks for page-1 and is enabled exactly when page > 1. Next asks for page+1 and is enabled exactly when page < totalPages. |
| TransactionPagination.EnabledTargetsInRange | src/components/transactions/transaction-pagination.tsx:30-42 | An enabled control asks for a page no lower than 1 and no higher than totalPages. |
| TransactionPagination.PagingStaysInRange | src/components/transactions/transaction-pagination.tsx:30-42 | From a page in range, any enabled control lands in range. |
| TransactionTableHeader.SyncButton | src/components/transactions/transaction-table-header.tsx:69-81 | The button exists exactly when there is a linked item. It is disabled exactly while syncing or loading, and its caption follows `syncing`. |
| TransactionTableHeader.TransactionTableHeader.constructor | src/components/transactions/transaction-table-header.tsx:24-28 | The dates come from the props and default to "". |
| TransactionTableHeader.TransactionTableHeader.EditStartDate | src/components/transactions/transaction-table-header.tsx:49 | Only the start date changes. |
| TransactionTableHeader.TransactionTableHeader.EditEndDate | src/components/transactions/transaction-table-header.tsx:56 | Only the end date changes. |
| TransactionTableHeader.TransactionTableHeader.ApplyFilter | src/components/transactions/transaction-table-header.tsx:30-32 | Emits the current dates unchanged. The clear button shows exactly when one of them is non-empty. |
| TransactionTableHeader.TransactionTableHeader.ClearFilter | src/components/transactions/transaction-table-header.tsx:34-38 | Both dates become "", ("", "") is emitted, and the clear button hides. |
| TransactionTable.DateOrNone | src/components/transactions/transaction-table.tsx:94-95 | An empty date is no filter. Any other date is kept. |
| TransactionTable.FetchRequest | src/components/transactions/transaction-table.tsx:47-51 | A fetch sends the date filters with the current page and page size. |
| TransactionTable.ClearedFiltersQuery | src/components/transactions/transaction-table.tsx:47-51 | After the filters are cleared, the query has no date and does have the page and the page size. |
| TransactionTable.TransactionTable.constructor | src/components/transactions/transaction-table.tsx:28-41 | Page 1, size 20, total 0, 0 pages, loading, and no filters. |
| TransactionTable.TransactionTable.PagerView | src/components/transactions/transaction-table.tsx:152-159 | The pager renders exactly when nothing is loading, the list is non-empty, and there is more than one page. It then renders the pager view for the table's page, page count and total. |
| TransactionTable.TransactionTable.EmptyStateExcludesPager | src/components/transactions/transaction-table.tsx:101 | The empty state and the pager never show together. |
| TransactionTable.TransactionTable.FetchTransactions | src/components/transactions/transaction-table.tsx:43-65 | A page replaces the list and the totals and keeps page and size. A failure records its message and keeps the list. Loading ends false either way. |
| TransactionTable.TransactionTable.HandlePageChange | src/components/transactions/transaction-table.tsx:88-90 | Only the page changes. |
| TransactionTable.TransactionTable.HandleDateFilter | src/components/transactions/transaction-table.tsx:92-98 | Empty dates become no filter and the page returns to 1. |
| TransactionTable.TransactionTable.HandleSync | src/components/transactions/transaction-table.tsx:71-86 | Without a linked item nothing changes. Otherwise a failed sync records its message and keeps the list. A successful sync re-fetches with the state `FetchTransactions` gives: a page replaces the list and totals, and a failed fetch records the load-failed message. `syncing` ends false. |
| TransactionTable.EmptyMessageShowsEmptyState | src/components/transactions/transaction-table.tsx:101 | A failed fetch whose error message is empty, as for a failed response without `detail`, leaves a table with no transactions showing the empty state. |
| TransactionTable.ClearThenFilter | src/components/transactions/transaction-table-header.tsx:34-38 | Clearing the header and handing its dates to the table removes both date filters and returns to page 1. |
| RoleGuard.Guard | src/components/guards/role-guard.tsx:14-24 | Children are rendered exactly when the role is allowed. Otherwise the fallback is rendered, nothing by default. |
| RoleGuard.AdminOnly | src/components/guards/role-guard.tsx:26-36 | Children are rendered exactly for the admin role. |
| RoleGuard.GuardMonotonic | src/components/guards/role-guard.tsx:20 | Allowing more roles never hides children that were shown. |
| RoleGuard.GuardDependsOnRoleSet | src/components/guards/role-guard.tsx:20 | Only the set of allowed roles matters. |
| Layouts.Gate | src/app/support/layout.tsx:53-73 | No claims go to `/login`. A role the console does not admit goes to `/dashboard`. An admitted role becomes the user, with the subject as e-mail. |
| Layouts.AdminAdmitsOnlySupportUsers | src/app/admin/layout.tsx:62 | Whoever the admin console admits, the support console admits as the same user. |
| Layouts.PrefixesComparable | src/app/admin/layout.tsx:118 | Two prefixes of one path are prefixes of each other. |
| Layouts.AdminItemsPrefixFree | src/app/admin/layout.tsx:25-41 | No admin item path is a prefix of another. |
| Layouts.ItemActiveOnItsPage | src/app/support/layout.tsx:119-121 | Every item is active on its own page. |
| Layouts.AtMostOneActive | src/app/support/layout.tsx:119-121 | At most one sidebar item is active for any path, in both consoles. |
| Layouts.SupportHomeOnlyExact | src/app/support/layout.tsx:119-121 | The support home item is active only on `/support` itself. |
| Layouts.Initials | src/app/admin/layout.tsx:91-96 | At most two characters. Character i is the upper-cased first character of the i-th non-empty "."-part of the local part. |
| Layouts.UpperFirsts | src/app/support/layout.tsx:95-96 | One upper-cased first character per part. |
| Layouts.InitialsOfFirstDotLast | src/app/support/layout.tsx:92-97 | `first.last@domain` gives the initials of first and last. |
| Layouts.ConsoleLayout.constructor | src/app/support/layout.tsx:50-51 | No user, loading, and no navigation. |
| Layouts.ConsoleLayout.UserInitials | src/app/support/layout.tsx:80-97 | Initials are shown exactly once a user is admitted. They are the initials of the user's e-mail, at most two characters. |
| Layouts.ConsoleLayout.AuthEffect | src/app/support/layout.tsx:53-73 | Redirects push the path `Gate` chooses and leave loading on. Admission sets the user and ends loading. |
| Layouts.ConsoleLayout.HandleLogout | src/app/admin/layout.tsx:74-77 | The token is cleared and reads back as null, and `/login` is pushed. |
| Layouts.LogoutThenMount | src/app/support/layout.tsx:56-59 | After logout the next mount of a console redirects to `/login`. |
| Sessions.Restore | src/app/support/sessions/page.tsx:23-36 | A session is restored exactly when one is stored, it parses, and it expires strictly after now. It carries the stored fields and starts now. |
| Sessions.RemoveById | src/app/support/sessions/page.tsx:46 | Exactly the sessions with that id are removed. |
| Sessions.RemoveByIdAppend | src/app/support/sessions/page.tsx:46 | Removal keeps the order: it distributes over concatenation. |
| Sessions.RemoveByIdAbsent | src/app/support/sessions/page.tsx:46 | Removing an id nobody has changes nothing. |
| Sessions.RemoveByIdIdempotent | src/app/support/sessions/page.tsx:46 | Removing twice is removing once. |
| Sessions.ActiveSessionsPage.LoadEffect | src/app/support/sessions/page.tsx:21-42 | The list becomes the restored session if there is one. Otherwise it is unchanged, since a parse failure is caught. Loading ends false. |
| Sessions.ActiveSessionsPage.HandleEndSession | src/app/support/sessions/page.tsx:44-47 | The storage key is removed and the sessions with that id are dropped. |
| Sessions.MountPage | src/app/support/sessions/page.tsx:21-42 | A fresh page lists at most one session, and only an unexpired one. |
| Sessions.EndThenRemount | src/app/support/sessions/page.tsx:44-47 | Ending the listed session empties the list and the storage, so a remount lists nothing. |
| SupportWidget.ExpandedAfterClick | src/components/support-widget.tsx:101-102 | A click expands entry i unless i was the expanded entry. In that case it collapses everything. |
| SupportWidget.SecondClickCollapses | src/components/support-widget.tsx:101-102 | A second click on the same entry collapses it. |
| SupportWidget.SupportWidget.constructor | src/components/support-widget.tsx:25-29 | Closed, FAQ view, empty message, and nothing expanded. |
| SupportWidget.SupportWidget.TogglePill | src/components/support-widget.tsx:181 | Toggles `isOpen` and nothing else. |
| SupportWidget.SupportWidget.ResetWidget | src/components/support-widget.tsx:43-48 | FAQ view, empty message, no confirmation, and nothing expanded. |
| SupportWidget.SupportWidget.Close | src/components/support-widget.tsx:77-81 | Closed and reset. |
| SupportWidget.SupportWidget.ClickFaq | src/components/support-widget.tsx:100-103 | The expanded entry follows `ExpandedAfterClick`, so at most one of the three is expanded. |
| SupportWidget.SupportWidget.ContactUs | src/components/support-widget.tsx:129-130 | The view becomes the contact form. |
| SupportWidget.SupportWidget.Back | src/components/support-widget.tsx:65-67 | From the contact form, the view returns to the FAQ. |
| SupportWidget.SupportWidget.EditMessage | src/components/support-widget.tsx:27 | Only the message changes. |
| SupportWidget.SupportWidget.Submit | src/components/support-widget.tsx:31-41 | From the contact view, a blank message changes nothing. Otherwise the confirmation shows and a timer is scheduled. |
| SupportWidget.SupportWidget.TimerFires | src/components/support-widget.tsx:36-40 | The confirmation and the message are cleared and the FAQ view returns. |
| OrgList.StatusBadge | src/app/admin/orgs/page.tsx:28-33 | "Suspended" with the warning variant exactly for an inactive tenant. "Active" with the success variant otherwise. |
| OrgList.TierBadgeVariant | src/app/admin/orgs/page.tsx:35-45 | The tier table's variant, and outline for any other tier. |
| OrgList.TierBadgeDistinguishesPaidTiers | src/app/admin/orgs/page.tsx:36-42 | `default` is only enterprise and `secondary` is only pro. Everything else is outline. |
| OrgList.WithActivity | src/app/admin/orgs/page.tsx:70-71 | Exactly the tenants with the given activity are kept. |
| OrgList.ActivePlusSuspended | src/app/admin/orgs/page.tsx:70-71 | Active plus suspended equals the page's item count. |
| OrgList.PageStats | src/app/admin/orgs/page.tsx:68-72 | The total is the server's. Active and suspended count the page and add up to its size. |
| OrgList.OrganizationsPage.FetchTenants | src/app/admin/orgs/page.tsx:62-78 | A page replaces the list and the stats. A failure records its message. Loading ends false either way. |
| Text.ToLower | src/lib/format.ts:68 | Same length, with each character lower-cased (ASCII). |
| Text.Split | middleware.ts:84 | At least one part, and no part contains the separator. Joining the parts gives back the string. |
| Text.SplitJoin | middleware.ts:84 | Splitting a join of separator-free parts gives back the parts. |
| Text.SplitCount | src/lib/format.ts:69 | The number of parts is the number of separators plus one. |
| Text.SplitHead | src/app/support/layout.tsx:93 | The first part is everything before the first separator. |
| Text.NonEmpty | middleware.ts:84 | `filter(Boolean)` keeps exactly the non-empty strings and never lengthens the list. |
| Text.TrimEmptyIff | src/components/support-widget.tsx:32 | A trimmed message is empty exactly when every character is JavaScript whitespace. |
| Text.NatToStringRoundTrip | src/lib/api.ts:153-154 | Reading the printed decimal of n back gives n. |
| Text.IntToStringInjective | src/lib/api.ts:153-154 | Different numbers print differently. |

## Left out

- Network I/O is left out: `fetch`, `login`, `getOIDCConfig`, `healthCheck`, the Plaid methods and `adminCreateTenant`. Each reply is a parameter (`HttpReply`, `PageReply`, `TenantReply`, the sync failure and the creation outcome).
- `request` does not model merging `options.headers`. No caller in the core passes headers.
- `JSON.parse`, `atob`, `new Date(...)` and `Date.now()` are parameters. These are `decode`, `parse`, `expiry`, `now` and `nowIso`.
- `formatCurrency`, `formatDate` and `formatDateTime` are left out. They use `Intl`, date parsing and floating-point amounts. The transaction amount is not a field of `Transaction` for the same reason.
- Text.ToLower: case mapping covers ASCII only. Unicode case mapping and UTF-16 lengths are not modelled. So `FormatCategoryKeepsLength` holds only for the model's strings.
- `URLSearchParams` percent-encoding is left out. `EncodeQuery` writes keys and values as they are, and the round trip assumes no "&" in them.
- Lookups in plain JavaScript objects are modelled as maps. In the source, prototype keys such as "constructor" would return a truthy function (`CATEGORY_VARIANT_MAP[category]`, `variants[tier]`).
- The Next.js `config.matcher` and the mechanics of `NextResponse` and `nextUrl.clone` are left out. The response is a plain datatype.
- Zod's `.email()` check is the boolean parameter `emailValid`. Zod's error messages are not modelled.
- React rendering, toasts, the clipboard and the `copied` flag are left out. Effect scheduling is a separate method call, for example `FetchTransactions` after a filter change. Races between overlapping async calls are not modelled.
- `setTimeout`'s delay is not modelled. A scheduled timer is counted in `pendingTimers` and runs when `TimerFires` is called.
- The support widget's `console.log` and the sessions page's `console.error` are left out.
- `onSyncComplete` is left out. It is a callback into the caller.
- `formatTime` on the sessions page is left out. It is date formatting.
- The support lookup page, the support and admin home pages, the health page, the dashboard page, `plaid-link.tsx`, the transaction row, the empty state, the skeleton and the users page are not part of this model. They hold no rule beyond orchestration or presentation.

## Findings

| source | as written | input that shows it | evidently intended | confidence | as-written member | corrected member |
|---|---|---|---|---|---|---|
| middleware.ts:98-153 | The slug test runs before the personal-name test, and every personal name matches the slug pattern. So the personal branch is dead. | `/dashboard` is rewritten to `/app/dashboard/dashboard` with tenant `dashboard` | `/dashboard` and the other personal names go to `/app/personal/…` with tenant `personal`, as the doc comment at lines 12-14 says | high; not executed | TenantRouter.DashboardRoutesAsOrganization | TenantRouter.MiddlewarePersonalFirst |
| src/app/admin/orgs/new/page.tsx:44-45 | The leading and trailing "-" are removed before the cut to 63 characters, so the cut can leave a "-" at the end | 62 lower-case letters or digits followed by " b": the slug is those 62 characters and "-", which fails the form's own slug rule | the generated slug never ends in "-" | high; not executed | OrgForm.TruncatedSlugEndsInHyphen | OrgForm.GenerateSlugFixed |

Other behaviour worth knowing:

- **The form accepts reserved slugs.** The slug rule accepts `admin` and `support`, which the router reserves (`OrgForm.ReservedNamesPassSlugRule`). An organization with such a slug could never be reached by its path.
- **A valid slug is not always reproduced.** The form's slug rule allows "--", which the generator never produces. So `ValidSlugIsFixedPoint` needs the extra condition that the slug has no "--".
- **An empty error shows the empty state.** A fetch failure whose `Error` has an empty message sets `error` to "". When no transactions are listed, the table then shows the empty state instead of the error, because `ShowsEmptyState` tests the error's truthiness (`EmptyMessageShowsEmptyState`).
- **The form models the page as written.** `NewOrganizationForm.HandleNameChange` uses `GenerateSlug`, so the bug of the second finding reaches the form (`LongNameBlocksSubmit`). `HandleNameChangeFixed` is the same handler with `GenerateSlugFixed`.

# Cafetería del Caos front end: store slices, route access and route metadata

A Dafny model of the sequential logic of the community site's Next.js front end:

- the **events slice** of the client store (`EventsState`): a list of events and a
  selected event, changed in place by `getEvents`, `getEvent`, `addEvent`,
  `updateEvent` (first event with the id) and `deleteEvent` (every event with the id);
- the **auth slice** (`AuthState`): `isLoggedIn`, `userData` and the browser storage
  slot `userData`, changed by `login`, `logout` and `initializeAuth`;
- the two **middlewares**: the role-based one at the repository root (protected
  prefixes, session cookie, role taken from the token) and the session-only one under
  `src/` (`/(protected)` and `/api` need a session);
- the **route-config queries**: visible public routes, static and dynamic SEO routes,
  disallowed paths, the robots file, the sitemap, the page head built from the first
  matching route's SEO metadata, and the header's menus;
- the **home page data**: recurring events and the first three one-off events, and the
  empty fallback when a request fails.

Files: `wrappers.dfy` (Option), `seqs.dfy` (filter, map, some, findIndex, flat,
subsequence), `text.dfy` (substring search, `split(c)[0]`, truthiness), `routes.dfy`
(route records and config), `middleware.dfy`, `session_middleware.dfy`,
`seo_utils.dfy`, `robots.dfy`, `sitemap.dfy`, `seo_headers.dfy`, `header.dfy`,
`events.dfy`, `auth.dfy`, `home_page.dfy`.

Modelling choices:

- The route configuration is an input value, `Config(publicRoutes, roleRoutes)`, with the
  role routes as a sequence of (role, routes) pairs in the JSON object's key order.
  `viewHeader` and `seo` are optional because the code tests them as possibly absent
  (`viewHeader !== false`, `route?.seo`); an absent `hidden` behaves as `false`
  everywhere, so it is a `bool`.
- `roleRoutes[role] || []` is the first entry with that key, or no routes; an array is
  truthy even when empty, so an empty entry is returned as is.
- Reading the role from the session token is a function parameter
  `decode: string -> Option<Role>`; `None` stands for the parse throwing. A payload
  without a `role` field looks up the key `"undefined"`, which is just a role without an
  entry.
- The storage slot is a separate `Storage` object shared by store instances, because it
  outlives a page reload; a stored user reads back as the same user.
- The site URL read from the environment is an input `env: Option<string>`; the robots
  file, the sitemap and the page head all turn it into the base URL with `SiteUrl`. The
  current path is an input.
- Sitemap priorities are integer tenths (10 for 1.0, 8 for 0.8).
- `repetition` is an optional string; "truthy" means present and not empty.
- Every event reducer spreads the payload and copies its three date fields unchanged,
  so the copy equals the payload (`Events.Copy`).

## Model

| member | source | states |
|---|---|---|
| `Routes.RoutesOf` | middleware.ts:44 | no entry for the role gives no routes; otherwise the routes of the first entry with that key |
| `Routes.AllRoleRoutes` | middleware.ts:13-14 | the role lists laid end to end in entry order, each occurrence kept (list `i` sits at the summed length of the lists before it); a route is in it iff it is listed under some role |
| `Routes.AllRoleRoutesHeadAndTail` | middleware.ts:13-14 | the flattened list is the first role's routes followed by the flattening of the remaining entries |
| `Routes.SiteUrl` | src/app/robots.ts:5 | the environment's URL when set and non-empty, otherwise `https://cafeteriadelcaos.com` |
| `AccessMiddleware.IsProtectedRoute` | middleware.ts:13-15 | true iff some role route flagged protected has a path that is a prefix of the current path |
| `AccessMiddleware.IsRouteAllowedForRole` | middleware.ts:43-46 | true iff some route listed under the role is a prefix of the path; false for a role without an entry |
| `AccessMiddleware.Middleware` | middleware.ts:6-41 | the answer is Next, redirect to `/login` or redirect to `/`; Next iff the path is unprotected or the session decodes to a role allowed there; `/login` iff protected and the cookie is missing or does not decode; `/` iff protected, decoded and not allowed |
| `SessionMiddleware.Middleware` | src/middleware.ts:4-15 | redirect to `/login` iff the path starts with `/(protected)` or `/api` and there is no session; with a session always Next |
| `SeoUtils.AllPublicRoutes` | src/utils/seoUtils.ts:6-8 | exactly the non-hidden public routes, each as often as in the config, in config order |
| `SeoUtils.StaticSeoRoutes` | src/utils/seoUtils.ts:10-12 | exactly the non-hidden public routes whose path has no `[`, a subsequence of the visible public routes |
| `SeoUtils.DynamicSeoRoutes` | src/utils/seoUtils.ts:25-27 | exactly the non-hidden public routes whose path has a `[`, a subsequence of the visible public routes |
| `SeoUtils.DynamicRoutePatterns` | src/utils/seoUtils.ts:25-32 | one pattern per dynamic visible route, in order, whose pattern is the path and whose type is the seo type when there is seo |
| `SeoUtils.StaticAndDynamicCoverPublic` | src/utils/seoUtils.ts:10-27 | the static and dynamic routes together are the visible public routes, each occurrence exactly once |
| `SeoUtils.DisallowedRoutes` | src/utils/seoUtils.ts:14-23 | every role route's path in config order, then `/api`, `/dashboard`, `/login`, `/register`; length is the role-route count plus 4 |
| `Robots.AllowedRoutes` | src/app/robots.ts:11-13 | exactly the visible static public routes whose robots value does not contain `noindex`, each as often as among the static routes, in static-route order |
| `Robots.Robots` | src/app/robots.ts:4-19 | one rule, for user agent `*`, allowing the allowed routes' paths and disallowing the disallowed routes; sitemap at the site URL + `/sitemap.xml` |
| `Robots.AllowedPathsAreIndexable` | src/app/robots.ts:11-13 | every allowed path is the path of a visible, static, indexable public route |
| `Robots.AllowKeepsStaticOrder` | src/app/robots.ts:11-13 | the allowed paths are a subsequence of the static routes' paths |
| `Sitemap.Sitemap` | src/app/sitemap.ts:4-14 | one entry per static SEO route in order; url is the site URL + path; daily and priority 1.0 iff the path is `/`, else weekly and 0.8 |
| `SeoHeaders.SearchOrder` | src/components/SEOHeaders.tsx:16-19 | the public routes as prefix and the flattened role routes as suffix, with the summed length |
| `SeoHeaders.MatchKey` | src/components/SEOHeaders.tsx:22 | the key is the prefix of the path before its first `:`, or the whole path |
| `SeoHeaders.FindRouteSeo` | src/components/SEOHeaders.tsx:15-38 | the seo of the first route whose key prefixes the current path; the default metadata when none matches or that route has no seo |
| `SeoHeaders.PlainRouteMatchesByPrefix` | src/components/SEOHeaders.tsx:21-24 | a route path without `:` matches exactly the paths it is a prefix of |
| `SeoHeaders.JsonLdType` | src/components/SEOHeaders.tsx:80-85 | `Article` iff type `article`, `Event` iff `event` or `events`, `WebSite` otherwise |
| `SeoHeaders.ImageUrl` | src/components/SEOHeaders.tsx:57 | an image URL exists iff the image is non-empty, and is site URL + image |
| `SeoHeaders.RobotsTag` | src/components/SEOHeaders.tsx:67-71 | the seo robots value when non-empty, else `index, follow` |
| `SeoHeaders.HeadFor` | src/components/SEOHeaders.tsx:11-95 | canonical, og and JSON-LD URLs are site URL + current path; title, description, keywords, og type, images, robots and JSON-LD type come from the found seo |
| `SeoHeaders.UnmatchedPathGetsDefaults` | src/components/SEOHeaders.tsx:26-37 | with no matching route the head has type `website`, robots `index, follow`, JSON-LD `WebSite` and the logo image |
| `Header.RoleRoutesFor` | src/components/Header.tsx:29-31 | no routes without a role or with an empty role; otherwise the role's entry (none when it has no entry) |
| `Header.CombinedRoutes` | src/components/Header.tsx:33 | all public routes, hidden ones too, followed by the role's routes |
| `Header.MainRoutes` | src/components/Header.tsx:35 | exactly the combined routes that are not hidden and whose viewHeader is not false, in order |
| `Header.DropdownRoutes` | src/components/Header.tsx:36 | exactly the hidden combined routes, in order |
| `Header.MenusPartitionRoutes` | src/components/Header.tsx:35-36 | main menu, dropdown and the visible routes with viewHeader false split the combined routes; the menus share no route |
| `Header.NoRoleOnlyPublic` | src/components/Header.tsx:28-36 | without a role entry the menus are built from the public routes alone |
| `Header.AccountItemFor` | src/components/Header.tsx:95-99 | exactly one account item: logout iff logged in, otherwise the login link to `/Login` |
| `Header.Sidebar.constructor` | src/components/Header.tsx:17 | the side panel starts closed |
| `Header.Sidebar.HandleToggleSidebar` | src/components/Header.tsx:38 | negates `showSidebar` |
| `Header.Sidebar.HandleRoute` | src/components/Header.tsx:40-43 | leaves the side panel closed |
| `Header.Sidebar.HandleOffcanvasItem` | src/components/Header.tsx:129 | both handlers read the rendered value, so the panel ends negated: an open panel closes |
| `Events.Copy` | src/redux/events.ts:43-48 | the spread copy with the dates copied equals the payload |
| `Events.IndexOfId` | src/redux/events.ts:52 | the first index with the id, or -1 iff no event has it |
| `Events.ReplaceFirstSpec` | src/redux/events.ts:51-60 | only the first event with the id becomes the payload; length and all other positions kept; absent id changes nothing |
| `Events.WithoutIdSpec` | src/redux/events.ts:62-64 | no event with the id remains; every other event keeps its count and relative order; absent id changes nothing |
| `Events.EventsState.constructor` | src/redux/events.ts:17-20 | the list is empty and nothing is selected |
| `Events.EventsState.GetEvents` | src/redux/events.ts:26-33 | the list becomes the payload; the selection is kept |
| `Events.EventsState.GetEvent` | src/redux/events.ts:34-41 | selects the payload; the list is kept |
| `Events.EventsState.AddEvent` | src/redux/events.ts:42-50 | appends the payload with no id check; the selection is kept |
| `Events.EventsState.UpdateEvent` | src/redux/events.ts:51-60 | the list becomes `ReplaceFirst` of the old list; the selection is kept |
| `Events.EventsState.DeleteEvent` | src/redux/events.ts:62-64 | the list becomes `WithoutId` of the old list; the selection is kept |
| `Events.SelectionIsNeverRefreshed` | src/redux/events.ts:34-64 | after selecting an event, updating and deleting it, the selection still holds the old copy |
| `Auth.AuthState.constructor` | src/redux/auth.ts:11-14 | not logged in, no user |
| `Auth.AuthState.Login` | src/redux/auth.ts:20-26 | logged in with the user; in a browser the user is stored, otherwise storage is kept; the flag matches the user |
| `Auth.AuthState.Logout` | src/redux/auth.ts:27-34 | logged out, no user; in a browser storage is cleared, otherwise kept |
| `Auth.AuthState.InitializeAuth` | src/redux/auth.ts:35-43 | in a browser with a stored user, restores it and logs in; otherwise nothing changes; the flag keeps matching the user |
| `Auth.RestoreAfterReload` | src/redux/auth.ts:20-42 | login, then a fresh state initialised from the same storage, yields that user, logged in |
| `Auth.NoRestoreAfterLogout` | src/redux/auth.ts:27-42 | login, logout, then a fresh state initialised yields nobody |
| `Auth.ServerSideLoginNotPersisted` | src/redux/auth.ts:23-25 | without a window a login leaves storage as it was, and a fresh state initialised stays logged out |
| `HomePage.RepetitiveEvents` | src/app/page.tsx:36 | exactly the events with a truthy repetition, each as often as fetched, in order |
| `HomePage.UniqueEvents` | src/app/page.tsx:37 | the first min(3, n) one-off events in order, n being the number of one-off events |
| `HomePage.RepetitiveAndOneOffSplit` | src/app/page.tsx:36-37 | recurring and one-off events split the fetched list, each occurrence exactly once |
| `HomePage.ListsAreDisjoint` | src/app/page.tsx:36-37 | no event is in both lists; at most three one-off events |
| `HomePage.InitialDataFor` | src/app/page.tsx:25-51 | on success the fetched lists, split; on failure every list empty and no member count |

## Left out

- HTTP plumbing (`src/utils/axios.ts`: interceptors, token refresh, retry, the call counter): network I/O around asynchronous requests.
- Store and provider glue (`src/redux/store.ts`, the providers), layouts, `ClientLayout`, `DiscordButton`, `AuthWrapper` (its route combination is the header's): framework wiring and rendering.
- JSX markup, `router.push` navigation (the `path` of `HandleRoute` is unused), `useSelector`/`useDispatch`, console output.
- Parsing the session token (`atob`, `JSON.parse`): a function parameter.
- `localStorage`, `JSON.stringify`/`JSON.parse` and `signOutUser()`: storage is a field holding the user; the sign-out call is a foreign call.
- `lastModified` (`new Date()`) in the sitemap: a clock read.
- The middlewares' `config.matcher` lists: which requests reach each middleware is decided by the framework.
- The contents of `routesConfig.json` and of the `Events` and `User` records, which are not part of this model; the records carry the fields the code reads plus stand-ins for the rest.
- Role keys are assumed distinct, as in any JSON object: on a config listing a role twice, `RoutesOf` takes the first entry and `AllRoleRoutes` keeps both, while `JSON.parse` would keep only the last.
- JavaScript property lookups that reach the prototype chain (a role named like an `Object` method): the role map is modelled as plain key lookup.
- `Auth.AuthState.Login`: a `null` payload is not modelled; a login always carries a user.
- `Auth.AuthState.InitializeAuth`: requires the flag/user invariant that every reducer keeps; a stored value that is not valid JSON is not modelled.

/**
 * The route configuration (`routesConfig.json`) as a value: the public routes
 * and, per user role, the routes that role may visit. The record shapes follow
 * `RouteConfig` and `SEOMetadata`; fields that the JSON may omit are optional.
 */
module Routes {
  import opened Wrappers
  import Seqs

  type Role = string

  /** `SEOMetadata`; `kind` is the metadata's `type` field. */
  datatype SeoMetadata = SeoMetadata(
    title: string,
    description: string,
    image: Option<string>,
    keywords: string,
    kind: string,
    robots: Option<string>)

  /**
   * `RouteConfig`, with the `protected` flag the access middleware reads.
   * `viewHeader` is optional: an absent value passes the `viewHeader !== false` test.
   * An absent `hidden` behaves as false in every test the source makes, so it is a bool.
   */
  datatype Route = Route(
    path: string,
    element: string,
    name: string,
    viewHeader: Option<bool>,
    hidden: bool,
    seo: Option<SeoMetadata>,
    protected: bool)

  /** The role routes keep the JSON object's key order. */
  datatype Config = Config(publicRoutes: seq<Route>, roleRoutes: seq<(Role, seq<Route>)>)

  /** Entry `k` is the first one whose key is `role`. */
  predicate IsFirstEntry(roleRoutes: seq<(Role, seq<Route>)>, role: Role, k: int) {
    0 <= k < |roleRoutes| && roleRoutes[k].0 == role &&
    forall j :: 0 <= j < k ==> roleRoutes[j].0 != role
  }

  /** `roleRoutes[role] || []`: the routes listed under `role`, or none when it has no entry. */
  function RoutesOf(roleRoutes: seq<(Role, seq<Route>)>, role: Role): (r: seq<Route>)
    ensures (forall i :: 0 <= i < |roleRoutes| ==> roleRoutes[i].0 != role) ==> r == []
    ensures forall k :: IsFirstEntry(roleRoutes, role, k) ==> r == roleRoutes[k].1
  {
    var k := Seqs.FindIndex(roleRoutes, (e: (Role, seq<Route>)) => e.0 == role);
    if k == -1 then [] else roleRoutes[k].1
  }

  function EntryRoutes(entry: (Role, seq<Route>)): seq<Route> { entry.1 }

  /** The route lists of the role entries, in entry order. */
  function RoleLists(roleRoutes: seq<(Role, seq<Route>)>): (ls: seq<seq<Route>>)
    ensures |ls| == |roleRoutes|
    ensures forall i :: 0 <= i < |roleRoutes| ==> ls[i] == roleRoutes[i].1
  {
    Seqs.Map(roleRoutes, EntryRoutes)
  }

  /**
   * `Object.values(roleRoutes).flat()`: every role's routes laid end to end in
   * entry order, each occurrence kept.
   */
  function AllRoleRoutes(roleRoutes: seq<(Role, seq<Route>)>): (r: seq<Route>)
    ensures Seqs.HasBlocks(r, RoleLists(roleRoutes))
    ensures forall rt :: rt in r <==> exists i :: 0 <= i < |roleRoutes| && rt in roleRoutes[i].1
  {
    var ls := RoleLists(roleRoutes);
    var r := Seqs.Flatten(ls);
    assert forall i :: 0 <= i < |roleRoutes| ==> ls[i] == roleRoutes[i].1;
    r
  }

  /** The first role's routes open the flattened list, and the remaining roles' routes follow. */
  lemma AllRoleRoutesHeadAndTail(roleRoutes: seq<(Role, seq<Route>)>)
    requires roleRoutes != []
    ensures AllRoleRoutes(roleRoutes) == roleRoutes[0].1 + AllRoleRoutes(roleRoutes[1..])
  {
    var ls := RoleLists(roleRoutes);
    assert ls[1..] == RoleLists(roleRoutes[1..]);
    assert ls == [ls[0]] + ls[1..];
  }

  function PathOf(rt: Route): string { rt.path }

  /** `routes.map(route => route.path)`. */
  function Paths(routes: seq<Route>): (r: seq<string>)
    ensures |r| == |routes|
    ensures forall i :: 0 <= i < |routes| ==> r[i] == routes[i].path
  {
    Seqs.Map(routes, PathOf)
  }

  /** The site's base URL: the environment's value when it is set and not empty. */
  const DefaultSiteUrl := "https://cafeteriadelcaos.com"

  function SiteUrl(env: Option<string>): (url: string)
    ensures env.Some? && env.value != "" ==> url == env.value
    ensures env.None? || env.value == "" ==> url == DefaultSiteUrl
  {
    if env.Some? && env.value != "" then env.value else DefaultSiteUrl
  }
}

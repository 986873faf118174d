/** The route queries behind the robots file and the sitemap. */
module SeoUtils {
  import opened Wrappers
  import opened Routes
  import opened Seqs

  predicate IsVisible(rt: Route) { !rt.hidden }

  /** A route whose path has a `[param]` segment. */
  predicate IsDynamic(rt: Route) { '[' in rt.path }

  predicate IsStaticPath(rt: Route) { !IsDynamic(rt) }

  /** `getAllPublicRoutes`: the public routes that are not hidden, in config order. */
  function AllPublicRoutes(config: Config): (r: seq<Route>)
    ensures forall rt :: rt in r <==> rt in config.publicRoutes && !rt.hidden
    ensures forall rt :: multiset(r)[rt] == if rt.hidden then 0 else multiset(config.publicRoutes)[rt]
    ensures IsSubsequence(r, config.publicRoutes)
  {
    Filter(config.publicRoutes, IsVisible)
  }

  /** `getSeoRoutesWithoutDynamicParams`: the visible public routes whose path has no `[`. */
  function StaticSeoRoutes(config: Config): (r: seq<Route>)
    ensures forall rt :: rt in r <==> rt in config.publicRoutes && !rt.hidden && '[' !in rt.path
    ensures IsSubsequence(r, AllPublicRoutes(config))
  {
    Filter(AllPublicRoutes(config), IsStaticPath)
  }

  /** The visible public routes whose path has a `[`. */
  function DynamicSeoRoutes(config: Config): (r: seq<Route>)
    ensures forall rt :: rt in r <==> rt in config.publicRoutes && !rt.hidden && '[' in rt.path
    ensures IsSubsequence(r, AllPublicRoutes(config))
  {
    Filter(AllPublicRoutes(config), IsDynamic)
  }

  /** One entry of `getDynamicRoutePatterns`; `kind` is `route.seo?.type`. */
  datatype RoutePattern = RoutePattern(pattern: string, kind: Option<string>)

  function PatternOf(rt: Route): RoutePattern {
    RoutePattern(rt.path, if rt.seo.Some? then Some(rt.seo.value.kind) else None)
  }

  /** `getDynamicRoutePatterns`: one pattern per dynamic visible public route, in order. */
  function DynamicRoutePatterns(config: Config): (r: seq<RoutePattern>)
    ensures |r| == |DynamicSeoRoutes(config)|
    ensures forall i :: 0 <= i < |r| ==>
      var rt := DynamicSeoRoutes(config)[i];
      r[i].pattern == rt.path && '[' in r[i].pattern &&
      r[i].kind == (if rt.seo.Some? then Some(rt.seo.value.kind) else None)
  {
    Map(DynamicSeoRoutes(config), PatternOf)
  }

  /** The static and the dynamic queries split the visible public routes between them. */
  lemma StaticAndDynamicCoverPublic(config: Config)
    ensures multiset(StaticSeoRoutes(config)) + multiset(DynamicSeoRoutes(config))
            == multiset(AllPublicRoutes(config))
    ensures |StaticSeoRoutes(config)| + |DynamicRoutePatterns(config)| == |AllPublicRoutes(config)|
  {
    var all := AllPublicRoutes(config);
    var st, dy := StaticSeoRoutes(config), DynamicSeoRoutes(config);
    assert multiset(st) + multiset(dy) == multiset(all) by {
      forall rt ensures (multiset(st) + multiset(dy))[rt] == multiset(all)[rt] {
        assert multiset(st)[rt] == if IsStaticPath(rt) then multiset(all)[rt] else 0;
        assert multiset(dy)[rt] == if IsDynamic(rt) then multiset(all)[rt] else 0;
      }
    }
    assert |multiset(st)| + |multiset(dy)| == |multiset(all)|;
  }

  /** The four paths always kept out of search engines. */
  const ReservedDisallowed: seq<string> := ["/api", "/dashboard", "/login", "/register"]

  /** `getDisallowedRoutes`: every role route's path in config order, then the reserved paths. */
  function DisallowedRoutes(config: Config): (r: seq<string>)
    ensures var all := AllRoleRoutes(config.roleRoutes);
      |r| == |all| + 4 &&
      (forall i :: 0 <= i < |all| ==> r[i] == all[i].path) &&
      r[|all|..] == ["/api", "/dashboard", "/login", "/register"]
  {
    Paths(AllRoleRoutes(config.roleRoutes)) + ReservedDisallowed
  }
}

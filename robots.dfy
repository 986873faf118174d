/** The generated robots file: one rule for every crawler, plus the sitemap location. */
module Robots {
  import opened Wrappers
  import opened Routes
  import opened Seqs
  import opened SeoUtils
  import Text

  datatype Rule = Rule(userAgent: string, allow: seq<string>, disallow: seq<string>)

  datatype RobotsFile = RobotsFile(rules: seq<Rule>, sitemap: string)

  /** `!route.seo?.robots?.includes('noindex')`: a missing seo or robots field counts as indexable. */
  predicate IsIndexable(rt: Route) {
    !(rt.seo.Some? && rt.seo.value.robots.Some? && Text.Contains(rt.seo.value.robots.value, "noindex"))
  }

  /** The routes whose paths the rule allows. */
  function AllowedRoutes(config: Config): (r: seq<Route>)
    ensures forall rt :: rt in r <==>
      rt in config.publicRoutes && !rt.hidden && '[' !in rt.path && IsIndexable(rt)
    ensures forall rt :: multiset(r)[rt] == if IsIndexable(rt) then multiset(StaticSeoRoutes(config))[rt] else 0
    ensures IsSubsequence(r, StaticSeoRoutes(config))
  {
    Filter(StaticSeoRoutes(config), IsIndexable)
  }

  /** `robots`; `env` is the environment's site URL, if set. */
  function Robots(config: Config, env: Option<string>): (r: RobotsFile)
    ensures |r.rules| == 1 && r.rules[0].userAgent == "*"
    ensures r.rules[0].allow == Paths(AllowedRoutes(config))
    ensures r.rules[0].disallow == DisallowedRoutes(config)
    ensures r.sitemap == SiteUrl(env) + "/sitemap.xml"
  {
    var baseUrl := SiteUrl(env);
    RobotsFile(
      [Rule("*", Paths(AllowedRoutes(config)), DisallowedRoutes(config))],
      baseUrl + "/sitemap.xml")
  }

  /** Every allowed path is the path of a visible, static, indexable public route. */
  lemma AllowedPathsAreIndexable(config: Config, env: Option<string>)
    ensures var allow := Robots(config, env).rules[0].allow;
      forall i :: 0 <= i < |allow| ==>
        exists rt :: rt in config.publicRoutes && !rt.hidden && '[' !in rt.path &&
                     IsIndexable(rt) && rt.path == allow[i]
  {
    var allowed := AllowedRoutes(config);
    forall i | 0 <= i < |allowed|
      ensures exists rt :: rt in config.publicRoutes && !rt.hidden && '[' !in rt.path &&
                           IsIndexable(rt) && rt.path == Paths(allowed)[i]
    {
      assert allowed[i] in allowed;
    }
  }

  /** The allowed paths keep the order of the static SEO routes. */
  lemma AllowKeepsStaticOrder(config: Config, env: Option<string>)
    ensures IsSubsequence(Robots(config, env).rules[0].allow, Paths(StaticSeoRoutes(config)))
  {
    MapSubsequence(AllowedRoutes(config), StaticSeoRoutes(config), PathOf);
  }
}

/**
 * The page head: the SEO metadata of the first route matching the current
 * path, and the tags, links and JSON-LD built from it.
 */
module SeoHeaders {
  import opened Wrappers
  import opened Routes
  import opened Seqs
  import Text

  const SiteName := "Cafetería del Caos"

  /** The metadata used when no route matches, or the matching route has none. */
  const DefaultSeo := SeoMetadata(
    title := "Cafetería del Caos | Espacio de Debates y Pensamiento Libre",
    description := "Comunidad de debate y pensamiento libre donde las ideas más radicales encuentran su espacio. Debates filosóficos, políticos y sociales sin censura.",
    image := Some("/images/logo.png"),
    keywords := "debates, pensamiento libre, filosofía, discusiones, comunidad, caos organizado, cafetería del caos, política, anarquismo, socialismo, capitalismo, marxismo, liberalismo, libertarianismo, teoría crítica, nihilismo, existencialismo, posmodernismo, dialéctica, argumentación, lógica, retórica, epistemología, metafísica, ética, moral, teoría política, pensamiento radical, filosofía contemporánea, debate político, debate filosófico, pensamiento crítico, teoría social, ideología, revolución, contracultura, disidencia, activismo intelectual, pensamiento alternativo, discurso crítico",
    kind := "website",
    robots := Some("index, follow"))

  /** The public routes followed by every role's routes. */
  function SearchOrder(config: Config): (r: seq<Route>)
    ensures |r| == |config.publicRoutes| + |AllRoleRoutes(config.roleRoutes)|
    ensures r[..|config.publicRoutes|] == config.publicRoutes
    ensures r[|config.publicRoutes|..] == AllRoleRoutes(config.roleRoutes)
  {
    config.publicRoutes + AllRoleRoutes(config.roleRoutes)
  }

  /** `r.path.split(':')[0]`: the route's path before its first `:` parameter. */
  function MatchKey(path: string): (key: string)
    ensures key <= path && ':' !in key
    ensures |key| < |path| ==> path[|key|] == ':'
  {
    Text.BeforeFirst(path, ':')
  }

  predicate Matches(currentPath: string, rt: Route) {
    MatchKey(rt.path) <= currentPath
  }

  /** `findRouteSEO`. The search stops at the first matching route even when it has no seo. */
  function FindRouteSeo(config: Config, currentPath: string): (seo: SeoMetadata)
    ensures (forall i :: 0 <= i < |SearchOrder(config)| ==> !Matches(currentPath, SearchOrder(config)[i]))
            ==> seo == DefaultSeo
    ensures forall k :: IsFirstMatch(config, currentPath, k) ==>
              seo == SearchOrder(config)[k].seo.GetOr(DefaultSeo)
  {
    var all := SearchOrder(config);
    var k := FindIndex(all, (rt: Route) => Matches(currentPath, rt));
    if k == -1 then DefaultSeo else all[k].seo.GetOr(DefaultSeo)
  }

  /** Route `k` of the search order matches and no earlier one does. */
  predicate IsFirstMatch(config: Config, currentPath: string, k: int) {
    var all := SearchOrder(config);
    0 <= k < |all| && Matches(currentPath, all[k]) &&
    forall j :: 0 <= j < k ==> !Matches(currentPath, all[j])
  }

  /** The JSON-LD `@type` for a metadata `type`. */
  function JsonLdType(kind: string): (t: string)
    ensures t == "Article" <==> kind == "article"
    ensures t == "Event" <==> kind == "event" || kind == "events"
    ensures t == "WebSite" <==> kind != "article" && kind != "event" && kind != "events"
  {
    if kind == "article" then "Article"
    else if kind == "event" || kind == "events" then "Event"
    else "WebSite"
  }

  /** The tags the component renders, with their contents. */
  datatype Head = Head(
    title: string,
    description: string,
    keywords: string,
    canonical: string,
    ogSiteName: string,
    ogType: string,
    ogUrl: string,
    ogImage: Option<string>,
    twitterImage: Option<string>,
    robots: string,
    jsonLdType: string,
    jsonLdUrl: string,
    jsonLdImage: Option<string>)

  /** The image URL, present only when the metadata has a non-empty image. */
  function ImageUrl(siteUrl: string, seo: SeoMetadata): (url: Option<string>)
    ensures url.Some? <==> Text.Truthy(seo.image)
    ensures url.Some? ==> url.value == siteUrl + seo.image.value
  {
    if Text.Truthy(seo.image) then Some(siteUrl + seo.image.value) else None
  }

  /** The robots tag: the metadata's value when non-empty, otherwise "index, follow". */
  function RobotsTag(seo: SeoMetadata): (tag: string)
    ensures Text.Truthy(seo.robots) ==> tag == seo.robots.value
    ensures !Text.Truthy(seo.robots) ==> tag == "index, follow"
  {
    if Text.Truthy(seo.robots) then seo.robots.value else "index, follow"
  }

  /** `SEOHeaders` for the current path; `env` is the environment's site URL, if set. */
  function HeadFor(config: Config, env: Option<string>, currentPath: string): (h: Head)
    ensures var seo := FindRouteSeo(config, currentPath);
      var siteUrl := SiteUrl(env);
      h.title == seo.title && h.description == seo.description && h.keywords == seo.keywords &&
      h.canonical == siteUrl + currentPath && h.ogUrl == h.canonical && h.jsonLdUrl == h.canonical &&
      h.ogType == seo.kind && h.ogSiteName == SiteName &&
      h.ogImage == ImageUrl(siteUrl, seo) && h.twitterImage == h.ogImage && h.jsonLdImage == h.ogImage &&
      h.robots == RobotsTag(seo) && h.jsonLdType == JsonLdType(seo.kind)
  {
    var seo := FindRouteSeo(config, currentPath);
    var siteUrl := SiteUrl(env);
    var canonicalUrl := siteUrl + currentPath;
    Head(seo.title, seo.description, seo.keywords, canonicalUrl, SiteName, seo.kind, canonicalUrl,
         ImageUrl(siteUrl, seo), ImageUrl(siteUrl, seo), RobotsTag(seo), JsonLdType(seo.kind),
         canonicalUrl, ImageUrl(siteUrl, seo))
  }

  /** A path no route matches gets the default website metadata, indexed and followed. */
  lemma UnmatchedPathGetsDefaults(config: Config, env: Option<string>, currentPath: string)
    requires forall i :: 0 <= i < |SearchOrder(config)| ==> !Matches(currentPath, SearchOrder(config)[i])
    ensures var h := HeadFor(config, env, currentPath);
      h.ogType == "website" && h.robots == "index, follow" && h.jsonLdType == "WebSite" &&
      h.ogImage == Some(SiteUrl(env) + "/images/logo.png")
  {
  }

  /** A route whose path has no `:` matches exactly the paths it is a prefix of. */
  lemma PlainRouteMatchesByPrefix(rt: Route, currentPath: string)
    requires ':' !in rt.path
    ensures Matches(currentPath, rt) <==> rt.path <= currentPath
  {
    var key := MatchKey(rt.path);
    assert key == rt.path;
  }
}

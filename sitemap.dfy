/** The generated sitemap: one entry per static SEO route. */
module Sitemap {
  import opened Wrappers
  import opened Routes
  import opened Seqs
  import opened SeoUtils

  datatype ChangeFrequency = Daily | Weekly

  /** `priority` is kept in tenths: 10 stands for 1.0 and 8 for 0.8. */
  datatype Entry = Entry(url: string, changeFrequency: ChangeFrequency, priorityTenths: nat)

  function EntryFor(baseUrl: string, rt: Route): Entry {
    Entry(baseUrl + rt.path,
          if rt.path == "/" then Daily else Weekly,
          if rt.path == "/" then 10 else 8)
  }

  /** `sitemap`; `env` is the environment's site URL, if set; `lastModified` is not modelled. */
  function Sitemap(config: Config, env: Option<string>): (r: seq<Entry>)
    ensures |r| == |StaticSeoRoutes(config)|
    ensures forall i :: 0 <= i < |r| ==>
      var rt := StaticSeoRoutes(config)[i];
      r[i].url == SiteUrl(env) + rt.path &&
      (r[i].changeFrequency == Daily <==> rt.path == "/") &&
      (r[i].priorityTenths == 10 <==> rt.path == "/") &&
      (r[i].priorityTenths == 8 <==> rt.path != "/")
  {
    var baseUrl := SiteUrl(env);
    Map(StaticSeoRoutes(config), (rt: Route) => EntryFor(baseUrl, rt))
  }
}

// The sitemap: fixed pages, one route per service, location and property
// type, the tool pages, and the published blog posts when the CMS answers.

module Sitemap {
  import opened Wrappers
  import opened Text
  import opened Catalog

  datatype ChangeFrequency = Weekly | Monthly | Yearly

  /** `lastModified`: the moment the sitemap is generated, or a post's own
      update time as the CMS reports it. */
  datatype Modified = Now | UpdatedAt(stamp: string)

  datatype Route = Route(url: string, lastModified: Modified, changeFrequency: ChangeFrequency, priority: real)

  /** A published post as the CMS query returns it. */
  datatype BlogPost = BlogPost(slug: string, updatedAt: Option<string>)

  /** The CMS fetch: the posts, or a failure of the client or the query. */
  datatype CmsResult = Fetched(posts: seq<BlogPost>) | FetchFailed

  const BaseUrl := "https://www.1031exchangedenver.com"

  /** The ten fixed pages, in order, with their change frequencies and
      priorities. */
  const StaticPaths: seq<string> :=
    ["", "/services", "/locations", "/property-types", "/tools", "/blog", "/about", "/contact", "/privacy", "/terms"]
  const StaticFrequencies: seq<ChangeFrequency> :=
    [Weekly, Weekly, Weekly, Monthly, Monthly, Weekly, Yearly, Monthly, Yearly, Yearly]
  const StaticPriorities: seq<real> :=
    [1.0, 0.9, 0.9, 0.8, 0.8, 0.7, 0.5, 0.8, 0.3, 0.3]

  const ToolPages: seq<string> := [
    "boot-calculator",
    "exchange-cost-estimator",
    "identification-rules-checker",
    "depreciation-recapture-estimator",
    "replacement-property-value-calculator",
    "debt-relief-calculator"
  ]

  const ServicePriority := 0.8
  const LocationPriority := 0.8
  const PropertyTypePriority := 0.7
  const ToolPriority := 0.6
  const BlogPriority := 0.6

  function StaticRoutes(): (r: seq<Route>)
    ensures |r| == 10
    ensures forall i | 0 <= i < 10 ::
      && r[i].url == BaseUrl + StaticPaths[i]
      && r[i].lastModified == Now
      && r[i].changeFrequency == StaticFrequencies[i]
      && r[i].priority == StaticPriorities[i]
  {
    seq(10, i requires 0 <= i < 10 => Route(BaseUrl + StaticPaths[i], Now, StaticFrequencies[i], StaticPriorities[i]))
  }

  /** One monthly route per slug, at `base` + `section` + `slug`, where
      the section is written with its slashes ("/services/"). */
  function SlugRoutes(section: string, slugs: seq<string>, priority: real): (r: seq<Route>)
    ensures |r| == |slugs|
    ensures forall i | 0 <= i < |slugs| ::
      && r[i].url == BaseUrl + section + slugs[i]
      && r[i].lastModified == Now
      && r[i].changeFrequency == Monthly
      && r[i].priority == priority
  {
    seq(|slugs|, i requires 0 <= i < |slugs| => Route(BaseUrl + section + slugs[i], Now, Monthly, priority))
  }

  /** The slug of every item, in data order. */
  function Slugs<T>(items: seq<T>, slugOf: T -> string): (r: seq<string>)
    ensures |r| == |items| && forall i | 0 <= i < |r| :: r[i] == slugOf(items[i])
  {
    seq(|items|, i requires 0 <= i < |items| => slugOf(items[i]))
  }

  const ServiceSlug: Service -> string := (s: Service) => s.slug
  const LocationSlug: Location -> string := (l: Location) => l.slug
  const PropertyTypeSlug: PropertyType -> string := (t: PropertyType) => t.slug

  /** The route groups of the sitemap, one per kind of page. */
  function ServiceRoutes(services: seq<Service>): seq<Route> {
    SlugRoutes("/services/", Slugs(services, ServiceSlug), ServicePriority)
  }

  function LocationRoutes(locations: seq<Location>): seq<Route> {
    SlugRoutes("/locations/", Slugs(locations, LocationSlug), LocationPriority)
  }

  function PropertyTypeRoutes(types: seq<PropertyType>): seq<Route> {
    SlugRoutes("/property-types/", Slugs(types, PropertyTypeSlug), PropertyTypePriority)
  }

  function ToolRoutes(): seq<Route> {
    SlugRoutes("/tools/", ToolPages, ToolPriority)
  }

  /** A post's route: weekly, at priority 0.6, last modified at its update
      time when the CMS gives a non-empty one and now otherwise. */
  function BlogRoute(post: BlogPost): (r: Route)
    ensures r.url == BaseUrl + "/blog/" + post.slug
    ensures r.lastModified.UpdatedAt? <==> post.updatedAt.Some? && post.updatedAt.value != ""
    ensures r.lastModified.UpdatedAt? ==> r.lastModified.stamp == post.updatedAt.value
  {
    var modified := if post.updatedAt.Some? && post.updatedAt.value != "" then UpdatedAt(post.updatedAt.value) else Now;
    Route(BaseUrl + "/blog/" + post.slug, modified, Weekly, BlogPriority)
  }

  /** The blog routes: none when the fetch fails, one per post otherwise. */
  function BlogRoutes(cms: CmsResult): (r: seq<Route>)
    ensures cms.FetchFailed? ==> r == []
    ensures cms.Fetched? ==> |r| == |cms.posts| && forall i | 0 <= i < |r| :: r[i] == BlogRoute(cms.posts[i])
  {
    match cms
    case FetchFailed => []
    case Fetched(posts) => seq(|posts|, i requires 0 <= i < |posts| => BlogRoute(posts[i]))
  }

  function PostCount(cms: CmsResult): nat {
    if cms.Fetched? then |cms.posts| else 0
  }

  /** The default export: the groups concatenated in order. */
  function BuildSitemap(services: seq<Service>, locations: seq<Location>, types: seq<PropertyType>,
                        cms: CmsResult): (r: seq<Route>)
    ensures |r| == 10 + |services| + |locations| + |types| + |ToolPages| + PostCount(cms)
  {
    Assemble(StaticRoutes(), ServiceRoutes(services), LocationRoutes(locations),
      PropertyTypeRoutes(types), ToolRoutes(), BlogRoutes(cms))
  }

  /** `[...a, ...b, ...c, ...d, ...e, ...f]`. */
  function Assemble<T>(a: seq<T>, b: seq<T>, c: seq<T>, d: seq<T>, e: seq<T>, f: seq<T>): (r: seq<T>)
    ensures |r| == |a| + |b| + |c| + |d| + |e| + |f|
  {
    a + b + c + d + e + f
  }

  /** Where each part of an assembled list sits. */
  lemma AssembleParts<T>(a: seq<T>, b: seq<T>, c: seq<T>, d: seq<T>, e: seq<T>, f: seq<T>, k: int)
    ensures var r := Assemble(a, b, c, d, e, f);
      && r[..|a|] == a
      && (0 <= k < |b| ==> r[|a| + k] == b[k])
      && (0 <= k < |c| ==> r[|a| + |b| + k] == c[k])
      && (0 <= k < |d| ==> r[|a| + |b| + |c| + k] == d[k])
      && (0 <= k < |e| ==> r[|a| + |b| + |c| + |d| + k] == e[k])
      && r[|a| + |b| + |c| + |d| + |e|..] == f
  {
  }

  /** The fixed pages come first. */
  lemma StaticRoutesFirst(services: seq<Service>, locations: seq<Location>, types: seq<PropertyType>, cms: CmsResult)
    ensures BuildSitemap(services, locations, types, cms)[..10] == StaticRoutes()
  {
    AssembleParts(StaticRoutes(), ServiceRoutes(services), LocationRoutes(locations),
      PropertyTypeRoutes(types), ToolRoutes(), BlogRoutes(cms), 0);
  }

  /** Then one route per service, in data order. */
  lemma ServiceRoutesAt(services: seq<Service>, locations: seq<Location>, types: seq<PropertyType>, cms: CmsResult, i: int)
    requires 0 <= i < |services|
    ensures var route := BuildSitemap(services, locations, types, cms)[10 + i];
      route.url == BaseUrl + "/services/" + services[i].slug && route.priority == ServicePriority
  {
    AssembleParts(StaticRoutes(), ServiceRoutes(services), LocationRoutes(locations),
      PropertyTypeRoutes(types), ToolRoutes(), BlogRoutes(cms), i);
  }

  /** Then one route per location. */
  lemma LocationRoutesAt(services: seq<Service>, locations: seq<Location>, types: seq<PropertyType>, cms: CmsResult, i: int)
    requires 0 <= i < |locations|
    ensures var route := BuildSitemap(services, locations, types, cms)[10 + |services| + i];
      route.url == BaseUrl + "/locations/" + locations[i].slug && route.priority == LocationPriority
  {
    AssembleParts(StaticRoutes(), ServiceRoutes(services), LocationRoutes(locations),
      PropertyTypeRoutes(types), ToolRoutes(), BlogRoutes(cms), i);
  }

  /** Then one route per property type. */
  lemma PropertyTypeRoutesAt(services: seq<Service>, locations: seq<Location>, types: seq<PropertyType>, cms: CmsResult, i: int)
    requires 0 <= i < |types|
    ensures var route := BuildSitemap(services, locations, types, cms)[10 + |services| + |locations| + i];
      route.url == BaseUrl + "/property-types/" + types[i].slug && route.priority == PropertyTypePriority
  {
    AssembleParts(StaticRoutes(), ServiceRoutes(services), LocationRoutes(locations),
      PropertyTypeRoutes(types), ToolRoutes(), BlogRoutes(cms), i);
  }

  /** Then the six tool pages. */
  lemma ToolRoutesAt(services: seq<Service>, locations: seq<Location>, types: seq<PropertyType>, cms: CmsResult, i: int)
    requires 0 <= i < |ToolPages|
    ensures var route := BuildSitemap(services, locations, types, cms)[10 + |services| + |locations| + |types| + i];
      route.url == BaseUrl + "/tools/" + ToolPages[i] && route.priority == ToolPriority
  {
    AssembleParts(StaticRoutes(), ServiceRoutes(services), LocationRoutes(locations),
      PropertyTypeRoutes(types), ToolRoutes(), BlogRoutes(cms), i);
  }

  /** And last the blog routes. */
  lemma BlogRoutesLast(services: seq<Service>, locations: seq<Location>, types: seq<PropertyType>, cms: CmsResult)
    ensures BuildSitemap(services, locations, types, cms)[16 + |services| + |locations| + |types|..] == BlogRoutes(cms)
  {
    AssembleParts(StaticRoutes(), ServiceRoutes(services), LocationRoutes(locations),
      PropertyTypeRoutes(types), ToolRoutes(), BlogRoutes(cms), 0);
  }

  /** A CMS failure costs only the blog routes: the rest of the sitemap is
      what an empty blog gives. */
  lemma FetchFailureKeepsOtherRoutes(services: seq<Service>, locations: seq<Location>, types: seq<PropertyType>)
    ensures BuildSitemap(services, locations, types, FetchFailed)
         == BuildSitemap(services, locations, types, Fetched([]))
    ensures |BuildSitemap(services, locations, types, FetchFailed)|
         == 16 + |services| + |locations| + |types|
  {
  }

  /** A URL built on the base starts with it. */
  lemma UnderBase(url: string, path: string)
    requires url == BaseUrl + path
    ensures StartsWith(url, BaseUrl)
  {
    assert url[..|BaseUrl|] == BaseUrl;
  }

  /** A route of the site: under the base URL, with a priority between
      0 and 1. */
  predicate WellPlaced(route: Route) {
    StartsWith(route.url, BaseUrl) && 0.0 <= route.priority <= 1.0
  }

  lemma StaticWellPlaced(i: int)
    requires 0 <= i < 10
    ensures WellPlaced(StaticRoutes()[i])
  {
    assert forall k | 0 <= k < 10 :: 0.0 <= StaticPriorities[k] <= 1.0;
    UnderBase(StaticRoutes()[i].url, StaticPaths[i]);
  }

  predicate AllWellPlaced(routes: seq<Route>) {
    forall k | 0 <= k < |routes| :: WellPlaced(routes[k])
  }

  lemma ConcatWellPlaced(a: seq<Route>, b: seq<Route>)
    requires AllWellPlaced(a) && AllWellPlaced(b)
    ensures AllWellPlaced(a + b)
  {
    forall k | 0 <= k < |a + b|
      ensures WellPlaced((a + b)[k])
    {
      if k >= |a| {
        assert (a + b)[k] == b[k - |a|];
      }
    }
  }

  lemma SlugRoutesWellPlaced(section: string, slugs: seq<string>, priority: real)
    requires 0.0 <= priority <= 1.0
    ensures AllWellPlaced(SlugRoutes(section, slugs, priority))
  {
    var r := SlugRoutes(section, slugs, priority);
    forall k | 0 <= k < |r|
      ensures WellPlaced(r[k])
    {
      UnderBase(r[k].url, section + slugs[k]);
    }
  }

  lemma BlogRoutesWellPlaced(cms: CmsResult)
    ensures AllWellPlaced(BlogRoutes(cms))
  {
    var r := BlogRoutes(cms);
    forall k | 0 <= k < |r|
      ensures WellPlaced(r[k])
    {
      UnderBase(r[k].url, "/blog/" + cms.posts[k].slug);
    }
  }

  /** Every route is a URL of the site with a priority between 0 and 1. */
  lemma RoutesUnderBase(services: seq<Service>, locations: seq<Location>, types: seq<PropertyType>,
                        cms: CmsResult)
    ensures AllWellPlaced(BuildSitemap(services, locations, types, cms))
  {
    var a := StaticRoutes();
    var b := ServiceRoutes(services);
    var c := LocationRoutes(locations);
    var d := PropertyTypeRoutes(types);
    var e := ToolRoutes();
    var f := BlogRoutes(cms);
    forall i | 0 <= i < 10
      ensures WellPlaced(a[i])
    {
      StaticWellPlaced(i);
    }
    SlugRoutesWellPlaced("/services/", Slugs(services, ServiceSlug), ServicePriority);
    SlugRoutesWellPlaced("/locations/", Slugs(locations, LocationSlug), LocationPriority);
    SlugRoutesWellPlaced("/property-types/", Slugs(types, PropertyTypeSlug), PropertyTypePriority);
    SlugRoutesWellPlaced("/tools/", ToolPages, ToolPriority);
    BlogRoutesWellPlaced(cms);
    ConcatWellPlaced(a, b);
    ConcatWellPlaced(a + b, c);
    ConcatWellPlaced(a + b + c, d);
    ConcatWellPlaced(a + b + c + d, e);
    ConcatWellPlaced(a + b + c + d + e, f);
  }
}

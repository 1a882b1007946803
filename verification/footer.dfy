// The footer's link lists: the three tools, the main services and the
// main locations (Denver first, then up to seven other cities).

module Footer {
  import opened Wrappers
  import opened Text
  import opened Lists
  import opened Catalog

  datatype ToolLink = ToolLink(name: string, href: string)

  const FooterTools: seq<ToolLink> := [
    ToolLink("Boot Calculator", "/tools/boot-calculator"),
    ToolLink("Exchange Cost Estimator", "/tools/exchange-cost-estimator"),
    ToolLink("Identification Rules Checker", "/tools/identification-rules-checker")
  ]

  const MainCategory := "Property Paths"
  const IdentificationSlug := "replacement-property-identification"
  const HomeSlug := "denver-co"
  const CityKind := "city"
  const MaxMainServices := 7
  const MaxOtherCities := 7

  /** The footer lists exactly three tools, each under `/tools/`. */
  lemma FooterToolsShape()
    ensures |FooterTools| == 3
    ensures forall i | 0 <= i < |FooterTools| :: StartsWith(FooterTools[i].href, "/tools/")
  {
    forall i | 0 <= i < |FooterTools|
      ensures StartsWith(FooterTools[i].href, "/tools/")
    {
      assert FooterTools[i].href[..7] == "/tools/";
    }
  }

  function MainServiceTest(): Service -> bool {
    (s: Service) => s.category == MainCategory || s.slug == IdentificationSlug
  }

  /** `mainServices`: the "Property Paths" services and the
      identification service, in data order, at most seven. */
  function MainServices(services: seq<Service>): (r: seq<Service>)
    ensures |r| <= MaxMainServices
    ensures forall i | 0 <= i < |r| :: r[i].category == MainCategory || r[i].slug == IdentificationSlug
    ensures var q := Filter(services, MainServiceTest());
      && |r| == (if |q| <= MaxMainServices then |q| else MaxMainServices)
      && forall i | 0 <= i < |r| :: r[i] == q[i]
  {
    Take(Filter(services, MainServiceTest()), MaxMainServices)
  }

  /** The main services keep data order, and when no more than seven
      services qualify, every one of them is listed. */
  lemma MainServicesSelection(services: seq<Service>)
    ensures IsSubsequence(MainServices(services), services)
    ensures forall s :: s in MainServices(services) ==> s in services
    ensures |Filter(services, MainServiceTest())| <= MaxMainServices ==>
      forall s | s in services && (s.category == MainCategory || s.slug == IdentificationSlug) ::
        s in MainServices(services)
  {
    var f := Filter(services, MainServiceTest());
    var r := MainServices(services);
    FilterIsSubsequence(services, MainServiceTest());
    PrefixIsSubsequence(r, f);
    SubsequenceTransitive(r, f, services);
    forall s | s in r
      ensures s in services
    {
      SubsequenceMembers(r, services, s);
    }
    forall s | s in services && MainServiceTest()(s)
      ensures |f| <= MaxMainServices ==> s in r
    {
      FilterMembership(services, MainServiceTest(), s);
    }
  }

  function IsHomeTest(): Location -> bool {
    (l: Location) => l.slug == HomeSlug
  }

  function OtherCityTest(): Location -> bool {
    (l: Location) => l.kind == CityKind && l.slug != HomeSlug
  }

  /** The other cities: up to seven non-Denver cities, in data order. */
  function OtherCities(locations: seq<Location>): (r: seq<Location>)
    ensures |r| <= MaxOtherCities
    ensures forall i | 0 <= i < |r| :: r[i].kind == CityKind && r[i].slug != HomeSlug
    ensures var q := Filter(locations, OtherCityTest());
      && |r| == (if |q| <= MaxOtherCities then |q| else MaxOtherCities)
      && forall i | 0 <= i < |r| :: r[i] == q[i]
  {
    Take(Filter(locations, OtherCityTest()), MaxOtherCities)
  }

  /** `mainLocations`: the first `denver-co` entry when there is one (the
      `undefined` of a failed `find` is filtered out), then the other
      cities. */
  function MainLocations(locations: seq<Location>): (r: seq<Location>)
    ensures |r| <= MaxOtherCities + 1
    ensures |OtherCities(locations)| <= |r| <= |OtherCities(locations)| + 1
    ensures r[|r| - |OtherCities(locations)|..] == OtherCities(locations)
    ensures |r| > |OtherCities(locations)| ==> r[0].slug == HomeSlug && r[0] in locations
  {
    var home := match Find(locations, IsHomeTest()) case Some(d) => [d] case None => [];
    home + OtherCities(locations)
  }

  /** Denver leads the list exactly when the data has it; it appears at
      most once; every other entry is a city; and every entry is from the
      data. */
  lemma MainLocationsShape(locations: seq<Location>)
    ensures var r := MainLocations(locations);
      && ((r != [] && r[0].slug == HomeSlug) <==> exists i | 0 <= i < |locations| :: locations[i].slug == HomeSlug)
      && |Filter(r, IsHomeTest())| <= 1
      && (forall i | 0 <= i < |r| && r[i].slug != HomeSlug :: r[i].kind == CityKind)
      && (forall l | l in r :: l in locations)
      && var home := Filter(locations, IsHomeTest());
         && |r| == (if home != [] then 1 else 0) + |OtherCities(locations)|
         && (home != [] ==> r[0] == home[0])
         && r[|r| - |OtherCities(locations)|..] == OtherCities(locations)
  {
    var r := MainLocations(locations);
    FindIsFilterHead(locations, IsHomeTest());
    var home := match Find(locations, IsHomeTest()) case Some(d) => [d] case None => [];
    var cities := OtherCities(locations);
    assert r == home + cities;
    FilterConcat(home, cities, IsHomeTest());
    FilterNone(cities, IsHomeTest());
    if cities != [] && home == [] {
      assert r[0] == cities[0];
    }
    var f := Filter(locations, OtherCityTest());
    FilterIsSubsequence(locations, OtherCityTest());
    PrefixIsSubsequence(cities, f);
    SubsequenceTransitive(cities, f, locations);
    forall l | l in r
      ensures l in locations
    {
      if l in cities {
        SubsequenceMembers(cities, locations, l);
      }
    }
  }
}

// The two search boxes of the home page: locations (at most eight results)
// and services (at most six), each with its submit destination.

module HomeSearch {
  import opened Wrappers
  import opened Text
  import opened Lists
  import opened Catalog
  import opened Routing
  import UrlEncoded

  /** `min(a, b)` on lengths. */
  function MinNat(a: nat, b: nat): nat {
    if a <= b then a else b
  }

  // Locations.

  datatype LocationCard = LocationCard(name: string, description: string, slug: string, heroImage: Option<string>)

  const LocationCardDescription := "View 1031 exchange services"
  const MaxLocationResults := 8

  function LocationCardOf(l: Location): LocationCard {
    LocationCard(l.name, LocationCardDescription, l.slug, l.heroImage)
  }

  /** The locations whose lower-cased name contains the lower-cased query,
      in data order. */
  function MatchingLocations(locations: seq<Location>, query: string): seq<Location> {
    Filter(locations, LocationNameTest(query))
  }

  /** The `displayLocations` memo: the featured cards for a blank query,
      otherwise a card for each of the first eight matching locations, in
      data order, with the fixed description. */
  function DisplayLocations(cards: seq<LocationCard>, locations: seq<Location>, query: string): (r: seq<LocationCard>)
    ensures IsBlank(query) ==> r == cards
    ensures !IsBlank(query) ==>
      var m := MatchingLocations(locations, query);
      && |r| == MinNat(MaxLocationResults, |m|)
      && forall i | 0 <= i < |r| :: r[i] == LocationCardOf(m[i])
  {
    if IsBlank(query) then cards
    else
      var shown := Take(MatchingLocations(locations, query), MaxLocationResults);
      seq(|shown|, i requires 0 <= i < |shown| => LocationCardOf(shown[i]))
  }

  /** Every card shown for a query is a listed location whose name
      contains the query, described as an exchange-services page. */
  lemma DisplayedLocationsMatch(cards: seq<LocationCard>, locations: seq<Location>, query: string)
    ensures var r := DisplayLocations(cards, locations, query);
      !IsBlank(query) ==> forall i | 0 <= i < |r| ::
        && (exists l :: l in locations && Contains(Lower(l.name), Lower(query)) && r[i] == LocationCardOf(l))
        && r[i].description == LocationCardDescription
  {
    var r := DisplayLocations(cards, locations, query);
    if !IsBlank(query) {
      var m := MatchingLocations(locations, query);
      forall i | 0 <= i < |r|
        ensures exists l :: l in locations && Contains(Lower(l.name), Lower(query)) && r[i] == LocationCardOf(l)
      {
        FilterMembership(locations, LocationNameTest(query), m[i]);
        assert r[i] == LocationCardOf(m[i]);
      }
    }
  }

  /** With at most eight matches, every matching location is shown. */
  lemma FewMatchesAllShown(cards: seq<LocationCard>, locations: seq<Location>, query: string)
    ensures !IsBlank(query) && |MatchingLocations(locations, query)| <= MaxLocationResults ==>
      forall l | l in locations && Contains(Lower(l.name), Lower(query)) ::
        LocationCardOf(l) in DisplayLocations(cards, locations, query)
  {
    var m := MatchingLocations(locations, query);
    if !IsBlank(query) && |m| <= MaxLocationResults {
      forall l | l in locations && Contains(Lower(l.name), Lower(query))
        ensures LocationCardOf(l) in DisplayLocations(cards, locations, query)
      {
        FilterMembership(locations, LocationNameTest(query), l);
        var i :| 0 <= i < |m| && m[i] == l;
        assert DisplayLocations(cards, locations, query)[i] == LocationCardOf(l);
      }
    }
  }

  function ExactLocationTest(query: string): Location -> bool {
    (l: Location) => Lower(l.name) == Trim(Lower(query))
  }

  /** The location search's `handleSubmit`: the page of the first location
      whose name equals the query up to case and surrounding space;
      otherwise, and for a blank query, the contact page with "Other". */
  function LocationSubmit(contactRoute: string, locations: seq<Location>, query: string): (r: string)
    ensures IsBlank(query) ==> r == BuildContactHref(contactRoute, Some("Other"))
    ensures !IsBlank(query) ==>
      match Find(locations, ExactLocationTest(query))
      case Some(l) => r == "/locations/" + l.slug
      case None => r == BuildContactHref(contactRoute, Some("Other"))
  {
    if IsBlank(query) then BuildContactHref(contactRoute, Some("Other"))
    else
      match Find(locations, ExactLocationTest(query))
      case Some(l) => "/locations/" + l.slug
      case None => BuildContactHref(contactRoute, Some("Other"))
  }

  /** Submitting leads either to the page of a listed location whose name
      is exactly the query, or to the contact page with "Other". */
  lemma LocationSubmitTargets(contactRoute: string, locations: seq<Location>, query: string)
    ensures var r := LocationSubmit(contactRoute, locations, query);
      || r == BuildContactHref(contactRoute, Some("Other"))
      || exists l :: l in locations && Lower(l.name) == Trim(Lower(query)) && r == "/locations/" + l.slug
  {
  }

  // Services.

  datatype ServiceCard = ServiceCard(title: string, description: string, slug: string)

  const MaxServiceResults := 6

  function ServiceCardOf(s: Service): ServiceCard {
    ServiceCard(s.name, s.short, s.slug)
  }

  function MatchingServices(services: seq<Service>, query: string): seq<Service> {
    Filter(services, ServiceNameTest(query))
  }

  /** The `displayServices` memo: the featured list for a blank query,
      otherwise a card for each of the first six matching services, in data
      order, titled with the name and described by the short text. */
  function DisplayServices(featured: seq<ServiceCard>, services: seq<Service>, query: string): (r: seq<ServiceCard>)
    ensures IsBlank(query) ==> r == featured
    ensures !IsBlank(query) ==>
      var m := MatchingServices(services, query);
      && |r| == MinNat(MaxServiceResults, |m|)
      && forall i | 0 <= i < |r| :: r[i] == ServiceCardOf(m[i])
  {
    if IsBlank(query) then featured
    else
      var shown := Take(MatchingServices(services, query), MaxServiceResults);
      seq(|shown|, i requires 0 <= i < |shown| => ServiceCardOf(shown[i]))
  }

  /** Every card shown for a query is a listed service whose name contains
      the query. */
  lemma DisplayedServicesMatch(featured: seq<ServiceCard>, services: seq<Service>, query: string)
    ensures var r := DisplayServices(featured, services, query);
      !IsBlank(query) ==> forall i | 0 <= i < |r| ::
        exists s :: s in services && Contains(Lower(s.name), Lower(query)) && r[i] == ServiceCardOf(s)
  {
    var r := DisplayServices(featured, services, query);
    if !IsBlank(query) {
      var m := MatchingServices(services, query);
      forall i | 0 <= i < |r|
        ensures exists s :: s in services && Contains(Lower(s.name), Lower(query)) && r[i] == ServiceCardOf(s)
      {
        FilterMembership(services, ServiceNameTest(query), m[i]);
        assert r[i] == ServiceCardOf(m[i]);
      }
    }
  }

  function ExactServiceTest(query: string): Service -> bool {
    (s: Service) => Lower(s.name) == Trim(Lower(query))
  }

  /** The service search's `handleSubmit`: nothing for a blank query; the
      page of the first exactly named service; otherwise the contact page
      with the query as typed, untrimmed. */
  function ServiceSubmit(contactRoute: string, services: seq<Service>, query: string): (r: Option<string>)
    ensures r.None? <==> IsBlank(query)
    ensures !IsBlank(query) ==>
      match Find(services, ExactServiceTest(query))
      case Some(s) => r == Some("/services/" + s.slug)
      case None => r == Some(BuildContactHref(contactRoute, Some(query)))
  {
    if IsBlank(query) then None
    else
      match Find(services, ExactServiceTest(query))
      case Some(s) => Some("/services/" + s.slug)
      case None => Some(BuildContactHref(contactRoute, Some(query)))
  }

  /** Without an exact match the contact page reads back the query exactly
      as typed, surrounding spaces included. */
  lemma ServiceSubmitCarriesQuery(contactRoute: string, services: seq<Service>, query: string)
    requires '?' !in contactRoute
    requires !IsBlank(query) && Find(services, ExactServiceTest(query)).None?
    ensures ServiceSubmit(contactRoute, services, query).Some?
    ensures QueryOf(ServiceSubmit(contactRoute, services, query).value).Some?
    ensures UrlEncoded.Parse(QueryOf(ServiceSubmit(contactRoute, services, query).value).value)
      == [UrlEncoded.Pair(ProjectTypeKey, query)]
  {
    NonBlankNonEmpty(query);
    ContactHrefRoundTrip(contactRoute, Some(query));
  }
}

// The "Related services" filter on a service page: an order-preserving
// filter by name, the empty state it falls back to, and the clear button.

module RelatedServices {
  import opened Wrappers
  import opened Text
  import opened Lists
  import opened Catalog
  import opened Routing
  import UrlEncoded

  /** The `filtered` memo: every service for a blank query, otherwise the
      services whose lower-cased name contains the lower-cased query as
      typed (it is not trimmed), in data order. */
  function RelatedFiltered(services: seq<Service>, query: string): (r: seq<Service>)
    ensures IsBlank(query) ==> r == services
    ensures !IsBlank(query) ==> IsSubsequence(r, services)
    ensures !IsBlank(query) ==>
      forall s :: s in r <==> s in services && Contains(Lower(s.name), Lower(query))
    ensures !IsBlank(query) ==>
      forall s :: multiset(r)[s] == if Contains(Lower(s.name), Lower(query)) then multiset(services)[s] else 0
  {
    if IsBlank(query) then services
    else
      var r := Filter(services, ServiceNameTest(query));
      FilterIsSubsequence(services, ServiceNameTest(query));
      forall s
        ensures s in r <==> s in services && Contains(Lower(s.name), Lower(query))
        ensures multiset(r)[s] == if Contains(Lower(s.name), Lower(query)) then multiset(services)[s] else 0
      {
        FilterMembership(services, ServiceNameTest(query), s);
        FilterCount(services, ServiceNameTest(query), s);
      }
      r
  }

  /** `showEmpty`: the trimmed query is non-empty and nothing is left. */
  predicate ShowEmpty(services: seq<Service>, query: string) {
    |Trim(query)| > 0 && |RelatedFiltered(services, query)| == 0
  }

  /** The empty state shows exactly when the query is not blank and no
      service name contains it. */
  lemma ShowEmptyIff(services: seq<Service>, query: string)
    ensures ShowEmpty(services, query) <==>
      !IsBlank(query) && forall s | s in services :: !Contains(Lower(s.name), Lower(query))
  {
    if !IsBlank(query) {
      var r := RelatedFiltered(services, query);
      if r != [] {
        assert r[0] in r;
      }
    }
  }

  /** The clear button sets the query to "", which shows every service
      again, whatever was typed before. */
  lemma ClearRestores(services: seq<Service>, typed: string)
    ensures RelatedFiltered(services, "") == services
    ensures !ShowEmpty(services, "")
    ensures IsSubsequence(RelatedFiltered(services, typed), RelatedFiltered(services, ""))
  {
    assert Trim("") == "" by {
      TrimEmptyIffAllSpace("");
    }
    if IsBlank(typed) {
      assert services == services[..|services|];
      PrefixIsSubsequence(services, services);
    }
  }

  /** The empty state's "Contact team" link. */
  function EmptyStateHref(contactRoute: string, query: string): (r: string)
    ensures StartsWith(r, contactRoute)
  {
    BuildContactHref(contactRoute, Some(query))
  }

  /** Whenever the empty state shows, its contact link carries the query as
      typed, which the contact page reads back. */
  lemma EmptyStateCarriesQuery(contactRoute: string, services: seq<Service>, query: string)
    requires '?' !in contactRoute
    requires ShowEmpty(services, query)
    ensures QueryOf(EmptyStateHref(contactRoute, query)).Some?
    ensures UrlEncoded.Parse(QueryOf(EmptyStateHref(contactRoute, query)).value)
      == [UrlEncoded.Pair(ProjectTypeKey, query)]
  {
    NonBlankNonEmpty(query);
    ContactHrefRoundTrip(contactRoute, Some(query));
  }
}

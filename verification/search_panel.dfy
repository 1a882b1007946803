// The search panel of the services, locations and property-types index
// pages: substring filtering with exact matches first, the first exact
// match, and where submitting the form navigates to.

module SearchPanel {
  import opened Wrappers
  import opened Text
  import opened Lists
  import opened Routing
  import UrlEncoded

  /** A card of the panel: its `label` (here `caption`) and the page it links to. */
  datatype SearchItem = SearchItem(caption: string, href: string)

  datatype PanelKind = ServicePanel | LocationPanel | PropertyPanel

  /** `query.trim().toLowerCase()`. */
  function Normalize(query: string): string {
    Lower(Trim(query))
  }

  predicate LabelMatches(item: SearchItem, normalized: string) {
    Contains(Lower(item.caption), normalized)
  }

  predicate IsExact(item: SearchItem, normalized: string) {
    Lower(item.caption) == normalized
  }

  function MatchTest(normalized: string): SearchItem -> bool {
    x => LabelMatches(x, normalized)
  }

  function ExactTest(normalized: string): SearchItem -> bool {
    x => IsExact(x, normalized)
  }

  function InexactTest(normalized: string): SearchItem -> bool {
    x => !IsExact(x, normalized)
  }

  /** The items whose lower-cased label contains the normalized query. */
  function Matching(items: seq<SearchItem>, normalized: string): seq<SearchItem> {
    Filter(items, MatchTest(normalized))
  }

  function ExactOnes(items: seq<SearchItem>, normalized: string): seq<SearchItem> {
    Filter(items, ExactTest(normalized))
  }

  function InexactOnes(items: seq<SearchItem>, normalized: string): seq<SearchItem> {
    Filter(items, InexactTest(normalized))
  }

  /** An exact label also matches. */
  lemma ExactImpliesMatch(normalized: string)
    ensures forall x :: ExactTest(normalized)(x) ==> MatchTest(normalized)(x)
  {
    forall x | IsExact(x, normalized) {
      ContainsSelf(Lower(x.caption));
    }
  }

  /** The `filtered` memo. An empty query shows every item. Otherwise the
      result is a permutation of the matching items in which exact matches
      come first, and the stable sort keeps data order inside each group. */
  function Filtered(items: seq<SearchItem>, query: string): (r: seq<SearchItem>)
    ensures query == "" ==> r == items
    ensures query != "" ==>
      var n := Normalize(query);
      && multiset(r) == multiset(Matching(items, n))
      && (forall i, j | 0 <= i < j < |r| :: IsExact(r[j], n) ==> IsExact(r[i], n))
      && ExactOnes(r, n) == ExactOnes(items, n)
      && InexactOnes(r, n) == InexactOnes(Matching(items, n), n)
  {
    if query == "" then items
    else
      var n := Normalize(query);
      var m := Matching(items, n);
      StablePartition(m, n);
      ExactImpliesMatch(n);
      FilterFilter(items, MatchTest(n), ExactTest(n));
      ExactOnes(m, n) + InexactOnes(m, n)
  }

  /** Exact matches followed by the others: a permutation, exact-first,
      with each group in its original order. */
  lemma StablePartition(m: seq<SearchItem>, n: string)
    ensures var r := ExactOnes(m, n) + InexactOnes(m, n);
      && multiset(r) == multiset(m)
      && (forall i, j | 0 <= i < j < |r| :: IsExact(r[j], n) ==> IsExact(r[i], n))
      && ExactOnes(r, n) == ExactOnes(m, n)
      && InexactOnes(r, n) == InexactOnes(m, n)
  {
    var e, o := ExactOnes(m, n), InexactOnes(m, n);
    FilterPartition(m, ExactTest(n), InexactTest(n));
    FilterConcat(e, o, ExactTest(n));
    FilterConcat(e, o, InexactTest(n));
    FilterAll(e, ExactTest(n));
    FilterNone(o, ExactTest(n));
    FilterNone(e, InexactTest(n));
    FilterAll(o, InexactTest(n));
    var r := e + o;
    forall i, j | 0 <= i < j < |r| && IsExact(r[j], n)
      ensures IsExact(r[i], n)
    {
      assert j < |e|;
      assert r[i] == e[i];
    }
  }

  /** Membership in the filtered list is exactly matching the query. */
  lemma FilteredMembers(items: seq<SearchItem>, query: string, x: SearchItem)
    requires query != ""
    ensures x in Filtered(items, query) <==> x in items && LabelMatches(x, Normalize(query))
  {
    var n := Normalize(query);
    assert x in Filtered(items, query) <==> x in multiset(Matching(items, n));
    FilterMembership(items, MatchTest(n), x);
  }

  /** The `exactMatchHref` memo: the link of the first item whose
      lower-cased label equals the normalized query; none for an empty
      query. */
  function ExactMatchHref(items: seq<SearchItem>, query: string): (r: Option<string>)
    ensures query == "" ==> r.None?
    ensures query != "" ==>
      (r.Some? <==> exists i | 0 <= i < |items| :: IsExact(items[i], Normalize(query)))
    ensures r.Some? ==> exists i | 0 <= i < |items| ::
      && IsExact(items[i], Normalize(query))
      && items[i].href == r.value
      && forall j | 0 <= j < i :: !IsExact(items[j], Normalize(query))
  {
    if query == "" then None
    else
      match Find(items, ExactTest(Normalize(query)))
      case None => None
      case Some(x) => Some(x.href)
  }

  /** When there is an exact match, it is the first card shown. */
  lemma ExactMatchShownFirst(items: seq<SearchItem>, query: string)
    requires ExactMatchHref(items, query).Some?
    ensures Filtered(items, query) != []
    ensures Filtered(items, query)[0].href == ExactMatchHref(items, query).value
  {
    var n := Normalize(query);
    FindIsFilterHead(items, ExactTest(n));
    var r := Filtered(items, query);
    var e := ExactOnes(items, n);
    assert e != [] && e[0].href == ExactMatchHref(items, query).value;
    assert ExactOnes(r, n) == e;
    FilterIsSubsequence(r, ExactTest(n));
    FirstExactIsHead(r, n);
  }

  /** In a list with exact matches first, the first exact match is the
      head. */
  lemma FirstExactIsHead(r: seq<SearchItem>, n: string)
    requires forall i, j | 0 <= i < j < |r| :: IsExact(r[j], n) ==> IsExact(r[i], n)
    requires ExactOnes(r, n) != []
    ensures r != [] && ExactOnes(r, n)[0] == r[0]
  {
    if r == [] {
    } else if !IsExact(r[0], n) {
      FilterNone(r, ExactTest(n));
    }
  }

  /** The project type the contact form is prefilled with when there is no
      exact match: the page's prefill of the query if it has one, else the
      query, else "Other" on the locations page; and "Other" whenever that
      comes out empty. */
  function FallbackValue(kind: PanelKind, query: string, prefill: Option<string -> string>): (r: string)
    ensures r != ""
    ensures prefill.None? && query != "" ==> r == query
    ensures prefill.None? && query == "" ==> r == "Other"
    ensures prefill.Some? && prefill.value(query) != "" ==> r == prefill.value(query)
    ensures prefill.Some? && prefill.value(query) == "" ==> r == "Other"
  {
    var v :=
      if prefill.Some? then prefill.value(query)
      else if query != "" then query
      else if kind == LocationPanel then "Other"
      else "";
    if v != "" then v else "Other"
  }

  /** `handleSubmit`: the exact match's page when there is one, otherwise
      the contact page prefilled with the fallback project type. */
  function SubmitDestination(contactRoute: string, items: seq<SearchItem>, kind: PanelKind,
                             query: string, prefill: Option<string -> string>): (r: string)
    ensures var exact := ExactMatchHref(items, query);
      exact.Some? && exact.value != "" ==> r == exact.value
    ensures var exact := ExactMatchHref(items, query);
      !(exact.Some? && exact.value != "") ==>
        r == BuildContactHref(contactRoute, Some(FallbackValue(kind, query, prefill)))
  {
    var exact := ExactMatchHref(items, query);
    if exact.Some? && exact.value != "" then exact.value
    else BuildContactHref(contactRoute, Some(FallbackValue(kind, query, prefill)))
  }

  /** Without an exact match the contact link always carries a non-empty
      project type: the contact page reads back the fallback value. */
  lemma SubmitCarriesProjectType(contactRoute: string, items: seq<SearchItem>, kind: PanelKind,
                                 query: string, prefill: Option<string -> string>)
    requires '?' !in contactRoute
    requires ExactMatchHref(items, query).None?
    ensures QueryOf(SubmitDestination(contactRoute, items, kind, query, prefill)).Some?
    ensures UrlEncoded.Parse(QueryOf(SubmitDestination(contactRoute, items, kind, query, prefill)).value)
      == [UrlEncoded.Pair(ProjectTypeKey, FallbackValue(kind, query, prefill))]
  {
    ContactHrefRoundTrip(contactRoute, Some(FallbackValue(kind, query, prefill)));
  }

  /** The final `|| "Other"` makes the panel kind irrelevant. */
  lemma FallbackIgnoresKind(a: PanelKind, b: PanelKind, query: string, prefill: Option<string -> string>)
    ensures FallbackValue(a, query, prefill) == FallbackValue(b, query, prefill)
  {
  }

  /** The empty state's contact button: the query, or "Other" when empty. */
  function EmptyStateDestination(contactRoute: string, query: string): (r: string)
    ensures query != "" ==> r == BuildContactHref(contactRoute, Some(query))
    ensures query == "" ==> r == BuildContactHref(contactRoute, Some("Other"))
  {
    BuildContactHref(contactRoute, Some(if query != "" then query else "Other"))
  }
}

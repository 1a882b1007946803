// Breadcrumb structured data: a schema.org BreadcrumbList built from the
// trail of a page.

module Seo {
  import opened Wrappers
  import opened Text

  /** A step of the trail: its `label` (here `caption`) and an optional
      link relative to the site. */
  datatype BreadcrumbItem = BreadcrumbItem(caption: string, href: Option<string>)

  /** A `ListItem` of the list; `item` is absent when the step has no link. */
  datatype ListItem = ListItem(kind: string, position: nat, name: string, item: Option<string>)

  /** The JSON-LD object: `@context`, `@type` and `itemListElement`. */
  datatype BreadcrumbList = BreadcrumbList(context: string, kind: string, itemListElement: seq<ListItem>)

  const SchemaContext := "https://schema.org"
  const BreadcrumbListType := "BreadcrumbList"
  const ListItemType := "ListItem"

  /** A link is present when `href` is a non-empty string. */
  predicate HasLink(step: BreadcrumbItem) {
    step.href.Some? && step.href.value != ""
  }

  /** The list entry for the step at `index` (counted from 0). */
  function Entry(step: BreadcrumbItem, index: nat, baseUrl: string): (r: ListItem)
    ensures r.position == index + 1 && r.name == step.caption && r.kind == ListItemType
    ensures r.item.Some? <==> HasLink(step)
  {
    ListItem(ListItemType, index + 1, step.caption,
      if HasLink(step) then Some(baseUrl + step.href.value) else None)
  }

  /** `buildBreadcrumbJsonLd`. */
  function BuildBreadcrumbJsonLd(items: seq<BreadcrumbItem>, baseUrl: string): (r: BreadcrumbList)
    ensures r.context == SchemaContext && r.kind == BreadcrumbListType
    ensures |r.itemListElement| == |items|
    ensures forall i | 0 <= i < |items| ::
      && r.itemListElement[i].position == i + 1
      && r.itemListElement[i].name == items[i].caption
      && (r.itemListElement[i].item.Some? <==> HasLink(items[i]))
  {
    BreadcrumbList(SchemaContext, BreadcrumbListType,
      seq(|items|, i requires 0 <= i < |items| => Entry(items[i], i, baseUrl)))
  }

  /** Positions count 1, 2, 3, ... without gaps, so they are distinct and
      increasing. */
  lemma PositionsIncrease(items: seq<BreadcrumbItem>, baseUrl: string, i: int, j: int)
    requires 0 <= i < j < |items|
    ensures var l := BuildBreadcrumbJsonLd(items, baseUrl).itemListElement;
      l[i].position < l[j].position && l[j].position - l[i].position == j - i
  {
  }

  /** Every linked entry is an absolute URL under `baseUrl`, and removing
      `baseUrl` gives back the step's link. */
  lemma ItemRecoversHref(items: seq<BreadcrumbItem>, baseUrl: string, i: int)
    requires 0 <= i < |items| && HasLink(items[i])
    ensures var it := BuildBreadcrumbJsonLd(items, baseUrl).itemListElement[i].item;
      && it.Some?
      && StartsWith(it.value, baseUrl)
      && it.value[|baseUrl|..] == items[i].href.value
  {
    var it := BuildBreadcrumbJsonLd(items, baseUrl).itemListElement[i].item;
    assert it == Some(baseUrl + items[i].href.value);
  }

  /** Appending steps to a trail appends entries whose positions continue
      from where the trail ended. */
  lemma BreadcrumbAppend(a: seq<BreadcrumbItem>, b: seq<BreadcrumbItem>, baseUrl: string)
    ensures var whole := BuildBreadcrumbJsonLd(a + b, baseUrl).itemListElement;
      && whole[..|a|] == BuildBreadcrumbJsonLd(a, baseUrl).itemListElement
      && forall k | 0 <= k < |b| ::
           whole[|a| + k] == BuildBreadcrumbJsonLd(b, baseUrl).itemListElement[k].(position := |a| + k + 1)
  {
    var whole := BuildBreadcrumbJsonLd(a + b, baseUrl).itemListElement;
    assert forall k | 0 <= k < |a| :: (a + b)[k] == a[k];
    assert forall k | 0 <= k < |b| :: (a + b)[|a| + k] == b[k];
  }
}

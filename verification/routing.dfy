// The contact-link builder: the contact route, optionally followed by a
// `projectType` query serialized as application/x-www-form-urlencoded.

module Routing {
  import opened Wrappers
  import opened Text
  import opened UrlEncoded

  const ProjectTypeKey := "projectType"

  /** `buildContactHref(projectType?)`. The contact route is a constant of
      the site; it is a parameter here. An absent or empty project type is
      falsy and yields the bare route. */
  function BuildContactHref(contactRoute: string, projectType: Option<string>): (r: string)
    ensures StartsWith(r, contactRoute)
    ensures projectType.None? || projectType.value == "" ==> r == contactRoute
    ensures projectType.Some? && projectType.value != "" ==>
      r == contactRoute + "?" + Serialize([Pair(ProjectTypeKey, projectType.value)])
  {
    if projectType.None? || projectType.value == "" then contactRoute
    else contactRoute + "?" + Serialize([Pair(ProjectTypeKey, projectType.value)])
  }

  /** The query of a relative URL: the text after its first `?`. */
  function QueryOf(href: string): (r: Option<string>)
    ensures r.None? <==> '?' !in href
    ensures r.Some? ==> EndsWith(href, r.value) && |r.value| < |href|
  {
    if href == [] then None
    else if href[0] == '?' then Some(href[1..])
    else QueryOf(href[1..])
  }

  lemma {:induction false} QueryOfAfter(prefix: string, query: string)
    requires '?' !in prefix
    ensures QueryOf(prefix + "?" + query) == Some(query)
  {
    if prefix == [] {
      assert prefix + "?" + query == ['?'] + query;
    } else {
      assert (prefix + "?" + query)[1..] == prefix[1..] + "?" + query;
      QueryOfAfter(prefix[1..], query);
    }
  }

  /** The contact page reads the project type back: the link has a query
      exactly when a non-empty project type was given, and parsing that
      query yields the single entry `projectType` with the given value. */
  lemma ContactHrefRoundTrip(contactRoute: string, projectType: Option<string>)
    requires '?' !in contactRoute
    ensures QueryOf(BuildContactHref(contactRoute, projectType)).Some?
        <==> projectType.Some? && projectType.value != ""
    ensures projectType.Some? && projectType.value != "" ==>
      Parse(QueryOf(BuildContactHref(contactRoute, projectType)).value)
        == [Pair(ProjectTypeKey, projectType.value)]
  {
    if projectType.Some? && projectType.value != "" {
      var q := Serialize([Pair(ProjectTypeKey, projectType.value)]);
      QueryOfAfter(contactRoute, q);
      ParseSerialize([Pair(ProjectTypeKey, projectType.value)]);
    }
  }
}

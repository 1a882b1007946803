// The site's data records, with the fields the modelled components read.
// The tables themselves are inputs of the model.

module Catalog {
  import opened Wrappers
  import opened Text

  /** A service: `name`, `slug`, one-line `short` description and the
      `category` it is grouped under. */
  datatype Service = Service(name: string, slug: string, short: string, category: string)

  /** A location: its `type` field is `kind` here ("city", ...). */
  datatype Location = Location(name: string, slug: string, kind: string, heroImage: Option<string>)

  datatype PropertyType = PropertyType(name: string, slug: string)

  /** `service.name.toLowerCase().includes(query.toLowerCase())`. */
  function ServiceNameTest(query: string): Service -> bool {
    (s: Service) => Contains(Lower(s.name), Lower(query))
  }

  /** `location.name.toLowerCase().includes(query.toLowerCase())`. */
  function LocationNameTest(query: string): Location -> bool {
    (l: Location) => Contains(Lower(l.name), Lower(query))
  }
}

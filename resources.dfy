/**
 * Shared entities the server only copies around: the datastore handle and the
 * collection resources of the configuration, read the way Go reads a map
 * (a missing key yields the zero value of the element type).
 */
module Resources {

  /** The only datastore the server can open: an SQLite file, identified by its file name. */
  datatype Datastore = Sqlite3(filename: string)

  /** The part of a TAXII collection resource that the server inspects. */
  datatype CollectionResource = CollectionResource(id: string, canRead: bool, canWrite: bool)

  /** Go's zero value of a collection resource. */
  const ZeroCollection := CollectionResource("", false, false)

  /**
   * The `Resource` field of a handler descriptor.  The constructors modelled
   * here never set it, so only its zero value (a nil interface) appears; the
   * resources the routes are bound to are `Assembly.Binding`.
   */
  datatype Resource = NoResource

  /** `m[key]` on a Go map: the stored value, or the zero value when the key is missing. */
  function Lookup(m: map<string, CollectionResource>, key: string): CollectionResource {
    if key in m then m[key] else ZeroCollection
  }

  /** A collection that can be read or written to, and so is listed. */
  predicate Usable(c: CollectionResource) {
    c.canRead || c.canWrite
  }
}

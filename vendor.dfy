/** The vendor record every source adapter produces and every renderer consumes. */
module Vendors {
  import opened Wrappers
  import opened JsString

  /** A coordinate, kept opaque: the two renderings JavaScript gives it, `String(x)` and
    * `x.toFixed(5)`. Floating-point values themselves are not modelled. */
  datatype Coord = Coord(text: string, fixed5: string)

  /** A JavaScript number is falsy exactly when it is 0 or NaN, which `String` renders as "0" and "NaN". */
  predicate Truthy(c: Coord) {
    c.text != "0" && c.text != "NaN"
  }

  /** One vendor. `kind` is the source's `type` field. An absent `gst_id` or `source_url` is "",
    * since every renderer reads them through `|| ''`. */
  datatype Vendor = Vendor(
    id: string,
    name: string,
    kind: string,
    lat: Option<Coord>,
    lon: Option<Coord>,
    address: string,
    phone: string,
    website: string,
    gstId: string,
    sourceUrl: string)

  /** The generic category of every scraped record. */
  const AgriculturalVendor := "Agricultural Vendor"
  /** The sentinel for a name that could not be extracted. */
  const UnknownName := "Unknown"
  /** The sentinel for an address that could not be extracted. */
  const NoAddress := "N/A"

  /** The deduplication identity of the scrapers: `(v.name + v.address).toLowerCase()`. */
  function Key(v: Vendor): string {
    ToLower(v.name + v.address)
  }
}

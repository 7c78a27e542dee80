/**
 * The Overpass helpers of the server's `fetchAgriculturalVendors`: reading a `lat,lon` location,
 * the Overpass QL query, the mapping of returned elements to vendor records, the exact-match
 * deduplication, and the server's own eight-column table.
 *
 * Numbers are not modelled as floating-point values. `parseFloat` is modelled by the numeric
 * literal it reads (the longest prefix that is a decimal literal), which decides whether the result
 * is NaN; rendering numbers back in the query is left to the caller.
 */
module Overpass {
  import opened Wrappers
  import opened JsString
  import opened Vendors
  import opened Dedup
  import opened VendorTable
  import opened Unique

  // ---------------------------------------------------------------------------------------
  // parseFloat and parseLatLon
  // ---------------------------------------------------------------------------------------

  /** The length of an exponent (`e`/`E`, an optional sign, at least one digit) at the start of
    * `s`, or 0. */
  function ExponentLength(s: string): (n: nat)
    ensures n <= |s|
  {
    if s != [] && (s[0] == 'e' || s[0] == 'E') then
      var sign := if |s| >= 2 && IsSign(s[1]) then 1 else 0;
      var digits := |LeadingDigits(s[1 + sign..])|;
      if digits == 0 then 0 else 1 + sign + digits
    else 0
  }

  const InfinityText := "Infinity"

  /** The length of the longest prefix of `s` that is an unsigned decimal literal: `Infinity`, or
    * digits with an optional fraction and exponent, with a digit before or after the point. */
  function DecimalLength(s: string): (n: nat)
    ensures n <= |s|
  {
    if StartsWith(s, InfinityText) then |InfinityText|
    else
      var whole := |LeadingDigits(s)|;
      if whole < |s| && s[whole] == '.' then
        var fraction := |LeadingDigits(s[whole + 1..])|;
        if whole == 0 && fraction == 0 then 0
        else
          var mantissa := whole + 1 + fraction;
          mantissa + ExponentLength(s[mantissa..])
      else if whole == 0 then 0
      else whole + ExponentLength(s[whole..])
  }

  /** `parseFloat(s)`: leading white space skipped, then the numeric literal read, or `None` for
    * NaN when no prefix is one. */
  function ParseFloat(s: string): Option<string> {
    var t := TrimStart(s);
    var sign := |LeadingSign(t)|;
    var n := DecimalLength(t[sign..]);
    if n == 0 then None else Some(t[..sign + n])
  }

  /** The start of text that `parseFloat` reads a number from (after white space and sign). */
  predicate NumericStart(u: string) {
    StartsWith(u, InfinityText) || (u != [] && IsDigit(u[0])) || (|u| >= 2 && u[0] == '.' && IsDigit(u[1]))
  }

  lemma DecimalLengthZero(u: string)
    ensures DecimalLength(u) == 0 <==> !NumericStart(u)
  {
    if !StartsWith(u, InfinityText) {
      var whole := LeadingDigits(u);
      if u != [] && IsDigit(u[0]) {
        assert whole != [];
      } else {
        assert whole == [];
        if |u| >= 2 && u[0] == '.' && IsDigit(u[1]) {
          assert LeadingDigits(u[1..]) != [];
        }
      }
    }
  }

  /** `parseFloat` is not NaN exactly when, after the white space and an optional sign, the text
    * starts with `Infinity`, a digit, or a point followed by a digit; what it reads is then a
    * non-empty prefix of the text after the white space, sign included. */
  lemma ParseFloatSpec(s: string)
    ensures var t := TrimStart(s);
      && (ParseFloat(s).Some? <==> NumericStart(t[|LeadingSign(t)|..]))
      && (ParseFloat(s).Some? ==> ParseFloat(s).value <= t && |ParseFloat(s).value| > |LeadingSign(t)|)
  {
    var t := TrimStart(s);
    DecimalLengthZero(t[|LeadingSign(t)|..]);
  }

  /** Digits followed by something that is neither a digit, a point nor an exponent are read
    * as those digits. */
  lemma ParseFloatDigits(d: string, rest: string)
    requires d != [] && forall k :: 0 <= k < |d| ==> IsDigit(d[k])
    requires rest != [] && !IsDigit(rest[0]) && rest[0] != '.' && rest[0] != 'e' && rest[0] != 'E'
    ensures ParseFloat(d + rest) == Some(d)
  {
    var s := d + rest;
    assert !IsSpace(s[0]);
    assert TrimStart(s) == s;
    assert LeadingSign(s) == [];
    assert !StartsWith(s, InfinityText) by {
      assert !IsDigit(InfinityText[0]);
    }
    LeadingDigitsOf(d, rest);
    assert s[..|d|] == d;
  }

  lemma {:induction false} LeadingDigitsOf(d: string, rest: string)
    requires forall k :: 0 <= k < |d| ==> IsDigit(d[k])
    requires rest == [] || !IsDigit(rest[0])
    ensures LeadingDigits(d + rest) == d
    decreases |d|
  {
    if d != [] {
      assert (d + rest)[1..] == d[1..] + rest;
      LeadingDigitsOf(d[1..], rest);
    } else {
      assert d + rest == rest;
    }
  }

  /** A coordinate pair as read: the two numeric literals. */
  datatype LatLon = LatLon(lat: string, lon: string)

  /** `parseLatLon(loc)`: exactly two comma-separated parts, both numbers after trimming. */
  function ParseLatLon(loc: string): Option<LatLon> {
    var parts := Split(loc, ',');
    if |parts| != 2 then None
    else
      BothNumbers(ParseFloat(Trim(parts[0])), ParseFloat(Trim(parts[1])))
  }

  /** The coordinates, when both parts are numbers. */
  function BothNumbers(lat: Option<string>, lon: Option<string>): Option<LatLon> {
    if lat.Some? && lon.Some? then Some(LatLon(lat.value, lon.value)) else None
  }

  /** The number of occurrences of `c` in `s`. */
  function Occurrences(s: string, c: char): nat
    decreases |s|
  {
    if s == [] then 0 else (if s[0] == c then 1 else 0) + Occurrences(s[1..], c)
  }

  lemma {:induction false} OccurrencesConcat(a: string, b: string, c: char)
    ensures Occurrences(a + b, c) == Occurrences(a, c) + Occurrences(b, c)
    decreases |a|
  {
    if a != [] {
      assert (a + b)[1..] == a[1..] + b;
      OccurrencesConcat(a[1..], b, c);
    } else {
      assert a + b == b;
    }
  }

  lemma {:induction false} OccurrencesAbsent(s: string, c: char)
    requires c !in s
    ensures Occurrences(s, c) == 0
    decreases |s|
  {
    if s != [] {
      OccurrencesAbsent(s[1..], c);
    }
  }

  /** `split` on a character gives one more part than there are occurrences of it. */
  lemma {:induction false} SplitCount(s: string, sep: char)
    ensures |Split(s, sep)| == Occurrences(s, sep) + 1
    decreases |s|
  {
    if sep !in s {
      OccurrencesAbsent(s, sep);
    } else {
      var i := IndexOf(s, sep);
      SplitCount(s[i + 1..], sep);
      assert s == s[..i] + [sep] + s[i + 1..];
      OccurrencesConcat(s[..i] + [sep], s[i + 1..], sep);
      OccurrencesConcat(s[..i], [sep], sep);
      OccurrencesAbsent(s[..i], sep);
      assert Occurrences([sep], sep) == 1 by {
        assert [sep][1..] == [];
      }
    }
  }

  /** A location is read as coordinates only when it holds exactly one comma. */
  lemma ParseLatLonOneComma(loc: string)
    ensures Occurrences(loc, ',') != 1 ==> ParseLatLon(loc) == None
  {
    SplitCount(loc, ',');
  }

  /** With exactly one comma, the location is read as coordinates exactly when both sides are
    * numbers after trimming, and then as those two literals. */
  lemma ParseLatLonPair(a: string, b: string)
    requires ',' !in a && ',' !in b
    ensures ParseLatLon(a + "," + b).Some? <==> ParseFloat(Trim(a)).Some? && ParseFloat(Trim(b)).Some?
    ensures ParseLatLon(a + "," + b).Some? ==>
      ParseLatLon(a + "," + b) == Some(LatLon(ParseFloat(Trim(a)).value, ParseFloat(Trim(b)).value))
  {
    SplitPair(a, b);
    ParseLatLonParts(a + "," + b, a, b);
  }

  lemma SplitPair(a: string, b: string)
    requires ',' !in a && ',' !in b
    ensures Split(a + "," + b, ',') == [a, b]
  {
    assert a + "," + b == a + [','] + b;
    SplitCons(a, ',', b);
  }

  /** `parseLatLon` on a location that splits into two parts. */
  lemma ParseLatLonParts(loc: string, a: string, b: string)
    requires Split(loc, ',') == [a, b]
    ensures ParseLatLon(loc).Some? <==> ParseFloat(Trim(a)).Some? && ParseFloat(Trim(b)).Some?
    ensures ParseLatLon(loc).Some? ==>
      ParseLatLon(loc) == Some(LatLon(ParseFloat(Trim(a)).value, ParseFloat(Trim(b)).value))
  {
    var parts := Split(loc, ',');
    assert |parts| == 2 && parts[0] == a && parts[1] == b;
    assert ParseLatLon(loc) == BothNumbers(ParseFloat(Trim(a)), ParseFloat(Trim(b)));
  }

  /** Text that opens with a character no number can start with is NaN to `parseFloat`. */
  lemma NotANumber(a: string)
    requires a != [] && !IsSpace(a[0]) && !IsSign(a[0]) && !IsDigit(a[0]) && a[0] != '.' && a[0] != 'I'
    ensures ParseFloat(Trim(a)) == None
  {
    var t := Trim(a);
    assert TrimStart(a) == a;
    assert t != [] && t[0] == a[0];
    assert TrimStart(t) == t;
    assert LeadingSign(t) == [];
    ParseFloatSpec(t);
  }

  /** A place name and a state are not coordinates: `Ludhiana, Punjab` (or any `city,state` whose
    * city starts with a letter other than `I`) is not read as a location, although the error
    * message offers `city,state` as an accepted form. */
  lemma PlaceNameRejected(city: string, state: string)
    requires ',' !in city && ',' !in state
    requires city != [] && ('A' <= city[0] <= 'Z' || 'a' <= city[0] <= 'z') && city[0] != 'I'
    ensures ParseLatLon(city + "," + state) == None
  {
    NotANumber(city);
    ParseLatLonPair(city, state);
  }

  // ---------------------------------------------------------------------------------------
  // buildOverpassQuery
  // ---------------------------------------------------------------------------------------

  /** The `shop` tags the query asks for, in order. */
  const ShopTags: seq<string> :=
    ["fertilizer", "seed", "pesticide", "agricultural_machinery", "irrigation", "agri_input"]

  const QueryIndent := "      "

  /** The query line for one shop tag. */
  function NodeLine(tag: string, radius: string, lat: string, lon: string): string {
    QueryIndent + "  node[\"shop\"=\"" + tag + "\"](around:" + radius + "," + lat + "," + lon + ");"
  }

  function NodeLines(radius: string, lat: string, lon: string): (r: seq<string>)
    ensures |r| == |ShopTags|
    ensures forall k :: 0 <= k < |ShopTags| ==> r[k] == NodeLine(ShopTags[k], radius, lat, lon)
  {
    seq(|ShopTags|, k requires 0 <= k < |ShopTags| => NodeLine(ShopTags[k], radius, lat, lon))
  }

  /** The lines of the template, from the empty one after the opening backtick to the indentation
    * before the closing one. */
  function QueryLines(lat: string, lon: string, radius: string, maxResults: string): seq<string> {
    ["", QueryIndent + "[out:json][timeout:25];", QueryIndent + "("]
    + NodeLines(radius, lat, lon)
    + [QueryIndent + ");", QueryIndent + "out body " + maxResults + ";", "    "]
  }

  /** `buildOverpassQuery(lat, lon, radius)` with the numbers already rendered as text. */
  function BuildOverpassQuery(lat: string, lon: string, radius: string, maxResults: string): string {
    Join(QueryLines(lat, lon, radius, maxResults), "\n")
  }

  lemma NodeLineSingle(tag: string, radius: string, lat: string, lon: string)
    requires '\n' !in tag && '\n' !in radius && '\n' !in lat && '\n' !in lon
    ensures '\n' !in NodeLine(tag, radius, lat, lon)
  {
  }

  lemma QueryLinesSingle(lat: string, lon: string, radius: string, maxResults: string)
    requires '\n' !in lat && '\n' !in lon && '\n' !in radius && '\n' !in maxResults
    ensures forall k :: 0 <= k < |QueryLines(lat, lon, radius, maxResults)| ==>
      '\n' !in QueryLines(lat, lon, radius, maxResults)[k]
  {
    var nodes := NodeLines(radius, lat, lon);
    forall k | 0 <= k < |nodes| ensures '\n' !in nodes[k] {
      assert '\n' !in ShopTags[k];
      NodeLineSingle(ShopTags[k], radius, lat, lon);
    }
  }

  /** For single-line inputs the query has a line per shop tag, in order, between the opening
    * `(` and the closing `);`, followed by `out body` with the result limit. */
  lemma QuerySpec(lat: string, lon: string, radius: string, maxResults: string)
    requires '\n' !in lat && '\n' !in lon && '\n' !in radius && '\n' !in maxResults
    ensures var lines := Split(BuildOverpassQuery(lat, lon, radius, maxResults), '\n');
      && |lines| == |ShopTags| + 6
      && lines[2] == QueryIndent + "("
      && (forall k :: 0 <= k < |ShopTags| ==> lines[3 + k] == NodeLine(ShopTags[k], radius, lat, lon))
      && lines[3 + |ShopTags|] == QueryIndent + ");"
      && lines[4 + |ShopTags|] == QueryIndent + "out body " + maxResults + ";"
  {
    QueryLinesSingle(lat, lon, radius, maxResults);
    JoinSplit(QueryLines(lat, lon, radius, maxResults), '\n');
  }

  // ---------------------------------------------------------------------------------------
  // Elements to vendor records
  // ---------------------------------------------------------------------------------------

  /** An Overpass element: its numeric id, its tags when it has any, and its coordinates. */
  datatype Element = Element(id: nat, tags: Option<map<string, string>>, lat: Option<Coord>, lon: Option<Coord>)

  /** `el.tags && el.tags[key]`, when that is a non-empty string. */
  function TagValue(el: Element, key: string): Option<string> {
    if el.tags.Some? && key in el.tags.value && el.tags.value[key] != "" then Some(el.tags.value[key])
    else None
  }

  /** `el.tags && el.tags[key] ? el.tags[key] : otherwise`. */
  function TagOr(el: Element, key: string, otherwise: string): string {
    match TagValue(el, key)
    case Some(v) => v
    case None => otherwise
  }

  const NodeUrlPrefix := "https://www.openstreetmap.org/node/"

  /** The record for one element. The numeric id is kept as its decimal text; there is no GST
    * field. */
  function ElementVendor(el: Element): Vendor {
    Vendor(NatToString(el.id), TagOr(el, "name", UnknownName), TagOr(el, "shop", ""), el.lat, el.lon,
           TagOr(el, "addr:full", TagOr(el, "addr:street", "")),
           TagOr(el, "phone", ""), TagOr(el, "website", ""), "", NodeUrlPrefix + NatToString(el.id))
  }

  /** What the mapping promises: the name tag or `Unknown`, the shop, phone and website tags or
    * nothing, the full address in preference to the street, and a source URL that names the node,
    * so that distinct elements get distinct URLs. */
  lemma ElementVendorSpec(el: Element, other: Element)
    ensures var v := ElementVendor(el);
      && (TagValue(el, "name").Some? ==> v.name == TagValue(el, "name").value)
      && (TagValue(el, "name").None? ==> v.name == UnknownName)
      && (v.name == UnknownName <==> TagValue(el, "name").None? || TagValue(el, "name") == Some(UnknownName))
      && (TagValue(el, "shop").Some? ==> v.kind == TagValue(el, "shop").value)
      && (TagValue(el, "shop").None? ==> v.kind == "")
      && (TagValue(el, "phone").Some? ==> v.phone == TagValue(el, "phone").value)
      && (TagValue(el, "phone").None? ==> v.phone == "")
      && (TagValue(el, "website").Some? ==> v.website == TagValue(el, "website").value)
      && (TagValue(el, "website").None? ==> v.website == "")
      && v.name != ""
      && (TagValue(el, "addr:full").Some? ==> v.address == TagValue(el, "addr:full").value)
      && (TagValue(el, "addr:full").None? && TagValue(el, "addr:street").Some?
          ==> v.address == TagValue(el, "addr:street").value)
      && (v.address == "" <==> TagValue(el, "addr:full").None? && TagValue(el, "addr:street").None?)
      && v.lat == el.lat && v.lon == el.lon && v.gstId == ""
      && StartsWith(v.sourceUrl, NodeUrlPrefix) && v.sourceUrl[|NodeUrlPrefix|..] == v.id
    ensures el.id != other.id ==> ElementVendor(el).sourceUrl != ElementVendor(other).sourceUrl
  {
    var v := ElementVendor(el);
    assert v.sourceUrl[..|NodeUrlPrefix|] == NodeUrlPrefix;
    if el.id != other.id && v.sourceUrl == ElementVendor(other).sourceUrl {
      var w := ElementVendor(other);
      assert v.sourceUrl[|NodeUrlPrefix|..] == w.sourceUrl[|NodeUrlPrefix|..];
      NatToStringInjective(el.id, other.id);
    }
  }

  /** `(data.elements || []).map(...)`. */
  function ElementVendors(elements: Option<seq<Element>>): (r: seq<Vendor>)
    ensures elements.None? ==> r == []
    ensures elements.Some? ==> |r| == |elements.value|
    ensures elements.Some? ==> forall i :: 0 <= i < |r| ==> r[i] == ElementVendor(elements.value[i])
  {
    match elements
    case None => []
    case Some(es) => seq(|es|, i requires 0 <= i < |es| => ElementVendor(es[i]))
  }

  // ---------------------------------------------------------------------------------------
  // Exact-match deduplication
  // ---------------------------------------------------------------------------------------

  /** The identity the Overpass path deduplicates on: name and address, compared exactly. */
  function Place(v: Vendor): (string, string) {
    (v.name, v.address)
  }

  /** `vendors.filter((v, i, arr) => i === arr.findIndex(t => t.name === v.name && t.address ===
    * v.address))`. */
  function UniquePlaces(vs: seq<Vendor>): seq<Vendor> {
    UniqueBy(Place, vs)
  }

  /** What the filter promises for the Overpass records: a subsequence of its input in which no
    * two records share both name and address, keeping exactly the first record of each such pair;
    * every pair of the input is kept; applying it twice is applying it once. */
  lemma UniquePlacesSpec(vs: seq<Vendor>)
    ensures IsSubsequence(UniquePlaces(vs), vs)
    ensures forall i, j :: 0 <= i < j < |UniquePlaces(vs)| ==>
      UniquePlaces(vs)[i].name != UniquePlaces(vs)[j].name || UniquePlaces(vs)[i].address != UniquePlaces(vs)[j].address
    ensures forall i :: 0 <= i < |vs| && FirstOf(Place, vs, i) ==> vs[i] in UniquePlaces(vs)
    ensures forall w :: w in UniquePlaces(vs) ==> exists i :: 0 <= i < |vs| && vs[i] == w && FirstOf(Place, vs, i)
    ensures forall i :: 0 <= i < |vs| ==>
      exists w :: w in UniquePlaces(vs) && w.name == vs[i].name && w.address == vs[i].address
    ensures UniquePlaces(UniquePlaces(vs)) == UniquePlaces(vs)
  {
    UniqueBySpec(Place, vs);
    var u := UniquePlaces(vs);
    forall i, j | 0 <= i < j < |u| ensures u[i].name != u[j].name || u[i].address != u[j].address {
      assert Place(u[i]) != Place(u[j]);
    }
    forall i | 0 <= i < |vs| ensures exists w :: w in u && w.name == vs[i].name && w.address == vs[i].address {
      var w :| w in u && Place(w) == Place(vs[i]);
    }
  }

  /** The Overpass path's list: `filter(...)` on the mapped elements, then `slice(0, max_results)`. */
  function OverpassVendors(elements: Option<seq<Element>>, maxResults: int): seq<Vendor> {
    SliceTo(UniquePlaces(ElementVendors(elements)), maxResults)
  }

  /** The two deduplications differ: the exact match keeps records whose names differ only in
    * case or whose name and address split one text differently, where the lowercase key of the
    * scrapers keeps one. */
  lemma DedupsDiffer(v: Vendor, w: Vendor, x: Vendor, y: Vendor)
    requires v.name == "A" && w.name == "a" && v.address == "" && w.address == ""
    requires x.name == "ab" && x.address == "c" && y.name == "a" && y.address == "bc"
    ensures UniquePlaces([v, w]) == [v, w] && Dedup.Dedup([v, w]) == [v]
    ensures UniquePlaces([x, y]) == [x, y] && Dedup.Dedup([x, y]) == [x]
  {
    assert Place(v) != Place(w) && Place(x) != Place(y);
    assert DistinctBy(Place, [v, w]) && DistinctBy(Place, [x, y]);
    UniqueByOfDistinct(Place, [v, w]);
    UniqueByOfDistinct(Place, [x, y]);
    KeyJoinsWithoutSeparator(x, y);
    assert Key(v) == Key(w) by {
      assert v.name + v.address == "A" && w.name + w.address == "a";
      assert ToLower("A")[0] == LowerChar('A') == 'a';
      assert ToLower("a")[0] == 'a';
    }
    assert [v, w][0] == v && [v, w][1..] == [w];
    assert [w][0] == w && [w][1..] == [];
    var none: set<string> := {};
    assert none + {Key(v)} == {Key(v)};
    assert DedupFrom([v, w], none) == [v] + DedupFrom([w], {Key(v)});
    assert DedupFrom([w], {Key(v)}) == DedupFrom([], {Key(v)});
  }

  // ---------------------------------------------------------------------------------------
  // The server's eight-column table
  // ---------------------------------------------------------------------------------------

  /** The server's table has the first eight columns of the scrapers' layout, with the same dash
    * widths: `| ID | Name | … | Website |` and `|----|------|…|---------|`. */
  const OsmColumns: nat := 8


  /** `${v.lat || ''}`: the number's text, or nothing when it is absent, 0 or NaN. */
  function NumberCell(c: Option<Coord>): string {
    match c
    case None => ""
    case Some(x) => if Truthy(x) then x.text else ""
  }

  function OsmCells(n: nat, v: Vendor): seq<string> {
    [NatToString(n), v.name, v.kind, NumberCell(v.lat), NumberCell(v.lon), v.address, v.phone, v.website]
  }

  /** One row of the server's table, without its line break. */
  function OsmRow(n: nat, v: Vendor): string {
    "| " + Join(OsmCells(n, v), " | ") + " |"
  }

  function OsmRows(vs: seq<Vendor>): (r: seq<string>)
    ensures |r| == |vs|
    ensures forall i :: 0 <= i < |vs| ==> r[i] == OsmRow(i + 1, vs[i])
  {
    seq(|vs|, i requires 0 <= i < |vs| => OsmRow(i + 1, vs[i]))
  }

  /** The text the server's `formatVendorsTable` accumulates: every row and the footer end with a
    * line break. */
  function OsmTable(location: string, vs: seq<Vendor>): string {
    OsmHead(location) + OsmBody(vs) + "\n" + Footer(|vs|, location) + "\n"
  }

  /** The title, a blank line, the header and the separator, each ending with a line break. */
  function OsmHead(location: string): string {
    Title(location) + "\n\n" + HeaderRow(OsmColumns) + "\n" + SeparatorRow(OsmColumns) + "\n"
  }

  /** The rows of the first `|vs|` vendors, numbered from 1, each ending with a line break. */
  function OsmBody(vs: seq<Vendor>): string
    decreases |vs|
  {
    if vs == [] then "" else OsmBody(vs[..|vs| - 1]) + OsmRow(|vs|, vs[|vs| - 1]) + "\n"
  }

  lemma OsmBodyStep(vs: seq<Vendor>, i: nat)
    requires i < |vs|
    ensures OsmBody(vs[..i + 1]) == OsmBody(vs[..i]) + OsmRow(i + 1, vs[i]) + "\n"
  {
    assert vs[..i + 1][..i] == vs[..i];
  }

  /** The body is the rows of `OsmRows`, each terminated by a line break. */
  lemma {:induction false} OsmBodyRows(vs: seq<Vendor>)
    ensures OsmBody(vs) == Terminated(OsmRows(vs), "\n")
    decreases |vs|
  {
    if vs != [] {
      var n := |vs| - 1;
      OsmBodyRows(vs[..n]);
      assert OsmRows(vs)[..n] == OsmRows(vs[..n]);
    }
  }

  /** The server's `formatVendorsTable(vendors, location)`: `table +=` the title, header and
    * separator, one line per vendor, then the footer. */
  method FormatOsmTable(vs: seq<Vendor>, location: string) returns (table: string)
    ensures table == OsmTable(location, vs)
  {
    table := Title(location) + "\n\n";
    table := table + HeaderRow(OsmColumns) + "\n";
    table := table + SeparatorRow(OsmColumns) + "\n";
    ghost var head := table;
    assert head == OsmHead(location);
    var i := 0;
    while i < |vs|
      invariant 0 <= i <= |vs|
      invariant table == head + OsmBody(vs[..i])
    {
      var row := OsmRow(i + 1, vs[i]);
      OsmBodyStep(vs, i);
      AppendLine(table, head, OsmBody(vs[..i]), row, OsmBody(vs[..i + 1]));
      table := table + row + "\n";
      i := i + 1;
    }
    assert vs[..i] == vs;
    table := table + "\n" + Footer(|vs|, location) + "\n";
  }

  /** The fields the server's table shows, none with a line break. */
  predicate OsmSingleLine(v: Vendor) {
    '\n' !in v.name && '\n' !in v.kind && '\n' !in v.address && '\n' !in v.phone && '\n' !in v.website
    && (v.lat.Some? ==> '\n' !in v.lat.value.text) && (v.lon.Some? ==> '\n' !in v.lon.value.text)
  }

  lemma OsmRowSingleLine(n: nat, v: Vendor)
    requires OsmSingleLine(v)
    ensures '\n' !in OsmRow(n, v)
  {
    NatToStringSingleLine(n);
    var cells := OsmCells(n, v);
    assert forall k :: 0 <= k < |cells| ==> '\n' !in cells[k];
    JoinAbsent(cells, " | ", '\n');
  }

  /** The lines of the server's table. */
  function OsmTableLines(location: string, vs: seq<Vendor>): seq<string> {
    [Title(location), "", HeaderRow(OsmColumns), SeparatorRow(OsmColumns)] + OsmRows(vs) + ["", Footer(|vs|, location), ""]
  }

  lemma OsmShape(t: string, h: string, d: string, rows: seq<string>, f: string)
    ensures (t + "\n\n" + h + "\n" + d + "\n") + Terminated(rows, "\n") + "\n" + f + "\n"
         == Join([t, "", h, d] + rows + ["", f, ""], "\n")
  {
    var head, tail := [t, "", h, d], ["", f, ""];
    var top, body := Join(head, "\n"), Terminated(rows, "\n");
    HeaderShape(t, h, d);
    JoinTerminated(head, rows, tail, "\n");
    JoinCons(f, [""], "\n");
    JoinCons("", [f, ""], "\n");
    assert Join(tail, "\n") == "\n" + f + "\n";
    assert top + "\n" + body + "\n" + f + "\n" == top + "\n" + body + ("\n" + f + "\n");
  }

  lemma OsmTableIsJoin(location: string, vs: seq<Vendor>)
    ensures OsmTable(location, vs) == Join(OsmTableLines(location, vs), "\n")
  {
    OsmBodyRows(vs);
    assert OsmHead(location) == Title(location) + "\n\n" + HeaderRow(OsmColumns) + "\n" + SeparatorRow(OsmColumns) + "\n";
    OsmShape(Title(location), HeaderRow(OsmColumns), SeparatorRow(OsmColumns), OsmRows(vs), Footer(|vs|, location));
  }

  /** Read back line by line, the server's table is the title, a blank line, header, separator,
    * one row per vendor numbered 1..n in list order, a blank line, the footer with the count, and
    * the empty text after the final line break. */
  lemma OsmHeadSingle(location: string)
    requires '\n' !in location
    ensures NoneHolds([Title(location), "", HeaderRow(OsmColumns), SeparatorRow(OsmColumns)], '\n')
  {
    TitleSingleLine(location);
    HeaderSingleLine(OsmColumns);
  }

  lemma OsmTailSingle(count: nat, location: string)
    requires '\n' !in location
    ensures NoneHolds(["", Footer(count, location), ""], '\n')
  {
    FooterSingleLine(count, location);
  }

  lemma OsmRowsSingle(vs: seq<Vendor>)
    requires forall i :: 0 <= i < |vs| ==> OsmSingleLine(vs[i])
    ensures NoneHolds(OsmRows(vs), '\n')
  {
    var rows := OsmRows(vs);
    forall k | 0 <= k < |rows| ensures '\n' !in rows[k] {
      OsmRowSingleLine(k + 1, vs[k]);
    }
  }

  lemma OsmTableLinesSpec(location: string, vs: seq<Vendor>)
    requires '\n' !in location
    requires forall i :: 0 <= i < |vs| ==> OsmSingleLine(vs[i])
    ensures Split(OsmTable(location, vs), '\n') == OsmTableLines(location, vs)
  {
    OsmHeadSingle(location);
    OsmRowsSingle(vs);
    OsmTailSingle(|vs|, location);
    NoneHoldsThree([Title(location), "", HeaderRow(OsmColumns), SeparatorRow(OsmColumns)], OsmRows(vs),
      ["", Footer(|vs|, location), ""], '\n');
    OsmTableIsJoin(location, vs);
    JoinSplit(OsmTableLines(location, vs), '\n');
  }
}

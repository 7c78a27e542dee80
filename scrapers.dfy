/**
 * The two listing sources of the scraper variants. A results page is given as the sequence of
 * listings it shows; each listing is the tuple of what its selectors find. Google Maps listings
 * carry a free-text details field that is split into phone and address; JustDial listings have a
 * selector per field.
 */
module Scrapers {
  import opened Wrappers
  import opened JsString
  import opened Vendors
  import opened Extract

  // ---------------------------------------------------------------------------------------
  // URLs
  // ---------------------------------------------------------------------------------------

  /** The characters `encodeURIComponent` leaves as they are. */
  predicate UriUnreserved(c: char) {
    ('A' <= c <= 'Z') || ('a' <= c <= 'z') || ('0' <= c <= '9')
    || c == '-' || c == '_' || c == '.' || c == '!' || c == '~' || c == '*' || c == '\'' || c == '(' || c == ')'
  }

  predicate IsUpperHex(c: char) {
    ('0' <= c <= '9') || ('A' <= c <= 'F')
  }

  function HexDigit(d: nat): (c: char)
    requires d < 16
    ensures IsUpperHex(c)
  {
    "0123456789ABCDEF"[d]
  }

  /** The UTF-8 encoding of one character. */
  function Utf8(c: char): (bytes: seq<nat>)
    ensures 1 <= |bytes| <= 4
    ensures forall k :: 0 <= k < |bytes| ==> bytes[k] < 256
    ensures |bytes| == 1 <==> (c as int) < 0x80
  {
    var n := c as int;
    if n < 0x80 then [n]
    else if n < 0x800 then [0xC0 + n / 64, 0x80 + n % 64]
    else if n < 0x10000 then [0xE0 + n / 4096, 0x80 + (n / 64) % 64, 0x80 + n % 64]
    else [0xF0 + n / 262144, 0x80 + (n / 4096) % 64, 0x80 + (n / 64) % 64, 0x80 + n % 64]
  }

  /** `%XX` for each byte, in upper-case hexadecimal. */
  function PercentBytes(bytes: seq<nat>): (r: string)
    requires forall k :: 0 <= k < |bytes| ==> bytes[k] < 256
    ensures |r| == 3 * |bytes|
    ensures forall k :: 0 <= k < |r| ==> r[k] == '%' || IsUpperHex(r[k])
  {
    if bytes == [] then []
    else
      var head := ['%', HexDigit(bytes[0] / 16), HexDigit(bytes[0] % 16)];
      var tail := PercentBytes(bytes[1..]);
      assert forall k :: 3 <= k < |head + tail| ==> (head + tail)[k] == tail[k - 3];
      head + tail
  }

  /** Byte `j` becomes the three characters from `3 * j`: `%`, then its high and low hexadecimal
    * digits. */
  lemma {:induction false} PercentBytesAt(bytes: seq<nat>, j: nat)
    requires forall k :: 0 <= k < |bytes| ==> bytes[k] < 256
    requires j < |bytes|
    ensures var r := PercentBytes(bytes);
      r[3 * j] == '%' && r[3 * j + 1] == HexDigit(bytes[j] / 16) && r[3 * j + 2] == HexDigit(bytes[j] % 16)
    decreases j
  {
    var r, head, tail := PercentBytes(bytes), ['%', HexDigit(bytes[0] / 16), HexDigit(bytes[0] % 16)], PercentBytes(bytes[1..]);
    assert r == head + tail;
    if j > 0 {
      PercentBytesAt(bytes[1..], j - 1);
      assert bytes[1..][j - 1] == bytes[j];
      var i := 3 * (j - 1);
      assert 3 * j == i + 3;
      assert r[i + 3] == tail[i] && r[i + 4] == tail[i + 1] && r[i + 5] == tail[i + 2];
    }
  }

  function EncodeChar(c: char): string {
    if UriUnreserved(c) then [c] else PercentBytes(Utf8(c))
  }

  /** `encodeURIComponent(s)`: unreserved characters stay, every other character becomes the
    * `%XX` escapes of its UTF-8 bytes. */
  function EncodeUriComponent(s: string): (r: string)
    ensures forall k :: 0 <= k < |r| ==> UriUnreserved(r[k]) || r[k] == '%' || IsUpperHex(r[k])
  {
    if s == [] then []
    else
      var head := EncodeChar(s[0]);
      var tail := EncodeUriComponent(s[1..]);
      assert forall k :: |head| <= k < |head + tail| ==> (head + tail)[k] == tail[k - |head|];
      head + tail
  }

  /** One character is its own encoding exactly when it is unreserved; otherwise its encoding
    * starts with `%`, which is reserved. */
  lemma EncodeCharUnchanged(c: char)
    ensures UriUnreserved(c) ==> EncodeChar(c) == [c]
    ensures !UriUnreserved(c) ==> |EncodeChar(c)| >= 3 && EncodeChar(c)[0] == '%'
  {
  }

  /** Encoding never shortens a string. */
  lemma {:induction false} EncodeLength(s: string)
    ensures |EncodeUriComponent(s)| >= |s|
    decreases |s|
  {
    if s != [] {
      EncodeLength(s[1..]);
      EncodeCharUnchanged(s[0]);
    }
  }

  /** Encoding a string with a reserved character makes it longer. */
  lemma {:induction false} EncodeGrows(s: string, k: nat)
    requires k < |s| && !UriUnreserved(s[k])
    ensures |EncodeUriComponent(s)| > |s|
    decreases |s|
  {
    EncodeCharUnchanged(s[0]);
    if k == 0 {
      EncodeLength(s[1..]);
    } else {
      assert s[1..][k - 1] == s[k];
      EncodeGrows(s[1..], k - 1);
    }
  }

  /** Encoding leaves a string of unreserved characters as it is. */
  lemma {:induction false} EncodeIdentity(s: string)
    requires forall k :: 0 <= k < |s| ==> UriUnreserved(s[k])
    ensures EncodeUriComponent(s) == s
    decreases |s|
  {
    if s != [] {
      assert forall k :: 0 <= k < |s[1..]| ==> s[1..][k] == s[k + 1];
      EncodeIdentity(s[1..]);
      EncodeCharUnchanged(s[0]);
      assert s == [s[0]] + s[1..];
    }
  }

  /** A string of unreserved characters is its own encoding, and a string with any other character
    * is not. */
  lemma EncodeUnchanged(s: string)
    ensures EncodeUriComponent(s) == s <==> forall k :: 0 <= k < |s| ==> UriUnreserved(s[k])
  {
    if forall k :: 0 <= k < |s| ==> UriUnreserved(s[k]) {
      EncodeIdentity(s);
    } else {
      var k :| 0 <= k < |s| && !UriUnreserved(s[k]);
      EncodeGrows(s, k);
    }
  }

  /** The Google Maps search query and the URL of its results page; also each record's source URL. */
  function GmSearchQuery(location: string): string {
    "agricultural vendors in " + location
  }

  function GmSearchUrl(location: string): string {
    "https://www.google.com/maps/search/" + EncodeUriComponent(GmSearchQuery(location))
  }

  /** The JustDial listing URL, with the location put into the path as it is. */
  function JdUrl(location: string): string {
    "https://www.justdial.com/" + location + "/Agricultural-Equipment-Dealers"
  }

  // ---------------------------------------------------------------------------------------
  // Pages and listings
  // ---------------------------------------------------------------------------------------

  /** A scraping session: the browser could not be started, or for Google Maps the new page
    * could not be opened (either error comes before the `try` and escapes the source function),
    * or it was, and the results page either failed to open, load or wait (`None`, the error is
    * caught and nothing was collected yet; for JustDial this includes a failed `newPage`, which
    * sits inside its `try`) or showed its listings. */
  datatype Session<L> = LaunchFailed(message: string) | Loaded(results: Option<seq<L>>)

  /** The most listings taken from one results page. */
  const PerSourceLimit: nat := 10

  /** A Google Maps listing: the two name selectors, the two details selectors, the website link
    * (read through `href`) and the website label (read through `textContent`). */
  datatype GmListing = GmListing(
    name: Lookup, nameAlt: Lookup, details: Lookup, detailsAlt: Lookup, link: Lookup, websiteLabel: Lookup)

  /** A JustDial listing: two selectors for each of name, address, phone and website (the website
    * ones read through `href`). */
  datatype JdListing = JdListing(
    name: Lookup, nameAlt: Lookup, address: Lookup, addressAlt: Lookup,
    phone: Lookup, phoneAlt: Lookup, website: Lookup, websiteAlt: Lookup)

  /** The details text of a Google Maps listing. */
  function GmDetails(l: GmListing): (r: string)
    ensures IsTrimmed(r)
  {
    var r := Fallback(TextOf(l.details), TextOf(l.detailsAlt), "");
    assert IsTrimmed(r) by {
      if r != "" {
        assert TextOf(l.details) == Some(r) || TextOf(l.detailsAlt) == Some(r);
      }
    }
    r
  }

  /** The details text split by the phone pattern's matches on it. */
  function GmParsed(details: string, phones: PhoneMatcher): Details {
    ParseDetails(details, phones(details))
  }

  /** The record for the listing at index `i` of the Google Maps page. */
  function GmRecord(i: nat, location: string, l: GmListing, phones: PhoneMatcher): Vendor {
    var parsed := GmParsed(GmDetails(l), phones);
    Vendor(
      "gm_" + NatToString(i),
      Fallback(TextOf(l.name), TextOf(l.nameAlt), UnknownName),
      AgriculturalVendor, None, None,
      parsed.address, parsed.phone,
      Fallback(HrefOf(l.link), TextOf(l.websiteLabel), ""),
      "", GmSearchUrl(location))
  }

  /** The record for the listing at index `i` of the JustDial page. */
  function JdRecord(i: nat, location: string, l: JdListing): Vendor {
    Vendor(
      "jd_" + NatToString(i),
      Fallback(TextOf(l.name), TextOf(l.nameAlt), UnknownName),
      AgriculturalVendor, None, None,
      Fallback(TextOf(l.address), TextOf(l.addressAlt), NoAddress),
      Fallback(TextOf(l.phone), TextOf(l.phoneAlt), ""),
      Fallback(HrefOf(l.website), HrefOf(l.websiteAlt), ""),
      "", JdUrl(location))
  }

  /** The details rules: empty details give address "N/A" and no phone; details without a phone
    * match give no phone and the details with their white space collapsed, an address that is
    * then never empty; details with matches give the matches joined by ", " as the phone and the
    * cleaned text between the matches as the address, with no periods or middle dots left. */
  lemma GmParsedSpec(d: string, phones: PhoneMatcher)
    requires IsTrimmed(d)
    ensures var p := GmParsed(d, phones);
      && (d == "" ==> p.address == NoAddress && p.phone == "")
      && (d != "" && phones(d) == [] ==>
            && p.phone == "" && p.address == Trim(CollapseSpaces(d))
            && NonBlank(p.address) == NonBlank(d) && p.address != "")
      && (d != "" && phones(d) != [] ==>
            && p.phone == Join(Matched(d, phones(d)), ", ") && p.phone != ""
            && p.address == CleanAddress(Flatten(Gaps(d, phones(d), 0)))
            && '.' !in p.address && MiddleDot !in p.address)
  {
    if d != "" {
      PhoneFoundIff(d, phones(d));
      if phones(d) == [] {
        assert !IsSpace(d[0]);
        assert NonBlank(d) != [] by {
          assert NonBlank(d) == [d[0]] + NonBlank(d[1..]);
        }
      }
    }
  }

  /** The facts every Google Maps record carries: its id, the fixed type, no coordinates, no
    * GST id, the search URL as source, a name that is never empty, and the details rules of
    * `GmParsedSpec` for its address and phone. */
  lemma GmRecordSpec(i: nat, location: string, l: GmListing, phones: PhoneMatcher)
    ensures var v := GmRecord(i, location, l, phones); var d := GmDetails(l); var spans := phones(d);
      && v.id == "gm_" + NatToString(i)
      && v.kind == AgriculturalVendor && v.lat.None? && v.lon.None? && v.gstId == ""
      && v.sourceUrl == GmSearchUrl(location)
      && v.name != ""
      && (d == "" ==> v.address == NoAddress && v.phone == "")
      && (d != "" && spans == [] ==>
            && v.phone == "" && v.address == Trim(CollapseSpaces(d))
            && NonBlank(v.address) == NonBlank(d) && v.address != "")
      && (d != "" && spans != [] ==>
            && v.phone == Join(Matched(d, spans), ", ") && v.phone != ""
            && v.address == CleanAddress(Flatten(Gaps(d, spans, 0)))
            && '.' !in v.address && MiddleDot !in v.address)
  {
    GmParsedSpec(GmDetails(l), phones);
  }

  /** The facts every JustDial record carries; the address sentinel is "N/A" and the phone and
    * website ones are "". */
  lemma JdRecordSpec(i: nat, location: string, l: JdListing)
    ensures var v := JdRecord(i, location, l);
      && v.id == "jd_" + NatToString(i)
      && v.kind == AgriculturalVendor && v.lat.None? && v.lon.None? && v.gstId == ""
      && v.sourceUrl == JdUrl(location)
      && v.name != "" && v.address != ""
      && (l.address.NoMatch? ==> v.address == NoAddress)
      && (l.phone.NoMatch? ==> v.phone == "")
      && (l.website.NoMatch? ==> v.website == "")
  {
  }

  /** Records of different listings of one source have different ids. */
  lemma RecordIdsDistinct(prefix: string, i: nat, j: nat)
    requires i != j
    ensures prefix + NatToString(i) != prefix + NatToString(j)
  {
    if prefix + NatToString(i) == prefix + NatToString(j) {
      assert NatToString(i) == (prefix + NatToString(i))[|prefix|..];
      NatToStringInjective(i, j);
    }
  }

  // ---------------------------------------------------------------------------------------
  // The per-source loops
  // ---------------------------------------------------------------------------------------

  /** How many listings of a page the loop visits: all of them, at most ten. */
  function Visited<L>(results: Option<seq<L>>): (n: nat)
    ensures n <= PerSourceLimit
    ensures results.Some? ==> n <= |results.value|
    ensures results.Some? ==> n == |results.value| || n == PerSourceLimit
    ensures results.None? ==> n == 0
  {
    match results
    case None => 0
    case Some(ls) => Min(|ls|, PerSourceLimit)
  }

  /** The records `make` builds from the first `n` listings of a page, in page order; `make`
    * takes the listing's index and the listing. */
  function Built<L>(make: (nat, L) -> Vendor, ls: seq<L>, n: nat): (r: seq<Vendor>)
    requires n <= |ls|
    ensures |r| == n
  {
    if n == 0 then [] else Built(make, ls, n - 1) + [make(n - 1, ls[n - 1])]
  }

  /** The record at position `k` is the one built from the listing at position `k`. */
  lemma {:induction false} BuiltAt<L>(make: (nat, L) -> Vendor, ls: seq<L>, n: nat, k: nat)
    requires k < n <= |ls|
    ensures Built(make, ls, n)[k] == make(k, ls[k])
    decreases n
  {
    if k < n - 1 {
      BuiltAt(make, ls, n - 1, k);
    }
  }

  /** The records of the first `n` listings of a Google Maps page. */
  function GmRecords(location: string, ls: seq<GmListing>, phones: PhoneMatcher, n: nat): (r: seq<Vendor>)
    requires n <= |ls|
    ensures |r| == n
  {
    Built((i: nat, l: GmListing) => GmRecord(i, location, l, phones), ls, n)
  }

  lemma GmRecordsAt(location: string, ls: seq<GmListing>, phones: PhoneMatcher, n: nat, k: nat)
    requires k < n <= |ls|
    ensures GmRecords(location, ls, phones, n)[k] == GmRecord(k, location, ls[k], phones)
  {
    BuiltAt((i: nat, l: GmListing) => GmRecord(i, location, l, phones), ls, n, k);
  }

  /** The records of the first `n` listings of a JustDial page. */
  function JdRecords(location: string, ls: seq<JdListing>, n: nat): (r: seq<Vendor>)
    requires n <= |ls|
    ensures |r| == n
  {
    Built((i: nat, l: JdListing) => JdRecord(i, location, l), ls, n)
  }

  lemma JdRecordsAt(location: string, ls: seq<JdListing>, n: nat, k: nat)
    requires k < n <= |ls|
    ensures JdRecords(location, ls, n)[k] == JdRecord(k, location, ls[k])
  {
    BuiltAt((i: nat, l: JdListing) => JdRecord(i, location, l), ls, n, k);
  }

  /** What `scrapeGoogleMaps(location)` returns: one record per visited listing, in page order, or
    * the error of a browser that did not start. */
  function GoogleMapsResult(location: string, session: Session<GmListing>, phones: PhoneMatcher)
    : (r: Result<seq<Vendor>, string>)
    ensures r.Err? <==> session.LaunchFailed?
  {
    match session
    case LaunchFailed(message) => Err(message)
    case Loaded(None) => Ok([])
    case Loaded(Some(ls)) => Ok(GmRecords(location, ls, phones, Visited(session.results)))
  }

  /** What `scrapeJustDial(location)` returns. */
  function JustDialResult(location: string, session: Session<JdListing>): (r: Result<seq<Vendor>, string>)
    ensures r.Err? <==> session.LaunchFailed?
  {
    match session
    case LaunchFailed(message) => Err(message)
    case Loaded(None) => Ok([])
    case Loaded(Some(ls)) => Ok(JdRecords(location, ls, Visited(session.results)))
  }

  /** A started Google Maps session yields at most ten records; record `i` is built from listing
    * `i`, carries id `gm_i`, and no two records share an id. A browser that did not start, or a
    * page that could not be opened, is an error carrying its message. */
  lemma GoogleMapsResultSpec(location: string, session: Session<GmListing>, phones: PhoneMatcher)
    ensures session.LaunchFailed? <==> GoogleMapsResult(location, session, phones).Err?
    ensures session.LaunchFailed? ==> GoogleMapsResult(location, session, phones).error == session.message
    ensures session.Loaded? ==> |GoogleMapsResult(location, session, phones).value| == Visited(session.results)
    ensures session.Loaded? ==> forall i :: 0 <= i < |GoogleMapsResult(location, session, phones).value| ==>
      GoogleMapsResult(location, session, phones).value[i] == GmRecord(i, location, session.results.value[i], phones)
    ensures session.Loaded? ==> forall i, j :: 0 <= i < j < |GoogleMapsResult(location, session, phones).value| ==>
      GoogleMapsResult(location, session, phones).value[i].id != GoogleMapsResult(location, session, phones).value[j].id
  {
    if session.Loaded? && session.results.Some? {
      var ls := session.results.value;
      var n := Visited(session.results);
      var vs := GmRecords(location, ls, phones, n);
      forall i | 0 <= i < n ensures vs[i] == GmRecord(i, location, ls[i], phones) {
        GmRecordsAt(location, ls, phones, n, i);
      }
      forall i, j | 0 <= i < j < n ensures vs[i].id != vs[j].id {
        RecordIdsDistinct("gm_", i, j);
      }
    }
  }

  /** The same facts for JustDial, with ids `jd_i`. */
  lemma JustDialResultSpec(location: string, session: Session<JdListing>)
    ensures session.LaunchFailed? <==> JustDialResult(location, session).Err?
    ensures session.LaunchFailed? ==> JustDialResult(location, session).error == session.message
    ensures session.Loaded? ==> |JustDialResult(location, session).value| == Visited(session.results)
    ensures session.Loaded? ==> forall i :: 0 <= i < |JustDialResult(location, session).value| ==>
      JustDialResult(location, session).value[i] == JdRecord(i, location, session.results.value[i])
    ensures session.Loaded? ==> forall i, j :: 0 <= i < j < |JustDialResult(location, session).value| ==>
      JustDialResult(location, session).value[i].id != JustDialResult(location, session).value[j].id
  {
    if session.Loaded? && session.results.Some? {
      var ls := session.results.value;
      var n := Visited(session.results);
      var vs := JdRecords(location, ls, n);
      forall i | 0 <= i < n ensures vs[i] == JdRecord(i, location, ls[i]) {
        JdRecordsAt(location, ls, n, i);
      }
      forall i, j | 0 <= i < j < n ensures vs[i].id != vs[j].id {
        RecordIdsDistinct("jd_", i, j);
      }
    }
  }

  /** `scrapeGoogleMaps(location)`: the loop over the visited listings. */
  method ScrapeGoogleMaps(location: string, session: Session<GmListing>, phones: PhoneMatcher)
    returns (r: Result<seq<Vendor>, string>)
    ensures r == GoogleMapsResult(location, session, phones)
  {
    if session.LaunchFailed? {
      return Err(session.message);
    }
    var vendors: seq<Vendor> := [];
    if session.results.Some? {
      var results := session.results.value;
      var i := 0;
      while i < Min(|results|, PerSourceLimit)
        invariant 0 <= i <= Min(|results|, PerSourceLimit)
        invariant vendors == GmRecords(location, results, phones, i)
      {
        assert GmRecords(location, results, phones, i + 1)
            == GmRecords(location, results, phones, i) + [GmRecord(i, location, results[i], phones)];
        vendors := vendors + [GmRecord(i, location, results[i], phones)];
        i := i + 1;
      }
    }
    return Ok(vendors);
  }

  /** `scrapeJustDial(location)`: the loop over the visited listings. */
  method ScrapeJustDial(location: string, session: Session<JdListing>)
    returns (r: Result<seq<Vendor>, string>)
    ensures r == JustDialResult(location, session)
  {
    if session.LaunchFailed? {
      return Err(session.message);
    }
    var vendors: seq<Vendor> := [];
    if session.results.Some? {
      var results := session.results.value;
      var i := 0;
      while i < Min(|results|, PerSourceLimit)
        invariant 0 <= i <= Min(|results|, PerSourceLimit)
        invariant vendors == JdRecords(location, results, i)
      {
        assert JdRecords(location, results, i + 1)
            == JdRecords(location, results, i) + [JdRecord(i, location, results[i])];
        vendors := vendors + [JdRecord(i, location, results[i])];
        i := i + 1;
      }
    }
    return Ok(vendors);
  }
}

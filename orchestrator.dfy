/**
 * `scrapeAgriVendors(location, search_radius_meters, max_results)` of the two scraper variants:
 * scrape Google Maps, then JustDial, concatenate, deduplicate, truncate, render the table, save it
 * under a file name derived from the location and return it. The variants differ only in the
 * table layout and in what the outer `catch` returns.
 */
module Orchestrator {
  import opened Wrappers
  import opened JsString
  import opened Vendors
  import opened Extract
  import opened Dedup
  import opened VendorTable
  import opened Scrapers

  /** The improved scraper (the one the server imports) and the debug scraper. */
  datatype Variant = Improved | Debug

  /** The improved table has a Source URL column, the debug table does not. */
  function LayoutOf(variant: Variant): (layout: Layout)
    ensures layout == WithSourceUrl <==> variant == Improved
  {
    match variant
    case Improved => WithSourceUrl
    case Debug => WithoutSourceUrl
  }

  /** The `max_results` a caller that passes none gets. */
  const DefaultMaxResults: int := 200

  const ErrorPrefix := "Error scraping agricultural vendors: "

  /** The value of the outer `catch`: `null` for the improved variant, a message for the debug one. */
  function FailureResult(variant: Variant, message: string): (r: Option<string>)
    ensures variant == Improved <==> r.None?
    ensures variant == Debug ==> r == Some(ErrorPrefix + message)
  {
    match variant
    case Improved => None
    case Debug => Some(ErrorPrefix + message)
  }

  // ---------------------------------------------------------------------------------------
  // The output file name
  // ---------------------------------------------------------------------------------------

  /** The class `[a-zA-Z0-9]`. */
  predicate IsAsciiAlnum(c: char) {
    ('A' <= c <= 'Z') || ('a' <= c <= 'z') || ('0' <= c <= '9')
  }

  /** `replace(/[^a-zA-Z0-9]/g, '_')` works on UTF-16 code units, so a character outside the Basic
    * Multilingual Plane, which is two code units, becomes two underscores. */
  function SanitizeChar(c: char): string {
    if IsAsciiAlnum(c) then [c] else if CodeUnits(c) == 2 then "__" else "_"
  }

  function SanitizeLocation(s: string): (r: string)
    ensures |r| == Utf16Len(s)
    ensures forall k :: 0 <= k < |r| ==> IsAsciiAlnum(r[k]) || r[k] == '_'
  {
    if s == [] then []
    else
      var head := SanitizeChar(s[0]);
      var tail := SanitizeLocation(s[1..]);
      assert forall k :: |head| <= k < |head + tail| ==> (head + tail)[k] == tail[k - |head|];
      head + tail
  }

  /** A location made of letters and digits is its own sanitised form. */
  lemma {:induction false} SanitizeKeepsAlnum(s: string)
    requires forall k :: 0 <= k < |s| ==> IsAsciiAlnum(s[k])
    ensures SanitizeLocation(s) == s
    decreases |s|
  {
    if s != [] {
      assert forall k :: 0 <= k < |s[1..]| ==> s[1..][k] == s[k + 1];
      SanitizeKeepsAlnum(s[1..]);
      assert s == [s[0]] + s[1..];
    }
  }

  /** Sanitising is idempotent: `_` maps to itself. */
  lemma {:induction false} SanitizeIdempotent(s: string)
    ensures SanitizeLocation(SanitizeLocation(s)) == SanitizeLocation(s)
    decreases |s|
  {
    var r := SanitizeLocation(s);
    SanitizeFixes(r);
  }

  lemma {:induction false} SanitizeFixes(r: string)
    requires forall k :: 0 <= k < |r| ==> IsAsciiAlnum(r[k]) || r[k] == '_'
    ensures SanitizeLocation(r) == r
    decreases |r|
  {
    if r != [] {
      assert forall k :: 0 <= k < |r[1..]| ==> r[1..][k] == r[k + 1];
      SanitizeFixes(r[1..]);
      assert r == [r[0]] + r[1..];
    }
  }

  const FilePrefix := "agri_vendors_"
  const FileSuffix := ".txt"

  /** `agri_vendors_${location.replace(/[^a-zA-Z0-9]/g, '_')}.txt` */
  function FileName(location: string): string {
    FilePrefix + SanitizeLocation(location) + FileSuffix
  }

  predicate FileNameChar(c: char) {
    IsAsciiAlnum(c) || c == '_' || c == '.'
  }

  predicate FileNameChars(s: string) {
    forall k :: 0 <= k < |s| ==> FileNameChar(s[k])
  }

  lemma FileNameCharsConcat(a: string, b: string)
    requires FileNameChars(a) && FileNameChars(b)
    ensures FileNameChars(a + b)
  {
    forall k | 0 <= k < |a + b| ensures FileNameChar((a + b)[k]) {
      if k >= |a| {
        assert (a + b)[k] == b[k - |a|];
      }
    }
  }

  lemma AffixChars()
    ensures FileNameChars(FilePrefix) && FileNameChars(FileSuffix)
    ensures |FilePrefix| + |FileSuffix| == 17
  {
  }

  /** The file name has only letters, digits, `_` and `.`, and is 17 code units longer than the
    * location. */
  lemma FileNameSpec(location: string)
    ensures FileNameChars(FileName(location))
    ensures |FileName(location)| == Utf16Len(location) + 17
  {
    var m := SanitizeLocation(location);
    AffixChars();
    assert FileNameChars(m);
    FileNameCharsConcat(FilePrefix, m);
    FileNameCharsConcat(FilePrefix + m, FileSuffix);
  }

  /** Different locations can share a file name, so the later run overwrites the earlier file. */
  lemma FileNamesCollide()
    ensures "a b" != "a-b" && FileName("a b") == FileName("a-b")
  {
    assert SanitizeLocation("a b") == "a_b" by {
      assert "a b"[1..][1..] == "b";
    }
    assert SanitizeLocation("a-b") == "a_b" by {
      assert "a-b"[1..][1..] == "b";
    }
  }

  // ---------------------------------------------------------------------------------------
  // The file system
  // ---------------------------------------------------------------------------------------

  /** The working directory's files, by name; a write replaces the whole file. */
  class FileStore {
    var files: map<string, string>

    constructor ()
      ensures files == map[]
    {
      files := map[];
    }

    /** `fs.writeFileSync(name, content)`; `failure` is the error the file system raises, if any. */
    method WriteFileSync(name: string, content: string, failure: Option<string>) returns (err: Option<string>)
      modifies this
      ensures err == failure
      ensures failure.None? ==> files == old(files)[name := content]
      ensures failure.Some? ==> files == old(files)
    {
      if failure.Some? {
        return failure;
      }
      files := files[name := content];
      return None;
    }
  }

  // ---------------------------------------------------------------------------------------
  // The run
  // ---------------------------------------------------------------------------------------

  /** The vendor list a run renders, when both sources returned. */
  function Collected(location: string, maxResults: int, gm: Session<GmListing>, jd: Session<JdListing>,
                     phones: PhoneMatcher): (r: Option<seq<Vendor>>)
    ensures r.Some? <==> gm.Loaded? && jd.Loaded?
  {
    var g := GoogleMapsResult(location, gm, phones);
    var j := JustDialResult(location, jd);
    if g.Err? || j.Err? then None else Some(Aggregate(g.value, j.value, maxResults))
  }

  /** The rendered table, when both sources returned. */
  function RenderedTable(variant: Variant, location: string, maxResults: int, gm: Session<GmListing>,
                         jd: Session<JdListing>, phones: PhoneMatcher): Option<string>
  {
    match Collected(location, maxResults, gm, jd, phones)
    case None => None
    case Some(vs) => Some(FormatVendorsTable(location, vs, LayoutOf(variant)))
  }

  /** What a run returns. The first error (Google Maps launch, JustDial launch, file write) decides
    * the failure value. */
  function RunResult(variant: Variant, location: string, maxResults: int, gm: Session<GmListing>,
                     jd: Session<JdListing>, phones: PhoneMatcher, writeFailure: Option<string>): Option<string>
  {
    var g := GoogleMapsResult(location, gm, phones);
    var j := JustDialResult(location, jd);
    if g.Err? then FailureResult(variant, g.error)
    else if j.Err? then FailureResult(variant, j.error)
    else if writeFailure.Some? then FailureResult(variant, writeFailure.value)
    else RenderedTable(variant, location, maxResults, gm, jd, phones)
  }

  /** `scrapeAgriVendors` against the file store; the table is written only when both sources
    * returned, and only under the sanitised file name. */
  method ScrapeAgriVendors(variant: Variant, location: string, maxResults: int,
                           gm: Session<GmListing>, jd: Session<JdListing>, phones: PhoneMatcher,
                           fs: FileStore, writeFailure: Option<string>)
    returns (r: Option<string>)
    modifies fs
    ensures r == RunResult(variant, location, maxResults, gm, jd, phones, writeFailure)
    ensures RenderedTable(variant, location, maxResults, gm, jd, phones).Some? && writeFailure.None?
      ==> fs.files == old(fs.files)[FileName(location) := RenderedTable(variant, location, maxResults, gm, jd, phones).value]
    ensures RenderedTable(variant, location, maxResults, gm, jd, phones).None? || writeFailure.Some?
      ==> fs.files == old(fs.files)
  {
    var googleVendors := ScrapeGoogleMaps(location, gm, phones);
    if googleVendors.Err? {
      return FailureResult(variant, googleVendors.error);
    }
    var justDialVendors := ScrapeJustDial(location, jd);
    if justDialVendors.Err? {
      return FailureResult(variant, justDialVendors.error);
    }
    var vendors := googleVendors.value + justDialVendors.value;
    vendors := DeduplicateVendors(vendors);
    vendors := SliceTo(vendors, maxResults);
    var table := FormatVendorsTable(location, vendors, LayoutOf(variant));
    var err := fs.WriteFileSync(FileName(location), table, writeFailure);
    if err.Some? {
      return FailureResult(variant, err.value);
    }
    return Some(table);
  }

  /** A run succeeds exactly when both browsers started and the write went through; it then returns
    * the table of the aggregated records in the variant's layout, whose last line counts them.
    * The improved variant fails with `null`, the debug one with the prefixed message. */
  lemma RunResultSpec(variant: Variant, location: string, maxResults: int, gm: Session<GmListing>,
                      jd: Session<JdListing>, phones: PhoneMatcher, writeFailure: Option<string>)
    ensures var r := RunResult(variant, location, maxResults, gm, jd, phones, writeFailure);
      var ok := gm.Loaded? && jd.Loaded? && writeFailure.None?;
      && (ok ==> r == Some(FormatVendorsTable(location,
                   Aggregate(GoogleMapsResult(location, gm, phones).value, JustDialResult(location, jd).value, maxResults),
                   LayoutOf(variant))))
      && (!ok && variant == Improved ==> r.None?)
      && (gm.LaunchFailed? ==> r == FailureResult(variant, gm.message))
      && (gm.Loaded? && jd.LaunchFailed? ==> r == FailureResult(variant, jd.message))
      && (gm.Loaded? && jd.Loaded? && writeFailure.Some? ==> r == FailureResult(variant, writeFailure.value))
  {
    GoogleMapsResultSpec(location, gm, phones);
    JustDialResultSpec(location, jd);
  }

  /** A Google Maps launch failure ends the run before JustDial is consulted. */
  lemma GoogleMapsFailureFirst(variant: Variant, location: string, maxResults: int, gm: Session<GmListing>,
                               jd1: Session<JdListing>, jd2: Session<JdListing>, phones: PhoneMatcher,
                               w1: Option<string>, w2: Option<string>)
    requires gm.LaunchFailed?
    ensures RunResult(variant, location, maxResults, gm, jd1, phones, w1)
         == RunResult(variant, location, maxResults, gm, jd2, phones, w2)
  {
  }

  /** The collected list has the aggregation's guarantees: distinct keys, at most `max_results`
    * records, at most ten per source. */
  lemma CollectedSpec(location: string, maxResults: int, gm: Session<GmListing>, jd: Session<JdListing>,
                      phones: PhoneMatcher)
    requires Collected(location, maxResults, gm, jd, phones).Some?
    ensures var vs := Collected(location, maxResults, gm, jd, phones).value;
      && DistinctKeys(vs)
      && (maxResults >= 0 ==> |vs| <= maxResults)
      && |vs| <= 2 * PerSourceLimit
  {
    var g := GoogleMapsResult(location, gm, phones).value;
    var j := JustDialResult(location, jd).value;
    GoogleMapsResultSpec(location, gm, phones);
    JustDialResultSpec(location, jd);
    AggregateSpec(g, j, maxResults);
    KeysOfSize(g + j);
  }
}

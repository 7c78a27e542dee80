/**
 * The server's `scrapeGovernmentOrgs(location)`: twenty Google searches, each result element
 * turned into an organisation record when its title looks like an agricultural or government
 * office, the records deduplicated by name and cut to ten. The browser is an input: `launched`
 * says whether it started, and `browse` gives the result elements of a search page, or `None`
 * when loading the page threw. The element texts are the trimmed texts the selectors return.
 */
module GovOrgs {
  import opened Wrappers
  import opened JsString
  import opened Extract
  import opened Scrapers
  import opened Unique
  import opened Lists

  // ---------------------------------------------------------------------------------------
  // Phone numbers and the contact field
  // ---------------------------------------------------------------------------------------

  /** `extractPhoneNumbers(text)`: the matches of the phone expression joined by ", ", or "" when
    * it matches nothing. Which spans the expression matches is the input `phones`. */
  function ExtractPhoneNumbers(text: string, phones: PhoneMatcher): string {
    Join(Matched(text, phones(text)), ", ")
  }

  /** A join of non-empty pieces is empty exactly when there are no pieces. */
  lemma JoinEmpty(parts: seq<string>, sep: string)
    requires forall k :: 0 <= k < |parts| ==> parts[k] != ""
    ensures Join(parts, sep) == "" <==> parts == []
  {
    if parts != [] {
      JoinHead(parts, sep);
    }
  }

  /** The phone text is empty exactly when nothing matched; otherwise it starts with the first
    * match, and a single match is the whole text. */
  lemma ExtractPhoneNumbersSpec(text: string, phones: PhoneMatcher)
    ensures var r, spans := ExtractPhoneNumbers(text, phones), phones(text);
      && (r == "" <==> spans == [])
      && (spans != [] ==> text[spans[0].start..spans[0].end] <= r)
      && (|spans| == 1 ==> r == text[spans[0].start..spans[0].end])
  {
    var spans := phones(text);
    var ms := Matched(text, spans);
    assert forall k :: 0 <= k < |ms| ==> |ms[k]| == spans[k].end - spans[k].start > 0;
    JoinEmpty(ms, ", ");
    if spans != [] {
      JoinHead(ms, ", ");
    }
  }

  const NoContact := "Contact for details"

  /** The non-empty strings of `parts`, in order (`filter(p => p)`). */
  function Truthy(parts: seq<string>): (r: seq<string>)
    ensures forall k :: 0 <= k < |r| ==> r[k] != ""
    decreases |parts|
  {
    if parts == [] then []
    else (if parts[0] != "" then [parts[0]] else []) + Truthy(parts[1..])
  }

  /** `[fromContact, fromSnippet, fromTitle].filter(p => p).join(', ') || 'Contact for details'`. */
  function CombinedContact(fromContact: string, fromSnippet: string, fromTitle: string): string {
    var joined := Join(Truthy([fromContact, fromSnippet, fromTitle]), ", ");
    if joined == "" then NoContact else joined
  }

  /** Of three pieces, the non-empty ones in order. */
  lemma TruthyThree(c: string, s: string, t: string)
    ensures Truthy([c, s, t]) == (if c != "" then [c] else []) + (if s != "" then [s] else []) + (if t != "" then [t] else [])
  {
    var parts := [c, s, t];
    assert parts[1..] == [s, t] && [s, t][1..] == [t] && [t][1..] == [];
    assert Truthy([t]) == (if t != "" then [t] else []);
    assert Truthy([s, t]) == (if s != "" then [s] else []) + Truthy([t]);
  }

  /** The contact field is never empty. It is the placeholder when no source had a number, and
    * otherwise starts with the first source that had one, in the order contact link, snippet,
    * title; a single source with a number is the whole field. */
  lemma CombinedContactSpec(c: string, s: string, t: string)
    ensures var r := CombinedContact(c, s, t);
      && r != ""
      && (c == "" && s == "" && t == "" ==> r == NoContact)
      && (c != "" ==> c <= r)
      && (c == "" && s != "" ==> s <= r)
      && (c == "" && s == "" && t != "" ==> r == t)
      && (c != "" && s == "" && t == "" ==> r == c)
      && (c == "" && s != "" && t == "" ==> r == s)
  {
    var p := Truthy([c, s, t]);
    TruthyThree(c, s, t);
    JoinEmpty(p, ", ");
    if p != [] {
      JoinHead(p, ", ");
      assert p[0] == if c != "" then c else if s != "" then s else t;
    }
  }

  // ---------------------------------------------------------------------------------------
  // The title filter
  // ---------------------------------------------------------------------------------------

  /** The words one of which the lowercased title must contain, in the order the filter lists them. */
  const OrgKeywords: seq<string> := ["agriculture", "farm", "department", "government", "ministry",
    "office", "board", "authority", "welfare", "extension", "research", "schemes", "helpline",
    "support"]

  /** Some keyword occurs in `lower`. */
  predicate HasKeyword(lower: string) {
    exists k :: 0 <= k < |OrgKeywords| && Contains(lower, OrgKeywords[k])
  }

  /** `title && title.length > 3 && (title.toLowerCase().includes('agriculture') || …)`; the
    * length counts UTF-16 code units. */
  predicate IsOrgTitle(title: string) {
    title != "" && Utf16Len(title) > 3 && HasKeyword(ToLower(title))
  }

  /** Lowercasing changes only ASCII letters, so it keeps the UTF-16 length. */
  lemma {:induction false} ToLowerUtf16Len(s: string)
    ensures Utf16Len(ToLower(s)) == Utf16Len(s)
    decreases |s|
  {
    if s != [] {
      var l := ToLower(s);
      assert l[1..] == ToLower(s[1..]);
      assert CodeUnits(l[0]) == CodeUnits(s[0]);
      ToLowerUtf16Len(s[1..]);
    }
  }

  lemma ToLowerIdempotent(s: string)
    ensures ToLower(ToLower(s)) == ToLower(s)
  {
  }

  /** The filter does not see case: a title passes exactly when its lowercase form does. */
  lemma OrgTitleIgnoresCase(title: string)
    ensures IsOrgTitle(title) <==> IsOrgTitle(ToLower(title))
  {
    ToLowerUtf16Len(title);
    ToLowerIdempotent(title);
  }

  /** A title passes exactly when it is longer than three code units and names one of the
    * keywords, in whatever case. */
  lemma OrgTitleByKeyword(title: string, k: nat)
    requires k < |OrgKeywords| && Contains(ToLower(title), OrgKeywords[k])
    ensures IsOrgTitle(title) <==> Utf16Len(title) > 3
  {
  }

  // ---------------------------------------------------------------------------------------
  // One result element
  // ---------------------------------------------------------------------------------------

  /** The trimmed texts the selectors find in one search result: the `h3` title, the snippet,
    * the first `tel:`/`mailto:` link and the second details line. */
  datatype OrgElement = OrgElement(title: string, snippet: string, contact: string, details: string)

  /** An organisation record. */
  datatype Org = Org(name: string, address: string, contact: string)

  function OrgName(o: Org): string {
    o.name
  }

  const AddressLimit: nat := 100

  /** `address.substring(0, 100) || `${location} area``, where `address` is the details line or,
    * when that is empty, the snippet. */
  function OrgAddress(location: string, e: OrgElement): string {
    var address := if e.details != "" then e.details else e.snippet;
    var cut := Utf16Prefix(address, AddressLimit);
    if cut != "" then cut else location + " area"
  }

  /** The phone fields of one element, combined. The contact link is searched only when it has
    * text. */
  function OrgContact(e: OrgElement, phones: PhoneMatcher): string {
    var fromContact := if e.contact != "" then ExtractPhoneNumbers(e.contact, phones) else "";
    CombinedContact(fromContact, ExtractPhoneNumbers(e.snippet, phones), ExtractPhoneNumbers(e.title, phones))
  }

  /** The record pushed for an element whose title passes the filter. */
  function OrgOf(location: string, e: OrgElement, phones: PhoneMatcher): Org {
    Org(e.title, OrgAddress(location, e), OrgContact(e, phones))
  }

  /** The address is never empty: the first 100 code units of the details line (or of the
    * snippet when the details line is empty), or `<location> area` when both are empty. */
  lemma OrgAddressSpec(location: string, e: OrgElement)
    ensures var a, chosen := OrgAddress(location, e), if e.details != "" then e.details else e.snippet;
      && a != ""
      && (chosen != "" ==> a <= chosen && Utf16Len(a) <= AddressLimit)
      && (chosen != "" && Utf16Len(chosen) <= AddressLimit ==> a == chosen)
      && (chosen == "" ==> a == location + " area")
  {
    var chosen := if e.details != "" then e.details else e.snippet;
    var cut := Utf16Prefix(chosen, AddressLimit);
    if chosen != "" {
      assert cut != [] by {
        assert CodeUnits(chosen[0]) <= AddressLimit;
      }
      if Utf16Len(chosen) <= AddressLimit {
        Utf16PrefixWhole(chosen, AddressLimit);
      }
    }
  }

  /** What one element contributes: its record when the title passes the filter. */
  function ElementOrgs(location: string, phones: PhoneMatcher, e: OrgElement): seq<Org> {
    if IsOrgTitle(e.title) then [OrgOf(location, e, phones)] else []
  }

  /** The per-element step as a function value, for the page loop. */
  function Step(location: string, phones: PhoneMatcher): OrgElement -> seq<Org> {
    e => ElementOrgs(location, phones, e)
  }

  /** Only the first 15 elements of a page are looked at. */
  const PerQueryLimit: nat := 15

  /** The records one page contributes: `.each((index, element) => { if (index >= 15) return; … })`. */
  function PageOrgs(location: string, elements: seq<OrgElement>, phones: PhoneMatcher): seq<Org> {
    ConcatMap(Step(location, phones), elements[..Min(|elements|, PerQueryLimit)])
  }

  // ---------------------------------------------------------------------------------------
  // The searches
  // ---------------------------------------------------------------------------------------

  /** The twenty search phrases, each the text before and after the location. */
  const QueryTemplates: seq<(string, string)> := [
    ("government agricultural offices in ", ""), ("agricultural department ", ""),
    ("ministry of agriculture ", ""), ("agriculture office ", " government"),
    ("agriculture board ", ""), ("farmers welfare department ", ""),
    ("agriculture authority ", ""), ("agriculture extension services ", ""),
    ("agriculture research institutes ", ""), ("government agriculture schemes ", ""),
    ("agricultural organizations ", ""), ("farm subsidies ", ""),
    ("agriculture cooperatives ", ""), ("government farming support ", ""),
    ("agriculture development office ", ""), ("farmers helpline ", ""),
    ("agriculture helpline ", ""), ("government schemes helpline ", ""),
    ("farm support contact ", ""), ("agriculture department contact ", "")]

  /** The search phrases for `location`, in order. */
  function SearchQueries(location: string): (r: seq<string>)
    ensures |r| == |QueryTemplates|
  {
    seq(|QueryTemplates|, k requires 0 <= k < |QueryTemplates| => QueryTemplates[k].0 + location + QueryTemplates[k].1)
  }

  function SearchUrl(query: string): string {
    "https://www.google.com/search?q=" + EncodeUriComponent(query) + "+contact+phone+address"
  }

  /** Once ten records are collected no further search is made. */
  const EnoughOrgs: nat := 10

  /** The records one page contributes, as a function value. */
  function Pages(location: string, phones: PhoneMatcher): seq<OrgElement> -> seq<Org> {
    elements => PageOrgs(location, elements, phones)
  }

  /** The records collected by the searches from `queries[i]` on, `acc` being those collected
    * before and `page` giving what one page of result elements contributes; `None` when a page
    * load threw (the whole function then returns `[]`). */
  function Collected(queries: seq<string>, i: nat, acc: seq<Org>, browse: string -> Option<seq<OrgElement>>,
                     page: seq<OrgElement> -> seq<Org>): Option<seq<Org>>
    requires i <= |queries|
    decreases |queries| - i
  {
    if i == |queries| || |acc| >= EnoughOrgs then Some(acc)
    else match browse(SearchUrl(queries[i]))
      case None => None
      case Some(elements) => Collected(queries, i + 1, acc + page(elements), browse, page)
  }

  /** The collected records, the first of each name kept, at most ten; `[]` when a page load
    * threw. */
  function Deduped(collected: Option<seq<Org>>): seq<Org> {
    match collected
    case None => []
    case Some(all) => SliceTo(UniqueBy(OrgName, all), EnoughOrgs)
  }

  /** What `scrapeGovernmentOrgs(location)` returns; `[]` when the browser did not start. */
  function GovernmentOrgs(location: string, launched: bool, browse: string -> Option<seq<OrgElement>>,
                          phones: PhoneMatcher): seq<Org>
  {
    if !launched then [] else Deduped(Collected(SearchQueries(location), 0, [], browse, Pages(location, phones)))
  }

  /** The per-page loop over the result elements, pushing a record for each passing one. */
  method ScrapePage(location: string, elements: seq<OrgElement>, phones: PhoneMatcher) returns (found: seq<Org>)
    ensures found == PageOrgs(location, elements, phones)
  {
    var seen := elements[..Min(|elements|, PerQueryLimit)];
    found := CollectFrom(Step(location, phones), seen, 0);
    assert seen[0..] == seen;
  }

  /** The loop over the searches, stopping once ten records are collected; `None` when a page
    * load threw. */
  method SearchAll(location: string, queries: seq<string>, browse: string -> Option<seq<OrgElement>>,
                   phones: PhoneMatcher)
    returns (collected: Option<seq<Org>>)
    ensures collected == Collected(queries, 0, [], browse, Pages(location, phones))
  {
    var allOrgs: seq<Org> := [];
    var i := 0;
    while i < |queries|
      invariant 0 <= i <= |queries|
      invariant Collected(queries, i, allOrgs, browse, Pages(location, phones)) == Collected(queries, 0, [], browse, Pages(location, phones))
    {
      if |allOrgs| >= EnoughOrgs {
        break;
      }
      var page := browse(SearchUrl(queries[i]));
      if page.None? {
        return None;
      }
      var found := ScrapePage(location, page.value, phones);
      allOrgs := allOrgs + found;
      i := i + 1;
    }
    return Some(allOrgs);
  }

  /** `scrapeGovernmentOrgs(location)`. */
  method ScrapeGovernmentOrgs(location: string, launched: bool, browse: string -> Option<seq<OrgElement>>,
                              phones: PhoneMatcher)
    returns (orgs: seq<Org>)
    ensures orgs == GovernmentOrgs(location, launched, browse, phones)
  {
    if !launched {
      return [];
    }
    var collected := SearchAll(location, SearchQueries(location), browse, phones);
    orgs := Deduped(collected);
  }

  // ---------------------------------------------------------------------------------------
  // Properties
  // ---------------------------------------------------------------------------------------

  /** What every returned record satisfies: its title passes the filter, and its address and
    * contact are not empty. */
  predicate Listable(o: Org) {
    IsOrgTitle(o.name) && o.address != "" && o.contact != ""
  }

  lemma OrgContactNonEmpty(e: OrgElement, phones: PhoneMatcher)
    ensures OrgContact(e, phones) != ""
  {
    var fromContact := if e.contact != "" then ExtractPhoneNumbers(e.contact, phones) else "";
    CombinedContactSpec(fromContact, ExtractPhoneNumbers(e.snippet, phones), ExtractPhoneNumbers(e.title, phones));
  }

  /** An element contributes at most one record, and only a listable one. */
  lemma ElementOrgsSpec(location: string, phones: PhoneMatcher, e: OrgElement)
    ensures |Step(location, phones)(e)| <= 1
    ensures All(Listable, Step(location, phones)(e))
  {
    var r := ElementOrgs(location, phones, e);
    assert Step(location, phones)(e) == r;
    if IsOrgTitle(e.title) {
      var o := OrgOf(location, e, phones);
      assert r == [o];
      OrgAddressSpec(location, e);
      OrgContactNonEmpty(e, phones);
      assert Listable(o);
    }
  }

  /** A page contributes at most 15 records, each listable. */
  lemma PageOrgsSpec(location: string, elements: seq<OrgElement>, phones: PhoneMatcher)
    ensures |PageOrgs(location, elements, phones)| <= PerQueryLimit
    ensures All(Listable, PageOrgs(location, elements, phones))
  {
    var seen := elements[..Min(|elements|, PerQueryLimit)];
    forall k | 0 <= k < |seen| ensures |Step(location, phones)(seen[k])| <= 1 && All(Listable, Step(location, phones)(seen[k])) {
      ElementOrgsSpec(location, phones, seen[k]);
    }
    ConcatMapAtMostOne(Step(location, phones), seen);
    ConcatMapAll(Step(location, phones), Listable, seen);
  }

  /** The searches stop once ten records are collected, and a page adds at most 15, so fewer than
    * 25 records are ever collected; every one satisfies what every page's records satisfy. */
  lemma {:induction false} CollectedSpec(queries: seq<string>, i: nat, acc: seq<Org>,
                                         browse: string -> Option<seq<OrgElement>>,
                                         page: seq<OrgElement> -> seq<Org>, ok: Org -> bool)
    requires i <= |queries| && All(ok, acc)
    requires forall elements :: |page(elements)| <= PerQueryLimit && All(ok, page(elements))
    ensures var r := Collected(queries, i, acc, browse, page);
      r.Some? ==> |r.value| <= Max(|acc|, EnoughOrgs - 1 + PerQueryLimit) && All(ok, r.value)
    decreases |queries| - i
  {
    if i < |queries| && |acc| < EnoughOrgs {
      var loaded := browse(SearchUrl(queries[i]));
      if loaded.Some? {
        var more := page(loaded.value);
        AllConcat(ok, acc, more);
        CollectedSpec(queries, i + 1, acc + more, browse, page, ok);
      }
    }
  }

  /** Every page's records are few and listable. */
  lemma PagesSpec(location: string, phones: PhoneMatcher)
    ensures forall elements :: |Pages(location, phones)(elements)| <= PerQueryLimit && All(Listable, Pages(location, phones)(elements))
  {
    forall elements ensures |Pages(location, phones)(elements)| <= PerQueryLimit && All(Listable, Pages(location, phones)(elements)) {
      PageOrgsSpec(location, elements, phones);
    }
  }

  /** The deduplicated list: at most ten records with pairwise distinct names, each the first
    * collected under its name and each satisfying what every collected record satisfies. */
  lemma DedupedSpec(collected: Option<seq<Org>>, ok: Org -> bool)
    requires collected.Some? ==> All(ok, collected.value)
    ensures var r := Deduped(collected);
      && |r| <= EnoughOrgs
      && (collected.None? ==> r == [])
      && (forall i, j :: 0 <= i < j < |r| ==> r[i].name != r[j].name)
      && (collected.Some? ==> forall k :: 0 <= k < |r| ==> exists j :: 0 <= j < |collected.value| && collected.value[j] == r[k] && FirstOf(OrgName, collected.value, j))
      && All(ok, r)
  {
    if collected.Some? {
      var all := collected.value;
      var u := UniqueBy(OrgName, all);
      var r := Deduped(collected);
      UniqueBySpec(OrgName, all);
      assert r <= u;
      forall k | 0 <= k < |r| ensures ok(r[k]) && exists j :: 0 <= j < |all| && all[j] == r[k] && FirstOf(OrgName, all, j) {
        assert r[k] == u[k] && u[k] in u;
      }
      forall i, j | 0 <= i < j < |r| ensures r[i].name != r[j].name {
        assert r[i] == u[i] && r[j] == u[j];
        assert OrgName(u[i]) != OrgName(u[j]);
      }
    }
  }

  /** What the function returns: at most ten records with pairwise distinct names, each with a
    * title that passes the filter, a non-empty address and a non-empty contact; nothing when the
    * browser did not start. */
  lemma GovernmentOrgsSpec(location: string, launched: bool, browse: string -> Option<seq<OrgElement>>,
                           phones: PhoneMatcher)
    ensures var r := GovernmentOrgs(location, launched, browse, phones);
      && |r| <= EnoughOrgs
      && (!launched ==> r == [])
      && (forall i, j :: 0 <= i < j < |r| ==> r[i].name != r[j].name)
      && All(Listable, r)
  {
    if launched {
      var c := Collected(SearchQueries(location), 0, [], browse, Pages(location, phones));
      PagesSpec(location, phones);
      CollectedSpec(SearchQueries(location), 0, [], browse, Pages(location, phones), Listable);
      DedupedSpec(c, Listable);
    }
  }
}

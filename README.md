# Agricultural vendor, loan and district services — a Dafny model

This project models the core of a farming assistant: its data-gathering backend and three
pieces of frontend state.

**Agricultural-vendor scrapers.** There are two variants, "improved" and "debug". Both:

- read up to ten listings from Google Maps and up to ten from JustDial;
- build one vendor record per listing, splitting a Google Maps details text into phone and
  address;
- concatenate the two lists, drop repeated keys (the lowercased name followed by the
  address) and cut to `max_results`;
- render a pipe-separated text table: ten columns in the improved variant, nine in the debug
  one;
- write the table to `agri_vendors_<location>.txt` and return it.

**Server helpers.**

- The OpenStreetMap path: `parseLatLon`, the Overpass query, the mapping of Overpass elements
  to vendors, their deduplication by name and address, and the server's eight-column table.
- The government-organisation search over twenty queries: the phone extraction, the keyword
  filter on titles, the 15-per-page and 10-in-all limits, and the deduplication by name.
- The `POST /api/scrape-agri-vendors` route. It checks the location, runs the improved
  scraper, reads the vendors back out of the table it wrote, keeps the contactable ones and
  lays out the PDF document.
- The required-field check and the inserted row of `POST /api/user-inputs`.
- The padding of the AI's crop list to exactly five.
- The read-only routes over the Punjab district dataset: the fuzzy lookup, the search, the
  exact lookup, the list, the name search and the summary.

**Loan-scheme scraper.** It visits three pages. Each element becomes a scheme record when its
text is long enough, mentions a loan word and yields a loan amount, an interest rate or an
application hint. Each extractor returns the first match of the first regular expression
that matches. At most fifteen records are collected, and three default schemes are used when
none are found.

**Frontend state.**

- The `useTranslate` hook: a cache keyed by language and text, and a loading flag.
- The `LanguageContext` provider: the selected language, the translated bundle handed to
  i18next, and how the choice survives a reload through `localStorage`.
- The `AuthContext` provider: a simulated session.

**How the model is built.**

- Modelling choices:
  - Browser sessions, HTTP, the file system, the translator and JSON serialisation enter
    as parameters or as small classes: `FileStore` for `fs.writeFileSync`, and the frontend
    providers.
  - Each loop of the source is a method proved equal to a recursive specification
    function. The properties the source promises are lemmas about those functions.
- String conventions:
  - Strings are sequences of Unicode scalar values.
  - `length` and `substring` count UTF-16 code units (`Utf16Len`, `Utf16Prefix`).
  - `toLowerCase` and the `i` flag of regular expressions fold ASCII letters only.
- In a few places the code works against its own evident intent, as its own error message or its own skip test shows. The model follows the code as written. The visible cases:
  - The PDF route reads the table's separator row as a vendor made of dashes (`PdfRoute.SeparatorIsRead`).
  - A line break in the location shifts the table by one line, so the route reads the header line as a vendor named `Name` before the dash vendor (`PdfRoute.BrokenLocationReadBack`).
  - `parseLatLon` rejects the `city,state` form its own error message suggests (`Overpass.PlaceNameRejected`).
  - The fetch-based Overpass function is never reached from a route. Its pure helpers are modelled.

## Model

| member | source | states |
|---|---|---|
| JsString.Trim | backend/scrape_agri_vendors_improved.js:56 | `trim` leaves no white space at either end and leaves a trimmed string alone |
| JsString.TrimIdempotent | backend/server.js:389 | trimming twice is trimming once |
| JsString.SplitJoin | backend/server.js:384 | joining the `split` pieces with the separator gives the string back |
| JsString.JoinSplit | backend/server.js:392 | splitting a join of separator-free pieces gives the pieces back |
| JsString.SliceTo | backend/scrape_agri_vendors_improved.js:219 | `slice(0, end)` is a prefix of the input; its length is `end` capped at the input length, and a negative `end` counts back from the end |
| JsString.Utf16Prefix | backend/server.js:320 | `substring(0, n)` is the longest prefix of at most `n` UTF-16 code units |
| JsString.Utf16PrefixWhole | backend/scrape_loans.js:63 | a text of at most `n` code units is its own `substring(0, n)` |
| JsString.NatToStringInjective | backend/scrape_agri_vendors_improved.js:103 | distinct indices render as distinct decimal strings |
| JsString.ParseInt | backend/server.js:359 | `parseInt(s, 10)` is NaN exactly when no digit follows the leading white space and optional sign, and is non-negative without a minus sign |
| JsString.ParseIntOfIntToString | backend/server.js:359 | `parseInt` reads an integer's decimal rendering back, also with non-digit text after it |
| JsString.DigitsValueOfNatToString | backend/server.js:359 | the value of a number's decimal digits is the number |
| JsString.ToLower | backend/scrape_agri_vendors_improved.js:8 | lowercasing keeps the length and maps each character on its own |
| Lists.Find | backend/server.js:948-953 | `find`/`findIndex`: the first index whose element satisfies the predicate, none exactly when no element does |
| Lists.FilterSpec | backend/server.js:1236-1238 | `filter` keeps exactly the elements that satisfy the predicate, in order, and changes nothing when all satisfy it |
| Lists.CollectFrom | backend/server.js:388-415 | the `for (i = start; …)` loop pushing each element's contribution equals the concatenating map over `xs[start..]` |
| Lists.ConcatMapMember | backend/server.js:388-415 | an element of a concatenating map is exactly what some input element contributes |
| Unique.FindIndex | backend/server.js:197 | `findIndex` returns the first index with the key, or -1 when no element has it |
| Unique.UniqueBySpec | backend/server.js:196-198 | `filter((v, i) => i === findIndex(same key))` gives a subsequence with distinct keys that keeps exactly the first element of each key, covers every key and is idempotent |
| Unique.UniqueByOfDistinct | backend/server.js:330-331 | on a list whose keys are already distinct the filter keeps everything |
| Dedup.DeduplicateVendors | backend/scrape_agri_vendors_improved.js:4-15 | the `seen`-set loop computes `Dedup`, the first-record-per-key function |
| Dedup.DedupSpec | backend/scrape_agri_vendors_improved.js:4-15 | the result is a subsequence with pairwise distinct keys and the input's key set; it keeps exactly the first record of each key, and its length is the number of distinct keys |
| Dedup.DedupFromConcat | backend/scrape_agri_vendors_improved.js:216-219 | deduplicating `a + b` deduplicates `a`, then keeps from `b` only the keys `a` lacks |
| Dedup.DedupIdempotent | backend/scrape_agri_vendors_improved.js:4-15 | deduplicating twice is deduplicating once |
| Dedup.KeyJoinsWithoutSeparator | backend/scrape_agri_vendors_improved.js:8 | name `ab` with address `c` and name `a` with address `bc` share a key, so the second is dropped |
| Dedup.AggregateSpec | backend/scrape_agri_vendors_improved.js:216-219 | the aggregation keeps the Google Maps records first, has distinct keys, holds at most `max_results` records, and exactly that many when there are enough distinct keys |
| Dedup.DedupFromDistinctFixed | backend/scrape_agri_vendors_debug.js:266 | a list with distinct keys passes through the deduplication unchanged |
| VendorTable.Rows | backend/scrape_agri_vendors_improved.js:20-22 | row `i` is the row of vendor `i` numbered `i + 1` |
| VendorTable.Cells | backend/scrape_agri_vendors_debug.js:20-22 | a row has ten cells with the Source URL column and nine without |
| VendorTable.TableLinesSpec | backend/scrape_agri_vendors_improved.js:18-24 | when the location has no line break and every cell a vendor contributes is a single line, then, read line by line, the table is the title, a blank line, header, separator, one row per vendor, a blank line and the footer with the count |
| VendorTable.RowReadBack | backend/scrape_agri_vendors_improved.js:21 | splitting a row of clean cells at the bars and trimming the parts gives the cells back |
| VendorTable.TableOpening | backend/scrape_agri_vendors_improved.js:18-19 | for a location without a line break, the first four lines are the title, a blank line, the header and the separator, whatever the vendors hold |
| VendorTable.BrokenTableOpening | backend/scrape_agri_vendors_improved.js:18-19 | with one line break in the location, line 3 is the header and line 4 the separator |
| Extract.TextOf | backend/scrape_agri_vendors_improved.js:56 | `$eval(…, textContent.trim())` throws exactly when nothing matches, else gives a trimmed text |
| Extract.HrefOf | backend/scrape_agri_vendors_improved.js:95 | `$eval(…, href)` throws exactly when nothing matches and takes the attribute as it is |
| Extract.Fallback | backend/scrape_agri_vendors_improved.js:54-61 | `first \|\| second \|\| sentinel` inside `try`: a throw of the first lookup gives the sentinel, a non-empty first wins, and an empty first gives the second's value when that lookup succeeds with a non-empty text, else the sentinel |
| Extract.CollapseSpaces | backend/scrape_agri_vendors_improved.js:88 | `replace(/\s+/g, ' ')` leaves single ordinary spaces and nothing else of white space |
| Extract.CollapseKeepsText | backend/scrape_agri_vendors_improved.js:88 | collapsing white space keeps every other character in order |
| Extract.TrimKeepsText | backend/scrape_agri_vendors_improved.js:88 | `trim` keeps every other character in order |
| Extract.StripMarks | backend/scrape_agri_vendors_improved.js:86 | after the two replacements no middle dot and no period is left |
| Extract.ReplacePeriodsAbsent | backend/scrape_agri_vendors_improved.js:86 | the period replacement brings in only commas and spaces |
| Extract.CleanAddress | backend/scrape_agri_vendors_improved.js:84-86 | the address after the phone matches are cut out is trimmed and has no periods or middle dots |
| Extract.Gaps | backend/scrape_agri_vendors_improved.js:84 | the pieces of text before, between and after the phone matches, each cut at the match boundaries |
| Extract.WeaveGaps | backend/scrape_agri_vendors_improved.js:80-84 | the gaps with the matched substrings put back between them give the details text again |
| Extract.FlattenGaps | backend/scrape_agri_vendors_improved.js:84 | `replace(phoneRegex, '')` leaves exactly the gaps, in order |
| Extract.ParseDetails | backend/scrape_agri_vendors_improved.js:74-90 | empty details keep `N/A` and no phone; without a match no phone and the details with white space collapsed and trimmed, keeping their non-blank text; with matches the phone is the matches joined by `", "` (led by the first) and the address is the cleaned text of the gaps, with no periods or middle dots |
| Extract.PhoneFoundIff | backend/scrape_agri_vendors_improved.js:79-83 | for non-empty details the phone is empty exactly when the phone pattern found nothing |
| DetailsExample.ExampleParse | backend/scrape_agri_vendors_improved.js:74-90 | a concrete details text is parsed into its phone and its cleaned address |
| Scrapers.EncodeUriComponent | backend/scrape_agri_vendors_improved.js:36 | `encodeURIComponent` yields only unreserved characters and `%XX` escapes in upper-case hexadecimal |
| Scrapers.PercentBytesAt | backend/scrape_agri_vendors_improved.js:36 | byte `j` becomes `%` followed by its high and low hexadecimal digits |
| Scrapers.EncodeUnchanged | backend/scrape_agri_vendors_improved.js:36 | a string is its own encoding exactly when all its characters are unreserved |
| Scrapers.EncodeGrows | backend/scrape_agri_vendors_improved.js:36 | a string with a reserved character gets longer |
| Scrapers.GmParsedSpec | backend/scrape_agri_vendors_improved.js:74-90 | the details rules of a Google Maps listing: `N/A` for empty details; without a match no phone and the collapsed, never empty details; with matches the joined matches as phone and the cleaned gaps, free of periods and middle dots, as address |
| Scrapers.GmRecordSpec | backend/scrape_agri_vendors_improved.js:102-113 | a Google Maps record has id `gm_i`, the fixed type, no coordinates or GST id, the search URL as source, a non-empty name, and address and phone by the details rules of `GmParsedSpec` |
| Scrapers.JdRecordSpec | backend/scrape_agri_vendors_improved.js:183-194 | a JustDial record has id `jd_i`, the listing URL as source, non-empty name and address, and the sentinels of its missing fields |
| Scrapers.RecordIdsDistinct | backend/scrape_agri_vendors_improved.js:103 | records of different listings of one source have different ids |
| Scrapers.Visited | backend/scrape_agri_vendors_improved.js:50 | the loop visits `min(results.length, 10)` listings, none when the page failed |
| Scrapers.GoogleMapsResultSpec | backend/scrape_agri_vendors_improved.js:29-122 | a started session gives one record per visited listing, in page order and with distinct ids; a failed launch or a failed `newPage`, both before the `try`, is an error with its message |
| Scrapers.JustDialResultSpec | backend/scrape_agri_vendors_improved.js:125-203 | the same for JustDial, where only a failed launch escapes and a failed `newPage`, inside the `try`, gives no records |
| Scrapers.ScrapeGoogleMaps | backend/scrape_agri_vendors_debug.js:29-145 | the listing loop computes `GoogleMapsResult` |
| Scrapers.ScrapeJustDial | backend/scrape_agri_vendors_debug.js:148-246 | the listing loop computes `JustDialResult` |
| Orchestrator.LayoutOf | backend/scrape_agri_vendors_debug.js:18-24 | the Source URL column is there exactly in the improved variant |
| Orchestrator.FailureResult | backend/scrape_agri_vendors_debug.js:282-285 | the outer `catch` yields `null` in the improved variant and the prefixed message in the debug one |
| Orchestrator.SanitizeLocation | backend/scrape_agri_vendors_improved.js:228 | one `_` or ASCII letter or digit per UTF-16 code unit of the location |
| Orchestrator.SanitizeIdempotent | backend/scrape_agri_vendors_improved.js:228 | sanitising twice is sanitising once |
| Orchestrator.SanitizeKeepsAlnum | backend/scrape_agri_vendors_improved.js:228 | a location of ASCII letters and digits is its own sanitised form |
| Orchestrator.FileNameSpec | backend/scrape_agri_vendors_improved.js:228 | the file name has only letters, digits, `_` and `.`, and is 17 code units longer than the location |
| Orchestrator.FileNamesCollide | backend/scrape_agri_vendors_improved.js:228-229 | `a b` and `a-b` write the same file |
| Orchestrator.FileStore.WriteFileSync | backend/scrape_agri_vendors_improved.js:229 | a successful write maps the name to the content, and a failed one changes nothing |
| Orchestrator.ScrapeAgriVendors | backend/scrape_agri_vendors_improved.js:205-237 | the run returns `RunResult`; the table is written under the sanitised name only when both sources returned and the write succeeded |
| Orchestrator.RunResultSpec | backend/scrape_agri_vendors_debug.js:248-285 | success exactly when both browsers started and the write went through, returning the table of the aggregated records; otherwise the variant's failure value for the first failure |
| Orchestrator.GoogleMapsFailureFirst | backend/scrape_agri_vendors_improved.js:207-213 | a Google Maps launch failure decides the run whatever JustDial would do |
| Orchestrator.CollectedSpec | backend/scrape_agri_vendors_improved.js:216-219 | the collected list has distinct keys, at most `max_results` records and at most twenty |
| JsString.LeadingDigits | backend/server.js:141-142 | the longest leading run of digits |
| Overpass.ParseFloatSpec | backend/server.js:141-143 | `parseFloat` is a number exactly when the text after white space and sign starts like a number, and then reads a non-empty prefix |
| Overpass.ParseFloatDigits | backend/server.js:141-142 | digits followed by a non-numeric character read as those digits |
| Overpass.SplitCount | backend/server.js:139 | `split` gives one more part than there are separators |
| Overpass.ParseLatLonOneComma | backend/server.js:139-140 | a location is coordinates only when it has exactly one comma |
| Overpass.ParseLatLonPair | backend/server.js:138-148 | with one comma, coordinates exactly when both trimmed sides are numbers, and then those two |
| Overpass.PlaceNameRejected | backend/server.js:163-166 | `city,state` with a city starting with a letter other than `I` is not read as coordinates |
| Overpass.QuerySpec | backend/server.js:122-135 | the query has one `node[...]` line per shop tag in order, between `(` and `);`, then `out body` with the limit |
| Overpass.ElementVendorSpec | backend/server.js:183-193 | the name tag or `Unknown`; the shop, phone and website tags or the empty string; `addr:full` before `addr:street`, the element's coordinates, and a source URL that names the node, so different nodes get different URLs |
| Overpass.ElementVendors | backend/server.js:180-183 | `(data.elements \|\| []).map(…)` gives one record per element in order |
| Overpass.UniquePlacesSpec | backend/server.js:196-198 | deduplication by exact name and address: a subsequence keeping the first of each pair, covering every pair, idempotent |
| Overpass.DedupsDiffer | backend/server.js:196-198 | the server's exact comparison and the scrapers' lowercased key disagree on concrete inputs |
| Overpass.FormatOsmTable | backend/server.js:151-160 | the `table +=` loop builds `OsmTable` |
| Overpass.OsmBodyRows | backend/server.js:155-157 | the body is the numbered rows, each ended by a line break |
| Overpass.OsmTableLinesSpec | backend/server.js:151-160 | when the location has no line break and every cell a vendor contributes is a single line, then, read line by line, the table is the title, a blank line, header, separator, one row per vendor, a blank line, the footer and an empty last line |
| GovOrgs.ExtractPhoneNumbersSpec | backend/server.js:288-292 | the phone text is empty exactly when nothing matched, starts with the first match, and is the match when there is one |
| GovOrgs.Truthy | backend/server.js:299 | `filter(p => p)` keeps only non-empty strings |
| GovOrgs.CombinedContactSpec | backend/server.js:294-299 | the contact is never empty: the placeholder when no source had a number, otherwise led by the first of contact, snippet and title that had one |
| GovOrgs.OrgTitleIgnoresCase | backend/server.js:302-317 | the title filter does not see case |
| GovOrgs.OrgTitleByKeyword | backend/server.js:302-317 | a title naming a keyword passes exactly when it is longer than three code units |
| GovOrgs.ToLowerUtf16Len | backend/server.js:302 | lowercasing keeps the UTF-16 length |
| GovOrgs.OrgAddressSpec | backend/server.js:285 | the address is never empty: the first 100 code units of the details or snippet, or `<location> area` |
| GovOrgs.SearchQueries | backend/server.js:239-260 | one search phrase per template |
| GovOrgs.ScrapePage | backend/server.js:279-324 | the per-page loop computes `PageOrgs` |
| GovOrgs.SearchAll | backend/server.js:264-327 | the loop over the searches, stopping at ten records, computes `Collected` |
| GovOrgs.ScrapeGovernmentOrgs | backend/server.js:228-345 | the function computes `GovernmentOrgs` |
| GovOrgs.PageOrgsSpec | backend/server.js:279-280 | a page adds at most fifteen records, each passing the filter with non-empty address and contact |
| GovOrgs.CollectedSpec | backend/server.js:264-265 | fewer than 25 records are collected, each satisfying what every page's records satisfy |
| GovOrgs.DedupedSpec | backend/server.js:330-332 | at most ten records with distinct names, each the first collected under its name |
| GovOrgs.GovernmentOrgsSpec | backend/server.js:228-345 | at most ten listable records with distinct names, none when the browser did not start |
| PdfRoute.ParseRow | backend/server.js:389-393 | a parsed line is not passed over and splits into at least eleven parts |
| PdfRoute.Kept | backend/server.js:388-415 | a line contributes at most one vendor |
| PdfRoute.ParseLines | backend/server.js:384-415 | the loop from line 3 computes `TableVendors` |
| PdfRoute.RowRoundTrip | backend/server.js:392-405 | parsing a row the improved scraper rendered for a clean vendor gives back its fields |
| PdfRoute.SeparatorIsRead | backend/server.js:390-412 | the separator row is not passed over, splits into twelve parts and is kept as a vendor made of dashes |
| PdfRoute.TableReadBack | backend/server.js:384-415 | for a location without a line break and clean vendors (no bar, no line break, no surrounding white space in any cell), reading the scraper's table back gives the dash vendor followed by the contactable vendors in table order |
| PdfRoute.KeptRows | backend/server.js:407-411 | the rows of clean vendors contribute exactly the contactable read-backs |
| PdfRoute.DetailLinesSpec | backend/server.js:423-444 | each detail line of an entry appears exactly when its field is present, and none is a heading |
| PdfRoute.EntriesHeadings | backend/server.js:418-420 | entry headings number the vendors from 1 in list order |
| PdfRoute.DocumentSpec | backend/server.js:377-450 | the document opens with title and date, has one heading per vendor and ends with a total equal to the number of headings |
| PdfRoute.MaxRes | backend/server.js:352-360 | a falsy `max_results` (absent, 0 or `""`) gives 200; a non-zero number gives itself; a string gives what `parseInt` reads, NaN cutting at 0 |
| PdfRoute.MaxResOfText | backend/server.js:359 | a string starting with a decimal integer cuts at that integer (`"25abc"` at 25) |
| PdfRoute.MaxResZero | backend/server.js:359 | the number 0 selects 200 but the string `"0"` cuts at 0 |
| PdfRoute.NoVendorsKept | backend/server.js:359-384 | for a location without a line break, a `max_results` that cuts at 0 leaves only the separator row's dash vendor in the document |
| PdfRoute.ScrapeAgriVendorsRoute | backend/server.js:352-456 | the route replies `RouteReply`; it writes the table file only for a non-empty location with both sources returned |
| PdfRoute.ReplyToTable | backend/server.js:361-450 | a falsy table is a 500, else the document from the parsed lines |
| PdfRoute.RouteRefusals | backend/server.js:354-363 | an empty location is a 400, and a failed launch or write is a 500 |
| PdfRoute.RouteTable | backend/server.js:360-450 | on success the document is laid out from the table of the collected vendors |
| PdfRoute.RouteDocument | backend/server.js:360-450 | on success the reply is a PDF; for a location without a line break and clean collected vendors it lists the dash vendor first and then the contactable vendors |
| PdfRoute.FirstEntryIsSeparator | backend/server.js:388-420 | on success, for a location without a line break and whatever the vendors hold, entry 1 of the document is headed `1. ------` |
| PdfRoute.TableReadBackFirst | backend/server.js:388-412 | for a location without a line break and any vendors, the read-back starts with the dash vendor, because line 3 is the separator row |
| PdfRoute.HeaderIsRead | backend/server.js:389-412 | the ten-column header line is not passed over, splits into twelve parts and is kept as the vendor `Name` |
| PdfRoute.BrokenLocationReadBack | backend/server.js:388-412 | with one line break in the location, line 3 is the header line, so the read-back starts with the vendor `Name` and then the dash vendor |
| PdfRoute.BrokenLocationEntries | backend/server.js:388-420 | with one line break in the location, entry 1 of the document is headed `1. Name` and entry 2 `2. ------` |
| ServerMisc.OrElse | backend/server.js:1060 | `type \|\| 'all'` on a query parameter: the parameter when non-empty, else the fallback |
| ServerMisc.BodyOrElse | backend/server.js:467 | `f \|\| fallback` on a body field: the field itself when truthy, else the fallback string |
| ServerMisc.SaveUserInputSpec | backend/server.js:459-473 | a 400 exactly when a required field is falsy (a land size of 0 or `""` among them); otherwise the eight values in `INSERT` order as they came, with `anonymous` and `''` as defaults |
| ServerMisc.PadCrops | backend/server.js:664-682 | the padding loop and the cut compute `Padded` |
| ServerMisc.PaddedSpec | backend/server.js:664-682 | exactly five crops: the AI's first ones in order, then defaults by position |
| ServerMisc.PaddedIdempotent | backend/server.js:676-682 | padding twice is padding once, and five crops are kept as they are |
| ServerMisc.RecommendCrops | backend/server.js:660-696 | the route body computes `RecommendedCrops` |
| ServerMisc.RecommendedCropsSpec | backend/server.js:660-696 | always five crops; a failed call or a non-array answer gives the defaults |
| ServerMisc.RecommendedCropsReplySpec | backend/server.js:638-642 | refused exactly when a required field is missing, else five crops |
| Punjab.Names | backend/server.js:957-958 | the district names, in order |
| Punjab.FuzzyMatchByContainment | backend/server.js:948-953 | the equality test is subsumed by the two containment tests |
| Punjab.GovernmentOrganizationsSpec | backend/server.js:934-989 | a reply with status 400 exactly when neither parameter is given; a 404 lists every name when no district matches; the reply echoes `district \|\| location` |
| Punjab.GovFoundSpec | backend/server.js:948-979 | a found reply is the first matching district, with its available laboratories and officers as the `filter` of each list (order and repeats kept) and all its helplines and tips |
| Punjab.SelectedSpec | backend/server.js:1007-1056 | no type selects all three kinds, and a type selects at most one |
| Punjab.SearchDistrict | backend/server.js:1007-1055 | the three inner loops compute `DistrictHits` |
| Punjab.SearchDistricts | backend/server.js:1007-1056 | the outer loop computes `SearchHits` |
| Punjab.SearchOrganizations | backend/server.js:992-1071 | the route computes `SearchReplyOf` |
| Punjab.SearchReplySpec | backend/server.js:996-1063 | a reply with status 400 exactly when the query is missing; the count is the number of results; the type defaults to `all` |
| Punjab.SearchHitsSound | backend/server.js:1007-1056 | every result is a selected, matching entry of some district, labelled with it |
| Punjab.SearchFindsLab | backend/server.js:1009-1021 | every matching laboratory is found when laboratories are selected |
| Punjab.SearchFindsOfficer | backend/server.js:1026-1038 | every matching officer is found when officers are selected |
| Punjab.SearchFindsHelpline | backend/server.js:1043-1055 | every matching helpline is found when helplines are selected |
| Punjab.MentionsIgnoresCase | backend/server.js:1011-1012 | the substring test ignores the query's case |
| Punjab.LookupDistrictSpec | backend/server.js:1094-1096 | the first district whose name equals the request up to case, none exactly when no name does |
| Punjab.DistrictListSpec | backend/server.js:1206-1224 | every district in order, with data exactly when its first laboratory is not the placeholder; none when some district has no laboratory |
| Punjab.DistrictSearchSpec | backend/server.js:1227-1249 | a reply with status 400 exactly when the query is missing; otherwise exactly the districts whose name contains it up to case |
| Punjab.SummarySpec | backend/server.js:1266-1284 | the counts are the list lengths; each of the primary officer, primary contact, main helpline, soil testing services and officer description is the first entry's value when the list has a first entry and that value is not empty, and `Data not available` otherwise; the top tips are the first two, or all when there are fewer |
| Punjab.SummaryRoute | backend/server.js:1252-1291 | a 404 exactly when no district has the name up to case; otherwise the summary of the district the lookup finds, whose name equals the requested one up to case |
| Loans.RunEnd | backend/scrape_loans.js:145-147 | the end of the longest run of a character class |
| Loans.Leftmost | backend/scrape_loans.js:152 | `text.match` finds the leftmost start position at which the pattern matches |
| Loans.Search | backend/scrape_loans.js:152-153 | a match is never empty, and an application match starts with an ASCII letter |
| Loans.FirstFound | backend/scrape_loans.js:151-156 | the first pattern that finds anything wins, and nothing is found exactly when no pattern matches |
| Loans.MatchAt | backend/scrape_loans.js:143-185 | every match of these expressions takes at least one character |
| Loans.ExtractorsSpec | backend/scrape_loans.js:143-185 | an extractor returns nothing or a non-empty text, so `\|\|` on the results asks whether any found something |
| Loans.YieldSpec | backend/scrape_loans.js:50-71 | a text yields at most one record, exactly when it is relevant and something was found |
| Loans.ElementSchemesSpec | backend/scrape_loans.js:47-73 | an element yields at most one record, exactly when its trimmed text is relevant and an extractor finds something; that record names its source, is for groundnut and has no empty field |
| Loans.SchemeOfSpec | backend/scrape_loans.js:62-70 | the title is the source name, ` - `, the first 50 code units of the text and `...`; the description is the first 300 code units and `...`; the crop is `Groundnut` and the source the source name; each of amount, rate and application process is the found text, or its placeholder (`Contact bank for details` twice, `Visit bank branch or apply online`) when nothing was found |
| Loans.CappedLoop | backend/scrape_loans.js:47-48 | the `each` loop with its cap computes `Capped` |
| Loans.CappedSpec | backend/scrape_loans.js:48 | the capped collection only appends and never grows past the cap |
| Loans.ScrapeSources | backend/scrape_loans.js:38-80 | the loop over the sources computes `FromSources`, a failed page adding nothing |
| Loans.FromSourcesSpec | backend/scrape_loans.js:38-80 | at most fifteen records in all, each built from an element of one of the sources |
| Loans.AddDefaults | backend/scrape_loans.js:83-115 | an empty result is replaced by the defaults |
| Loans.WithDefaultsSpec | backend/scrape_loans.js:83-115 | the defaults replace an empty result and nothing else |
| Loans.ScrapeLoanSchemes | backend/scrape_loans.js:5-140 | the scraper computes `LoanSchemes` |
| Loans.LoanSchemesSpec | backend/scrape_loans.js:5-140 | the saved list is never empty and has at most fifteen records; it is either the three defaults or scraped records of the three sources |
| Translation.CacheKey | src/hooks/useTranslate.tsx:17 | the key is the language, a dash and the text |
| Translation.CacheKeyInjective | src/hooks/useTranslate.tsx:17 | within one language, two texts share a key exactly when they are equal |
| Translation.CacheKeyAmbiguous | src/hooks/useTranslate.tsx:17 | across languages with a dash in the code, keys can collide |
| Translation.Cached | src/hooks/useTranslate.tsx:18 | a hit is a stored, non-empty translation |
| Translation.CachedAfterStore | src/hooks/useTranslate.tsx:23 | after storing `v` the key hits exactly when `v` is non-empty, and other keys are unaffected |
| Translation.Translator.constructor | src/hooks/useTranslate.tsx:11-12 | empty cache, not loading |
| Translation.Translator.Begin | src/hooks/useTranslate.tsx:15-20 | English and hits answer at once without touching the flag; a miss raises it and waits on its key |
| Translation.Translator.Finish | src/hooks/useTranslate.tsx:21-30 | a translation is stored and returned, a failure returns the text and stores nothing, and the flag is lowered |
| Translation.Translator.Translate | src/hooks/useTranslate.tsx:14-31 | one whole call: the answer and the new cache for each of English, hit, success and failure |
| Language.UseLanguage | src/contexts/LanguageContext.tsx:13-19 | the context value, or the error outside a provider |
| Language.ValueAt | src/contexts/LanguageContext.tsx:57 | `translatedValues[index]` is undefined past the end |
| Language.BuiltBundleSpec | src/contexts/LanguageContext.tsx:49-58 | the bundle has exactly the English keys, key `i` maps to value `i`, and no value is undefined when the translator answered for every key |
| Language.BuildBundle | src/contexts/LanguageContext.tsx:55-58 | the `forEach` computes `BuiltBundle` |
| Language.EnglishStore | src/contexts/LanguageContext.tsx:45-46 | `selectedLanguage` becomes `en`, the bundle entry is removed, and everything else stays |
| Language.SwitchedStore | src/contexts/LanguageContext.tsx:62-63 | both entries are set, and everything else stays |
| Language.RestoredFrom | src/contexts/LanguageContext.tsx:25-38 | English unless a non-English language and a bundle are saved; then the decoded bundle, or a throw |
| Language.RestartAfterEnglish | src/contexts/LanguageContext.tsx:43-47 | a reload after the English path starts in English |
| Language.RestartAfterSwitch | src/contexts/LanguageContext.tsx:60-65 | a reload after a switch restores the language and its bundle, unless the bundle does not decode |
| Language.LanguageProvider.constructor | src/contexts/LanguageContext.tsx:22-23 | English, not loading |
| Language.LanguageProvider.Restore | src/contexts/LanguageContext.tsx:25-38 | the mount effect follows `RestoredFrom`, handing over the bundle; a throw changes nothing |
| Language.LanguageProvider.UseEnglish | src/contexts/LanguageContext.tsx:43-47 | English shown, and the storage becomes `EnglishStore` |
| Language.LanguageProvider.SetLanguage | src/contexts/LanguageContext.tsx:40-76 | never loading afterwards and i18n shows the language; `en` or a failure falls back to English; success hands over the built bundle and persists it |
| Auth.UseAuth | src/contexts/AuthContext.tsx:59-64 | the context value, or the error outside a provider |
| Auth.AuthProvider.constructor | src/contexts/AuthContext.tsx:30-31 | nobody signed in, and no farm details |
| Auth.AuthProvider.Login | src/contexts/AuthContext.tsx:33-36 | signed in as the demo farmer under the given e-mail; the farm details stay |
| Auth.AuthProvider.Signup | src/contexts/AuthContext.tsx:38-41 | signed in under the given name and e-mail |
| Auth.AuthProvider.Logout | src/contexts/AuthContext.tsx:43-46 | both the user and the farm details are cleared |
| Auth.AuthProvider.SaveUserInputData | src/contexts/AuthContext.tsx:48-50 | the farm details are replaced and the user stays |

## Left out

- Browsers, pages and selectors, HTTP requests, the Overpass API, Google Search, `fs`, SQLite, PDFKit rendering, the Gemini API, the translator and `JSON.parse`/`JSON.stringify` are not modelled. Their observable results are parameters: a session or page value, a write failure, a clock string, an AI outcome, and `encode`/`decode` functions.
- Console output is not modelled. It matters because the debug scraper differs from the improved one almost only by its logging; the model keeps only their differences in table layout and failure value.
- Floating point is left out. A coordinate is an opaque value carrying its `String` and `toFixed(5)` renderings, and `parseFloat` is modelled by which prefix it reads, not by the number's value.
- Overpass.ParseFloatSpec: states which prefix `parseFloat` reads, not the value of the number, because floating point is not modelled.
- The phone regular expressions are given as their list of matches. The lists are sorted, non-overlapping and non-empty. Matching and `replace` use the same list, so the exact digit patterns are not modelled.
- `toLowerCase` and the `i` flag are modelled for ASCII letters only. Non-ASCII case mapping is not modelled.
- `substring` at a position that splits a surrogate pair is not representable with Unicode scalar values. `Utf16Prefix` stops before such a character.
- The read or JSON parse of the Punjab dataset file is assumed to succeed; its 500 replies are not modelled. The dataset is a parsed value.
- The per-district sub-routes (soil labs, officers, helplines, tips) only project fields of the district `Punjab.LookupDistrict` finds. They are modelled by that lookup and its lemma.
- `fetchAgriculturalVendors` is not modelled as a whole: its network calls (lines 168-193) and its broken fallback at lines 208-221. Its pure helpers are modelled: the query, `parseLatLon`, the table, the mapping and the deduplication.
- The local-market, crop-plan, crop-analysis report, AI report and bank-loan PDF routes are not modelled. Only the required-field check they share is modelled.
- JSON body fields are modelled as absent, an integer or a string. Booleans, `null` as distinct from absent, arrays, objects and fractional numbers are not modelled (fractions because floating point is not), nor integers of 21 or more digits, which JavaScript renders in exponent form before `parseInt` reads them.
- The `location` body field of the vendor-PDF route is modelled as a string; a non-string location (a number, say) is not modelled.
- The `search_radius_meters` request field is not modelled, because `scrapeAgriVendors` accepts it but never uses it.
- Language.LanguageProvider.SetLanguage: i18next's resource store is not modelled. `added` records the bundle handed over for each language, not how i18next merges it with earlier bundles, and the English entries are a constant. `localStorage.setItem` is taken never to throw; a throw there would reach the English fallback with the bundle already handed over, which the failure path, keeping `added` unchanged, does not capture.
- Translation.Translator: two calls in flight at once share the one loading flag. The model treats each call on its own, with `Begin` and `Finish` around the `await`, so it does not model interleaving.
- Loans.ExtractorsSpec: states only that a find is non-empty. Which expression wins, and where, is stated by `Loans.FirstFound` and `Loans.Leftmost`.
- PdfRoute.TableReadBack: the exact read-back is stated only for a location without a line break and for clean vendors. A line break in the location moves the header line to index 3 (`PdfRoute.BrokenLocationReadBack`); a bar or line break inside a cell splits or shifts rows, and such reads are not stated.
- PdfRoute.RouteDocument: the document's vendor list is stated only for a location without a line break and clean collected vendors, as for `PdfRoute.TableReadBack`; otherwise only that the reply is a PDF.
- PdfRoute.NoVendorsKept: stated for a location without a line break; with one, the document also lists the header line's vendor `Name` first (`PdfRoute.BrokenLocationEntries`).
- PdfRoute.FirstEntryIsSeparator: stated for a location without a line break; with one, entry 1 is `1. Name` and the separator's entry is 2 (`PdfRoute.BrokenLocationEntries`). Locations with two or more line breaks are not stated.
- React rendering and re-render scheduling are not modelled. A state update is taken to be visible at once.

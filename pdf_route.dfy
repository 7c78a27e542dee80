/**
 * The server's `POST /api/scrape-agri-vendors` route: it runs the improved scraper, reads the
 * returned table back line by line, keeps the contactable vendors and lays them out as a PDF
 * document. The document is modelled as the text lines the route writes, not as drawing.
 */
module PdfRoute {
  import opened Wrappers
  import opened JsString
  import opened Vendors
  import opened Extract
  import opened VendorTable
  import opened Scrapers
  import opened Dedup
  import opened Orchestrator
  import opened Lists
  import opened ServerMisc

  // ---------------------------------------------------------------------------------------
  // Reading the table back
  // ---------------------------------------------------------------------------------------

  /** A vendor as the route reads it from a table row: every field is the trimmed cell text. */
  datatype ParsedVendor = ParsedVendor(
    id: string, name: string, kind: string, lat: string, lon: string,
    address: string, phone: string, website: string, gstId: string, sourceUrl: string)

  /** The first line the loop looks at; lines 0 to 2 are the title, the blank line and the header. */
  const FirstDataLine: nat := 3

  /** The least number of parts a row must split into. */
  const MinParts: nat := 11

  /** Blank lines, the footer and lines starting with `---` are passed over. */
  predicate Skipped(line: string) {
    line == "" || StartsWith(line, [Check]) || StartsWith(line, "---")
  }

  /** One line of the table as the loop reads it: trimmed, split at the bars, each part trimmed;
    * parts 1 to 10 are the fields. */
  function ParseRow(rawLine: string): (r: Option<ParsedVendor>)
    ensures r.Some? ==> !Skipped(Trim(rawLine)) && |Split(Trim(rawLine), '|')| >= MinParts
  {
    var line := Trim(rawLine);
    if Skipped(line) then None
    else
      var parts := TrimAll(Split(line, '|'));
      if |parts| < MinParts then None
      else Some(ParsedVendor(parts[1], parts[2], parts[3], parts[4], parts[5],
                             parts[6], parts[7], parts[8], parts[9], parts[10]))
  }

  /** The filter the route applies: a real name, a real address, and a phone or a website. */
  predicate Contactable(v: ParsedVendor) {
    v.name !in {"", UnknownName} && v.address !in {"", NoAddress}
    && (v.phone != "" || v.website != "")
  }

  /** What one line contributes to the route's vendor list. */
  function Kept(line: string): (r: seq<ParsedVendor>)
    ensures |r| <= 1
  {
    match ParseRow(line)
    case None => []
    case Some(v) => if Contactable(v) then [v] else []
  }

  /** The vendors read from a run of lines, in line order. */
  function KeptAll(lines: seq<string>): seq<ParsedVendor> {
    ConcatMap(Kept, lines)
  }

  /** The vendors the route reads from the table's lines: those from index 3 on. */
  function TableVendors(lines: seq<string>): seq<ParsedVendor> {
    if |lines| <= FirstDataLine then [] else KeptAll(lines[FirstDataLine..])
  }

  /** The loop over the lines of the table from index 3: each line that parses into a contactable
    * vendor pushes it. */
  method ParseLines(lines: seq<string>) returns (vendors: seq<ParsedVendor>)
    ensures vendors == TableVendors(lines)
  {
    vendors := CollectFrom(Kept, lines, FirstDataLine);
  }

  // ---------------------------------------------------------------------------------------
  // What the reader gets from the improved scraper's table
  // ---------------------------------------------------------------------------------------

  /** The fields the reader recovers from the row numbered `id` for `v`. */
  function ReadBack(id: nat, v: Vendor): ParsedVendor {
    ParsedVendor(NatToString(id), v.name, v.kind, CoordCell(v.lat), CoordCell(v.lon),
                 v.address, v.phone, v.website, v.gstId, v.sourceUrl)
  }

  /** A vendor whose every cell survives the round trip: no bar, no line break, no surrounding
    * white space. */
  predicate CleanVendor(v: Vendor) {
    CleanCell(v.name) && CleanCell(v.kind) && CleanCell(CoordCell(v.lat)) && CleanCell(CoordCell(v.lon))
    && CleanCell(v.address) && CleanCell(v.phone) && CleanCell(v.website) && CleanCell(v.gstId)
    && CleanCell(v.sourceUrl)
  }

  lemma NatToStringClean(n: nat)
    ensures CleanCell(NatToString(n))
  {
    var s := NatToString(n);
    assert forall k :: 0 <= k < |s| ==> IsDigit(s[k]);
  }

  /** A string that opens and closes with a bar is already trimmed and is not passed over. */
  lemma BarredLine(line: string)
    requires |line| >= 2 && line[0] == '|' && line[|line| - 1] == '|'
    ensures Trim(line) == line && !Skipped(line)
  {
    assert line[..1] == "|";
    assert !StartsWith(line, [Check]) by {
      assert line[..1] != [Check];
    }
    if |line| >= 3 {
      assert line[..3] != "---" by {
        assert line[..3][0] == '|';
      }
    }
  }

  /** Pieces between bars: the line is the join of the pieces framed by two empty parts. */
  lemma FramedJoin(pieces: seq<string>)
    requires |pieces| >= 1
    ensures "|" + Join(pieces, "|") + "|" == Join([""] + pieces + [""], "|")
  {
    var inner := Join(pieces, "|");
    var front := [""] + pieces;
    JoinCons("", pieces, "|");
    assert Join(front, "|") == "" + "|" + inner;
    assert "" + "|" + inner == "|" + inner;
    JoinConcat(front, [""], "|");
    assert Join([""], "|") == "";
    assert Join(front + [""], "|") == Join(front, "|") + "|" + "";
  }

  /** Trimming parts that are already trimmed changes nothing. */
  lemma TrimAllTrimmed(parts: seq<string>)
    requires forall k :: 0 <= k < |parts| ==> IsTrimmed(parts[k])
    ensures TrimAll(parts) == parts
  {
  }

  /** Framing clean pieces by two empty parts keeps them clean. */
  lemma FramedClean(pieces: seq<string>)
    requires forall k :: 0 <= k < |pieces| ==> CleanCell(pieces[k])
    ensures forall k :: 0 <= k < |pieces| + 2 ==> CleanCell(([""] + pieces + [""])[k])
  {
    var parts := [""] + pieces + [""];
    forall k | 0 <= k < |parts| ensures CleanCell(parts[k]) {
      if 0 < k < |parts| - 1 {
        assert parts[k] == pieces[k - 1];
      }
    }
  }

  /** Clean parts joined by bars are split and trimmed back into themselves. */
  lemma JoinReadBack(parts: seq<string>)
    requires |parts| >= 1
    requires forall k :: 0 <= k < |parts| ==> CleanCell(parts[k])
    ensures TrimAll(Split(Join(parts, "|"), '|')) == parts
  {
    JoinSplit(parts, '|');
    TrimAllTrimmed(parts);
  }

  /** Clean pieces between bars are read back as they were, framed by two empty parts. */
  lemma FramedReadBack(pieces: seq<string>)
    requires |pieces| >= 1
    requires forall k :: 0 <= k < |pieces| ==> CleanCell(pieces[k])
    ensures TrimAll(Split("|" + Join(pieces, "|") + "|", '|')) == [""] + pieces + [""]
  {
    FramedJoin(pieces);
    FramedClean(pieces);
    JoinReadBack([""] + pieces + [""]);
  }

  /** A barred line whose parts are ten fields framed by two empty parts is read as those ten
    * fields. */
  lemma ParseBarred(line: string, fields: seq<string>)
    requires |line| >= 2 && line[0] == '|' && line[|line| - 1] == '|'
    requires |fields| == 10 && TrimAll(Split(line, '|')) == [""] + fields + [""]
    ensures ParseRow(line) == Some(ParsedVendor(fields[0], fields[1], fields[2], fields[3], fields[4],
                                                fields[5], fields[6], fields[7], fields[8], fields[9]))
  {
    BarredLine(line);
  }

  /** The ten cells of a clean vendor's row are clean. */
  lemma CellsClean(id: nat, v: Vendor)
    requires CleanVendor(v)
    ensures forall k :: 0 <= k < 10 ==> CleanCell(Cells(id, v, WithSourceUrl)[k])
  {
    NatToStringClean(id);
  }

  /** Parsing a row that `formatVendorsTable` wrote for a clean vendor gives back its fields. */
  lemma RowRoundTrip(id: nat, v: Vendor)
    requires CleanVendor(v)
    ensures ParseRow(Row(id, v, WithSourceUrl)) == Some(ReadBack(id, v))
  {
    var cells := Cells(id, v, WithSourceUrl);
    CellsClean(id, v);
    RowReadBack(id, v, WithSourceUrl);
    var row := Row(id, v, WithSourceUrl);
    assert row == "| " + Join(cells, " | ") + " |";
    assert row[0] == '|' && row[|row| - 1] == '|';
    ParseBarred(row, cells);
  }

  /** The separator row read as a vendor: each field is a run of dashes. */
  function DashVendor(): ParsedVendor {
    ParsedVendor(Dashes(4), Dashes(6), Dashes(6), Dashes(10), Dashes(11),
                 Dashes(9), Dashes(7), Dashes(9), Dashes(8), Dashes(11))
  }

  lemma DashesClean(n: nat)
    ensures CleanCell(Dashes(n))
  {
    var d := Dashes(n);
    if n > 0 {
      assert d[0] == '-' && d[n - 1] == '-';
    }
  }

  /** The separator row is barred and its parts are its dash runs. */
  lemma SeparatorParts()
    ensures var sep := Separator(WithSourceUrl);
      |sep| >= 2 && sep[0] == '|' && sep[|sep| - 1] == '|'
      && TrimAll(Split(sep, '|')) == [""] + DashRuns(10) + [""]
  {
    var runs := DashRuns(10);
    forall k | 0 <= k < |runs| ensures CleanCell(runs[k]) {
      DashesClean(DashWidths[k]);
    }
    FramedReadBack(runs);
  }

  /** A run of dashes is neither empty nor a placeholder, for the widths the separator uses. */
  lemma DashVendorContactable()
    ensures Contactable(DashVendor())
  {
    var v := DashVendor();
    assert |v.name| == 6 && |v.address| == 9 && |v.phone| == 7;
  }

  /** The quirk of the route: line 3 of the table is the separator row, which is not passed over,
    * splits into 12 parts and passes the contactable filter, so it is read as a vendor made of
    * dashes. */
  lemma SeparatorIsRead()
    ensures ParseRow(Separator(WithSourceUrl)) == Some(DashVendor())
    ensures Kept(Separator(WithSourceUrl)) == [DashVendor()]
  {
    SeparatorParsed();
    DashVendorContactable();
  }

  lemma SeparatorParsed()
    ensures ParseRow(Separator(WithSourceUrl)) == Some(DashVendor())
  {
    SeparatorParts();
    var runs := DashRuns(10);
    ParseBarred(Separator(WithSourceUrl), runs);
    DashRunsVendor();
  }

  /** The ten dash runs, read as the ten fields of a vendor. */
  lemma DashRunsVendor()
    ensures var runs := DashRuns(10);
      ParsedVendor(runs[0], runs[1], runs[2], runs[3], runs[4], runs[5], runs[6], runs[7], runs[8], runs[9])
      == DashVendor()
  {
  }

  /** Every vendor in the list is clean and single-line. */
  predicate AllClean(vs: seq<Vendor>) {
    forall i :: 0 <= i < |vs| ==> CleanVendor(vs[i]) && SingleLine(vs[i])
  }

  /** What the route should read from the rows of `vs`: the read-back of each contactable vendor,
    * numbered from 1, in table order. */
  function ContactableRows(vs: seq<Vendor>): seq<ParsedVendor>
    decreases |vs|
  {
    if vs == [] then []
    else
      var n := |vs|;
      var v := ReadBack(n, vs[n - 1]);
      ContactableRows(vs[..n - 1]) + (if Contactable(v) then [v] else [])
  }

  /** A row for a clean vendor contributes its read-back exactly when that is contactable. */
  lemma KeptRow(id: nat, v: Vendor)
    requires CleanVendor(v)
    ensures Kept(Row(id, v, WithSourceUrl))
         == (if Contactable(ReadBack(id, v)) then [ReadBack(id, v)] else [])
  {
    RowRoundTrip(id, v);
  }

  lemma RowsInit(vs: seq<Vendor>)
    requires vs != []
    ensures Rows(vs, WithSourceUrl)[..|vs| - 1] == Rows(vs[..|vs| - 1], WithSourceUrl)
  {
  }

  lemma {:induction false} KeptRows(vs: seq<Vendor>)
    requires AllClean(vs)
    ensures KeptAll(Rows(vs, WithSourceUrl)) == ContactableRows(vs)
    decreases |vs|
  {
    if vs != [] {
      var n := |vs|;
      var rows := Rows(vs, WithSourceUrl);
      RowsInit(vs);
      KeptRows(vs[..n - 1]);
      assert KeptAll(rows) == KeptAll(rows[..n - 1]) + Kept(rows[n - 1]);
      KeptRow(n, vs[n - 1]);
    } else {
      assert Rows(vs, WithSourceUrl) == [];
    }
  }

  /** The blank line and the footer contribute nothing. */
  lemma KeptTail(count: nat, location: string)
    ensures Kept("") == [] && Kept(Footer(count, location)) == []
  {
    var f := Footer(count, location);
    assert f[0] == Check && f[|f| - 1] == '.';
    assert IsTrimmed(f);
    assert f[..1] == [Check];
  }

  lemma ConcatMapFour<A, B>(f: A -> seq<B>, a: A, body: seq<A>, c: A, d: A)
    ensures ConcatMap(f, [a] + body + [c, d]) == f(a) + ConcatMap(f, body) + f(c) + f(d)
  {
    ConcatMapConcat(f, [a] + body, [c, d]);
    ConcatMapConcat(f, [a], body);
    ConcatMapConcat(f, [c], [d]);
    assert [c, d] == [c] + [d];
    ConcatMapOne(f, a);
    ConcatMapOne(f, c);
    ConcatMapOne(f, d);
  }

  /** The body of the table: one blank line when there are no vendors, else the rows. */
  function Body(vs: seq<Vendor>): seq<string> {
    if vs == [] then [""] else Rows(vs, WithSourceUrl)
  }

  lemma DropHead<T>(a: T, b: T, c: T, d: T, body: seq<T>, e: T, f: T)
    ensures ([a, b, c, d] + body + [e, f])[3..] == [d] + body + [e, f]
  {
  }

  /** From index 3 on, the table's lines are the separator, the body, a blank line and the footer. */
  lemma DataLines(location: string, vs: seq<Vendor>)
    requires '\n' !in location
    requires AllClean(vs)
    ensures var lines := Split(FormatVendorsTable(location, vs, WithSourceUrl), '\n');
      |lines| > FirstDataLine
      && lines[FirstDataLine..] == [Separator(WithSourceUrl)] + Body(vs) + ["", Footer(|vs|, location)]
  {
    assert forall i :: 0 <= i < |vs| ==> SingleLine(vs[i]);
    TableLinesSpec(location, vs, WithSourceUrl);
    DropHead(Title(location), "", Header(WithSourceUrl), Separator(WithSourceUrl), Body(vs),
             "", Footer(|vs|, location));
  }

  /** The vendors read from the body are the contactable read-backs. */
  lemma KeptBody(vs: seq<Vendor>)
    requires AllClean(vs)
    ensures KeptAll(Body(vs)) == ContactableRows(vs)
  {
    if vs == [] {
      ConcatMapOne(Kept, "");
      KeptTail(0, "");
    } else {
      KeptRows(vs);
    }
  }

  lemma DropEmpty<B>(x: seq<B>, a: seq<B>, b: seq<B>, c: seq<B>, d: seq<B>)
    requires x == a + b + c + d && c == [] && d == []
    ensures x == a + b
  {
  }

  /** What the route reads back from the improved scraper's table: the separator row as a vendor
    * of dashes, then the contactable vendors in table order, each with its row number as id and
    * the table's renderings of its fields. The title, the blank lines and the footer add nothing. */
  lemma TableReadBack(location: string, vs: seq<Vendor>)
    requires '\n' !in location
    requires AllClean(vs)
    ensures TableVendors(Split(FormatVendorsTable(location, vs, WithSourceUrl), '\n'))
         == [DashVendor()] + ContactableRows(vs)
  {
    var lines := Split(FormatVendorsTable(location, vs, WithSourceUrl), '\n');
    DataLines(location, vs);
    var footer := Footer(|vs|, location);
    var sep := Separator(WithSourceUrl);
    var data := [sep] + Body(vs) + ["", footer];
    assert TableVendors(lines) == KeptAll(data);
    ConcatMapFour(Kept, sep, Body(vs), "", footer);
    SeparatorIsRead();
    KeptTail(|vs|, location);
    KeptBody(vs);
    DropEmpty(KeptAll(data), Kept(sep), KeptAll(Body(vs)), Kept(""), Kept(footer));
  }

  // ---------------------------------------------------------------------------------------
  // The document
  // ---------------------------------------------------------------------------------------

  /** The labels of the detail lines, in the order the route writes them. */
  datatype Label = TypeLabel | AddressLabel | PhoneLabel | WebsiteLabel | CoordinatesLabel | GstLabel

  function LabelText(l: Label): string {
    match l
    case TypeLabel => "Type"
    case AddressLabel => "Address"
    case PhoneLabel => "Phone"
    case WebsiteLabel => "Website"
    case CoordinatesLabel => "Coordinates"
    case GstLabel => "GST/ID"
  }

  /** A line of the document: plain text (title, date, total), an entry's underlined heading,
    * a labelled detail line, or the `View Location` link. */
  datatype DocLine =
    | Plain(text: string)
    | Heading(number: nat, name: string)
    | Detail(field: Label, value: string)
    | Link(url: string)

  const LinkText := "View Location"

  /** The text a line shows. */
  function LineText(l: DocLine): string {
    match l
    case Plain(t) => t
    case Heading(n, name) => NatToString(n) + ". " + name
    case Detail(field, value) => LabelText(field) + ": " + value
    case Link(_) => LinkText
  }

  /** The detail lines of an entry, each only when its field is present. */
  function DetailLines(v: ParsedVendor): seq<DocLine> {
    (if v.kind !in {"", AgriculturalVendor} then [Detail(TypeLabel, v.kind)] else [])
    + (if v.address !in {"", NoAddress} then [Detail(AddressLabel, v.address)] else [])
    + (if v.phone != "" then [Detail(PhoneLabel, v.phone)] else [])
    + (if v.website != "" then [Detail(WebsiteLabel, v.website)] else [])
    + (if v.lat != "" && v.lon != "" then [Detail(CoordinatesLabel, v.lat + ", " + v.lon)] else [])
    + (if v.gstId != "" then [Detail(GstLabel, v.gstId)] else [])
    + (if v.sourceUrl != "" then [Link(v.sourceUrl)] else [])
  }

  /** Entry `n`: its heading, then its detail lines. */
  function EntryLines(n: nat, v: ParsedVendor): seq<DocLine> {
    [Heading(n, v.name)] + DetailLines(v)
  }

  /** The entries of the kept vendors, numbered from 1 in list order. */
  function Entries(vs: seq<ParsedVendor>): seq<DocLine>
    decreases |vs|
  {
    if vs == [] then [] else Entries(vs[..|vs| - 1]) + EntryLines(|vs|, vs[|vs| - 1])
  }

  /** The document: title, generation time, the entries, and the total. */
  function Document(location: string, generatedOn: string, vs: seq<ParsedVendor>): seq<DocLine> {
    [Plain(Title(location)), Plain("Generated on: " + generatedOn)]
    + Entries(vs)
    + [Plain("Total Vendors Found: " + NatToString(|vs|))]
  }

  function HeadingOf(l: DocLine): seq<DocLine> {
    if l.Heading? then [l] else []
  }

  /** The headings among some lines, in order. */
  function Headings(lines: seq<DocLine>): seq<DocLine> {
    ConcatMap(HeadingOf, lines)
  }

  lemma TypeLine(v: ParsedVendor)
    ensures Detail(TypeLabel, v.kind) in DetailLines(v) <==> v.kind !in {"", AgriculturalVendor}
  {
  }

  lemma AddressLine(v: ParsedVendor)
    ensures Detail(AddressLabel, v.address) in DetailLines(v) <==> v.address !in {"", NoAddress}
  {
  }

  lemma PhoneLine(v: ParsedVendor)
    ensures Detail(PhoneLabel, v.phone) in DetailLines(v) <==> v.phone != ""
  {
  }

  lemma WebsiteLine(v: ParsedVendor)
    ensures Detail(WebsiteLabel, v.website) in DetailLines(v) <==> v.website != ""
  {
  }

  lemma CoordinatesLine(v: ParsedVendor)
    ensures Detail(CoordinatesLabel, v.lat + ", " + v.lon) in DetailLines(v) <==> v.lat != "" && v.lon != ""
  {
  }

  lemma GstLine(v: ParsedVendor)
    ensures Detail(GstLabel, v.gstId) in DetailLines(v) <==> v.gstId != ""
  {
  }

  lemma LinkLine(v: ParsedVendor)
    ensures Link(v.sourceUrl) in DetailLines(v) <==> v.sourceUrl != ""
  {
  }

  lemma NoHeadingInDetails(v: ParsedVendor)
    ensures Headings(DetailLines(v)) == []
  {
    var d := DetailLines(v);
    assert forall k :: 0 <= k < |d| ==> !d[k].Heading?;
    NoHeadings(d);
  }

  lemma {:induction false} NoHeadings(lines: seq<DocLine>)
    requires forall k :: 0 <= k < |lines| ==> !lines[k].Heading?
    ensures Headings(lines) == []
    decreases |lines|
  {
    if lines != [] {
      NoHeadings(lines[..|lines| - 1]);
    }
  }

  /** Which detail lines an entry has: each labelled line appears exactly when its field is
    * present, the type only when it is not the scrapers' default, the coordinates only when both
    * are present, the link only when there is a source URL; no detail line is a heading. */
  lemma DetailLinesSpec(v: ParsedVendor)
    ensures Detail(TypeLabel, v.kind) in DetailLines(v) <==> v.kind !in {"", AgriculturalVendor}
    ensures Detail(AddressLabel, v.address) in DetailLines(v) <==> v.address !in {"", NoAddress}
    ensures Detail(PhoneLabel, v.phone) in DetailLines(v) <==> v.phone != ""
    ensures Detail(WebsiteLabel, v.website) in DetailLines(v) <==> v.website != ""
    ensures Detail(CoordinatesLabel, v.lat + ", " + v.lon) in DetailLines(v) <==> v.lat != "" && v.lon != ""
    ensures Detail(GstLabel, v.gstId) in DetailLines(v) <==> v.gstId != ""
    ensures Link(v.sourceUrl) in DetailLines(v) <==> v.sourceUrl != ""
    ensures Headings(DetailLines(v)) == []
  {
    TypeLine(v);
    AddressLine(v);
    PhoneLine(v);
    WebsiteLine(v);
    CoordinatesLine(v);
    GstLine(v);
    LinkLine(v);
    NoHeadingInDetails(v);
  }

  /** An entry has one heading, its own. */
  lemma EntryHeadings(n: nat, v: ParsedVendor)
    ensures Headings(EntryLines(n, v)) == [Heading(n, v.name)]
  {
    ConcatMapConcat(HeadingOf, [Heading(n, v.name)], DetailLines(v));
    ConcatMapOne(HeadingOf, Heading(n, v.name));
    NoHeadingInDetails(v);
  }

  /** The headings the entries should have: entry `i` numbered `i + 1`. */
  function Numbered(vs: seq<ParsedVendor>): seq<DocLine> {
    seq(|vs|, i requires 0 <= i < |vs| => Heading(i + 1, vs[i].name))
  }

  lemma NumberedStep(vs: seq<ParsedVendor>)
    requires vs != []
    ensures Numbered(vs) == Numbered(vs[..|vs| - 1]) + [Heading(|vs|, vs[|vs| - 1].name)]
  {
  }

  /** The headings of the entries number the vendors from 1 in list order. */
  lemma {:induction false} EntriesHeadings(vs: seq<ParsedVendor>)
    ensures Headings(Entries(vs)) == Numbered(vs)
    decreases |vs|
  {
    if vs != [] {
      var n := |vs|;
      var init := vs[..n - 1];
      EntriesHeadings(init);
      ConcatMapConcat(HeadingOf, Entries(init), EntryLines(n, vs[n - 1]));
      EntryHeadings(n, vs[n - 1]);
      NumberedStep(vs);
    }
  }

  /** The document opens with the title and the date, has one numbered heading per kept vendor,
    * and closes with a total equal to the number of headings. */
  lemma DocumentSpec(location: string, generatedOn: string, vs: seq<ParsedVendor>)
    ensures var doc := Document(location, generatedOn, vs);
      && doc[0] == Plain(Title(location))
      && doc[1] == Plain("Generated on: " + generatedOn)
      && Headings(doc) == Numbered(vs)
      && doc[|doc| - 1] == Plain("Total Vendors Found: " + NatToString(|Headings(doc)|))
  {
    var head := [Plain(Title(location)), Plain("Generated on: " + generatedOn)];
    var tail := [Plain("Total Vendors Found: " + NatToString(|vs|))];
    EntriesHeadings(vs);
    ConcatMapConcat(HeadingOf, head + Entries(vs), tail);
    ConcatMapConcat(HeadingOf, head, Entries(vs));
    NoHeadings(head);
    NoHeadings(tail);
  }

  // ---------------------------------------------------------------------------------------
  // The route
  // ---------------------------------------------------------------------------------------

  /** What the route sends: an error status with its message, or the PDF under its file name. */
  datatype Reply = Refused(status: nat, message: string) | PdfReply(fileName: string, document: seq<DocLine>)

  const MissingLocation := "Location is required"
  const ScrapeFailed := "Failed to scrape agricultural vendors"
  const PdfSuffix := ".pdf"

  /** The number `slice(0, end)` reads from `parseInt`'s result: NaN reads as 0. */
  function SliceEnd(parsed: Option<int>): (n: int)
    ensures parsed.None? ==> n == 0
    ensures parsed.Some? ==> n == parsed.value
  {
    if parsed.None? then 0 else parsed.value
  }

  /** `max_results ? parseInt(max_results, 10) : 200`, as the cut `slice(0, max_results)` uses
    * it. A falsy field (absent, 0 or "") selects the default; an integer is rendered in decimal
    * and read back; a string is read by `parseInt`, NaN keeping no vendor at all. */
  function MaxRes(field: BodyField): (n: int)
    ensures !BodyTruthy(field) ==> n == DefaultMaxResults
    ensures field.Num? && field.num != 0 ==> n == field.num
    ensures field.Str? && field.str != "" ==> n == SliceEnd(ParseInt(field.str))
  {
    match field
    case Unset => DefaultMaxResults
    case Num(v) =>
      if v == 0 then DefaultMaxResults
      else
        ParseIntOfIntToString(v, "");
        assert IntToString(v) + "" == IntToString(v);
        SliceEnd(ParseInt(IntToString(v)))
    case Str(t) => if t == "" then DefaultMaxResults else SliceEnd(ParseInt(t))
  }

  /** A string that starts with a decimal integer cuts at that integer: `"0"` at 0 (no vendor,
    * although the number 0 selects the default) and `"25abc"` at 25. */
  lemma MaxResOfText(n: int, rest: string)
    requires rest == [] || !IsDigit(rest[0])
    ensures MaxRes(Str(IntToString(n) + rest)) == n
  {
    ParseIntOfIntToString(n, rest);
  }

  lemma MaxResZero()
    ensures MaxRes(Num(0)) == DefaultMaxResults
    ensures MaxRes(Str("0")) == 0
  {
    MaxResOfText(0, "");
    assert IntToString(0) + "" == "0";
  }

  /** The attachment name: the sanitised location between the prefix and `.pdf`. */
  function PdfFileName(location: string): string {
    FilePrefix + SanitizeLocation(location) + PdfSuffix
  }

  /** The route's reply. An empty location is refused before anything runs; a falsy table is a
    * server error; otherwise the table is read back into the document. */
  function RouteReply(location: string, maxResults: BodyField, generatedOn: string,
                      gm: Session<GmListing>, jd: Session<JdListing>, phones: PhoneMatcher,
                      writeFailure: Option<string>): Reply
  {
    if location == "" then Refused(400, MissingLocation)
    else TableReply(location, generatedOn, RunResult(Improved, location, MaxRes(maxResults), gm, jd, phones, writeFailure))
  }

  /** The reply once the scraper has returned `result`: a falsy table is a server error, any other
    * is read back into the document. */
  function TableReply(location: string, generatedOn: string, result: Option<string>): Reply {
    match result
    case None => Refused(500, ScrapeFailed)
    case Some(table) =>
      if table == "" then Refused(500, ScrapeFailed)
      else PdfReply(PdfFileName(location), Document(location, generatedOn, TableVendors(Split(table, '\n'))))
  }

  /** `POST /api/scrape-agri-vendors`: check the location, run the improved scraper, parse its
    * table and lay out the document. The clock reading is the parameter `generatedOn`. */
  method ScrapeAgriVendorsRoute(location: string, maxResults: BodyField, generatedOn: string,
                                gm: Session<GmListing>, jd: Session<JdListing>, phones: PhoneMatcher,
                                fs: FileStore, writeFailure: Option<string>)
    returns (reply: Reply)
    modifies fs
    ensures reply == RouteReply(location, maxResults, generatedOn, gm, jd, phones, writeFailure)
    ensures location != "" && writeFailure.None?
      && RenderedTable(Improved, location, MaxRes(maxResults), gm, jd, phones).Some?
      ==> fs.files == old(fs.files)[FileName(location) :=
            RenderedTable(Improved, location, MaxRes(maxResults), gm, jd, phones).value]
    ensures location == "" || writeFailure.Some?
      || RenderedTable(Improved, location, MaxRes(maxResults), gm, jd, phones).None?
      ==> fs.files == old(fs.files)
  {
    if location == "" {
      return Refused(400, MissingLocation);
    }
    var maxRes := MaxRes(maxResults);
    var resultTable := ScrapeAgriVendors(Improved, location, maxRes, gm, jd, phones, fs, writeFailure);
    reply := ReplyToTable(location, generatedOn, resultTable);
  }

  /** The route's second half: refuse a falsy table, else split it into lines, parse them and lay
    * out the document. */
  method ReplyToTable(location: string, generatedOn: string, resultTable: Option<string>)
    returns (reply: Reply)
    ensures reply == TableReply(location, generatedOn, resultTable)
  {
    if resultTable.None? || resultTable.value == "" {
      return Refused(500, ScrapeFailed);
    }
    var lines := Split(resultTable.value, '\n');
    var vendors := ParseLines(lines);
    return PdfReply(PdfFileName(location), Document(location, generatedOn, vendors));
  }

  lemma TableNonEmpty(location: string, vs: seq<Vendor>, layout: Layout)
    ensures FormatVendorsTable(location, vs, layout) != ""
  {
    assert |Title(location)| > 0;
  }

  /** The route refuses an empty location with 400, and a failed browser launch or file write
    * with 500. */
  lemma RouteRefusals(location: string, maxResults: BodyField, generatedOn: string,
                      gm: Session<GmListing>, jd: Session<JdListing>, phones: PhoneMatcher,
                      writeFailure: Option<string>)
    ensures var reply := RouteReply(location, maxResults, generatedOn, gm, jd, phones, writeFailure);
      && (location == "" ==> reply == Refused(400, MissingLocation))
      && (location != "" && (gm.LaunchFailed? || jd.LaunchFailed? || writeFailure.Some?)
          ==> reply == Refused(500, ScrapeFailed))
  {
    RunResultSpec(Improved, location, MaxRes(maxResults), gm, jd, phones, writeFailure);
  }

  /** When both browsers started and the write went through, the document is laid out from the
    * table of the collected vendors. */
  lemma RouteTable(location: string, maxResults: BodyField, generatedOn: string,
                   gm: Session<GmListing>, jd: Session<JdListing>, phones: PhoneMatcher)
    requires location != "" && gm.Loaded? && jd.Loaded?
    ensures var vs := Collected(location, MaxRes(maxResults), gm, jd, phones).value;
      RouteReply(location, maxResults, generatedOn, gm, jd, phones, None)
      == PdfReply(PdfFileName(location), Document(location, generatedOn,
           TableVendors(Split(FormatVendorsTable(location, vs, WithSourceUrl), '\n'))))
  {
    var maxRes := MaxRes(maxResults);
    var vs := Collected(location, maxRes, gm, jd, phones).value;
    RunResultSpec(Improved, location, maxRes, gm, jd, phones, None);
    assert RunResult(Improved, location, maxRes, gm, jd, phones, None)
        == Some(FormatVendorsTable(location, vs, WithSourceUrl));
    TableNonEmpty(location, vs, WithSourceUrl);
  }

  /** When both browsers started and the write went through, the route replies with a PDF; when
    * moreover the collected vendors are clean, the document lists the separator row's dash vendor
    * first and then the contactable collected vendors. */
  lemma RouteDocument(location: string, maxResults: BodyField, generatedOn: string,
                      gm: Session<GmListing>, jd: Session<JdListing>, phones: PhoneMatcher)
    requires location != "" && gm.Loaded? && jd.Loaded?
    ensures var reply := RouteReply(location, maxResults, generatedOn, gm, jd, phones, None);
      && reply.PdfReply?
      && ('\n' !in location && AllClean(Collected(location, MaxRes(maxResults), gm, jd, phones).value)
          ==> reply == PdfReply(PdfFileName(location), Document(location, generatedOn,
                [DashVendor()] + ContactableRows(Collected(location, MaxRes(maxResults), gm, jd, phones).value))))
  {
    RouteTable(location, maxResults, generatedOn, gm, jd, phones);
    var vs := Collected(location, MaxRes(maxResults), gm, jd, phones).value;
    if '\n' !in location && AllClean(vs) {
      TableReadBack(location, vs);
    }
  }

  /** A document whose first kept vendor is the dash vendor opens its entries with `1. ------`. */
  lemma DashHeadingFirst(location: string, generatedOn: string, rest: seq<ParsedVendor>)
    ensures var doc := Document(location, generatedOn, [DashVendor()] + rest);
      |Headings(doc)| >= 1 && Headings(doc)[0] == Heading(1, Dashes(6))
  {
    DocumentSpec(location, generatedOn, [DashVendor()] + rest);
  }

  /** Lines whose line 3 is the separator row read back as the dash vendor first. */
  lemma SeparatorLineFirst(lines: seq<string>)
    requires |lines| > FirstDataLine + 1 && lines[FirstDataLine] == Separator(WithSourceUrl)
    ensures TableVendors(lines) == [DashVendor()] + KeptAll(lines[FirstDataLine + 1..])
  {
    var data := lines[FirstDataLine..];
    assert data == [data[0]] + data[1..];
    assert data[1..] == lines[FirstDataLine + 1..];
    ConcatMapConcat(Kept, [data[0]], data[1..]);
    ConcatMapOne(Kept, data[0]);
    SeparatorIsRead();
  }

  /** Whatever the vendors hold, the table of a location without a line break reads back with the
    * separator row's dash vendor first: the rows come after line 3. */
  lemma TableReadBackFirst(location: string, vs: seq<Vendor>)
    requires '\n' !in location
    ensures var read := TableVendors(Split(FormatVendorsTable(location, vs, WithSourceUrl), '\n'));
      |read| >= 1 && read[0] == DashVendor()
  {
    var lines := Split(FormatVendorsTable(location, vs, WithSourceUrl), '\n');
    TableOpening(location, vs, WithSourceUrl);
    assert lines[FirstDataLine] == lines[..4][3];
    SeparatorLineFirst(lines);
  }

  /** The quirk as the reader of the PDF sees it: when the run succeeds for a location without a
    * line break, entry 1 is headed `1. ------`, from the separator row, whatever the vendors are. */
  lemma FirstEntryIsSeparator(location: string, maxResults: BodyField, generatedOn: string,
                              gm: Session<GmListing>, jd: Session<JdListing>, phones: PhoneMatcher)
    requires location != "" && '\n' !in location && gm.Loaded? && jd.Loaded?
    ensures var reply := RouteReply(location, maxResults, generatedOn, gm, jd, phones, None);
      reply.PdfReply? && |Headings(reply.document)| >= 1
      && Headings(reply.document)[0] == Heading(1, Dashes(6))
  {
    RouteTable(location, maxResults, generatedOn, gm, jd, phones);
    var vs := Collected(location, MaxRes(maxResults), gm, jd, phones).value;
    TableReadBackFirst(location, vs);
    DashFirstHeading(location, generatedOn, TableVendors(Split(FormatVendorsTable(location, vs, WithSourceUrl), '\n')));
  }

  /** A document whose vendors start with the dash vendor opens its entries with `1. ------`. */
  lemma DashFirstHeading(location: string, generatedOn: string, read: seq<ParsedVendor>)
    requires |read| >= 1 && read[0] == DashVendor()
    ensures var doc := Document(location, generatedOn, read);
      |Headings(doc)| >= 1 && Headings(doc)[0] == Heading(1, Dashes(6))
  {
    assert read == [DashVendor()] + read[1..];
    DashHeadingFirst(location, generatedOn, read[1..]);
  }

  /** The column-name line read as a vendor: each field is a column name. */
  function HeaderVendor(): ParsedVendor {
    ParsedVendor("ID", "Name", "Type", "Latitude", "Longitude",
                 "Address", "Phone", "Website", "GST/ID", "Source URL")
  }

  /** The ten-column header line is not passed over, splits into twelve parts and is contactable:
    * it is read as the vendor `Name`. */
  lemma HeaderIsRead()
    ensures Kept(Header(WithSourceUrl)) == [HeaderVendor()]
  {
    var h := Header(WithSourceUrl);
    HeaderReadBack();
    assert h[0] == '|' && h[|h| - 1] == '|';
    ParseBarred(h, ColumnNames);
    assert Contactable(HeaderVendor());
  }

  lemma KeptAllCons(lines: seq<string>)
    requires |lines| >= 1
    ensures KeptAll(lines) == Kept(lines[0]) + KeptAll(lines[1..])
  {
    assert lines == [lines[0]] + lines[1..];
    ConcatMapConcat(Kept, [lines[0]], lines[1..]);
    ConcatMapOne(Kept, lines[0]);
  }

  /** Why the location must have no line break: with one, line 3 is the column-name line, so the
    * route reads the vendor `Name` first and the dash vendor second, whatever the vendors hold. */
  lemma BrokenLocationReadBack(before: string, after: string, vs: seq<Vendor>)
    requires '\n' !in before && '\n' !in after
    ensures var read := TableVendors(Split(FormatVendorsTable(before + "\n" + after, vs, WithSourceUrl), '\n'));
      |read| >= 2 && read[0] == HeaderVendor() && read[1] == DashVendor()
  {
    var lines := Split(FormatVendorsTable(before + "\n" + after, vs, WithSourceUrl), '\n');
    BrokenTableOpening(before, after, vs, WithSourceUrl);
    var data := lines[FirstDataLine..];
    assert data[0] == Header(WithSourceUrl) && data[1..][0] == Separator(WithSourceUrl);
    KeptAllCons(data);
    KeptAllCons(data[1..]);
    HeaderIsRead();
    SeparatorIsRead();
  }

  /** With a line break in the location, entry 1 of the PDF is headed `1. Name` and entry 2
    * `2. ------`. */
  lemma BrokenLocationEntries(before: string, after: string, maxResults: BodyField, generatedOn: string,
                              gm: Session<GmListing>, jd: Session<JdListing>, phones: PhoneMatcher)
    requires '\n' !in before && '\n' !in after && gm.Loaded? && jd.Loaded?
    ensures var reply := RouteReply(before + "\n" + after, maxResults, generatedOn, gm, jd, phones, None);
      reply.PdfReply? && |Headings(reply.document)| >= 2
      && Headings(reply.document)[0] == Heading(1, "Name")
      && Headings(reply.document)[1] == Heading(2, Dashes(6))
  {
    var location := before + "\n" + after;
    RouteTable(location, maxResults, generatedOn, gm, jd, phones);
    var vs := Collected(location, MaxRes(maxResults), gm, jd, phones).value;
    BrokenLocationReadBack(before, after, vs);
    HeaderThenDash(location, generatedOn, TableVendors(Split(FormatVendorsTable(location, vs, WithSourceUrl), '\n')));
  }

  lemma HeaderThenDash(location: string, generatedOn: string, read: seq<ParsedVendor>)
    requires |read| >= 2 && read[0] == HeaderVendor() && read[1] == DashVendor()
    ensures var doc := Document(location, generatedOn, read);
      |Headings(doc)| >= 2 && Headings(doc)[0] == Heading(1, "Name") && Headings(doc)[1] == Heading(2, Dashes(6))
  {
    DocumentSpec(location, generatedOn, read);
  }

  /** A `max_results` that cuts at 0 (`"0"`, or a string `parseInt` reads as NaN) leaves the
    * document with the separator row's dash vendor and no vendor of the run. */
  lemma NoVendorsKept(location: string, maxResults: BodyField, generatedOn: string,
                      gm: Session<GmListing>, jd: Session<JdListing>, phones: PhoneMatcher)
    requires location != "" && '\n' !in location && gm.Loaded? && jd.Loaded?
    requires MaxRes(maxResults) == 0
    ensures RouteReply(location, maxResults, generatedOn, gm, jd, phones, None)
      == PdfReply(PdfFileName(location), Document(location, generatedOn, [DashVendor()]))
  {
    var vs := Collected(location, MaxRes(maxResults), gm, jd, phones).value;
    NothingCollected(location, gm, jd, phones);
    RouteTable(location, maxResults, generatedOn, gm, jd, phones);
    EmptyTableReadBack(location, vs);
  }

  lemma NothingCollected(location: string, gm: Session<GmListing>, jd: Session<JdListing>, phones: PhoneMatcher)
    requires gm.Loaded? && jd.Loaded?
    ensures Collected(location, 0, gm, jd, phones) == Some([])
  {
    CollectedSpec(location, 0, gm, jd, phones);
  }

  /** A table without vendors reads back as the dash vendor alone. */
  lemma EmptyTableReadBack(location: string, vs: seq<Vendor>)
    requires '\n' !in location && vs == []
    ensures TableVendors(Split(FormatVendorsTable(location, vs, WithSourceUrl), '\n')) == [DashVendor()]
  {
    TableReadBack(location, vs);
    assert [DashVendor()] + ContactableRows(vs) == [DashVendor()];
  }
}

/**
 * The plain-text pipe table both scraper variants write: a title, a blank line, the column
 * header and its separator row, one row per vendor numbered from 1, a blank line and a count
 * footer. The improved scraper has ten columns (the last one the source URL), the debug scraper
 * nine.
 */
module VendorTable {
  import opened Wrappers
  import opened JsString
  import opened Vendors

  /** The column layout: the improved scraper's, with a Source URL column, or the debug scraper's. */
  datatype Layout = WithSourceUrl | WithoutSourceUrl

  function Title(location: string): string {
    "Agricultural Vendors in " + location
  }

  /** The column names in table order; the debug layout has the first nine. */
  const ColumnNames: seq<string> :=
    ["ID", "Name", "Type", "Latitude", "Longitude", "Address", "Phone", "Website", "GST/ID", "Source URL"]

  /** The width of each column's run of dashes in the separator row. */
  const DashWidths: seq<nat> := [4, 6, 6, 10, 11, 9, 7, 9, 8, 11]

  function ColumnCount(layout: Layout): (n: nat)
    ensures n <= 10
  {
    if layout == WithSourceUrl then 10 else 9
  }

  /** `n` dashes. */
  function Dashes(n: nat): (r: string)
    ensures |r| == n && forall k :: 0 <= k < n ==> r[k] == '-'
  {
    seq(n, k => '-')
  }

  /** The dash runs of the first `n` columns. */
  function DashRuns(n: nat): (r: seq<string>)
    requires n <= 10
    ensures |r| == n && forall k :: 0 <= k < n ==> r[k] == Dashes(DashWidths[k])
  {
    seq(n, k requires 0 <= k < n => Dashes(DashWidths[k]))
  }

  /** The column-name line: the names between `| ` and ` |`, separated by ` | `
    * (`| ID | Name | … | GST/ID | Source URL |` in the ten-column layout). */
  function HeaderRow(n: nat): string
    requires n <= 10
  {
    "| " + Join(ColumnNames[..n], " | ") + " |"
  }

  /** The separator line: the dash runs between bars (`|----|------|…|`). */
  function SeparatorRow(n: nat): string
    requires n <= 10
  {
    "|" + Join(DashRuns(n), "|") + "|"
  }

  function Header(layout: Layout): string {
    HeaderRow(ColumnCount(layout))
  }

  function Separator(layout: Layout): string {
    SeparatorRow(ColumnCount(layout))
  }

  /** The check mark that opens the footer. */
  const Check: char := '\U{2705}'

  function Footer(count: nat, location: string): string {
    [Check] + " " + NatToString(count) + " agricultural vendors found in " + location + "."
  }

  /** `v.lat?.toFixed(5) || ''`: empty for a null coordinate; `toFixed` never gives "". */
  function CoordCell(c: Option<Coord>): string {
    match c
    case None => ""
    case Some(x) => x.fixed5
  }

  /** The cells of the row for `v` numbered `id`, in column order. */
  function Cells(id: nat, v: Vendor, layout: Layout): (r: seq<string>)
    ensures |r| == if layout == WithSourceUrl then 10 else 9
  {
    [NatToString(id), v.name, v.kind, CoordCell(v.lat), CoordCell(v.lon), v.address, v.phone, v.website, v.gstId]
    + (if layout == WithSourceUrl then [v.sourceUrl] else [])
  }

  /** A row: the cells between `| ` and ` |`, separated by ` | `. */
  function Row(id: nat, v: Vendor, layout: Layout): string {
    "| " + Join(Cells(id, v, layout), " | ") + " |"
  }

  /** `vendors.map((v, i) => row)`: row `i` carries the number `i + 1`. */
  function Rows(vs: seq<Vendor>, layout: Layout): (r: seq<string>)
    ensures |r| == |vs|
    ensures forall i :: 0 <= i < |vs| ==> r[i] == Row(i + 1, vs[i], layout)
  {
    seq(|vs|, i requires 0 <= i < |vs| => Row(i + 1, vs[i], layout))
  }

  /** The `header` constant of `formatVendorsTable`: title, blank line, column names, separator. */
  function HeaderBlock(location: string, layout: Layout): string {
    Title(location) + "\n\n" + Header(layout) + "\n" + Separator(layout)
  }

  /** `formatVendorsTable(location, vendors)` of the scraper variants. */
  function FormatVendorsTable(location: string, vs: seq<Vendor>, layout: Layout): string {
    HeaderBlock(location, layout) + "\n" + Join(Rows(vs, layout), "\n") + "\n\n" + Footer(|vs|, location)
  }

  /** The text fields a row shows: none may hold a line break for the table to keep one row per line. */
  predicate SingleLine(v: Vendor) {
    '\n' !in v.name && '\n' !in v.kind && '\n' !in v.address && '\n' !in v.phone
    && '\n' !in v.website && '\n' !in v.gstId && '\n' !in v.sourceUrl
    && (v.lat.Some? ==> '\n' !in v.lat.value.fixed5) && (v.lon.Some? ==> '\n' !in v.lon.value.fixed5)
  }

  lemma NatToStringSingleLine(n: nat)
    ensures '\n' !in NatToString(n)
  {
    var s := NatToString(n);
    assert forall k :: 0 <= k < |s| ==> IsDigit(s[k]);
  }

  lemma RowSingleLine(id: nat, v: Vendor, layout: Layout)
    requires SingleLine(v)
    ensures '\n' !in Row(id, v, layout)
  {
    NatToStringSingleLine(id);
    var cells := Cells(id, v, layout);
    assert forall k :: 0 <= k < |cells| ==> '\n' !in cells[k];
    JoinAbsent(cells, " | ", '\n');
  }

  /** The lines of the table: the lines of a join of single lines are those lines. */
  function TableLines(location: string, vs: seq<Vendor>, layout: Layout): seq<string> {
    [Title(location), "", Header(layout), Separator(layout)]
    + (if vs == [] then [""] else Rows(vs, layout))
    + ["", Footer(|vs|, location)]
  }

  lemma JoinFour(a: string, b: string, c: string, d: string, sep: string)
    ensures Join([a, b, c, d], sep) == a + sep + b + sep + c + sep + d
  {
    JoinCons(c, [d], sep);
    assert [b, c, d] == [b] + [c, d];
    JoinCons(b, [c, d], sep);
    assert [a, b, c, d] == [a] + [b, c, d];
    JoinCons(a, [b, c, d], sep);
  }

  lemma JoinThree(a: seq<string>, b: seq<string>, c: seq<string>, sep: string)
    requires |a| >= 1 && |b| >= 1 && |c| >= 1
    ensures Join(a + b + c, sep) == Join(a, sep) + sep + Join(b, sep) + sep + Join(c, sep)
  {
    JoinConcat(a, b, sep);
    JoinConcat(a + b, c, sep);
  }

  lemma HeaderShape(t: string, h: string, s: string)
    ensures t + "\n\n" + h + "\n" + s == Join([t, "", h, s], "\n")
  {
    JoinFour(t, "", h, s, "\n");
  }

  lemma HeaderBlockIsJoin(location: string, layout: Layout)
    ensures HeaderBlock(location, layout)
         == Join([Title(location), "", Header(layout), Separator(layout)], "\n")
  {
    HeaderShape(Title(location), Header(layout), Separator(layout));
  }

  lemma TableShape(head: seq<string>, body: seq<string>, f: string, rows: string)
    requires |head| >= 1 && |body| >= 1 && rows == Join(body, "\n")
    ensures Join(head, "\n") + "\n" + rows + "\n\n" + f == Join(head + body + ["", f], "\n")
  {
    JoinCons("", [f], "\n");
    JoinThree(head, body, ["", f], "\n");
  }

  lemma TableIsJoin(location: string, vs: seq<Vendor>, layout: Layout)
    ensures FormatVendorsTable(location, vs, layout) == Join(TableLines(location, vs, layout), "\n")
  {
    var head := [Title(location), "", Header(layout), Separator(layout)];
    var body := if vs == [] then [""] else Rows(vs, layout);
    HeaderBlockIsJoin(location, layout);
    TableShape(head, body, Footer(|vs|, location), Join(Rows(vs, layout), "\n"));
  }

  lemma HeaderSingleLine(n: nat)
    requires n <= 10
    ensures '\n' !in HeaderRow(n) && '\n' !in SeparatorRow(n)
  {
    var names := ColumnNames[..n];
    assert forall k :: 0 <= k < n ==> '\n' !in names[k] by {
      assert forall k :: 0 <= k < 10 ==> '\n' !in ColumnNames[k];
    }
    JoinAbsent(names, " | ", '\n');
    JoinAbsent(DashRuns(n), "|", '\n');
  }

  lemma FooterSingleLine(count: nat, location: string)
    requires '\n' !in location
    ensures '\n' !in Footer(count, location)
  {
    NatToStringSingleLine(count);
  }

  /** Read back line by line, the table is the title, a blank line, header, separator, one row per
    * vendor numbered 1..n in list order (a single blank line in their place when there are none), a
    * blank line and the footer with the count. */
  lemma HeadLinesSingle(location: string, layout: Layout)
    requires '\n' !in location
    ensures NoneHolds([Title(location), "", Header(layout), Separator(layout)], '\n')
  {
    TitleSingleLine(location);
    HeaderSingleLine(ColumnCount(layout));
  }

  lemma BodyLinesSingle(vs: seq<Vendor>, layout: Layout)
    requires forall i :: 0 <= i < |vs| ==> SingleLine(vs[i])
    ensures NoneHolds(if vs == [] then [""] else Rows(vs, layout), '\n')
  {
    if vs != [] {
      var rows := Rows(vs, layout);
      forall k | 0 <= k < |rows| ensures '\n' !in rows[k] {
        RowSingleLine(k + 1, vs[k], layout);
      }
    }
  }

  lemma TailLinesSingle(count: nat, location: string)
    requires '\n' !in location
    ensures NoneHolds(["", Footer(count, location)], '\n')
  {
    FooterSingleLine(count, location);
  }

  lemma TableLinesSpec(location: string, vs: seq<Vendor>, layout: Layout)
    requires '\n' !in location
    requires forall i :: 0 <= i < |vs| ==> SingleLine(vs[i])
    ensures Split(FormatVendorsTable(location, vs, layout), '\n') == TableLines(location, vs, layout)
  {
    HeadLinesSingle(location, layout);
    BodyLinesSingle(vs, layout);
    TailLinesSingle(|vs|, location);
    NoneHoldsThree([Title(location), "", Header(layout), Separator(layout)],
      if vs == [] then [""] else Rows(vs, layout), ["", Footer(|vs|, location)], '\n');
    TableIsJoin(location, vs, layout);
    JoinSplit(TableLines(location, vs, layout), '\n');
  }

  /** Four line-free pieces in front of the rest of a text are its first four lines. */
  lemma SplitTwo(a: string, b: string, rest: string)
    requires '\n' !in a && '\n' !in b
    ensures Split(a + ['\n'] + (b + ['\n'] + rest), '\n') == [a, b] + Split(rest, '\n')
  {
    SplitCons(b, '\n', rest);
    SplitCons(a, '\n', b + ['\n'] + rest);
  }

  lemma SplitFour(a: string, b: string, c: string, d: string, rest: string)
    requires '\n' !in a && '\n' !in b && '\n' !in c && '\n' !in d
    ensures Split(a + ['\n'] + (b + ['\n'] + (c + ['\n'] + (d + ['\n'] + rest))), '\n')
         == [a, b] + ([c, d] + Split(rest, '\n'))
  {
    SplitTwo(c, d, rest);
    SplitTwo(a, b, c + ['\n'] + (d + ['\n'] + rest));
  }

  /** A text laid out as `formatVendorsTable` lays it out opens with the title, a blank line, the
    * header and the separator when these hold no line break. */
  lemma OpeningLines(text: string, block: string, t: string, h: string, s: string, rows: string, f: string)
    requires block == t + "\n\n" + h + "\n" + s
    requires text == block + "\n" + rows + "\n\n" + f
    requires '\n' !in t && '\n' !in h && '\n' !in s
    ensures var lines := Split(text, '\n');
      |lines| > 4 && lines[..4] == [t, "", h, s]
  {
    var rest := rows + "\n\n" + f;
    assert text == t + ['\n'] + ("" + ['\n'] + (h + ['\n'] + (s + ['\n'] + rest)));
    SplitFour(t, "", h, s, rest);
    assert ([t, "", h, s] + Split(rest, '\n'))[..4] == [t, "", h, s];
  }

  /** The first four lines of the table are the title, a blank line, the header and the
    * separator, whatever the vendors hold, provided the location has no line break. */
  lemma TableOpening(location: string, vs: seq<Vendor>, layout: Layout)
    requires '\n' !in location
    ensures var lines := Split(FormatVendorsTable(location, vs, layout), '\n');
      |lines| > 4 && lines[..4] == [Title(location), "", Header(layout), Separator(layout)]
  {
    TitleSingleLine(location);
    HeaderSingleLine(ColumnCount(layout));
    OpeningLines(FormatVendorsTable(location, vs, layout), HeaderBlock(location, layout),
                 Title(location), Header(layout), Separator(layout),
                 Join(Rows(vs, layout), "\n"), Footer(|vs|, location));
  }

  /** A location with a line break splits the title in two, so that line 3 of the table is the
    * header and line 4 the separator. */
  lemma BrokenOpeningLines(text: string, block: string, t: string, b: string, h: string, s: string,
                           rows: string, f: string)
    requires block == t + "\n" + b + "\n\n" + h + "\n" + s
    requires text == block + "\n" + rows + "\n\n" + f
    requires '\n' !in t && '\n' !in b && '\n' !in h && '\n' !in s
    ensures var lines := Split(text, '\n');
      |lines| > 5 && lines[3] == h && lines[4] == s
  {
    var rest := rows + "\n\n" + f;
    assert text == t + ['\n'] + (b + ['\n'] + ("" + ['\n'] + (h + ['\n'] + (s + ['\n'] + rest))));
    SplitFour(t, b, "", h, s + ['\n'] + rest);
    SplitCons(s, '\n', rest);
  }

  /** With one line break in the location, line 3 of the table is the column-name line and line 4
    * the separator, whatever the vendors hold. */
  lemma BrokenTableOpening(before: string, after: string, vs: seq<Vendor>, layout: Layout)
    requires '\n' !in before && '\n' !in after
    ensures var lines := Split(FormatVendorsTable(before + "\n" + after, vs, layout), '\n');
      |lines| > 5 && lines[3] == Header(layout) && lines[4] == Separator(layout)
  {
    var location := before + "\n" + after;
    TitleSingleLine(before);
    HeaderSingleLine(ColumnCount(layout));
    assert Title(location) == Title(before) + "\n" + after;
    BrokenOpeningLines(FormatVendorsTable(location, vs, layout), HeaderBlock(location, layout),
                       Title(before), after, Header(layout), Separator(layout),
                       Join(Rows(vs, layout), "\n"), Footer(|vs|, location));
  }

  lemma TitleSingleLine(location: string)
    requires '\n' !in location
    ensures '\n' !in Title(location)
  {
  }

  // ---------------------------------------------------------------------------------------
  // Reading a row back
  // ---------------------------------------------------------------------------------------

  /** A cell with one space on each side, as the row puts it between two bars. */
  function Padded(cells: seq<string>): (r: seq<string>)
    ensures |r| == |cells|
    ensures forall k :: 0 <= k < |cells| ==> r[k] == " " + cells[k] + " "
  {
    seq(|cells|, k requires 0 <= k < |cells| => " " + cells[k] + " ")
  }

  lemma {:induction false} PaddedJoin(cells: seq<string>)
    requires |cells| >= 1
    ensures " " + Join(cells, " | ") + " " == Join(Padded(cells), "|")
    decreases |cells|
  {
    if |cells| > 1 {
      PaddedJoin(cells[1..]);
      assert Padded(cells[1..]) == Padded(cells)[1..];
    }
  }

  /** A row is its padded cells between bars. */
  lemma PaddedIsJoin(cells: seq<string>)
    requires |cells| >= 1
    ensures "| " + Join(cells, " | ") + " |" == Join([""] + Padded(cells) + [""], "|")
  {
    var padded := Padded(cells);
    PaddedJoin(cells);
    JoinConcat([""], padded, "|");
    JoinConcat([""] + padded, [""], "|");
    assert Join([""], "|") == "";
    BarsAround(Join(cells, " | "));
  }

  lemma BarsAround(x: string)
    ensures "| " + x + " |" == "" + "|" + (" " + x + " ") + "|" + ""
  {
  }

  /** Trimming a trimmed cell with a space on each side gives the cell back. */
  lemma TrimPadded(c: string)
    requires IsTrimmed(c)
    ensures Trim(" " + c + " ") == c
  {
    var q := c + " ";
    assert " " + c + " " == " " + q;
    TrimStartSpace(q);
    if c == [] {
      TrimStartSpace("");
      assert q == " " + "";
    } else {
      assert q[0] == c[0];
      assert TrimStart(q) == q;
      TrimEndSpace(c);
    }
  }

  /** The cells a table reader recovers from a row: split at the bars and trim. */
  function TrimAll(parts: seq<string>): (r: seq<string>)
    ensures |r| == |parts|
    ensures forall k :: 0 <= k < |parts| ==> r[k] == Trim(parts[k])
  {
    seq(|parts|, k requires 0 <= k < |parts| => Trim(parts[k]))
  }

  /** A cell the reader gets back intact: no bar, no line break, no white space at either end. */
  predicate CleanCell(c: string) {
    '|' !in c && '\n' !in c && IsTrimmed(c)
  }

  /** Trimming the parts of padded clean cells between bars recovers the cells. */
  lemma TrimPaddedAll(cells: seq<string>)
    requires forall k :: 0 <= k < |cells| ==> IsTrimmed(cells[k])
    ensures TrimAll([""] + Padded(cells) + [""]) == [""] + cells + [""]
  {
    var parts := [""] + Padded(cells) + [""];
    var want := [""] + cells + [""];
    var got := TrimAll(parts);
    forall k | 0 <= k < |parts| ensures got[k] == want[k] {
      if k == 0 || k == |parts| - 1 {
        assert parts[k] == "" && want[k] == "";
        assert IsTrimmed("");
      } else {
        assert parts[k] == " " + cells[k - 1] + " " && want[k] == cells[k - 1];
        TrimPadded(cells[k - 1]);
      }
    }
  }

  /** Clean cells laid out as a row, between `| ` and ` |` and separated by ` | `, are read back
    * framed by two empty parts. */
  lemma PaddedReadBack(cells: seq<string>)
    requires |cells| >= 1
    requires forall k :: 0 <= k < |cells| ==> CleanCell(cells[k])
    ensures TrimAll(Split("| " + Join(cells, " | ") + " |", '|')) == [""] + cells + [""]
  {
    var parts := [""] + Padded(cells) + [""];
    PaddedIsJoin(cells);
    PaddedBarFree(cells);
    JoinSplit(parts, '|');
    TrimPaddedAll(cells);
  }

  lemma PaddedBarFree(cells: seq<string>)
    requires forall k :: 0 <= k < |cells| ==> CleanCell(cells[k])
    ensures NoneHolds([""] + Padded(cells) + [""], '|')
  {
    var parts := [""] + Padded(cells) + [""];
    forall k | 0 <= k < |parts| ensures '|' !in parts[k] {
      if 0 < k < |parts| - 1 {
        assert parts[k] == " " + cells[k - 1] + " ";
      }
    }
  }

  /** The ten-column header line is read back as the column names. */
  lemma HeaderReadBack()
    ensures TrimAll(Split(Header(WithSourceUrl), '|')) == [""] + ColumnNames + [""]
  {
    assert ColumnNames[..10] == ColumnNames;
    forall k | 0 <= k < 10 ensures CleanCell(ColumnNames[k]) {
      NameClean(ColumnNames[k]);
    }
    PaddedReadBack(ColumnNames);
  }

  /** A column name is clean: it opens and closes with a letter and holds no bar or line break. */
  lemma NameClean(name: string)
    requires name in ColumnNames
    ensures CleanCell(name)
  {
    LetterEndsTrimmed(name);
  }

  lemma LetterEndsTrimmed(c: string)
    requires |c| >= 1 && 'A' <= c[0] <= 'z' && 'A' <= c[|c| - 1] <= 'z'
    ensures IsTrimmed(c)
  {
  }

  /** Splitting a row at the bars and trimming each part recovers its cells, framed by the empty
    * parts before the first bar and after the last. */
  lemma RowReadBack(id: nat, v: Vendor, layout: Layout)
    requires forall k :: 0 <= k < |Cells(id, v, layout)| ==> CleanCell(Cells(id, v, layout)[k])
    ensures TrimAll(Split(Row(id, v, layout), '|')) == [""] + Cells(id, v, layout) + [""]
  {
    PaddedReadBack(Cells(id, v, layout));
  }
}

/**
 * Field extraction on a scraped listing: the selector fallback chains
 * (`await a || await b || sentinel` inside `try`), and the Google Maps details parser that
 * separates phone numbers from the address text and cleans the address up.
 */
module Extract {
  import opened Wrappers
  import opened JsString

  // ---------------------------------------------------------------------------------------
  // Selector fallback chains
  // ---------------------------------------------------------------------------------------

  /** What `element.$eval(selector, …)` finds: no element (the call throws) or the first
    * matching element, seen through the raw string the callback reads from it. */
  datatype Lookup = NoMatch | Match(raw: string)

  /** `$eval(sel, el => el.textContent.trim())`: `None` stands for the exception. */
  function TextOf(l: Lookup): (r: Option<string>)
    ensures l.NoMatch? <==> r.None?
    ensures r.Some? ==> IsTrimmed(r.value)
  {
    match l
    case NoMatch => None
    case Match(raw) => Some(Trim(raw))
  }

  /** `$eval(sel, el => el.href)`: the attribute is taken as it is, not trimmed; an element without
    * an `href` property reads as "". */
  function HrefOf(l: Lookup): (r: Option<string>)
    ensures l.NoMatch? <==> r.None?
    ensures l.Match? ==> r == Some(l.raw)
  {
    match l
    case NoMatch => None
    case Match(raw) => Some(raw)
  }

  /** `try { x = await first || await second || sentinel } catch { x = sentinel }`. `None` is a
    * lookup that throws; a throw in either lookup lands in the `catch`. */
  function Fallback(first: Option<string>, second: Option<string>, sentinel: string): (r: string)
    ensures first.None? ==> r == sentinel
    ensures first.Some? && first.value != "" ==> r == first.value
    ensures first == Some("") ==> r == (if second.Some? && second.value != "" then second.value else sentinel)
    ensures r == sentinel || first == Some(r) || (first == Some("") && second == Some(r))
    ensures r == "" ==> sentinel == ""
  {
    match first
    case None => sentinel
    case Some(a) =>
      if a != "" then a
      else match second
        case None => sentinel
        case Some(b) => if b != "" then b else sentinel
  }

  // ---------------------------------------------------------------------------------------
  // Regular-expression matches
  // ---------------------------------------------------------------------------------------

  /** The half-open range `[start, end)` of one match. */
  datatype Span = Span(start: nat, end: nat)

  /** The matches a global regular expression with no empty match finds, left to right: each
    * non-empty, inside the subject, and after the previous one. */
  predicate ValidSpans(s: string, spans: seq<Span>) {
    (forall k :: 0 <= k < |spans| ==> spans[k].start < spans[k].end <= |s|)
    && (forall j, k :: 0 <= j < k < |spans| ==> spans[j].end <= spans[k].start)
  }

  /** A match finder for the phone-number expression. Which spans the expression picks is an
    * input; the code built around the matches is modelled exactly. */
  type PhoneMatcher = m: string -> seq<Span> | forall s :: ValidSpans(s, m(s)) witness (s: string) => []

  /** `s.match(re)` for a global `re` that matched: the matched substrings, in order. */
  function Matched(s: string, spans: seq<Span>): (r: seq<string>)
    requires ValidSpans(s, spans)
    ensures |r| == |spans|
    ensures forall k :: 0 <= k < |spans| ==> r[k] == s[spans[k].start..spans[k].end]
  {
    seq(|spans|, k requires 0 <= k < |spans| => s[spans[k].start..spans[k].end])
  }

  /** Dropping the first match keeps the rest valid. */
  lemma ValidSpansTail(s: string, spans: seq<Span>)
    requires ValidSpans(s, spans) && spans != []
    ensures ValidSpans(s, spans[1..])
  {
    forall j, k | 0 <= j < k < |spans| - 1 ensures spans[1..][j].end <= spans[1..][k].start {
      assert spans[1..][j] == spans[j + 1] && spans[1..][k] == spans[k + 1];
    }
  }

  /** `s.replace(re, '')` from position `from` on: the text between and after the matches. */
  function Outside(s: string, spans: seq<Span>, from: nat): (r: string)
    requires ValidSpans(s, spans)
    requires from <= |s|
    requires spans != [] ==> from <= spans[0].start
    ensures |r| <= |s| - from
    decreases |spans|
  {
    if spans == [] then s[from..]
    else
      ValidSpansTail(s, spans);
      s[from..spans[0].start] + Outside(s, spans[1..], spans[0].end)
  }

  /** Where gap `k` starts: at `from` for the first, after match `k - 1` for the others. */
  function GapStart(spans: seq<Span>, from: nat, k: nat): nat
    requires k <= |spans|
  {
    if k == 0 then from else spans[k - 1].end
  }

  /** Where gap `k` ends: before match `k`, or at the end of the text for the last. */
  function GapEnd(s: string, spans: seq<Span>, k: nat): nat
    requires k <= |spans|
  {
    if k == |spans| then |s| else spans[k].start
  }

  /** The pieces of `s[from..]` the matches leave: the text before the first match, between each
    * two consecutive matches, and after the last. */
  function Gaps(s: string, spans: seq<Span>, from: nat): (r: seq<string>)
    requires ValidSpans(s, spans)
    requires from <= |s|
    requires spans != [] ==> from <= spans[0].start
    ensures |r| == |spans| + 1
    ensures forall k :: 0 <= k <= |spans| ==> r[k] == s[GapStart(spans, from, k)..GapEnd(s, spans, k)]
  {
    seq(|spans| + 1, k requires 0 <= k <= |spans| =>
      assert 0 < k < |spans| ==> spans[k - 1].end <= spans[k].start;
      s[GapStart(spans, from, k)..GapEnd(s, spans, k)])
  }

  /** The gaps after the first are the gaps of the remaining matches. */
  lemma GapsTail(s: string, spans: seq<Span>, from: nat)
    requires ValidSpans(s, spans)
    requires from <= |s|
    requires spans != []
    requires from <= spans[0].start
    ensures ValidSpans(s, spans[1..])
    ensures Gaps(s, spans, from) == [s[from..spans[0].start]] + Gaps(s, spans[1..], spans[0].end)
  {
    ValidSpansTail(s, spans);
    var g := Gaps(s, spans, from);
    var h := Gaps(s, spans[1..], spans[0].end);
    forall k | 0 <= k < |h| ensures g[k + 1] == h[k] {
      if k > 0 {
        assert spans[1..][k - 1] == spans[k];
      }
      if k < |spans| - 1 {
        assert spans[1..][k] == spans[k + 1];
      }
    }
    assert g == [g[0]] + g[1..];
  }

  /** The pieces one after the other. */
  function Flatten(pieces: seq<string>): string
    decreases |pieces|
  {
    if pieces == [] then [] else pieces[0] + Flatten(pieces[1..])
  }

  /** The gaps with the matches put back between them. */
  function Weave(gaps: seq<string>, matches: seq<string>): string
    requires |gaps| == |matches| + 1
    decreases |matches|
  {
    if matches == [] then gaps[0] else gaps[0] + matches[0] + Weave(gaps[1..], matches[1..])
  }

  lemma MatchedTail(s: string, spans: seq<Span>)
    requires ValidSpans(s, spans) && spans != []
    ensures ValidSpans(s, spans[1..])
    ensures Matched(s, spans) == [s[spans[0].start..spans[0].end]] + Matched(s, spans[1..])
  {
    ValidSpansTail(s, spans);
    assert Matched(s, spans)[1..] == Matched(s, spans[1..]) by {
      forall k | 0 <= k < |spans| - 1 ensures Matched(s, spans)[1..][k] == Matched(s, spans[1..])[k] {
        assert spans[1..][k] == spans[k + 1];
      }
    }
  }

  /** The matches and the gaps between them make up the text again. */
  lemma {:induction false} WeaveGaps(s: string, spans: seq<Span>, from: nat)
    requires ValidSpans(s, spans)
    requires from <= |s|
    requires spans != [] ==> from <= spans[0].start
    ensures Weave(Gaps(s, spans, from), Matched(s, spans)) == s[from..]
    decreases |spans|
  {
    if spans != [] {
      MatchedTail(s, spans);
      GapsTail(s, spans, from);
      WeaveGaps(s, spans[1..], spans[0].end);
      assert s[from..] == s[from..spans[0].start] + s[spans[0].start..spans[0].end] + s[spans[0].end..];
    }
  }

  /** The replacement leaves exactly the gaps, in order. */
  lemma {:induction false} FlattenGaps(s: string, spans: seq<Span>, from: nat)
    requires ValidSpans(s, spans)
    requires from <= |s|
    requires spans != [] ==> from <= spans[0].start
    ensures Flatten(Gaps(s, spans, from)) == Outside(s, spans, from)
    decreases |spans|
  {
    if spans != [] {
      GapsTail(s, spans, from);
      FlattenGaps(s, spans[1..], spans[0].end);
    }
  }

  // ---------------------------------------------------------------------------------------
  // Address clean-up
  // ---------------------------------------------------------------------------------------

  /** The length of the white-space run at the front of `s`. */
  function SpaceRun(s: string): (k: nat)
    ensures k <= |s|
    ensures forall j :: 0 <= j < k ==> IsSpace(s[j])
    ensures k == |s| || !IsSpace(s[k])
  {
    if s != [] && IsSpace(s[0]) then 1 + SpaceRun(s[1..]) else 0
  }

  /** `s.replace(/\s+/g, ' ')`: every white-space run becomes one space. */
  function CollapseSpaces(s: string): (r: string)
    ensures r == [] <==> s == []
    ensures s != [] && !IsSpace(s[0]) ==> r[0] == s[0]
    ensures forall k :: 0 <= k < |r| && IsSpace(r[k]) ==> r[k] == ' '
    ensures forall k :: 0 <= k < |r| - 1 ==> !(IsSpace(r[k]) && IsSpace(r[k + 1]))
    decreases |s|
  {
    if s == [] then []
    else if IsSpace(s[0]) then " " + CollapseSpaces(s[SpaceRun(s)..])
    else [s[0]] + CollapseSpaces(s[1..])
  }

  /** The non-white-space characters of `s`, in order. */
  function NonBlank(s: string): string {
    if s == [] then [] else (if IsSpace(s[0]) then [] else [s[0]]) + NonBlank(s[1..])
  }

  lemma {:induction false} NonBlankConcat(a: string, b: string)
    ensures NonBlank(a + b) == NonBlank(a) + NonBlank(b)
    decreases |a|
  {
    if a == [] {
      assert a + b == b;
    } else {
      assert (a + b)[0] == a[0] && (a + b)[1..] == a[1..] + b;
      NonBlankConcat(a[1..], b);
    }
  }

  lemma {:induction false} NonBlankOfSpaces(s: string)
    requires forall k :: 0 <= k < |s| ==> IsSpace(s[k])
    ensures NonBlank(s) == []
    decreases |s|
  {
    if s != [] {
      NonBlankOfSpaces(s[1..]);
    }
  }

  /** Collapsing white space keeps every other character, in order. */
  lemma {:induction false} CollapseKeepsText(s: string)
    ensures NonBlank(CollapseSpaces(s)) == NonBlank(s)
    decreases |s|
  {
    if s != [] {
      if IsSpace(s[0]) {
        var k := SpaceRun(s);
        CollapseKeepsText(s[k..]);
        NonBlankConcat(" ", CollapseSpaces(s[k..]));
        assert s == s[..k] + s[k..];
        NonBlankConcat(s[..k], s[k..]);
        NonBlankOfSpaces(s[..k]);
      } else {
        CollapseKeepsText(s[1..]);
        NonBlankConcat([s[0]], CollapseSpaces(s[1..]));
      }
    }
  }

  lemma TrimStartKeepsText(s: string)
    ensures NonBlank(TrimStart(s)) == NonBlank(s)
  {
    var t := TrimStart(s);
    var d := |s| - |t|;
    var spaces := s[..d];
    assert t == s[d..];
    assert s == spaces + t;
    NonBlankConcat(spaces, t);
    NonBlankOfSpaces(spaces);
  }

  lemma TrimEndKeepsText(s: string)
    ensures NonBlank(TrimEnd(s)) == NonBlank(s)
  {
    var u := TrimEnd(s);
    assert s == u + s[|u|..];
    NonBlankConcat(u, s[|u|..]);
    NonBlankOfSpaces(s[|u|..]);
  }

  /** `trim` keeps every non-white-space character, in order. */
  lemma TrimKeepsText(s: string)
    ensures NonBlank(Trim(s)) == NonBlank(s)
  {
    TrimStartKeepsText(s);
    TrimEndKeepsText(TrimStart(s));
  }

  /** The middle dot Google Maps puts between fields. */
  const MiddleDot: char := '\U{00B7}'

  /** `s.replace(/·/g, '')`. */
  function RemoveMiddleDots(s: string): (r: string)
    ensures MiddleDot !in r
  {
    if s == [] then []
    else (if s[0] == MiddleDot then [] else [s[0]]) + RemoveMiddleDots(s[1..])
  }

  // `s.replace(/\s*\.\s*/g, ', ')`: a period together with the white space on both sides. At a
  // position the expression matches exactly when the white-space run there ends in a period.
  function ReplacePeriods(s: string): (r: string)
    ensures '.' !in r
    decreases |s|
  {
    if s == [] then []
    else
      var k := SpaceRun(s);
      if k < |s| && s[k] == '.' then
        var rest := s[k + 1..];
        ", " + ReplacePeriods(rest[SpaceRun(rest)..])
      else
        [s[0]] + ReplacePeriods(s[1..])
  }

  /** The period replacement brings in nothing but commas and spaces. */
  lemma {:induction false} ReplacePeriodsAbsent(s: string, c: char)
    requires c !in s && c != ',' && c != ' '
    ensures c !in ReplacePeriods(s)
    decreases |s|
  {
    if s != [] {
      var k := SpaceRun(s);
      if k < |s| && s[k] == '.' {
        var rest := s[k + 1..];
        var j := SpaceRun(rest);
        var tail := rest[j..];
        forall x | 0 <= x < |tail| ensures tail[x] != c {
          assert tail[x] == s[k + 1 + j + x];
        }
        ReplacePeriodsAbsent(tail, c);
        var r := ReplacePeriods(tail);
        assert ReplacePeriods(s) == ", " + r;
        AbsentConcat(", ", r, c);
      } else {
        var r := ReplacePeriods(s[1..]);
        assert s[0] in s;
        ReplacePeriodsAbsent(s[1..], c);
        assert ReplacePeriods(s) == [s[0]] + r;
        AbsentConcat([s[0]], r, c);
      }
    }
  }

  // ---------------------------------------------------------------------------------------
  // The Google Maps details parser
  // ---------------------------------------------------------------------------------------

  /** The address and phone fields parsed out of a listing's details text. */
  datatype Details = Details(address: string, phone: string)

  /** Middle dots removed, then each period with its surrounding white space turned into ", ". */
  function StripMarks(s: string): (r: string)
    ensures '.' !in r && MiddleDot !in r
  {
    ReplacePeriodsAbsent(RemoveMiddleDots(s), MiddleDot);
    ReplacePeriods(RemoveMiddleDots(s))
  }

  /** The address left once the phone matches are cut out of the details text: white space
    * collapsed and trimmed, marks stripped, trimmed again. */
  function CleanAddress(rest: string): (r: string)
    ensures IsTrimmed(r)
    ensures '.' !in r && MiddleDot !in r
  {
    var stripped := StripMarks(Trim(CollapseSpaces(rest)));
    TrimAbsent(stripped, '.');
    TrimAbsent(stripped, MiddleDot);
    Trim(stripped)
  }

  /** The parse of the details text `blob` given the phone matches `spans` found in it. Empty
    * details leave the defaults; without a phone match the phone stays empty and the address is the
    * text with its white space collapsed and trimmed; with matches the phone is the matches joined
    * by ", " and the address is the cleaned text left between the matches (see `WeaveGaps`). */
  function ParseDetails(blob: string, spans: seq<Span>): (r: Details)
    requires ValidSpans(blob, spans)
    ensures blob == "" ==> r == Details("N/A", "")
    ensures IsTrimmed(r.address)
    ensures blob != "" && spans == [] ==>
      && r.phone == ""
      && r.address == Trim(CollapseSpaces(blob))
      && NonBlank(r.address) == NonBlank(blob)
    ensures blob != "" && spans != [] ==>
      && r.phone == Join(Matched(blob, spans), ", ")
      && blob[spans[0].start..spans[0].end] <= r.phone
      && r.address == CleanAddress(Flatten(Gaps(blob, spans, 0)))
      && '.' !in r.address && MiddleDot !in r.address
  {
    if blob == "" then Details("N/A", "")
    else if spans == [] then
      TrimKeepsText(CollapseSpaces(blob));
      CollapseKeepsText(blob);
      Details(Trim(CollapseSpaces(blob)), "")
    else
      var ms := Matched(blob, spans);
      JoinHead(ms, ", ");
      FlattenGaps(blob, spans, 0);
      Details(CleanAddress(Outside(blob, spans, 0)), Join(ms, ", "))
  }

  /** An empty phone field means no match, and a match always leaves a non-empty phone field. */
  lemma PhoneFoundIff(blob: string, spans: seq<Span>)
    requires ValidSpans(blob, spans) && blob != ""
    ensures ParseDetails(blob, spans).phone == "" <==> spans == []
  {
  }

  lemma TrimUnchanged(s: string)
    requires s != [] && !IsSpace(s[0]) && !IsSpace(s[|s| - 1])
    ensures Trim(s) == s
  {
  }

  /** A string whose white space is single ordinary spaces collapses to itself. */
  lemma {:induction false} CollapseNoRuns(s: string)
    requires forall k :: 0 <= k < |s| && IsSpace(s[k]) ==> s[k] == ' '
    requires forall k :: 0 <= k < |s| - 1 ==> !(IsSpace(s[k]) && IsSpace(s[k + 1]))
    ensures CollapseSpaces(s) == s
    decreases |s|
  {
    if s != [] {
      if IsSpace(s[0]) {
        assert SpaceRun(s) == 1 by {
          assert |s| == 1 || !IsSpace(s[1]);
          assert SpaceRun(s) == 1 + SpaceRun(s[1..]);
        }
      }
      CollapseNoRuns(s[1..]);
    }
  }

  lemma {:induction false} RemoveMiddleDotsConcat(a: string, b: string)
    ensures RemoveMiddleDots(a + b) == RemoveMiddleDots(a) + RemoveMiddleDots(b)
    decreases |a|
  {
    if a == [] {
      assert a + b == b;
    } else {
      assert (a + b)[0] == a[0] && (a + b)[1..] == a[1..] + b;
      RemoveMiddleDotsConcat(a[1..], b);
    }
  }

  lemma {:induction false} RemoveMiddleDotsNone(s: string)
    requires MiddleDot !in s
    ensures RemoveMiddleDots(s) == s
    decreases |s|
  {
    if s != [] {
      RemoveMiddleDotsNone(s[1..]);
    }
  }

  lemma {:induction false} ReplacePeriodsNone(s: string)
    requires '.' !in s
    ensures ReplacePeriods(s) == s
    decreases |s|
  {
    if s != [] {
      var k := SpaceRun(s);
      assert !(k < |s| && s[k] == '.');
      ReplacePeriodsNone(s[1..]);
    }
  }
}

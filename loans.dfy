/**
 * The loan-scheme scraper: three source pages, whose elements become scheme records when their
 * text is long enough, mentions a loan word and yields an amount, a rate or an application
 * hint; at most fifteen records in all, and three fixed schemes when nothing was found.
 *
 * The three extractors each try an ordered list of regular expressions and return the first
 * match of the first expression that matches anywhere. Each expression is written out below as
 * a matcher at a given start position with the semantics of the backtracking engine: every
 * quantifier in these expressions is greedy and is followed by something its own characters
 * cannot begin, so the longest run is the only one that can lead to a match; the one exception,
 * `[^.!?]*` followed by a keyword, backs off to the last keyword before the first terminator.
 * The `i` flag compares ASCII letters without case; a non-ASCII character never folds to an
 * ASCII one in JavaScript's non-Unicode mode, so ASCII folding is exact for these expressions.
 */
module Loans {
  import opened Wrappers
  import opened JsString

  // ---------------------------------------------------------------------------------------
  // Matching building blocks
  // ---------------------------------------------------------------------------------------

  /** `\d`, `[\d,]`, `\s` and `[^.!?]`. */
  datatype CharClass = Digit | DigitOrComma | Space | NotTerminator

  predicate InClass(c: char, cls: CharClass) {
    match cls
    case Digit => IsDigit(c)
    case DigitOrComma => IsDigit(c) || c == ','
    case Space => IsSpace(c)
    case NotTerminator => c !in {'.', '!', '?'}
  }

  /** `[A-Za-z]`. */
  predicate AsciiLetter(c: char) {
    'a' <= c <= 'z' || 'A' <= c <= 'Z'
  }

  /** The end of the longest run of `cls` characters starting at `i`. */
  function RunEnd(t: string, i: nat, cls: CharClass): (e: nat)
    requires i <= |t|
    ensures i <= e <= |t|
    ensures forall k :: i <= k < e ==> InClass(t[k], cls)
    ensures e == |t| || !InClass(t[e], cls)
    decreases |t| - i
  {
    if i < |t| && InClass(t[i], cls) then RunEnd(t, i + 1, cls) else i
  }

  /** The text `w` occurs at `j`; with `fold` its ASCII letters are compared without case (`w` is
    * written in lower case). */
  predicate WordAt(t: string, j: nat, w: string, fold: bool) {
    j + |w| <= |t| && (if fold then ToLower(t[j..j + |w|]) == w else t[j..j + |w|] == w)
  }

  // A partial match is the position it has reached, or None once it failed.

  /** A literal text. */
  function Word(t: string, at: Option<nat>, w: string, fold: bool): (r: Option<nat>)
    ensures r.Some? ==> at.Some? && r.value == at.value + |w| <= |t| && WordAt(t, at.value, w, fold)
  {
    if at.Some? && WordAt(t, at.value, w, fold) then Some(at.value + |w|) else None
  }

  /** `c*` for a class `c`. */
  function Run(t: string, at: Option<nat>, cls: CharClass): (r: Option<nat>)
    ensures r.Some? ==> at.Some? && at.value <= r.value <= |t|
  {
    if at.Some? && at.value <= |t| then Some(RunEnd(t, at.value, cls)) else None
  }

  /** `c+` for a class `c`. */
  function Run1(t: string, at: Option<nat>, cls: CharClass): (r: Option<nat>)
    ensures r.Some? ==> at.Some? && at.value < r.value <= |t|
  {
    var r := Run(t, at, cls);
    if r.Some? && r.value > at.value then r else None
  }

  /** The first alternative that succeeds; `(?:g)?` is `Else(g, at)`. */
  function Else(first: Option<nat>, otherwise: Option<nat>): Option<nat> {
    if first.Some? then first else otherwise
  }

  /** `\d+(?:\.\d+)?`. The fraction is taken whenever a point and a digit follow; in every
    * expression below a point could not continue the match either. */
  function Number(t: string, at: Option<nat>): (r: Option<nat>)
    ensures r.Some? ==> at.Some? && at.value < r.value <= |t|
  {
    var whole := Run1(t, at, Digit);
    Else(Run1(t, Word(t, whole, ".", false), Digit), whole)
  }

  /** `(?:\s*-\s*`, the separator of a range. */
  function Dash(t: string, at: Option<nat>): (r: Option<nat>)
    ensures r.Some? ==> at.Some? && at.value < r.value <= |t|
  {
    Run(t, Word(t, Run(t, at, Space), "-", false), Space)
  }

  const Rupee := "\U{20B9}"

  // ---------------------------------------------------------------------------------------
  // The expressions
  // ---------------------------------------------------------------------------------------

  datatype Pattern =
    | RupeeAmount        // /₹[\d,]+(?:\s*-\s*₹[\d,]+)?/
    | RsAmount           // /Rs\.?\s*[\d,]+(?:\s*-\s*Rs\.?\s*[\d,]+)?/
    | WordAmount         // /[\d,]+(?:\s*-\s*[\d,]+)?\s*(?:rupees|lakh|crore)/i
    | UpToRupee          // /up\s*to\s*₹[\d,]+/i
    | MaximumRupee       // /maximum\s*₹[\d,]+/i
    | PercentRate        // /\d+(?:\.\d+)?%\s*(?:-\s*\d+(?:\.\d+)?%)?/
    | PercentWordRate    // /\d+(?:\.\d+)?\s*percent(?:\s*-\s*\d+(?:\.\d+)?\s*percent)?/i
    | InterestRateColon  // /interest\s*rate\s*:\s*\d+(?:\.\d+)?%/i
    | ApplyThrough       // /(?:apply|application)\s*(?:through|at|via)\s*[^.!?]*/i
    | VisitBank          // /(?:visit|contact)\s*[^.!?]*(?:bank|branch|portal)/i
    | OnlineApplication  // /(?:online|offline)\s*application/i

  /** `₹[\d,]+`. */
  function RupeeNumber(t: string, at: Option<nat>): (r: Option<nat>)
    ensures r.Some? ==> at.Some? && at.value < r.value <= |t|
  {
    Run1(t, Word(t, at, Rupee, false), DigitOrComma)
  }

  /** `Rs\.?\s*[\d,]+`. */
  function RsNumber(t: string, at: Option<nat>): (r: Option<nat>)
    ensures r.Some? ==> at.Some? && at.value < r.value <= |t|
  {
    var rs := Word(t, at, "Rs", false);
    Run1(t, Run(t, Else(Word(t, rs, ".", false), rs), Space), DigitOrComma)
  }

  /** `\s*(?:rupees|lakh|crore)` without case. */
  function AmountUnit(t: string, at: Option<nat>): (r: Option<nat>)
    ensures r.Some? ==> at.Some? && at.value < r.value <= |t|
  {
    var w := Run(t, at, Space);
    Else(Word(t, w, "rupees", true), Else(Word(t, w, "lakh", true), Word(t, w, "crore", true)))
  }

  /** `\s*percent` without case. */
  function PercentWord(t: string, at: Option<nat>): (r: Option<nat>)
    ensures r.Some? ==> at.Some? && at.value < r.value <= |t|
  {
    Word(t, Run(t, at, Space), "percent", true)
  }

  /** `bank|branch|portal` without case. */
  function Keyword(t: string, at: Option<nat>): (r: Option<nat>)
    ensures r.Some? ==> at.Some? && at.value < r.value <= |t|
  {
    Else(Word(t, at, "bank", true), Else(Word(t, at, "branch", true), Word(t, at, "portal", true)))
  }

  /** `[^.!?]*(?:bank|branch|portal)` from `lo`, the run ending at `stop` (the first terminator
    * or the end): the keyword at the last position `p <= stop` where one occurs. */
  function LastKeyword(t: string, lo: nat, p: nat): (r: Option<nat>)
    requires lo <= p <= |t|
    ensures r.Some? ==> lo < r.value <= |t|
    decreases p - lo
  {
    var k := Keyword(t, Some(p));
    if k.Some? then k else if p == lo then None else LastKeyword(t, lo, p - 1)
  }

  function RupeeAmountAt(t: string, i: nat): (r: Option<nat>)
    ensures r.Some? ==> i < r.value <= |t|
  {
    var a := RupeeNumber(t, Some(i));
    Else(RupeeNumber(t, Dash(t, a)), a)
  }

  function RsAmountAt(t: string, i: nat): (r: Option<nat>)
    ensures r.Some? ==> i < r.value <= |t|
  {
    var a := RsNumber(t, Some(i));
    Else(RsNumber(t, Dash(t, a)), a)
  }

  function WordAmountAt(t: string, i: nat): (r: Option<nat>)
    ensures r.Some? ==> i < r.value <= |t|
  {
    var a := Run1(t, Some(i), DigitOrComma);
    Else(AmountUnit(t, Run1(t, Dash(t, a), DigitOrComma)), AmountUnit(t, a))
  }

  function UpToRupeeAt(t: string, i: nat): (r: Option<nat>)
    ensures r.Some? ==> i < r.value <= |t|
  {
    var to := Word(t, Run(t, Word(t, Some(i), "up", true), Space), "to", true);
    RupeeNumber(t, Run(t, to, Space))
  }

  function MaximumRupeeAt(t: string, i: nat): (r: Option<nat>)
    ensures r.Some? ==> i < r.value <= |t|
  {
    RupeeNumber(t, Run(t, Word(t, Some(i), "maximum", true), Space))
  }

  function PercentRateAt(t: string, i: nat): (r: Option<nat>)
    ensures r.Some? ==> i < r.value <= |t|
  {
    var a := Run(t, Word(t, Number(t, Some(i)), "%", false), Space);
    Else(Word(t, Number(t, Run(t, Word(t, a, "-", false), Space)), "%", false), a)
  }

  function PercentWordRateAt(t: string, i: nat): (r: Option<nat>)
    ensures r.Some? ==> i < r.value <= |t|
  {
    var a := PercentWord(t, Number(t, Some(i)));
    Else(PercentWord(t, Number(t, Dash(t, a))), a)
  }

  function InterestRateColonAt(t: string, i: nat): (r: Option<nat>)
    ensures r.Some? ==> i < r.value <= |t|
  {
    var rate := Word(t, Run(t, Word(t, Some(i), "interest", true), Space), "rate", true);
    Word(t, Number(t, Run(t, Word(t, Run(t, rate, Space), ":", false), Space)), "%", false)
  }

  /** `apply` or `application`, without case. */
  function ApplyWord(t: string, i: nat): (r: Option<nat>)
    ensures r.Some? ==> i < r.value <= |t| && AsciiLetter(t[i])
  {
    var r := Else(Word(t, Some(i), "apply", true), Word(t, Some(i), "application", true));
    if r.Some? && Word(t, Some(i), "apply", true).Some? then WordStart(t, i, "apply"); r
    else if r.Some? then WordStart(t, i, "application"); r
    else r
  }

  /** `visit` or `contact`, without case. */
  function VisitWord(t: string, i: nat): (r: Option<nat>)
    ensures r.Some? ==> i < r.value <= |t| && AsciiLetter(t[i])
  {
    var r := Else(Word(t, Some(i), "visit", true), Word(t, Some(i), "contact", true));
    if r.Some? && Word(t, Some(i), "visit", true).Some? then WordStart(t, i, "visit"); r
    else if r.Some? then WordStart(t, i, "contact"); r
    else r
  }

  /** `online` or `offline`, without case. */
  function OnlineWord(t: string, i: nat): (r: Option<nat>)
    ensures r.Some? ==> i < r.value <= |t| && AsciiLetter(t[i])
  {
    var r := Else(Word(t, Some(i), "online", true), Word(t, Some(i), "offline", true));
    if r.Some? && Word(t, Some(i), "online", true).Some? then WordStart(t, i, "online"); r
    else if r.Some? then WordStart(t, i, "offline"); r
    else r
  }

  function ApplyThroughAt(t: string, i: nat): (r: Option<nat>)
    ensures r.Some? ==> i < r.value <= |t| && AsciiLetter(t[i])
  {
    var v := Run(t, ApplyWord(t, i), Space);
    var w := Else(Word(t, v, "through", true), Else(Word(t, v, "at", true), Word(t, v, "via", true)));
    Run(t, Run(t, w, Space), NotTerminator)
  }

  function VisitBankAt(t: string, i: nat): (r: Option<nat>)
    ensures r.Some? ==> i < r.value <= |t| && AsciiLetter(t[i])
  {
    var v := Run(t, VisitWord(t, i), Space);
    if v.None? then None else LastKeyword(t, v.value, RunEnd(t, v.value, NotTerminator))
  }

  function OnlineApplicationAt(t: string, i: nat): (r: Option<nat>)
    ensures r.Some? ==> i < r.value <= |t| && AsciiLetter(t[i])
  {
    Word(t, Run(t, OnlineWord(t, i), Space), "application", true)
  }

  /** Where a match of `p` starting at `i` ends, or None. Every match takes at least one
    * character, and a match of an application expression starts with an ASCII letter. */
  function MatchAt(p: Pattern, t: string, i: nat): (r: Option<nat>)
    ensures r.Some? ==> i < r.value <= |t|
    ensures r.Some? && p in {ApplyThrough, VisitBank, OnlineApplication} ==> AsciiLetter(t[i])
  {
    match p
    case RupeeAmount => RupeeAmountAt(t, i)
    case RsAmount => RsAmountAt(t, i)
    case WordAmount => WordAmountAt(t, i)
    case UpToRupee => UpToRupeeAt(t, i)
    case MaximumRupee => MaximumRupeeAt(t, i)
    case PercentRate => PercentRateAt(t, i)
    case PercentWordRate => PercentWordRateAt(t, i)
    case InterestRateColon => InterestRateColonAt(t, i)
    case ApplyThrough => ApplyThroughAt(t, i)
    case VisitBank => VisitBankAt(t, i)
    case OnlineApplication => OnlineApplicationAt(t, i)
  }

  /** The first start position from `i` on at which `m` matches, with the end of that match. */
  function Leftmost(m: nat -> Option<nat>, n: nat, i: nat): (r: Option<(nat, nat)>)
    ensures r.Some? ==> i <= r.value.0 <= n && m(r.value.0) == Some(r.value.1)
    ensures r.Some? ==> forall j :: i <= j < r.value.0 ==> m(j).None?
    ensures r.None? ==> forall j :: i <= j <= n ==> m(j).None?
    decreases n + 1 - i
  {
    if i > n then None
    else if m(i).Some? then Some((i, m(i).value))
    else Leftmost(m, n, i + 1)
  }

  function Matcher(p: Pattern, t: string): nat -> Option<nat> {
    i => MatchAt(p, t, i)
  }

  /** `text.match(pattern)`: the leftmost match, as text. */
  function Search(p: Pattern, t: string): (r: Option<string>)
    ensures r.Some? ==> r.value != ""
    ensures r.Some? && p in {ApplyThrough, VisitBank, OnlineApplication} ==> AsciiLetter(r.value[0])
  {
    match Leftmost(Matcher(p, t), |t|, 0)
    case None => None
    case Some(se) => Some(t[se.0..se.1])
  }

  /** The first find of the first pattern in `ps` that finds anything, `search` saying what
    * each pattern finds: the `for … of patterns` loop with its early return. */
  function FirstFound<P>(search: P -> Option<string>, ps: seq<P>): (r: Option<string>)
    ensures r.None? <==> forall k :: 0 <= k < |ps| ==> search(ps[k]).None?
    ensures r.Some? ==> exists k :: (0 <= k < |ps| && search(ps[k]) == r
                                     && forall j :: 0 <= j < k ==> search(ps[j]).None?)
    decreases |ps|
  {
    if ps == [] then None
    else match search(ps[0])
      case Some(m) => Some(m)
      case None =>
        var r := FirstFound(search, ps[1..]);
        assert forall k :: 1 <= k < |ps| ==> ps[k] == ps[1..][k - 1];
        r
  }

  function Searcher(t: string): Pattern -> Option<string> {
    p => Search(p, t)
  }

  const AmountPatterns: seq<Pattern> := [RupeeAmount, RsAmount, WordAmount, UpToRupee, MaximumRupee]

  const RatePatterns: seq<Pattern> := [PercentRate, PercentWordRate, InterestRateColon]

  const ApplyPatterns: seq<Pattern> := [ApplyThrough, VisitBank, OnlineApplication]

  /** `extractLoanAmount(text)`. */
  function ExtractLoanAmount(t: string): Option<string> {
    FirstFound(Searcher(t), AmountPatterns)
  }

  /** `extractInterestRate(text)`. */
  function ExtractInterestRate(t: string): Option<string> {
    FirstFound(Searcher(t), RatePatterns)
  }

  /** `extractApplyProcess(text)`: the match, trimmed. */
  function ExtractApplyProcess(t: string): Option<string> {
    match FirstFound(Searcher(t), ApplyPatterns)
    case None => None
    case Some(m) => Some(Trim(m))
  }

  // ---------------------------------------------------------------------------------------
  // Properties of the extractors
  // ---------------------------------------------------------------------------------------

  /** A literal that starts with a letter, found without case, starts at a letter of either
    * case. */
  lemma WordStart(t: string, i: nat, w: string)
    requires w != [] && 'a' <= w[0] <= 'z' && WordAt(t, i, w, true)
    ensures i < |t| && AsciiLetter(t[i])
  {
    assert ToLower(t[i..i + |w|])[0] == LowerChar(t[i]);
  }

  /** Trimming a text that starts with a letter leaves it non-empty. */
  lemma TrimKeepsStart(m: string)
    requires m != [] && AsciiLetter(m[0])
    ensures Trim(m) != ""
  {
    assert TrimStart(m) == m;
  }

  /** The extractors return either nothing or a non-empty text, so `||` on their results is the
    * same as asking whether any found something. The amount and the rate are the first match of
    * the first expression that matches, in list order. */
  lemma ExtractorsSpec(t: string)
    ensures ExtractLoanAmount(t).Some? ==> ExtractLoanAmount(t).value != ""
    ensures ExtractInterestRate(t).Some? ==> ExtractInterestRate(t).value != ""
    ensures ExtractApplyProcess(t).Some? ==> ExtractApplyProcess(t).value != ""
  {
    ApplyProcessNonEmpty(t);
  }

  /** The trimmed application text is not empty, since its match starts with a letter. */
  lemma ApplyProcessNonEmpty(t: string)
    ensures ExtractApplyProcess(t).Some? ==> ExtractApplyProcess(t).value != ""
  {
    var a := FirstFound(Searcher(t), ApplyPatterns);
    if a.Some? {
      var k :| 0 <= k < |ApplyPatterns| && Searcher(t)(ApplyPatterns[k]) == a;
      assert Search(ApplyPatterns[k], t) == a;
      TrimKeepsStart(a.value);
    }
  }

  // ---------------------------------------------------------------------------------------
  // Elements and records
  // ---------------------------------------------------------------------------------------

  datatype Scheme = Scheme(scheme: string, crop: string, loanAmount: string, interestRate: string,
                           apply: string, description: string, source: string)

  datatype Source = Source(name: string, url: string, selector: string)

  const Sources: seq<Source> := [
    Source("NABARD", "https://www.nabard.org/content.aspx?id=28", ".content, p, li"),
    Source("RBI Agriculture Loans", "https://www.rbi.org.in/FinancialMarkets/FinancialMarkets.aspx", ".content, p, li"),
    Source("Ministry of Agriculture", "https://agricoop.nic.in/en/Major", ".content, p, li")]

  const MinTextLength: nat := 50
  const SchemeCap: nat := 15
  const NameLength: nat := 50
  const DescriptionLength: nat := 300

  /** JavaScript truthiness of an extractor result. */
  predicate Found(o: Option<string>) {
    o.Some? && o.value != ""
  }

  /** `found || fallback`. */
  function FoundOr(o: Option<string>, fallback: string): string {
    if Found(o) then o.value else fallback
  }

  /** The text is long enough (in UTF-16 code units) and mentions a loan word in some case. */
  predicate Relevant(text: string) {
    text != "" && Utf16Len(text) >= MinTextLength
    && (Contains(ToLower(text), "loan") || Contains(ToLower(text), "scheme")
        || Contains(ToLower(text), "credit") || Contains(ToLower(text), "finance"))
  }

  /** What the three extractors found in one text. */
  datatype Finds = Finds(amount: Option<string>, rate: Option<string>, apply: Option<string>)

  function FindsIn(text: string): Finds {
    Finds(ExtractLoanAmount(text), ExtractInterestRate(text), ExtractApplyProcess(text))
  }

  /** Every find is a non-empty text. */
  predicate NonEmptyFinds(f: Finds) {
    (f.amount.Some? ==> f.amount.value != "") && (f.rate.Some? ==> f.rate.value != "")
    && (f.apply.Some? ==> f.apply.value != "")
  }

  lemma FindsInNonEmpty(text: string)
    ensures NonEmptyFinds(FindsIn(text))
  {
    ExtractorsSpec(text);
  }

  /** The record pushed for a relevant element of source `name`, with placeholders for what the
    * extractors did not find. */
  function SchemeOf(name: string, text: string, f: Finds): Scheme {
    Scheme(name + " - " + Utf16Prefix(text, NameLength) + "...", "Groundnut",
           FoundOr(f.amount, "Contact bank for details"),
           FoundOr(f.rate, "Contact bank for details"),
           FoundOr(f.apply, "Visit bank branch or apply online"),
           Utf16Prefix(text, DescriptionLength) + "...", name)
  }

  /** The records a trimmed text with the given finds yields. */
  function Yield(name: string, text: string, f: Finds): seq<Scheme> {
    if Relevant(text) && (Found(f.amount) || Found(f.rate) || Found(f.apply)) then [SchemeOf(name, text, f)] else []
  }

  /** What one element of source `name`, with raw text `raw`, contributes. */
  function ElementSchemes(name: string, raw: string): seq<Scheme> {
    Yield(name, Trim(raw), FindsIn(Trim(raw)))
  }

  function SchemeStep(name: string): string -> seq<Scheme> {
    raw => ElementSchemes(name, raw)
  }

  /** The record built from a text: the title is the source name, ` - `, the first 50 code units
    * of the text and `...`; the description is the first 300 code units and `...`; each found
    * value is taken as found, and a value not found is replaced by its placeholder. */
  lemma SchemeOfSpec(name: string, text: string, f: Finds)
    ensures var s := SchemeOf(name, text, f);
      && StartsWith(s.scheme, name + " - ") && s.scheme[|name| + 3..] == Utf16Prefix(text, NameLength) + "..."
      && s.description == Utf16Prefix(text, DescriptionLength) + "..."
      && s.crop == "Groundnut" && s.source == name
      && (Found(f.amount) ==> s.loanAmount == f.amount.value)
      && (!Found(f.amount) ==> s.loanAmount == "Contact bank for details")
      && (Found(f.rate) ==> s.interestRate == f.rate.value)
      && (!Found(f.rate) ==> s.interestRate == "Contact bank for details")
      && (Found(f.apply) ==> s.apply == f.apply.value)
      && (!Found(f.apply) ==> s.apply == "Visit bank branch or apply online")
  {
    var s := SchemeOf(name, text, f);
    assert s.scheme[..|name + " - "|] == name + " - ";
  }

  /** A text yields at most one record, one exactly when it is relevant and something was found,
    * and that record is built as the scraper builds it. */
  lemma YieldSpec(name: string, text: string, f: Finds)
    requires NonEmptyFinds(f)
    ensures |Yield(name, text, f)| <= 1
    ensures Yield(name, text, f) != [] <==> Relevant(text) && (f.amount.Some? || f.rate.Some? || f.apply.Some?)
    ensures Yield(name, text, f) != [] ==> WellFormed(Yield(name, text, f)[0], name)
  {
    SchemeOfSpec(name, text, f);
  }

  /** An element yields at most one record, and one exactly when its trimmed text is relevant and
    * some extractor finds something. The record names its source, is for groundnut, and starts
    * its title with the source name; no field is empty. */
  lemma ElementSchemesSpec(name: string, raw: string)
    ensures |ElementSchemes(name, raw)| <= 1
    ensures var text := Trim(raw);
      ElementSchemes(name, raw) != [] <==>
        Relevant(text) && (ExtractLoanAmount(text).Some? || ExtractInterestRate(text).Some? || ExtractApplyProcess(text).Some?)
    ensures ElementSchemes(name, raw) != [] ==> WellFormed(ElementSchemes(name, raw)[0], name)
  {
    FindsInNonEmpty(Trim(raw));
    YieldSpec(name, Trim(raw), FindsIn(Trim(raw)));
  }

  /** A record of source `name` as the scraper builds it. */
  predicate WellFormed(s: Scheme, name: string) {
    s.source == name && s.crop == "Groundnut" && StartsWith(s.scheme, name + " - ")
    && s.loanAmount != "" && s.interestRate != "" && s.apply != "" && s.description != ""
  }

  // ---------------------------------------------------------------------------------------
  // The capped collection
  // ---------------------------------------------------------------------------------------

  /** `xs.each(x => { if (results.length >= cap) return; … push what f(x) yields })` onto `acc`. */
  function Capped<A, B>(f: A -> seq<B>, cap: nat, xs: seq<A>, acc: seq<B>): seq<B>
    decreases |xs|
  {
    if xs == [] then acc
    else
      var before := Capped(f, cap, xs[..|xs| - 1], acc);
      if |before| >= cap then before else before + f(xs[|xs| - 1])
  }

  /** When each element yields at most one value, the collection only appends to `acc` and
    * never grows past the cap (or past `acc` when that is already longer). */
  lemma {:induction false} CappedSpec<A, B>(f: A -> seq<B>, cap: nat, xs: seq<A>, acc: seq<B>)
    requires forall x :: |f(x)| <= 1
    ensures acc <= Capped(f, cap, xs, acc)
    ensures |Capped(f, cap, xs, acc)| <= Max(|acc|, cap)
    ensures |acc| >= cap ==> Capped(f, cap, xs, acc) == acc
    decreases |xs|
  {
    if xs != [] {
      CappedSpec(f, cap, xs[..|xs| - 1], acc);
    }
  }

  /** What is appended satisfies what every element's values satisfy. */
  lemma {:induction false} CappedAll<A, B>(f: A -> seq<B>, cap: nat, xs: seq<A>, acc: seq<B>, ok: B -> bool)
    requires forall x :: forall k :: 0 <= k < |f(x)| ==> ok(f(x)[k])
    requires forall k :: 0 <= k < |acc| ==> ok(acc[k])
    ensures forall k :: 0 <= k < |Capped(f, cap, xs, acc)| ==> ok(Capped(f, cap, xs, acc)[k])
    decreases |xs|
  {
    if xs != [] {
      var before := Capped(f, cap, xs[..|xs| - 1], acc);
      CappedAll(f, cap, xs[..|xs| - 1], acc, ok);
      if |before| < cap {
        var last := f(xs[|xs| - 1]);
        forall k | 0 <= k < |before + last| ensures ok((before + last)[k]) {
          if k >= |before| {
            assert (before + last)[k] == last[k - |before|];
          }
        }
      }
    }
  }

  /** The `each` loop over one page's elements, with the cap checked before each. */
  method CappedLoop<A, B>(f: A -> seq<B>, cap: nat, xs: seq<A>, start: seq<B>) returns (results: seq<B>)
    ensures results == Capped(f, cap, xs, start)
  {
    results := start;
    var i := 0;
    while i < |xs|
      invariant i <= |xs|
      invariant results == Capped(f, cap, xs[..i], start)
    {
      assert xs[..i + 1][..i] == xs[..i];
      if |results| < cap {
        results := results + f(xs[i]);
      }
      i := i + 1;
    }
    assert xs[..i] == xs;
  }

  /** The records collected from `sources`, in order; a source whose page load threw (`None`)
    * adds nothing and the loop goes on. */
  function FromSources(sources: seq<Source>, load: string -> Option<seq<string>>): seq<Scheme>
    decreases |sources|
  {
    if sources == [] then []
    else
      var before := FromSources(sources[..|sources| - 1], load);
      var s := sources[|sources| - 1];
      match load(s.url)
      case None => before
      case Some(texts) => Capped(SchemeStep(s.name), SchemeCap, texts, before)
  }

  /** The loop over the sources. */
  method ScrapeSources(sources: seq<Source>, load: string -> Option<seq<string>>) returns (results: seq<Scheme>)
    ensures results == FromSources(sources, load)
  {
    results := [];
    var i := 0;
    while i < |sources|
      invariant i <= |sources|
      invariant results == FromSources(sources[..i], load)
    {
      assert sources[..i + 1][..i] == sources[..i];
      var page := load(sources[i].url);
      if page.Some? {
        results := CappedLoop(SchemeStep(sources[i].name), SchemeCap, page.value, results);
      }
      i := i + 1;
    }
    assert sources[..i] == sources;
  }

  /** Every record comes from one of the sources and is built as the scraper builds it. */
  predicate FromSome(s: Scheme, sources: seq<Source>) {
    exists k :: 0 <= k < |sources| && WellFormed(s, sources[k].name)
  }

  lemma SchemeStepSpec(name: string, sources: seq<Source>, k: nat)
    requires k < |sources| && sources[k].name == name
    ensures forall raw :: |SchemeStep(name)(raw)| <= 1
    ensures forall raw :: forall j :: 0 <= j < |SchemeStep(name)(raw)| ==> FromSome(SchemeStep(name)(raw)[j], sources)
  {
    forall raw ensures |SchemeStep(name)(raw)| <= 1 && forall j :: 0 <= j < |SchemeStep(name)(raw)| ==> FromSome(SchemeStep(name)(raw)[j], sources) {
      ElementFromSome(name, raw, sources, k);
    }
  }

  lemma ElementFromSome(name: string, raw: string, sources: seq<Source>, k: nat)
    requires k < |sources| && sources[k].name == name
    ensures |SchemeStep(name)(raw)| <= 1
    ensures forall j :: 0 <= j < |SchemeStep(name)(raw)| ==> FromSome(SchemeStep(name)(raw)[j], sources)
  {
    var r := ElementSchemes(name, raw);
    assert SchemeStep(name)(raw) == r;
    ElementSchemesSpec(name, raw);
    if r != [] {
      assert WellFormed(r[0], sources[k].name);
    }
  }

  /** Across all sources at most fifteen records are collected, each one built from an element
    * of one of the sources. */
  lemma {:induction false} FromSourcesSpec(sources: seq<Source>, load: string -> Option<seq<string>>)
    ensures |FromSources(sources, load)| <= SchemeCap
    ensures forall k :: 0 <= k < |FromSources(sources, load)| ==> FromSome(FromSources(sources, load)[k], sources)
    decreases |sources|
  {
    if sources != [] {
      var init := sources[..|sources| - 1];
      var s := sources[|sources| - 1];
      var before := FromSources(init, load);
      FromSourcesSpec(init, load);
      forall k | 0 <= k < |before| ensures FromSome(before[k], sources) {
        var j :| 0 <= j < |init| && WellFormed(before[k], init[j].name);
        assert init[j] == sources[j];
      }
      if load(s.url).Some? {
        SchemeStepSpec(s.name, sources, |sources| - 1);
        CappedSpec(SchemeStep(s.name), SchemeCap, load(s.url).value, before);
        CappedAll(SchemeStep(s.name), SchemeCap, load(s.url).value, before, (x: Scheme) => FromSome(x, sources));
      }
    }
  }

  // ---------------------------------------------------------------------------------------
  // scrapeLoanSchemes
  // ---------------------------------------------------------------------------------------

  const DefaultSchemes: seq<Scheme> := [
    Scheme("Kisan Credit Card Scheme", "Groundnut", "\U{20B9}50,000 - \U{20B9}3,00,000", "4% - 7%",
           "Apply at cooperative banks or RBI authorized banks",
           "Kisan Credit Card scheme provides timely and adequate credit to farmers for their cultivation needs.",
           "Government of India"),
    Scheme("Agriculture Infrastructure Fund", "Groundnut", "\U{20B9}2,00,000 - \U{20B9}10,00,000", "7% - 9%",
           "Apply through NABARD portal or bank branches",
           "AIF provides medium to long-term debt financing for investment in viable projects for post-harvest management.",
           "NABARD"),
    Scheme("PM Kisan Samman Nidhi", "Groundnut", "\U{20B9}1,00,000 - \U{20B9}6,00,000", "6% - 8%",
           "Apply through PM Kisan portal or bank branches",
           "PM-KISAN provides income support to all landholding farmers' families across the country.",
           "Government of India")]

  /** The records collected from `sources`, or the defaults when there are none. */
  function WithDefaults(collected: seq<Scheme>): seq<Scheme> {
    if collected == [] then DefaultSchemes else collected
  }

  /** What `scrapeLoanSchemes()` writes to `bank_loans.json`; `None` when the browser did not
    * start and nothing is written. */
  function LoanSchemes(launched: bool, load: string -> Option<seq<string>>): Option<seq<Scheme>> {
    if !launched then None else Some(WithDefaults(FromSources(Sources, load)))
  }

  method ScrapeLoanSchemes(launched: bool, load: string -> Option<seq<string>>) returns (saved: Option<seq<Scheme>>)
    ensures saved == LoanSchemes(launched, load)
  {
    if !launched {
      return None;
    }
    var results := ScrapeSources(Sources, load);
    results := AddDefaults(results);
    return Some(results);
  }

  /** `if (results.length === 0) results.push(...defaultSchemes)`. */
  method AddDefaults(collected: seq<Scheme>) returns (results: seq<Scheme>)
    ensures results == WithDefaults(collected)
  {
    results := collected;
    if |results| == 0 {
      results := results + DefaultSchemes;
    }
  }

  /** The defaults replace an empty result and nothing else. */
  lemma WithDefaultsSpec(collected: seq<Scheme>)
    ensures 1 <= |WithDefaults(collected)|
    ensures collected == [] ==> WithDefaults(collected) == DefaultSchemes && |DefaultSchemes| == 3
    ensures collected != [] ==> WithDefaults(collected) == collected
  {
  }

  /** The saved file: never empty, at most fifteen records, each a scraped record of one of the
    * three sources unless the file holds exactly the three defaults. */
  lemma LoanSchemesSpec(launched: bool, load: string -> Option<seq<string>>)
    ensures LoanSchemes(launched, load).None? <==> !launched
    ensures var r := LoanSchemes(launched, load);
      r.Some? ==> (1 <= |r.value| <= SchemeCap
                   && (r.value == DefaultSchemes || forall k :: 0 <= k < |r.value| ==> FromSome(r.value[k], Sources)))
  {
    FromSourcesSpec(Sources, load);
  }
}

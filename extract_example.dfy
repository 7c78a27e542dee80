/** The details text the source's comments use as their example, parsed step by step. */
module DetailsExample {
  import opened JsString
  import opened Extract

  /** The listing the source's comments use as their example of a details text. */
  const ExampleDetails := "099482 74748 \U{00B7} 12 Market Road, Kakinada"

  /** The first phone alternative matches there with its optional country-code group empty:
    * `\d{3}` "099", `\d{3}` "482", a space, `\d{4}` "7474". */
  const ExampleSpans := [Span(0, 11)]

  /** What is left of the example once the match is cut out, and that text's pieces. */
  const ExampleRest := "8 \U{00B7} 12 Market Road, Kakinada"
  const ExampleHead := "8 "
  const ExampleTail := " 12 Market Road, Kakinada"
  const ExampleAddressText := "8  12 Market Road, Kakinada"

  lemma ExampleOutside()
    ensures Outside(ExampleDetails, ExampleSpans, 0) == ExampleRest
  {
    assert ExampleDetails[0..0] + ExampleDetails[11..] == ExampleRest;
  }

  lemma ExampleCollapse()
    ensures CollapseSpaces(ExampleRest) == ExampleRest
  {
    CollapseNoRuns(ExampleRest);
  }

  lemma ExampleSplit()
    ensures ExampleRest == ExampleHead + ([MiddleDot] + ExampleTail)
  {
  }

  lemma ExampleJoin()
    ensures ExampleHead + ExampleTail == ExampleAddressText
  {
  }

  lemma ExampleTailPlain()
    ensures RemoveMiddleDots(ExampleTail) == ExampleTail
  {
    RemoveMiddleDotsNone(ExampleTail);
  }

  lemma ExampleHeadPlain()
    ensures RemoveMiddleDots(ExampleHead) == ExampleHead
  {
    RemoveMiddleDotsNone(ExampleHead);
  }

  lemma ExampleDotsTail()
    ensures RemoveMiddleDots([MiddleDot] + ExampleTail) == ExampleTail
  {
    RemoveMiddleDotsConcat([MiddleDot], ExampleTail);
    ExampleTailPlain();
  }

  lemma ExampleDots()
    ensures RemoveMiddleDots(ExampleRest) == ExampleAddressText
  {
    ExampleSplit();
    ExampleJoin();
    RemoveMiddleDotsConcat(ExampleHead, [MiddleDot] + ExampleTail);
    ExampleHeadPlain();
    ExampleDotsTail();
  }

  lemma ExampleRestTrimmed()
    ensures Trim(ExampleRest) == ExampleRest
  {
    TrimUnchanged(ExampleRest);
  }

  lemma ExampleAddressTrimmed()
    ensures Trim(ExampleAddressText) == ExampleAddressText
  {
    TrimUnchanged(ExampleAddressText);
  }

  lemma ExampleNoPeriods()
    ensures ReplacePeriods(ExampleAddressText) == ExampleAddressText
  {
    ReplacePeriodsNone(ExampleAddressText);
  }

  lemma ExampleAddress()
    ensures CleanAddress(Outside(ExampleDetails, ExampleSpans, 0)) == ExampleAddressText
  {
    ExampleOutside();
    ExampleCollapse();
    ExampleRestTrimmed();
    ExampleDots();
    ExampleNoPeriods();
    ExampleAddressTrimmed();
  }

  lemma ExampleValid()
    ensures ValidSpans(ExampleDetails, ExampleSpans)
  {
  }

  lemma ExampleMatched()
    ensures Matched(ExampleDetails, ExampleSpans) == [ExampleDetails[0..11]]
  {
    ExampleValid();
  }

  lemma ExampleFirstMatch()
    ensures ExampleDetails[0..11] == "099482 7474"
  {
  }

  lemma ExamplePhone()
    ensures Join(Matched(ExampleDetails, ExampleSpans), ", ") == "099482 7474"
  {
    ExampleMatched();
    ExampleFirstMatch();
  }

  /** The example parses into the phone "099482 7474" and the address "8  12 Market Road, Kakinada":
    * the last digit of the number stays in front of the address, and the spaces on both sides of the
    * removed middle dot survive because dots go after white space is collapsed. */
  lemma ExampleParse()
    ensures ParseDetails(ExampleDetails, ExampleSpans) == Details(ExampleAddressText, "099482 7474")
  {
    ExampleValid();
    ExampleAddress();
    ExamplePhone();
  }
}

/**
 * Two small pieces of the server's request handling: the required-field check shared by the
 * user-input, crop-analysis and recommended-crops routes together with the row the user-input
 * route inserts, and the rule that pads or cuts the AI's crop list to exactly five entries.
 */
module ServerMisc {

  // ---------------------------------------------------------------------------------------
  // Request fields
  // ---------------------------------------------------------------------------------------

  /** A query-string parameter: absent, or a string. */
  datatype Field = Absent | Text(text: string)

  /** JavaScript truthiness of a parameter: present and not the empty string. */
  predicate Truthy(f: Field) {
    f.Text? && f.text != ""
  }

  /** `f || fallback`. */
  function OrElse(f: Field, fallback: string): (r: string)
    ensures Truthy(f) ==> r == f.text
    ensures !Truthy(f) ==> r == fallback
  {
    if Truthy(f) then f.text else fallback
  }

  /** A field of a JSON request body: absent (or `null`), an integer, or a string. */
  datatype BodyField = Unset | Num(num: int) | Str(str: string)

  /** JavaScript truthiness of a body field: a non-zero number or a non-empty string. */
  predicate BodyTruthy(f: BodyField) {
    (f.Num? && f.num != 0) || (f.Str? && f.str != "")
  }

  /** `f || fallback` on a body field: the field itself when truthy, else the fallback string. */
  function BodyOrElse(f: BodyField, fallback: string): (r: BodyField)
    ensures BodyTruthy(f) ==> r == f
    ensures !BodyTruthy(f) ==> r == Str(fallback)
  {
    if BodyTruthy(f) then f else Str(fallback)
  }

  /** The body of `POST /api/user-inputs` (and the farm fields of the crop routes). */
  datatype UserInput = UserInput(userId: BodyField, location: BodyField, landSize: BodyField, landType: BodyField,
                                 landHealth: BodyField, season: BodyField, waterFacility: BodyField,
                                 duration: BodyField)

  /** `!location || !landSize || !landType || !season || !waterFacility || !duration` is false:
    * the six required fields are all truthy; user id and land health are optional. */
  predicate HasRequired(u: UserInput) {
    BodyTruthy(u.location) && BodyTruthy(u.landSize) && BodyTruthy(u.landType) && BodyTruthy(u.season)
    && BodyTruthy(u.waterFacility) && BodyTruthy(u.duration)
  }

  /** What the user-input route does with a body: a 400 refusal, or the eight values bound to
    * the row it inserts, in the order of the `INSERT` statement. */
  datatype Saved = MissingFields(status: nat) | Insert(values: seq<BodyField>)

  function SaveUserInput(u: UserInput): Saved {
    if !HasRequired(u) then MissingFields(400)
    else Insert([BodyOrElse(u.userId, "anonymous"), u.location, u.landSize, u.landType,
                 BodyOrElse(u.landHealth, ""), u.season, u.waterFacility, u.duration])
  }

  /** The row is written exactly when all six required fields are truthy (a land size of 0 or
    * "" is refused, "0" is not), and then holds them as they came in their columns; the user id
    * defaults to `anonymous` and land health to the empty string, so every value but land
    * health is truthy. */
  lemma SaveUserInputSpec(u: UserInput)
    ensures SaveUserInput(u).MissingFields? <==> !HasRequired(u)
    ensures SaveUserInput(u).MissingFields? ==> SaveUserInput(u).status == 400
    ensures u.landSize == Num(0) || u.landSize == Str("") ==> SaveUserInput(u).MissingFields?
    ensures var r := SaveUserInput(u);
      r.Insert? ==>
        && |r.values| == 8
        && r.values[1] == u.location && r.values[2] == u.landSize
        && r.values[3] == u.landType && r.values[5] == u.season
        && r.values[6] == u.waterFacility && r.values[7] == u.duration
        && (r.values[0] == Str("anonymous") <==> !BodyTruthy(u.userId) || u.userId == Str("anonymous"))
        && (BodyTruthy(u.landHealth) ==> r.values[4] == u.landHealth)
        && (!BodyTruthy(u.landHealth) ==> r.values[4] == Str(""))
        && (forall k :: 0 <= k < 8 && k != 4 ==> BodyTruthy(r.values[k]))
  {
  }

  // ---------------------------------------------------------------------------------------
  // Recommended crops
  // ---------------------------------------------------------------------------------------

  datatype Crop = Crop(name: string, reason: string)

  /** How the AI call ended: it threw, it returned something other than an array, or an array
    * of crops. */
  datatype AiOutcome = Threw | NotAnArray | CropArray(items: seq<Crop>)

  const CropCount: nat := 5

  /** The five fallback crops, in order. */
  const DefaultCrops: seq<Crop> := [
    Crop("Wheat", "Suitable for most regions and seasons"),
    Crop("Rice", "Good for areas with water availability"),
    Crop("Cotton", "Profitable cash crop for many regions"),
    Crop("Sugarcane", "High value crop with good returns"),
    Crop("Maize", "Versatile crop with multiple uses")]

  /** The list the padding rule produces from `crops`: its first five entries, followed by as
    * many defaults as are missing, each taken from the position it fills. */
  function Padded(crops: seq<Crop>): seq<Crop> {
    if |crops| >= CropCount then crops[..CropCount] else crops + DefaultCrops[|crops|..]
  }

  /** `while (crops.length < 5) crops.push(defaultCrops[crops.length]); crops = crops.slice(0, 5)`. */
  method PadCrops(result: seq<Crop>) returns (crops: seq<Crop>)
    ensures crops == Padded(result)
  {
    crops := result;
    if |crops| < CropCount {
      while |crops| < CropCount
        invariant |result| <= |crops| <= CropCount
        invariant crops == result + DefaultCrops[|result|..|crops|]
      {
        crops := crops + [DefaultCrops[|crops|]];
      }
    }
    crops := crops[..CropCount];
  }

  /** The crops the recommended-crops route answers with, once the required fields are present. */
  function RecommendedCrops(outcome: AiOutcome): seq<Crop> {
    match outcome
    case Threw => DefaultCrops
    case NotAnArray => Padded([])
    case CropArray(items) => Padded(items)
  }

  method RecommendCrops(outcome: AiOutcome) returns (crops: seq<Crop>)
    ensures crops == RecommendedCrops(outcome)
  {
    match outcome
    case Threw =>
      crops := DefaultCrops;
    case NotAnArray =>
      crops := PadCrops([]);
    case CropArray(items) =>
      crops := PadCrops(items);
  }

  /** Always exactly five crops: the AI's first (up to) five in order, then the defaults for the
    * positions still empty. */
  lemma PaddedSpec(crops: seq<Crop>)
    ensures |Padded(crops)| == CropCount
    ensures forall k :: 0 <= k < |crops| && k < CropCount ==> Padded(crops)[k] == crops[k]
    ensures forall k :: |crops| <= k < CropCount ==> Padded(crops)[k] == DefaultCrops[k]
  {
  }

  /** Padding a padded list changes nothing, and a list of exactly five is kept as it is. */
  lemma PaddedIdempotent(crops: seq<Crop>)
    ensures Padded(Padded(crops)) == Padded(crops)
    ensures |crops| == CropCount ==> Padded(crops) == crops
  {
    PaddedSpec(crops);
    assert Padded(crops)[..CropCount] == Padded(crops);
  }

  /** A failed call and a non-array answer both give the defaults; the answer is five crops
    * whatever the AI did. */
  lemma RecommendedCropsSpec(outcome: AiOutcome)
    ensures |RecommendedCrops(outcome)| == CropCount
    ensures !outcome.CropArray? ==> RecommendedCrops(outcome) == DefaultCrops
    ensures outcome.CropArray? ==> RecommendedCrops(outcome) == Padded(outcome.items)
  {
    assert DefaultCrops[0..] == DefaultCrops;
  }

  /** The recommended-crops route: a 400 when a required field is missing, otherwise the crops. */
  datatype CropsReply = CropsRefused(status: nat) | CropsAnswer(crops: seq<Crop>)

  function RecommendedCropsReply(u: UserInput, outcome: AiOutcome): CropsReply {
    if !HasRequired(u) then CropsRefused(400) else CropsAnswer(RecommendedCrops(outcome))
  }

  lemma RecommendedCropsReplySpec(u: UserInput, outcome: AiOutcome)
    ensures RecommendedCropsReply(u, outcome).CropsRefused? <==> !HasRequired(u)
    ensures RecommendedCropsReply(u, outcome).CropsAnswer? ==> |RecommendedCropsReply(u, outcome).crops| == CropCount
  {
    RecommendedCropsSpec(outcome);
  }
}

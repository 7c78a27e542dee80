/**
 * The server's read-only routes over the Punjab agriculture dataset: the fuzzy district lookup of
 * the government-organisations route, the search across all districts by kind, the exact
 * district lookup shared by the per-district routes, the district list, the district-name
 * search and the district summary. The dataset is a value that has already been read and
 * parsed; a read or parse failure (a 500 reply) is not modelled.
 */
module Punjab {
  import opened Wrappers
  import opened JsString
  import opened Lists
  import opened ServerMisc

  // ---------------------------------------------------------------------------------------
  // The dataset
  // ---------------------------------------------------------------------------------------

  datatype SoilLab = SoilLab(laboratoryName: string, location: string, contact: string, services: string)

  datatype Officer = Officer(officerName: string, role: string, contact: string, description: string)

  datatype Helpline = Helpline(contact: string, details: string)

  datatype District = District(district: string, soilTestingLaboratories: seq<SoilLab>,
                               agricultureOfficers: seq<Officer>, farmerSupportHelplines: seq<Helpline>,
                               tipsNotes: seq<string>)

  datatype Dataset = Dataset(districts: seq<District>, lastUpdated: string)

  /** The placeholder the dataset and the replies use for a missing value. */
  const NotAvailable := "Data not available"

  /** `a.toLowerCase().includes(b.toLowerCase())`: the case-insensitive substring test. */
  predicate Mentions(s: string, query: string) {
    Contains(ToLower(s), ToLower(query))
  }

  /** The names of the districts, in order (`districts.map(d => d.district)`). */
  function Names(ds: seq<District>): (r: seq<string>)
    ensures |r| == |ds| && forall k :: 0 <= k < |ds| ==> r[k] == ds[k].district
  {
    seq(|ds|, k requires 0 <= k < |ds| => ds[k].district)
  }

  // ---------------------------------------------------------------------------------------
  // GET /api/government-organizations
  // ---------------------------------------------------------------------------------------

  /** The `find` predicate: the lowercased district name equals the lowercased query, contains
    * it, or is contained in it. */
  function FuzzyMatch(query: string): District -> bool {
    (d: District) => ToLower(d.district) == query || Contains(ToLower(d.district), query) || Contains(query, ToLower(d.district))
  }

  /** The equality test is subsumed by the containment tests. */
  lemma FuzzyMatchByContainment(query: string, d: District)
    ensures FuzzyMatch(query)(d) <==> Contains(ToLower(d.district), query) || Contains(query, ToLower(d.district))
  {
    var n := ToLower(d.district);
    if n == query {
      assert StartsWith(n, query);
    }
  }

  predicate LabAvailable(lab: SoilLab) {
    lab.laboratoryName != NotAvailable
  }

  predicate OfficerAvailable(officer: Officer) {
    officer.officerName != NotAvailable
  }

  datatype GovReply =
    | GovRefused(status: nat)
    | GovNotFound(status: nat, availableDistricts: seq<string>, searchedFor: string)
    | GovFound(district: string, soilTestingLaboratories: seq<SoilLab>, agricultureOfficers: seq<Officer>,
               farmerSupportHelplines: seq<Helpline>, tipsNotes: seq<string>, lastUpdated: string,
               searchQuery: string)

  /** The reply for the query fields `location` and `district`: the district parameter wins when
    * both are given. */
  function GovernmentOrganizations(data: Dataset, location: Field, district: Field): GovReply {
    if !Truthy(location) && !Truthy(district) then GovRefused(400)
    else
      var searched := if Truthy(district) then district.text else location.text;
      match Find(FuzzyMatch(ToLower(searched)), data.districts)
      case None => GovNotFound(404, Names(data.districts), searched)
      case Some(i) =>
        var d := data.districts[i];
        GovFound(d.district, Filter(LabAvailable, d.soilTestingLaboratories),
                 Filter(OfficerAvailable, d.agricultureOfficers), d.farmerSupportHelplines, d.tipsNotes,
                 data.lastUpdated, searched)
  }

  /** A 400 exactly when neither parameter is given. Otherwise a 404 listing every district name
    * when no district matches, or the first matching district with exactly its available
    * laboratories and officers, its helplines and tips in full. */
  lemma GovernmentOrganizationsSpec(data: Dataset, location: Field, district: Field)
    ensures var r := GovernmentOrganizations(data, location, district);
      && (r.GovRefused? <==> !Truthy(location) && !Truthy(district))
      && (r.GovRefused? ==> r.status == 400)
      && (r.GovNotFound? ==> r.status == 404 && r.availableDistricts == Names(data.districts))
      && (r.GovNotFound? ==> forall j :: 0 <= j < |data.districts| ==> !FuzzyMatch(ToLower(r.searchedFor))(data.districts[j]))
      && (!r.GovRefused? && Truthy(district) ==> SearchedFor(r) == district.text)
      && (!r.GovRefused? && !Truthy(district) ==> SearchedFor(r) == location.text)
  {
  }

  /** The query text a non-refused reply reports. */
  function SearchedFor(r: GovReply): string
    requires !r.GovRefused?
  {
    if r.GovNotFound? then r.searchedFor else r.searchQuery
  }

  /** A found reply carries district `d`: its name, its laboratories and officers that are not
    * placeholders, in the district's order (the `filter` of each list), and its helplines and
    * tips in full. */
  ghost predicate CarriesDistrict(r: GovReply, d: District)
    requires r.GovFound?
  {
    && r.district == d.district
    && r.soilTestingLaboratories == Filter(LabAvailable, d.soilTestingLaboratories)
    && r.agricultureOfficers == Filter(OfficerAvailable, d.agricultureOfficers)
    && (forall lab :: lab in r.soilTestingLaboratories <==> lab in d.soilTestingLaboratories && LabAvailable(lab))
    && (forall o :: o in r.agricultureOfficers <==> o in d.agricultureOfficers && OfficerAvailable(o))
    && r.farmerSupportHelplines == d.farmerSupportHelplines
    && r.tipsNotes == d.tipsNotes
  }

  /** A found reply is the first district that matches, and carries that district. */
  lemma GovFoundSpec(data: Dataset, location: Field, district: Field)
    requires GovernmentOrganizations(data, location, district).GovFound?
    ensures var r := GovernmentOrganizations(data, location, district);
      exists i :: 0 <= i < |data.districts|
        && FuzzyMatch(ToLower(r.searchQuery))(data.districts[i])
        && (forall j :: 0 <= j < i ==> !FuzzyMatch(ToLower(r.searchQuery))(data.districts[j]))
        && CarriesDistrict(r, data.districts[i])
  {
    var searched := if Truthy(district) then district.text else location.text;
    var i :| Find(FuzzyMatch(ToLower(searched)), data.districts) == Some(i);
    FilterSpec(LabAvailable, data.districts[i].soilTestingLaboratories);
    FilterSpec(OfficerAvailable, data.districts[i].agricultureOfficers);
    assert CarriesDistrict(GovernmentOrganizations(data, location, district), data.districts[i]);
  }

  // ---------------------------------------------------------------------------------------
  // GET /api/government-organizations/search
  // ---------------------------------------------------------------------------------------

  /** Which lists the `type` parameter selects. */
  datatype Kinds = Kinds(labs: bool, officers: bool, helplines: bool)

  /** No type selects everything; `soil` or `lab` the laboratories, `officer` the officers,
    * `helpline` the helplines; any other type nothing. */
  function Selected(kind: Field): Kinds {
    if !Truthy(kind) then Kinds(true, true, true)
    else Kinds(kind.text in {"soil", "lab"}, kind.text in {"officer"}, kind.text in {"helpline"})
  }

  lemma SelectedSpec(kind: Field)
    ensures !Truthy(kind) ==> Selected(kind) == Kinds(true, true, true)
    ensures Truthy(kind) ==> !(Selected(kind).labs && Selected(kind).officers)
    ensures Truthy(kind) ==> !(Selected(kind).labs && Selected(kind).helplines)
    ensures Truthy(kind) ==> !(Selected(kind).officers && Selected(kind).helplines)
    ensures Truthy(kind) && kind.text !in {"soil", "lab", "officer", "helpline"} ==> Selected(kind) == Kinds(false, false, false)
  {
  }

  /** One search result. */
  datatype Hit =
    | LabHit(district: string, name: string, location: string, contact: string, services: string)
    | OfficerHit(district: string, name: string, role: string, contact: string, description: string)
    | HelplineHit(district: string, contact: string, details: string)

  function LabHitOf(district: string, lab: SoilLab): Hit {
    LabHit(district, lab.laboratoryName, lab.location, lab.contact, lab.services)
  }

  function OfficerHitOf(district: string, officer: Officer): Hit {
    OfficerHit(district, officer.officerName, officer.role, officer.contact, officer.description)
  }

  function HelplineHitOf(district: string, helpline: Helpline): Hit {
    HelplineHit(district, helpline.contact, helpline.details)
  }

  /** A laboratory matches on its name or location, an officer on name or role, a helpline on
    * contact or details. */
  predicate LabMatches(q: string, lab: SoilLab) {
    Mentions(lab.laboratoryName, q) || Mentions(lab.location, q)
  }

  predicate OfficerMatches(q: string, officer: Officer) {
    Mentions(officer.officerName, q) || Mentions(officer.role, q)
  }

  predicate HelplineMatches(q: string, helpline: Helpline) {
    Mentions(helpline.contact, q) || Mentions(helpline.details, q)
  }

  function LabStep(q: string, district: string): SoilLab -> seq<Hit> {
    (lab: SoilLab) => if LabMatches(q, lab) then [LabHitOf(district, lab)] else []
  }

  function OfficerStep(q: string, district: string): Officer -> seq<Hit> {
    (officer: Officer) => if OfficerMatches(q, officer) then [OfficerHitOf(district, officer)] else []
  }

  function HelplineStep(q: string, district: string): Helpline -> seq<Hit> {
    (helpline: Helpline) => if HelplineMatches(q, helpline) then [HelplineHitOf(district, helpline)] else []
  }

  /** What one district contributes: its matching laboratories, then officers, then helplines,
    * each list only when selected. */
  function DistrictHits(q: string, sel: Kinds, d: District): seq<Hit> {
    When(sel.labs, LabStep(q, d.district), d.soilTestingLaboratories)
    + When(sel.officers, OfficerStep(q, d.district), d.agricultureOfficers)
    + When(sel.helplines, HelplineStep(q, d.district), d.farmerSupportHelplines)
  }

  function Hits(q: string, sel: Kinds): District -> seq<Hit> {
    (d: District) => DistrictHits(q, sel, d)
  }

  /** All results, in district order. */
  function SearchHits(ds: seq<District>, q: string, sel: Kinds): seq<Hit> {
    ConcatMap(Hits(q, sel), ds)
  }

  datatype SearchReply = SearchRefused(status: nat) | SearchAnswer(query: string, kind: string, results: seq<Hit>, count: nat)

  function SearchReplyOf(ds: seq<District>, q: Field, kind: Field): SearchReply {
    if !Truthy(q) then SearchRefused(400)
    else
      var results := SearchHits(ds, q.text, Selected(kind));
      SearchAnswer(q.text, OrElse(kind, "all"), results, |results|)
  }

  /** The three inner `forEach` loops for one district. */
  method SearchDistrict(q: string, sel: Kinds, d: District) returns (hits: seq<Hit>)
    ensures hits == DistrictHits(q, sel, d)
  {
    var labs := CollectWhen(sel.labs, LabStep(q, d.district), d.soilTestingLaboratories);
    var officers := CollectWhen(sel.officers, OfficerStep(q, d.district), d.agricultureOfficers);
    var helplines := CollectWhen(sel.helplines, HelplineStep(q, d.district), d.farmerSupportHelplines);
    hits := labs + officers + helplines;
  }

  /** The outer `forEach` over the districts pushing into `results`. */
  method SearchDistricts(ds: seq<District>, q: string, sel: Kinds) returns (results: seq<Hit>)
    ensures results == SearchHits(ds, q, sel)
  {
    results := [];
    var i := 0;
    while i < |ds|
      invariant i <= |ds|
      invariant results == ConcatMap(Hits(q, sel), ds[..i])
    {
      var hits := SearchDistrict(q, sel, ds[i]);
      assert ds[..i + 1] == ds[..i] + [ds[i]];
      ConcatMapConcat(Hits(q, sel), ds[..i], [ds[i]]);
      ConcatMapOne(Hits(q, sel), ds[i]);
      results := results + hits;
      i := i + 1;
    }
    assert ds[..i] == ds;
  }

  /** `GET /api/government-organizations/search`. */
  method SearchOrganizations(ds: seq<District>, q: Field, kind: Field) returns (reply: SearchReply)
    ensures reply == SearchReplyOf(ds, q, kind)
  {
    if !Truthy(q) {
      return SearchRefused(400);
    }
    var results := SearchDistricts(ds, q.text, Selected(kind));
    reply := SearchAnswer(q.text, OrElse(kind, "all"), results, |results|);
  }

  /** The query must be given; the count is the number of results; the type defaults to `all`. */
  lemma SearchReplySpec(ds: seq<District>, q: Field, kind: Field)
    ensures SearchReplyOf(ds, q, kind).SearchRefused? <==> !Truthy(q)
    ensures SearchReplyOf(ds, q, kind).SearchRefused? ==> SearchReplyOf(ds, q, kind).status == 400
    ensures var r := SearchReplyOf(ds, q, kind);
      r.SearchAnswer? ==> r.count == |r.results| && r.query == q.text && (r.kind == "all" <==> !Truthy(kind) || kind.text == "all")
  {
  }

  /** Where a hit comes from: a selected, matching entry of district `d`. */
  predicate FromDistrict(h: Hit, q: string, sel: Kinds, d: District) {
    match h
    case LabHit(_, _, _, _, _) =>
      sel.labs && exists k :: (0 <= k < |d.soilTestingLaboratories| && LabMatches(q, d.soilTestingLaboratories[k])
        && h == LabHitOf(d.district, d.soilTestingLaboratories[k]))
    case OfficerHit(_, _, _, _, _) =>
      sel.officers && exists k :: (0 <= k < |d.agricultureOfficers| && OfficerMatches(q, d.agricultureOfficers[k])
        && h == OfficerHitOf(d.district, d.agricultureOfficers[k]))
    case HelplineHit(_, _, _) =>
      sel.helplines && exists k :: (0 <= k < |d.farmerSupportHelplines| && HelplineMatches(q, d.farmerSupportHelplines[k])
        && h == HelplineHitOf(d.district, d.farmerSupportHelplines[k]))
  }

  lemma LabHitsFrom(q: string, d: District, h: Hit)
    requires h in ConcatMap(LabStep(q, d.district), d.soilTestingLaboratories)
    ensures h.LabHit?
    ensures exists k :: 0 <= k < |d.soilTestingLaboratories| && LabMatches(q, d.soilTestingLaboratories[k]) && h == LabHitOf(d.district, d.soilTestingLaboratories[k])
  {
    ConcatMapMember(LabStep(q, d.district), d.soilTestingLaboratories, h);
  }

  lemma OfficerHitsFrom(q: string, d: District, h: Hit)
    requires h in ConcatMap(OfficerStep(q, d.district), d.agricultureOfficers)
    ensures h.OfficerHit?
    ensures exists k :: 0 <= k < |d.agricultureOfficers| && OfficerMatches(q, d.agricultureOfficers[k]) && h == OfficerHitOf(d.district, d.agricultureOfficers[k])
  {
    ConcatMapMember(OfficerStep(q, d.district), d.agricultureOfficers, h);
  }

  lemma HelplineHitsFrom(q: string, d: District, h: Hit)
    requires h in ConcatMap(HelplineStep(q, d.district), d.farmerSupportHelplines)
    ensures h.HelplineHit?
    ensures exists k :: 0 <= k < |d.farmerSupportHelplines| && HelplineMatches(q, d.farmerSupportHelplines[k]) && h == HelplineHitOf(d.district, d.farmerSupportHelplines[k])
  {
    ConcatMapMember(HelplineStep(q, d.district), d.farmerSupportHelplines, h);
  }

  lemma DistrictHitsFrom(q: string, sel: Kinds, d: District, h: Hit)
    requires h in DistrictHits(q, sel, d)
    ensures FromDistrict(h, q, sel, d)
  {
    var a := When(sel.labs, LabStep(q, d.district), d.soilTestingLaboratories);
    var b := When(sel.officers, OfficerStep(q, d.district), d.agricultureOfficers);
    var c := When(sel.helplines, HelplineStep(q, d.district), d.farmerSupportHelplines);
    if h in a {
      LabHitsFrom(q, d, h);
    } else if h in b {
      OfficerHitsFrom(q, d, h);
    } else {
      HelplineHitsFrom(q, d, h);
    }
  }

  /** Every result is a selected, matching entry of some district, labelled with that district. */
  lemma SearchHitsSound(ds: seq<District>, q: string, sel: Kinds, h: Hit)
    requires h in SearchHits(ds, q, sel)
    ensures exists i :: 0 <= i < |ds| && FromDistrict(h, q, sel, ds[i])
  {
    ConcatMapMember(Hits(q, sel), ds, h);
    var i :| 0 <= i < |ds| && h in Hits(q, sel)(ds[i]);
    DistrictHitsFrom(q, sel, ds[i], h);
  }

  /** Every matching laboratory of every district is found when laboratories are selected; the
    * same holds for officers and helplines. */
  lemma SearchFindsLab(ds: seq<District>, q: string, sel: Kinds, i: nat, k: nat)
    requires i < |ds| && k < |ds[i].soilTestingLaboratories| && sel.labs
    requires LabMatches(q, ds[i].soilTestingLaboratories[k])
    ensures LabHitOf(ds[i].district, ds[i].soilTestingLaboratories[k]) in SearchHits(ds, q, sel)
  {
    var d := ds[i];
    var h := LabHitOf(d.district, d.soilTestingLaboratories[k]);
    assert h in LabStep(q, d.district)(d.soilTestingLaboratories[k]);
    ConcatMapMember(LabStep(q, d.district), d.soilTestingLaboratories, h);
    assert h in Hits(q, sel)(d);
    ConcatMapMember(Hits(q, sel), ds, h);
  }

  lemma SearchFindsOfficer(ds: seq<District>, q: string, sel: Kinds, i: nat, k: nat)
    requires i < |ds| && k < |ds[i].agricultureOfficers| && sel.officers
    requires OfficerMatches(q, ds[i].agricultureOfficers[k])
    ensures OfficerHitOf(ds[i].district, ds[i].agricultureOfficers[k]) in SearchHits(ds, q, sel)
  {
    var d := ds[i];
    var h := OfficerHitOf(d.district, d.agricultureOfficers[k]);
    assert h in OfficerStep(q, d.district)(d.agricultureOfficers[k]);
    ConcatMapMember(OfficerStep(q, d.district), d.agricultureOfficers, h);
    assert h in Hits(q, sel)(d);
    ConcatMapMember(Hits(q, sel), ds, h);
  }

  lemma SearchFindsHelpline(ds: seq<District>, q: string, sel: Kinds, i: nat, k: nat)
    requires i < |ds| && k < |ds[i].farmerSupportHelplines| && sel.helplines
    requires HelplineMatches(q, ds[i].farmerSupportHelplines[k])
    ensures HelplineHitOf(ds[i].district, ds[i].farmerSupportHelplines[k]) in SearchHits(ds, q, sel)
  {
    var d := ds[i];
    var h := HelplineHitOf(d.district, d.farmerSupportHelplines[k]);
    assert h in HelplineStep(q, d.district)(d.farmerSupportHelplines[k]);
    ConcatMapMember(HelplineStep(q, d.district), d.farmerSupportHelplines, h);
    assert h in Hits(q, sel)(d);
    ConcatMapMember(Hits(q, sel), ds, h);
  }

  /** The substring test ignores the case of the query. */
  lemma MentionsIgnoresCase(s: string, query: string)
    ensures Mentions(s, ToLower(query)) <==> Mentions(s, query)
  {
    assert ToLower(ToLower(query)) == ToLower(query);
  }

  // ---------------------------------------------------------------------------------------
  // GET /api/punjab-agriculture/district/:districtName and its sub-routes
  // ---------------------------------------------------------------------------------------

  function NameIs(lowered: string): District -> bool {
    (d: District) => ToLower(d.district) == lowered
  }

  /** The district the per-district routes answer about (the whole record, or its laboratories,
    * officers, helplines, tips or summary); `None` is their 404. */
  function LookupDistrict(ds: seq<District>, name: string): Option<District> {
    match Find(NameIs(ToLower(name)), ds)
    case None => None
    case Some(i) => Some(ds[i])
  }

  /** The first district whose name equals the requested one up to case; none exactly when no
    * name does. The lookup itself ignores the case of the request. */
  lemma LookupDistrictSpec(ds: seq<District>, name: string)
    ensures var r := LookupDistrict(ds, name);
      && (r.None? <==> forall j :: 0 <= j < |ds| ==> ToLower(ds[j].district) != ToLower(name))
      && (r.Some? ==> exists i :: (0 <= i < |ds| && ds[i] == r.value && ToLower(r.value.district) == ToLower(name)
            && forall j :: 0 <= j < i ==> ToLower(ds[j].district) != ToLower(name)))
    ensures LookupDistrict(ds, ToLower(name)) == LookupDistrict(ds, name)
  {
    assert ToLower(ToLower(name)) == ToLower(name);
    match Find(NameIs(ToLower(name)), ds)
    case None =>
      forall j | 0 <= j < |ds| ensures ToLower(ds[j].district) != ToLower(name) {
        assert !NameIs(ToLower(name))(ds[j]);
      }
    case Some(i) =>
      assert NameIs(ToLower(name))(ds[i]);
      forall j | 0 <= j < i ensures ToLower(ds[j].district) != ToLower(name) {
        assert !NameIs(ToLower(name))(ds[j]);
      }
  }

  // ---------------------------------------------------------------------------------------
  // GET /api/punjab-agriculture/districts
  // ---------------------------------------------------------------------------------------

  datatype Listing = Listing(name: string, hasData: bool)

  /** The district list; `None` when some district has no laboratory at all, where reading
    * `soilTestingLaboratories[0].laboratoryName` throws and the route answers 500. */
  function DistrictList(ds: seq<District>): Option<seq<Listing>> {
    if exists k :: 0 <= k < |ds| && ds[k].soilTestingLaboratories == [] then None
    else Some(seq(|ds|, k requires 0 <= k < |ds| && ds[k].soilTestingLaboratories != [] =>
      Listing(ds[k].district, ds[k].soilTestingLaboratories[0].laboratoryName != NotAvailable)))
  }

  /** The list covers every district in order, and a district has data exactly when its first
    * laboratory is not the placeholder. */
  lemma DistrictListSpec(ds: seq<District>)
    ensures var r := DistrictList(ds);
      && (r.None? <==> exists k :: 0 <= k < |ds| && ds[k].soilTestingLaboratories == [])
      && (r.Some? ==> |r.value| == |ds| && forall k :: 0 <= k < |ds| ==> (r.value[k].name == ds[k].district
            && (r.value[k].hasData <==> ds[k].soilTestingLaboratories[0].laboratoryName != NotAvailable)))
  {
  }

  // ---------------------------------------------------------------------------------------
  // GET /api/punjab-agriculture/search
  // ---------------------------------------------------------------------------------------

  function NameMentions(q: string): District -> bool {
    (d: District) => Mentions(d.district, q)
  }

  datatype DistrictSearchReply = DistrictSearchRefused(status: nat)
                               | DistrictSearchAnswer(query: string, results: seq<District>, count: nat)

  function DistrictSearch(ds: seq<District>, q: Field): DistrictSearchReply {
    if !Truthy(q) then DistrictSearchRefused(400)
    else
      var results := Filter(NameMentions(q.text), ds);
      DistrictSearchAnswer(q.text, results, |results|)
  }

  /** A 400 exactly when the query is missing; otherwise exactly the districts whose name
    * contains the query up to case, and their count. */
  lemma DistrictSearchSpec(ds: seq<District>, q: Field)
    ensures DistrictSearch(ds, q).DistrictSearchRefused? <==> !Truthy(q)
    ensures DistrictSearch(ds, q).DistrictSearchRefused? ==> DistrictSearch(ds, q).status == 400
    ensures var r := DistrictSearch(ds, q);
      r.DistrictSearchAnswer? ==> (r.count == |r.results| <= |ds|
        && forall d :: d in r.results <==> d in ds && Mentions(d.district, q.text))
  {
    if Truthy(q) {
      FilterSpec(NameMentions(q.text), ds);
    }
  }

  // ---------------------------------------------------------------------------------------
  // GET /api/punjab-agriculture/district/:districtName/summary
  // ---------------------------------------------------------------------------------------

  datatype Summary = Summary(
    district: string,
    soilLabsCount: nat, officersCount: nat, helplinesCount: nat, tipsCount: nat,
    primaryOfficer: string, primaryContact: string, mainHelpline: string,
    soilTesting: string, officerDescription: string,
    topTips: seq<string>)

  /** `value || 'Data not available'` for the field of a first entry that may be missing. */
  function FirstOr(present: bool, value: string): string {
    if present && value != "" then value else NotAvailable
  }

  function SummaryOf(d: District): Summary {
    var labs, officers, helplines := d.soilTestingLaboratories, d.agricultureOfficers, d.farmerSupportHelplines;
    Summary(
      d.district,
      |labs|, |officers|, |helplines|, |d.tipsNotes|,
      FirstOr(officers != [], if officers != [] then officers[0].officerName else ""),
      FirstOr(officers != [], if officers != [] then officers[0].contact else ""),
      FirstOr(helplines != [], if helplines != [] then helplines[0].contact else ""),
      FirstOr(labs != [], if labs != [] then labs[0].services else ""),
      FirstOr(officers != [], if officers != [] then officers[0].description else ""),
      d.tipsNotes[..Min(|d.tipsNotes|, 2)])
  }

  /** The counts are the list lengths; each key contact is the first entry's value when there is
    * a first entry and its value is not empty, and the placeholder otherwise; the top tips are
    * the first two tips, or all when there are fewer. */
  lemma SummarySpec(d: District)
    ensures var s := SummaryOf(d);
      && s.district == d.district
      && s.soilLabsCount == |d.soilTestingLaboratories| && s.officersCount == |d.agricultureOfficers|
      && s.helplinesCount == |d.farmerSupportHelplines| && s.tipsCount == |d.tipsNotes|
      && s.primaryOfficer == (if d.agricultureOfficers != [] && d.agricultureOfficers[0].officerName != ""
                              then d.agricultureOfficers[0].officerName else NotAvailable)
      && s.primaryContact == (if d.agricultureOfficers != [] && d.agricultureOfficers[0].contact != ""
                              then d.agricultureOfficers[0].contact else NotAvailable)
      && s.mainHelpline == (if d.farmerSupportHelplines != [] && d.farmerSupportHelplines[0].contact != ""
                            then d.farmerSupportHelplines[0].contact else NotAvailable)
      && s.soilTesting == (if d.soilTestingLaboratories != [] && d.soilTestingLaboratories[0].services != ""
                           then d.soilTestingLaboratories[0].services else NotAvailable)
      && s.officerDescription == (if d.agricultureOfficers != [] && d.agricultureOfficers[0].description != ""
                                  then d.agricultureOfficers[0].description else NotAvailable)
      && s.primaryOfficer != "" && s.primaryContact != "" && s.mainHelpline != "" && s.soilTesting != ""
      && s.officerDescription != ""
      && s.topTips <= d.tipsNotes && |s.topTips| == Min(|d.tipsNotes|, 2)
  {
  }

  datatype SummaryReply = SummaryNotFound(status: nat) | SummaryFound(summary: Summary)

  /** `GET /api/punjab-agriculture/district/:districtName/summary`: a 404 exactly when no
    * district has the requested name up to case, else the summary of the first that has it. */
  function SummaryRoute(ds: seq<District>, name: string): (r: SummaryReply)
    ensures r.SummaryNotFound? <==> forall j :: 0 <= j < |ds| ==> ToLower(ds[j].district) != ToLower(name)
    ensures r.SummaryNotFound? ==> r.status == 404
    ensures r.SummaryFound? ==> ToLower(r.summary.district) == ToLower(name)
    ensures r.SummaryFound? ==> LookupDistrict(ds, name).Some? && r.summary == SummaryOf(LookupDistrict(ds, name).value)
  {
    LookupDistrictSpec(ds, name);
    match LookupDistrict(ds, name)
    case None => SummaryNotFound(404)
    case Some(d) => SummaryFound(SummaryOf(d))
  }
}

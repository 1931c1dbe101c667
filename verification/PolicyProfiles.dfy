/** Policy domain profiles: which dimensions a question must cover and which subquestions it is split into. */
module PolicyProfiles {
  import opened Values
  import opened ReactPlanner
  import opened Text

  type Facts = map<string, Value>

  datatype Subquestion = Subquestion(dimension: string, question: string)

  datatype Profile = Profile(
    domain: string,
    specialist: string,
    title: string,
    confidence: real,
    labelOf: string -> string,                              // how the dimensions are called in answers
    interruptReason: string,
    mentioned: string -> bool,                              // does the question contain one of the keywords
    extractFacts: string -> Facts,
    requiredDimensions: (string, Facts) -> seq<string>,
    buildSubquestions: (string, Facts, seq<string>) -> seq<Subquestion>)

  const PRIMARY := "primary"

  // ----- required dimensions

  /** The names whose condition holds, in order. */
  function Chosen(options: seq<(bool, string)>): seq<string> {
    if options == [] then []
    else
      var (wanted, name) := options[|options| - 1];
      Chosen(options[..|options| - 1]) + (if wanted then [name] else [])
  }

  ghost function Names(options: seq<(bool, string)>): seq<string> {
    seq(|options|, i requires 0 <= i < |options| => options[i].1)
  }

  lemma {:induction false} ChosenIsDistinct(options: seq<(bool, string)>)
    requires NoDuplicates(Names(options))
    ensures NoDuplicates(Chosen(options))
    ensures forall name :: name in Chosen(options) ==> name in Names(options)
  {
    if options != [] {
      var n := |options| - 1;
      var front := options[..n];
      assert forall i :: 0 <= i < n ==> Names(options)[i] == Names(front)[i];
      ChosenIsDistinct(front);
      forall name | name in Names(front) ensures name in Names(options) && name != options[n].1 {
        var i :| 0 <= i < |front| && Names(front)[i] == name;
        assert Names(options)[i] == name && Names(options)[n] == options[n].1;
      }
      assert Names(options)[n] == options[n].1;
      AppendDistinct(Chosen(front), options[n].1);
    }
  }

  lemma ChosenOneMore(options: seq<(bool, string)>, wanted: bool, name: string)
    ensures Chosen(options + [(wanted, name)]) == Chosen(options) + (if wanted then [name] else [])
  {
    assert (options + [(wanted, name)])[..|options|] == options;
  }

  /** Among options with different names, exactly the wanted ones are chosen. */
  lemma {:induction false} ChosenIff(options: seq<(bool, string)>, i: nat)
    requires i < |options| && NoDuplicates(Names(options))
    ensures options[i].1 in Chosen(options) <==> options[i].0
  {
    var n := |options| - 1;
    var front := options[..n];
    assert forall j :: 0 <= j < n ==> Names(options)[j] == Names(front)[j];
    ChosenIsDistinct(front);
    if i < n {
      ChosenIff(front, i);
      assert Names(options)[i] != Names(options)[n];
    } else {
      forall name | name in Names(front) ensures name != options[n].1 {
        var j :| 0 <= j < |front| && Names(front)[j] == name;
        assert Names(options)[j] != Names(options)[n];
      }
    }
  }

  lemma {:induction false} ChosenStarts(options: seq<(bool, string)>)
    requires options != [] && options[0].0
    ensures Chosen(options) != [] && Chosen(options)[0] == options[0].1
  {
    if |options| > 1 {
      ChosenStarts(options[..|options| - 1]);
    } else {
      assert options[..0] == [];
    }
  }

  /** What a list of required dimensions promises: no repetition, the mandatory one first, and of the others exactly
      those whose condition holds. */
  ghost predicate Selects(dimensions: seq<string>, options: seq<(bool, string)>) {
    && NoDuplicates(dimensions)
    && (options != [] && options[0].0 ==> dimensions != [] && dimensions[0] == options[0].1)
    && (forall d :: d in dimensions ==> d in Names(options))
    && (forall i :: 0 <= i < |options| ==> (options[i].1 in dimensions <==> options[i].0))
  }

  lemma ChosenSelects(options: seq<(bool, string)>)
    requires NoDuplicates(Names(options))
    ensures Selects(Chosen(options), options)
  {
    ChosenIsDistinct(options);
    forall i | 0 <= i < |options| ensures options[i].1 in Chosen(options) <==> options[i].0 {
      ChosenIff(options, i);
    }
    if options != [] && options[0].0 {
      ChosenStarts(options);
    }
  }

  lemma SelectsAt(dimensions: seq<string>, options: seq<(bool, string)>, i: nat)
    requires Selects(dimensions, options) && i < |options|
    ensures options[i].1 in dimensions <==> options[i].0
  {}

  function Fact(f: Facts, key: string): bool {
    Truthy(Get(f, key))
  }

  function HotelOptions(q: string, f: Facts): seq<(bool, string)> {
    [(true, "room_rate_standard")]
    + [(Fact(f, "contains_breakfast") || Contains(q, "早餐"), "breakfast_allowance")]
    + [(Fact(f, "invoice_present") || Contains(q, "进项税") || Contains(q, "发票"), "invoice_tax")]
    + [(Fact(f, "weekend_stay_pattern"), "weekend_stay_justification")]
    + [(Fact(f, "booking_channel") || Contains(q, "协议价") || Contains(q, "预订"), "booking_channel_compliance")]
  }

  function FlightOptions(q: string, f: Facts): seq<(bool, string)> {
    [(true, "cabin_policy")]
    + [(Get(f, "cabin_requested") in {Str("business"), Str("first"), Str("premium_economy")} ||
        Fact(f, "approval_context"),
        "approval_requirement")]
    + [(Fact(f, "change_or_refund"), "change_refund_policy")]
    + [(Fact(f, "booking_channel") || Contains(q, "预订") || Contains(q, "下单"), "booking_channel_compliance")]
  }

  function ReimbursementOptions(q: string, f: Facts): seq<(bool, string)> {
    [(true, "invoice_tax")]
    + [(Fact(f, "approval_context") || Contains(q, "报销"), "approval_requirement")]
    + [(Fact(f, "allowance_context"), "allowance_policy")]
    + [(Fact(f, "supporting_documents") || Contains(q, "报销") || Contains(q, "材料"), "supporting_documents")]
  }

  const HOTEL_DIMENSIONS: set<string> := {"room_rate_standard", "breakfast_allowance", "invoice_tax",
                                          "weekend_stay_justification", "booking_channel_compliance"}
  const FLIGHT_DIMENSIONS: set<string> := {"cabin_policy", "approval_requirement", "change_refund_policy",
                                           "booking_channel_compliance"}
  const REIMBURSEMENT_DIMENSIONS: set<string> := {"invoice_tax", "approval_requirement", "allowance_policy",
                                                  "supporting_documents"}

  lemma HotelNames(q: string, f: Facts)
    ensures Names(HotelOptions(q, f)) ==
            ["room_rate_standard", "breakfast_allowance", "invoice_tax", "weekend_stay_justification",
             "booking_channel_compliance"]
  {}

  lemma FlightNames(q: string, f: Facts)
    ensures Names(FlightOptions(q, f)) ==
            ["cabin_policy", "approval_requirement", "change_refund_policy", "booking_channel_compliance"]
  {}

  lemma ReimbursementNames(q: string, f: Facts)
    ensures Names(ReimbursementOptions(q, f)) ==
            ["invoice_tax", "approval_requirement", "allowance_policy", "supporting_documents"]
  {}

  /** Which dimensions a hotel question requires: the mandatory one first, and each other one exactly if its
      fact was found or its keyword occurs. */
  ghost predicate IsHotelList(q: string, f: Facts, dimensions: seq<string>) {
    && dimensions != [] && dimensions[0] == "room_rate_standard" && NoDuplicates(dimensions)
    && (forall d :: d in dimensions ==> d in HOTEL_DIMENSIONS)
    && ("breakfast_allowance" in dimensions <==> Fact(f, "contains_breakfast") || Contains(q, "早餐"))
    && ("invoice_tax" in dimensions <==> Fact(f, "invoice_present") || Contains(q, "进项税") || Contains(q, "发票"))
    && ("weekend_stay_justification" in dimensions <==> Fact(f, "weekend_stay_pattern"))
    && ("booking_channel_compliance" in dimensions <==>
        Fact(f, "booking_channel") || Contains(q, "协议价") || Contains(q, "预订"))
  }

  lemma HotelSelection(q: string, f: Facts)
    ensures IsHotelList(q, f, Chosen(HotelOptions(q, f)))
  {
    var options := HotelOptions(q, f);
    var dimensions := Chosen(options);
    HotelNames(q, f);
    ChosenSelects(options);
    SelectsAt(dimensions, options, 1);
    SelectsAt(dimensions, options, 2);
    SelectsAt(dimensions, options, 3);
    SelectsAt(dimensions, options, 4);
  }

  /** Which dimensions a flight question requires: the mandatory one first, and each other one exactly if its
      fact was found or its keyword occurs. */
  ghost predicate IsFlightList(q: string, f: Facts, dimensions: seq<string>) {
    && dimensions != [] && dimensions[0] == "cabin_policy" && NoDuplicates(dimensions)
    && (forall d :: d in dimensions ==> d in FLIGHT_DIMENSIONS)
    && ("approval_requirement" in dimensions <==>
        Get(f, "cabin_requested") in {Str("business"), Str("first"), Str("premium_economy")} ||
          Fact(f, "approval_context"))
    && ("change_refund_policy" in dimensions <==> Fact(f, "change_or_refund"))
    && ("booking_channel_compliance" in dimensions <==>
        Fact(f, "booking_channel") || Contains(q, "预订") || Contains(q, "下单"))
  }

  lemma FlightSelection(q: string, f: Facts)
    ensures IsFlightList(q, f, Chosen(FlightOptions(q, f)))
  {
    var options := FlightOptions(q, f);
    var dimensions := Chosen(options);
    FlightNames(q, f);
    ChosenSelects(options);
    SelectsAt(dimensions, options, 1);
    SelectsAt(dimensions, options, 2);
    SelectsAt(dimensions, options, 3);
  }

  /** Which dimensions a reimbursement question requires: the mandatory one first, and each other one exactly if its
      fact was found or its keyword occurs. */
  ghost predicate IsReimbursementList(q: string, f: Facts, dimensions: seq<string>) {
    && dimensions != [] && dimensions[0] == "invoice_tax" && NoDuplicates(dimensions)
    && (forall d :: d in dimensions ==> d in REIMBURSEMENT_DIMENSIONS)
    && ("approval_requirement" in dimensions <==> Fact(f, "approval_context") || Contains(q, "报销"))
    && ("allowance_policy" in dimensions <==> Fact(f, "allowance_context"))
    && ("supporting_documents" in dimensions <==>
        Fact(f, "supporting_documents") || Contains(q, "报销") || Contains(q, "材料"))
  }

  lemma ReimbursementSelection(q: string, f: Facts)
    ensures IsReimbursementList(q, f, Chosen(ReimbursementOptions(q, f)))
  {
    var options := ReimbursementOptions(q, f);
    var dimensions := Chosen(options);
    ReimbursementNames(q, f);
    ChosenSelects(options);
    SelectsAt(dimensions, options, 1);
    SelectsAt(dimensions, options, 2);
    SelectsAt(dimensions, options, 3);
  }

  /** One `if ...: dimensions.append(...)`. */
  method AppendIf(ghost done: seq<(bool, string)>, dimensions: seq<string>, wanted: bool, name: string)
    returns (dimensions': seq<string>)
    requires dimensions == Chosen(done)
    ensures dimensions' == Chosen(done + [(wanted, name)])
  {
    ChosenOneMore(done, wanted, name);
    dimensions' := dimensions;
    if wanted {
      dimensions' := dimensions' + [name];
    }
  }

  method HotelRequiredDimensions(q: string, f: Facts) returns (dimensions: seq<string>)
    ensures dimensions == Chosen(HotelOptions(q, f))
    ensures IsHotelList(q, f, dimensions)
  {
    dimensions := ["room_rate_standard"];
    ghost var done := [(true, "room_rate_standard")];
    ChosenOneMore([], true, "room_rate_standard");
    assert [] + done == done;
    var wanted := Fact(f, "contains_breakfast") || Contains(q, "早餐");
    dimensions := AppendIf(done, dimensions, wanted, "breakfast_allowance");
    done := done + [(wanted, "breakfast_allowance")];
    wanted := Fact(f, "invoice_present") || Contains(q, "进项税") || Contains(q, "发票");
    dimensions := AppendIf(done, dimensions, wanted, "invoice_tax");
    done := done + [(wanted, "invoice_tax")];
    wanted := Fact(f, "weekend_stay_pattern");
    dimensions := AppendIf(done, dimensions, wanted, "weekend_stay_justification");
    done := done + [(wanted, "weekend_stay_justification")];
    wanted := Fact(f, "booking_channel") || Contains(q, "协议价") || Contains(q, "预订");
    dimensions := AppendIf(done, dimensions, wanted, "booking_channel_compliance");
    HotelSelection(q, f);
  }

  method FlightRequiredDimensions(q: string, f: Facts) returns (dimensions: seq<string>)
    ensures dimensions == Chosen(FlightOptions(q, f))
    ensures IsFlightList(q, f, dimensions)
  {
    dimensions := ["cabin_policy"];
    ghost var done := [(true, "cabin_policy")];
    ChosenOneMore([], true, "cabin_policy");
    assert [] + done == done;
    var wanted := Get(f, "cabin_requested") in {Str("business"), Str("first"), Str("premium_economy")} ||
      Fact(f, "approval_context");
    dimensions := AppendIf(done, dimensions, wanted, "approval_requirement");
    done := done + [(wanted, "approval_requirement")];
    wanted := Fact(f, "change_or_refund");
    dimensions := AppendIf(done, dimensions, wanted, "change_refund_policy");
    done := done + [(wanted, "change_refund_policy")];
    wanted := Fact(f, "booking_channel") || Contains(q, "预订") || Contains(q, "下单");
    dimensions := AppendIf(done, dimensions, wanted, "booking_channel_compliance");
    FlightSelection(q, f);
  }

  method ReimbursementRequiredDimensions(q: string, f: Facts) returns (dimensions: seq<string>)
    ensures dimensions == Chosen(ReimbursementOptions(q, f))
    ensures IsReimbursementList(q, f, dimensions)
  {
    dimensions := ["invoice_tax"];
    ghost var done := [(true, "invoice_tax")];
    ChosenOneMore([], true, "invoice_tax");
    assert [] + done == done;
    var wanted := Fact(f, "approval_context") || Contains(q, "报销");
    dimensions := AppendIf(done, dimensions, wanted, "approval_requirement");
    done := done + [(wanted, "approval_requirement")];
    wanted := Fact(f, "allowance_context");
    dimensions := AppendIf(done, dimensions, wanted, "allowance_policy");
    done := done + [(wanted, "allowance_policy")];
    wanted := Fact(f, "supporting_documents") || Contains(q, "报销") || Contains(q, "材料");
    dimensions := AppendIf(done, dimensions, wanted, "supporting_documents");
    ReimbursementSelection(q, f);
  }

  // ----- subquestions

  /** The wording of a subquestion is not modelled: any function of the dimension and the facts. */
  type Phrasing = (string, Facts) -> string

  function Items(f: Facts, dimensions: seq<string>, known: set<string>, phrase: Phrasing): seq<Subquestion> {
    if dimensions == [] then []
    else
      var d := dimensions[|dimensions| - 1];
      Items(f, dimensions[..|dimensions| - 1], known, phrase) +
      (if d in known then [Subquestion(d, phrase(d, f))] else [])
  }

  function WithPrimary(q: string, items: seq<Subquestion>): seq<Subquestion> {
    [Subquestion(PRIMARY, q)] + items
  }

  /** The loop over the required dimensions, with one branch per dimension the profile knows. */
  method BuildSubquestions(q: string, f: Facts, dimensions: seq<string>, known: set<string>, phrase: Phrasing)
    returns (subquestions: seq<Subquestion>)
    ensures subquestions == WithPrimary(q, Items(f, dimensions, known, phrase))
  {
    var items := [];
    for i := 0 to |dimensions|
      invariant items == Items(f, dimensions[..i], known, phrase)
    {
      assert dimensions[..i + 1][..i] == dimensions[..i];
      if dimensions[i] in known {
        items := items + [Subquestion(dimensions[i], phrase(dimensions[i], f))];
      }
    }
    assert dimensions[..|dimensions|] == dimensions;
    subquestions := WithPrimary(q, items);
  }

  ghost function DimensionsOf(subquestions: seq<Subquestion>): seq<string> {
    seq(|subquestions|, i requires 0 <= i < |subquestions| => subquestions[i].dimension)
  }

  lemma {:induction false} ItemsKeepDimensions(f: Facts, dimensions: seq<string>, known: set<string>, phrase: Phrasing)
    requires forall d :: d in dimensions ==> d in known
    ensures DimensionsOf(Items(f, dimensions, known, phrase)) == dimensions
  {
    if dimensions != [] {
      var n := |dimensions| - 1;
      forall d | d in dimensions[..n] ensures d in known { assert d in dimensions; }
      ItemsKeepDimensions(f, dimensions[..n], known, phrase);
      assert dimensions[n] in known;
      assert dimensions == dimensions[..n] + [dimensions[n]];
    }
  }

  // ----- the profiles

  /** Keyword matching, fact extraction and wording are arbitrary. */
  datatype Texts = Texts(mentioned: string -> bool, extract: string -> Facts, phrase: Phrasing)

  function HotelLabel(dimension: string): string {
    match dimension
    case "room_rate_standard" => "房费标准与超标审批"
    case "breakfast_allowance" => "含早与餐补处理"
    case "invoice_tax" => "发票项目与进项税处理"
    case "weekend_stay_justification" => "周末停留说明"
    case "booking_channel_compliance" => "预订渠道合规"
    case _ => dimension
  }

  function FlightLabel(dimension: string): string {
    match dimension
    case "cabin_policy" => "舱位规则"
    case "approval_requirement" => "审批要求"
    case "change_refund_policy" => "改签退票规则"
    case "booking_channel_compliance" => "预订渠道合规"
    case _ => dimension
  }

  function ReimbursementLabel(dimension: string): string {
    match dimension
    case "invoice_tax" => "发票与税务处理"
    case "approval_requirement" => "审批与例外流程"
    case "allowance_policy" => "补贴与定额政策"
    case "supporting_documents" => "报销材料完整性"
    case _ => dimension
  }

  function HotelProfile(t: Texts): Profile {
    Profile("hotel", "hotel_policy_agent", "酒店", 0.92, HotelLabel, "酒店政策答案未覆盖全部必答维度", t.mentioned, t.extract,
      (q, f) => Chosen(HotelOptions(q, f)),
      (q, f, dimensions) => WithPrimary(q, Items(f, dimensions, HOTEL_DIMENSIONS, t.phrase)))
  }

  function FlightProfile(t: Texts): Profile {
    Profile("flight", "flight_policy_agent", "机票", 0.87, FlightLabel, "机票政策答案未覆盖全部必答维度", t.mentioned, t.extract,
      (q, f) => Chosen(FlightOptions(q, f)),
      (q, f, dimensions) => WithPrimary(q, Items(f, dimensions, FLIGHT_DIMENSIONS, t.phrase)))
  }

  function ReimbursementProfile(t: Texts): Profile {
    Profile("reimbursement", "reimbursement_policy_agent", "报销", 0.85, ReimbursementLabel, "报销政策答案未覆盖全部必答维度",
            t.mentioned, t.extract,
      (q, f) => Chosen(ReimbursementOptions(q, f)),
      (q, f, dimensions) => WithPrimary(q, Items(f, dimensions, REIMBURSEMENT_DIMENSIONS, t.phrase)))
  }

  /** A profile without functions of its own: no facts, no required dimensions, the question itself. */
  function BareProfile(
    domain: string, specialist: string, title: string, confidence: real, reason: string,
    mentioned: string -> bool): Profile
  {
    Profile(domain, specialist, title, confidence, d => d, reason, mentioned,
            q => map[], (q, f) => [], (q, f, d) => [Subquestion(PRIMARY, q)])
  }

  function BuiltInProfiles(hotel: Texts, flight: Texts, reimbursement: Texts): seq<Profile> {
    [HotelProfile(hotel), FlightProfile(flight), ReimbursementProfile(reimbursement)]
  }

  ghost function RequiredOf(p: Profile, q: string): seq<string> {
    p.requiredDimensions(q, p.extractFacts(q))
  }

  ghost function SubquestionsOf(p: Profile, q: string): seq<Subquestion> {
    p.buildSubquestions(q, p.extractFacts(q), RequiredOf(p, q))
  }

  /** For this question the profile asks the question itself and then one subquestion per required dimension. */
  ghost predicate Exact(p: Profile, q: string) {
    && DimensionsOf(SubquestionsOf(p, q)) == [PRIMARY] + RequiredOf(p, q)
    && NoDuplicates(RequiredOf(p, q))
    && PRIMARY !in RequiredOf(p, q)
  }

  lemma PrimaryFirst(q: string, items: seq<Subquestion>)
    ensures DimensionsOf(WithPrimary(q, items)) == [PRIMARY] + DimensionsOf(items)
  {}

  lemma OptionsAreExact(q: string, f: Facts, options: seq<(bool, string)>, known: set<string>, phrase: Phrasing)
    requires NoDuplicates(Names(options)) && PRIMARY !in Names(options)
    requires forall name :: name in Names(options) ==> name in known
    ensures var required := Chosen(options);
            && DimensionsOf(WithPrimary(q, Items(f, required, known, phrase))) == [PRIMARY] + required
            && NoDuplicates(required) && PRIMARY !in required
  {
    ChosenIsDistinct(options);
    ItemsKeepDimensions(f, Chosen(options), known, phrase);
    PrimaryFirst(q, Items(f, Chosen(options), known, phrase));
  }

  lemma HotelIsExact(t: Texts, q: string)
    ensures Exact(HotelProfile(t), q)
  {
    var f := t.extract(q);
    HotelNames(q, f);
    OptionsAreExact(q, f, HotelOptions(q, f), HOTEL_DIMENSIONS, t.phrase);
  }

  lemma FlightIsExact(t: Texts, q: string)
    ensures Exact(FlightProfile(t), q)
  {
    var f := t.extract(q);
    FlightNames(q, f);
    OptionsAreExact(q, f, FlightOptions(q, f), FLIGHT_DIMENSIONS, t.phrase);
  }

  lemma ReimbursementIsExact(t: Texts, q: string)
    ensures Exact(ReimbursementProfile(t), q)
  {
    var f := t.extract(q);
    ReimbursementNames(q, f);
    OptionsAreExact(q, f, ReimbursementOptions(q, f), REIMBURSEMENT_DIMENSIONS, t.phrase);
  }

  /** Every profile of the system is exact for every question, whatever its texts say. */
  lemma ProfilesAreExact(hotel: Texts, flight: Texts, reimbursement: Texts, q: string)
    ensures Exact(HotelProfile(hotel), q) && Exact(FlightProfile(flight), q) &&
            Exact(ReimbursementProfile(reimbursement), q)
  {
    HotelIsExact(hotel, q);
    FlightIsExact(flight, q);
    ReimbursementIsExact(reimbursement, q);
  }

  lemma BareProfileIsExact(
    domain: string, specialist: string, title: string, confidence: real, reason: string, mentioned: string -> bool,
    q: string)
    ensures Exact(BareProfile(domain, specialist, title, confidence, reason, mentioned), q)
  {
    var p := BareProfile(domain, specialist, title, confidence, reason, mentioned);
    assert DimensionsOf(SubquestionsOf(p, q)) == [PRIMARY] + [];
  }

  // ----- matching and lookup

  function MatchPolicyProfiles(profiles: seq<Profile>, q: string): seq<Profile> {
    if profiles == [] then []
    else
      MatchPolicyProfiles(profiles[..|profiles| - 1], q) +
      (if profiles[|profiles| - 1].mentioned(q) then [profiles[|profiles| - 1]] else [])
  }

  /** `_PROFILE_BY_DOMAIN.get(domain)`: in the dictionary comprehension the last of equal keys wins. */
  function ByDomain(profiles: seq<Profile>, domain: string): (r: Option<Profile>)
    ensures r.Some? ==> r.value.domain == domain && r.value in profiles
  {
    if profiles == [] then None
    else if profiles[|profiles| - 1].domain == domain then Some(profiles[|profiles| - 1])
    else ByDomain(profiles[..|profiles| - 1], domain)
  }

  function BySpecialist(profiles: seq<Profile>, specialist: string): (r: Option<Profile>)
    ensures r.Some? ==> r.value.specialist == specialist && r.value in profiles
  {
    if profiles == [] then None
    else if profiles[|profiles| - 1].specialist == specialist then Some(profiles[|profiles| - 1])
    else BySpecialist(profiles[..|profiles| - 1], specialist)
  }

  ghost predicate DistinctDomains(profiles: seq<Profile>) {
    forall i, j :: 0 <= i < j < |profiles| ==> profiles[i].domain != profiles[j].domain
  }

  lemma {:induction false} LookupFindsItself(profiles: seq<Profile>, p: Profile)
    requires DistinctDomains(profiles) && p in profiles
    ensures ByDomain(profiles, p.domain) == Some(p)
  {
    var n := |profiles| - 1;
    if profiles[n] != p {
      var i :| 0 <= i < |profiles| && profiles[i] == p;
      assert profiles[..n][i] == p;
      LookupFindsItself(profiles[..n], p);
    }
  }

  lemma BuiltInProfilesAreDistinct(hotel: Texts, flight: Texts, reimbursement: Texts)
    ensures DistinctDomains(BuiltInProfiles(hotel, flight, reimbursement))
    ensures forall p :: p in BuiltInProfiles(hotel, flight, reimbursement) ==> p.domain !in {"", "generic", "mixed"}
  {}
}

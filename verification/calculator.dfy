/**
 * The calculator's input panel: the static scenario, license and pricing
 * tables, the resolution of the monthly cost per user from the selected
 * tool, license and pricing model, and the three effects that keep the
 * auto-populated fields in step with the selections.
 *
 * React runs the effects after each render until nothing changes; the model
 * keeps only that settled outcome: `Step` applies one input event together
 * with every effect the event triggers.
 */
module Calculator {
  import opened Common
  import opened LicenseString
  import Roi
  import ExtendedReal

  // ---------------------------------------------------------------- tables

  /** The four tools of the "AI Tool" dropdown. */
  datatype Tool = Claude | OpenAI | Gemini | GitHubCopilot {
    function Name(): string {
      match this
      case Claude => "Claude"
      case OpenAI => "OpenAI"
      case Gemini => "Gemini"
      case GitHubCopilot => "GitHub Copilot"
    }
  }

  /** The tools in the order the dropdown lists them. */
  const AiTools: seq<Tool> := [Claude, OpenAI, Gemini, GitHubCopilot]

  /** Any selection other than "Per Seat" takes the API branch. */
  datatype PricingModel = PerSeat | Api

  datatype Scenario = LowUsage | MediumUsage | HighUsage {
    function Name(): string {
      match this
      case LowUsage => "Low Usage"
      case MediumUsage => "Medium Usage"
      case HighUsage => "High Usage"
    }
  }

  /** The values a usage scenario seeds: weekly hours saved and millions of tokens per user. */
  datatype ScenarioSeed = ScenarioSeed(hoursSaved: real, inputTokens: real, outputTokens: real)

  function ScenarioData(s: Scenario): ScenarioSeed {
    match s
    case LowUsage => ScenarioSeed(2.0, 0.25, 0.25)
    case MediumUsage => ScenarioSeed(5.0, 0.5, 0.5)
    case HighUsage => ScenarioSeed(8.0, 1.0, 1.0)
  }

  /** Per-seat monthly price and per-million-token API prices of a tool. */
  datatype PriceSheet = PriceSheet(perSeat: nat, apiInput: nat, apiOutput: nat)

  function PricingData(t: Tool): PriceSheet {
    match t
    case Claude => PriceSheet(150, 15, 75)
    case OpenAI => PriceSheet(60, 30, 60)
    case Gemini => PriceSheet(30, 7, 21)
    case GitHubCopilot => PriceSheet(19, 10, 10)
  }

  /** Monthly fee for the GitHub license a Copilot seat also needs. */
  const GitHubLicenseFee: nat := 4

  datatype LicenseTier = LicenseTier(name: string, price: nat)
  datatype LicenseCategory = LicenseCategory(name: string, tiers: seq<LicenseTier>)

  /** License tiers by category, in the order the dropdown lists them; absent for tools without tiers. */
  function LicenseData(t: Tool): Option<seq<LicenseCategory>> {
    match t
    case GitHubCopilot =>
      Some([
        LicenseCategory("Individuals", [LicenseTier("Pro", 10), LicenseTier("Pro+", 39)]),
        LicenseCategory("Business", [LicenseTier("Business", 19), LicenseTier("Enterprise", 39)])])
    case Claude =>
      Some([
        LicenseCategory("Individuals", [LicenseTier("Pro", 17), LicenseTier("Max", 100)]),
        LicenseCategory("Team", [LicenseTier("Standard Seat", 25), LicenseTier("Premium Seat", 150)])])
    case _ => None
  }

  predicate HasLicenseTypes(t: Tool) {
    t == GitHubCopilot || t == Claude
  }

  /** Exactly the tools that have license tiers have an entry in the license table. */
  lemma HasLicenseTypesMatchesTable(t: Tool)
    ensures HasLicenseTypes(t) <==> LicenseData(t).Some?
  {
  }

  /** Scenario seeds grow from Low to Medium to High in every field. */
  lemma ScenarioSeedsMonotone()
    ensures ScenarioData(LowUsage).hoursSaved <= ScenarioData(MediumUsage).hoursSaved <= ScenarioData(HighUsage).hoursSaved
    ensures ScenarioData(LowUsage).inputTokens <= ScenarioData(MediumUsage).inputTokens <= ScenarioData(HighUsage).inputTokens
    ensures ScenarioData(LowUsage).outputTokens <= ScenarioData(MediumUsage).outputTokens <= ScenarioData(HighUsage).outputTokens
  {
  }

  // ------------------------------------------------------- table lookups

  function CategoryNames(cats: seq<LicenseCategory>): seq<string>
    ensures |CategoryNames(cats)| == |cats|
    ensures forall k :: 0 <= k < |cats| ==> CategoryNames(cats)[k] == cats[k].name
  {
    seq(|cats|, k requires 0 <= k < |cats| => cats[k].name)
  }

  /** Some tier of the category has the name. */
  predicate HasTier(tiers: seq<LicenseTier>, name: string) {
    exists k :: 0 <= k < |tiers| && tiers[k].name == name
  }

  /** `toolLicenses[name]`: the first category with that name. */
  function FindCategory(cats: seq<LicenseCategory>, name: string): (r: Option<seq<LicenseTier>>)
    ensures r.None? <==> name !in CategoryNames(cats)
  {
    if |cats| == 0 then None
    else if cats[0].name == name then Some(cats[0].tiers)
    else
      assert CategoryNames(cats) == [cats[0].name] + CategoryNames(cats[1..]);
      FindCategory(cats[1..], name)
  }

  /** `categoryLicenses[name]`: the price of the first tier with that name. */
  function FindTier(tiers: seq<LicenseTier>, name: string): (r: Option<nat>)
    ensures r.None? <==> !HasTier(tiers, name)
  {
    if |tiers| == 0 then None
    else if tiers[0].name == name then Some(tiers[0].price)
    else
      assert HasTier(tiers, name) ==> HasTier(tiers[1..], name) by {
        if HasTier(tiers, name) {
          var k :| 0 <= k < |tiers| && tiers[k].name == name;
          assert tiers[1..][k - 1] == tiers[k];
        }
      }
      assert HasTier(tiers[1..], name) ==> HasTier(tiers, name) by {
        if HasTier(tiers[1..], name) {
          var k :| 0 <= k < |tiers[1..]| && tiers[1..][k].name == name;
          assert tiers[k + 1] == tiers[1..][k];
        }
      }
      FindTier(tiers[1..], name)
  }

  /** Price of a parsed license string in one tool's table; a missing key (or `undefined` license) reads as 0. */
  function TablePrice(cats: seq<LicenseCategory>, s: string): (price: nat)
    ensures price == 0 || PriceInTable(cats, price)
  {
    var parsed := Parse(s);
    match FindCategory(cats, parsed.category)
    case None => 0
    case Some(tiers) =>
      match parsed.license
      case None => 0
      case Some(l) =>
        match FindTier(tiers, l)
        case None => 0
        case Some(p) =>
          FindCategoryFirst(cats, parsed.category);
          FindTierFirst(tiers, l);
          p
  }

  /** Some tier of some category of the table has this price. */
  predicate PriceInTable(cats: seq<LicenseCategory>, price: nat) {
    exists i, j :: 0 <= i < |cats| && 0 <= j < |cats[i].tiers| && cats[i].tiers[j].price == price
  }

  /** `getLicensePrice`: 0 for tools without license tiers, otherwise 0 or a price of the tool's table. */
  function GetLicensePrice(t: Tool, licenseString: string): (price: nat)
    ensures price != 0 ==> HasLicenseTypes(t) && PriceInTable(LicenseData(t).value, price)
  {
    if !HasLicenseTypes(t) then 0
    else
      match LicenseData(t)
      case None => 0
      case Some(cats) => TablePrice(cats, licenseString)
  }

  // ------------------------------------------------------ license options

  /** One entry of the license dropdown. */
  datatype LicenseOption = LicenseOption(value: string, caption: string, price: nat)

  function MakeOption(category: string, tier: LicenseTier): LicenseOption {
    LicenseOption(
      Join(category, tier.name),
      Join(category, tier.name) + " ($" + NatToString(tier.price) + "/month)",
      tier.price)
  }

  /** The options of one category, one per tier in table order. */
  function TierOptions(category: string, tiers: seq<LicenseTier>): seq<LicenseOption> {
    seq(|tiers|, k requires 0 <= k < |tiers| => MakeOption(category, tiers[k]))
  }

  /** Every tier of every category, categories in table order and tiers in category order. */
  function TableOptions(cats: seq<LicenseCategory>): seq<LicenseOption>
    decreases |cats|
  {
    if |cats| == 0 then [] else TierOptions(cats[0].name, cats[0].tiers) + TableOptions(cats[1..])
  }

  /** `getLicenseOptions`: empty for tools without license tiers. */
  function GetLicenseOptions(t: Tool): (opts: seq<LicenseOption>)
    ensures opts != [] ==> HasLicenseTypes(t)
    ensures HasLicenseTypes(t) ==> forall o :: o in opts ==>
      exists i, j :: 0 <= i < |LicenseData(t).value| && 0 <= j < |LicenseData(t).value[i].tiers|
        && o == MakeOption(LicenseData(t).value[i].name, LicenseData(t).value[i].tiers[j])
  {
    if !HasLicenseTypes(t) then []
    else
      match LicenseData(t)
      case None => []
      case Some(cats) =>
        AllTableOptionsComeFromTable(cats);
        TableOptions(cats)
  }

  /**
   * The shape the round trip between options and prices relies on: names are
   * unique (a JavaScript object has one entry per key) and no name contains
   * a dash, so the separator is found exactly where it was put.
   */
  predicate DistinctTierNames(tiers: seq<LicenseTier>) {
    forall j, k :: 0 <= j < k < |tiers| ==> tiers[j].name != tiers[k].name
  }

  predicate WellFormedTiers(tiers: seq<LicenseTier>) {
    && DistinctTierNames(tiers)
    && (forall k :: 0 <= k < |tiers| ==> DashFree(tiers[k].name))
  }

  predicate DistinctCategoryNames(cats: seq<LicenseCategory>) {
    forall j, k :: 0 <= j < k < |cats| ==> cats[j].name != cats[k].name
  }

  predicate WellFormedTable(cats: seq<LicenseCategory>) {
    && DistinctCategoryNames(cats)
    && (forall k :: 0 <= k < |cats| ==> DashFree(cats[k].name) && WellFormedTiers(cats[k].tiers))
  }

  lemma LicenseTablesWellFormed(t: Tool)
    requires LicenseData(t).Some?
    ensures WellFormedTable(LicenseData(t).value)
  {
    var cats := LicenseData(t).value;
    forall k | 0 <= k < |cats|
      ensures DashFree(cats[k].name) && WellFormedTiers(cats[k].tiers)
    {
      var tiers := cats[k].tiers;
      forall j | 0 <= j < |tiers| ensures DashFree(tiers[j].name) {
        var n := tiers[j].name;
        forall c | 0 <= c < |n| ensures n[c] != '-' {
        }
      }
      var n := cats[k].name;
      forall c | 0 <= c < |n| ensures n[c] != '-' {
      }
    }
  }

  /** Within one category, the tier with a given name is found at its own position. */
  lemma {:induction false} FindTierAt(tiers: seq<LicenseTier>, k: nat)
    requires DistinctTierNames(tiers) && k < |tiers|
    ensures FindTier(tiers, tiers[k].name) == Some(tiers[k].price)
    decreases k
  {
    if k > 0 {
      var tail := tiers[1..];
      assert tiers[0].name != tiers[k].name;
      assert tail[k - 1] == tiers[k];
      assert DistinctTierNames(tail) by {
        forall j, i | 0 <= j < i < |tail| ensures tail[j].name != tail[i].name {
          assert tail[j] == tiers[j + 1] && tail[i] == tiers[i + 1];
        }
      }
      FindTierAt(tail, k - 1);
    }
  }

  /** Within the table, the category with a given name is found at its own position. */
  lemma {:induction false} FindCategoryAt(cats: seq<LicenseCategory>, k: nat)
    requires DistinctCategoryNames(cats) && k < |cats|
    ensures FindCategory(cats, cats[k].name) == Some(cats[k].tiers)
    decreases k
  {
    if k > 0 {
      var tail := cats[1..];
      assert cats[0].name != cats[k].name;
      assert tail[k - 1] == cats[k];
      assert DistinctCategoryNames(tail) by {
        forall j, i | 0 <= j < i < |tail| ensures tail[j].name != tail[i].name {
          assert tail[j] == cats[j + 1] && tail[i] == cats[i + 1];
        }
      }
      FindCategoryAt(tail, k - 1);
    }
  }

  /** A successful category lookup returns the tiers of the first category with that name. */
  lemma {:induction false} FindCategoryFirst(cats: seq<LicenseCategory>, name: string)
    ensures FindCategory(cats, name).Some? ==>
      exists k :: 0 <= k < |cats| && cats[k].name == name && FindCategory(cats, name).value == cats[k].tiers
        && forall j :: 0 <= j < k ==> cats[j].name != name
    decreases |cats|
  {
    if |cats| > 0 && cats[0].name != name && FindCategory(cats, name).Some? {
      FindCategoryFirst(cats[1..], name);
      var k :| 0 <= k < |cats[1..]| && cats[1..][k].name == name && FindCategory(cats[1..], name).value == cats[1..][k].tiers
        && forall j :: 0 <= j < k ==> cats[1..][j].name != name;
      assert forall j :: 1 <= j < k + 1 ==> cats[j] == cats[1..][j - 1];
      assert cats[k + 1] == cats[1..][k];
    }
  }

  /** A successful tier lookup returns the price of the first tier with that name. */
  lemma {:induction false} FindTierFirst(tiers: seq<LicenseTier>, name: string)
    ensures FindTier(tiers, name).Some? ==>
      exists k :: 0 <= k < |tiers| && tiers[k].name == name && FindTier(tiers, name).value == tiers[k].price
        && forall j :: 0 <= j < k ==> tiers[j].name != name
    decreases |tiers|
  {
    if |tiers| > 0 && tiers[0].name != name && FindTier(tiers, name).Some? {
      FindTierFirst(tiers[1..], name);
      var k :| 0 <= k < |tiers[1..]| && tiers[1..][k].name == name && FindTier(tiers[1..], name).value == tiers[1..][k].price
        && forall j :: 0 <= j < k ==> tiers[1..][j].name != name;
      assert forall j :: 1 <= j < k + 1 ==> tiers[j] == tiers[1..][j - 1];
      assert tiers[k + 1] == tiers[1..][k];
    }
  }

  /** Looking up "C - L" for a category and license of the table gives that license's price. */
  lemma TablePriceOfKnownKeys(cats: seq<LicenseCategory>, i: nat, j: nat)
    requires WellFormedTable(cats) && i < |cats| && j < |cats[i].tiers|
    ensures TablePrice(cats, Join(cats[i].name, cats[i].tiers[j].name)) == cats[i].tiers[j].price
  {
    ParseJoin(cats[i].name, cats[i].tiers[j].name);
    FindCategoryAt(cats, i);
    FindTierAt(cats[i].tiers, j);
  }

  /**
   * `getLicensePrice(tool, "C - L")` is `LICENSE_DATA[tool][C][L]` when both
   * keys exist; it is 0 when the category is unknown or the category has no
   * such license.
   */
  lemma LicensePriceLooksUpTable(t: Tool, category: string, license: string)
    requires LicenseData(t).Some?
    requires DashFree(category) && DashFree(license)
    ensures var cats := LicenseData(t).value;
      forall i, j ::
        (0 <= i < |cats| && 0 <= j < |cats[i].tiers| && cats[i].name == category && cats[i].tiers[j].name == license) ==>
          GetLicensePrice(t, Join(category, license)) == cats[i].tiers[j].price
    ensures var cats := LicenseData(t).value;
      category !in CategoryNames(cats) ==> GetLicensePrice(t, Join(category, license)) == 0
    ensures var cats := LicenseData(t).value;
      forall i :: 0 <= i < |cats| && cats[i].name == category && !HasTier(cats[i].tiers, license) ==>
        GetLicensePrice(t, Join(category, license)) == 0
  {
    var cats := LicenseData(t).value;
    LicenseTablesWellFormed(t);
    ParseJoin(category, license);
    forall i, j | 0 <= i < |cats| && 0 <= j < |cats[i].tiers|
        && cats[i].name == category && cats[i].tiers[j].name == license
      ensures GetLicensePrice(t, Join(category, license)) == cats[i].tiers[j].price
    {
      TablePriceOfKnownKeys(cats, i, j);
    }
    forall i | 0 <= i < |cats| && cats[i].name == category && !HasTier(cats[i].tiers, license)
      ensures GetLicensePrice(t, Join(category, license)) == 0
    {
      FindCategoryAt(cats, i);
    }
  }

  /** Tools without license tiers price every license string at 0. */
  lemma LicensePriceZeroWithoutTiers(t: Tool, licenseString: string)
    requires !HasLicenseTypes(t)
    ensures GetLicensePrice(t, licenseString) == 0
    ensures GetLicenseOptions(t) == []
  {
  }

  /** Every option of a well-formed table prices back to its own price. */
  lemma {:induction false} TableOptionsRoundTrip(cats: seq<LicenseCategory>, o: LicenseOption)
    requires WellFormedTable(cats) && o in TableOptions(cats)
    ensures TablePrice(cats, o.value) == o.price
    decreases |cats|
  {
    var head := TierOptions(cats[0].name, cats[0].tiers);
    if o in head {
      var j :| 0 <= j < |cats[0].tiers| && head[j] == o;
      TablePriceOfKnownKeys(cats, 0, j);
    } else {
      var tail := cats[1..];
      assert o in TableOptions(tail);
      assert WellFormedTable(tail) by {
        forall k | 0 <= k < |tail| ensures tail[k] == cats[k + 1] { }
      }
      TableOptionsComeFromTable(tail, o);
      var i, j :| 0 <= i < |tail| && 0 <= j < |tail[i].tiers| && o == MakeOption(tail[i].name, tail[i].tiers[j]);
      assert tail[i] == cats[i + 1];
      TablePriceOfKnownKeys(cats, i + 1, j);
    }
  }

  /** Every option is made from one category and one of its tiers. */
  lemma {:induction false} TableOptionsComeFromTable(cats: seq<LicenseCategory>, o: LicenseOption)
    requires o in TableOptions(cats)
    ensures exists i, j :: 0 <= i < |cats| && 0 <= j < |cats[i].tiers| && o == MakeOption(cats[i].name, cats[i].tiers[j])
    decreases |cats|
  {
    var head := TierOptions(cats[0].name, cats[0].tiers);
    if o in head {
      var j :| 0 <= j < |cats[0].tiers| && head[j] == o;
      assert o == MakeOption(cats[0].name, cats[0].tiers[j]);
    } else {
      TableOptionsComeFromTable(cats[1..], o);
      var i, j :| 0 <= i < |cats[1..]| && 0 <= j < |cats[1..][i].tiers| && o == MakeOption(cats[1..][i].name, cats[1..][i].tiers[j]);
      assert cats[1..][i] == cats[i + 1];
    }
  }

  lemma AllTableOptionsComeFromTable(cats: seq<LicenseCategory>)
    ensures forall o :: o in TableOptions(cats) ==>
      exists i, j :: 0 <= i < |cats| && 0 <= j < |cats[i].tiers| && o == MakeOption(cats[i].name, cats[i].tiers[j])
  {
    forall o | o in TableOptions(cats)
      ensures exists i, j :: 0 <= i < |cats| && 0 <= j < |cats[i].tiers| && o == MakeOption(cats[i].name, cats[i].tiers[j])
    {
      TableOptionsComeFromTable(cats, o);
    }
  }

  /** Every category/tier pair of the table is offered as an option. */
  lemma {:induction false} TableOptionsCoverTable(cats: seq<LicenseCategory>, i: nat, j: nat)
    requires i < |cats| && j < |cats[i].tiers|
    ensures MakeOption(cats[i].name, cats[i].tiers[j]) in TableOptions(cats)
    decreases i
  {
    if i == 0 {
      assert TierOptions(cats[0].name, cats[0].tiers)[j] == MakeOption(cats[i].name, cats[i].tiers[j]);
    } else {
      assert cats[1..][i - 1] == cats[i];
      TableOptionsCoverTable(cats[1..], i - 1, j);
    }
  }

  /**
   * Round trip of the license dropdown: every option's value is priced by
   * `getLicensePrice` at the price the option shows. Tools without tiers
   * have no options.
   */
  lemma LicenseOptionsRoundTrip(t: Tool)
    ensures forall o :: o in GetLicenseOptions(t) ==> GetLicensePrice(t, o.value) == o.price
    ensures GetLicenseOptions(t) == [] <==> !HasLicenseTypes(t)
    ensures HasLicenseTypes(t) ==>
      var cats := LicenseData(t).value;
      forall i, j :: 0 <= i < |cats| && 0 <= j < |cats[i].tiers| ==> MakeOption(cats[i].name, cats[i].tiers[j]) in GetLicenseOptions(t)
  {
    if HasLicenseTypes(t) {
      var cats := LicenseData(t).value;
      LicenseTablesWellFormed(t);
      forall o | o in GetLicenseOptions(t) ensures GetLicensePrice(t, o.value) == o.price {
        TableOptionsRoundTrip(cats, o);
      }
      forall i, j | 0 <= i < |cats| && 0 <= j < |cats[i].tiers|
        ensures MakeOption(cats[i].name, cats[i].tiers[j]) in GetLicenseOptions(t)
      {
        TableOptionsCoverTable(cats, i, j);
      }
      assert TableOptions(cats)[0] == MakeOption(cats[0].name, cats[0].tiers[0]);
    }
  }

  // -------------------------------------------------------- cost per user

  /** The monthly cost per user the effect settles on. */
  function CostPerUser(t: Tool, licenseType: string, model: PricingModel, inputTokens: real, outputTokens: real): (cost: real)
    ensures model == PerSeat ==> cost >= 0.0 && cost == cost.Floor as real
    ensures model == PerSeat && t == GitHubCopilot ==> cost >= GitHubLicenseFee as real
    ensures model == PerSeat && t != GitHubCopilot ==> cost == 0.0 || cost >= 17.0
    ensures inputTokens >= 0.0 && outputTokens >= 0.0 ==> cost >= 0.0
  {
    var pricing := PricingData(t);
    match model
    case PerSeat =>
      if HasLicenseTypes(t) then
        (GetLicensePrice(t, licenseType) + (if t == GitHubCopilot then GitHubLicenseFee else 0)) as real
      else pricing.perSeat as real
    case Api =>
      inputTokens * pricing.apiInput as real + outputTokens * pricing.apiOutput as real
  }

  /**
   * Per seat, a Copilot user costs the license plus the $4 GitHub fee, a
   * Claude user the license alone, and OpenAI or Gemini the flat per-seat
   * price. On the API, the cost is the token volumes priced at the tool's
   * input and output rates, and is never negative for non-negative volumes.
   */
  lemma CostPerUserRule(t: Tool, licenseType: string, inputTokens: real, outputTokens: real)
    ensures t == GitHubCopilot ==>
      CostPerUser(t, licenseType, PerSeat, inputTokens, outputTokens) == GetLicensePrice(t, licenseType) as real + 4.0
    ensures t == Claude ==>
      CostPerUser(t, licenseType, PerSeat, inputTokens, outputTokens) == GetLicensePrice(t, licenseType) as real
    ensures t == OpenAI || t == Gemini ==>
      CostPerUser(t, licenseType, PerSeat, inputTokens, outputTokens) == PricingData(t).perSeat as real
    ensures CostPerUser(t, licenseType, Api, inputTokens, outputTokens)
      == inputTokens * PricingData(t).apiInput as real + outputTokens * PricingData(t).apiOutput as real
    ensures inputTokens >= 0.0 && outputTokens >= 0.0 ==> CostPerUser(t, licenseType, Api, inputTokens, outputTokens) >= 0.0
  {
  }

  // ------------------------------------------------------------- the panel

  datatype CalculatorState = CalculatorState(
    aiTool: Tool,
    licenseType: string,
    pricingModel: PricingModel,
    usageScenario: Scenario,
    projectTimeline: real,
    teamSize: real,
    hourlyCost: real,
    hoursSaved: real,
    inputTokens: real,
    outputTokens: real,
    costPerUser: real)

  /** The `useState` initial values, before any effect has run. */
  const Initial: CalculatorState :=
    CalculatorState(GitHubCopilot, "Business - Business", PerSeat, HighUsage, 52.0, 10.0, 55.0, 8.0, 0.0, 0.0, 19.0)

  /** The license the tool-change effect selects: Copilot's and Claude's default tier; other tools keep the old string. */
  function ResetLicense(t: Tool, current: string): string {
    if t == GitHubCopilot then "Business - Business"
    else if t == Claude then "Team - Standard Seat"
    else current
  }

  /** The cost effect: the cost per user recomputed from the current selections. */
  function WithCost(s: CalculatorState): CalculatorState {
    s.(costPerUser := CostPerUser(s.aiTool, s.licenseType, s.pricingModel, s.inputTokens, s.outputTokens))
  }

  /** The scenario effect: the three seeded fields overwritten from the table. */
  function WithScenarioSeed(s: CalculatorState): CalculatorState {
    var seed := ScenarioData(s.usageScenario);
    s.(hoursSaved := seed.hoursSaved, inputTokens := seed.inputTokens, outputTokens := seed.outputTokens)
  }

  /** The state after the first render's effects have settled. */
  function Mounted(): (s: CalculatorState)
    ensures Settled(s)
    ensures s.hoursSaved == ScenarioData(s.usageScenario).hoursSaved
    ensures s.inputTokens == ScenarioData(s.usageScenario).inputTokens
    ensures s.outputTokens == ScenarioData(s.usageScenario).outputTokens
    ensures GetLicensePrice(s.aiTool, s.licenseType) > 0
  {
    CopilotDefaultLicensePrice();
    WithCost(WithScenarioSeed(Initial).(licenseType := ResetLicense(Initial.aiTool, Initial.licenseType)))
  }

  /** The auto-populated cost agrees with the selections it is derived from. */
  predicate Settled(s: CalculatorState) {
    s.costPerUser == CostPerUser(s.aiTool, s.licenseType, s.pricingModel, s.inputTokens, s.outputTokens)
  }

  /** One change made in the input panel. */
  datatype CalculatorEvent =
    | SelectTool(tool: Tool)
    | SelectLicense(license: string)
    | SelectPricingModel(model: PricingModel)
    | SelectScenario(scenario: Scenario)
    | EnterTimeline(weeks: real)
    | EnterTeamSize(size: real)
    | EnterHourlyCost(cost: real)
    | EnterHoursSaved(hours: real)
    | EnterInputTokens(millions: real)
    | EnterOutputTokens(millions: real)

  /**
   * The settled state after one event. A select that keeps its value
   * re-renders nothing, so no effect runs; a changed tool resets the license
   * and a changed scenario reseeds its fields before the cost is recomputed.
   */
  function Step(s: CalculatorState, e: CalculatorEvent): (r: CalculatorState)
    ensures Settled(s) ==> Settled(r)
    ensures (e.EnterTimeline? || e.EnterTeamSize? || e.EnterHourlyCost? || e.EnterHoursSaved?) ==>
      r.costPerUser == s.costPerUser
    ensures e.SelectTool? ==> r.aiTool == e.tool
    ensures e.SelectLicense? ==> r.(costPerUser := s.costPerUser) == s.(licenseType := e.license)
    ensures e.SelectPricingModel? ==> r.(costPerUser := s.costPerUser) == s.(pricingModel := e.model)
    ensures e.EnterTimeline? ==> r == s.(projectTimeline := e.weeks)
    ensures e.EnterTeamSize? ==> r == s.(teamSize := e.size)
    ensures e.EnterHourlyCost? ==> r == s.(hourlyCost := e.cost)
    ensures e.EnterHoursSaved? ==> r == s.(hoursSaved := e.hours)
    ensures e.EnterInputTokens? ==> r.(costPerUser := s.costPerUser) == s.(inputTokens := e.millions)
    ensures e.EnterOutputTokens? ==> r.(costPerUser := s.costPerUser) == s.(outputTokens := e.millions)
    ensures e.SelectScenario? && e.scenario != s.usageScenario ==>
      r.hoursSaved == ScenarioData(e.scenario).hoursSaved
  {
    match e
    case SelectTool(t) =>
      if t == s.aiTool then s
      else WithCost(s.(aiTool := t, licenseType := ResetLicense(t, s.licenseType)))
    case SelectLicense(l) => WithCost(s.(licenseType := l))
    case SelectPricingModel(m) => WithCost(s.(pricingModel := m))
    case SelectScenario(sc) =>
      if sc == s.usageScenario then s
      else WithCost(WithScenarioSeed(s.(usageScenario := sc)))
    case EnterTimeline(w) => s.(projectTimeline := w)
    case EnterTeamSize(n) => s.(teamSize := n)
    case EnterHourlyCost(c) => s.(hourlyCost := c)
    case EnterHoursSaved(h) => s.(hoursSaved := h)
    case EnterInputTokens(m) => WithCost(s.(inputTokens := m))
    case EnterOutputTokens(m) => WithCost(s.(outputTokens := m))
  }

  /**
   * After mounting, the panel shows the High Usage seeds and Copilot's
   * Business license at $19 plus the $4 fee: the initial cost of 19 is
   * replaced by 23 once the mount effects have run.
   */
  lemma MountedState()
    ensures Settled(Mounted())
    ensures Mounted().costPerUser == 23.0
    ensures Mounted().hoursSaved == 8.0 && Mounted().inputTokens == 1.0 && Mounted().outputTokens == 1.0
    ensures Mounted().licenseType == "Business - Business"
  {
    var key := ResetLicense(GitHubCopilot, "");
    CopilotDefaultLicensePrice();
    CostPerUserRule(GitHubCopilot, key, 1.0, 1.0);
    assert Mounted() == CalculatorState(GitHubCopilot, key, PerSeat, HighUsage, 52.0, 10.0, 55.0, 8.0, 1.0, 1.0,
                                        CostPerUser(GitHubCopilot, key, PerSeat, 1.0, 1.0));
  }

  /** The license Copilot falls back to, "Business - Business", is priced at $19. */
  lemma CopilotDefaultLicensePrice()
    ensures GetLicensePrice(GitHubCopilot, ResetLicense(GitHubCopilot, "")) == 19
  {
    var cats := LicenseData(GitHubCopilot).value;
    assert Join(cats[1].name, cats[1].tiers[0].name) == ResetLicense(GitHubCopilot, "");
    LicensePriceOfKnownKeys(GitHubCopilot, 1, 0);
  }

  /** The license Claude falls back to, "Team - Standard Seat", is priced at $25. */
  lemma ClaudeDefaultLicensePrice()
    ensures GetLicensePrice(Claude, ResetLicense(Claude, "")) == 25
  {
    var cats := LicenseData(Claude).value;
    assert Join(cats[1].name, cats[1].tiers[0].name) == ResetLicense(Claude, "");
    LicensePriceOfKnownKeys(Claude, 1, 0);
  }

  /** The price of a license string built from a category and one of its tiers. */
  lemma LicensePriceOfKnownKeys(t: Tool, i: nat, j: nat)
    requires HasLicenseTypes(t) && i < |LicenseData(t).value| && j < |LicenseData(t).value[i].tiers|
    ensures var cats := LicenseData(t).value;
      GetLicensePrice(t, Join(cats[i].name, cats[i].tiers[j].name)) == cats[i].tiers[j].price
  {
    LicenseTablesWellFormed(t);
    TablePriceOfKnownKeys(LicenseData(t).value, i, j);
  }

  /** Every sequence of events from the mounted panel ends in a settled state. */
  lemma {:induction false} RunKeepsSettled(s: CalculatorState, events: seq<CalculatorEvent>)
    requires Settled(s)
    ensures Settled(Run(s, events))
    decreases |events|
  {
    if |events| > 0 {
      RunKeepsSettled(Step(s, events[0]), events[1..]);
    }
  }

  function Run(s: CalculatorState, events: seq<CalculatorEvent>): CalculatorState
    decreases |events|
  {
    if |events| == 0 then s else Run(Step(s, events[0]), events[1..])
  }

  /**
   * Changing the tool to Copilot or Claude selects a license that prices at
   * a nonzero amount: Copilot's "Business - Business" at 19 and Claude's
   * "Team - Standard Seat" at 25.
   */
  lemma ToolChangeResetsLicense(s: CalculatorState, t: Tool)
    requires t != s.aiTool
    ensures t == GitHubCopilot ==>
      Step(s, SelectTool(t)).licenseType == "Business - Business"
      && GetLicensePrice(t, Step(s, SelectTool(t)).licenseType) == 19
    ensures t == Claude ==>
      Step(s, SelectTool(t)).licenseType == "Team - Standard Seat"
      && GetLicensePrice(t, Step(s, SelectTool(t)).licenseType) == 25
    ensures !HasLicenseTypes(t) ==> Step(s, SelectTool(t)).licenseType == s.licenseType
  {
    CopilotDefaultLicensePrice();
    ClaudeDefaultLicensePrice();
  }

  /**
   * Changing the scenario overwrites exactly the hours saved and the two
   * token volumes with the scenario's seeds; apart from the cost per user,
   * which is recomputed, nothing else changes, and on per-seat pricing the
   * cost stays as it was.
   */
  lemma ScenarioChangeReseeds(s: CalculatorState, sc: Scenario)
    requires Settled(s) && sc != s.usageScenario
    ensures var r := Step(s, SelectScenario(sc));
      && r.hoursSaved == ScenarioData(sc).hoursSaved
      && r.inputTokens == ScenarioData(sc).inputTokens
      && r.outputTokens == ScenarioData(sc).outputTokens
      && r.usageScenario == sc
    ensures var r := Step(s, SelectScenario(sc));
      r.(hoursSaved := s.hoursSaved, inputTokens := s.inputTokens, outputTokens := s.outputTokens,
         usageScenario := s.usageScenario, costPerUser := s.costPerUser) == s
    ensures s.pricingModel == PerSeat ==> Step(s, SelectScenario(sc)).costPerUser == s.costPerUser
  {
  }

  /** The license dropdown is shown for tools with tiers on per-seat pricing. */
  function ShowLicenseType(s: CalculatorState): (shown: bool)
    ensures shown <==> (s.pricingModel == PerSeat && GetLicenseOptions(s.aiTool) != [])
  {
    LicenseOptionsRoundTrip(s.aiTool);
    HasLicenseTypes(s.aiTool) && s.pricingModel == PerSeat
  }

  // ------------------------------------------------------- to the dashboard

  /** The props the panel passes to the results dashboard. */
  function DashboardInputs(s: CalculatorState): Roi.RoiInputs {
    Roi.RoiInputs(s.teamSize, s.hoursSaved, s.hourlyCost, s.costPerUser, s.projectTimeline)
  }

  /**
   * With the mounted defaults (ten people at $55 an hour saving 8 hours a
   * week over 52 weeks, Copilot Business at $23 a seat) the project saves
   * $228,800 against a tool cost of 11,960 / 4.33, and the dashboard
   * recommends it as an excellent investment.
   */
  lemma MountedDashboard()
    ensures var m := Roi.Evaluate(DashboardInputs(Mounted()));
      && m.totalCostSavings == 228800.0
      && m.totalToolCost == 11960.0 / 4.33
      && m.roiPercentage.Finite?
      && Roi.GetRecommendation(m.roiPercentage) == Roi.ExcellentInvestment
  {
    MountedState();
    var i := DashboardInputs(Mounted());
    assert i == Roi.RoiInputs(10.0, 8.0, 55.0, 23.0, 52.0);
    Roi.RoiHasSignOfNetSavings(i);
  }
}

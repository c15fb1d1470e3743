/**
 * The reference-data accordion under the results: two cards, usage
 * scenarios and AI tool pricing, of which at most one is expanded, each
 * showing hard-coded rows in a desktop table and in mobile cards. The rows
 * are compared here with the calculator's own tables.
 */
module PricingTables {
  import opened Common
  import Calculator

  datatype Card = Scenarios | Pricing

  /** `expandedCard`: one card, or none (`null`). */
  type Expanded = Option<Card>

  /**
   * `toggleCard`: toggling the expanded card collapses it; toggling any
   * other card makes it the one expanded card.
   */
  function ToggleCard(expanded: Expanded, card: Card): (r: Expanded)
    ensures r == None <==> expanded == Some(card)
    ensures r == None || r == Some(card)
  {
    if expanded == Some(card) then None else Some(card)
  }

  /** The accordion opens with the usage-scenarios card expanded. */
  const InitialExpanded: Expanded := Some(Scenarios)

  /**
   * On first render the scenarios card is the expanded one: clicking it
   * collapses the accordion, and clicking the pricing card switches to it.
   */
  lemma InitialToggles()
    ensures ToggleCard(InitialExpanded, Scenarios) == None
    ensures ToggleCard(InitialExpanded, Pricing) == Some(Pricing)
  {
  }

  /**
   * Toggling the same card twice restores the accordion exactly when that
   * card was expanded or nothing was.
   */
  lemma ToggleTwice(expanded: Expanded, card: Card)
    ensures ToggleCard(ToggleCard(expanded, card), card) == expanded <==> (expanded == None || expanded == Some(card))
  {
  }

  // ------------------------------------------------------- scenario card

  datatype ScenarioRow = ScenarioRow(name: string, hours: real, input: real, output: real)

  /** The three rows of the desktop scenario table. */
  const DesktopScenarioRows: seq<ScenarioRow> := [
    ScenarioRow("Low Usage", 2.0, 0.25, 0.25),
    ScenarioRow("Medium Usage", 5.0, 0.5, 0.5),
    ScenarioRow("High Usage", 8.0, 1.0, 1.0)]

  /** The array the mobile scenario cards are rendered from. */
  const MobileScenarioRows: seq<ScenarioRow> := [
    ScenarioRow("Low Usage", 2.0, 0.25, 0.25),
    ScenarioRow("Medium Usage", 5.0, 0.5, 0.5),
    ScenarioRow("High Usage", 8.0, 1.0, 1.0)]

  const ScenarioOrder: seq<Calculator.Scenario> := [Calculator.LowUsage, Calculator.MediumUsage, Calculator.HighUsage]

  /** The row a scenario of the calculator should be shown as. */
  function RowOf(s: Calculator.Scenario): ScenarioRow {
    var seed := Calculator.ScenarioData(s);
    ScenarioRow(s.Name(), seed.hoursSaved, seed.inputTokens, seed.outputTokens)
  }

  /** Both scenario views list exactly the calculator's scenario seeds, in the dropdown's order. */
  lemma ScenarioRowsMatchCalculator()
    ensures |DesktopScenarioRows| == |ScenarioOrder| && |MobileScenarioRows| == |ScenarioOrder|
    ensures forall k :: 0 <= k < |ScenarioOrder| ==> DesktopScenarioRows[k] == RowOf(ScenarioOrder[k])
    ensures DesktopScenarioRows == MobileScenarioRows
  {
  }

  // -------------------------------------------------------- pricing card

  /** The price kinds a pricing row can show. */
  datatype PriceKind = PerSeatPrice | ApiInputPrice | ApiOutputPrice

  /** One row of a pricing view: tool, price kind, the label shown for the kind, and the cost text. */
  datatype PriceRow = PriceRow(tool: Calculator.Tool, kind: PriceKind, model: string, cost: string)

  /** The desktop pricing table. */
  const DesktopPriceRows: seq<PriceRow> := [
    PriceRow(Calculator.Claude, PerSeatPrice, "Per Seat", "$150"),
    PriceRow(Calculator.Claude, ApiInputPrice, "API Input (per M tokens)", "$15"),
    PriceRow(Calculator.Claude, ApiOutputPrice, "API Output (per M tokens)", "$75"),
    PriceRow(Calculator.OpenAI, PerSeatPrice, "Per Seat", "$60"),
    PriceRow(Calculator.OpenAI, ApiInputPrice, "API Input (per M tokens)", "$30"),
    PriceRow(Calculator.OpenAI, ApiOutputPrice, "API Output (per M tokens)", "$60"),
    PriceRow(Calculator.Gemini, PerSeatPrice, "Per Seat", "$30"),
    PriceRow(Calculator.Gemini, ApiInputPrice, "API Input (per M tokens)", "$7"),
    PriceRow(Calculator.Gemini, ApiOutputPrice, "API Output (per M tokens)", "$21"),
    PriceRow(Calculator.GitHubCopilot, PerSeatPrice, "Per Seat", "$19")]

  /** The mobile pricing cards, flattened to rows in card order. */
  const MobilePriceRows: seq<PriceRow> := [
    PriceRow(Calculator.Claude, PerSeatPrice, "Per Seat", "$150"),
    PriceRow(Calculator.Claude, ApiInputPrice, "API Input", "$15"),
    PriceRow(Calculator.Claude, ApiOutputPrice, "API Output", "$75"),
    PriceRow(Calculator.OpenAI, PerSeatPrice, "Per Seat", "$60"),
    PriceRow(Calculator.OpenAI, ApiInputPrice, "API Input", "$30"),
    PriceRow(Calculator.OpenAI, ApiOutputPrice, "API Output", "$60"),
    PriceRow(Calculator.Gemini, PerSeatPrice, "Per Seat", "$30"),
    PriceRow(Calculator.Gemini, ApiInputPrice, "API Input", "$7"),
    PriceRow(Calculator.Gemini, ApiOutputPrice, "API Output", "$21"),
    PriceRow(Calculator.GitHubCopilot, PerSeatPrice, "Per Seat", "$19")]

  /** The calculator's price of the given kind for a tool. */
  function TablePrice(t: Calculator.Tool, kind: PriceKind): nat {
    var sheet := Calculator.PricingData(t);
    match kind
    case PerSeatPrice => sheet.perSeat
    case ApiInputPrice => sheet.apiInput
    case ApiOutputPrice => sheet.apiOutput
  }

  /** The cost text a price is shown as: a dollar sign and the whole number. */
  function CostText(price: nat): string {
    "$" + NatToString(price)
  }

  /** A view shows the calculator's prices when every row's cost text is its tool's price of its kind. */
  predicate ShowsCalculatorPrices(rows: seq<PriceRow>) {
    forall k :: 0 <= k < |rows| ==> rows[k].cost == CostText(TablePrice(rows[k].tool, rows[k].kind))
  }

  /** The cost texts of the prices the pricing views show. */
  lemma PriceTexts()
    ensures CostText(150) == "$150" && CostText(75) == "$75" && CostText(60) == "$60"
    ensures CostText(30) == "$30" && CostText(21) == "$21" && CostText(19) == "$19"
    ensures CostText(15) == "$15" && CostText(7) == "$7"
  {
  }

  lemma DesktopPricesMatchCalculator()
    ensures ShowsCalculatorPrices(DesktopPriceRows)
  {
    PriceTexts();
    var rows := DesktopPriceRows;
    forall k | 0 <= k < |rows| ensures rows[k].cost == CostText(TablePrice(rows[k].tool, rows[k].kind)) {
    }
  }

  /**
   * Every row of both pricing views shows the calculator's price for its
   * tool and kind, and the two views list the same rows in the same order,
   * differing only in how the API kinds are labelled.
   */
  lemma PriceRowsMatchCalculator()
    ensures ShowsCalculatorPrices(DesktopPriceRows)
    ensures ShowsCalculatorPrices(MobilePriceRows)
    ensures |DesktopPriceRows| == |MobilePriceRows|
    ensures forall k :: 0 <= k < |DesktopPriceRows| ==>
      DesktopPriceRows[k].(model := "") == MobilePriceRows[k].(model := "")
  {
    DesktopPricesMatchCalculator();
    var desktop, mobile := DesktopPriceRows, MobilePriceRows;
    forall k | 0 <= k < |desktop| ensures desktop[k].(model := "") == mobile[k].(model := "") {
    }
    forall k | 0 <= k < |mobile| ensures mobile[k].cost == CostText(TablePrice(mobile[k].tool, mobile[k].kind)) {
      assert desktop[k].(model := "") == mobile[k].(model := "");
    }
  }

  /** Whether a view has a row for the tool and kind. */
  predicate Lists(rows: seq<PriceRow>, t: Calculator.Tool, kind: PriceKind) {
    exists k :: 0 <= k < |rows| && rows[k].tool == t && rows[k].kind == kind
  }

  /**
   * Claude, OpenAI and Gemini are listed with all three of the calculator's
   * prices; GitHub Copilot only with its $19 seat, although the calculator
   * also holds API prices of 10 and 10 for it. The tools appear in the
   * order of the calculator's tool dropdown.
   */
  lemma PriceRowsCoverage()
    ensures forall k :: 0 <= k < |DesktopPriceRows| ==>
      DesktopPriceRows[k].tool == Calculator.AiTools[if k < 9 then k / 3 else 3]
    ensures forall t, kind :: t != Calculator.GitHubCopilot ==> Lists(DesktopPriceRows, t, kind)
    ensures forall k :: 0 <= k < |DesktopPriceRows| && DesktopPriceRows[k].tool == Calculator.GitHubCopilot ==>
      DesktopPriceRows[k].kind == PerSeatPrice && DesktopPriceRows[k].cost == "$19"
    ensures TablePrice(Calculator.GitHubCopilot, ApiInputPrice) == 10 && TablePrice(Calculator.GitHubCopilot, ApiOutputPrice) == 10
  {
    forall t, kind | t != Calculator.GitHubCopilot
      ensures Lists(DesktopPriceRows, t, kind)
    {
      var base := if t == Calculator.Claude then 0 else if t == Calculator.OpenAI then 3 else 6;
      var offset := if kind == PerSeatPrice then 0 else if kind == ApiInputPrice then 1 else 2;
      assert DesktopPriceRows[base + offset].tool == t && DesktopPriceRows[base + offset].kind == kind;
    }
  }
}

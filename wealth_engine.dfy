/** The wealth-score engine: per dimension and per option, the summed amounts, the
    share of the grand total and a weighted score, before and after planning;
    per dimension the total score, and over all six dimensions the overall score.

    The functions below specify each result; `CalculateWealthScore` computes it
    with the engine's own nested loops and is proved to produce `WealthScoreOf`.
 */
module WealthEngine {
  import opened AssetTable

  /** One dimension of the configuration: its key, its label, its options in
      declared order, its weight, and the score of each option. */
  datatype Dimension = Dimension(key: string, dimensionLabel: string, options: seq<string>, weight: real, optionScores: map<string, int>)

  /** The six fixed dimensions, each joined with its option-score table. */
  const TaxationOnFunding := Dimension("D1", "Taxation on Funding", ["Pre-Tax", "Partially Pre-Tax", "After-Tax"], 0.20,
    map["Pre-Tax" := 3, "Partially Pre-Tax" := 2, "After-Tax" := 1])
  const TaxationOnGrowth := Dimension("D2", "Taxation on Growth",
    ["Taxable/Ordinary Income", "Taxable/Capital Gain", "Tax-Deferred", "Tax-Free"], 0.20,
    map["Taxable/Capital Gain" := 1, "Taxable/Ordinary Income" := 2, "Tax-Deferred" := 3, "Tax-Free" := 4])
  const TaxationOnDistribution := Dimension("D3", "Taxation on Distribution",
    ["Taxable/Ordinary Income", "Taxable/Capital Gain", "Not taxable"], 0.20,
    map["Taxable/Ordinary Income" := 1, "Taxable/Capital Gain" := 2, "Not taxable" := 3])
  const TaxationOnDeath := Dimension("D4", "Taxation on Death", ["Yes", "No"], 0.20,
    map["Yes" := 1, "No" := 2])
  const AssetProtection := Dimension("D5", "Asset Protection", ["Yes", "No", "Partially"], 0.10,
    map["Yes" := 3, "Partially" := 2, "No" := 1])
  const CharitableDeduction := Dimension("D6", "Charitable Deduction", ["Yes", "No"], 0.10,
    map["Yes" := 2, "No" := 1])

  /** The dimensions in their canonical iteration order. */
  const Dimensions: seq<Dimension> :=
    [TaxationOnFunding, TaxationOnGrowth, TaxationOnDistribution, TaxationOnDeath, AssetProtection, CharitableDeduction]

  /** The dimension whose before-planning score is always 0. */
  const CharitableKey: string := "D6"

  /** The name of the column holding a row's option for a dimension. */
  function Column(d: Dimension): string {
    d.key + ": " + d.dimensionLabel
  }

  /** The score of an option; an option missing from the table scores 0. */
  function OptionScore(d: Dimension, option: string): int {
    if option in d.optionScores then d.optionScores[option] else 0
  }

  /** A part's share of a whole, with 0 for a zero whole. */
  function Fraction(part: real, whole: real): (r: real)
    ensures whole == 0.0 ==> r == 0.0
    ensures 0.0 <= part <= whole ==> 0.0 <= r <= 1.0
  {
    if whole != 0.0 then part / whole else 0.0
  }

  /** A share of a non-zero whole, scaled back by the whole, is the part again. */
  lemma FractionScalesBack(part: real, whole: real)
    requires whole != 0.0
    ensures Fraction(part, whole) * whole == part
  {
  }

  /** The points one option earns per unit of fraction: the dimension's weight on
      a 100-point scale, shared out over its options and scaled by the option's score. */
  function UnitScore(d: Dimension, option: string): real
    requires |d.options| > 0
  {
    d.weight * 100.0 * (OptionScore(d, option) as real) / (|d.options| as real)
  }

  /** The score of an option holding a given fraction of the total; before
      planning, the charitable dimension scores 0. */
  function PlanningScore(d: Dimension, option: string, phase: Phase, fraction: real): real
    requires |d.options| > 0
  {
    if phase == BeforePlanning && d.key == CharitableKey then 0.0 else UnitScore(d, option) * fraction
  }

  datatype OptionResult = OptionResult(
    beforeAmount: real, afterAmount: real,
    beforeFraction: real, afterFraction: real,
    beforeScore: real, afterScore: real)

  datatype DimensionResult = DimensionResult(
    dimensionLabel: string, options: map<string, OptionResult>,
    totalBeforeScore: real, totalAfterScore: real)

  datatype ScoreResult = ScoreResult(
    dimensions: map<string, DimensionResult>,
    overallBeforeScore: real, overallAfterScore: real)

  /** The summed amount of the rows selecting `option` in `d`'s column. */
  function OptionAmount(rows: seq<AssetRow>, d: Dimension, option: string, phase: Phase): real {
    Sum(rows, phase, Selecting(Column(d), option))
  }

  function OptionFraction(rows: seq<AssetRow>, d: Dimension, option: string, phase: Phase): real {
    Fraction(OptionAmount(rows, d, option, phase), Total(rows, phase))
  }

  function OptionPlanningScore(rows: seq<AssetRow>, d: Dimension, option: string, phase: Phase): real
    requires |d.options| > 0
  {
    PlanningScore(d, option, phase, OptionFraction(rows, d, option, phase))
  }

  function OptionEntry(rows: seq<AssetRow>, d: Dimension, option: string): OptionResult
    requires |d.options| > 0
  {
    OptionResult(
      OptionAmount(rows, d, option, BeforePlanning), OptionAmount(rows, d, option, AfterPlanning),
      OptionFraction(rows, d, option, BeforePlanning), OptionFraction(rows, d, option, AfterPlanning),
      OptionPlanningScore(rows, d, option, BeforePlanning), OptionPlanningScore(rows, d, option, AfterPlanning))
  }

  /** The option entries of `d` for a prefix `opts` of its options, later options
      overwriting earlier ones of the same name. */
  function OptionEntries(rows: seq<AssetRow>, d: Dimension, opts: seq<string>): map<string, OptionResult>
    requires |d.options| > 0
  {
    if opts == [] then map[]
    else OptionEntries(rows, d, opts[..|opts| - 1])[opts[|opts| - 1] := OptionEntry(rows, d, opts[|opts| - 1])]
  }

  /** The sum of the scores of the options `opts` of `d`. */
  function DimensionScore(rows: seq<AssetRow>, d: Dimension, opts: seq<string>, phase: Phase): real
    requires |d.options| > 0
  {
    if opts == [] then 0.0
    else DimensionScore(rows, d, opts[..|opts| - 1], phase) + OptionPlanningScore(rows, d, opts[|opts| - 1], phase)
  }

  function DimensionEntry(rows: seq<AssetRow>, d: Dimension): DimensionResult {
    if d.options == [] then DimensionResult(d.dimensionLabel, map[], 0.0, 0.0)
    else DimensionResult(d.dimensionLabel, OptionEntries(rows, d, d.options),
                         DimensionScore(rows, d, d.options, BeforePlanning),
                         DimensionScore(rows, d, d.options, AfterPlanning))
  }

  function DimensionEntries(rows: seq<AssetRow>, dims: seq<Dimension>): map<string, DimensionResult> {
    if dims == [] then map[]
    else DimensionEntries(rows, dims[..|dims| - 1])[dims[|dims| - 1].key := DimensionEntry(rows, dims[|dims| - 1])]
  }

  /** The sum of the dimension totals over `dims`. */
  function OverallScore(rows: seq<AssetRow>, dims: seq<Dimension>, phase: Phase): real {
    if dims == [] then 0.0
    else
      var d := dims[|dims| - 1];
      OverallScore(rows, dims[..|dims| - 1], phase)
      + (if d.options == [] then 0.0 else DimensionScore(rows, d, d.options, phase))
  }

  /** The whole result for a table under a configuration. */
  function WealthScoreOf(rows: seq<AssetRow>, dims: seq<Dimension>): ScoreResult {
    ScoreResult(DimensionEntries(rows, dims), OverallScore(rows, dims, BeforePlanning), OverallScore(rows, dims, AfterPlanning))
  }

  /** One more option extends the entries and the score sums by that option. */
  lemma PrefixStep(rows: seq<AssetRow>, d: Dimension, opts: seq<string>, j: nat)
    requires |d.options| > 0 && j < |opts|
    ensures OptionEntries(rows, d, opts[..j + 1]) == OptionEntries(rows, d, opts[..j])[opts[j] := OptionEntry(rows, d, opts[j])]
    ensures forall phase :: DimensionScore(rows, d, opts[..j + 1], phase)
                            == DimensionScore(rows, d, opts[..j], phase) + OptionPlanningScore(rows, d, opts[j], phase)
  {
    assert opts[..j + 1][..j] == opts[..j];
  }

  /** One more dimension extends the entries and the overall scores by that dimension. */
  lemma DimensionStep(rows: seq<AssetRow>, dims: seq<Dimension>, i: nat)
    requires i < |dims|
    ensures DimensionEntries(rows, dims[..i + 1]) == DimensionEntries(rows, dims[..i])[dims[i].key := DimensionEntry(rows, dims[i])]
    ensures forall phase :: OverallScore(rows, dims[..i + 1], phase) == OverallScore(rows, dims[..i], phase)
              + (if phase == BeforePlanning then DimensionEntry(rows, dims[i]).totalBeforeScore
                 else DimensionEntry(rows, dims[i]).totalAfterScore)
  {
    assert dims[..i + 1][..i] == dims[..i];
  }

  /** The engine's work for one option of one dimension: the sums of the rows
      selecting it, their fractions of the grand totals (0 for a zero total) and
      the scores, the before-planning score being 0 in dimension D6. */
  method ScoreOption(formData: seq<AssetRow>, d: Dimension, option: string,
                     totalIncomeBeforePlanning: real, totalIncomeAfterPlanning: real)
    returns (optionResult: OptionResult)
    requires |d.options| > 0
    requires totalIncomeBeforePlanning == Total(formData, BeforePlanning)
    requires totalIncomeAfterPlanning == Total(formData, AfterPlanning)
    ensures optionResult == OptionEntry(formData, d, option)
  {
    var column := d.key + ": " + d.dimensionLabel;
    var beforeSum := Sum(formData, BeforePlanning, Selecting(column, option));
    var afterSum := Sum(formData, AfterPlanning, Selecting(column, option));

    var optionScore := if option in d.optionScores then d.optionScores[option] else 0;

    var beforePercentage := if totalIncomeBeforePlanning != 0.0 then beforeSum / totalIncomeBeforePlanning else 0.0;
    var afterPercentage := if totalIncomeAfterPlanning != 0.0 then afterSum / totalIncomeAfterPlanning else 0.0;

    var unitScore := d.weight * 100.0 * (optionScore as real) / (|d.options| as real);
    var scoreBeforePlanning;
    if d.key == "D6" {
      scoreBeforePlanning := 0.0;
    } else {
      scoreBeforePlanning := unitScore * beforePercentage;
    }
    var scoreAfterPlanning := unitScore * afterPercentage;

    optionResult := OptionResult(
      beforeSum, afterSum, beforePercentage, afterPercentage, scoreBeforePlanning, scoreAfterPlanning);
  }

  /** The inner loop of the engine for one dimension: each option in declared
      order, its scores accumulated into the dimension's total scores. */
  method ScoreDimension(formData: seq<AssetRow>, d: Dimension, totalIncomeBeforePlanning: real, totalIncomeAfterPlanning: real)
    returns (entry: DimensionResult)
    requires totalIncomeBeforePlanning == Total(formData, BeforePlanning)
    requires totalIncomeAfterPlanning == Total(formData, AfterPlanning)
    ensures entry == DimensionEntry(formData, d)
  {
    var options := d.options;
    var optionResults: map<string, OptionResult> := map[];
    var totalBeforeScore := 0.0;
    var totalAfterScore := 0.0;
    if options == [] {
      return DimensionResult(d.dimensionLabel, optionResults, totalBeforeScore, totalAfterScore);
    }

    var j := 0;
    while j < |options|
      invariant 0 <= j <= |options|
      invariant optionResults == OptionEntries(formData, d, options[..j])
      invariant totalBeforeScore == DimensionScore(formData, d, options[..j], BeforePlanning)
      invariant totalAfterScore == DimensionScore(formData, d, options[..j], AfterPlanning)
    {
      var option := options[j];
      var optionResult := ScoreOption(formData, d, option, totalIncomeBeforePlanning, totalIncomeAfterPlanning);
      totalBeforeScore := totalBeforeScore + optionResult.beforeScore;
      totalAfterScore := totalAfterScore + optionResult.afterScore;
      optionResults := optionResults[option := optionResult];
      PrefixStep(formData, d, options, j);
      j := j + 1;
    }
    assert options[..j] == options;
    entry := DimensionResult(d.dimensionLabel, optionResults, totalBeforeScore, totalAfterScore);
  }

  /** The engine: the two grand totals, then each dimension in declared order,
      its totals accumulated into the overall scores. */
  method CalculateWealthScore(formData: seq<AssetRow>) returns (results: ScoreResult)
    ensures results == WealthScoreOf(formData, Dimensions)
  {
    var dimensions := Dimensions;
    var totalIncomeBeforePlanning := Sum(formData, BeforePlanning, AllRows);
    var totalIncomeAfterPlanning := Sum(formData, AfterPlanning, AllRows);

    var dimensionResults: map<string, DimensionResult> := map[];
    var overallTotalBeforeScore := 0.0;
    var overallTotalAfterScore := 0.0;

    var i := 0;
    while i < |dimensions|
      invariant 0 <= i <= |dimensions|
      invariant dimensionResults == DimensionEntries(formData, dimensions[..i])
      invariant overallTotalBeforeScore == OverallScore(formData, dimensions[..i], BeforePlanning)
      invariant overallTotalAfterScore == OverallScore(formData, dimensions[..i], AfterPlanning)
    {
      var d := dimensions[i];
      var entry := ScoreDimension(formData, d, totalIncomeBeforePlanning, totalIncomeAfterPlanning);
      dimensionResults := dimensionResults[d.key := entry];
      overallTotalBeforeScore := overallTotalBeforeScore + entry.totalBeforeScore;
      overallTotalAfterScore := overallTotalAfterScore + entry.totalAfterScore;
      DimensionStep(formData, dimensions, i);
      i := i + 1;
    }
    assert dimensions[..i] == dimensions;

    results := ScoreResult(dimensionResults, overallTotalBeforeScore, overallTotalAfterScore);
  }
}

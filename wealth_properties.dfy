/** What the wealth-score engine guarantees: how its results are assembled from
    the option entries, the partition of the grand totals among the options, the
    D6 special case, the empty table, independence from row order and row
    splitting, and the 0-100 range of the overall score under the fixed tables.
 */
module WealthProperties {
  import opened AssetTable
  import opened WealthEngine

  /** The dimension keys are pairwise distinct. */
  predicate DistinctKeys(dims: seq<Dimension>) {
    forall i, j | 0 <= i < j < |dims| :: dims[i].key != dims[j].key
  }

  /** A dimension whose scores the 0-100 bound needs: a non-negative weight, a
      non-empty list of distinct options, and every option's score between 0 and
      the number of options. */
  predicate WellFormed(d: Dimension) {
    0.0 <= d.weight && |d.options| > 0 && Distinct(d.options)
    && forall i | 0 <= i < |d.options| :: 0 <= OptionScore(d, d.options[i]) <= |d.options|
  }

  function WeightSum(dims: seq<Dimension>): real {
    if dims == [] then 0.0 else WeightSum(dims[..|dims| - 1]) + dims[|dims| - 1].weight
  }

  /** The sum of the fractions of the options `opts`. */
  function FractionSum(rows: seq<AssetRow>, d: Dimension, opts: seq<string>, phase: Phase): real {
    if opts == [] then 0.0
    else FractionSum(rows, d, opts[..|opts| - 1], phase) + OptionFraction(rows, d, opts[|opts| - 1], phase)
  }

  /** Every declared option of every dimension has an entry in its score table. */
  predicate AllOptionsScored(d: Dimension) {
    forall i | 0 <= i < |d.options| :: d.options[i] in d.optionScores
  }

  // ---------------------------------------------------------------------------
  // The fixed tables

  /** The six fixed dimensions have distinct keys D1..D6, in that order. */
  lemma FixedKeys()
    ensures |Dimensions| == 6 && DistinctKeys(Dimensions)
    ensures Dimensions[0].key == "D1" && Dimensions[1].key == "D2" && Dimensions[2].key == "D3"
    ensures Dimensions[3].key == "D4" && Dimensions[4].key == "D5" && Dimensions[5].key == "D6"
  {
  }

  lemma FundingAndGrowthWellFormed()
    ensures WellFormed(TaxationOnFunding) && AllOptionsScored(TaxationOnFunding)
    ensures WellFormed(TaxationOnGrowth) && AllOptionsScored(TaxationOnGrowth)
  {
  }

  lemma DistributionAndDeathWellFormed()
    ensures WellFormed(TaxationOnDistribution) && AllOptionsScored(TaxationOnDistribution)
    ensures WellFormed(TaxationOnDeath) && AllOptionsScored(TaxationOnDeath)
  {
  }

  lemma ProtectionAndCharityWellFormed()
    ensures WellFormed(AssetProtection) && AllOptionsScored(AssetProtection)
    ensures WellFormed(CharitableDeduction) && AllOptionsScored(CharitableDeduction)
  {
  }

  /** Each fixed dimension has a non-negative weight and distinct options, each
      listed in its score table with a score between 1 and the number of options. */
  lemma FixedDimensionsWellFormed()
    ensures forall i | 0 <= i < |Dimensions| :: WellFormed(Dimensions[i]) && AllOptionsScored(Dimensions[i])
    ensures forall i, j | 0 <= i < |Dimensions| && 0 <= j < |Dimensions[i].options| ::
      1 <= OptionScore(Dimensions[i], Dimensions[i].options[j])
  {
    FundingAndGrowthWellFormed();
    DistributionAndDeathWellFormed();
    ProtectionAndCharityWellFormed();
  }

  /** The fixed weights 0.20, 0.20, 0.20, 0.20, 0.10, 0.10 sum to exactly 1. */
  lemma FixedWeightsSumToOne()
    ensures WeightSum(Dimensions) == 1.0
  {
    var ds := Dimensions;
    assert WeightSum(ds[..1]) == 0.2 by { assert ds[..1][..0] == []; }
    assert WeightSum(ds[..2]) == 0.4 by { assert ds[..2][..1] == ds[..1]; }
    assert WeightSum(ds[..3]) == 0.6 by { assert ds[..3][..2] == ds[..2]; }
    assert WeightSum(ds[..4]) == 0.8 by { assert ds[..4][..3] == ds[..3]; }
    assert WeightSum(ds[..5]) == 0.9 by { assert ds[..5][..4] == ds[..4]; }
    assert ds[..6] == ds && ds[..6][..5] == ds[..5];
  }

  // ---------------------------------------------------------------------------
  // How the result is assembled

  /** The option map of a dimension has exactly the listed options as keys, and
      each maps to that option's entry. */
  lemma {:induction false} OptionEntriesAreEntries(rows: seq<AssetRow>, d: Dimension, opts: seq<string>)
    requires |d.options| > 0
    ensures OptionEntries(rows, d, opts).Keys == set o | o in opts
    ensures forall o | o in OptionEntries(rows, d, opts) :: OptionEntries(rows, d, opts)[o] == OptionEntry(rows, d, o)
  {
    if opts != [] {
      var init := opts[..|opts| - 1];
      assert opts == init + [opts[|opts| - 1]];
      OptionEntriesAreEntries(rows, d, init);
    }
  }

  /** With distinct keys, each dimension's key maps to that dimension's entry, and
      the result holds no other key. */
  lemma {:induction false} DimensionEntriesLookup(rows: seq<AssetRow>, dims: seq<Dimension>)
    requires DistinctKeys(dims)
    ensures DimensionEntries(rows, dims).Keys == set d | d in dims :: d.key
    ensures forall i | 0 <= i < |dims| :: DimensionEntries(rows, dims)[dims[i].key] == DimensionEntry(rows, dims[i])
  {
    if dims != [] {
      var init := dims[..|dims| - 1];
      assert dims == init + [dims[|dims| - 1]];
      assert DistinctKeys(init);
      DimensionEntriesLookup(rows, init);
    }
  }

  /** The keys of `dims`, in order. */
  function KeysOf(dims: seq<Dimension>): (keys: seq<string>)
    ensures |keys| == |dims| && forall i | 0 <= i < |dims| :: keys[i] == dims[i].key
  {
    if dims == [] then [] else KeysOf(dims[..|dims| - 1]) + [dims[|dims| - 1].key]
  }

  /** The total score a dimension result records for a phase. */
  function RecordedTotal(e: DimensionResult, phase: Phase): real {
    if phase == BeforePlanning then e.totalBeforeScore else e.totalAfterScore
  }

  /** The overall score a result records for a phase. */
  function RecordedOverall(r: ScoreResult, phase: Phase): real {
    if phase == BeforePlanning then r.overallBeforeScore else r.overallAfterScore
  }

  /** The sum of the totals the dimension results under `keys` record. */
  function RecordedSum(m: map<string, DimensionResult>, keys: seq<string>, phase: Phase): real
    requires forall k | k in keys :: k in m
  {
    if keys == [] then 0.0 else RecordedSum(m, keys[..|keys| - 1], phase) + RecordedTotal(m[keys[|keys| - 1]], phase)
  }

  /** Adding a result under a key not listed leaves the sum over the listed keys alone. */
  lemma {:induction false} RecordedSumUnaffected(m: map<string, DimensionResult>, keys: seq<string>, k: string, e: DimensionResult, phase: Phase)
    requires forall j | j in keys :: j in m
    requires k !in keys
    ensures RecordedSum(m[k := e], keys, phase) == RecordedSum(m, keys, phase)
  {
    if keys != [] {
      RecordedSumUnaffected(m, keys[..|keys| - 1], k, e, phase);
    }
  }

  /** With distinct keys, each overall score is the sum of the totals recorded in
      the result's dimension entries. */
  lemma {:induction false} OverallIsSumOfDimensionTotals(rows: seq<AssetRow>, dims: seq<Dimension>, phase: Phase)
    requires DistinctKeys(dims)
    ensures forall k | k in KeysOf(dims) :: k in WealthScoreOf(rows, dims).dimensions
    ensures RecordedOverall(WealthScoreOf(rows, dims), phase)
            == RecordedSum(WealthScoreOf(rows, dims).dimensions, KeysOf(dims), phase)
  {
    if dims != [] {
      var init, last := dims[..|dims| - 1], dims[|dims| - 1];
      assert DistinctKeys(init);
      OverallIsSumOfDimensionTotals(rows, init, phase);
      var m, e := DimensionEntries(rows, init), DimensionEntry(rows, last);
      assert DimensionEntries(rows, dims) == m[last.key := e];
      assert KeysOf(dims) == KeysOf(init) + [last.key];
      assert last.key !in KeysOf(init);
      RecordedSumUnaffected(m, KeysOf(init), last.key, e, phase);
      assert RecordedOverall(WealthScoreOf(rows, dims), phase) == RecordedOverall(WealthScoreOf(rows, init), phase) + RecordedTotal(e, phase);
    }
  }

  /** The score an option result records for a phase. */
  function RecordedScore(e: OptionResult, phase: Phase): real {
    if phase == BeforePlanning then e.beforeScore else e.afterScore
  }

  /** The sum of the scores the option results under `opts` record. */
  function RecordedOptionSum(m: map<string, OptionResult>, opts: seq<string>, phase: Phase): real
    requires forall o | o in opts :: o in m
  {
    if opts == [] then 0.0 else RecordedOptionSum(m, opts[..|opts| - 1], phase) + RecordedScore(m[opts[|opts| - 1]], phase)
  }

  /** Adding a result under an option not listed leaves the sum over the listed options alone. */
  lemma {:induction false} RecordedOptionSumUnaffected(m: map<string, OptionResult>, opts: seq<string>, o: string, e: OptionResult, phase: Phase)
    requires forall j | j in opts :: j in m
    requires o !in opts
    ensures RecordedOptionSum(m[o := e], opts, phase) == RecordedOptionSum(m, opts, phase)
  {
    if opts != [] {
      RecordedOptionSumUnaffected(m, opts[..|opts| - 1], o, e, phase);
    }
  }

  /** For distinct options, the running dimension score is the sum of the scores
      recorded in the option entries filled so far. */
  lemma {:induction false} OptionScoresAddUp(rows: seq<AssetRow>, d: Dimension, opts: seq<string>, phase: Phase)
    requires |d.options| > 0 && Distinct(opts)
    ensures forall o | o in opts :: o in OptionEntries(rows, d, opts)
    ensures DimensionScore(rows, d, opts, phase) == RecordedOptionSum(OptionEntries(rows, d, opts), opts, phase)
  {
    if opts != [] {
      var init, last := opts[..|opts| - 1], opts[|opts| - 1];
      assert opts == init + [last];
      assert Distinct(init);
      assert last !in init;
      OptionScoresAddUp(rows, d, init, phase);
      var m, e := OptionEntries(rows, d, init), OptionEntry(rows, d, last);
      RecordedOptionSumUnaffected(m, init, last, e, phase);
      assert RecordedScore(e, phase) == OptionPlanningScore(rows, d, last, phase);
    }
  }

  /** A dimension with distinct options records, for each phase, a total equal to
      the sum of the option scores it records. */
  lemma DimensionTotalIsSumOfOptionScores(rows: seq<AssetRow>, d: Dimension, phase: Phase)
    requires Distinct(d.options)
    ensures forall o | o in d.options :: o in DimensionEntry(rows, d).options
    ensures RecordedTotal(DimensionEntry(rows, d), phase)
            == RecordedOptionSum(DimensionEntry(rows, d).options, d.options, phase)
  {
    if d.options != [] {
      OptionScoresAddUp(rows, d, d.options, phase);
    }
  }

  /** In the whole result, each dimension's recorded total is the sum of the
      option scores recorded under it. */
  lemma RecordedTotalsAddUp(rows: seq<AssetRow>, dims: seq<Dimension>, phase: Phase)
    requires DistinctKeys(dims) && forall i | 0 <= i < |dims| :: Distinct(dims[i].options)
    ensures forall i | 0 <= i < |dims| :: dims[i].key in WealthScoreOf(rows, dims).dimensions
    ensures forall i | 0 <= i < |dims| ::
      var e := WealthScoreOf(rows, dims).dimensions[dims[i].key];
      (forall o | o in dims[i].options :: o in e.options)
      && RecordedTotal(e, phase) == RecordedOptionSum(e.options, dims[i].options, phase)
  {
    DimensionEntriesLookup(rows, dims);
    forall i | 0 <= i < |dims|
      ensures dims[i].key in WealthScoreOf(rows, dims).dimensions
      ensures var e := WealthScoreOf(rows, dims).dimensions[dims[i].key];
        (forall o | o in dims[i].options :: o in e.options)
        && RecordedTotal(e, phase) == RecordedOptionSum(e.options, dims[i].options, phase)
    {
      assert dims[i] in dims;
      DimensionTotalIsSumOfOptionScores(rows, dims[i], phase);
    }
  }

  // ---------------------------------------------------------------------------
  // Fractions

  lemma SharesAdd(a: real, b: real, t: real)
    ensures Fraction(a, t) + Fraction(b, t) == Fraction(a + b, t)
  {
    if t != 0.0 {
      calc {
        Fraction(a, t) + Fraction(b, t);
        a / t + b / t;
        (a + b) / t;
      }
    }
  }

  lemma WholeShare(t: real)
    requires t != 0.0
    ensures Fraction(t, t) == 1.0
  {
    assert t / t == 1.0;
  }

  /** The fractions of a sequence of options add up to the fraction of their
      summed amounts. */
  lemma {:induction false} FractionSumIsShareOfOptionSums(rows: seq<AssetRow>, d: Dimension, opts: seq<string>, phase: Phase)
    ensures FractionSum(rows, d, opts, phase) == Fraction(OptionSums(rows, phase, Column(d), opts), Total(rows, phase))
  {
    if opts != [] {
      FractionSumIsShareOfOptionSums(rows, d, opts[..|opts| - 1], phase);
      SharesAdd(OptionSums(rows, phase, Column(d), opts[..|opts| - 1]), OptionAmount(rows, d, opts[|opts| - 1], phase),
                Total(rows, phase));
    }
  }

  /** With non-negative amounts and distinct options, the fractions of a
      dimension's options lie in [0,1] and add up to at most 1. */
  lemma FractionsBounded(rows: seq<AssetRow>, d: Dimension, phase: Phase)
    requires NonNegative(rows) && Distinct(d.options)
    ensures forall o :: 0.0 <= OptionFraction(rows, d, o, phase) <= 1.0
    ensures 0.0 <= FractionSum(rows, d, d.options, phase) <= 1.0
  {
    forall o ensures 0.0 <= OptionFraction(rows, d, o, phase) <= 1.0 {
      SumNonNegative(rows, phase, Selecting(Column(d), o));
      SumMonotone(rows, phase, Selecting(Column(d), o), AllRows);
    }
    FractionSumIsShareOfOptionSums(rows, d, d.options, phase);
    OptionSumsWithinTotal(rows, phase, Column(d), d.options);
  }

  /** When the total is non-zero and every row selects one of a dimension's
      (distinct) options, that dimension's fractions add up to exactly 1. */
  lemma FractionsPartitionWhole(rows: seq<AssetRow>, d: Dimension, phase: Phase)
    requires Distinct(d.options) && Total(rows, phase) != 0.0
    requires forall i | 0 <= i < |rows| :: Keeps(SelectingAnyOf(Column(d), d.options), rows[i])
    ensures FractionSum(rows, d, d.options, phase) == 1.0
  {
    FractionSumIsShareOfOptionSums(rows, d, d.options, phase);
    OptionSumsCoverTotal(rows, phase, Column(d), d.options);
    WholeShare(Total(rows, phase));
  }

  // ---------------------------------------------------------------------------
  // Scores of one option

  /** An option's scores: the general formula `weight*100*score/len(options)`
      times the fraction, except before planning in D6, where it is 0; an option
      missing from the score table scores 0. */
  lemma OptionScoreFormula(rows: seq<AssetRow>, d: Dimension, o: string)
    requires |d.options| > 0
    ensures var e := OptionEntry(rows, d, o);
      && e.beforeScore == (if d.key == "D6" then 0.0
                           else d.weight * 100.0 * (OptionScore(d, o) as real) / (|d.options| as real) * e.beforeFraction)
      && e.afterScore == d.weight * 100.0 * (OptionScore(d, o) as real) / (|d.options| as real) * e.afterFraction
      && (o !in d.optionScores ==> e.beforeScore == 0.0 && e.afterScore == 0.0)
  {
  }

  /** The score of one option lies between 0 and the ceiling its fraction sets in
      its dimension. */
  lemma OptionScoreBound(rows: seq<AssetRow>, d: Dimension, o: string, phase: Phase)
    requires NonNegative(rows) && 0.0 <= d.weight && |d.options| > 0
    requires 0 <= OptionScore(d, o) <= |d.options|
    ensures 0.0 <= OptionPlanningScore(rows, d, o, phase) <= Ceiling(Points(d), OptionFraction(rows, d, o, phase))
  {
    var f := OptionFraction(rows, d, o, phase);
    assert 0.0 <= f by {
      SumNonNegative(rows, phase, Selecting(Column(d), o));
      SumMonotone(rows, phase, Selecting(Column(d), o), AllRows);
    }
    ShareOfWeight(d.weight * 100.0, OptionScore(d, o) as real, |d.options| as real);
    ScaleBetween(UnitScore(d, o), Points(d), f);
  }

  /** A dimension's weight on the 100-point scale. */
  function Points(d: Dimension): real {
    d.weight * 100.0
  }

  /** The most a holding of `fraction` of the total can score in a dimension worth
      `points`: what an option with the top score would earn. */
  function Ceiling(points: real, fraction: real): real {
    points * fraction
  }

  lemma ShareOfWeight(w: real, s: real, n: real)
    requires 0.0 <= w && 0.0 <= s <= n && 0.0 < n
    ensures 0.0 <= w * s / n <= w
  {
    assert w * s <= w * n;
    assert w * s / n <= w * n / n;
  }

  lemma ScaleBetween(u: real, w: real, f: real)
    requires 0.0 <= u <= w && 0.0 <= f
    ensures 0.0 <= u * f <= Ceiling(w, f)
  {
    assert (w - u) * f >= 0.0;
  }

  // ---------------------------------------------------------------------------
  // The D6 special case

  /** In a dimension keyed D6 an option's before-planning score is 0 whatever the
      rows, while its after-planning score follows the general formula. */
  lemma CharitableOptionScores(rows: seq<AssetRow>, d: Dimension, o: string)
    requires d.key == "D6" && |d.options| > 0
    ensures OptionEntry(rows, d, o).beforeScore == 0.0
    ensures OptionEntry(rows, d, o).afterScore == UnitScore(d, o) * OptionEntry(rows, d, o).afterFraction
  {
  }

  /** In a dimension keyed D6 the before-planning total is 0 whatever the rows. */
  lemma {:induction false} CharitableBeforeTotalZero(rows: seq<AssetRow>, d: Dimension, opts: seq<string>)
    requires d.key == "D6" && |d.options| > 0
    ensures DimensionScore(rows, d, opts, BeforePlanning) == 0.0
  {
    if opts != [] {
      CharitableBeforeTotalZero(rows, d, opts[..|opts| - 1]);
      CharitableOptionScores(rows, d, opts[|opts| - 1]);
    }
  }

  /** Under the fixed tables, the D6 "Charitable Deduction" entry has a zero
      before-planning score for both its options and in total, while its
      after-planning scores are 0.10*100*2/2 = 10 and 0.10*100*1/2 = 5 points
      per unit of fraction for "Yes" and "No". */
  lemma FixedCharitableDimension(rows: seq<AssetRow>)
    ensures var r := WealthScoreOf(rows, Dimensions);
      && "D6" in r.dimensions
      && r.dimensions["D6"].dimensionLabel == "Charitable Deduction"
      && r.dimensions["D6"].options.Keys == {"Yes", "No"}
      && r.dimensions["D6"].totalBeforeScore == 0.0
      && r.dimensions["D6"].options["Yes"].beforeScore == 0.0
      && r.dimensions["D6"].options["No"].beforeScore == 0.0
      && r.dimensions["D6"].options["Yes"].afterScore == 10.0 * r.dimensions["D6"].options["Yes"].afterFraction
      && r.dimensions["D6"].options["No"].afterScore == 5.0 * r.dimensions["D6"].options["No"].afterFraction
  {
    var d := CharitableDeduction;
    assert Dimensions[..|Dimensions| - 1] == Dimensions[..5];
    assert WealthScoreOf(rows, Dimensions).dimensions["D6"] == DimensionEntry(rows, d);
    var yes, no := OptionEntry(rows, d, "Yes"), OptionEntry(rows, d, "No");
    assert d.options[..1] == ["Yes"] && d.options[..1][..0] == [];
    assert OptionEntries(rows, d, ["Yes"]) == map["Yes" := yes];
    assert OptionEntries(rows, d, d.options) == map["Yes" := yes]["No" := no];
    assert map["Yes" := yes]["No" := no] == map["Yes" := yes, "No" := no];
    CharitableBeforeTotalZero(rows, d, d.options);
    CharitableOptionScores(rows, d, "Yes");
    CharitableOptionScores(rows, d, "No");
    assert UnitScore(d, "Yes") == 10.0 && UnitScore(d, "No") == 5.0;
  }

  // ---------------------------------------------------------------------------
  // One row

  /** A table of one Pre-Tax row: the Pre-Tax option holds the whole amount, a
      fraction of 1 and the full D1 weight of 0.20*100*3/3 = 20 points before and
      after planning, while After-Tax holds nothing and scores nothing. */
  lemma SinglePreTaxRow(amount: real)
    requires amount > 0.0
    ensures var rows := [AssetRow("401(k)", Number(amount), Number(amount), map[Column(TaxationOnFunding) := "Pre-Tax"])];
      && OptionEntry(rows, TaxationOnFunding, "Pre-Tax") == OptionResult(amount, amount, 1.0, 1.0, 20.0, 20.0)
      && OptionEntry(rows, TaxationOnFunding, "After-Tax") == ZeroEntry
  {
    var d := TaxationOnFunding;
    var rows := [AssetRow("401(k)", Number(amount), Number(amount), map[Column(d) := "Pre-Tax"])];
    forall phase ensures Total(rows, phase) == amount && OptionAmount(rows, d, "Pre-Tax", phase) == amount
                   && OptionAmount(rows, d, "After-Tax", phase) == 0.0 {
      SumOfOne(rows[0], phase, AllRows);
      SumOfOne(rows[0], phase, Selecting(Column(d), "Pre-Tax"));
      SumOfOne(rows[0], phase, Selecting(Column(d), "After-Tax"));
      assert Keeps(Selecting(Column(d), "Pre-Tax"), rows[0]) && !Keeps(Selecting(Column(d), "After-Tax"), rows[0]);
    }
    WholeShare(amount);
    assert UnitScore(d, "Pre-Tax") == 20.0;
  }

  // ---------------------------------------------------------------------------
  // The empty table

  /** The entry every option gets from an empty table. */
  const ZeroEntry := OptionResult(0.0, 0.0, 0.0, 0.0, 0.0, 0.0)

  lemma {:induction false} EmptyTableOptions(d: Dimension, opts: seq<string>)
    requires |d.options| > 0
    ensures DimensionScore([], d, opts, BeforePlanning) == 0.0 && DimensionScore([], d, opts, AfterPlanning) == 0.0
    ensures forall o | o in OptionEntries([], d, opts) :: OptionEntries([], d, opts)[o] == ZeroEntry
  {
    OptionEntriesAreEntries([], d, opts);
    if opts != [] {
      EmptyTableOptions(d, opts[..|opts| - 1]);
    }
  }

  /** An empty table: every sum, fraction and score of every option is 0, and so
      are the dimension totals and the overall scores. */
  lemma {:induction false} EmptyTableScoresZero(dims: seq<Dimension>)
    ensures var r := WealthScoreOf([], dims);
      && r.overallBeforeScore == 0.0 && r.overallAfterScore == 0.0
      && forall k | k in r.dimensions ::
           r.dimensions[k].totalBeforeScore == 0.0 && r.dimensions[k].totalAfterScore == 0.0
           && forall o | o in r.dimensions[k].options :: r.dimensions[k].options[o] == ZeroEntry
  {
    if dims != [] {
      EmptyTableScoresZero(dims[..|dims| - 1]);
      var d := dims[|dims| - 1];
      if d.options != [] {
        EmptyTableOptions(d, d.options);
      }
    }
  }

  // ---------------------------------------------------------------------------
  // Independence from row order and row splitting

  /** Two tables with the same filtered sums, for every filter. */
  ghost predicate SameSums(a: seq<AssetRow>, b: seq<AssetRow>) {
    forall phase, f :: Sum(a, phase, f) == Sum(b, phase, f)
  }

  lemma {:induction false} SameSumsSameOptions(a: seq<AssetRow>, b: seq<AssetRow>, d: Dimension, opts: seq<string>)
    requires SameSums(a, b) && |d.options| > 0
    ensures OptionEntries(a, d, opts) == OptionEntries(b, d, opts)
    ensures forall phase :: DimensionScore(a, d, opts, phase) == DimensionScore(b, d, opts, phase)
  {
    if opts != [] {
      SameSumsSameOptions(a, b, d, opts[..|opts| - 1]);
      var o := opts[|opts| - 1];
      assert Total(a, BeforePlanning) == Total(b, BeforePlanning);
      assert Total(a, AfterPlanning) == Total(b, AfterPlanning);
      assert OptionAmount(a, d, o, BeforePlanning) == OptionAmount(b, d, o, BeforePlanning);
      assert OptionAmount(a, d, o, AfterPlanning) == OptionAmount(b, d, o, AfterPlanning);
    }
  }

  /** The result depends on the table only through its filtered sums. */
  lemma {:induction false} SameSumsSameScore(a: seq<AssetRow>, b: seq<AssetRow>, dims: seq<Dimension>)
    requires SameSums(a, b)
    ensures WealthScoreOf(a, dims) == WealthScoreOf(b, dims)
  {
    if dims != [] {
      SameSumsSameScore(a, b, dims[..|dims| - 1]);
      var d := dims[|dims| - 1];
      if d.options != [] {
        SameSumsSameOptions(a, b, d, d.options);
      }
    }
  }

  /** Reordering the rows changes no part of the result. */
  lemma ScoreIgnoresRowOrder(rows: seq<AssetRow>, reordered: seq<AssetRow>, dims: seq<Dimension>)
    requires multiset(rows) == multiset(reordered)
    ensures WealthScoreOf(rows, dims) == WealthScoreOf(reordered, dims)
  {
    forall phase, f ensures Sum(rows, phase, f) == Sum(reordered, phase, f) {
      SumPermutation(rows, reordered, phase, f);
    }
    SameSumsSameScore(rows, reordered, dims);
  }

  /** Splitting one row into two rows with the same selections, whose amounts add
      up to the original's, changes no part of the result. */
  lemma ScoreIgnoresRowSplit(rows: seq<AssetRow>, i: nat, first: AssetRow, second: AssetRow, dims: seq<Dimension>)
    requires i < |rows|
    requires first.selections == rows[i].selections && second.selections == rows[i].selections
    requires Amount(first, BeforePlanning) + Amount(second, BeforePlanning) == Amount(rows[i], BeforePlanning)
    requires Amount(first, AfterPlanning) + Amount(second, AfterPlanning) == Amount(rows[i], AfterPlanning)
    ensures WealthScoreOf(rows[..i] + [first, second] + rows[i + 1..], dims) == WealthScoreOf(rows, dims)
  {
    var split := rows[..i] + [first, second] + rows[i + 1..];
    forall phase, f ensures Sum(split, phase, f) == Sum(rows, phase, f) {
      SumAppend(rows[..i] + [first, second], rows[i + 1..], phase, f);
      SumAppend(rows[..i], [first, second], phase, f);
      SumRemove(rows, i, phase, f);
      SumAppend(rows[..i], rows[i + 1..], phase, f);
      assert [first, second][1..] == [second] && [second][1..] == [];
      assert Keeps(f, first) == Keeps(f, rows[i]) && Keeps(f, second) == Keeps(f, rows[i]);
      assert Amount(first, phase) + Amount(second, phase) == Amount(rows[i], phase);
      assert Contribution(first, phase, f) + Contribution(second, phase, f) == Contribution(rows[i], phase, f);
      assert Sum([second], phase, f) == Contribution(second, phase, f);
      assert Sum([first, second], phase, f) == Contribution(first, phase, f) + Contribution(second, phase, f);
    }
    SameSumsSameScore(split, rows, dims);
  }

  // ---------------------------------------------------------------------------
  // The 0-100 range

  /** Two terms each at most `c` times their partner add up to at most `c` times
      the partners' sum. */
  lemma DistributeStep(c: real, x: real, y: real, a: real, b: real, xy: real, ab: real)
    requires a <= Ceiling(c, x) && b <= Ceiling(c, y)
    requires xy == x + y && ab == a + b
    ensures ab <= Ceiling(c, xy)
  {
    assert c * x + c * y == c * (x + y);
  }

  lemma ScaleAtMost(w: real, x: real)
    requires 0.0 <= w && x <= 1.0
    ensures Ceiling(w, x) <= w
  {
  }

  /** The scores of a sequence of options of a dimension add up to between 0 and
      the dimension's weight on the 100-point scale times their summed fractions. */
  lemma {:induction false} DimensionScoreWithinShare(rows: seq<AssetRow>, d: Dimension, opts: seq<string>, phase: Phase)
    requires NonNegative(rows) && 0.0 <= d.weight && |d.options| > 0
    requires forall i | 0 <= i < |opts| :: 0 <= OptionScore(d, opts[i]) <= |d.options|
    ensures 0.0 <= DimensionScore(rows, d, opts, phase) <= Ceiling(Points(d), FractionSum(rows, d, opts, phase))
  {
    if opts == [] {
      assert Ceiling(Points(d), FractionSum(rows, d, opts, phase)) == Ceiling(Points(d), 0.0);
    } else {
      var init, last := opts[..|opts| - 1], opts[|opts| - 1];
      assert forall i | 0 <= i < |init| :: init[i] == opts[i];
      DimensionScoreWithinShare(rows, d, init, phase);
      OptionScoreBound(rows, d, last, phase);
      DistributeStep(Points(d), FractionSum(rows, d, init, phase), OptionFraction(rows, d, last, phase),
                     DimensionScore(rows, d, init, phase), OptionPlanningScore(rows, d, last, phase),
                     FractionSum(rows, d, opts, phase), DimensionScore(rows, d, opts, phase));
    }
  }

  /** With non-negative amounts, a well-formed dimension's total score lies
      between 0 and its weight on the 100-point scale. */
  lemma DimensionTotalBound(rows: seq<AssetRow>, d: Dimension, phase: Phase)
    requires NonNegative(rows) && WellFormed(d)
    ensures 0.0 <= DimensionScore(rows, d, d.options, phase) <= d.weight * 100.0
  {
    DimensionScoreWithinShare(rows, d, d.options, phase);
    FractionsBounded(rows, d, phase);
    ScaleAtMost(Points(d), FractionSum(rows, d, d.options, phase));
  }

  /** With non-negative amounts and well-formed dimensions, the overall score lies
      between 0 and 100 times the sum of the weights. */
  lemma {:induction false} OverallScoreBound(rows: seq<AssetRow>, dims: seq<Dimension>, phase: Phase)
    requires NonNegative(rows)
    requires forall i | 0 <= i < |dims| :: WellFormed(dims[i])
    ensures 0.0 <= OverallScore(rows, dims, phase) <= 100.0 * WeightSum(dims)
  {
    if dims != [] {
      var init := dims[..|dims| - 1];
      assert forall i | 0 <= i < |init| :: init[i] == dims[i];
      OverallScoreBound(rows, init, phase);
      DimensionTotalBound(rows, dims[|dims| - 1], phase);
    }
  }

  /** With non-negative amounts, distinct keys, well-formed dimensions and weights
      summing to 1, both overall scores lie in the gauge's 0-100 range, and each
      recorded dimension total lies between 0 and its weight on that scale. */
  lemma GaugeRange(rows: seq<AssetRow>, dims: seq<Dimension>)
    requires NonNegative(rows) && DistinctKeys(dims) && WeightSum(dims) == 1.0
    requires forall i | 0 <= i < |dims| :: WellFormed(dims[i])
    ensures var r := WealthScoreOf(rows, dims);
      && 0.0 <= r.overallBeforeScore <= 100.0 && 0.0 <= r.overallAfterScore <= 100.0
      && forall i | 0 <= i < |dims| ::
           dims[i].key in r.dimensions
           && 0.0 <= r.dimensions[dims[i].key].totalBeforeScore <= dims[i].weight * 100.0
           && 0.0 <= r.dimensions[dims[i].key].totalAfterScore <= dims[i].weight * 100.0
  {
    OverallScoreBound(rows, dims, BeforePlanning);
    OverallScoreBound(rows, dims, AfterPlanning);
    DimensionEntriesLookup(rows, dims);
    forall i | 0 <= i < |dims|
      ensures dims[i].key in DimensionEntries(rows, dims)
      ensures 0.0 <= DimensionEntry(rows, dims[i]).totalBeforeScore <= dims[i].weight * 100.0
      ensures 0.0 <= DimensionEntry(rows, dims[i]).totalAfterScore <= dims[i].weight * 100.0
    {
      DimensionTotalBound(rows, dims[i], BeforePlanning);
      DimensionTotalBound(rows, dims[i], AfterPlanning);
    }
  }

  /** Under the fixed tables and non-negative amounts, both overall scores lie in
      the gauge's 0-100 range. */
  lemma FixedGaugeRange(rows: seq<AssetRow>)
    requires NonNegative(rows)
    ensures 0.0 <= WealthScoreOf(rows, Dimensions).overallBeforeScore <= 100.0
    ensures 0.0 <= WealthScoreOf(rows, Dimensions).overallAfterScore <= 100.0
  {
    FixedKeys();
    FixedDimensionsWellFormed();
    FixedWeightsSumToOne();
    GaugeRange(rows, Dimensions);
  }
}

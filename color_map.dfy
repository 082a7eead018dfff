/** The bar-chart colour classifier: each option of a score table is coloured
    green when it has the highest score, red when it has the lowest (and not the
    highest), and orange otherwise.

    A score table is a dictionary in insertion order, modelled as a sequence of
    (option, score) pairs whose options are distinct.
 */
module ColorMap {
  import opened Optional

  datatype Color = Green | Red | Orange

  type ScoreTable = seq<(string, int)>

  /** The dictionary invariant: no option appears twice. */
  predicate DistinctOptions(table: ScoreTable) {
    forall i, j | 0 <= i < j < |table| :: table[i].0 != table[j].0
  }

  /** The options of a table, as a set. */
  function OptionsOf(table: ScoreTable): (options: set<string>)
    ensures forall i | 0 <= i < |table| :: table[i].0 in options
    ensures forall o | o in options :: exists i | 0 <= i < |table| :: table[i].0 == o
  {
    if table == [] then {} else OptionsOf(table[..|table| - 1]) + {table[|table| - 1].0}
  }

  /** The smallest score, the score of the first entry after a sort by score. */
  function MinScore(table: ScoreTable): (lo: int)
    requires |table| > 0
    ensures exists i | 0 <= i < |table| :: table[i].1 == lo
    ensures forall i | 0 <= i < |table| :: lo <= table[i].1
  {
    if |table| == 1 then table[0].1
    else
      var rest := MinScore(table[..|table| - 1]);
      if table[|table| - 1].1 < rest then table[|table| - 1].1 else rest
  }

  /** The largest score, the score of the last entry after a sort by score. */
  function MaxScore(table: ScoreTable): (hi: int)
    requires |table| > 0
    ensures exists i | 0 <= i < |table| :: table[i].1 == hi
    ensures forall i | 0 <= i < |table| :: table[i].1 <= hi
  {
    if |table| == 1 then table[0].1
    else
      var rest := MaxScore(table[..|table| - 1]);
      if table[|table| - 1].1 > rest then table[|table| - 1].1 else rest
  }

  /** The colour of one score, the maximum being tested first. */
  function ColorFor(score: int, lo: int, hi: int): Color {
    if score == hi then Green else if score == lo then Red else Orange
  }

  /** The colours of the entries of `table`, entered in order. */
  function Colors(table: ScoreTable, lo: int, hi: int): map<string, Color> {
    if table == [] then map[]
    else Colors(table[..|table| - 1], lo, hi)[table[|table| - 1].0 := ColorFor(table[|table| - 1].1, lo, hi)]
  }

  /** The colour map of a table; an empty table has no first and last sorted
      entry, and the lookup raises. */
  function ColorMapOf(table: ScoreTable): Option<map<string, Color>> {
    if table == [] then None else Some(Colors(table, MinScore(table), MaxScore(table)))
  }

  /** The classifier: the extreme scores of the table, then one colour per entry
      in the table's order. */
  method GetColorMap(optionScores: ScoreTable) returns (colorMap: Option<map<string, Color>>)
    ensures colorMap == ColorMapOf(optionScores)
  {
    if |optionScores| == 0 {
      return None;
    }
    var minScore := MinScore(optionScores);
    var maxScore := MaxScore(optionScores);

    var colors: map<string, Color> := map[];
    var i := 0;
    while i < |optionScores|
      invariant 0 <= i <= |optionScores|
      invariant colors == Colors(optionScores[..i], minScore, maxScore)
    {
      var (option, score) := optionScores[i];
      if score == maxScore {
        colors := colors[option := Green];
      } else if score == minScore {
        colors := colors[option := Red];
      } else {
        colors := colors[option := Orange];
      }
      assert optionScores[..i + 1][..i] == optionScores[..i];
      i := i + 1;
    }
    assert optionScores[..i] == optionScores;
    colorMap := Some(colors);
  }

  /** With distinct options, every option of the table is coloured by its own
      score, and nothing else is coloured. */
  lemma {:induction false} ColorsLookup(table: ScoreTable, lo: int, hi: int)
    requires DistinctOptions(table)
    ensures Colors(table, lo, hi).Keys == OptionsOf(table)
    ensures forall i | 0 <= i < |table| :: Colors(table, lo, hi)[table[i].0] == ColorFor(table[i].1, lo, hi)
  {
    if table != [] {
      var init, last := table[..|table| - 1], table[|table| - 1];
      assert DistinctOptions(init);
      ColorsLookup(init, lo, hi);
      var colors := Colors(table, lo, hi);
      assert colors == Colors(init, lo, hi)[last.0 := ColorFor(last.1, lo, hi)];
      forall i | 0 <= i < |table| ensures colors[table[i].0] == ColorFor(table[i].1, lo, hi) {
        if i < |init| {
          assert table[i] == init[i] && table[i].0 != last.0;
        }
      }
    }
  }

  /** The colour map of a non-empty table has exactly its options as keys; an
      option is green iff its score is the maximum, red iff its score is the
      minimum but not the maximum, and orange iff its score lies strictly
      between the two. An empty table has no colour map. */
  lemma ColorMapClassifies(table: ScoreTable)
    requires DistinctOptions(table)
    ensures ColorMapOf(table).None? <==> table == []
    ensures table != [] ==>
      var colors := ColorMapOf(table).value;
      && colors.Keys == OptionsOf(table)
      && forall i | 0 <= i < |table| ::
           && (colors[table[i].0] == Green <==> table[i].1 == MaxScore(table))
           && (colors[table[i].0] == Red <==> table[i].1 == MinScore(table) && table[i].1 != MaxScore(table))
           && (colors[table[i].0] == Orange <==> MinScore(table) < table[i].1 < MaxScore(table))
  {
    if table != [] {
      ColorsLookup(table, MinScore(table), MaxScore(table));
    }
  }

  /** Some option is green; and when the scores are not all equal, some option is red. */
  lemma ExtremesColored(table: ScoreTable)
    requires DistinctOptions(table) && table != []
    ensures exists i | 0 <= i < |table| ::
              table[i].0 in ColorMapOf(table).value && ColorMapOf(table).value[table[i].0] == Green
    ensures MinScore(table) != MaxScore(table) ==>
              exists i | 0 <= i < |table| ::
                table[i].0 in ColorMapOf(table).value && ColorMapOf(table).value[table[i].0] == Red
  {
    ColorMapClassifies(table);
  }

  /** A table whose scores are all equal is coloured green throughout: a tie goes
      to the maximum. */
  lemma AllTiedAllGreen(table: ScoreTable)
    requires DistinctOptions(table) && table != []
    requires forall i | 0 <= i < |table| :: table[i].1 == table[0].1
    ensures forall o | o in ColorMapOf(table).value :: ColorMapOf(table).value[o] == Green
  {
    ColorMapClassifies(table);
  }

  /** The D1 "Taxation on Funding" score table, in its declared order, colours
      Pre-Tax green, Partially Pre-Tax orange and After-Tax red. */
  lemma FundingColors()
    ensures ColorMapOf([("Pre-Tax", 3), ("Partially Pre-Tax", 2), ("After-Tax", 1)])
            == Some(map["Pre-Tax" := Green, "Partially Pre-Tax" := Orange, "After-Tax" := Red])
  {
    var t: ScoreTable := [("Pre-Tax", 3), ("Partially Pre-Tax", 2), ("After-Tax", 1)];
    assert t[..2] == [("Pre-Tax", 3), ("Partially Pre-Tax", 2)] && t[..2][..1] == t[..1] == [("Pre-Tax", 3)];
    assert |t[..1][..0]| == 0 && t[..|t| - 1] == t[..2];
    assert MinScore(t) == 1 && MaxScore(t) == 3;
    assert Colors(t[..1], 1, 3) == map["Pre-Tax" := Green];
    assert Colors(t[..2], 1, 3) == map["Pre-Tax" := Green, "Partially Pre-Tax" := Orange];
    assert Colors(t, 1, 3) == map["Pre-Tax" := Green, "Partially Pre-Tax" := Orange][("After-Tax", 1).0 := Red];
  }
}

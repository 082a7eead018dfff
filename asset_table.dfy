/** The input table of the wealth-score engine and the column sums taken over it.

    A row carries two amounts, "Before Planning" and "After Planning", each either
    left blank or a number, and one selected option per dimension column, the
    column being named "{key}: {label}". Every sum the engine takes is a filtered
    column sum: over all rows (the grand totals), or over the rows whose dimension
    column holds one given option (the per-option sums).
 */
module AssetTable {

  /** One amount cell: blank (the empty string in the grid) or a number. */
  datatype Cell = Blank | Number(value: real)

  /** One asset row. `selections` maps a dimension column name to the option the
      row holds there; a column absent from the map holds no value and so equals
      no option. */
  datatype AssetRow = AssetRow(assetType: string, before: Cell, after: Cell, selections: map<string, string>)

  /** The two amount columns. */
  datatype Phase = BeforePlanning | AfterPlanning

  /** Which rows a sum ranges over. */
  datatype Filter =
    | AllRows
    | Selecting(column: string, option: string)
    | SelectingAnyOf(column: string, options: seq<string>)

  /** A blank cell counts as 0, every other cell as its number. */
  function CellValue(c: Cell): real {
    match c
    case Blank => 0.0
    case Number(v) => v
  }

  function Amount(row: AssetRow, phase: Phase): real {
    CellValue(if phase == BeforePlanning then row.before else row.after)
  }

  predicate Keeps(f: Filter, row: AssetRow) {
    match f
    case AllRows => true
    case Selecting(column, option) => column in row.selections && row.selections[column] == option
    case SelectingAnyOf(column, options) => column in row.selections && row.selections[column] in options
  }

  /** What one row adds to a filtered sum. */
  function Contribution(row: AssetRow, phase: Phase, f: Filter): real {
    if Keeps(f, row) then Amount(row, phase) else 0.0
  }

  /** The sum of one amount column over the rows a filter keeps. */
  function Sum(rows: seq<AssetRow>, phase: Phase, f: Filter): real {
    if rows == [] then 0.0 else Contribution(rows[0], phase, f) + Sum(rows[1..], phase, f)
  }

  /** The grand total of one amount column. */
  function Total(rows: seq<AssetRow>, phase: Phase): real {
    Sum(rows, phase, AllRows)
  }

  /** The sum, over a sequence of options of one column, of the per-option sums. */
  function OptionSums(rows: seq<AssetRow>, phase: Phase, column: string, options: seq<string>): real {
    if options == [] then 0.0
    else OptionSums(rows, phase, column, options[..|options| - 1])
         + Sum(rows, phase, Selecting(column, options[|options| - 1]))
  }

  /** Every amount of every row is non-negative. */
  predicate NonNegative(rows: seq<AssetRow>) {
    forall i | 0 <= i < |rows| :: 0.0 <= Amount(rows[i], BeforePlanning) && 0.0 <= Amount(rows[i], AfterPlanning)
  }

  predicate Distinct(s: seq<string>) {
    forall i, j | 0 <= i < j < |s| :: s[i] != s[j]
  }

  /** A table of two parts sums to the sum of the parts. */
  lemma {:induction false} SumAppend(a: seq<AssetRow>, b: seq<AssetRow>, phase: Phase, f: Filter)
    ensures Sum(a + b, phase, f) == Sum(a, phase, f) + Sum(b, phase, f)
  {
    if a != [] {
      assert (a + b)[1..] == a[1..] + b;
      SumAppend(a[1..], b, phase, f);
    } else {
      assert a + b == b;
    }
  }

  /** A one-row table sums to that row's contribution. */
  lemma SumOfOne(row: AssetRow, phase: Phase, f: Filter)
    ensures Sum([row], phase, f) == Contribution(row, phase, f)
  {
    assert [row][1..] == [];
  }

  /** The grand total counts a blank cell as 0: a table is the sum of its rows. */
  lemma TotalOfRows(a: seq<AssetRow>, row: AssetRow, phase: Phase)
    ensures Total(a + [row], phase) == Total(a, phase) + Amount(row, phase)
    ensures row.before == Blank ==> Total(a + [row], BeforePlanning) == Total(a, BeforePlanning)
    ensures row.after == Blank ==> Total(a + [row], AfterPlanning) == Total(a, AfterPlanning)
  {
    SumAppend(a, [row], phase, AllRows);
    SumAppend(a, [row], BeforePlanning, AllRows);
    SumAppend(a, [row], AfterPlanning, AllRows);
  }

  /** Taking one row out of a table takes its contribution out of every sum. */
  lemma SumRemove(b: seq<AssetRow>, k: nat, phase: Phase, f: Filter)
    requires k < |b|
    ensures Sum(b, phase, f) == Contribution(b[k], phase, f) + Sum(b[..k] + b[k + 1..], phase, f)
  {
    assert b == b[..k] + ([b[k]] + b[k + 1..]);
    SumAppend(b[..k], [b[k]] + b[k + 1..], phase, f);
    SumAppend(b[..k], b[k + 1..], phase, f);
    assert ([b[k]] + b[k + 1..])[1..] == b[k + 1..];
  }

  /** Removing matching rows from both sides keeps equal sums equal. */
  lemma SumPermutationStep(a: seq<AssetRow>, b: seq<AssetRow>, k: nat, phase: Phase, f: Filter)
    requires a != [] && k < |b| && b[k] == a[0]
    requires Sum(a[1..], phase, f) == Sum(b[..k] + b[k + 1..], phase, f)
    ensures Sum(a, phase, f) == Sum(b, phase, f)
  {
    SumRemove(b, k, phase, f);
  }

  /** Removing matching rows from two permutations of each other leaves two
      permutations of each other. */
  lemma MultisetTail(a: seq<AssetRow>, b: seq<AssetRow>, k: nat)
    requires multiset(a) == multiset(b) && a != [] && k < |b| && b[k] == a[0]
    ensures multiset(a[1..]) == multiset(b[..k] + b[k + 1..])
  {
    var rest := b[..k] + b[k + 1..];
    assert a == [a[0]] + a[1..];
    assert multiset(a) == multiset{a[0]} + multiset(a[1..]);
    assert b == b[..k] + [b[k]] + b[k + 1..];
    assert multiset(b) == multiset(b[..k]) + multiset{b[k]} + multiset(b[k + 1..]);
    assert multiset(rest) == multiset(b[..k]) + multiset(b[k + 1..]);
    assert multiset(a[1..]) == multiset(a) - multiset{a[0]};
    assert multiset(rest) == multiset(b) - multiset{b[k]};
  }

  /** Sums do not depend on the order of the rows. */
  lemma {:induction false} SumPermutation(a: seq<AssetRow>, b: seq<AssetRow>, phase: Phase, f: Filter)
    requires multiset(a) == multiset(b)
    ensures Sum(a, phase, f) == Sum(b, phase, f)
    decreases |a|
  {
    if a == [] {
      assert |b| == |multiset(b)| == 0;
    } else {
      assert a[0] in b by { assert a[0] in multiset(b); }
      var k :| 0 <= k < |b| && b[k] == a[0];
      MultisetTail(a, b, k);
      SumPermutation(a[1..], b[..k] + b[k + 1..], phase, f);
      SumPermutationStep(a, b, k, phase, f);
    }
  }

  /** With non-negative amounts every sum is non-negative. */
  lemma {:induction false} SumNonNegative(rows: seq<AssetRow>, phase: Phase, f: Filter)
    requires NonNegative(rows)
    ensures 0.0 <= Sum(rows, phase, f)
  {
    if rows != [] {
      assert NonNegative(rows[1..]) by {
        forall i | 0 <= i < |rows[1..]|
          ensures 0.0 <= Amount(rows[1..][i], BeforePlanning) && 0.0 <= Amount(rows[1..][i], AfterPlanning)
        {
          assert rows[1..][i] == rows[i + 1];
        }
      }
      SumNonNegative(rows[1..], phase, f);
    }
  }

  /** When every row adds to `f` what it adds to `g` and `h` together, the sum over
      `f` is the sum over `g` plus the sum over `h`. */
  lemma {:induction false} SumSplits(rows: seq<AssetRow>, phase: Phase, f: Filter, g: Filter, h: Filter)
    requires forall i | 0 <= i < |rows| ::
      Contribution(rows[i], phase, f) == Contribution(rows[i], phase, g) + Contribution(rows[i], phase, h)
    ensures Sum(rows, phase, f) == Sum(rows, phase, g) + Sum(rows, phase, h)
  {
    if rows != [] {
      assert forall i | 0 <= i < |rows[1..]| :: rows[1..][i] == rows[i + 1];
      SumSplits(rows[1..], phase, f, g, h);
    }
  }

  /** A sum over a filter that keeps no row is 0. */
  lemma {:induction false} SumOverNothing(rows: seq<AssetRow>, phase: Phase, f: Filter)
    requires forall i | 0 <= i < |rows| :: !Keeps(f, rows[i])
    ensures Sum(rows, phase, f) == 0.0
  {
    if rows != [] {
      assert forall i | 0 <= i < |rows[1..]| :: rows[1..][i] == rows[i + 1];
      SumOverNothing(rows[1..], phase, f);
    }
  }

  /** With non-negative amounts, a filter `f` that keeps no more than `g` sums to at
      most what `g` sums to, and exactly to it if and only if every row that `g`
      keeps and `f` drops has amount 0. */
  lemma {:induction false} SumMonotone(rows: seq<AssetRow>, phase: Phase, f: Filter, g: Filter)
    requires NonNegative(rows)
    requires forall i | 0 <= i < |rows| :: Keeps(f, rows[i]) ==> Keeps(g, rows[i])
    ensures Sum(rows, phase, f) <= Sum(rows, phase, g)
    ensures Sum(rows, phase, f) == Sum(rows, phase, g) <==>
      forall i | 0 <= i < |rows| :: Keeps(g, rows[i]) && !Keeps(f, rows[i]) ==> Amount(rows[i], phase) == 0.0
  {
    if rows != [] {
      assert forall i | 0 <= i < |rows[1..]| :: rows[1..][i] == rows[i + 1];
      assert NonNegative(rows[1..]);
      SumMonotone(rows[1..], phase, f, g);
      var lost := forall i | 0 <= i < |rows| :: Keeps(g, rows[i]) && !Keeps(f, rows[i]) ==> Amount(rows[i], phase) == 0.0;
      var lostTail := forall i | 0 <= i < |rows[1..]| ::
        Keeps(g, rows[1..][i]) && !Keeps(f, rows[1..][i]) ==> Amount(rows[1..][i], phase) == 0.0;
      assert lost <==> lostTail && (Keeps(g, rows[0]) && !Keeps(f, rows[0]) ==> Amount(rows[0], phase) == 0.0) by {
        if lostTail && (Keeps(g, rows[0]) && !Keeps(f, rows[0]) ==> Amount(rows[0], phase) == 0.0) {
          forall i | 0 <= i < |rows| && Keeps(g, rows[i]) && !Keeps(f, rows[i])
            ensures Amount(rows[i], phase) == 0.0
          {
            if i > 0 { assert rows[1..][i - 1] == rows[i]; }
          }
        }
      }
    }
  }

  /** For distinct options, the per-option sums add up to the sum over the rows
      that select any of them. */
  lemma {:induction false} OptionSumsPartition(rows: seq<AssetRow>, phase: Phase, column: string, options: seq<string>)
    requires Distinct(options)
    ensures OptionSums(rows, phase, column, options) == Sum(rows, phase, SelectingAnyOf(column, options))
  {
    if options == [] {
      SumOverNothing(rows, phase, SelectingAnyOf(column, options));
    } else {
      var init, last := options[..|options| - 1], options[|options| - 1];
      assert options == init + [last];
      assert Distinct(init);
      assert last !in init;
      OptionSumsPartition(rows, phase, column, init);
      SumSplits(rows, phase, SelectingAnyOf(column, options), SelectingAnyOf(column, init), Selecting(column, last));
    }
  }

  /** With non-negative amounts and distinct options, the option sums of a column
      lie between 0 and the grand total, and reach it exactly when every row that
      selects none of the options has amount 0. */
  lemma OptionSumsWithinTotal(rows: seq<AssetRow>, phase: Phase, column: string, options: seq<string>)
    requires NonNegative(rows) && Distinct(options)
    ensures 0.0 <= OptionSums(rows, phase, column, options) <= Total(rows, phase)
    ensures OptionSums(rows, phase, column, options) == Total(rows, phase) <==>
      forall i | 0 <= i < |rows| :: !Keeps(SelectingAnyOf(column, options), rows[i]) ==> Amount(rows[i], phase) == 0.0
  {
    OptionSumsPartition(rows, phase, column, options);
    SumNonNegative(rows, phase, SelectingAnyOf(column, options));
    SumMonotone(rows, phase, SelectingAnyOf(column, options), AllRows);
  }

  /** When every row selects one of the (distinct) options, the option sums of
      that column add up exactly to the grand total, whatever the signs. */
  lemma OptionSumsCoverTotal(rows: seq<AssetRow>, phase: Phase, column: string, options: seq<string>)
    requires Distinct(options)
    requires forall i | 0 <= i < |rows| :: Keeps(SelectingAnyOf(column, options), rows[i])
    ensures OptionSums(rows, phase, column, options) == Total(rows, phase)
  {
    OptionSumsPartition(rows, phase, column, options);
    // a row kept by both `AllRows` and the option filter contributes the same to both
    SumSplits(rows, phase, AllRows, SelectingAnyOf(column, options), SelectingAnyOf(column, []));
    SumOverNothing(rows, phase, SelectingAnyOf(column, []));
  }
}

# 4D wealth score: a Dafny model

This project models the scoring engine of the 4D wealth model, together with two small helpers around it.

**The engine** takes a table of assets. Each asset row carries:
- an amount before planning and an amount after planning, where a blank cell counts as 0;
- for each of six dimensions, the option it selects in that dimension's column.

The six dimensions are:
- D1 Taxation on Funding
- D2 Taxation on Growth
- D3 Taxation on Distribution
- D4 Taxation on Death
- D5 Asset Protection
- D6 Charitable Deduction

Each dimension has a fixed list of options, a weight and a score per option.

For every dimension and every option, the engine computes the following, before and after planning:
- the summed amount of the rows selecting that option;
- that sum's share of the grand total, which is 0 when the total is 0;
- a score of `weight * 100 * option score / number of options * share`.

D6 scores 0 before planning. A dimension's total is the sum of its option scores, and the overall score is the sum of the six dimension totals.

**The colour classifier** colours a dimension's options for its bar chart:
- green: the highest score;
- red: the lowest score;
- orange: anything in between.

**The narrative panel** accepts either a whole answer or one of two kinds of chunk stream. It accumulates the answer chunk by chunk. After each chunk it shows the answer so far, with markdown markup removed, under a key numbered by the chunk count.

The files:

- `optional.dfy` (`Optional`): an `Option` type. It stands for Python's `None` and for an operation that raises.
- `asset_table.dfy` (`AssetTable`): cells, rows and filtered sums over the two amount columns, with the following sum lemmas:
  - appending rows adds their sums;
  - sums do not depend on row order;
  - sums are non-negative and monotone;
  - the option sums of a column partition that column's selected rows.
- `wealth_engine.dfy` (`WealthEngine`): the two configuration tables, joined per dimension key. It also holds:
  - the specification functions of every result;
  - `CalculateWealthScore`, the engine's nested loops, proved to compute `WealthScoreOf`.
- `wealth_properties.dfy` (`WealthProperties`): what the engine promises. This covers:
  - the configuration, where every declared option has a score from 1 to the number of options, and the weights sum to 1;
  - the structure of the result;
  - the fractions;
  - the D6 rule;
  - the empty table;
  - independence from row order and from how a holding is split over rows;
  - the 0–100 range of the gauges.
- `color_map.dfy` (`ColorMap`): `GetColorMap` and its classification properties.
- `llm_agent.dfy` (`LlmAgent`): the markdown strip, the chunk keys and `RenderTextArea`.

## Model

| member | source | states |
|---|---|---|
| AssetTable.SumAppend | home.py:61-62 | the sum of an option's amounts over two row lists joined is the sum of the two separate sums |
| AssetTable.TotalOfRows | home.py:37-38 | each row adds its amount to the total; a blank cell adds nothing |
| AssetTable.SumPermutation | home.py:37-38 | any filtered sum is the same for any reordering of the rows |
| AssetTable.SumNonNegative | home.py:61-62 | with non-negative amounts every option sum is at least 0 |
| AssetTable.SumMonotone | home.py:61-62 | a sum over fewer selected rows is at most the sum over more of them; with non-negative amounts they are equal exactly when every row of the larger selection left out of the smaller contributes 0 |
| AssetTable.OptionSumsPartition | home.py:60-62 | the option sums of a column with distinct options add up to the sum over the rows selecting any of those options |
| AssetTable.OptionSumsWithinTotal | home.py:60-62 | option sums lie between 0 and the total; they reach it exactly when every row with a non-zero amount selects one of the options |
| AssetTable.OptionSumsCoverTotal | home.py:60-62 | when every row selects one of the declared options, the option sums add up to the total |
| WealthEngine.Fraction | home.py:68-69 | a share of a zero total is 0; a part between 0 and the total is a share between 0 and 1 |
| WealthEngine.FractionScalesBack | home.py:68-69 | a share of a non-zero total, multiplied back by the total, is the part |
| WealthEngine.ScoreOption | home.py:61-92 | one pass of the option loop yields the two sums, shares and scores of the option |
| WealthEngine.ScoreDimension | home.py:47-96 | one pass of the dimension loop yields the label, the option entries and the two totals of the dimension |
| WealthEngine.CalculateWealthScore | home.py:15-108 | the nested loops with their accumulators return exactly the specified result for the fixed configuration |
| WealthProperties.FixedKeys | home.py:17-24 | the configuration lists six dimensions, keyed D1 to D6 in that order, with distinct keys |
| WealthProperties.FundingAndGrowthWellFormed | home.py:17-34 | D1 and D2 have distinct options, a non-negative weight, every option scored, and every score between 0 and the number of options |
| WealthProperties.DistributionAndDeathWellFormed | home.py:17-34 | D3 and D4 are well formed in the same sense |
| WealthProperties.ProtectionAndCharityWellFormed | home.py:17-34 | D5 and D6 are well formed in the same sense |
| WealthProperties.FixedDimensionsWellFormed | home.py:17-34 | all six configured dimensions are well formed and have every option scored, each declared option with a score from 1 to the number of options |
| WealthProperties.FixedWeightsSumToOne | home.py:18-23 | the six weights add up to exactly 1 |
| WealthProperties.OptionEntriesAreEntries | home.py:84-92 | a dimension's option map has exactly its options as keys, each mapped to that option's entry |
| WealthProperties.DimensionEntriesLookup | home.py:52-96 | the result has exactly the dimension keys, each mapped to that dimension's entry |
| WealthProperties.OverallIsSumOfDimensionTotals | home.py:98-106 | each overall score is the sum of the recorded dimension totals of its phase |
| WealthProperties.OptionScoresAddUp | home.py:80-92 | for distinct options, the running dimension score is the sum of the scores recorded in the option entries filled so far |
| WealthProperties.DimensionTotalIsSumOfOptionScores | home.py:94-96 | a dimension with distinct options records each phase's total as the sum of the option scores it records |
| WealthProperties.RecordedTotalsAddUp | home.py:81-96 | in the whole result, each dimension's recorded totals are the sums of the option scores recorded under it |
| WealthProperties.SharesAdd | home.py:68-69 | the shares of two parts of one total add up to the share of their sum |
| WealthProperties.WholeShare | home.py:68-69 | a non-zero total is a share of 1 of itself |
| WealthProperties.FractionSumIsShareOfOptionSums | home.py:67-69 | the shares of a dimension's options add up to the share of their summed amounts |
| WealthProperties.FractionsBounded | home.py:67-69 | with non-negative amounts every option share is in [0, 1], and so is the sum of a dimension's shares |
| WealthProperties.FractionsPartitionWhole | home.py:67-69 | when every row selects a declared option and the total is non-zero, a dimension's shares add up to exactly 1 |
| WealthProperties.OptionScoreFormula | home.py:64-78 | an option's scores are weight × 100 × score / number of options × share, with 0 before planning in D6 and 0 for an option with no score |
| WealthProperties.OptionScoreBound | home.py:73-78 | an option's score lies between 0 and weight × 100 × its share |
| WealthProperties.CharitableOptionScores | home.py:72-78 | in D6 every before-planning option score is 0, and the after-planning score follows the general formula |
| WealthProperties.CharitableBeforeTotalZero | home.py:72-82 | D6's before-planning total is 0 whatever the rows |
| WealthProperties.FixedCharitableDimension | home.py:23-33 | in the fixed configuration D6 has options Yes and No, total 0 before planning, and after-planning scores of 10 and 5 points per unit of share |
| WealthProperties.SinglePreTaxRow | home.py:60-92 | a table with one Pre-Tax asset puts all of it in Pre-Tax, with share 1 and score 20, and nothing in After-Tax |
| WealthProperties.EmptyTableOptions | home.py:68-69 | over an empty table every option entry is all zeros and the dimension totals are 0 |
| WealthProperties.EmptyTableScoresZero | home.py:36-106 | over an empty table, with no division by zero, every entry, every total and both overall scores are 0 |
| WealthProperties.SameSumsSameScore | home.py:60-62 | two tables with the same filtered sums have the same result |
| WealthProperties.ScoreIgnoresRowOrder | home.py:37-62 | reordering the asset rows leaves the whole result unchanged |
| WealthProperties.ScoreIgnoresRowSplit | home.py:37-62 | splitting one asset row into two with the same selections and amounts adding up leaves the whole result unchanged |
| WealthProperties.DimensionScoreWithinShare | home.py:80-82 | a running dimension total lies between 0 and weight × 100 × the summed shares of the options so far |
| WealthProperties.DimensionTotalBound | home.py:94-96 | a well-formed dimension's total lies between 0 and weight × 100 |
| WealthProperties.OverallScoreBound | home.py:98-100 | the overall score lies between 0 and 100 × the sum of the weights |
| WealthProperties.GaugeRange | home.py:98-106 | with weights summing to 1, both overall scores lie in [0, 100], and every recorded dimension total lies in [0, weight × 100] |
| WealthProperties.FixedGaugeRange | home.py:127 | for the fixed configuration both overall scores fall on the gauge's 0–100 axis |
| ColorMap.MinScore | home.py:147-148 | the lowest score is attained by some entry and no entry is lower |
| ColorMap.MaxScore | home.py:147-149 | the highest score is attained by some entry and no entry is higher |
| ColorMap.GetColorMap | home.py:145-160 | the classifier loop returns the specified colour map, and nothing for an empty table |
| ColorMap.ColorsLookup | home.py:152-158 | the colour map has exactly the table's options as keys, and each key is coloured by its own score |
| ColorMap.ColorMapClassifies | home.py:145-160 | nothing exactly for an empty table; otherwise green iff top score, red iff bottom score and not top, orange iff strictly between |
| ColorMap.ExtremesColored | home.py:147-158 | some option is green, and some option is red unless all scores are equal |
| ColorMap.AllTiedAllGreen | home.py:153-154 | when all scores are equal every option is green |
| ColorMap.FundingColors | home.py:145-160 | the D1 table colours Pre-Tax green, Partially Pre-Tax orange and After-Tax red |
| LlmAgent.StripMarkdown | llm_agent.py:69 | the stripped text holds no `*`, `_`, a backtick or `#`, and is no longer than the input |
| LlmAgent.StripIsCharacterFilter | llm_agent.py:69 | removing `**` first and then single markup characters is the same as deleting every markup character |
| LlmAgent.StripDistributes | llm_agent.py:84 | stripping a concatenation is concatenating the stripped parts |
| LlmAgent.StripIdentityIffNoMarkup | llm_agent.py:69 | stripping changes nothing exactly when the text holds no markup character |
| LlmAgent.StripIdempotent | llm_agent.py:98 | stripping twice is stripping once |
| LlmAgent.StripKeepsOtherCharacters | llm_agent.py:69 | a character occurs in the stripped text exactly when it occurs in the input and is not markup |
| LlmAgent.DecimalStringInjective | llm_agent.py:79 | different chunk counts have different decimal renderings |
| LlmAgent.ChunkKeyInjective | llm_agent.py:79 | the keys for different chunk counts under one label differ |
| LlmAgent.ConcatAppend | llm_agent.py:80 | accumulating two runs of chunks one after the other accumulates their concatenation |
| LlmAgent.ViewOfPrefix | llm_agent.py:91-101 | what is shown after n chunks does not depend on later chunks |
| LlmAgent.ViewsLookup | llm_agent.py:76-87 | a stream shows one text area per chunk; the i-th shows the stripped concatenation of the first i chunks under key i |
| LlmAgent.ViewKeysDistinct | llm_agent.py:93 | the text areas shown for one stream all have distinct keys |
| LlmAgent.RenderTextArea | llm_agent.py:58-103 | the panel returns the cumulative answer and shows the specified sequence of text areas for each kind of input |
| LlmAgent.RenderOutcome | llm_agent.py:64-103 | a whole answer is returned as is and shown once, stripped, under the label; a missing delta counts as empty text; a stream returns its chunks concatenated, and its last text area shows that answer stripped; other inputs return the empty answer and show nothing |

## Left out

- The user interface is not part of this model: the editable grid, the plotly gauges and bar charts, the login and cookie handling, and the pages.
- The narrative request is not part of this model (`call_llm_agent`, the OpenAI and llama_index clients, the network). A stream is modelled as the finite sequence of what it yields.
- `render_text_area` calls `container.text_area` for its effect. The model instead returns the sequence of (key, value) pairs shown. The label, height and visibility arguments are the same on every call and are not recorded.
- An OpenAI chunk whose `choices` list is empty would raise an index error. Only chunks with a first choice are modelled.
- Amounts are exact reals, not floating point. So the weights add up to exactly 1 and none of the rounding error of float sums is modelled.
- A non-numeric amount that `astype(float)` cannot convert is not modelled. Nor is a table missing one of the six selector columns; in the source, both raise on the whole table. Every amount is either blank or a number. A row without a selection in a column matches no option.
- The source does no rounding of results and raises no input-validation error. The model follows the code, so it has neither.
- The source stores the overall scores in the result dictionary under the key "Overall", beside the dimension keys. The model keeps them in two fields of the result, apart from the dimension map.
- The dimension and option-score dictionaries are joined, per key, into one `Dimension` record. The dimension dictionary iterated by the engine becomes the sequence `Dimensions`, and each dimension's option list stays a sequence. Inside the record, the option-score table is a map (`Dimension.optionScores`).
- The table `get_color_map` receives is modelled as a sequence of (option, score) pairs with distinct options (`ColorMap.ScoreTable`), so that its iteration order is kept.
- The result dictionaries (`results` and each dimension's `"Options"`) are modelled as Dafny maps (`ScoreResult.dimensions`, `DimensionResult.options`). Their insertion order, which the page follows when it builds charts and tables from them, is not captured.
- The percentage columns the page adds for display are not modelled.
- `ScoreOption` and `ScoreDimension` are the two loop bodies of `calculate_wealth_score`, split out as methods. The source has them inline.
- `get_color_map` finds the extremes by sorting the entries by score and taking the first and last. The model uses the minimum and maximum, which are the same values. The unused list of scores is not modelled.
- `get_color_map` on an empty table raises an index error. The model returns `None` for it.
- GaugeRange and the bound lemmas assume non-negative amounts. The source does not check this: with a negative amount, a share can lie outside [0, 1] and a score outside its range.

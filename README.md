# Broker trade analyzer — Dafny model

This project models the computational core of `trade_analyzer.py`, a tool
that turns a daily broker-by-broker trade report (券商進出表) of one stock into
per-broker aggregates and Top-N rankings:

- **Normalizer** (`df2clean`). A raw report row holds two broker observations
  side by side: columns 1-4 and columns 7-10, each giving broker, price, buy
  shares and sell shares. The normaliser stacks the left block above the right
  block and coerces the numbers. It drops every record whose broker or price
  is missing, and sets an unparsable volume to 0.
- **Aggregator** (`df2calculate`). For every distinct broker, in order of first
  appearance, it sums the positive buy volumes and the positive sell volumes.
  From those it computes:
  - the share-weighted average prices, guarded against a zero total;
  - the day-trade volume (the smaller side) and its P&L;
  - the net position, valued at the average price of its side.

  Volumes are in lots (張, 1000 shares) and amounts in units of 萬 (10 000).
  It is an imperative loop that fills a result table (`Aggregator.Calculate`),
  proved equal to a per-broker specification function (`Aggregator.Summary`).
- **Rankers** (`top20_buy`, `top20_sell`, `top20_intraday`). Each one:
  - sorts the aggregates by net-buy lots, net-sell lots or day-trade lots,
    largest first;
  - keeps the first `n` (20 by default);
  - numbers them from 1;
  - projects seven columns.
- **Text helpers.**
  - `format_broker_name` keeps only CJK ideographs, CJK punctuation,
    full-width forms and `()-`.
  - In front of `float(...)`, `parse_formatted_number` strips the string and
    removes its commas, and handles two notations: accounting negatives in
    parentheses, and counts written in lots with 張.

All values are exact (Dafny `real` and `int`) and stand for the values before
the source rounds them (see "## Left out").

Files: `wrappers.dfy` (Option), `normalizer.dfy`, `aggregator.dfy`,
`ranking.dfy`, `text_format.dfy`.

## Model

| member | source | states |
|---|---|---|
| Normalizer.Coerce | trade_analyzer.py:58-67 | a block's record is dropped exactly when its broker cell is missing or its price does not parse. Otherwise the record carries the broker string unchanged and the price, and each volume becomes its coerced integer, or 0 when it does not parse |
| Normalizer.Clean | trade_analyzer.py:49-67 | a table narrower than 11 columns is an error (the `iloc` IndexError). Otherwise the output has at most twice as many records as the input has rows |
| Normalizer.CleanOrder | trade_analyzer.py:53-58 | the output is the surviving left-block records in row order, followed by the surviving right-block records in row order |
| Normalizer.CleanKeepsExactly | trade_analyzer.py:59-67 | every quad of either block with a present broker and a numeric price reaches the output, with its volumes coerced (unparsable ones set to 0) |
| Normalizer.CleanComesFromBlocks | trade_analyzer.py:53-67 | every output record is the coercion of a quad of some row in the left block or the right block |
| Normalizer.RetainIsFilter | trade_analyzer.py:67 | `dropna` keeps exactly the quads that coerce: the k-th output record is the coercion of the quad at the k-th surviving position |
| Normalizer.SurvivorsIncrease | trade_analyzer.py:67 | the surviving positions are strictly increasing, so `dropna` keeps the input order |
| Normalizer.SurvivorsComplete | trade_analyzer.py:67 | a position survives if and only if its quad coerces |
| Normalizer.RetainAppend | trade_analyzer.py:58-67 | dropping commutes with the concatenation of the two blocks |
| Normalizer.RetainShorter | trade_analyzer.py:67 | dropping never adds records |
| Aggregator.Brokers | trade_analyzer.py:75 | `unique()`: the brokers are pairwise distinct, every record's broker is listed, and every listed broker has a record |
| Aggregator.BrokersFirstAppearance | trade_analyzer.py:75 | brokers are listed in order of first appearance: a broker's first record comes after a record of every broker listed before it |
| Aggregator.TotalSharesZero | trade_analyzer.py:79-80 | a side's share total is never negative, and it is zero exactly when no record of the broker has a positive volume on that side |
| Aggregator.SideTotals | trade_analyzer.py:79-96 | a side's shares are the sum of the positive volumes. The amount and the average price are zero when there are no shares; otherwise the average is Σ price×shares / shares |
| Aggregator.Settle | trade_analyzer.py:98-124 | from a broker's side totals and averages, the day-trade branch and the net-position branches give exactly the row `Finish` specifies |
| Aggregator.Summarize | trade_analyzer.py:78-125 | the loop body, assigned step by step in the source's branches, produces exactly the broker's `Summary` |
| Aggregator.Calculate | trade_analyzer.py:73-127 | the result table has one row per distinct broker, in first-appearance order, and row k is the `Summary` of broker k |
| Aggregator.SummaryColumns | trade_analyzer.py:98-124 | in every row: both volumes are ≥ 0; the day-trade volume is the smaller side; the day-trade P&L is 0 without day trades and is otherwise (avg sell − avg buy)×1000×volume/(10000×1000); at most one net side is non-zero; net buy minus net sell equals buy minus sell; each net value is its lots times its side's average price; at most one net value is non-zero |
| Aggregator.NetValueOnOneSide | trade_analyzer.py:103-109 | with positive prices: a net buyer has a positive net buy value and a zero net sell value, a net seller the reverse, and a flat broker has both values at zero |
| Aggregator.IdleBrokerIsZero | trade_analyzer.py:79-124 | a broker with no positive volume on either side gets a row in which every column is 0 |
| Aggregator.TotalsPermutation | trade_analyzer.py:79-92 | the share and amount totals of a side are the same for any reordering of the records |
| Aggregator.SummaryPermutation | trade_analyzer.py:79-124 | a broker's whole row, and in particular its average prices, is unchanged by reordering the records |
| Aggregator.TotalsOfBroker | trade_analyzer.py:76 | only a broker's own records enter its totals |
| Aggregator.SummaryOfOwnRecords | trade_analyzer.py:76 | grouping is by exact broker string: two record lists with the same records for a broker give it the same row |
| Aggregator.AmountBetween | trade_analyzer.py:82 | a side's traded amount lies between the lowest and the highest traded price times the shares |
| Aggregator.AverageWithinPrices | trade_analyzer.py:81-83 | a side's average price lies between the lowest and the highest price the broker traded at on that side |
| Aggregator.AmountPositive | trade_analyzer.py:81-82 | with positive prices, the amount is ≥ 0, and > 0 whenever there are shares |
| Aggregator.AveragePositive | trade_analyzer.py:81-83 | with positive prices, a side with shares has a positive average price |
| Aggregator.ExampleAggregates | trade_analyzer.py:69-125 | records A 10.0 1000/0, A 12.0 0/500, B 9.0 2000/0 give brokers [A, B]. A: 1 lot bought at 10, 0.5 sold at 12, 0.5 day-traded for a P&L of 0.1, net buy 0.5 lots worth 0.5. B: 2 lots at 9, net buy worth 1.8 |
| Ranking.Insert | trade_analyzer.py:133 | inserting adds exactly one copy of the element (multiset) |
| Ranking.SortDesc | trade_analyzer.py:133 | `sort_values(ascending=False)`: the result is a permutation of the input and is non-increasing in the view's key |
| Ranking.InsertDescending | trade_analyzer.py:133 | insertion keeps a non-increasing sequence non-increasing |
| Ranking.Head | trade_analyzer.py:133 | `head(n)` is a prefix, of length min(n, len) for n ≥ 0 and max(0, len + n) for negative n |
| Ranking.Top | trade_analyzer.py:133-137 | a view has `head`'s length (min(n, number of aggregates) for n ≥ 0), ranks run 1..k, keys are non-increasing, every row projects some input aggregate at its rank, and an empty input gives an empty view |
| Ranking.TopBuy | trade_analyzer.py:132-140 | the net-buy view: length as `head`, ranks 1..k, non-increasing net-buy lots, and each row is some aggregate's broker, both sides, net-buy lots and net buy value at its rank |
| Ranking.TopSell | trade_analyzer.py:142-150 | the net-sell view: the same, with net-sell lots and the net sell value |
| Ranking.TopIntraday | trade_analyzer.py:152-164 | the day-trade view: the same, with day-trade lots and the day-trade P&L |
| Ranking.DefaultReportSize | trade_analyzer.py:132-152 | called without `n`, each report keeps the first 20 aggregates, or all of them when there are fewer |
| Ranking.TopIsLargest | trade_analyzer.py:133 | the aggregates split into the ones shown, in report order, and the rest. No aggregate left out has a larger key than any aggregate shown |
| Ranking.KeyNonNegative | trade_analyzer.py:117-121 | every view's key of a computed row is ≥ 0 |
| Ranking.IdleBrokerLast | trade_analyzer.py:117-121 | a broker with no volume has key 0 in every view, so no row of the table sorts below it |
| TextFormat.KeepNameChars | trade_analyzer.py:197-204 | the output keeps only CJK, CJK punctuation, full-width and `()-` characters, and is never longer than the input |
| TextFormat.FormatBrokerName | trade_analyzer.py:194-204 | a non-string gives "", and every character of the result is a name character |
| TextFormat.KeepNameCharsIsSubsequence | trade_analyzer.py:197-204 | the result is a subsequence of the input |
| TextFormat.KeepNameCharsCounts | trade_analyzer.py:197-204 | every occurrence of a name character is kept, and no occurrence of any other character |
| TextFormat.KeepNameCharsAppend | trade_analyzer.py:197-204 | the cleaner distributes over concatenation |
| TextFormat.KeepNameCharsFixed | trade_analyzer.py:197-204 | a string is left unchanged if and only if it consists of name characters only |
| TextFormat.FormatBrokerNameIdempotent | trade_analyzer.py:194-204 | cleaning a cleaned name changes nothing |
| TextFormat.StripStart | trade_analyzer.py:175 | `strip()`, leading side: the result is a suffix, everything removed is whitespace, and it does not start with whitespace |
| TextFormat.StripEnd | trade_analyzer.py:175 | `strip()`, trailing side: the result is a prefix, everything removed is whitespace, and it does not end with whitespace |
| TextFormat.StripUnchanged | trade_analyzer.py:175 | a string without surrounding whitespace strips to itself |
| TextFormat.DropCommas | trade_analyzer.py:175 | `replace(",", "")`: no comma is left, and every other character keeps its count |
| TextFormat.DropCommasAppend | trade_analyzer.py:175 | comma removal distributes over concatenation |
| TextFormat.DropCommasUnchanged | trade_analyzer.py:175 | a comma-free string is unchanged, so removal is idempotent |
| TextFormat.BeforeLots | trade_analyzer.py:183 | `split("張")[0]`: the prefix of the string up to, and not including, its first 張 |
| TextFormat.ParseFormattedNumber | trade_analyzer.py:169-191 | a missing or non-string non-number gives 0.0, a number gives itself, and a string no float parse accepts gives 0.0 |
| TextFormat.PlainAmount | trade_analyzer.py:175-190 | a plain amount (no parenthesis, no 張) padded with any whitespace parses to `float` of the amount with its commas removed, and to 0 when that does not parse |
| TextFormat.StripPadded | trade_analyzer.py:175 | `strip()` removes exactly the whitespace padding around a string that has none at its ends |
| TextFormat.ParenthesesNegate | trade_analyzer.py:175-180 | "(" + t + ")" parses to minus the parse of t with its commas removed, and to 0 when that does not parse |
| TextFormat.LotsTimesThousand | trade_analyzer.py:175-186 | a count before 張, followed by a parenthesised note, parses to the comma-free count times 1000, and to 0 when the count does not parse |
| TextFormat.LotsParse | trade_analyzer.py:175-186 | the same for any comma-free tail that opens with 張( and closes with ) |
| TextFormat.DropCommasKeeps | trade_analyzer.py:175 | comma removal keeps exactly the other characters that occur |

## Left out

- `csv2df` (trade_analyzer.py:22-47): the big5 decoding, the CSV reader and its exception path are I/O. The model starts from a table of cells whose numeric readings (`pd.to_numeric`) are given with each cell.
- `pd.to_numeric` and `float(...)` are not modelled character by character. `pd.to_numeric` appears as the parsed values carried in each `Normalizer.Cell`. `float(...)` is the parameter `toFloat` of `TextFormat.ParseFormattedNumber`, so NaN and infinity strings are not modelled.
- Rounding (`round(x, 2)` on the averages, `round(x, 1)` on every column, `int(round(...))` on the net values, and the final `round(1)` of the table) is not modelled. Every value is the exact value before rounding. For this reason the net values and the day-trade P&L are computed from the unrounded averages.
- Normalizer.SharesOf: `astype(int)` truncation of a fractional volume, and 64-bit overflow, are not modelled. The coerced integer is taken as given.
- Ranking.SortDesc: the sort the reports use does not fix the order of ties. The model fixes one order (exact ties keep their input order), and its contracts state only the descending order and the permutation, which any order of exact ties satisfies.
- Ranking.Top, Ranking.TopIsLargest: the reports sort by lots rounded to 0.1 (trade_analyzer.py:117, 120-121, 128). Brokers whose lots round alike tie in the program, and the model orders them by exact lots. The descending order of `Top` and `TopIsLargest` holds for exact lots; the program guarantees it only for the rounded column. For example, a net buyer of 1,001 shares listed before one of 1,040 shares both show 1.0 lot, and `top20_buy(df, 1)` may show either, while the model shows the second.
- Pandas index handling (`reset_index`, the 名次 index name) is represented by the `rank` field of each row.
- Rows longer than the header, and cells that are not strings (the CSV reader only produces strings), are not modelled.
- Ranking.Top, Aggregator.Calculate: when no record survives `df2clean`, the source builds its aggregate table from an empty dict (trade_analyzer.py:127), a frame without columns, and each report's `sort_values` (trade_analyzer.py:133, 143, 153) then raises KeyError. The model has no such error: `Calculate` of no records is the empty table and every report of it is empty.
- Lone surrogate code points in broker names: Dafny characters are Unicode scalar values.
- The table-to-image rendering, the charts, fonts and the two volume formatters (`format_volume_int`, `format_volume_with_price_label`) are presentation. `app.py` (the web front end) is not part of this model.

## Notes

- The net values are not always one-sided. In the code (trade_analyzer.py:104-109), a net value is the net lots times the average price of that side, so it is 0 when that average is 0, for example when every traded price is 0. `Aggregator.SummaryColumns` proves that at most one net value is non-zero, and `Aggregator.NetValueOnOneSide` proves that exactly one is non-zero when prices are positive and the position is not flat.
- Units of the net values: a broker who buys 1000 shares at 10.0 and sells 500 is a net buyer of 0.5 lots, worth 500 × 10.0 / 10000 = 0.5 (萬) by trade_analyzer.py:104-109. `Aggregator.ExampleAggregates` proves this value.

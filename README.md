# dgi-toolkit screening core in Dafny

This project models the core of dgi-toolkit, a dividend-growth-investing (DGI) screener. The core covers:

- **Record validation.** A raw CSV row becomes a `CompanyData` record: text fields are stripped, numbers are coerced, and bounds are checked.
- **Batch row validation.** Valid records are kept and row errors are tagged "Row N".
- **The screener.** It projects records into a table with fixed columns, delegates to a filter strategy, and appends a score column that never aborts.
- **Filter strategies.** Default thresholds, a sector allow-list, composition, top-N, and any user-defined subclass of the abstract strategy.
- **Scoring.** The clamped composite score and the screener's legacy unbounded score.
- **Portfolio construction.** Top-N selection with equal or score weights, plus summary statistics.
- **LLM-provider selection.** Provider types, configuration defaults, the factory, each provider's context-window and pricing tables, the API-key check, the client keyword arguments, and the lazily cached client.

Modules follow the source files:

| module | source |
|---|---|
| `Company` | `dgi/models/company.py` |
| `Scoring` | `dgi/scoring.py` |
| `Validation` | `dgi/validation.py` |
| `Filtering` | `dgi/filtering.py` |
| `Portfolio` | `dgi/portfolio.py` |
| `Screening` | `dgi/screener.py` |
| `ProviderBase` | `dgi/providers/base.py` |
| `Providers` | `dgi/providers/base.py`; the provider class and its client cache |
| `OpenAIModels` | `dgi/providers/openai_provider.py` |
| `AnthropicModels` | `dgi/providers/anthropic_provider.py` |
| `ProviderFactory` | `dgi/providers/factory.py` |

Supporting modules:

- `Wrappers`: Option and Result.
- `Errors`: the Python exceptions the core raises.
- `Text`: `str(int)`, whitespace stripping, ASCII `lower`, `in`, and the decimal subset of `float(str)`.
- `Seqs`: boolean masks, `nlargest`, `head`, sums.
- `Frames`: the subset of a pandas DataFrame the core uses.

Modelling decisions:

- **Numbers are reals.** The tests' floating-point tolerances therefore become exact equalities.
- **Tables.** A table is an ordered list of column labels plus a list of rows, each row a map from label to cell.
- **Errors are values.** A missing column yields `KeyError`. Comparing text with numbers, or dividing text, yields `TypeError`; a column holding only text sorts in Python's string order. A division by zero yields `ZeroDivisionError`. An exception the code raises becomes a `Failure` result, not a precondition.
- **Record field names.** `CompanyData` stores `payout` and `dividendCagr`, following `dgi/models/company.py:24-25`. The names `screener.py` reads (`payout_ratio`, `dividend_growth_5y`) are the accessors `PayoutRatio()` and `DividendGrowth5y()`, which return the same values. The package `dgi/models/__init__.py`, which `from dgi.models import CompanyData` resolves to, is not part of this model; the record is taken to be the one in `dgi/models/company.py`, with both spellings naming one stored value.
- **Where the code and the older tests or docstrings disagree, the model follows the code:**
  - Row errors are tagged `Row {i+2}`.
  - An empty batch raises `DataValidationError`; it does not return `[]`.
  - The module-level `score` and the screener without a strategy use `default_score` (the legacy formula), not `DefaultScoring`.
  - `build` fails on a missing `score` or ticker column only through the column lookup.
- **Mutable versus value types.** `LLMProvider` is a class, because its `_client` cache is updated in place. `LLMConfig`, `Screener` and `DgiRowValidator` are values, because no field is reassigned after construction.
- **Loops become methods proved against specification functions:**
  - `validate_rows` (`Validation.ValidateRows`);
  - the `rows_to_dataframe` append loop (`Screening.RowsToDataFrame`);
  - the `CompositeFilter` loop (`Filtering.CompositeFilter`);
  - the in-place kwargs assembly (`ProviderBase.BuildClientKwargs`).
- **The environment is a parameter.** Environment variables are a map passed in.
- **The CSV file is a parameter.** A CSV repository's file contents are the list of string-keyed records handed to the validator.

## Model

| member | source | states |
|---|---|---|
| Company.MustBeNumber | dgi/models/company.py:28-35 | ints and floats pass through as reals, and bools become 1.0 or 0.0; a string is parsed as a decimal and gives its value; any other object (one `float()` rejects), or an unparsable string, fails with "Value '<v>' is not a valid number" |
| Company.MustBeNumberPrintedInt | dgi/models/company.py:32-33 | coercion runs before the bounds, so a CSV string such as "40" becomes 40.0 (for every integer printed in decimal) |
| Company.Lookup | dgi/models/company.py:11-26 | a field is found exactly when the row has the key, with the row's value |
| Company.CheckTextValue | dgi/models/company.py:11-22 | an accepted text field is non-empty after stripping and present; a failure names the field |
| Company.CheckText | dgi/models/company.py:11-22 | an accepted text field is present, stripped and non-empty; a failure names the field |
| Company.CheckNumberValue | dgi/models/company.py:23-26 | an accepted number is >= 0, and <= 100 for the capped payout field; a failure names the field |
| Company.CheckNumber | dgi/models/company.py:23-26 | an accepted number is present, >= 0, and <= 100 for payout; a failure names the field |
| Company.TextErrors | dgi/models/company.py:11-22 | there are no text-field errors exactly when all four text fields pass |
| Company.NumberErrors | dgi/models/company.py:23-26 | there are no numeric-field errors exactly when all four numeric fields pass, payout with its upper bound |
| Company.MissingTextReported | dgi/models/company.py:11-22 | a missing text field is reported as "Field required" |
| Company.MissingNumberReported | dgi/models/company.py:23-26 | a missing numeric field is reported as "Field required" |
| Company.Validate | dgi/models/company.py:5-35 | a record is built exactly when no field fails, and it then satisfies every field constraint; otherwise every failing field is reported, in declaration order |
| Company.ValidateRequiresEveryField | dgi/models/company.py:11-26 | a row missing any of the eight fields is rejected, and the error names that field |
| Company.AcceptedChecks | dgi/models/company.py:11-26 | an accepted row passes all eight field checks, and the record holds exactly the checked values |
| Company.AcceptedHasEveryField | dgi/models/company.py:11-26 | an accepted row holds all eight fields |
| Company.AcceptedKeys | dgi/models/company.py:11-26 | an accepted row has each of the eight keys |
| Company.ValidateFieldValues | dgi/models/company.py:11-35 | an accepted record's text fields are the stripped inputs and its numbers are the coerced inputs |
| Company.CheckTextStrips | dgi/models/company.py:11-22 | an accepted text field is a string input and the result is that string stripped |
| Company.CheckNumberCoerces | dgi/models/company.py:28-35 | an accepted numeric field is the `must_be_number` coercion of its input |
| Company.CheckTextOf | dgi/models/company.py:11-22 | a stripped non-empty string passes unchanged |
| Company.CheckNumberOf | dgi/models/company.py:23-26 | a float within bounds passes unchanged |
| Company.ValidateDumpRoundTrip | dgi/models/company.py:5-35 | validating the dump of a valid record gives back that record |
| Company.DumpChecks | dgi/models/company.py:11-26 | each field of a valid record's dump passes its check with the record's value |
| Company.DumpTextChecks | dgi/models/company.py:11-22 | the text fields of the dump pass with the record's strings |
| Company.DumpNumberChecks | dgi/models/company.py:23-26 | the numeric fields of the dump pass with the record's numbers |
| Company.ValidateFromChecks | dgi/models/company.py:11-26 | when all eight field checks give a record's values, validation returns that record |
| Company.CheckAgrees | dgi/models/company.py:11-26 | a field check reads only that field |
| Company.TextChecksAgree | dgi/models/company.py:11-22 | rows agreeing on the eight fields get the same text errors |
| Company.NumberChecksAgree | dgi/models/company.py:23-26 | rows agreeing on the eight fields get the same numeric errors |
| Company.ValidateIgnoresExtraKeys | dgi/models/company.py:5-26 | validation ignores keys that are not fields, such as a score column |
| Scoring.Normalise | dgi/scoring.py:14-16 | clamp(x / scale, 0, 1): in [0, 1], equal to x / scale in range, 0 at or below 0, 1 at or above the scale |
| Scoring.DefaultScore | dgi/scoring.py:12-20 | the score always lies in [0, 1] |
| Scoring.DefaultScoreAtMostTwoThirds | dgi/scoring.py:14-19 | the score never exceeds 2/3 |
| Scoring.DefaultScoreFormula | dgi/scoring.py:14-19 | the score is (cagr_norm + fcf_norm - payout_norm) / 3, clamped to [0, 1], with scales 20, 20 and 100 |
| Scoring.DefaultScoreExample | dgi/scoring.py:17-19 | cagr 10, fcf 10 and payout 50 score exactly 1/6 |
| Scoring.DefaultScoreMonotone | dgi/scoring.py:14-19 | the score does not decrease with cagr or fcf yield, and does not increase with payout |
| Scoring.DefaultScoreZeroIff | dgi/scoring.py:17-19 | the score is 0 exactly when payout_norm >= cagr_norm + fcf_norm |
| Scoring.DefaultScoreDependsOnThreeFields | dgi/scoring.py:12-20 | the score depends only on cagr, fcf yield and payout, never on dividend yield |
| Scoring.Score | dgi/scoring.py:6-20 | the default strategy scores with the composite formula |
| Validation.StringKeys | dgi/validation.py:46 | the row's keys are converted to strings; a later duplicate key wins |
| Validation.StringKeysComplete | dgi/validation.py:46 | every input key is present after conversion |
| Validation.PydanticValidate | dgi/validation.py:18-23 | the strategy accepts exactly the rows `CompanyData` accepts, with a valid record, and never raises anything but a validation error |
| Validation.NewDgiRowValidator | dgi/validation.py:31-40 | without a strategy the default is `PydanticRowValidation(CompanyData)`; required columns are kept as given |
| Validation.RowTagInjective | dgi/validation.py:52 | distinct row numbers give distinct "Row {i+2}: " tags |
| Validation.MissingColumns | dgi/validation.py:47-50 | the missing list holds, in `required_columns` order, exactly the required columns absent from the row, each as often as `required_columns` lists it |
| Validation.CheckRow | dgi/validation.py:46-66 | each row's error message starts with its tag "Row {i+2}: " |
| Validation.MissingColumnsSkipStrategy | dgi/validation.py:47-55 | a row lacking a required column is rejected with "Missing: ..." whatever the strategy, which is not consulted |
| Validation.Outcomes | dgi/validation.py:45-66 | each row gets exactly one outcome, its own check |
| Validation.Successes | dgi/validation.py:43-58 | the valid rows gathered so far are never more than the rows seen |
| Validation.OutcomeStep | dgi/validation.py:56-66 | one loop step appends the row's record or its error, and leaves the other list unchanged |
| Validation.SuccessesPlusFailures | dgi/validation.py:45-66 | every row ends in exactly one of the records or the errors: their counts add up to the row count |
| Validation.NoSuccessIff | dgi/validation.py:67-69 | no record survives exactly when every row failed |
| Validation.SuccessFromOutcome | dgi/validation.py:56-58 | every returned record is some row's accepted outcome |
| Validation.FailureFromOutcome | dgi/validation.py:59-66 | every error is some row's failed outcome |
| Validation.ErrorsTagged | dgi/validation.py:52-64 | every collected error carries some row's "Row {i+2}" tag |
| Validation.ValidateRows | dgi/validation.py:42-72 | the loop returns the specification's records or `DataValidationError`, plus the single aggregated warning when some but not all rows failed |
| Validation.ValidateRowsOutcome | dgi/validation.py:45-72 | the batch fails exactly when every row failed; on success, records plus errors account for every row |
| Validation.EmptyBatchFails | dgi/validation.py:67-69 | an empty batch raises `DataValidationError("Validation errors:\n")` rather than returning [] |
| Validation.PydanticRecordsValid | dgi/validation.py:36-39 | with the default strategy every returned record satisfies the field constraints |
| Filtering.ThresholdColumnsError | dgi/filtering.py:20-24 | the mask can be evaluated exactly when the three threshold columns exist and hold numbers; a missing `dividend_yield` column raises `KeyError` |
| Filtering.DefaultFilter | dgi/filtering.py:14-24 | missing threshold columns fail; otherwise the columns are unchanged and the rows are an order-preserving subsequence, each meeting all three inclusive bounds; empty input gives empty output |
| Filtering.DefaultFilterKeepsExactly | dgi/filtering.py:20-24 | a row is kept, as often as it occurs, exactly when yield >= min, payout <= max and cagr >= min |
| Filtering.DefaultFilterMonotone | dgi/filtering.py:20-24 | stricter thresholds give a subsequence of the looser result |
| Filtering.DefaultFilterIdempotent | dgi/filtering.py:20-24 | filtering the result again with the same thresholds changes nothing |
| Filtering.SectorRows | dgi/filtering.py:44-45 | the `isin` mask keeps, as an order-preserving subsequence, every row of an allowed sector as often as it occurs, and no other row |
| Filtering.SectorFilter | dgi/filtering.py:27-47 | fails as the default filter does; otherwise, with a sector column, exactly the `isin` selection of the default filter's result, and without one exactly the default result |
| Filtering.SectorFilterKeepsExactly | dgi/filtering.py:37-45 | with a sector column, a row is kept, as often as it occurs, exactly when it meets the three thresholds and its sector is allowed |
| Filtering.NewTopNFilter | dgi/filtering.py:68-70 | the base filter defaults to `DefaultFilter` |
| Filtering.ApplyFilter | dgi/filtering.py:6-83 | a strategy assembled from the four built-in ones adds no rows and keeps the columns; a user-defined strategy gives whatever its own `filter` returns |
| Filtering.TopN | dgi/filtering.py:78-83 | keeps columns, takes rows only from the base result, and returns at most `top_n` rows |
| Filtering.FoldFilters | dgi/filtering.py:59-62 | a chain of built-in filters adds no rows and keeps the columns |
| Filtering.CompositeFilter | dgi/filtering.py:50-62 | the loop is the left fold of the filters in order, the first failure stopping it |
| Filtering.FoldFiltersAppend | dgi/filtering.py:59-62 | composing `fs + gs` runs `gs` on the result of `fs` |
| Filtering.FoldFiltersUnits | dgi/filtering.py:59-62 | zero filters is the identity; one filter is that filter |
| Filtering.OrderPreservingSubsequence | dgi/filtering.py:14-62 | mask filters, and compositions of them, return an order-preserving subsequence |
| Filtering.FoldSubsequence | dgi/filtering.py:59-62 | a composition of order-preserving filters is order-preserving |
| Filtering.TopNRanksByScore | dgi/filtering.py:79-80 | with a score column and rows, exactly min(n, len) rows in descending score order, every kept score >= every dropped score |
| Filtering.TopNTakesFirstRows | dgi/filtering.py:83 | without a score column, or with no rows, the first `top_n` rows in order |
| Filtering.TopNAtMostN | dgi/filtering.py:72-83 | at most `top_n` rows, all drawn from the base filter's result |
| Seqs.Keep | dgi/filtering.py:20-24 | every row a boolean mask keeps satisfies the mask |
| Seqs.KeepSubsequence | dgi/filtering.py:20-24 | a boolean mask keeps an order-preserving subsequence |
| Seqs.KeepMultiplicity | dgi/filtering.py:20-24 | a row is kept as often as it occurs when it satisfies the mask, otherwise never |
| Seqs.KeepAllSatisfy | dgi/filtering.py:20-24 | a mask every row satisfies keeps the whole input |
| Seqs.KeepMonotone | dgi/filtering.py:20-24 | a weaker mask keeps a supersequence |
| Seqs.SubsequenceTransitive | dgi/filtering.py:59-62 | chaining subsequences gives a subsequence |
| Seqs.MaxIndex | dgi/portfolio.py:35 | picks an element at least every other, the first such one, which keeps the sort stable |
| Seqs.SortDescPermutation | dgi/portfolio.py:35 | a descending sort by number or by text is a permutation |
| Seqs.SortDescOrdered | dgi/portfolio.py:35 | a descending sort by number or by text puts every element before the ones it is not below |
| Seqs.PrefixDominates | dgi/portfolio.py:35 | after a descending sort, every element of the first n is at least every other element |
| Seqs.HeadCount | dgi/filtering.py:83 | `head(n)` takes min(n, len) rows, and for negative n all but the last |n| |
| Seqs.Head | dgi/filtering.py:83 | `head(n)` is the prefix of `HeadCount` rows, so an order-preserving subsequence of at most n rows |
| Seqs.LargestPrefix | dgi/filtering.py:79-80 | the first k rows of a descending sort by a numeric key come from the input, descend, and are none smaller than a row left out |
| Seqs.TakeLargest | dgi/filtering.py:79-80 | `nlargest(n)`: min(n, len) rows, drawn from the input, in descending order, none smaller than a dropped row |
| Seqs.SumScaled | dgi/portfolio.py:39-43 | dividing each score by the total sums to the total over the total |
| Seqs.SumConstant | dgi/portfolio.py:36-37 | n equal weights w sum to n * w |
| Seqs.SumBounds | dgi/portfolio.py:58-60 | a sum of n values in [lo, hi] lies in [n * lo, n * hi] |
| Frames.ReadNumericColumn | dgi/portfolio.py:58-60 | reading a column for arithmetic fails with `KeyError` when it is absent and `TypeError` when it holds text |
| Portfolio.SelectTop | dgi/portfolio.py:35 | `head(top_n)` of the descending sort: the `head` count of rows, drawn from the input |
| Portfolio.ScoreOrder | dgi/portfolio.py:35 | `sort_values("score")` compares numbers for a numeric column and strings in Python's order for a text column; a missing column is a `KeyError`, and a column mixing text and numbers a `TypeError` |
| Seqs.GeTotal | dgi/portfolio.py:35 | any two rows compare one way or the other, by number or by Python's string order, so the descending sort is well defined |
| Seqs.GeTransitive | dgi/portfolio.py:35 | "at least" is transitive for numbers and for Python's string order |
| Portfolio.SelectTopDominates | dgi/portfolio.py:35 | every selected row is at least every unselected row in the sort order |
| Portfolio.Weights | dgi/portfolio.py:36-43 | score weighting of text scores fails dividing by the concatenated text; otherwise division by zero happens exactly when `top_n` is 0 and the 1 / `top_n` branch is taken; a success has one weight per selected row |
| Portfolio.Uniform | dgi/portfolio.py:37 | `1.0 / top_n` for each row, or `ZeroDivisionError` exactly when `top_n` is 0 |
| Portfolio.Build | dgi/portfolio.py:11-44 | `top_n > len` fails first, then an unknown weighting, then an unsortable score column; a result has columns ticker, weight and score, the `head` count of rows, a sortable score column and a ticker column |
| Portfolio.BuildSelects | dgi/portfolio.py:34-44 | each output row is a selected row's ticker (from "ticker", else "symbol") and score, with its weight |
| Portfolio.EqualWeights | dgi/portfolio.py:36-37 | equal weighting gives every selected row 1 / `top_n` |
| Portfolio.ScoreWeights | dgi/portfolio.py:38-43 | score weighting gives score / total, or 1 / `top_n` when the total is exactly 0 |
| Portfolio.ScoreWeightsProportional | dgi/portfolio.py:43 | score weights are proportional to the scores |
| Portfolio.ScoreWeightTimesTotal | dgi/portfolio.py:43 | a score weight times the total is the row's score |
| Portfolio.WeightsSumToOne | dgi/portfolio.py:36-43 | for 1 <= `top_n` == number selected, both weightings sum to 1 |
| Portfolio.PortfolioWeightsSumToOne | dgi/portfolio.py:36-44 | the weight column of a built portfolio sums to 1 |
| Portfolio.BuildKeepsHighestScores | dgi/portfolio.py:35 | no selected row ranks below an unselected row: by number for numeric scores, in Python's string order for text scores |
| Portfolio.ZeroTopNDividesByZero | dgi/portfolio.py:26-37 | `top_n` = 0 passes both checks and then divides by zero |
| Portfolio.TextScoreWeighting | dgi/portfolio.py:35-43 | for a text score column, equal weighting returns a portfolio and score weighting fails with `TypeError` from the division |
| Portfolio.TextScoreExample | dgi/portfolio.py:11-44 | rows A/"x" and B/"y" with `top_n` 1 and equal weighting give one row: ticker B, weight 1.0, score "y" |
| Portfolio.Mean | dgi/portfolio.py:58 | the mean is NaN exactly for an empty column |
| Portfolio.Median | dgi/portfolio.py:59 | the median is NaN exactly for an empty column |
| Portfolio.MeanBounds | dgi/portfolio.py:58-60 | the mean of values in [lo, hi] lies in [lo, hi] |
| Portfolio.MedianBounds | dgi/portfolio.py:59 | the median of values in [lo, hi] lies in [lo, hi] |
| Portfolio.MedianOfSorted | dgi/portfolio.py:59 | the median is the middle sorted value, or the average of the two middle values |
| Portfolio.SummaryStats | dgi/portfolio.py:47-61 | succeeds exactly when the three columns exist and are numeric; empty input gives NaN for all three |
| Portfolio.SummaryStatsBounds | dgi/portfolio.py:57-61 | the mean yield, median cagr and mean payout each lie between their column's bounds |
| Portfolio.MeanExamples | dgi/portfolio.py:58-60 | yields 2, 3, 4 have mean 3; payouts 40, 50, 60 have mean 50 |
| Portfolio.MedianExample | dgi/portfolio.py:59 | cagrs 5, 6, 7 have median 6 |
| Screening.CsvRowsNonEmpty | dgi/repositories/csv.py:13-15 | a CSV repository never returns an empty list of records |
| Screening.NewScreener | dgi/screener.py:28-38 | the filter strategy defaults to `DefaultFilter`; the scoring strategy is kept as given |
| Screening.Project | dgi/screener.py:58-67 | a projected row has exactly the eight expected columns |
| Screening.ProjectKeepsValues | dgi/screener.py:58-67 | the projection renames `payout_ratio` to payout and `dividend_growth_5y` to `dividend_cagr`, values unchanged |
| Screening.ProjectTable | dgi/screener.py:52-88 | no records fails with "no valid rows found"; otherwise the columns are the eight expected ones in order, one row per record, in input order |
| Screening.ProjectTableWellFormed | dgi/screener.py:70-88 | the projected table's labels are distinct and each row holds exactly those labels |
| Screening.ExpectedColumnsDistinct | dgi/screener.py:71-80 | the expected column labels are distinct |
| Screening.ProjectedRowsHoldColumns | dgi/screener.py:70-87 | every projected row holds exactly the table's columns |
| Screening.RowsToDataFrame | dgi/screener.py:52-88 | the append loop builds the projected table or raises the no-rows error |
| Screening.LoadUniverse | dgi/screener.py:90-101 | `load_universe` is `rows_to_dataframe(repository.get_rows())`, repository errors propagating |
| Screening.CsvUniverseNeverEmpty | dgi/screener.py:81-86 | through a CSV repository the no-rows error cannot occur, because validation fails first |
| Screening.ApplyFilters | dgi/screener.py:103-119 | the configured strategy's result; for a built-in strategy it has the same columns and never more rows |
| Screening.DefaultApplyFilters | dgi/screener.py:161-167 | the default screener applies `DefaultFilter` with thresholds 0, 100 and 0 |
| Screening.LegacyScorePenalty | dgi/screener.py:40-49 | `default_score` = yield + 0.5 * growth, minus 0.1 per payout point above 60 |
| Screening.LegacyScoreRange | dgi/screener.py:40-49 | `default_score` of a valid record is at least -4 and has no upper bound |
| Screening.ScoreRowFallsBack | dgi/screener.py:131-141 | a row that is not a valid record, or a strategy that raises, scores 0.0 |
| Screening.ProjectedRowValidates | dgi/screener.py:131-133 | a projected row, with or without a score column, validates back to its record |
| Screening.ProjectedRowAgreesWithDump | dgi/screener.py:58-67 | a projected row agrees with the record's dump on every field |
| Screening.ScoreRowOfProjected | dgi/screener.py:131-138 | a projected valid record is scored by the strategy, or by `default_score` when there is none |
| Screening.WithScoreColumnLabels | dgi/screener.py:143 | assigning the score column adds just that label and keeps labels distinct |
| Screening.AddScores | dgi/screener.py:121-144 | on a copy, every row gains its score and keeps its other cells; an empty table gets an empty score column |
| Screening.AddScoresWellFormed | dgi/screener.py:121-144 | adding scores keeps the table well formed |
| Screening.ScoresOfLoadedRecords | dgi/screener.py:121-144 | scoring a loaded universe gives each record its own score |
| Screening.DefaultUniverseScores | dgi/screener.py:147-158 | the module-level screener gives each loaded record its `default_score`, never the 0.0 fallback |
| ProviderBase.ParseValue | dgi/providers/base.py:9-13 | exactly "openai" and "anthropic" name a provider type, each with that value |
| ProviderBase.ValueRoundTrip | dgi/providers/base.py:9-13 | parsing a provider type's value gives it back; values are distinct |
| ProviderBase.NewLLMConfig | dgi/providers/base.py:16-32 | fields are kept as given, and `extra_params` None becomes {} |
| ProviderBase.NewLLMConfigDefaults | dgi/providers/base.py:20-32 | the defaults are key None, temperature 0.1, max_tokens None, timeout 30, retries 2, extras {} |
| ProviderBase.GetConfigSummary | dgi/providers/base.py:65-74 | the summary reports the provider value, model, temperature, max_tokens, timeout and retries unchanged |
| ProviderBase.SummaryHidesSecrets | dgi/providers/base.py:65-74 | the summary does not depend on the API key or the extra parameters |
| ProviderBase.ResolveApiKey | dgi/providers/openai_provider.py:23 | a truthy config key is used, otherwise the environment variable |
| ProviderBase.ResolveApiKeyTruthy | dgi/providers/openai_provider.py:23-25 | a usable key exists exactly when the config key or the environment variable is non-empty |
| ProviderBase.ClientKwargsKeys | dgi/providers/openai_provider.py:32-46 | the keys are model, temperature, timeout, max_retries and the key argument, plus `max_tokens` exactly when truthy, plus the extras |
| ProviderBase.ClientKwargsValues | dgi/providers/openai_provider.py:32-46 | extra parameters override; other entries carry the configuration's values |
| ProviderBase.BuildClientKwargs | dgi/providers/openai_provider.py:31-46 | the in-place assembly builds exactly the kwargs map |
| OpenAIModels.ContextWindowAtLeastFallback | dgi/providers/openai_provider.py:72-82 | the window is at least 4096, and exactly 4096 for an unlisted model |
| OpenAIModels.PricingTierRules | dgi/providers/openai_provider.py:84-96 | "gpt-3.5-turbo" is standard; else "mini" or "3.5" is low-cost; else "4o" is medium-cost; else premium |
| OpenAIModels.PricingTierGpt4o | dgi/providers/openai_provider.py:84-92 | gpt-4o-mini is low-cost and gpt-4o medium-cost |
| OpenAIModels.PricingTierGpt4 | dgi/providers/openai_provider.py:93-96 | gpt-4 and gpt-4-turbo are premium |
| OpenAIModels.PricingTierGpt35 | dgi/providers/openai_provider.py:87-90 | gpt-3.5-turbo is standard and gpt-3.5-turbo-16k low-cost |
| ProviderBase.KeyAvailable | dgi/providers/openai_provider.py:98-101 | true exactly when the config key, or else the provider's variable, is non-empty; `anthropic_provider.py` lines 98-101 are the same check with ANTHROPIC_API_KEY |
| ProviderBase.InitializeChatClient | dgi/providers/openai_provider.py:21-48 | fails with the provider's ValueError exactly when there is no key; otherwise builds a client from the kwargs with the key under the provider's argument name (`anthropic_provider.py` lines 21-48 are the same with `anthropic_api_key`) |
| OpenAIModels.GetModelInfo | dgi/providers/openai_provider.py:62-70 | provider "OpenAI", the model, function support, and the window and tier of the model |
| AnthropicModels.ContextWindowTwoSizes | dgi/providers/anthropic_provider.py:72-84 | the window is 100000 exactly for claude-2.0 and claude-instant-1.2, otherwise 200000 |
| AnthropicModels.PricingTierRules | dgi/providers/anthropic_provider.py:86-96 | "haiku" is low-cost; else "sonnet" is standard; else "opus" is premium; else standard |
| AnthropicModels.PricingTierExamples | dgi/providers/anthropic_provider.py:86-96 | the Claude 3 haiku, sonnet and opus models are low-cost, standard and premium |
| AnthropicModels.GetModelInfo | dgi/providers/anthropic_provider.py:62-70 | provider "Anthropic", the model, function support, and the window (100000 or 200000) and tier of the model |
| Providers.LLMProvider.constructor | dgi/providers/base.py:38-40 | a new provider keeps its configuration and has no client |
| Providers.LLMProvider.ValidateApiKey | dgi/providers/base.py:57-59 | the concrete key check: the config key or the provider's environment variable (OPENAI_API_KEY or ANTHROPIC_API_KEY) is non-empty |
| Providers.LLMProvider.GetModelInfo | dgi/providers/base.py:61-63 | the concrete model info, with the provider's own context-window and pricing-tier tables |
| Providers.LLMProvider.InitializeClient | dgi/providers/base.py:42-44 | the concrete initialisation: succeeds exactly when a key is available, with the provider's kwargs and key argument; otherwise the provider's missing-key ValueError |
| Providers.LLMProvider.Client | dgi/providers/base.py:46-51 | a cached client is returned without re-initialising; otherwise one initialisation, whose client (the provider's kwargs with the resolved key) is cached and returned, or whose missing-key `ValueError` is returned with nothing cached |
| Providers.ClientIsCached | dgi/providers/base.py:46-51 | two requests on a fresh provider initialise once and return the same client |
| Providers.NewProvider | dgi/providers/openai_provider.py:16-19 | a configuration for another provider type is refused with "Invalid provider type"; otherwise a fresh provider with no client |
| ProviderFactory.ApiKeyEnvVar | dgi/providers/factory.py:18-21 | `API_KEY_ENV_VARS` names the variable each provider reads |
| ProviderFactory.ResolveProviderType | dgi/providers/factory.py:63-71 | a name is lower-cased before lookup; an unknown name fails with "Unsupported provider: ..." listing the supported values |
| ProviderFactory.ResolveIgnoresCase | dgi/providers/factory.py:64-71 | "OpenAI" and "ANTHROPIC" resolve; "gemini" does not |
| ProviderFactory.ResolveValue | dgi/providers/factory.py:64-66 | every provider's value resolves to itself |
| ProviderFactory.CreateConfig | dgi/providers/factory.py:63-78 | the configuration carries the resolved type, the model given or `DEFAULT_MODELS[type]`, and the key, temperature, max_tokens, timeout, max_retries and extra_params as given (`{}` for None) |
| ProviderFactory.CreateProvider | dgi/providers/factory.py:24-86 | fails as type resolution does; otherwise a fresh provider of the resolved kind with that configuration |
| ProviderFactory.EnvChoice | dgi/providers/factory.py:116-117 | the provider variable defaults to "openai"; the model variable may be absent |
| ProviderFactory.CreateProviderFromEnv | dgi/providers/factory.py:89-119 | `create_provider` with the provider and model read from the environment: the provider class it selects, that configuration and no client, or the resolution error |
| ProviderFactory.EmptyEnvSelectsOpenAI | dgi/providers/factory.py:116-119 | an empty environment gives OpenAI with gpt-4o-mini and the default settings |
| ProviderFactory.EnvProviderDefaultsModel | dgi/providers/factory.py:116-119 | naming only the provider gives that provider's default model |
| ProviderFactory.AvailableProvidersAgree | dgi/providers/factory.py:122-163 | each entry's default model and key variable agree with `DEFAULT_MODELS` and `API_KEY_ENV_VARS`, and the default model is listed |
| ProviderFactory.SupportedOpenAIModelsHaveWindows | dgi/providers/factory.py:133-139 | every listed OpenAI model has its own context window, above the fallback |
| ProviderFactory.SupportedAnthropicModelsHaveLargeWindow | dgi/providers/factory.py:149-156 | every listed Anthropic model has a 200000 window |
| ProviderFactory.DefaultModelInfo | dgi/providers/factory.py:12-15 | the default models report 128000/low-cost (gpt-4o-mini) and 200000/standard (claude-3-5-sonnet) |
| Text.Strip | dgi/models/company.py:11-22 | `strip_whitespace` returns a slice of its input with only Unicode White_Space cut from either end, and leaves none at either end |
| Text.StripIdempotent | dgi/models/company.py:11-22 | stripping twice is stripping once |
| Text.StripEmptyIffAllSpace | dgi/models/company.py:11-22 | a string is empty after stripping exactly when it is all whitespace, so `min_length=1` rejects those |
| Text.StrLessIrreflexive | dgi/portfolio.py:35 | no string sorts before itself |
| Text.StrLessTotal | dgi/portfolio.py:35 | of two different strings one sorts before the other |
| Text.StrLessTransitive | dgi/portfolio.py:35 | Python's string order is transitive |
| Text.StrAtLeastTransitive | dgi/portfolio.py:35 | "at least" in Python's string order is transitive |
| Text.StrLessAsymmetric | dgi/portfolio.py:35 | two strings never each sort before the other |
| Text.NatToStringRoundTrip | dgi/validation.py:52 | the digits of `str(n)` denote n |
| Text.NatToStringInjective | dgi/validation.py:52 | distinct numbers print differently |
| Text.ParseDecimalRoundTrip | dgi/models/company.py:32-33 | `float(str(i))` == i for every integer |
| Screening.LegacyScore | dgi/screener.py:40-49 | `default_score`; its formula is stated in LegacyScorePenalty and its range in LegacyScoreRange |
| Screening.ScoreRow | dgi/screener.py:131-141 | `score_row`; the 0.0 fallback is stated in ScoreRowFallsBack, and the score of a projected record in ScoreRowOfProjected |
| Screening.GetRows | dgi/repositories/csv.py:13-15 | `get_rows`: a CSV repository validates its records, and CsvRowsNonEmpty states that a success is never empty |
| OpenAIModels.ContextWindow | dgi/providers/openai_provider.py:72-82 | `_get_context_window`; ContextWindowAtLeastFallback states the 4096 fallback |
| OpenAIModels.PricingTier | dgi/providers/openai_provider.py:84-97 | `_get_pricing_tier`; PricingTierRules states each tier's condition |
| AnthropicModels.ContextWindow | dgi/providers/anthropic_provider.py:72-84 | `_get_context_window`; ContextWindowTwoSizes states the two sizes |
| AnthropicModels.PricingTier | dgi/providers/anthropic_provider.py:86-97 | `_get_pricing_tier`; PricingTierRules states each tier's condition |
| ProviderFactory.DefaultModel | dgi/providers/factory.py:11-14 | `DEFAULT_MODELS`; EnvProviderDefaultsModel and AvailableProvidersAgree state its use |
| ProviderFactory.AvailableProviders | dgi/providers/factory.py:122-163 | `get_available_providers`; AvailableProvidersAgree and the two supported-models lemmas state its contents |
| Validation.StringKeysLastWins | dgi/validation.py:46 | a key that no later item prints alike keeps its own value, so the last duplicate wins |
| Validation.ValidateRowsSpec | dgi/validation.py:42-73 | what `validate_rows` returns; ValidateRows proves the loop equal to it, and ValidateRowsOutcome and SuccessesPlusFailures state its properties |
| Company.CompanyData.Valid | dgi/models/company.py:11-22 | the field constraints; PydanticRecordsValid and ValidateDumpRoundTrip state that validated records meet them |
| Company.Dump | dgi/models/company.py:5-35 | `model_dump`; ValidateDumpRoundTrip states that validating it gives the record back |

## Left out

- IEEE floating point: numbers are reals, so rounding, NaN inputs and infinities are not modelled. `summary_stats` on an empty table returns a distinct NaN value.
- Text.IsSpace: whitespace is Unicode White_Space, which `constr(strip_whitespace=True)` trims. `float(str)` also skips U+001C to U+001F around a number; the model's decimal parser does not.
- `float(str)` is modelled for decimal literals only: an optional sign, digits and an optional fraction, with surrounding whitespace. Python also accepts exponents, underscores, "nan" and "inf".
- Text.ToLower: only ASCII letters are lower-cased, because Unicode case mapping is not modelled.
- LangChain client construction (`ChatOpenAI`, `ChatAnthropic`) is an opaque value holding the provider kind and the kwargs map. `create_agent` in both providers is left out, because it is a LangChain call.
- Logging calls throughout are left out, because they are side effects only. The aggregated warning of `validate_rows` is returned as a value.
- CSV reading with `pd.read_csv` is left out: a CSV repository is its list of raw string-keyed records.
- `dgi/repositories/base.py` is not part of this model; any other repository is an arbitrary result value.
- The CLI, the chat demo and the screener tool are left out, because they are I/O and UI.
- `dgi/config.py` and `dgi/models.py` are not part of this model.
- `Screener._filters` and the `CompanyFilter` protocol are left out, because they are stored but never used.
- `portfolio_placeholder` is left out, because it does nothing.
- Unknown `**kwargs` passed to `create_provider` are left out: only `LLMConfig`'s own fields are parameters.
- The "Provider not implemented" branch of `create_provider` is left out, because it is unreachable with two provider types.
- Portfolio.SelectTop: ties are broken by a stable sort (first occurrence first), because `sort_values` does not guarantee an order for tied scores. Only the set-based property that selected >= unselected is stated about it.
- Portfolio.Build: the weight column is computed as a value, not written in place into the copied frame, so aliasing of the copy is not modelled.
- Pandas dtype details are left out. A cell is a number or a label. A column mixing numbers and text raises `TypeError` wherever it is compared, sorted or aggregated, with one fixed message whichever operand order pandas meets first.
- Company.MustBeNumber: objects other than ints, floats, bools, strings and None are all treated as rejected by `float()`; `Decimal`, `Fraction`, bytes, numpy scalars and other objects with `__float__` are not modelled.
- Validation.PydanticValidate: the message of a pydantic `ValidationError` is summarised as the list of failing fields and reasons, not pydantic's exact text.

/**
 * The screener: loads validated records from a repository into a table with a
 * fixed column order, delegates filtering to its filter strategy, and appends
 * a score column computed row by row without ever aborting.
 */
module Screening {
  import opened Wrappers
  import opened Errors
  import opened Text
  import opened Seqs
  import opened Frames
  import opened Company
  import opened Scoring
  import opened Filtering
  import opened Validation

  /** Where the records come from: a CSV file's rows run through a validator, or any other source. */
  datatype Repository =
    | CsvRepository(records: seq<RawRow>, validator: DgiRowValidator)
    | OtherRepository(rows: Result<seq<CompanyData>, Error>)

  /** `repository.get_rows()`. */
  function GetRows(repository: Repository): Result<seq<CompanyData>, Error>
  {
    match repository
    case CsvRepository(records, validator) => ValidateRowsSpec(validator, records)
    case OtherRepository(rows) => rows
  }

  /** A CSV repository never hands over an empty list: with no valid row it fails instead. */
  lemma CsvRowsNonEmpty(records: seq<RawRow>, validator: DgiRowValidator)
    ensures GetRows(CsvRepository(records, validator)).Success? ==> GetRows(CsvRepository(records, validator)).value != []
  {
  }

  datatype Screener = Screener(
    repository: Repository,
    scoringStrategy: Option<ScoringStrategy>,
    filterStrategy: FilterStrategy)

  /** `Screener(repository, filters=None, scoring_strategy=None, filter_strategy=None)`. */
  function NewScreener(repository: Repository, scoringStrategy: Option<ScoringStrategy> := None,
                       filterStrategy: Option<FilterStrategy> := None): (s: Screener)
    ensures s.repository == repository && s.scoringStrategy == scoringStrategy
    ensures filterStrategy.None? ==> s.filterStrategy == DefaultStrategy
    ensures filterStrategy.Some? ==> s.filterStrategy == filterStrategy.value
  {
    Screener(repository, scoringStrategy, if filterStrategy.Some? then filterStrategy.value else DefaultStrategy)
  }

  const ExpectedColumns: seq<string> :=
    ["symbol", "name", "sector", "industry", "dividend_yield", "payout", "dividend_cagr", "fcf_yield"]

  /** One record as a table row; the legacy names fill the `payout` and `dividend_cagr` columns. */
  function Project(c: CompanyData): (r: Row)
    ensures r.Keys == set k | k in ExpectedColumns
  {
    map["symbol" := Label(c.symbol), "name" := Label(c.name), "sector" := Label(c.sector),
        "industry" := Label(c.industry), "dividend_yield" := Number(c.dividendYield),
        "payout" := Number(c.PayoutRatio()), "dividend_cagr" := Number(c.DividendGrowth5y()),
        "fcf_yield" := Number(c.fcfYield)]
  }

  /** The renamed columns carry the record's stored values unchanged. */
  lemma ProjectKeepsValues(c: CompanyData)
    ensures Project(c)["payout"] == Number(c.payout)
    ensures Project(c)["dividend_cagr"] == Number(c.dividendCagr)
    ensures Project(c)["dividend_yield"] == Number(c.dividendYield) && Project(c)["fcf_yield"] == Number(c.fcfYield)
    ensures Project(c)["symbol"] == Label(c.symbol) && Project(c)["sector"] == Label(c.sector)
  {
  }

  const NoRowsError: Error :=
    ValueError("Missing expected columns in validated data: " + Join(ExpectedColumns, ", ") + " or no valid rows found.")

  /** `rows_to_dataframe` as a value: one projected row per record, or the error for an empty list. */
  function ProjectTable(records: seq<CompanyData>): (r: Result<Table, Error>)
    ensures records == [] <==> r == Failure(NoRowsError)
    ensures r.Success? ==> r.value.columns == ExpectedColumns && |r.value.rows| == |records|
    ensures r.Success? ==> forall i :: 0 <= i < |records| ==> r.value.rows[i] == Project(records[i])
  {
    if records == [] then Failure(NoRowsError)
    else Success(Table(ExpectedColumns, seq(|records|, i requires 0 <= i < |records| => Project(records[i]))))
  }

  /** The projected table is well formed: distinct columns, and every row holds exactly them. */
  lemma ProjectTableWellFormed(records: seq<CompanyData>)
    requires records != []
    ensures WellFormed(ProjectTable(records).value)
  {
    ExpectedColumnsDistinct();
    ProjectedRowsHoldColumns(records);
  }

  lemma ExpectedColumnsDistinct()
    ensures forall i, j :: 0 <= i < j < |ExpectedColumns| ==> ExpectedColumns[i] != ExpectedColumns[j]
  {
    forall i, j | 0 <= i < j < |ExpectedColumns| ensures ExpectedColumns[i] != ExpectedColumns[j] {
      var a, b := ExpectedColumns[i], ExpectedColumns[j];
      assert a[0] != b[0] || |a| != |b| || a[1] != b[1];
    }
  }

  lemma ProjectedRowsHoldColumns(records: seq<CompanyData>)
    requires records != []
    ensures forall i :: 0 <= i < |ProjectTable(records).value.rows| ==>
      ProjectTable(records).value.rows[i].Keys == set c | c in ProjectTable(records).value.columns
  {
  }

  /**
   * `Screener.rows_to_dataframe`: the loop that appends one mapped dict per
   * record, then the column check.
   */
  method RowsToDataFrame(records: seq<CompanyData>) returns (r: Result<Table, Error>)
    ensures r == ProjectTable(records)
  {
    var data: seq<Row> := [];
    for i := 0 to |records|
      invariant |data| == i
      invariant forall k :: 0 <= k < i ==> data[k] == Project(records[k])
    {
      data := data + [Project(records[i])];
    }
    if data == [] {
      return Failure(NoRowsError);
    }
    r := Success(Table(ExpectedColumns, data));
    assert data == ProjectTable(records).value.rows;
  }

  /** `Screener.load_universe`: the repository's records, projected. */
  method LoadUniverse(s: Screener) returns (r: Result<Table, Error>)
    ensures GetRows(s.repository).Failure? ==> r == Failure(GetRows(s.repository).error)
    ensures GetRows(s.repository).Success? ==> r == ProjectTable(GetRows(s.repository).value)
  {
    match GetRows(s.repository)
    case Failure(e) =>
      r := Failure(e);
    case Success(records) =>
      r := RowsToDataFrame(records);
  }

  /** Through a CSV repository the "no valid rows found" error cannot occur: validation fails first. */
  lemma CsvUniverseNeverEmpty(records: seq<RawRow>, validator: DgiRowValidator)
    ensures var rows := GetRows(CsvRepository(records, validator));
      rows.Success? ==> ProjectTable(rows.value).Success?
  {
  }

  /**
   * `Screener.apply_filters`: the configured strategy's result, which for a
   * built-in strategy never has more rows.
   */
  function ApplyFilters(s: Screener, t: Table, minYield: real := 0.0, maxPayout: real := 100.0,
                        minCagr: real := 0.0): (r: Result<Table, Error>)
    ensures r == ApplyFilter(s.filterStrategy, t, Thresholds(minYield, maxPayout, minCagr))
    ensures BuiltIn(s.filterStrategy) && r.Success? ==> r.value.columns == t.columns && |r.value.rows| <= |t.rows|
  {
    var r := ApplyFilter(s.filterStrategy, t, Thresholds(minYield, maxPayout, minCagr));
    if BuiltIn(s.filterStrategy) && r.Success? then
      assert |multiset(r.value.rows)| <= |multiset(t.rows)| by {
        MultisetSubsetSize(multiset(r.value.rows), multiset(t.rows));
      }
      r
    else r
  }

  lemma MultisetSubsetSize<T>(a: multiset<T>, b: multiset<T>)
    requires a <= b
    ensures |a| <= |b|
  {
    assert b == a + (b - a);
  }

  /**
   * A screener built without a filter strategy, called with the default
   * thresholds, is the default filter with minimum yield 0, maximum payout 100
   * and minimum growth 0, as is the module-level `apply_filters`.
   */
  lemma DefaultApplyFilters(repository: Repository, t: Table)
    ensures ApplyFilters(NewScreener(repository), t) == DefaultFilter(t, Thresholds(0.0, 100.0, 0.0))
  {
  }

  /** `Screener.default_score`: yield + growth / 2, less a tenth of the payout above 60. Not clamped. */
  function LegacyScore(c: CompanyData): real
  {
    var yieldScore := c.dividendYield * 1.0;
    var growthScore := c.DividendGrowth5y() * 0.5;
    var payoutPenalty := Max(0.0, c.PayoutRatio() - 60.0) * -0.1;
    yieldScore + growthScore + payoutPenalty
  }

  /** Up to a payout of 60 there is no penalty; above it each point costs 0.1. */
  lemma LegacyScorePenalty(c: CompanyData)
    ensures c.payout <= 60.0 ==> LegacyScore(c) == c.dividendYield + 0.5 * c.dividendCagr
    ensures c.payout > 60.0 ==> LegacyScore(c) == c.dividendYield + 0.5 * c.dividendCagr - 0.1 * (c.payout - 60.0)
  {
  }

  /** For a valid record the score is at least -4 (payout 100, nothing else), and it has no upper bound. */
  lemma LegacyScoreRange(c: CompanyData, bound: real)
    requires c.Valid()
    ensures LegacyScore(c) >= -4.0
    ensures LegacyScore(c.(dividendYield := if bound > 0.0 then bound else 0.0, payout := 0.0)) >= bound
  {
  }

  /** A table cell as the value `CompanyData(**row.to_dict())` receives. */
  function CellValue(cell: Cell): Value
  {
    match cell
    case Number(x) => Float(x)
    case Label(s) => Str(s)
  }

  function RowValues(r: Row): map<string, Value>
  {
    map k | k in r :: CellValue(r[k])
  }

  /**
   * `score_row`: rebuild the record from the row and score it with the
   * strategy, or with `default_score` when there is none; a row that does not
   * validate, or a strategy that raises, scores 0.0.
   */
  function ScoreRow(s: Screener, r: Row): real
  {
    match Validate(RowValues(r))
    case Failure(_) => 0.0
    case Success(c) =>
      if s.scoringStrategy.None? then LegacyScore(c)
      else
        match Score(s.scoringStrategy.value, c)
        case Some(x) => x
        case None => 0.0
  }

  /** A row that is not a valid record scores 0.0 rather than raising. */
  lemma ScoreRowFallsBack(s: Screener, r: Row)
    ensures Validate(RowValues(r)).Failure? ==> ScoreRow(s, r) == 0.0
    ensures (Validate(RowValues(r)).Success? && s.scoringStrategy.Some?
             && Score(s.scoringStrategy.value, Validate(RowValues(r)).value).None?) ==> ScoreRow(s, r) == 0.0
  {
  }

  /** The projected row of a valid record, with or without a score column, validates back to that record. */
  lemma ProjectedRowValidates(c: CompanyData, score: Option<Cell>)
    requires c.Valid()
    ensures Validate(RowValues(if score.Some? then Project(c)["score" := score.value] else Project(c))) == Success(c)
  {
    var row := RowValues(if score.Some? then Project(c)["score" := score.value] else Project(c));
    ProjectedRowAgreesWithDump(c, score);
    ValidateIgnoresExtraKeys(row, Dump(c));
    ValidateDumpRoundTrip(c);
  }

  lemma ProjectedRowAgreesWithDump(c: CompanyData, score: Option<Cell>)
    ensures var row := RowValues(if score.Some? then Project(c)["score" := score.value] else Project(c));
      && (forall f :: f in Fields ==> (f in row <==> f in Dump(c)))
      && (forall f :: f in Fields && f in row ==> row[f] == Dump(c)[f])
  {
    var row := RowValues(if score.Some? then Project(c)["score" := score.value] else Project(c));
    forall f | f in Fields ensures f in row && f in Dump(c) && row[f] == Dump(c)[f] {
      assert f in TextFields || f in NumberFields;
    }
  }

  /** Scoring the projected row of a valid record scores that record, even when a score column is already present. */
  lemma ScoreRowOfProjected(s: Screener, c: CompanyData, score: Option<Cell>)
    requires c.Valid()
    ensures var r := if score.Some? then Project(c)["score" := score.value] else Project(c);
      ScoreRow(s, r) ==
        if s.scoringStrategy.None? then LegacyScore(c)
        else if Score(s.scoringStrategy.value, c).Some? then Score(s.scoringStrategy.value, c).value
        else 0.0
  {
    ProjectedRowValidates(c, score);
  }

  function WithScoreColumn(columns: seq<string>): seq<string>
  {
    if "score" in columns then columns else columns + ["score"]
  }

  /** The score column is the one label added, and labels stay distinct. */
  lemma WithScoreColumnLabels(columns: seq<string>)
    ensures (set c | c in WithScoreColumn(columns)) == (set c | c in columns) + {"score"}
    ensures (forall i, j :: 0 <= i < j < |columns| ==> columns[i] != columns[j]) ==>
      forall i, j :: 0 <= i < j < |WithScoreColumn(columns)| ==> WithScoreColumn(columns)[i] != WithScoreColumn(columns)[j]
  {
  }

  function LengthMismatch(len: nat): Error
  {
    ValueError("Length of values (0) does not match length of index (" + NatToString(len) + ")")
  }

  /**
   * `Screener.add_scores` on a copy of the table: an empty table gains an
   * empty score column; otherwise every row gains its score.
   */
  function AddScores(s: Screener, t: Table): (r: Result<Table, Error>)
    ensures r.Failure? <==> t.columns == [] && t.rows != []
    ensures r.Success? ==> r.value.columns == WithScoreColumn(t.columns) && |r.value.rows| == |t.rows|
    ensures r.Success? ==> forall i :: 0 <= i < |t.rows| ==>
      && r.value.rows[i].Keys == t.rows[i].Keys + {"score"}
      && r.value.rows[i]["score"] == Number(ScoreRow(s, t.rows[i]))
      && forall k :: k in t.rows[i] && k != "score" ==> r.value.rows[i][k] == t.rows[i][k]
  {
    if t.rows == [] then Success(Table(WithScoreColumn(t.columns), []))
    else if t.columns == [] then Failure(LengthMismatch(|t.rows|))
    else Success(Table(WithScoreColumn(t.columns),
                       seq(|t.rows|, i requires 0 <= i < |t.rows| => t.rows[i]["score" := Number(ScoreRow(s, t.rows[i]))])))
  }

  /** Adding scores keeps a well-formed table well formed. */
  lemma AddScoresWellFormed(s: Screener, t: Table)
    requires WellFormed(t) && AddScores(s, t).Success?
    ensures WellFormed(AddScores(s, t).value)
  {
    var u := AddScores(s, t).value;
    WithScoreColumnLabels(t.columns);
    forall i | 0 <= i < |u.rows| ensures u.rows[i].Keys == set c | c in u.columns {
      assert u.rows[i].Keys == t.rows[i].Keys + {"score"};
    }
  }

  /** Loading a universe and scoring it gives every record its own score. */
  lemma ScoresOfLoadedRecords(s: Screener, records: seq<CompanyData>, i: nat)
    requires records != [] && i < |records| && forall k :: 0 <= k < |records| ==> records[k].Valid()
    ensures var scored := AddScores(s, ProjectTable(records).value);
      && scored.Success?
      && scored.value.rows[i]["score"] == Number(
           if s.scoringStrategy.None? then LegacyScore(records[i])
           else if Score(s.scoringStrategy.value, records[i]).Some? then Score(s.scoringStrategy.value, records[i]).value
           else 0.0)
  {
    ScoreRowOfProjected(s, records[i], None);
  }

  /** The screener the module-level `load_universe(csv_path)` builds: a CSV repository with the default validator. */
  function DefaultScreener(records: seq<RawRow>): Screener
  {
    NewScreener(CsvRepository(records, NewDgiRowValidator()))
  }

  /**
   * Loading through the module-level screener and scoring the table gives each
   * loaded record its `default_score`: every loaded record is valid, so no row
   * falls back to 0.0.
   */
  lemma DefaultUniverseScores(records: seq<RawRow>, i: nat)
    requires GetRows(DefaultScreener(records).repository).Success?
    requires i < |GetRows(DefaultScreener(records).repository).value|
    ensures var loaded := GetRows(DefaultScreener(records).repository).value;
      var scored := AddScores(DefaultScreener(records), ProjectTable(loaded).value);
      scored.Success? && scored.value.rows[i]["score"] == Number(LegacyScore(loaded[i]))
  {
    PydanticRecordsValid(records);
    ScoresOfLoadedRecords(DefaultScreener(records), GetRows(DefaultScreener(records).repository).value, i);
  }
}

/**
 * Portfolio construction: the top-N rows by score, weighted equally or in
 * proportion to their scores, and summary statistics of a table.
 */
module Portfolio {
  import opened Wrappers
  import opened Errors
  import opened Text
  import opened Seqs
  import opened Frames

  /** The column the tickers come from: "ticker" when present, otherwise "symbol". */
  function TickerColumn(t: Table): string
  {
    if "ticker" in t.columns then "ticker" else "symbol"
  }

  /** The text in a row's score column. */
  function ScoreTextOf(r: Row): string { TextOf(r, "score") }

  /**
   * How `sort_values("score", ascending=False)` compares rows: by number for a
   * numeric column and in Python's string order for a column of text;
   * `KeyError` without the column, `TypeError` for a column mixing text and
   * numbers.
   */
  function ScoreOrder(t: Table): (r: Result<Order<Row>, Error>)
    ensures r.Success? <==> "score" in t.columns && (IsNumericColumn(t.rows, "score") || IsTextColumn(t.rows, "score"))
    ensures "score" !in t.columns ==> r == Failure(KeyError("score"))
    ensures r.Failure? && "score" in t.columns ==> r.error == TypeError(ComparisonError("<"))
    ensures r.Success? && IsNumericColumn(t.rows, "score") ==> r.value == ByNumber(ScoreOf)
    ensures r.Success? && !IsNumericColumn(t.rows, "score") ==> r.value == ByText(ScoreTextOf)
  {
    if "score" !in t.columns then Failure(KeyError("score"))
    else if IsNumericColumn(t.rows, "score") then Success(ByNumber(ScoreOf))
    else if IsTextColumn(t.rows, "score") then Success(ByText(ScoreTextOf))
    else Failure(TypeError(ComparisonError("<")))
  }

  /** `sort_values("score", ascending=False).head(top_n)`, rows compared by `o`. */
  function SelectTop(rows: seq<Row>, topN: int, o: Order<Row>): (top: seq<Row>)
    ensures |top| == HeadCount(|rows|, topN)
    ensures multiset(top) <= multiset(rows)
  {
    SortDescPermutation(rows, o);
    Head(SortDesc(rows, o), topN)
  }

  /** Every selected row is at least every unselected one. */
  lemma SelectTopDominates(rows: seq<Row>, topN: int, o: Order<Row>)
    ensures forall x, y :: x in SelectTop(rows, topN, o) && y in multiset(rows) - multiset(SelectTop(rows, topN, o)) ==>
      Ge(o, x, y)
  {
    PrefixDominates(rows, o, HeadCount(|rows|, topN));
  }

  /** What dividing a text score by the concatenated text total raises. */
  const TextDivisionError: Error := TypeError("unsupported operand type(s) for /: 'str' and 'str'")

  /** `1.0 / top_n` for each of `n` rows. */
  function Uniform(n: nat, topN: int): (r: Result<seq<real>, Error>)
    ensures r.Failure? <==> topN == 0
    ensures r.Failure? ==> r.error == ZeroDivisionError
    ensures r.Success? ==> r.value == Constant(n, 1.0 / topN as real)
  {
    if topN == 0 then Failure(ZeroDivisionError) else Success(Constant(n, 1.0 / topN as real))
  }

  /**
   * The weight column: `1.0 / top_n` for equal weighting, and for score
   * weighting each score over the total, or `1.0 / top_n` when the total is 0.
   * Scores that are text sum to a string, which is not 0, and dividing by it
   * raises `TypeError`; no rows sum to 0.
   */
  function Weights(top: seq<Row>, topN: int, weighting: string): (r: Result<seq<real>, Error>)
    ensures weighting != "equal" && !IsNumericColumn(top, "score") ==> r == Failure(TextDivisionError)
    ensures weighting == "equal" || IsNumericColumn(top, "score") ==>
      && (r.Failure? <==> topN == 0 && (weighting == "equal" || Sum(ColumnValues(top, "score")) == 0.0))
      && (r.Failure? ==> r.error == ZeroDivisionError)
    ensures r.Success? ==> |r.value| == |top|
  {
    if weighting == "equal" then Uniform(|top|, topN)
    else if !IsNumericColumn(top, "score") then Failure(TextDivisionError)
    else
      var total := Sum(ColumnValues(top, "score"));
      if total == 0.0 then Uniform(|top|, topN) else Success(Scaled(ColumnValues(top, "score"), total))
  }

  function OutputRow(r: Row, tickerColumn: string, weight: real): Row
    requires tickerColumn in r && "score" in r
  {
    map["ticker" := r[tickerColumn], "weight" := Number(weight), "score" := r["score"]]
  }

  const OutputColumns: seq<string> := ["ticker", "weight", "score"]

  function TopNError(topN: int, len: nat): Error
  {
    ValueError("top_n (" + IntToString(topN) + ") cannot be greater than number of stocks (" + NatToString(len) + ")")
  }

  const WeightingError: Error := ValueError("weighting must be 'equal' or 'score'")

  /**
   * `build(df, top_n, weighting)`: the checks in the order the code makes them,
   * then selection, weighting and the projection onto ticker, weight, score.
   */
  function Build(t: Table, topN: int, weighting: string): (r: Result<Table, Error>)
    requires WellFormed(t)
    ensures topN > |t.rows| ==> r == Failure(TopNError(topN, |t.rows|))
    ensures topN <= |t.rows| && weighting != "equal" && weighting != "score" ==> r == Failure(WeightingError)
    ensures topN <= |t.rows| && (weighting == "equal" || weighting == "score") && ScoreOrder(t).Failure? ==>
      r == Failure(ScoreOrder(t).error)
    ensures r.Success? ==> r.value.columns == OutputColumns && |r.value.rows| == HeadCount(|t.rows|, topN)
    ensures r.Success? ==> ScoreOrder(t).Success? && TickerColumn(t) in t.columns
  {
    if topN > |t.rows| then Failure(TopNError(topN, |t.rows|))
    else if weighting != "equal" && weighting != "score" then Failure(WeightingError)
    else
      match ScoreOrder(t)
      case Failure(e) => Failure(e)
      case Success(o) =>
        var tickerColumn := TickerColumn(t);
        var top := SelectTop(t.rows, topN, o);
        match Weights(top, topN, weighting)
        case Failure(e) => Failure(e)
        case Success(w) =>
          if tickerColumn !in t.columns then Failure(KeyError(tickerColumn))
          else
            RowsFromTable(t, top);
            Success(Table(OutputColumns, seq(|top|, i requires 0 <= i < |top| => OutputRow(top[i], tickerColumn, w[i]))))
  }

  /**
   * The preconditions under which `build` returns a portfolio of exactly
   * `top_n` rows: a numeric score column, or a text one weighted equally.
   */
  predicate Buildable(t: Table, topN: int, weighting: string)
  {
    && WellFormed(t)
    && 1 <= topN <= |t.rows|
    && (weighting == "equal" || weighting == "score")
    && "score" in t.columns
    && (IsNumericColumn(t.rows, "score") || (IsTextColumn(t.rows, "score") && weighting == "equal"))
    && TickerColumn(t) in t.columns
  }

  /** The rows `build` selects. */
  function Selected(t: Table, topN: int): seq<Row>
    requires ScoreOrder(t).Success?
  {
    SelectTop(t.rows, topN, ScoreOrder(t).value)
  }

  function WeightOf(r: Row): real { Num(r, "weight") }

  /** A buildable request yields `top_n` rows: the selected rows' tickers and scores with their weights. */
  lemma BuildSelects(t: Table, topN: int, weighting: string)
    requires Buildable(t, topN, weighting)
    ensures Build(t, topN, weighting).Success?
    ensures var out := Build(t, topN, weighting).value; var top := Selected(t, topN);
      && |out.rows| == topN
      && (forall i :: 0 <= i < topN ==> top[i].Keys == set c | c in t.columns)
      && forall i :: 0 <= i < topN ==>
           && out.rows[i]["ticker"] == top[i][TickerColumn(t)]
           && out.rows[i]["score"] == top[i]["score"]
           && out.rows[i]["weight"] == Number(Weights(top, topN, weighting).value[i])
  {
    var top := Selected(t, topN);
    RowsFromTable(t, top);
    if weighting == "score" {
      NumericColumnSub(top, t.rows, "score");
    }
  }

  /** Equal weighting gives every selected row `1 / top_n`. */
  lemma EqualWeights(t: Table, topN: int)
    requires Buildable(t, topN, "equal")
    ensures forall i :: 0 <= i < topN ==> Build(t, topN, "equal").value.rows[i]["weight"] == Number(1.0 / topN as real)
  {
    BuildSelects(t, topN, "equal");
  }

  /**
   * Score weighting gives each row its score over the selected total, or
   * `1 / top_n` when that total is 0.
   */
  lemma ScoreWeights(top: seq<Row>, topN: int)
    requires topN != 0 && IsNumericColumn(top, "score")
    ensures var total := Sum(ColumnValues(top, "score"));
      && Weights(top, topN, "score").Success?
      && forall i :: 0 <= i < |top| ==>
           Weights(top, topN, "score").value[i] == if total == 0.0 then 1.0 / topN as real else ScoreOf(top[i]) / total
  {
    var total := Sum(ColumnValues(top, "score"));
    if total != 0.0 {
      var w := Weights(top, topN, "score").value;
      forall i | 0 <= i < |top| ensures w[i] == ScoreOf(top[i]) / total {
        assert w[i] * total == ScoreOf(top[i]);
      }
    }
  }

  /** Score weights are proportional to the scores: `w_i * s_j == w_j * s_i`. */
  lemma ScoreWeightsProportional(top: seq<Row>, topN: int, i: nat, j: nat)
    requires topN != 0 && i < |top| && j < |top| && IsNumericColumn(top, "score")
    requires Sum(ColumnValues(top, "score")) != 0.0
    ensures var w := Weights(top, topN, "score").value;
      w[i] * ScoreOf(top[j]) == w[j] * ScoreOf(top[i])
  {
    var w := Weights(top, topN, "score").value;
    var total := Sum(ColumnValues(top, "score"));
    ScoreWeightTimesTotal(top, topN, i);
    ScoreWeightTimesTotal(top, topN, j);
    calc {
      w[i] * ScoreOf(top[j]);
      w[i] * (w[j] * total);
      w[j] * (w[i] * total);
      w[j] * ScoreOf(top[i]);
    }
  }

  lemma ScoreWeightTimesTotal(top: seq<Row>, topN: int, i: nat)
    requires topN != 0 && i < |top| && IsNumericColumn(top, "score") && Sum(ColumnValues(top, "score")) != 0.0
    ensures Weights(top, topN, "score").value[i] * Sum(ColumnValues(top, "score")) == ScoreOf(top[i])
  {
  }

  /**
   * Weights for `top_n` selected rows add up to 1 in both modes (score
   * weighting needs numeric scores).
   */
  lemma WeightsSumToOne(top: seq<Row>, topN: int, weighting: string)
    requires 1 <= topN == |top|
    requires weighting == "equal" || IsNumericColumn(top, "score")
    ensures Weights(top, topN, weighting).Success?
    ensures Sum(Weights(top, topN, weighting).value) == 1.0
  {
    var total := Sum(ColumnValues(top, "score"));
    if weighting == "equal" || total == 0.0 {
      var n := topN as real;
      assert Weights(top, topN, weighting).value == Constant(topN, 1.0 / n);
      SumConstant(topN, 1.0 / n);
      assert n * (1.0 / n) == 1.0;
    } else {
      SumScaled(ColumnValues(top, "score"), total);
    }
  }

  /** The portfolio's weight column adds up to 1. */
  lemma PortfolioWeightsSumToOne(t: Table, topN: int, weighting: string)
    requires Buildable(t, topN, weighting)
    ensures Build(t, topN, weighting).Success?
    ensures Sum(ColumnValues(Build(t, topN, weighting).value.rows, "weight")) == 1.0
  {
    BuildSelects(t, topN, weighting);
    var top := Selected(t, topN);
    if weighting == "score" {
      NumericColumnSub(top, t.rows, "score");
    }
    WeightsSumToOne(top, topN, weighting);
    assert ColumnValues(Build(t, topN, weighting).value.rows, "weight") == Weights(top, topN, weighting).value;
  }

  /**
   * Every selected row ranks at least as high as every row left out: by
   * number for numeric scores, in Python's string order for text scores.
   */
  lemma BuildKeepsHighestScores(t: Table, topN: int, weighting: string)
    requires Buildable(t, topN, weighting)
    ensures var top := Selected(t, topN);
      && (IsNumericColumn(t.rows, "score") ==>
            forall x, y :: x in top && y in multiset(t.rows) - multiset(top) ==> ScoreOf(x) >= ScoreOf(y))
      && (!IsNumericColumn(t.rows, "score") ==>
            forall x, y :: x in top && y in multiset(t.rows) - multiset(top) ==> !StrLess(ScoreTextOf(x), ScoreTextOf(y)))
  {
    var o := ScoreOrder(t).value;
    var top := Selected(t, topN);
    SelectTopDominates(t.rows, topN, o);
    if IsNumericColumn(t.rows, "score") {
      forall x, y | x in top && y in multiset(t.rows) - multiset(top) ensures ScoreOf(x) >= ScoreOf(y) {
        assert Ge(o, x, y);
      }
    } else {
      forall x, y | x in top && y in multiset(t.rows) - multiset(top) ensures !StrLess(ScoreTextOf(x), ScoreTextOf(y)) {
        assert Ge(o, x, y);
      }
    }
  }

  /** `top_n = 0` passes the checks and then divides by zero. */
  lemma ZeroTopNDividesByZero(t: Table, weighting: string)
    requires WellFormed(t) && (weighting == "equal" || weighting == "score")
    requires "score" in t.columns && (IsNumericColumn(t.rows, "score") || IsTextColumn(t.rows, "score"))
    ensures Build(t, 0, weighting) == Failure(ZeroDivisionError)
  {
    assert Selected(t, 0) == [];
  }

  /**
   * A score column holding only text is sorted as Python orders strings:
   * equal weighting returns a portfolio, while score weighting sums the text
   * into a string and fails dividing by it.
   */
  lemma TextScoreWeighting(t: Table, topN: int)
    requires WellFormed(t) && 1 <= topN <= |t.rows|
    requires "score" in t.columns && IsTextColumn(t.rows, "score") && TickerColumn(t) in t.columns
    ensures Build(t, topN, "equal").Success?
    ensures Build(t, topN, "score") == Failure(TextDivisionError)
  {
    assert !IsNumericColumn(t.rows, "score") by {
      assert t.rows[0]["score"].Label?;
    }
    assert ScoreOrder(t) == Success(ByText(ScoreTextOf));
    var top := Selected(t, topN);
    assert top[0] in multiset(t.rows);
    assert !IsNumericColumn(top, "score") by {
      assert top[0] in t.rows;
    }
    assert Weights(top, topN, "equal").Success?;
    assert Weights(top, topN, "score") == Failure(TextDivisionError);
  }

  const RowA: Row := map["symbol" := Label("A"), "score" := Label("x")]
  const RowB: Row := map["symbol" := Label("B"), "score" := Label("y")]
  const TextTable: Table := Table(["symbol", "score"], [RowA, RowB])

  /** Scores "x" and "y": `build(df, 1, "equal")` keeps B, the row whose text sorts last, at weight 1. */
  lemma TextScoreExample()
    ensures Build(TextTable, 1, "equal")
      == Success(Table(OutputColumns, [map["ticker" := Label("B"), "weight" := Number(1.0), "score" := Label("y")]]))
  {
    var out := map["ticker" := Label("B"), "weight" := Number(1.0), "score" := Label("y")];
    TextTableWellFormed();
    TextTableSelects();
    UniformOne();
    assert OutputRow(RowB, "symbol", 1.0) == out;
    assert seq(1, i requires 0 <= i < 1 => OutputRow([RowB][i], "symbol", [1.0][i])) == [out];
  }

  lemma TextTableWellFormed()
    ensures WellFormed(TextTable)
  {
    assert TextTable.rows[0].Keys == {"symbol", "score"} && TextTable.rows[1].Keys == {"symbol", "score"};
  }

  /** The example table sorts by text, and its top row is B's. */
  lemma TextTableSelects()
    ensures ScoreOrder(TextTable) == Success(ByText(ScoreTextOf)) && Selected(TextTable, 1) == [RowB]
  {
    TextTableOrder();
    TextSortTop();
    assert TextTable.rows == [RowA, RowB];
    assert Head(SortDesc([RowA, RowB], ByText(ScoreTextOf)), 1) == [RowB];
  }

  /** The example's score column holds text, so rows are compared as strings. */
  lemma TextTableOrder()
    ensures ScoreOrder(TextTable) == Success(ByText(ScoreTextOf))
  {
    assert TextTable.rows[0]["score"].Label?;
    assert IsTextColumn(TextTable.rows, "score");
  }

  /** "y" sorts before "x" in descending string order. */
  lemma TextSortTop()
    ensures SortDesc([RowA, RowB], ByText(ScoreTextOf))[..1] == [RowB]
  {
    var o := ByText(ScoreTextOf);
    assert ScoreTextOf(RowA) == "x" && ScoreTextOf(RowB) == "y";
    assert StrLess("x", "y");
    assert !Ge(o, RowA, RowB);
    assert MaxIndex([RowA, RowB][..1], o) == 0;
    assert MaxIndex([RowA, RowB], o) == 1;
  }

  lemma UniformOne()
    ensures Uniform(1, 1) == Success([1.0])
  {
    assert 1.0 / 1 as real == 1.0;
    var c := Constant(1, 1.0);
    assert |c| == 1 && c[0] == 1.0;
    assert c == [1.0];
  }

  /** A statistic: a number, or NaN for an empty column. */
  datatype Stat = NaN | Finite(value: real)

  function Mean(xs: seq<real>): (m: Stat)
    ensures xs == [] <==> m.NaN?
  {
    if xs == [] then NaN else Finite(Sum(xs) / (|xs| as real))
  }

  function Identity(x: real): real { x }

  /** The middle value, or the average of the two middle values, of the sorted column. */
  function Median(xs: seq<real>): (m: Stat)
    ensures xs == [] <==> m.NaN?
  {
    if xs == [] then NaN
    else
      var s := SortDesc(xs, ByNumber(Identity));
      var n := |s|;
      if n % 2 == 1 then Finite(s[n / 2]) else Finite((s[n / 2 - 1] + s[n / 2]) / 2.0)
  }

  /** The mean of values in `[lo, hi]` lies in `[lo, hi]`. */
  lemma MeanBounds(xs: seq<real>, lo: real, hi: real)
    requires xs != [] && forall i :: 0 <= i < |xs| ==> lo <= xs[i] <= hi
    ensures lo <= Mean(xs).value <= hi
  {
    SumBounds(xs, lo, hi);
    var n := |xs| as real;
    assert Sum(xs) / n * n == Sum(xs);
    if Sum(xs) / n < lo { assert Sum(xs) / n * n < lo * n; }
    if Sum(xs) / n > hi { assert Sum(xs) / n * n > hi * n; }
  }

  /** The median of values in `[lo, hi]` lies in `[lo, hi]`. */
  lemma MedianBounds(xs: seq<real>, lo: real, hi: real)
    requires xs != [] && forall i :: 0 <= i < |xs| ==> lo <= xs[i] <= hi
    ensures lo <= Median(xs).value <= hi
  {
    var s := SortDesc(xs, ByNumber(Identity));
    SortedWithinBounds(xs, lo, hi);
    MedianOfSorted(xs, s);
  }

  lemma SortedWithinBounds(xs: seq<real>, lo: real, hi: real)
    requires forall i :: 0 <= i < |xs| ==> lo <= xs[i] <= hi
    ensures forall k :: 0 <= k < |SortDesc(xs, ByNumber(Identity))| ==> lo <= SortDesc(xs, ByNumber(Identity))[k] <= hi
  {
    var s := SortDesc(xs, ByNumber(Identity));
    SortDescPermutation(xs, ByNumber(Identity));
    forall k | 0 <= k < |s| ensures lo <= s[k] <= hi {
      assert s[k] in multiset(s);
      assert s[k] in xs;
    }
  }

  datatype Summary = Summary(meanYield: Stat, medianCagr: Stat, meanPayout: Stat)

  function AggregationError(c: string): string
  {
    "Could not convert column '" + c + "' to numeric"
  }

  /** `summary_stats`: mean yield, median growth and mean payout, each column read in that order. */
  function SummaryStats(t: Table): (r: Result<Summary, Error>)
    ensures r.Success? <==> && "dividend_yield" in t.columns && IsNumericColumn(t.rows, "dividend_yield")
                            && "dividend_cagr" in t.columns && IsNumericColumn(t.rows, "dividend_cagr")
                            && "payout" in t.columns && IsNumericColumn(t.rows, "payout")
    ensures r.Success? && t.rows == [] ==> r.value == Summary(NaN, NaN, NaN)
  {
    match ReadNumericColumn(t, "dividend_yield", AggregationError("dividend_yield"))
    case Some(e) => Failure(e)
    case None =>
      match ReadNumericColumn(t, "dividend_cagr", AggregationError("dividend_cagr"))
      case Some(e) => Failure(e)
      case None =>
        match ReadNumericColumn(t, "payout", AggregationError("payout"))
        case Some(e) => Failure(e)
        case None =>
          Success(Summary(Mean(ColumnValues(t.rows, "dividend_yield")),
                          Median(ColumnValues(t.rows, "dividend_cagr")),
                          Mean(ColumnValues(t.rows, "payout"))))
  }

  /** Each summary figure lies between the smallest and largest value of its column. */
  lemma SummaryStatsBounds(t: Table, c: string, lo: real, hi: real)
    requires SummaryStats(t).Success? && t.rows != []
    requires c in {"dividend_yield", "dividend_cagr", "payout"}
    requires forall i :: 0 <= i < |t.rows| ==> lo <= Num(t.rows[i], c) <= hi
    ensures var s := SummaryStats(t).value;
      && (c == "dividend_yield" ==> lo <= s.meanYield.value <= hi)
      && (c == "dividend_cagr" ==> lo <= s.medianCagr.value <= hi)
      && (c == "payout" ==> lo <= s.meanPayout.value <= hi)
  {
    var xs := ColumnValues(t.rows, c);
    if c == "dividend_cagr" {
      MedianBounds(xs, lo, hi);
    } else {
      MeanBounds(xs, lo, hi);
    }
  }

  /** Yields 2, 3, 4 average 3; payouts 40, 50, 60 average 50. */
  lemma MeanExamples()
    ensures Mean([2.0, 3.0, 4.0]) == Finite(3.0)
    ensures Mean([40.0, 50.0, 60.0]) == Finite(50.0)
  {
    assert [2.0, 3.0, 4.0][..2] == [2.0, 3.0] && [2.0, 3.0][..1] == [2.0] && [2.0][..0] == [];
    assert [40.0, 50.0, 60.0][..2] == [40.0, 50.0] && [40.0, 50.0][..1] == [40.0] && [40.0][..0] == [];
  }

  lemma SortDescTwo()
    ensures SortDesc([5.0, 6.0], ByNumber(Identity)) == [6.0, 5.0]
  {
    assert [5.0, 6.0][..1] == [5.0];
    assert MaxIndex([5.0, 6.0], ByNumber(Identity)) == 1;
    assert RemoveAt([5.0, 6.0], 1) == [5.0];
    assert SortDesc([5.0], ByNumber(Identity)) == [5.0];
  }

  lemma SortDescThree()
    ensures SortDesc([5.0, 6.0, 7.0], ByNumber(Identity)) == [7.0, 6.0, 5.0]
  {
    var xs := [5.0, 6.0, 7.0];
    assert xs[..2] == [5.0, 6.0];
    assert [5.0, 6.0][..1] == [5.0];
    assert MaxIndex([5.0, 6.0], ByNumber(Identity)) == 1;
    assert MaxIndex(xs, ByNumber(Identity)) == 2;
    assert RemoveAt(xs, 2) == [5.0, 6.0];
    SortDescTwo();
  }

  /** Growths 5, 6, 7 have median 6. */
  lemma MedianExample()
    ensures Median([5.0, 6.0, 7.0]) == Finite(6.0)
  {
    SortDescThree();
    MedianOfSorted([5.0, 6.0, 7.0], [7.0, 6.0, 5.0]);
  }

  /** The median read off a column's descending order. */
  lemma MedianOfSorted(xs: seq<real>, s: seq<real>)
    requires xs != [] && SortDesc(xs, ByNumber(Identity)) == s
    ensures |s| % 2 == 1 ==> Median(xs) == Finite(s[|s| / 2])
    ensures |s| % 2 == 0 ==> Median(xs) == Finite((s[|s| / 2 - 1] + s[|s| / 2]) / 2.0)
  {
  }
}

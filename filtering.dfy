/**
 * Screening filters over a table of company rows: the default dividend-growth
 * thresholds, a sector allow-list on top of them, a composite applying
 * filters in order, and a top-N truncation by score.
 */
module Filtering {
  import opened Wrappers
  import opened Errors
  import opened Seqs
  import opened Frames

  /** The three screening thresholds; every bound is inclusive. */
  datatype Thresholds = Thresholds(minYield: real, maxPayout: real, minCagr: real)

  /** `a` admits no row that `b` rejects. */
  predicate Stricter(a: Thresholds, b: Thresholds)
  {
    a.minYield >= b.minYield && a.maxPayout <= b.maxPayout && a.minCagr >= b.minCagr
  }

  predicate Meets(th: Thresholds, r: Row)
  {
    && Num(r, "dividend_yield") >= th.minYield
    && Num(r, "payout") <= th.maxPayout
    && Num(r, "dividend_cagr") >= th.minCagr
  }

  /** The boolean mask of the three comparisons. */
  function MaskOf(th: Thresholds): Row -> bool
  {
    r => Meets(th, r)
  }

  /** The three compared columns are present and hold numbers. */
  predicate ThresholdColumnsReady(t: Table)
  {
    && "dividend_yield" in t.columns && IsNumericColumn(t.rows, "dividend_yield")
    && "payout" in t.columns && IsNumericColumn(t.rows, "payout")
    && "dividend_cagr" in t.columns && IsNumericColumn(t.rows, "dividend_cagr")
  }

  /** The comparisons run left to right, so the first bad column decides the error. */
  function ThresholdColumnsError(t: Table): (e: Option<Error>)
    ensures e.None? <==> ThresholdColumnsReady(t)
    ensures "dividend_yield" !in t.columns ==> e == Some(KeyError("dividend_yield"))
  {
    match ReadNumericColumn(t, "dividend_yield", ComparisonError(">="))
    case Some(e) => Some(e)
    case None =>
      match ReadNumericColumn(t, "payout", ComparisonError("<="))
      case Some(e) => Some(e)
      case None => ReadNumericColumn(t, "dividend_cagr", ComparisonError(">="))
  }

  /**
   * `DefaultFilter.filter`: the rows meeting all three thresholds, in their
   * original order and with their columns unchanged.
   */
  function DefaultFilter(t: Table, th: Thresholds): (r: Result<Table, Error>)
    ensures r.Success? <==> ThresholdColumnsReady(t)
    ensures "dividend_yield" !in t.columns ==> r == Failure(KeyError("dividend_yield"))
    ensures r.Success? ==> r.value.columns == t.columns
    ensures r.Success? ==> IsSubsequence(r.value.rows, t.rows) && multiset(r.value.rows) <= multiset(t.rows)
    ensures r.Success? ==> forall i :: 0 <= i < |r.value.rows| ==> Meets(th, r.value.rows[i])
    ensures r.Success? && t.rows == [] ==> r.value.rows == []
  {
    match ThresholdColumnsError(t)
    case Some(e) => Failure(e)
    case None =>
      KeepSubsequence(t.rows, MaskOf(th));
      SubsequenceMultiset(Keep(t.rows, MaskOf(th)), t.rows);
      Success(Table(t.columns, Keep(t.rows, MaskOf(th))))
  }

  /** The filter keeps every row meeting the thresholds, as often as it occurs, and no other row. */
  lemma DefaultFilterKeepsExactly(t: Table, th: Thresholds, x: Row)
    requires ThresholdColumnsReady(t)
    ensures multiset(DefaultFilter(t, th).value.rows)[x] == if Meets(th, x) then multiset(t.rows)[x] else 0
    ensures x in DefaultFilter(t, th).value.rows <==> x in t.rows && Meets(th, x)
  {
    KeepMultiplicity(t.rows, MaskOf(th), x);
    assert x in t.rows <==> multiset(t.rows)[x] > 0;
    assert x in DefaultFilter(t, th).value.rows <==> multiset(DefaultFilter(t, th).value.rows)[x] > 0;
  }

  /** Stricter thresholds keep a subsequence of what looser ones keep. */
  lemma DefaultFilterMonotone(t: Table, strict: Thresholds, loose: Thresholds)
    requires ThresholdColumnsReady(t) && Stricter(strict, loose)
    ensures IsSubsequence(DefaultFilter(t, strict).value.rows, DefaultFilter(t, loose).value.rows)
  {
    KeepMonotone(t.rows, MaskOf(strict), MaskOf(loose));
  }

  /** Filtering the result again with the same thresholds changes nothing. */
  lemma DefaultFilterIdempotent(t: Table, th: Thresholds)
    requires ThresholdColumnsReady(t)
    ensures DefaultFilter(DefaultFilter(t, th).value, th) == DefaultFilter(t, th)
  {
    var u := DefaultFilter(t, th).value;
    NumericColumnSub(u.rows, t.rows, "dividend_yield");
    NumericColumnSub(u.rows, t.rows, "payout");
    NumericColumnSub(u.rows, t.rows, "dividend_cagr");
    KeepAllSatisfy(u.rows, MaskOf(th));
  }

  /** A row of an allow-listed sector (`isin`: a number never equals a sector name). */
  predicate InSectors(r: Row, allowed: seq<string>)
  {
    "sector" in r && r["sector"].Label? && r["sector"].s in allowed
  }

  function SectorMask(allowed: seq<string>): Row -> bool
  {
    r => InSectors(r, allowed)
  }

  /**
   * `df[df["sector"].isin(allowed)]`: the rows of an allowed sector, in order,
   * each as often as it occurs, and no other row.
   */
  function SectorRows(rows: seq<Row>, allowed: seq<string>): (kept: seq<Row>)
    ensures IsSubsequence(kept, rows) && multiset(kept) <= multiset(rows)
    ensures forall i :: 0 <= i < |kept| ==> InSectors(kept[i], allowed)
    ensures forall x :: multiset(kept)[x] == if InSectors(x, allowed) then multiset(rows)[x] else 0
  {
    var kept := Keep(rows, SectorMask(allowed));
    KeepSubsequence(rows, SectorMask(allowed));
    SubsequenceMultiset(kept, rows);
    assert forall i :: 0 <= i < |kept| ==> SectorMask(allowed)(kept[i]);
    forall x ensures multiset(kept)[x] == if InSectors(x, allowed) then multiset(rows)[x] else 0 {
      KeepMultiplicity(rows, SectorMask(allowed), x);
    }
    kept
  }

  /**
   * `SectorFilter.filter`: the default thresholds, then, when the table has a
   * sector column, only the rows whose sector is allowed.
   */
  function SectorFilter(t: Table, th: Thresholds, allowed: seq<string>): (r: Result<Table, Error>)
    ensures r.Failure? <==> DefaultFilter(t, th).Failure?
    ensures r.Failure? ==> r == DefaultFilter(t, th)
    ensures r.Success? ==> r.value.columns == t.columns
    ensures r.Success? ==> IsSubsequence(r.value.rows, DefaultFilter(t, th).value.rows)
    ensures r.Success? ==> multiset(r.value.rows) <= multiset(t.rows)
    ensures r.Success? && "sector" in t.columns ==>
      forall i :: 0 <= i < |r.value.rows| ==> InSectors(r.value.rows[i], allowed)
    ensures r.Success? && "sector" in t.columns ==> r.value.rows == SectorRows(DefaultFilter(t, th).value.rows, allowed)
    ensures r.Success? && "sector" !in t.columns ==> r == DefaultFilter(t, th)
  {
    match DefaultFilter(t, th)
    case Failure(e) => Failure(e)
    case Success(base) =>
      if "sector" in base.columns then
        Success(Table(base.columns, SectorRows(base.rows, allowed)))
      else
        SubsequenceReflexive(base.rows);
        Success(base)
  }

  /**
   * With a sector column, the sector filter keeps a row, as often as it
   * occurs, exactly when it meets the thresholds and its sector is allowed.
   */
  lemma SectorFilterKeepsExactly(t: Table, th: Thresholds, allowed: seq<string>, x: Row)
    requires ThresholdColumnsReady(t) && "sector" in t.columns
    ensures multiset(SectorFilter(t, th, allowed).value.rows)[x]
      == if Meets(th, x) && InSectors(x, allowed) then multiset(t.rows)[x] else 0
  {
    DefaultFilterKeepsExactly(t, th, x);
  }

  /**
   * The pluggable filter strategies: the four defined alongside the abstract
   * `FilterStrategy`, and any other subclass, given by its `filter` method.
   */
  datatype FilterStrategy =
    | DefaultStrategy
    | SectorStrategy(allowedSectors: seq<string>)
    | CompositeStrategy(filters: seq<FilterStrategy>)
    | TopNStrategy(topN: int, baseFilter: FilterStrategy)
    | CustomFilter(filter: (Table, Thresholds) -> Result<Table, Error>)

  /** Strategies assembled only from the four defined alongside `FilterStrategy`. */
  predicate BuiltIn(f: FilterStrategy)
    decreases f
  {
    match f
    case DefaultStrategy => true
    case SectorStrategy(_) => true
    case CompositeStrategy(filters) => forall i :: 0 <= i < |filters| ==> BuiltIn(filters[i])
    case TopNStrategy(_, base) => BuiltIn(base)
    case CustomFilter(_) => false
  }

  /** `TopNFilter(top_n, base_filter)`: a missing base filter means the default one. */
  function NewTopNFilter(topN: int, baseFilter: Option<FilterStrategy>): (f: FilterStrategy)
    ensures f.TopNStrategy? && f.topN == topN
    ensures baseFilter.None? ==> f.baseFilter == DefaultStrategy
    ensures baseFilter.Some? ==> f.baseFilter == baseFilter.value
  {
    TopNStrategy(topN, if baseFilter.Some? then baseFilter.value else DefaultStrategy)
  }

  const NLargestTypeError: Error :=
    TypeError("Column 'score' has dtype object, cannot use method 'nlargest' with this dtype")

  /**
   * `filter(df, min_yield, max_payout, min_cagr)` for any strategy. Every
   * built-in strategy keeps the columns and draws its rows from its input's
   * rows; a user-defined one returns whatever its `filter` returns.
   */
  function ApplyFilter(f: FilterStrategy, t: Table, th: Thresholds): (r: Result<Table, Error>)
    ensures BuiltIn(f) && r.Success? ==> r.value.columns == t.columns && multiset(r.value.rows) <= multiset(t.rows)
    ensures f.CustomFilter? ==> r == f.filter(t, th)
    decreases f
  {
    match f
    case CustomFilter(g) => g(t, th)
    case DefaultStrategy => DefaultFilter(t, th)
    case SectorStrategy(allowed) => SectorFilter(t, th, allowed)
    case CompositeStrategy(filters) => FoldFilters(filters, t, th)
    case TopNStrategy(n, base) =>
      match ApplyFilter(base, t, th)
      case Failure(e) => Failure(e)
      case Success(u) => TopN(u, n)
  }

  /**
   * The rest of `TopNFilter.filter`, on the base filter's result: `nlargest`
   * by score when there is a score column and a row to rank, `head`
   * otherwise. A non-negative `n` bounds the number of rows.
   */
  function TopN(u: Table, n: int): (r: Result<Table, Error>)
    ensures r.Success? ==> r.value.columns == u.columns && multiset(r.value.rows) <= multiset(u.rows)
    ensures r.Success? && 0 <= n ==> |r.value.rows| <= n
  {
    if "score" in u.columns && |u.rows| > 0 then
      if IsNumericColumn(u.rows, "score") then Success(Table(u.columns, TakeLargest(u.rows, n, ScoreOf)))
      else Failure(NLargestTypeError)
    else Success(Table(u.columns, Head(u.rows, n)))
  }

  /** Applying `filters` one after another, each to the previous one's result; the first failure stops. */
  function FoldFilters(filters: seq<FilterStrategy>, t: Table, th: Thresholds): (r: Result<Table, Error>)
    ensures (forall i :: 0 <= i < |filters| ==> BuiltIn(filters[i])) && r.Success? ==>
      r.value.columns == t.columns && multiset(r.value.rows) <= multiset(t.rows)
    decreases filters
  {
    if filters == [] then Success(t)
    else
      match ApplyFilter(filters[0], t, th)
      case Failure(e) => Failure(e)
      case Success(u) => FoldFilters(filters[1..], u, th)
  }

  /**
   * `CompositeFilter.filter`: the loop that reassigns the running result with
   * each filter in turn.
   */
  method CompositeFilter(filters: seq<FilterStrategy>, t: Table, th: Thresholds) returns (r: Result<Table, Error>)
    ensures r == FoldFilters(filters, t, th)
    ensures r == ApplyFilter(CompositeStrategy(filters), t, th)
  {
    var result := t;
    var i := 0;
    while i < |filters|
      invariant 0 <= i <= |filters|
      invariant FoldFilters(filters[i..], result, th) == FoldFilters(filters, t, th)
    {
      assert filters[i..][1..] == filters[i + 1..];
      match ApplyFilter(filters[i], result, th)
      case Failure(e) =>
        return Failure(e);
      case Success(u) =>
        result := u;
      i := i + 1;
    }
    assert filters[i..] == [];
    r := Success(result);
  }

  /** Filters compose left to right: a composite of `fs + gs` runs `fs`, then `gs` on its result. */
  lemma {:induction false} FoldFiltersAppend(fs: seq<FilterStrategy>, gs: seq<FilterStrategy>, t: Table, th: Thresholds)
    ensures FoldFilters(fs + gs, t, th) ==
      match FoldFilters(fs, t, th)
      case Failure(e) => Failure(e)
      case Success(u) => FoldFilters(gs, u, th)
    decreases |fs|
  {
    if fs == [] {
      assert fs + gs == gs;
    } else {
      assert (fs + gs)[0] == fs[0] && (fs + gs)[1..] == fs[1..] + gs;
      match ApplyFilter(fs[0], t, th)
      case Failure(e) =>
      case Success(u) => FoldFiltersAppend(fs[1..], gs, u, th);
    }
  }

  /** A composite with no filters returns its input; with one filter it is that filter. */
  lemma FoldFiltersUnits(f: FilterStrategy, t: Table, th: Thresholds)
    ensures ApplyFilter(CompositeStrategy([]), t, th) == Success(t)
    ensures ApplyFilter(CompositeStrategy([f]), t, th) == ApplyFilter(f, t, th)
  {
    assert [f][1..] == [];
    match ApplyFilter(f, t, th)
    case Failure(e) =>
    case Success(u) => assert FoldFilters([], u, th) == Success(u);
  }

  /** Strategies without a top-N step never reorder rows. */
  predicate OrderPreserving(f: FilterStrategy)
    decreases f
  {
    match f
    case DefaultStrategy => true
    case SectorStrategy(_) => true
    case CompositeStrategy(filters) => forall i :: 0 <= i < |filters| ==> OrderPreserving(filters[i])
    case TopNStrategy(_, _) => false
    case CustomFilter(_) => false
  }

  /** The result of an order-preserving strategy is a subsequence of its input. */
  lemma {:induction false} OrderPreservingSubsequence(f: FilterStrategy, t: Table, th: Thresholds)
    requires OrderPreserving(f) && ApplyFilter(f, t, th).Success?
    ensures IsSubsequence(ApplyFilter(f, t, th).value.rows, t.rows)
    decreases f
  {
    match f
    case DefaultStrategy =>
    case SectorStrategy(allowed) =>
      SubsequenceTransitive(ApplyFilter(f, t, th).value.rows, DefaultFilter(t, th).value.rows, t.rows);
    case CompositeStrategy(filters) =>
      FoldSubsequence(filters, t, th);
  }

  lemma {:induction false} FoldSubsequence(filters: seq<FilterStrategy>, t: Table, th: Thresholds)
    requires forall i :: 0 <= i < |filters| ==> OrderPreserving(filters[i])
    requires FoldFilters(filters, t, th).Success?
    ensures IsSubsequence(FoldFilters(filters, t, th).value.rows, t.rows)
    decreases filters
  {
    if filters == [] {
      SubsequenceReflexive(t.rows);
    } else {
      var u := ApplyFilter(filters[0], t, th).value;
      OrderPreservingSubsequence(filters[0], t, th);
      FoldSubsequence(filters[1..], u, th);
      SubsequenceTransitive(FoldFilters(filters, t, th).value.rows, u.rows, t.rows);
    }
  }

  /** With a score column and rows to rank, top-N keeps the highest scores of the base result `u`. */
  lemma TopNRanksByScore(u: Table, n: int)
    requires "score" in u.columns && |u.rows| > 0 && IsNumericColumn(u.rows, "score")
    ensures var r := TopN(u, n);
      && r.Success?
      && |r.value.rows| == (if n <= 0 then 0 else if n <= |u.rows| then n else |u.rows|)
      && multiset(r.value.rows) <= multiset(u.rows)
      && (forall i, j :: 0 <= i < j < |r.value.rows| ==> ScoreOf(r.value.rows[i]) >= ScoreOf(r.value.rows[j]))
      && forall x, y :: x in r.value.rows && y in multiset(u.rows) - multiset(r.value.rows) ==> ScoreOf(x) >= ScoreOf(y)
  {
  }

  /** Without a score column, or with no rows, top-N is the first `n` rows of the base result `u`. */
  lemma TopNTakesFirstRows(u: Table, n: int)
    requires "score" !in u.columns || |u.rows| == 0
    ensures var r := TopN(u, n);
      && r.Success?
      && (0 <= n ==> r.value.rows == u.rows[..if n <= |u.rows| then n else |u.rows|])
      && IsSubsequence(r.value.rows, u.rows)
  {
  }

  /** A non-negative top-N never returns more than `n` rows. */
  lemma TopNAtMostN(n: int, base: FilterStrategy, t: Table, th: Thresholds)
    requires 0 <= n && ApplyFilter(TopNStrategy(n, base), t, th).Success?
    ensures |ApplyFilter(TopNStrategy(n, base), t, th).value.rows| <= n
    ensures multiset(ApplyFilter(TopNStrategy(n, base), t, th).value.rows) <= multiset(ApplyFilter(base, t, th).value.rows)
  {
    assert ApplyFilter(TopNStrategy(n, base), t, th) == TopN(ApplyFilter(base, t, th).value, n);
  }
}

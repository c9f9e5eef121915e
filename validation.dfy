/**
 * Batch validation of raw rows: each row is checked for required columns and
 * then handed to a validation strategy; valid records are kept in input
 * order, failures are collected as messages tagged with the row's line number
 * in the CSV file, and the batch fails only when no row survives.
 */
module Validation {
  import opened Wrappers
  import opened Errors
  import opened Text
  import opened Seqs
  import opened Company

  /** A dict key before `str(k)`: a string, or an integer such as a positional column. */
  datatype Key = Name(s: string) | Index(i: int)

  function KeyText(k: Key): string
  {
    match k
    case Name(s) => s
    case Index(i) => IntToString(i)
  }

  /** A raw row: the dict's items in insertion order. */
  type RawRow = seq<(Key, Value)>

  /** `{str(k): v for k, v in row.items()}`: keys become strings, and a later key that prints alike wins. */
  function StringKeys(row: RawRow): (m: map<string, Value>)
    ensures m.Keys == set i | 0 <= i < |row| :: KeyText(row[i].0)
    ensures row != [] ==> m[KeyText(row[|row| - 1].0)] == row[|row| - 1].1
    decreases |row|
  {
    if row == [] then map[]
    else
      var last := row[|row| - 1];
      var m := StringKeys(row[..|row| - 1])[KeyText(last.0) := last.1];
      assert forall i :: 0 <= i < |row| - 1 ==> row[..|row| - 1][i] == row[i];
      m
  }

  /** A key that no later item prints alike keeps its own value: the last duplicate wins. */
  lemma {:induction false} StringKeysLastWins(row: RawRow, i: nat)
    requires i < |row|
    requires forall j :: i < j < |row| ==> KeyText(row[j].0) != KeyText(row[i].0)
    ensures StringKeys(row)[KeyText(row[i].0)] == row[i].1
    decreases |row|
  {
    if i < |row| - 1 {
      var init := row[..|row| - 1];
      assert init[i] == row[i];
      forall j | i < j < |init| ensures KeyText(init[j].0) != KeyText(init[i].0) {
        assert init[j] == row[j];
      }
      StringKeysLastWins(init, i);
    }
  }

  /** Every key of a raw row appears, as a string, in the converted row. */
  lemma StringKeysComplete(row: RawRow, i: nat)
    requires i < |row|
    ensures KeyText(row[i].0) in StringKeys(row)
  {
  }

  /** What a strategy does with one row: a record, a `ValidationError`, or any other exception. */
  datatype RowOutcome = Accepted(record: CompanyData) | Rejected(message: string) | Crashed(message: string)

  datatype RowValidationStrategy =
    | PydanticRowValidation
    | CustomValidation(validate: map<string, Value> -> RowOutcome)

  /** `PydanticRowValidation.validate`: `CompanyData(**row)`. */
  function PydanticValidate(row: map<string, Value>): (o: RowOutcome)
    ensures o.Accepted? <==> Validate(row).Success?
    ensures o.Accepted? ==> o.record == Validate(row).value && o.record.Valid()
    ensures !o.Crashed?
  {
    match Validate(row)
    case Success(c) => Accepted(c)
    case Failure(errors) => Rejected(ValidationMessage(errors))
  }

  function RunStrategy(strategy: RowValidationStrategy, row: map<string, Value>): RowOutcome
  {
    match strategy
    case PydanticRowValidation => PydanticValidate(row)
    case CustomValidation(f) => f(row)
  }

  datatype DgiRowValidator = DgiRowValidator(strategy: RowValidationStrategy, requiredColumns: Option<seq<string>>)

  /** `DgiRowValidator(validation_strategy=None, required_columns=None)`: no strategy means pydantic. */
  function NewDgiRowValidator(strategy: Option<RowValidationStrategy> := None,
                              requiredColumns: Option<seq<string>> := None): (v: DgiRowValidator)
    ensures strategy.None? ==> v.strategy == PydanticRowValidation
    ensures strategy.Some? ==> v.strategy == strategy.value
    ensures v.requiredColumns == requiredColumns
  {
    DgiRowValidator(if strategy.Some? then strategy.value else PydanticRowValidation, requiredColumns)
  }

  /** The line of row `i` in its CSV file: 1-based, after the header line. */
  function RowTag(i: nat): string
  {
    "Row " + NatToString(i + 2) + ": "
  }

  /** Different rows carry different tags. */
  lemma RowTagInjective(i: nat, j: nat)
    ensures RowTag(i) == RowTag(j) ==> i == j
  {
    if RowTag(i) == RowTag(j) {
      var a, b := NatToString(i + 2), NatToString(j + 2);
      assert |a| == |b|;
      assert a == RowTag(i)[4..4 + |a|];
      assert b == RowTag(j)[4..4 + |b|];
      NatToStringInjective(i + 2, j + 2);
    }
  }

  /** The required columns absent from a row, in `required_columns` order. */
  function MissingColumns(required: seq<string>, keys: set<string>): (missing: seq<string>)
    ensures forall k :: 0 <= k < |missing| ==> missing[k] !in keys
    ensures IsSubsequence(missing, required)
    ensures forall c :: c in required && c !in keys ==> c in missing
    ensures forall c :: multiset(missing)[c] == if c in keys then 0 else multiset(required)[c]
  {
    var absent := (c: string) => c !in keys;
    KeepSubsequence(required, absent);
    forall c ensures multiset(Keep(required, absent))[c] == if c in keys then 0 else multiset(required)[c] {
      KeepMultiplicity(required, absent, c);
    }
    forall c | c in required && c !in keys ensures c in Keep(required, absent) {
      assert multiset(required)[c] > 0;
    }
    Keep(required, absent)
  }

  /** The outcome of row `i`: the record, or the tagged message the loop collects. */
  function CheckRow(v: DgiRowValidator, i: nat, row: RawRow): (r: Result<CompanyData, string>)
    ensures r.Failure? ==> StartsWith(r.error, RowTag(i))
  {
    var keyed := StringKeys(row);
    var required := if v.requiredColumns.Some? then v.requiredColumns.value else [];
    var missing := MissingColumns(required, keyed.Keys);
    if required != [] && missing != [] then
      Failure(RowTag(i) + "Missing: " + Join(missing, ", "))
    else
      match RunStrategy(v.strategy, keyed)
      case Accepted(c) => Success(c)
      case Rejected(msg) => Failure(RowTag(i) + msg)
      case Crashed(msg) => Failure(RowTag(i) + "Unexpected error: " + msg)
  }

  /** A row lacking a required column is rejected before the strategy runs, whatever the strategy. */
  lemma MissingColumnsSkipStrategy(v: DgiRowValidator, s: RowValidationStrategy, i: nat, row: RawRow, c: string)
    requires v.requiredColumns.Some? && c in v.requiredColumns.value && c !in StringKeys(row)
    ensures CheckRow(v, i, row).Failure?
    ensures CheckRow(v, i, row) == CheckRow(v.(strategy := s), i, row)
    ensures StartsWith(CheckRow(v, i, row).error, RowTag(i) + "Missing: ")
  {
    var missing := MissingColumns(v.requiredColumns.value, StringKeys(row).Keys);
    assert c in missing;
  }

  /** Every row's outcome, in input order. */
  function Outcomes(v: DgiRowValidator, rows: seq<RawRow>): (outs: seq<Result<CompanyData, string>>)
    ensures |outs| == |rows|
    ensures forall i :: 0 <= i < |rows| ==> outs[i] == CheckRow(v, i, rows[i])
  {
    seq(|rows|, i requires 0 <= i < |rows| => CheckRow(v, i, rows[i]))
  }

  /** The records among the first `n` outcomes, in order. */
  function Successes(outs: seq<Result<CompanyData, string>>, n: nat): (valid: seq<CompanyData>)
    requires n <= |outs|
    ensures |valid| <= n
    decreases n
  {
    if n == 0 then []
    else if outs[n - 1].Success? then Successes(outs, n - 1) + [outs[n - 1].value]
    else Successes(outs, n - 1)
  }

  /** The messages among the first `n` outcomes, in order. */
  function Failures(outs: seq<Result<CompanyData, string>>, n: nat): seq<string>
    requires n <= |outs|
    decreases n
  {
    if n == 0 then []
    else if outs[n - 1].Failure? then Failures(outs, n - 1) + [outs[n - 1].error]
    else Failures(outs, n - 1)
  }

  /** One more outcome adds its record or its message, and nothing else. */
  lemma OutcomeStep(outs: seq<Result<CompanyData, string>>, i: nat)
    requires i < |outs|
    ensures outs[i].Success? ==> Successes(outs, i + 1) == Successes(outs, i) + [outs[i].value]
                                 && Failures(outs, i + 1) == Failures(outs, i)
    ensures outs[i].Failure? ==> Successes(outs, i + 1) == Successes(outs, i)
                                 && Failures(outs, i + 1) == Failures(outs, i) + [outs[i].error]
  {
  }

  /** Every row ends up either among the records or among the errors, never both. */
  lemma {:induction false} SuccessesPlusFailures(outs: seq<Result<CompanyData, string>>, n: nat)
    requires n <= |outs|
    ensures |Successes(outs, n)| + |Failures(outs, n)| == n
  {
    if n > 0 {
      SuccessesPlusFailures(outs, n - 1);
    }
  }

  /** No record survives exactly when every outcome is a failure. */
  lemma {:induction false} NoSuccessIff(outs: seq<Result<CompanyData, string>>, n: nat)
    requires n <= |outs|
    ensures Successes(outs, n) == [] <==> forall i :: 0 <= i < n ==> outs[i].Failure?
  {
    if n > 0 {
      NoSuccessIff(outs, n - 1);
    }
  }

  /** Each collected record and each collected message comes from one of the first `n` outcomes. */
  lemma {:induction false} SuccessFromOutcome(outs: seq<Result<CompanyData, string>>, n: nat, k: nat)
    requires n <= |outs| && k < |Successes(outs, n)|
    ensures exists i :: 0 <= i < n && outs[i] == Success(Successes(outs, n)[k])
  {
    var prev := Successes(outs, n - 1);
    if k < |prev| {
      SuccessFromOutcome(outs, n - 1, k);
      assert Successes(outs, n)[k] == prev[k];
      var i :| 0 <= i < n - 1 && outs[i] == Success(prev[k]);
      assert 0 <= i < n;
    } else {
      assert outs[n - 1] == Success(Successes(outs, n)[k]);
    }
  }

  lemma {:induction false} FailureFromOutcome(outs: seq<Result<CompanyData, string>>, n: nat, k: nat)
    requires n <= |outs| && k < |Failures(outs, n)|
    ensures exists i :: 0 <= i < n && outs[i] == Failure(Failures(outs, n)[k])
  {
    var prev := Failures(outs, n - 1);
    if k < |prev| {
      FailureFromOutcome(outs, n - 1, k);
      assert Failures(outs, n)[k] == prev[k];
      var i :| 0 <= i < n - 1 && outs[i] == Failure(prev[k]);
      assert 0 <= i < n;
    } else {
      assert outs[n - 1] == Failure(Failures(outs, n)[k]);
    }
  }

  /** Each collected error is the tagged message of a failed row. */
  lemma ErrorsTagged(v: DgiRowValidator, rows: seq<RawRow>, k: nat)
    requires k < |Failures(Outcomes(v, rows), |rows|)|
    ensures exists i :: 0 <= i < |rows| && StartsWith(Failures(Outcomes(v, rows), |rows|)[k], RowTag(i))
  {
    var outs := Outcomes(v, rows);
    FailureFromOutcome(outs, |rows|, k);
    var i :| 0 <= i < |rows| && outs[i] == Failure(Failures(outs, |rows|)[k]);
    assert CheckRow(v, i, rows[i]).Failure?;
  }

  const JoinedErrorsPrefix: string := "Validation errors:\n"
  const SkippedRowsPrefix: string := "Some rows were invalid and skipped:\n"

  /** `validate_rows` as a value: the records, or `DataValidationError` when none survived. */
  function ValidateRowsSpec(v: DgiRowValidator, rows: seq<RawRow>): Result<seq<CompanyData>, Error>
  {
    var outs := Outcomes(v, rows);
    var valid := Successes(outs, |rows|);
    if valid == [] then Failure(DataValidationError(JoinedErrorsPrefix + Join(Failures(outs, |rows|), "\n")))
    else Success(valid)
  }

  /** The warning logged when some, but not all, rows failed. */
  function SkippedWarning(v: DgiRowValidator, rows: seq<RawRow>): Option<string>
  {
    var outs := Outcomes(v, rows);
    var errors := Failures(outs, |rows|);
    if Successes(outs, |rows|) != [] && errors != [] then Some(SkippedRowsPrefix + Join(errors, "\n"))
    else None
  }

  /**
   * `DgiRowValidator.validate_rows`: one pass over the rows, appending each
   * record or tagged error; a failing row never stops the loop.
   */
  method ValidateRows(v: DgiRowValidator, rows: seq<RawRow>) returns (r: Result<seq<CompanyData>, Error>, warning: Option<string>)
    ensures r == ValidateRowsSpec(v, rows)
    ensures warning == SkippedWarning(v, rows)
  {
    ghost var outs := Outcomes(v, rows);
    var valid: seq<CompanyData> := [];
    var errors: seq<string> := [];
    for i := 0 to |rows|
      invariant valid == Successes(outs, i)
      invariant errors == Failures(outs, i)
    {
      var outcome := CheckRow(v, i, rows[i]);
      assert outcome == outs[i];
      OutcomeStep(outs, i);
      match outcome
      case Success(c) =>
        valid := valid + [c];
      case Failure(e) =>
        errors := errors + [e];
    }
    if valid == [] {
      return Failure(DataValidationError(JoinedErrorsPrefix + Join(errors, "\n"))), None;
    }
    warning := if errors != [] then Some(SkippedRowsPrefix + Join(errors, "\n")) else None;
    r := Success(valid);
  }

  /** The batch fails exactly when every row failed; otherwise records and errors account for every row. */
  lemma ValidateRowsOutcome(v: DgiRowValidator, rows: seq<RawRow>)
    ensures ValidateRowsSpec(v, rows).Failure? <==> forall i :: 0 <= i < |rows| ==> CheckRow(v, i, rows[i]).Failure?
    ensures ValidateRowsSpec(v, rows).Success? ==>
      |ValidateRowsSpec(v, rows).value| + |Failures(Outcomes(v, rows), |rows|)| == |rows|
  {
    var outs := Outcomes(v, rows);
    NoSuccessIff(outs, |rows|);
    SuccessesPlusFailures(outs, |rows|);
  }

  /** An empty batch is an error, not an empty list. */
  lemma EmptyBatchFails(v: DgiRowValidator)
    ensures ValidateRowsSpec(v, []) == Failure(DataValidationError(JoinedErrorsPrefix))
  {
    assert Join([], "\n") == "";
    assert JoinedErrorsPrefix + "" == JoinedErrorsPrefix;
  }

  /** With the default validator, every returned record satisfies the record constraints. */
  lemma PydanticRecordsValid(rows: seq<RawRow>)
    ensures ValidateRowsSpec(NewDgiRowValidator(), rows).Success? ==>
      forall k :: 0 <= k < |ValidateRowsSpec(NewDgiRowValidator(), rows).value| ==>
        ValidateRowsSpec(NewDgiRowValidator(), rows).value[k].Valid()
  {
    var v := NewDgiRowValidator();
    var outs := Outcomes(v, rows);
    forall k | 0 <= k < |Successes(outs, |rows|)| ensures Successes(outs, |rows|)[k].Valid() {
      SuccessFromOutcome(outs, |rows|, k);
      var i :| 0 <= i < |rows| && outs[i] == Success(Successes(outs, |rows|)[k]);
      assert CheckRow(v, i, rows[i]).Success?;
    }
  }
}

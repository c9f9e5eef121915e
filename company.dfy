/**
 * The validated company record (`CompanyData`): four non-empty, whitespace-
 * stripped text fields and four bounded numeric fields, built from a raw
 * string-keyed row by coercing and checking each field.
 */
module Company {
  import opened Wrappers
  import opened Text

  /** A raw value as the validator receives it from a dict. */
  datatype Value =
    | Int(i: int)
    | Float(x: real)
    | Bool(b: bool)
    | Str(s: string)
    | NoneValue
    | Other(repr: string)   // any other object, one `float()` rejects (a list, a dict); `repr` is its `str()`

  /** One failed field, as pydantic reports it: the field name and the reason. */
  datatype FieldError = FieldError(field: string, reason: string)

  const TextFields: seq<string> := ["symbol", "name", "sector", "industry"]
  const NumberFields: seq<string> := ["dividend_yield", "payout", "dividend_cagr", "fcf_yield"]
  /** All eight fields, in declaration order; every one is required. */
  const Fields: seq<string> := TextFields + NumberFields

  const PayoutCap: real := 100.0

  /** The validated record. `payout` and `dividendCagr` are also read under their legacy names. */
  datatype CompanyData = CompanyData(
    symbol: string,
    name: string,
    sector: string,
    industry: string,
    dividendYield: real,
    payout: real,
    dividendCagr: real,
    fcfYield: real)
  {
    /** Legacy name of `payout`: the same stored value. */
    function PayoutRatio(): real { payout }

    /** Legacy name of `dividendCagr`: the same stored value. */
    function DividendGrowth5y(): real { dividendCagr }

    /** The field constraints every validated record satisfies. */
    predicate Valid()
    {
      && ValidText(symbol) && ValidText(name) && ValidText(sector) && ValidText(industry)
      && dividendYield >= 0.0
      && 0.0 <= payout <= PayoutCap
      && dividendCagr >= 0.0
      && fcfYield >= 0.0
    }
  }

  /** A text field after `strip_whitespace=True, min_length=1`. */
  predicate ValidText(s: string) { s != [] && IsStripped(s) }

  /** What `str(v)` shows for a value `float()` rejects. */
  function Shown(v: Value): string
  {
    match v
    case Str(s) => s
    case NoneValue => "None"
    case Other(repr) => repr
    case Int(i) => IntToString(i)
    case Bool(b) => if b then "True" else "False"
    case Float(_) => "<float>"
  }

  /**
   * The `must_be_number` coercion: ints, floats and bools (a Python bool is an
   * int) become floats, strings go through `float()`, and anything else is
   * rejected with "Value '<v>' is not a valid number".
   */
  function MustBeNumber(v: Value): (r: Result<real, string>)
    ensures r.Failure? <==> v.NoneValue? || v.Other? || (v.Str? && ParseDecimal(v.s).None?)
    ensures r.Failure? ==> r.error == "Value '" + Shown(v) + "' is not a valid number"
    ensures v.Int? ==> r == Success(v.i as real)
    ensures v.Float? ==> r == Success(v.x)
    ensures v.Bool? ==> r == Success(if v.b then 1.0 else 0.0)
    ensures v.Str? && ParseDecimal(v.s).Some? ==> r == Success(ParseDecimal(v.s).value)
  {
    match v
    case Int(i) => Success(i as real)
    case Float(x) => Success(x)
    case Bool(b) => Success(if b then 1.0 else 0.0)
    case Str(s) =>
      (match ParseDecimal(s)
       case Some(x) => Success(x)
       case None => Failure("Value '" + s + "' is not a valid number"))
    case _ => Failure("Value '" + Shown(v) + "' is not a valid number")
  }

  /** A CSV cell holding a printed integer, such as "40", is accepted as that number. */
  lemma MustBeNumberPrintedInt(i: int)
    ensures MustBeNumber(Str(IntToString(i))) == Success(i as real)
  {
    ParseDecimalRoundTrip(i);
  }

  /** The value under `field`, if the row has one. */
  function Lookup(row: map<string, Value>, field: string): (v: Option<Value>)
    ensures v.Some? <==> field in row
    ensures v.Some? ==> v.value == row[field]
  {
    if field in row then Some(row[field]) else None
  }

  /** A text field's check, given what the row holds under it. */
  function CheckTextValue(field: string, v: Option<Value>): (r: Result<string, FieldError>)
    ensures r.Success? ==> ValidText(r.value) && v.Some?
    ensures r.Failure? ==> r.error.field == field
  {
    match v
    case None => Failure(FieldError(field, "Field required"))
    case Some(Str(s)) =>
      if Strip(s) == [] then Failure(FieldError(field, "String should have at least 1 character"))
      else Success(Strip(s))
    case Some(_) => Failure(FieldError(field, "Input should be a valid string"))
  }

  /** `strip_whitespace=True, min_length=1` on one text field of the row. */
  function CheckText(row: map<string, Value>, field: string): (r: Result<string, FieldError>)
    ensures r.Success? ==> ValidText(r.value) && field in row
    ensures r.Failure? ==> r.error.field == field
  {
    CheckTextValue(field, Lookup(row, field))
  }

  /** A numeric field's check, given what the row holds under it. */
  function CheckNumberValue(field: string, v: Option<Value>, capped: bool): (r: Result<real, FieldError>)
    ensures r.Success? ==> 0.0 <= r.value && (capped ==> r.value <= PayoutCap) && v.Some?
    ensures r.Failure? ==> r.error.field == field
  {
    match v
    case None => Failure(FieldError(field, "Field required"))
    case Some(value) =>
      match MustBeNumber(value)
      case Failure(msg) => Failure(FieldError(field, "Value error, " + msg))
      case Success(x) =>
        if x < 0.0 then Failure(FieldError(field, "Input should be greater than or equal to 0"))
        else if capped && x > PayoutCap then Failure(FieldError(field, "Input should be less than or equal to 100"))
        else Success(x)
  }

  /** Coercion runs first (`pre=True`), then the bounds `>= 0` and, when `capped`, `<= 100`. */
  function CheckNumber(row: map<string, Value>, field: string, capped: bool): (r: Result<real, FieldError>)
    ensures r.Success? ==> 0.0 <= r.value && (capped ==> r.value <= PayoutCap) && field in row
    ensures r.Failure? ==> r.error.field == field
  {
    CheckNumberValue(field, Lookup(row, field), capped)
  }

  function ErrorsOf<T>(r: Result<T, FieldError>): (es: seq<FieldError>)
    ensures |es| <= 1 && (r.Failure? <==> es != []) && (r.Failure? ==> es == [r.error])
  {
    if r.Failure? then [r.error] else []
  }

  /** The failing text fields, in declaration order. */
  function TextErrors(row: map<string, Value>): (es: seq<FieldError>)
    ensures es == [] <==> && CheckText(row, "symbol").Success? && CheckText(row, "name").Success?
                          && CheckText(row, "sector").Success? && CheckText(row, "industry").Success?
  {
    ErrorsOf(CheckText(row, "symbol")) + ErrorsOf(CheckText(row, "name"))
    + ErrorsOf(CheckText(row, "sector")) + ErrorsOf(CheckText(row, "industry"))
  }

  /** The failing numeric fields, in declaration order. */
  function NumberErrors(row: map<string, Value>): (es: seq<FieldError>)
    ensures es == [] <==> && CheckNumber(row, "dividend_yield", false).Success?
                          && CheckNumber(row, "payout", true).Success?
                          && CheckNumber(row, "dividend_cagr", false).Success?
                          && CheckNumber(row, "fcf_yield", false).Success?
  {
    ErrorsOf(CheckNumber(row, "dividend_yield", false)) + ErrorsOf(CheckNumber(row, "payout", true))
    + ErrorsOf(CheckNumber(row, "dividend_cagr", false)) + ErrorsOf(CheckNumber(row, "fcf_yield", false))
  }

  lemma MissingTextReported(row: map<string, Value>, f: string)
    requires f in TextFields && f !in row
    ensures FieldError(f, "Field required") in TextErrors(row)
  {
  }

  lemma MissingNumberReported(row: map<string, Value>, f: string)
    requires f in NumberFields && f !in row
    ensures FieldError(f, "Field required") in NumberErrors(row)
  {
  }

  /**
   * `CompanyData(**row)`: every field is checked (pydantic reports all failing
   * fields, in declaration order); keys that are not fields are ignored.
   */
  function Validate(row: map<string, Value>): (r: Result<CompanyData, seq<FieldError>>)
    ensures r.Success? ==> r.value.Valid()
    ensures r.Failure? ==> r.error == TextErrors(row) + NumberErrors(row) && |r.error| > 0
    ensures r.Success? <==> TextErrors(row) + NumberErrors(row) == []
  {
    var errors := TextErrors(row) + NumberErrors(row);
    if errors == [] then
      assert TextErrors(row) == [] && NumberErrors(row) == [];
      Success(CompanyData(
        CheckText(row, "symbol").value, CheckText(row, "name").value,
        CheckText(row, "sector").value, CheckText(row, "industry").value,
        CheckNumber(row, "dividend_yield", false).value, CheckNumber(row, "payout", true).value,
        CheckNumber(row, "dividend_cagr", false).value, CheckNumber(row, "fcf_yield", false).value))
    else
      Failure(errors)
  }

  /** A row lacking any field is rejected, and the rejection names that field. */
  lemma ValidateRequiresEveryField(row: map<string, Value>, f: string)
    requires f in Fields && f !in row
    ensures Validate(row).Failure? && FieldError(f, "Field required") in Validate(row).error
  {
    var es := TextErrors(row) + NumberErrors(row);
    if f in TextFields {
      MissingTextReported(row, f);
    } else {
      assert f in NumberFields;
      MissingNumberReported(row, f);
    }
    assert FieldError(f, "Field required") in es;
  }

  /** An accepted row passed every field check, and the record holds what the checks produced. */
  lemma AcceptedChecks(row: map<string, Value>)
    requires Validate(row).Success?
    ensures && CheckText(row, "symbol").Success? && CheckText(row, "name").Success?
            && CheckText(row, "sector").Success? && CheckText(row, "industry").Success?
            && CheckNumber(row, "dividend_yield", false).Success?
            && CheckNumber(row, "payout", true).Success?
            && CheckNumber(row, "dividend_cagr", false).Success?
            && CheckNumber(row, "fcf_yield", false).Success?
    ensures Validate(row).value == CompanyData(
              CheckText(row, "symbol").value, CheckText(row, "name").value,
              CheckText(row, "sector").value, CheckText(row, "industry").value,
              CheckNumber(row, "dividend_yield", false).value, CheckNumber(row, "payout", true).value,
              CheckNumber(row, "dividend_cagr", false).value, CheckNumber(row, "fcf_yield", false).value)
  {
    assert TextErrors(row) == [] && NumberErrors(row) == [];
  }

  /** Only a row holding every field is accepted. */
  lemma AcceptedHasEveryField(row: map<string, Value>)
    requires Validate(row).Success?
    ensures forall f :: f in Fields ==> f in row
  {
    AcceptedKeys(row);
    FieldsPresent(row);
  }

  lemma FieldsPresent(row: map<string, Value>)
    requires "symbol" in row && "name" in row && "sector" in row && "industry" in row
    requires "dividend_yield" in row && "payout" in row && "dividend_cagr" in row && "fcf_yield" in row
    ensures forall f :: f in Fields ==> f in row
  {
    forall f | f in Fields ensures f in row {
      assert f in TextFields || f in NumberFields;
    }
  }

  lemma AcceptedKeys(row: map<string, Value>)
    requires Validate(row).Success?
    ensures "symbol" in row && "name" in row && "sector" in row && "industry" in row
    ensures "dividend_yield" in row && "payout" in row && "dividend_cagr" in row && "fcf_yield" in row
  {
    AcceptedChecks(row);
  }

  /** An accepted record holds the stripped text and the coerced numbers of the row. */
  lemma ValidateFieldValues(row: map<string, Value>)
    requires Validate(row).Success?
    ensures row["symbol"].Str? && Validate(row).value.symbol == Strip(row["symbol"].s)
    ensures row["name"].Str? && Validate(row).value.name == Strip(row["name"].s)
    ensures row["sector"].Str? && Validate(row).value.sector == Strip(row["sector"].s)
    ensures row["industry"].Str? && Validate(row).value.industry == Strip(row["industry"].s)
    ensures Validate(row).value.dividendYield == MustBeNumber(row["dividend_yield"]).value
    ensures Validate(row).value.payout == MustBeNumber(row["payout"]).value
    ensures Validate(row).value.dividendCagr == MustBeNumber(row["dividend_cagr"]).value
    ensures Validate(row).value.fcfYield == MustBeNumber(row["fcf_yield"]).value
  {
    AcceptedChecks(row);
    CheckTextStrips(row, "symbol");
    CheckTextStrips(row, "name");
    CheckTextStrips(row, "sector");
    CheckTextStrips(row, "industry");
    CheckNumberCoerces(row, "dividend_yield", false);
    CheckNumberCoerces(row, "payout", true);
    CheckNumberCoerces(row, "dividend_cagr", false);
    CheckNumberCoerces(row, "fcf_yield", false);
  }

  lemma CheckTextStrips(row: map<string, Value>, f: string)
    requires CheckText(row, f).Success?
    ensures f in row && row[f].Str? && CheckText(row, f).value == Strip(row[f].s)
  {
  }

  lemma CheckNumberCoerces(row: map<string, Value>, f: string, capped: bool)
    requires CheckNumber(row, f, capped).Success?
    ensures f in row && MustBeNumber(row[f]) == Success(CheckNumber(row, f, capped).value)
  {
  }

  /** The record's `model_dump()`: each field under its own name. */
  function Dump(c: CompanyData): map<string, Value>
  {
    map["symbol" := Str(c.symbol), "name" := Str(c.name), "sector" := Str(c.sector),
        "industry" := Str(c.industry), "dividend_yield" := Float(c.dividendYield),
        "payout" := Float(c.payout), "dividend_cagr" := Float(c.dividendCagr),
        "fcf_yield" := Float(c.fcfYield)]
  }

  lemma CheckTextOf(row: map<string, Value>, f: string, s: string)
    requires f in row && row[f] == Str(s) && ValidText(s)
    ensures CheckText(row, f) == Success(s)
  {
    StripFixesStripped(s);
  }

  lemma CheckNumberOf(row: map<string, Value>, f: string, capped: bool, x: real)
    requires f in row && row[f] == Float(x) && 0.0 <= x && (capped ==> x <= PayoutCap)
    ensures CheckNumber(row, f, capped) == Success(x)
  {
  }

  /** Validating a valid record's dump gives the record back. */
  lemma ValidateDumpRoundTrip(c: CompanyData)
    requires c.Valid()
    ensures Validate(Dump(c)) == Success(c)
  {
    DumpChecks(c);
    ValidateFromChecks(Dump(c), c);
  }

  lemma DumpChecks(c: CompanyData)
    requires c.Valid()
    ensures var row := Dump(c);
      && CheckText(row, "symbol") == Success(c.symbol) && CheckText(row, "name") == Success(c.name)
      && CheckText(row, "sector") == Success(c.sector) && CheckText(row, "industry") == Success(c.industry)
      && CheckNumber(row, "dividend_yield", false) == Success(c.dividendYield)
      && CheckNumber(row, "payout", true) == Success(c.payout)
      && CheckNumber(row, "dividend_cagr", false) == Success(c.dividendCagr)
      && CheckNumber(row, "fcf_yield", false) == Success(c.fcfYield)
  {
    DumpTextChecks(c);
    DumpNumberChecks(c);
  }

  lemma DumpTextChecks(c: CompanyData)
    requires ValidText(c.symbol) && ValidText(c.name) && ValidText(c.sector) && ValidText(c.industry)
    ensures var row := Dump(c);
      && CheckText(row, "symbol") == Success(c.symbol) && CheckText(row, "name") == Success(c.name)
      && CheckText(row, "sector") == Success(c.sector) && CheckText(row, "industry") == Success(c.industry)
  {
    var row := Dump(c);
    CheckTextOf(row, "symbol", c.symbol);
    CheckTextOf(row, "name", c.name);
    CheckTextOf(row, "sector", c.sector);
    CheckTextOf(row, "industry", c.industry);
  }

  lemma DumpNumberChecks(c: CompanyData)
    requires c.dividendYield >= 0.0 && 0.0 <= c.payout <= PayoutCap && c.dividendCagr >= 0.0 && c.fcfYield >= 0.0
    ensures var row := Dump(c);
      && CheckNumber(row, "dividend_yield", false) == Success(c.dividendYield)
      && CheckNumber(row, "payout", true) == Success(c.payout)
      && CheckNumber(row, "dividend_cagr", false) == Success(c.dividendCagr)
      && CheckNumber(row, "fcf_yield", false) == Success(c.fcfYield)
  {
    var row := Dump(c);
    CheckNumberOf(row, "dividend_yield", false, c.dividendYield);
    CheckNumberOf(row, "payout", true, c.payout);
    CheckNumberOf(row, "dividend_cagr", false, c.dividendCagr);
    CheckNumberOf(row, "fcf_yield", false, c.fcfYield);
  }

  /** A row whose eight checks all succeed validates to the record of their results. */
  lemma ValidateFromChecks(row: map<string, Value>, c: CompanyData)
    requires && CheckText(row, "symbol") == Success(c.symbol) && CheckText(row, "name") == Success(c.name)
             && CheckText(row, "sector") == Success(c.sector) && CheckText(row, "industry") == Success(c.industry)
             && CheckNumber(row, "dividend_yield", false) == Success(c.dividendYield)
             && CheckNumber(row, "payout", true) == Success(c.payout)
             && CheckNumber(row, "dividend_cagr", false) == Success(c.dividendCagr)
             && CheckNumber(row, "fcf_yield", false) == Success(c.fcfYield)
    ensures Validate(row) == Success(c)
  {
    assert TextErrors(row) == [] && NumberErrors(row) == [];
  }

  lemma CheckAgrees(row: map<string, Value>, other: map<string, Value>, f: string)
    requires (f in row <==> f in other) && (f in row ==> row[f] == other[f])
    ensures CheckText(row, f) == CheckText(other, f)
    ensures CheckNumber(row, f, false) == CheckNumber(other, f, false)
    ensures CheckNumber(row, f, true) == CheckNumber(other, f, true)
  {
    assert Lookup(row, f) == Lookup(other, f);
  }

  /** Rows agreeing on the four text fields have the same text errors and the same stripped values. */
  lemma TextChecksAgree(row: map<string, Value>, other: map<string, Value>)
    requires forall f :: f in Fields ==> (f in row <==> f in other)
    requires forall f :: f in Fields && f in row ==> row[f] == other[f]
    ensures TextErrors(row) == TextErrors(other)
    ensures forall f :: f in TextFields ==> CheckText(row, f) == CheckText(other, f)
  {
    forall f | f in TextFields ensures CheckText(row, f) == CheckText(other, f) {
      assert f in Fields;
      CheckAgrees(row, other, f);
    }
    assert "symbol" in TextFields && "name" in TextFields && "sector" in TextFields && "industry" in TextFields;
  }

  /** Rows agreeing on the four numeric fields have the same number errors and the same coerced values. */
  lemma NumberChecksAgree(row: map<string, Value>, other: map<string, Value>)
    requires forall f :: f in Fields ==> (f in row <==> f in other)
    requires forall f :: f in Fields && f in row ==> row[f] == other[f]
    ensures NumberErrors(row) == NumberErrors(other)
    ensures forall f, capped :: f in NumberFields ==> CheckNumber(row, f, capped) == CheckNumber(other, f, capped)
  {
    forall f, capped | f in NumberFields ensures CheckNumber(row, f, capped) == CheckNumber(other, f, capped) {
      assert f in Fields;
      CheckAgrees(row, other, f);
    }
    assert "dividend_yield" in NumberFields && "payout" in NumberFields;
    assert "dividend_cagr" in NumberFields && "fcf_yield" in NumberFields;
  }

  /** Only the eight fields matter: rows that agree on them validate alike. */
  lemma ValidateIgnoresExtraKeys(row: map<string, Value>, other: map<string, Value>)
    requires forall f :: f in Fields ==> (f in row <==> f in other)
    requires forall f :: f in Fields && f in row ==> row[f] == other[f]
    ensures Validate(row) == Validate(other)
  {
    TextChecksAgree(row, other);
    NumberChecksAgree(row, other);
    if Validate(row).Success? {
      AcceptedChecks(row);
      AcceptedChecks(other);
      assert "symbol" in TextFields && "name" in TextFields && "sector" in TextFields && "industry" in TextFields;
      assert "dividend_yield" in NumberFields && "payout" in NumberFields;
      assert "dividend_cagr" in NumberFields && "fcf_yield" in NumberFields;
    }
  }

  /** pydantic's summary line and one entry per failed field. */
  function ValidationMessage(errors: seq<FieldError>): string
  {
    NatToString(|errors|) + (if |errors| == 1 then " validation error" else " validation errors")
    + " for CompanyData" + FieldLines(errors)
  }

  function FieldLines(errors: seq<FieldError>): string
    decreases |errors|
  {
    if errors == [] then ""
    else "\n" + errors[0].field + "\n  " + errors[0].reason + FieldLines(errors[1..])
  }
}

/**
  The `StockModel` helper class of the stocks blueprint: the schema that turns
  the three text fields of the add-stock form into a stock entry.

  Each field is required. `stock_symbol` must be alphabetic and at most five
  characters long and is stored upper-cased; `number_of_shares` is coerced with
  `int`, `purchase_price` with `float`. Validation goes through every field in
  declaration order and reports one error per failing field, as pydantic does
  before it raises `ValidationError`.
 */
module StockForm {
  import opened Wrappers
  import opened Ascii
  import opened Coerce

  datatype Field = StockSymbol | NumberOfShares | PurchasePrice

  /** The declaration order of the fields, which is also the order of the errors. */
  function Rank(f: Field): nat
  {
    match f
    case StockSymbol => 0
    case NumberOfShares => 1
    case PurchasePrice => 2
  }

  datatype FieldError = Missing(field: Field) | Invalid(field: Field, message: string)

  /** A purchase price that `float` accepted, kept as the text it was given. */
  datatype Price = Price(text: string)

  datatype Stock = Stock(symbol: string, shares: int, price: Price)

  const SymbolMessage := "Stock symbol must be 1-5 characters"
  const IntegerMessage := "value is not a valid integer"
  const FloatMessage := "value is not a valid float"

  /** `value.isalpha()`: non-empty, and letters only. */
  predicate IsAlpha(value: string)
  {
    |value| > 0 && forall i :: 0 <= i < |value| ==> IsLetter(value[i])
  }

  /** `stock_symbol_check`: an upper-cased symbol, or the error it raises. */
  function StockSymbolCheck(value: string): (r: Result<string, string>)
    ensures r.Success? <==> 0 < |value| <= 5 && forall i :: 0 <= i < |value| ==> IsLetter(value[i])
    ensures r.Success? ==> |r.value| == |value|
    ensures r.Success? ==> forall i :: 0 <= i < |value| ==>
              IsUpper(r.value[i]) && LowerChar(r.value[i]) == LowerChar(value[i])
    ensures r.Failure? ==> r.error == SymbolMessage
  {
    if !IsAlpha(value) || |value| > 5 then Failure(SymbolMessage)
    else Success(Upper(value))
  }

  /** An accepted symbol passes the check again unchanged. */
  lemma {:induction false} StockSymbolCheckIdempotent(value: string)
    requires StockSymbolCheck(value).Success?
    ensures StockSymbolCheck(StockSymbolCheck(value).value) == StockSymbolCheck(value)
  {
    var u := StockSymbolCheck(value).value;
    assert u == Upper(value);
    assert IsAlpha(u);
    UpperIdempotent(value);
  }

  /** Examples from the unit tests: `"SBUX"` is accepted as it is, `"SBUX123"` is rejected. */
  lemma SymbolExamples()
    ensures StockSymbolCheck("SBUX") == Success("SBUX")
    ensures StockSymbolCheck("sbux") == Success("SBUX")
    ensures StockSymbolCheck("SBUX123").Failure?
    ensures StockSymbolCheck("").Failure?
    ensures StockSymbolCheck("ABCDEF").Failure?
  {
    assert !IsLetter("SBUX123"[4]);
    assert Upper("SBUX") == "SBUX";
    assert Upper("sbux") == "SBUX";
  }

  function SymbolField(value: Option<string>): (r: Result<string, FieldError>)
    ensures r.Success? <==> FieldOk(StockSymbol, value)
    ensures r.Failure? ==> r.error.field == StockSymbol && (r.error.Missing? <==> value.None?)
    ensures r.Success? ==> Success(r.value) == StockSymbolCheck(value.value)
    ensures r.Failure? && value.Some? ==> r.error == Invalid(StockSymbol, SymbolMessage)
  {
    match value
    case None => Failure(Missing(StockSymbol))
    case Some(v) =>
      match StockSymbolCheck(v)
      case Success(u) => Success(u)
      case Failure(msg) => Failure(Invalid(StockSymbol, msg))
  }

  function SharesField(value: Option<string>): (r: Result<int, FieldError>)
    ensures r.Success? <==> FieldOk(NumberOfShares, value)
    ensures r.Failure? ==> r.error.field == NumberOfShares && (r.error.Missing? <==> value.None?)
    ensures r.Success? ==> Some(r.value) == ParseInt(value.value)
    ensures r.Failure? && value.Some? ==> r.error == Invalid(NumberOfShares, IntegerMessage)
  {
    match value
    case None => Failure(Missing(NumberOfShares))
    case Some(v) =>
      match ParseInt(v)
      case Some(n) => Success(n)
      case None => Failure(Invalid(NumberOfShares, IntegerMessage))
  }

  function PriceField(value: Option<string>): (r: Result<Price, FieldError>)
    ensures r.Success? <==> FieldOk(PurchasePrice, value)
    ensures r.Failure? ==> r.error.field == PurchasePrice && (r.error.Missing? <==> value.None?)
    ensures r.Success? ==> r.value == Price(value.value)
    ensures r.Failure? && value.Some? ==> r.error == Invalid(PurchasePrice, FloatMessage)
  {
    match value
    case None => Failure(Missing(PurchasePrice))
    case Some(v) => if IsFloat(v) then Success(Price(v)) else Failure(Invalid(PurchasePrice, FloatMessage))
  }

  function ErrorOf<T>(r: Result<T, FieldError>): seq<FieldError>
  {
    if r.Failure? then [r.error] else []
  }

  /** Whether a field's value passes its own rule. */
  predicate FieldOk(f: Field, value: Option<string>)
  {
    value.Some? &&
    match f
    case StockSymbol => StockSymbolCheck(value.value).Success?
    case NumberOfShares => ParseInt(value.value).Some?
    case PurchasePrice => IsFloat(value.value)
  }

  /**
    `StockModel(stock_symbol=..., number_of_shares=..., purchase_price=...)`,
    where None stands for an argument that was not passed.
   */
  function NewStockModel(symbol: Option<string>, shares: Option<string>, price: Option<string>)
    : (r: Result<Stock, seq<FieldError>>)
    ensures r.Success? <==>
              FieldOk(StockSymbol, symbol) && FieldOk(NumberOfShares, shares) && FieldOk(PurchasePrice, price)
    ensures r.Success? ==>
              && Success(r.value.symbol) == StockSymbolCheck(symbol.value)
              && Some(r.value.shares) == ParseInt(shares.value)
              && r.value.price == Price(price.value)
    ensures r.Failure? ==> 1 <= |r.error| <= 3
    ensures r.Failure? ==> forall i, j :: 0 <= i < j < |r.error| ==> Rank(r.error[i].field) < Rank(r.error[j].field)
    ensures r.Failure? ==> forall f :: f in Reported(r.error) <==> !FieldOk(f, FieldValue(f, symbol, shares, price))
    ensures r.Failure? ==> forall i :: 0 <= i < |r.error| ==>
              (r.error[i].Missing? <==> FieldValue(r.error[i].field, symbol, shares, price).None?)
  {
    var a, b, c := SymbolField(symbol), SharesField(shares), PriceField(price);
    if a.Success? && b.Success? && c.Success? then
      Success(Stock(a.value, b.value, c.value))
    else
      ErrorListShape(symbol, shares, price, a, b, c);
      FailingFieldsReported(symbol, shares, price, a, b, c);
      Failure(ErrorOf(a) + ErrorOf(b) + ErrorOf(c))
  }

  /** The order, the length and the kinds of the errors collected from the three fields. */
  lemma ErrorListShape<X, Y, Z>(symbol: Option<string>, shares: Option<string>, price: Option<string>,
                                a: Result<X, FieldError>, b: Result<Y, FieldError>, c: Result<Z, FieldError>)
    requires a.Failure? ==> a.error.field == StockSymbol && (a.error.Missing? <==> symbol.None?)
    requires b.Failure? ==> b.error.field == NumberOfShares && (b.error.Missing? <==> shares.None?)
    requires c.Failure? ==> c.error.field == PurchasePrice && (c.error.Missing? <==> price.None?)
    requires a.Failure? || b.Failure? || c.Failure?
    ensures var e := ErrorOf(a) + ErrorOf(b) + ErrorOf(c);
      && 1 <= |e| <= 3
      && (forall i, j :: 0 <= i < j < |e| ==> Rank(e[i].field) < Rank(e[j].field))
      && (forall i :: 0 <= i < |e| ==> (e[i].Missing? <==> FieldValue(e[i].field, symbol, shares, price).None?))
  {
    var e := ErrorOf(a) + ErrorOf(b) + ErrorOf(c);
    forall i | 0 <= i < |e|
      ensures e[i] in ErrorOf(a) + ErrorOf(b) + ErrorOf(c)
      ensures e[i].Missing? <==> FieldValue(e[i].field, symbol, shares, price).None?
    {
      assert e[i] in e;
    }
  }

  /** The fields an error list reports on. */
  function Reported(errors: seq<FieldError>): set<Field>
  {
    set i | 0 <= i < |errors| :: errors[i].field
  }

  lemma ReportedConcat(x: seq<FieldError>, y: seq<FieldError>, z: seq<FieldError>)
    requires |x| <= 1 && |y| <= 1 && |z| <= 1
    ensures Reported(x + y + z) == Reported(x) + Reported(y) + Reported(z)
    ensures |x| == 1 ==> Reported(x) == {x[0].field}
    ensures |y| == 1 ==> Reported(y) == {y[0].field}
    ensures |z| == 1 ==> Reported(z) == {z[0].field}
  {
    var w := x + y + z;
    forall f | f in Reported(w) ensures f in Reported(x) + Reported(y) + Reported(z) {
      var i :| 0 <= i < |w| && w[i].field == f;
      if i < |x| { assert w[i] == x[i]; }
      else if i < |x| + |y| { assert w[i] == y[i - |x|]; }
      else { assert w[i] == z[i - |x| - |y|]; }
    }
    forall f | f in Reported(x) + Reported(y) + Reported(z) ensures f in Reported(w) {
      if f in Reported(x) {
        var i :| 0 <= i < |x| && x[i].field == f;
        assert w[i] == x[i];
      } else if f in Reported(y) {
        var i :| 0 <= i < |y| && y[i].field == f;
        assert w[|x| + i] == y[i];
      } else {
        var i :| 0 <= i < |z| && z[i].field == f;
        assert w[|x| + |y| + i] == z[i];
      }
    }
  }

  lemma ReportedOne<T>(r: Result<T, FieldError>)
    ensures Reported(ErrorOf(r)) == if r.Success? then {} else {r.error.field}
  {
    if r.Failure? { assert ErrorOf(r)[0] == r.error; }
  }

  /** The fields reported are exactly the failing ones. */
  lemma FailingFieldsReported<X, Y, Z>(symbol: Option<string>, shares: Option<string>, price: Option<string>,
                                       a: Result<X, FieldError>, b: Result<Y, FieldError>, c: Result<Z, FieldError>)
    requires a.Success? <==> FieldOk(StockSymbol, symbol)
    requires b.Success? <==> FieldOk(NumberOfShares, shares)
    requires c.Success? <==> FieldOk(PurchasePrice, price)
    requires a.Failure? ==> a.error.field == StockSymbol
    requires b.Failure? ==> b.error.field == NumberOfShares
    requires c.Failure? ==> c.error.field == PurchasePrice
    ensures forall f :: f in Reported(ErrorOf(a) + ErrorOf(b) + ErrorOf(c))
                        <==> !FieldOk(f, FieldValue(f, symbol, shares, price))
  {
    ReportedConcat(ErrorOf(a), ErrorOf(b), ErrorOf(c));
    ReportedOne(a);
    ReportedOne(b);
    ReportedOne(c);
    var failing := (if a.Success? then {} else {StockSymbol})
                 + (if b.Success? then {} else {NumberOfShares})
                 + (if c.Success? then {} else {PurchasePrice});
    assert Reported(ErrorOf(a) + ErrorOf(b) + ErrorOf(c)) == failing;
    forall f ensures f in failing <==> !FieldOk(f, FieldValue(f, symbol, shares, price)) {
      match f
      case StockSymbol =>
      case NumberOfShares =>
      case PurchasePrice =>
    }
  }

  /** The argument that belongs to field `f`. */
  function FieldValue(f: Field, symbol: Option<string>, shares: Option<string>, price: Option<string>)
    : Option<string>
  {
    match f
    case StockSymbol => symbol
    case NumberOfShares => shares
    case PurchasePrice => price
  }

  /** Leaving out any argument makes construction fail with that field reported missing. */
  lemma MissingFieldFails(f: Field, symbol: Option<string>, shares: Option<string>, price: Option<string>)
    requires FieldValue(f, symbol, shares, price).None?
    ensures NewStockModel(symbol, shares, price).Failure?
    ensures Missing(f) in NewStockModel(symbol, shares, price).error
  {
  }

  /** The nominal case of the unit tests: every field valid. */
  lemma NominalExample()
    ensures NewStockModel(Some("SBUX"), Some("100"), Some("45.67")) == Success(Stock("SBUX", 100, Price("45.67")))
  {
    SymbolExamples();
    IntAccepted();
    FloatAccepted();
  }

  /** `StockModel()` with no arguments reports all three fields missing, in order. */
  lemma NoArgumentsExample()
    ensures NewStockModel(None, None, None)
              == Failure([Missing(StockSymbol), Missing(NumberOfShares), Missing(PurchasePrice)])
  {
    assert [Missing(StockSymbol)] + [Missing(NumberOfShares)] + [Missing(PurchasePrice)]
        == [Missing(StockSymbol), Missing(NumberOfShares), Missing(PurchasePrice)];
  }

  /** Every field valid: the entry holds the upper-cased symbol, the count and the price text. */
  lemma AllFieldsValid(symbol: string, shares: string, price: string)
    requires StockSymbolCheck(symbol).Success? && ParseInt(shares).Some? && IsFloat(price)
    ensures NewStockModel(Some(symbol), Some(shares), Some(price))
              == Success(Stock(StockSymbolCheck(symbol).value, ParseInt(shares).value, Price(price)))
  {
  }

  /** The form the functional tests post: AAPL, 23 shares at 432.17. */
  lemma FunctionalTestForm()
    ensures NewStockModel(Some("AAPL"), Some("23"), Some("432.17")) == Success(Stock("AAPL", 23, Price("432.17")))
  {
    assert Upper("AAPL") == "AAPL";
    assert StockSymbolCheck("AAPL") == Success("AAPL");
    IntAccepted();
    PostedPriceAccepted();
    AllFieldsValid("AAPL", "23", "432.17");
  }

  /** A share count that is not an integer is the one error when the other fields are valid. */
  lemma OnlySharesInvalid(symbol: string, shares: string, price: string)
    requires StockSymbolCheck(symbol).Success? && ParseInt(shares).None? && IsFloat(price)
    ensures NewStockModel(Some(symbol), Some(shares), Some(price))
              == Failure([Invalid(NumberOfShares, IntegerMessage)])
  {
    assert [] + [Invalid(NumberOfShares, IntegerMessage)] + [] == [Invalid(NumberOfShares, IntegerMessage)];
  }

  /** A price that is not a float is the one error when the other fields are valid. */
  lemma OnlyPriceInvalid(symbol: string, shares: string, price: string)
    requires StockSymbolCheck(symbol).Success? && ParseInt(shares).Some? && !IsFloat(price)
    ensures NewStockModel(Some(symbol), Some(shares), Some(price))
              == Failure([Invalid(PurchasePrice, FloatMessage)])
  {
    assert SymbolField(Some(symbol)).Success?;
    assert SharesField(Some(shares)).Success?;
    assert PriceField(Some(price)) == Failure(Invalid(PurchasePrice, FloatMessage));
    assert [] + [] + [Invalid(PurchasePrice, FloatMessage)] == [Invalid(PurchasePrice, FloatMessage)];
  }

  /** A fractional share count is reported as the one invalid field. */
  lemma FractionalSharesExample()
    ensures NewStockModel(Some("SBUX"), Some("100.123547"), Some("45.67"))
              == Failure([Invalid(NumberOfShares, IntegerMessage)])
  {
    SymbolExamples();
    IntRejected();
    FloatAccepted();
    OnlySharesInvalid("SBUX", "100.123547", "45.67");
  }

  /** A decimal comma in the price is reported as the one invalid field. */
  lemma DecimalCommaExample()
    ensures NewStockModel(Some("SBUX"), Some("100"), Some("45,67"))
              == Failure([Invalid(PurchasePrice, FloatMessage)])
  {
    SymbolExamples();
    IntAccepted();
    FloatRejected();
    OnlyPriceInvalid("SBUX", "100", "45,67");
  }
}

/**
  The `add_stock` view of the stocks blueprint, for one request.

  The state a request can change is the client's session (a dictionary) and
  the queue of flashed messages. A GET renders the form. A POST reads the
  three form fields (a missing one raises `KeyError`, which the view does not
  catch, so the framework answers 400 Bad Request), validates them with
  `StockModel`, and on success stores the validated values under three session
  keys, flashes a success message and redirects to the list of stocks; on a
  validation error it renders the form again.
 */
module StockRoutes {
  import opened Wrappers
  import opened StockForm
  import opened Coerce

  /**
    The methods that reach the view: the two the route is registered for, and
    HEAD, which the framework adds to every rule that allows GET.
   */
  datatype HttpMethod = Get | Head | Post

  datatype Request = Request(verb: HttpMethod, form: map<string, string>)

  /** A value stored in the session: the symbol, the share count, or the price. */
  datatype SessionValue = Text(text: string) | Integer(number: int) | Amount(price: Price)

  datatype Flash = Flash(message: string, category: string)

  datatype Response =
    | Redirect(endpoint: string)
    | Render(template: string)
    | BadRequest(missingKey: string)

  const SymbolKey := "stock_symbol"
  const SharesKey := "number_of_shares"
  const PriceKey := "purchase_price"
  const ListStocksEndpoint := "stocks.list_stocks"
  const AddStockTemplate := "add_stock.html"
  const SuccessCategory := "success"

  /** The keys a successful POST writes, both in the form and in the session. */
  predicate IsStockKey(k: string) { k == SymbolKey || k == SharesKey || k == PriceKey }

  function AddedMessage(symbol: string): (m: string)
    ensures |m| == |symbol| + 19
    ensures m[..17] == "Added new stock (" && m[|m| - 2..] == ")!"
    ensures m[17..|m| - 2] == symbol
  {
    "Added new stock (" + symbol + ")!"
  }

  /** The message the functional test looks for after posting AAPL. */
  lemma AddedMessageExample()
    ensures AddedMessage("AAPL") == "Added new stock (AAPL)!"
  {
  }

  /** The first of the three keys, in the order the view reads them, that the form lacks. */
  function MissingKey(form: map<string, string>): (r: Option<string>)
    ensures r.None? <==> SymbolKey in form && SharesKey in form && PriceKey in form
    ensures r.Some? ==> IsStockKey(r.value) && r.value !in form
    ensures r == Some(SharesKey) ==> SymbolKey in form
    ensures r == Some(PriceKey) ==> SymbolKey in form && SharesKey in form
  {
    if SymbolKey !in form then Some(SymbolKey)
    else if SharesKey !in form then Some(SharesKey)
    else if PriceKey !in form then Some(PriceKey)
    else None
  }

  /**
    `StockModel` applied to the form of a request that has all three keys.
    Since every argument is passed, an error is never about a missing field.
   */
  function FormStock(form: map<string, string>): (r: Result<Stock, seq<FieldError>>)
    requires MissingKey(form).None?
    ensures r.Success? <==>
              StockSymbolCheck(form[SymbolKey]).Success? && ParseInt(form[SharesKey]).Some? && IsFloat(form[PriceKey])
    ensures r.Success? ==>
              && Success(r.value.symbol) == StockSymbolCheck(form[SymbolKey])
              && Some(r.value.shares) == ParseInt(form[SharesKey])
              && r.value.price == Price(form[PriceKey])
    ensures r.Failure? ==> |r.error| > 0 && forall i :: 0 <= i < |r.error| ==> r.error[i].Invalid?
  {
    NewStockModel(Some(form[SymbolKey]), Some(form[SharesKey]), Some(form[PriceKey]))
  }

  /** The session after storing a validated stock entry. */
  function StoreStock(session: map<string, SessionValue>, stock: Stock): (s: map<string, SessionValue>)
    ensures s.Keys == session.Keys + {SymbolKey, SharesKey, PriceKey}
    ensures s[SymbolKey] == Text(stock.symbol)
    ensures s[SharesKey] == Integer(stock.shares)
    ensures s[PriceKey] == Amount(stock.price)
    ensures forall k :: k in session && !IsStockKey(k) ==> s[k] == session[k]
  {
    session[SymbolKey := Text(stock.symbol)][SharesKey := Integer(stock.shares)][PriceKey := Amount(stock.price)]
  }

  /** The per-client state that one request to the view can read and change. */
  class Client {
    var session: map<string, SessionValue>
    var flashes: seq<Flash>

    constructor (session: map<string, SessionValue>, flashes: seq<Flash>)
      ensures this.session == session && this.flashes == flashes
    {
      this.session := session;
      this.flashes := flashes;
    }

    /** `add_stock()` for the request `req`. */
    method AddStock(req: Request) returns (resp: Response)
      modifies this
      ensures req.verb != Post ==>
                resp == Render(AddStockTemplate) && session == old(session) && flashes == old(flashes)
      ensures req.verb == Post && MissingKey(req.form).Some? ==>
                resp == BadRequest(MissingKey(req.form).value) && session == old(session) && flashes == old(flashes)
      ensures req.verb == Post && MissingKey(req.form).None? && FormStock(req.form).Failure? ==>
                resp == Render(AddStockTemplate) && session == old(session) && flashes == old(flashes)
      ensures req.verb == Post && MissingKey(req.form).None? && FormStock(req.form).Success? ==>
                var stock := FormStock(req.form).value;
                && resp == Redirect(ListStocksEndpoint)
                && session == StoreStock(old(session), stock)
                && flashes == old(flashes) + [Flash(AddedMessage(stock.symbol), SuccessCategory)]
      ensures session.Keys >= old(session).Keys
      ensures forall k :: k in old(session) && !IsStockKey(k) ==> session[k] == old(session)[k]
      ensures forall k :: k in session && !IsStockKey(k) ==> k in old(session)
      ensures resp.Redirect? <==> session != old(session) || flashes != old(flashes)
    {
      if req.verb == Post {
        var form := req.form;
        if SymbolKey !in form {
          return BadRequest(SymbolKey);
        }
        if SharesKey !in form {
          return BadRequest(SharesKey);
        }
        if PriceKey !in form {
          return BadRequest(PriceKey);
        }
        var stockData := FormStock(form);
        if stockData.Success? {
          var stock := stockData.value;
          session := session[SymbolKey := Text(stock.symbol)];
          session := session[SharesKey := Integer(stock.shares)];
          session := session[PriceKey := Amount(stock.price)];
          flashes := flashes + [Flash(AddedMessage(stock.symbol), SuccessCategory)];
          return Redirect(ListStocksEndpoint);
        }
      }
      resp := Render(AddStockTemplate);
    }
  }
}

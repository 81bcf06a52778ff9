# Stock entry validation and the add-stock view

This project is a Dafny model of the add-stock path of a Flask stock
portfolio application: the `StockModel` schema that validates the three
fields of the add-stock form, and the `add_stock` view that stores a valid
entry in the client's session.

- `StockModel` (project/stocks/routes.py:10-20) is a pydantic model with
  three required fields.
  - `stock_symbol` must be alphabetic (`isalpha`, so the empty string fails)
    and at most five characters long. It is stored upper-cased.
  - `number_of_shares` is coerced with Python's `int`.
  - `purchase_price` is coerced with Python's `float`.
  - Validation looks at every field in declaration order and reports one
    error per failing field.
- `add_stock` (project/stocks/routes.py:33-61) handles one request.
  - A GET renders the form. So does a HEAD, which the framework adds to every
    rule that allows GET and which takes the same branch of the view.
  - A POST reads the three form keys. A missing key raises `KeyError`, which
    nothing catches, so the answer is 400 Bad Request.
  - The POST then builds a `StockModel`. A `ValidationError` falls through to
    rendering the form again, with the session untouched.
  - On success the view writes `stock_symbol`, `number_of_shares` and
    `purchase_price` into the session and flashes
    `Added new stock (<SYMBOL>)!` with category `success`. It then redirects
    to `stocks.list_stocks`.

Modules, one per concern:

- `Wrappers`: `Option` and `Result`.
- `Ascii`: the ASCII behaviour of `str.isalpha`, `str.upper` and `str.lower`,
  and the white-space trimming that `int` and `float` apply to their argument.
- `Coerce`: Python's `int(s)` and `float(s)` on ASCII strings. Both skip
  surrounding white space, take an optional sign, and read digit groups with single
  underscores. `float` also takes a decimal point, an exponent and the words
  `inf`, `infinity` and `nan` in any case. The model checks whether `float`
  accepts the text. It does not compute the float's value.
- `StockForm`: `StockModel`, `stock_symbol_check` and the per-field error
  list.
- `StockRoutes`: `add_stock` as a method of a `Client` class. The class holds
  the session (`map<string, SessionValue>`) and the queue of flashed
  messages (`seq<Flash>`).

The coercion rules are those of pydantic 1.x, whose `validator` decorator the
source imports. These are the rules:

- A string goes to `int(...)` or `float(...)`.
- Every failing field is reported, in declaration order.
- The generic messages are "value is not a valid integer" and "value is not a
  valid float".

The validated purchase price is kept as the text that `float` accepted
(`Price(text)`).

Behaviour the model makes explicit:

- `int` accepts a sign, surrounding white space and underscores between
  digits. So `"-5"`, `" 7 "` and `"1_000"` are valid share counts.
- `float` accepts `"inf"` and `"nan"`.
- The white space `int` and `float` skip is tab, line feed, vertical tab, form
  feed, carriage return and space. The information separators 28-31, which
  `str.isspace` also counts, are not skipped, so `"\x1c5"` is neither a valid
  share count nor a valid price.
- The source rejects none of these.

## Model

| member | source | states |
|---|---|---|
| `Ascii.UpperChar` | project/stocks/routes.py:20 | upper-casing a character leaves no lower-case letter, keeps letters letters and everything else unchanged, and lower-casing the result gives back a lower-case input |
| `Ascii.Upper` | project/stocks/routes.py:20 | `upper()` keeps the length, leaves no lower-case letter, leaves every non-lower-case character in place, and maps each lower-case letter to the upper-case letter whose lower case it is |
| `Ascii.UpperIdempotent` | project/stocks/routes.py:20 | upper-casing twice is upper-casing once |
| `Ascii.LeadingSpaces` | project/stocks/routes.py:13-14 | the white space `int` and `float` skip at the front (tab, line feed, vertical tab, form feed, carriage return, space) is the longest prefix made of it |
| `Ascii.TrailingSpaces` | project/stocks/routes.py:13-14 | the same white space skipped at the end is the longest suffix made of it |
| `Ascii.Strip` | project/stocks/routes.py:13-14 | the text `int` and `float` read is the slice between those prefixes and suffixes; it is empty exactly when the input is all such white space, and otherwise starts and ends with a character that is not |
| `Ascii.StripKeeps` | project/stocks/routes.py:13-14 | stripping keeps every character that is not white space |
| `Coerce.IsDigitPart` | project/stocks/routes.py:13-14 | a digit group is non-empty, starts and ends with a digit, and holds only digits and underscores |
| `Coerce.DigitPartShapeIff` | project/stocks/routes.py:13-14 | the recursive digit-group grammar holds exactly when the text starts with a digit and every underscore is followed by a digit |
| `Coerce.ParseInt` | project/stocks/routes.py:13 | `int(s)` succeeds exactly when the stripped text is a digit group with an optional sign; the result is the group's decimal value, negated when the sign is `-` |
| `Coerce.ParseIntRoundTrip` | project/stocks/routes.py:13 | `int(str(n)) == n` for every integer, negative ones included |
| `Coerce.PaddingIgnored` | project/stocks/routes.py:13-14 | tab, line feed, vertical tab, form feed, carriage return and space around a value change neither what `int` returns nor whether `float` accepts it |
| `Coerce.IsFloat` | project/stocks/routes.py:14 | every text `int` accepts is also accepted as a price, and text that is empty or all white space is not |
| `Coerce.LeadingSeparatorRejected` | project/stocks/routes.py:13-14 | a text that starts with an information separator (28-31) is neither a valid share count nor a valid price |
| `Coerce.CommaNotInt` | project/stocks/routes.py:13 | a comma anywhere in the text makes the share count invalid |
| `Coerce.CommaNotFloat` | project/stocks/routes.py:14 | a comma anywhere in the text makes the price invalid |
| `Coerce.DecimalIsFloat` | project/stocks/routes.py:14 | every `<digits>.<digits>` text is a valid price |
| `Coerce.IntAccepted` | tests/unit/test_app.py:14-20 | `"100"` is read as 100 and `"23"` as 23 |
| `Coerce.IntRejected` | tests/unit/test_app.py:44-49 | `"100.123547"` is not an integer |
| `Coerce.FloatAccepted` | tests/unit/test_app.py:14-21 | `"45.67"` is a valid price |
| `Coerce.PostedPriceAccepted` | tests/functional/test_stocks.py:97-101 | `"432.17"` is a valid price |
| `Coerce.FloatRejected` | tests/unit/test_app.py:58-63 | `"45,67"` is not a valid price |
| `StockForm.StockSymbolCheck` | project/stocks/routes.py:16-20 | a symbol is accepted exactly when it has 1 to 5 characters, all letters; the accepted value has the same length, is all upper case and equals the input ignoring case; a rejection carries the message "Stock symbol must be 1-5 characters" |
| `StockForm.StockSymbolCheckIdempotent` | project/stocks/routes.py:18-20 | a symbol the check returned passes the check again unchanged |
| `StockForm.SymbolExamples` | tests/unit/test_app.py:14-35 | `"SBUX"` is accepted as is; `"sbux"` becomes `"SBUX"`; `"SBUX123"`, the empty symbol and a six-letter symbol are rejected |
| `StockForm.SymbolField` | project/stocks/routes.py:12-20 | the symbol field succeeds exactly when it is present and passes the check, and then holds the upper-cased symbol the check returns; otherwise it reports a symbol error, which is "missing" exactly when the field is absent and carries the check's message otherwise |
| `StockForm.SharesField` | project/stocks/routes.py:13 | the share field succeeds exactly when it is present and `int` accepts it, and then holds the integer `int` returns; otherwise it reports a share-count error, "missing" exactly when the field is absent and "value is not a valid integer" otherwise |
| `StockForm.PriceField` | project/stocks/routes.py:14 | the price field succeeds exactly when it is present and `float` accepts it, and then holds that text as the price; otherwise it reports a price error, "missing" exactly when the field is absent and "value is not a valid float" otherwise |
| `StockForm.NewStockModel` | project/stocks/routes.py:10-20 | construction succeeds exactly when all three fields are present and valid. On success the entry holds the checked symbol, the parsed count and the price text. On failure it lists 1 to 3 errors in field order, one for each failing field and none for a valid one, and an error says "missing" exactly when its field is absent |
| `StockForm.MissingFieldFails` | project/stocks/routes.py:12-14 | leaving out any argument makes construction fail, with that field reported missing |
| `StockForm.AllFieldsValid` | project/stocks/routes.py:10-20 | with every field valid, the entry is the checked symbol, the parsed count and the price text |
| `StockForm.OnlySharesInvalid` | project/stocks/routes.py:13 | when only the share count is bad, the one error is "value is not a valid integer" on that field |
| `StockForm.OnlyPriceInvalid` | project/stocks/routes.py:14 | when only the price is bad, the one error is "value is not a valid float" on that field |
| `StockForm.NominalExample` | tests/unit/test_app.py:8-21 | `SBUX`, `100`, `45.67` give the entry (`SBUX`, 100, `45.67`) |
| `StockForm.FractionalSharesExample` | tests/unit/test_app.py:38-49 | `100.123547` shares make construction fail on the share count alone |
| `StockForm.DecimalCommaExample` | tests/unit/test_app.py:52-63 | a price of `45,67` makes construction fail on the price alone |
| `StockForm.NoArgumentsExample` | tests/unit/test_app.py:66-73 | `StockModel()` fails with all three fields reported missing, in order |
| `StockForm.FunctionalTestForm` | tests/functional/test_stocks.py:97-110 | the posted form `AAPL`, `23`, `432.17` validates to the entry (`AAPL`, 23, `432.17`) |
| `StockRoutes.MissingKey` | project/stocks/routes.py:41-44 | a key is missing exactly when some of the three keys is absent, and the one named is the first absent one in the order the view reads them |
| `StockRoutes.FormStock` | project/stocks/routes.py:41-45 | with all three keys in the form, validation succeeds exactly when the symbol passes the check, `int` accepts the count and `float` the price; the entry holds the checked symbol, the parsed count and the price text; every error is about an invalid value, never a missing field |
| `StockRoutes.StoreStock` | project/stocks/routes.py:49-51 | storing an entry adds exactly the three stock keys, sets them to the symbol, the count and the price, and keeps every other key's value |
| `StockRoutes.AddedMessage` | project/stocks/routes.py:52 | the flash text is `Added new stock (`, then the symbol, then `)!` |
| `StockRoutes.AddedMessageExample` | tests/functional/test_stocks.py:110 | the message flashed for `AAPL` is `Added new stock (AAPL)!` |
| `StockRoutes.Client.AddStock` | project/stocks/routes.py:33-61 | GET and HEAD render the form, and a POST with a missing key answers 400. A POST that fails validation renders the form. In these three cases the session and the flashes are unchanged. A valid POST redirects to the stock list, stores the entry under the three keys and appends the success flash. No other key is added or changed, and the state changes exactly when the view redirects |

## Left out

- Template rendering, the `print` calls and the logger calls in
  project/stocks/routes.py are output only, with no state to model. So are
  the `index` and `list_stocks` views, which only render a template.
- The float value of the price is not modelled, nor is the cents
  conversion `int(float(purchase_price) * 100)` in project/models.py:36.
  Both are binary floating point. The model keeps only whether `float`
  accepts the text.
- `StockForm.StockSymbolCheck` only knows ASCII letters. Python's `isalpha`
  also accepts letters outside ASCII, such as `é`, and `upper` can change the
  length of such text. The model rejects those symbols.
- `Coerce.ParseInt` does not accept digits outside ASCII or white space outside
  ASCII. Python's `int` accepts both.
- `Coerce.ParseInt` does not model the 4300-digit limit that recent Python and
  pydantic releases put on reading a decimal string, because the limit depends
  on the version.
- `Coerce.IsFloat` does not accept digits or white space outside ASCII, which
  Python's `float` accepts.
- The flashed messages are a separate field of `StockRoutes.Client`. Flask
  keeps them in the session under `_flashes`.
- OPTIONS requests are not modelled. Flask answers them itself, with the
  allowed methods, and does not run the view.
- Other HTTP methods are not modelled. Routing rejects them with 405 before
  the view runs, and project/__init__.py:82-84 renders the 405 page.
- The ORM model, the migration, the application factory, blueprint
  registration, logging set-up, request hooks and error pages are left out.
  These are project/models.py, migrations/versions/3be2e8df4d26_add_stocks_table.py,
  project/__init__.py and app.py. They are persistence and framework wiring.
- project/users/routes.py:9-12 only flashes a message and renders the about
  page, so it is left out.
- Authentication, login and logout, password hashing, the post-login redirect
  check and the access guard are left out. No file in this model implements
  them.
- tests/unit/test_app.py:4 imports `StockModel` from app.py, which does not
  define it. The model follows the class in project/stocks/routes.py:10-20.

# forex-python rate client, modelled in Dafny

A model of the rate-retrieval and conversion core of `forex_python/converter.py`:
how `ResponseProvider` builds the request for the configured rate source and
dispatches on the provider name, how `Common` decodes the `rates` member of a
response in float or decimal mode, and how `CurrencyRates.get_rates`,
`get_rate` and `convert` turn a status code and a decoded body into a value or
one of the converter's named exceptions.

Everything outside the Python process is an explicit input:

- the environment (`os.getenv`) is a `map<string, string>`, read with the same
  variable names and defaults as the code;
- the HTTP layer (`requests.get`) is a function `Request -> Delivery`, where a
  delivery is a response (status code plus decoded body) or the exception the
  HTTP layer raised, which the model propagates unchanged;
- a number is its Python type (`int`, `float`, `Decimal`) together with an
  exact value, integral for an `int`, so the model tracks which products Python refuses
  (`Decimal * float`) but not binary-float rounding.

Files, one module each: `wrappers.dfy` (Option/Result), `dates.dfy`
(`_get_date_string` and a parser for its output), `numbers.dfy` (tagged numbers,
JSON number decoding, `*`), `errors.dfy` (the exceptions and their messages),
`response_provider.dfy`, `common.dfy`, `currency_rates.dfy`.

Where the code and the intended design of the library differ, the model follows
the code:

- an unknown provider name makes `__call__` return `None`; the caller's next
  step, reading `status_code`, then raises `AttributeError` (`NoStatusCode`);
  there is no dedicated unknown-provider exception;
- `provide_ratesapi` sends its request but returns `None`, so under that
  provider every call that reaches the provider ends in `NoStatusCode`, or in
  the HTTP layer's exception (equal currencies in `get_rate` and `convert`
  return before the provider is called); its payload is updated with
  itself, so the caller's `symbols` never reaches it; its URL reads the same
  `FOREX_PYTHON_OPENXCHNG_SOURCE_URL` variable as openexchangerates;
- a rate of zero is treated like a missing rate (`if not rate`);
- `DecimalFloatMismatchError` is raised only when a fractional rate was decoded
  as `Decimal` and the amount is a `float`: an integer rate stays an `int` and
  multiplies with a `float` amount, and equal currencies convert a `float`
  amount to `Decimal` without complaint.

## Model

| member | source | states |
|---|---|---|
| Dates.PadDigits | forex_python/converter.py:44 | a zero-padded field of `strftime` has exactly the requested width and only digits |
| Dates.DigitsValueOfPadDigits | forex_python/converter.py:44 | reading a padded field back gives the number it was made from |
| Dates.PadDigitsOfDigitsValue | forex_python/converter.py:44 | every all-digit field is the padding of its own value, so padding loses nothing |
| Dates.FormatDate | forex_python/converter.py:44 | `%Y-%m-%d` is ten characters, digits with dashes at positions 4 and 7 |
| Dates.ParseFormattedDate | forex_python/converter.py:44 | parsing a formatted date returns that date |
| Dates.FormatParsedDate | forex_python/converter.py:44 | every text the parser accepts is exactly the formatting of the date it yields |
| Dates.DateString | forex_python/converter.py:37-46 | the segment is `latest` if and only if no date is given; a dated segment is the ten-character date that parses back to the date |
| Dates.DateStringOfParse | forex_python/converter.py:37-46 | every accepted segment is the one produced for the date it parses to, so segment and optional date determine each other |
| Numbers.DecodeNumber | forex_python/converter.py:93-98 | decoding keeps the value; integer literals stay `int`, fractional ones become `Decimal` exactly in decimal mode and `float` otherwise |
| Numbers.Multiply | forex_python/converter.py:153-157 | within the float range, the product fails exactly for a `Decimal` with a `float`; otherwise its value is the product, it is `int` only for two `int`s (and then integral) and `Decimal` when either side is |
| ResponseProvider.OpenExchangeRequest | forex_python/converter.py:57-73 | fails with the app-id error if and only if the credential is absent or empty; otherwise the URL splits into the source URL and exactly the requested date, and the payload holds `app_id`, `base` and every caller parameter, caller values winning on a clash |
| ResponseProvider.OpenExchangeUrlOfParse | forex_python/converter.py:62-73 | every URL the splitter accepts is the source URL, `historical/` exactly for a dated request, the date segment and `.json` |
| ResponseProvider.ProvideOpenExchangeRates | forex_python/converter.py:49-73 | a missing credential fails before any request is sent; otherwise the result is the HTTP layer's response to the built request, or its exception |
| ResponseProvider.RatesApiRequest | forex_python/converter.py:76-84 | the payload is exactly `{base, rtype: fpy}` whatever the caller passes; the URL is the source URL followed by a segment that parses back to the requested date |
| ResponseProvider.ProvideRatesApi | forex_python/converter.py:76-84 | never returns a response; fails exactly when the HTTP layer raises on its request, with that exception's reason |
| ResponseProvider.HandlerNames | forex_python/converter.py:31-34 | `provide_<name>` exists for exactly the names `openexchangerates` and `ratesapi` |
| ResponseProvider.Call | forex_python/converter.py:31-34 | an unknown name returns `None` whatever the HTTP layer would do; only openexchangerates with a credential yields a response; each of the two names gives exactly its own handler's result |
| Common.DecodeRates | forex_python/converter.py:93-98 | no `rates` member gives the empty map; otherwise the same currencies, each with its value, decimal exactly when the client or the call asks for it and the literal is fractional |
| Common.DecodedRate | forex_python/converter.py:100-101 | `None` exactly when the body has no `rates` or no entry for the currency; otherwise that entry of the decoded map |
| Common.DecodeModesAgree | forex_python/converter.py:93-98 | float-mode and decimal-mode decoding of one body agree on currencies and values and differ only in `float` versus `Decimal` |
| CurrencyRates.Fetch | forex_python/converter.py:107-110 | under the default provider with a credential the result is the HTTP layer's response to the openexchangerates request, or its exception; a missing credential fails with the app-id error; under `ratesapi` it is the HTTP layer's own exception for the ratesapi request when that raises, otherwise `AttributeError` on `None`; an unknown name always gives `AttributeError` |
| CurrencyRates.GetRates | forex_python/converter.py:106-113 | succeeds exactly on status 200, with the body decoded in the client's mode; other statuses raise "Source Not Ready"; provider errors propagate |
| CurrencyRates.GetRate | forex_python/converter.py:115-131 | equal currencies give 1 in the client's precision whatever the environment and provider; a result is never zero; non-200 raises "Source Not Ready"; a missing or zero rate raises the message naming base, dest and the date segment |
| CurrencyRates.Convert | forex_python/converter.py:133-158 | equal currencies return the amount's value in the call's precision mode without a provider call; otherwise, on status 200 with a non-zero rate decoded in the call's mode, the result is that rate times the amount, or the mismatch error when Python refuses the product; a missing or zero rate, another status and provider errors fail as in `get_rate`, with `convert`'s own message; a `Decimal` amount gives a `Decimal` result |
| CurrencyRates.ConvertMismatchExactly | forex_python/converter.py:133-157 | the mismatch error is raised if and only if the client forces decimals, the amount is a `float` and the rate for `dest` is a non-zero fractional number |
| CurrencyRates.ConvertAgreesWithGetRate | forex_python/converter.py:115-157 | when both decode in the same mode, `convert` fails for lack of a rate exactly when `get_rate` does and otherwise returns `get_rate`'s rate times the amount |
| CurrencyRates.OtherProvidersNeverAnswer | forex_python/converter.py:106-158 | under `ratesapi` every call that reaches the provider fails with exactly the HTTP layer's exception for that provider's request, or with `AttributeError` on `None` when it does not raise; under an unknown name every such call fails with `AttributeError` |
| CurrencyRates.StubbedProviderExample | forex_python/converter.py:115-131 | a provider answering `{"rates": {"EUR": 0.85}}` gives 0.85 for EUR and the unavailable error for GBP |

## Left out

- HTTP transport (`requests.get`): a function parameter; timeouts, retries and the response's raw text are not modelled.
- Environment reads (`os.getenv`): a map passed as a parameter; the model does not model the environment changing between calls.
- JSON parsing (`simplejson`, `response.json()`): the body is given already decoded, as its optional `rates` member; a body that is not an object, a `rates` member that is not an object, and rate values that are not numbers (strings, `null`, booleans, NaN) are not modelled.
- Numbers: values are exact reals, and only the Python type of each number is tracked. Not modelled: the rounding of fractional JSON literals decoded as `float`; the rounding of `float(amount)` for an `int` amount above 2**53; the rounding of float products; and the rounding of `Decimal` products to the decimal context's precision (28 significant digits by default).
- Numbers.Multiply: does not model Python's `OverflowError` when an `int` beyond the float range meets a `float`; the model returns the exact product instead, because float range limits are outside the exact-value model.
- CurrencyRates.Convert: does not model the `OverflowError` raised by `float(amount)` for equal currencies, or by `rate * amount` for a `float` rate, when an `int` amount lies beyond the float range (the `except TypeError` does not catch it); the model returns success with the exact value there.
- CurrencyRates.Convert: amounts of types other than `int`, `float` and `Decimal` are not modelled, so `TypeError`s from such amounts are out of scope.
- Dates.FormatDate: pads the year to four digits; for years before 1000 the width of `%Y` depends on the platform's `strftime`.
- Exception messages of Python itself (the text of the `AttributeError`, of a transport exception) are not modelled; the converter's own messages are.
- `CurrencyCodes` (lines 168-203): file reading plus a first-match lookup over an on-disk table, unrelated to rates.
- The module-level `CurrencyRates()` and `CurrencyCodes()` instances and the free functions bound to them (lines 161-165, 206-211): aliases of the modelled operations.

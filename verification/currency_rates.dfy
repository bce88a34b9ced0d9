/**
 `CurrencyRates`: the three public operations. Each reads the provider name
 from the environment, calls the provider, checks for status 200 and decodes
 the body; `get_rate` and `convert` short-circuit equal currencies without
 calling the provider at all.
 */
module CurrencyRates {
  import opened Wrappers
  import opened Dates
  import opened Numbers
  import opened Errors
  import opened ResponseProvider
  import opened Common

  const ProviderVar: string := "FOREX_PYTHON_RATES_PROVIDER"
  const DefaultProvider: string := "openexchangerates"

  /** `os.getenv('FOREX_PYTHON_RATES_PROVIDER', 'openexchangerates')`. */
  function ProviderName(env: Env): string {
    GetEnv(env, ProviderVar, DefaultProvider)
  }

  /**
   How a call under `ratesapi` ends: the HTTP layer's exception if it raised,
   otherwise the `AttributeError` on the `None` the handler returns.
   */
  function RatesApiFailure(sent: Delivery): Error {
    match sent
    case Delivered(_) => NoStatusCode
    case Raised(reason) => TransportError(reason)
  }

  /**
   `self.response_provider(...)` followed by reading `status_code`: only the
   credentialed provider hands back a response; `None` fails at the read.
   */
  function Fetch(env: Env, base: string, date: Option<CalendarDate>, params: Option<Params>, transport: Transport)
    : (r: Result<Response, Error>)
    ensures r.Success? ==> ProviderName(env) == DefaultProvider && HasAppId(env)
    ensures ProviderName(env) == "ratesapi" ==>
      r == Failure(RatesApiFailure(transport(RatesApiRequest(env, base, date, params))))
    ensures ProviderName(env) != DefaultProvider && ProviderName(env) != "ratesapi" ==> r == Failure(NoStatusCode)
    ensures ProviderName(env) == DefaultProvider && !HasAppId(env) ==> r == Failure(AppIdNotAvailable)
    ensures ProviderName(env) == DefaultProvider && HasAppId(env) ==>
      match transport(OpenExchangeRequest(env, base, date, params).value)
      case Delivered(response) => r == Success(response)
      case Raised(reason) => r == Failure(TransportError(reason))
  {
    var answer :- Call(env, base, ProviderName(env), date, params, transport);
    match answer
    case None => Failure(NoStatusCode)
    case Some(response) => Success(response)
  }

  /** The narrowed query `get_rate` and `convert` send: `{'symbols': dest}`. */
  function Symbols(dest: string): Option<Params> {
    Some(map["symbols" := dest])
  }

  /** `get_rates`: every rate against `base`, or the failure on the way. */
  function GetRates(client: Client, env: Env, transport: Transport, base: string, date: Option<CalendarDate>)
    : (r: Result<map<string, Number>, Error>)
    ensures var fetched := Fetch(env, base, date, None, transport);
      && (fetched.Failure? ==> r == Failure(fetched.error))
      && (fetched.Success? && fetched.value.status != 200 ==> r == Failure(RatesNotAvailable(SourceNotReady)))
      && (r.Success? <==> fetched.Success? && fetched.value.status == 200)
      && (r.Success? ==> r.value == DecodeRates(client, fetched.value.body, false))
  {
    match Fetch(env, base, date, None, transport)
    case Failure(e) => Failure(e)
    case Success(response) =>
      if response.status == 200 then Success(DecodeRates(client, response.body, false))
      else Failure(RatesNotAvailable(SourceNotReady))
  }

  /** The rate `Decimal(1)` or `1.0` returned for a currency against itself. */
  function One(client: Client): Number {
    Num(if client.forceDecimal then Dec else Float, 1.0)
  }

  /** `get_rate`: the rate from `base` to `dest`, never zero. */
  function GetRate(
    client: Client, env: Env, transport: Transport, base: string, dest: string, date: Option<CalendarDate>)
    : (r: Result<Number, Error>)
    ensures base == dest ==> r == Success(One(client))
    ensures r.Success? ==> Truthy(r.value)
    ensures r.Success? ==> r.value.kind != (if client.forceDecimal then Float else Dec)
    ensures base != dest ==>
      var fetched := Fetch(env, base, date, Symbols(dest), transport);
      && (fetched.Failure? ==> r == Failure(fetched.error))
      && (fetched.Success? && fetched.value.status != 200 ==> r == Failure(RatesNotAvailable(SourceNotReady)))
      && (fetched.Success? && fetched.value.status == 200 ==>
            var rate := DecodedRate(client, fetched.value.body, dest, false);
            if rate.Some? && Truthy(rate.value) then r == Success(rate.value)
            else r == Failure(RatesNotAvailable(RateMessage(base, dest, DateString(date)))))
  {
    if base == dest then Success(One(client))
    else
      match Fetch(env, base, date, Symbols(dest), transport)
      case Failure(e) => Failure(e)
      case Success(response) =>
        if response.status != 200 then Failure(RatesNotAvailable(SourceNotReady))
        else
          match DecodedRate(client, response.body, dest, false)
          case None => Failure(RatesNotAvailable(RateMessage(base, dest, DateString(date))))
          case Some(rate) =>
            if !Truthy(rate) then Failure(RatesNotAvailable(RateMessage(base, dest, DateString(date))))
            else Success(rate)
  }

  /** `use_decimal` in `convert`: the amount is a `Decimal`, or the client forces decimals. */
  predicate UseDecimal(client: Client, amount: Number) {
    amount.kind == Dec || client.forceDecimal
  }

  /**
   `convert`: `amount` in `base` expressed in `dest`, that is `rate * amount`;
   equal currencies return the amount in the call's precision mode.
   */
  function Convert(
    client: Client, env: Env, transport: Transport, base: string, dest: string, amount: Number,
    date: Option<CalendarDate>)
    : (r: Result<Number, Error>)
    ensures base == dest ==>
      && r.Success?
      && r.value.value == amount.value
      && r.value.kind == (if UseDecimal(client, amount) then Dec else Float)
    ensures r.Success? && amount.kind == Dec ==> r.value.kind == Dec
    ensures r.Success? && !UseDecimal(client, amount) ==> r.value.kind != Dec
    ensures r.Failure? && r.error.DecimalFloatMismatch? ==> r.error.message == MismatchMessage
    ensures base != dest ==>
      var fetched := Fetch(env, base, date, Symbols(dest), transport);
      && (fetched.Failure? ==> r == Failure(fetched.error))
      && (fetched.Success? && fetched.value.status != 200 ==> r == Failure(RatesNotAvailable(SourceNotReady)))
      && (fetched.Success? && fetched.value.status == 200 ==>
            var rate := DecodedRate(client, fetched.value.body, dest, UseDecimal(client, amount));
            if rate.Some? && Truthy(rate.value) then
              match Multiply(rate.value, amount)
              case Some(product) => r == Success(product)
              case None => r == Failure(DecimalFloatMismatch(MismatchMessage))
            else r == Failure(RatesNotAvailable(ConvertMessage(base, dest, DateString(date)))))
  {
    var useDecimal := UseDecimal(client, amount);
    if base == dest then
      Success(if useDecimal then ToDecimal(amount) else ToFloat(amount))
    else
      match Fetch(env, base, date, Symbols(dest), transport)
      case Failure(e) => Failure(e)
      case Success(response) =>
        if response.status != 200 then Failure(RatesNotAvailable(SourceNotReady))
        else
          match DecodedRate(client, response.body, dest, useDecimal)
          case None => Failure(RatesNotAvailable(ConvertMessage(base, dest, DateString(date))))
          case Some(rate) =>
            if !Truthy(rate) then Failure(RatesNotAvailable(ConvertMessage(base, dest, DateString(date))))
            else
              match Multiply(rate, amount)
              case Some(product) => Success(product)
              case None => Failure(DecimalFloatMismatch(MismatchMessage))
  }

  /**
   `convert` raises `DecimalFloatMismatchError` exactly when the client forces
   decimals, the amount is a `float`, and the provider's rate for `dest` is a
   non-zero fractional number (decoded as `Decimal`). An integer rate stays an
   `int` and multiplies with a `float` without complaint.
   */
  lemma ConvertMismatchExactly(
    client: Client, env: Env, transport: Transport, base: string, dest: string, amount: Number,
    date: Option<CalendarDate>)
    ensures var r := Convert(client, env, transport, base, dest, amount, date);
      var fetched := Fetch(env, base, date, Symbols(dest), transport);
      (r.Failure? && r.error.DecimalFloatMismatch?)
      <==>
      && base != dest
      && client.forceDecimal
      && amount.kind == Float
      && fetched.Success?
      && fetched.value.status == 200
      && fetched.value.body.rates.Some?
      && dest in fetched.value.body.rates.value
      && fetched.value.body.rates.value[dest].FracLiteral?
      && fetched.value.body.rates.value[dest].r != 0.0
  {
  }

  /**
   When `convert` decodes in the same mode as `get_rate` (the amount is not a
   `Decimal`, or the client forces decimals anyway), it fails for a missing
   rate exactly when `get_rate` does, and otherwise returns `get_rate`'s rate
   times the amount, or the mismatch error when Python refuses that product.
   */
  lemma ConvertAgreesWithGetRate(
    client: Client, env: Env, transport: Transport, base: string, dest: string, amount: Number,
    date: Option<CalendarDate>)
    requires base != dest
    requires amount.kind != Dec || client.forceDecimal
    ensures var rate := GetRate(client, env, transport, base, dest, date);
      var r := Convert(client, env, transport, base, dest, amount, date);
      && (rate.Failure? <==> r.Failure? && !r.error.DecimalFloatMismatch?)
      && (rate.Failure? ==> (rate.error.RatesNotAvailable? <==> r.error.RatesNotAvailable?))
      && (rate.Success? ==>
            match Multiply(rate.value, amount)
            case Some(product) => r == Success(product)
            case None => r == Failure(DecimalFloatMismatch(MismatchMessage)))
  {
    var fetched := Fetch(env, base, date, Symbols(dest), transport);
    if fetched.Success? && fetched.value.status == 200 {
      var body := fetched.value.body;
      assert (client.forceDecimal || UseDecimal(client, amount)) == (client.forceDecimal || false);
      assert DecodeRates(client, body, UseDecimal(client, amount)) == DecodeRates(client, body, false);
      assert DecodedRate(client, body, dest, UseDecimal(client, amount)) == DecodedRate(client, body, dest, false);
    }
  }

  /**
   Only the default provider returns a response to inspect. Under `ratesapi`
   every call that reaches the provider ends in the HTTP layer's own exception
   when it raises on that provider's request, and otherwise in the
   `AttributeError` on `None`; under an unknown name nothing is sent and every
   such call ends in the `AttributeError`.
   */
  lemma OtherProvidersNeverAnswer(
    client: Client, env: Env, transport: Transport, base: string, dest: string, amount: Number,
    date: Option<CalendarDate>)
    requires ProviderName(env) != DefaultProvider
    ensures var expected :=
        if ProviderName(env) == "ratesapi"
        then RatesApiFailure(transport(RatesApiRequest(env, base, date, None)))
        else NoStatusCode;
      GetRates(client, env, transport, base, date) == Failure(expected)
    ensures base != dest ==>
      var expected :=
        if ProviderName(env) == "ratesapi"
        then RatesApiFailure(transport(RatesApiRequest(env, base, date, Symbols(dest))))
        else NoStatusCode;
      && GetRate(client, env, transport, base, dest, date) == Failure(expected)
      && Convert(client, env, transport, base, dest, amount, date) == Failure(expected)
  {
  }

  /** A provider that answers every request with status 200 and `{"rates": {"EUR": 0.85}}`. */
  function StubTransport(): Transport {
    (request: Request) => Delivered(Response(200, Body(Some(map["EUR" := FracLiteral(0.85)]))))
  }

  /**
   Against that provider, with a credential set, the rate for EUR is 0.85 as
   a `float`, and GBP, which the body lacks, is unavailable with a message
   naming the pair and `latest`.
   */
  lemma StubbedProviderExample()
    ensures GetRate(Client(false), map[AppIdVar := "key"], StubTransport(), "USD", "EUR", None)
      == Success(Num(Float, 0.85))
    ensures GetRate(Client(false), map[AppIdVar := "key"], StubTransport(), "USD", "GBP", None)
      == Failure(RatesNotAvailable(RateMessage("USD", "GBP", "latest")))
  {
  }
}

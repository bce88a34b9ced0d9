/**
 `ResponseProvider`: builds the GET request for the configured rate source,
 hands it to the HTTP layer and returns what that source's handler returns.
 Environment variables are an explicit map and the HTTP layer an explicit
 function from request to delivery.
 */
module ResponseProvider {
  import opened Wrappers
  import opened Dates
  import opened Numbers
  import opened Errors

  /** The process environment: variable name to value. */
  type Env = map<string, string>

  /** Query parameters of a request. */
  type Params = map<string, string>

  const SourceUrlVar: string := "FOREX_PYTHON_OPENXCHNG_SOURCE_URL"
  const AppIdVar: string := "FOREX_PYTHON_OPENXCHNG_APP_ID"
  const OpenExchangeDefaultUrl: string := "https://openexchangerates.org/api/"
  const RatesApiDefaultUrl: string := "https://ratesapi.io/api/"

  /** `os.getenv(key, default)`. */
  function GetEnv(env: Env, key: string, default: string): string {
    if key in env then env[key] else default
  }

  datatype Request = Request(url: string, params: Params)

  /** A decoded response body: its `rates` member, when it has one. */
  datatype Body = Body(rates: Option<map<string, Literal>>)

  datatype Response = Response(status: int, body: Body)

  /** What one GET yields: a response, or the exception the HTTP layer raised. */
  datatype Delivery = Delivered(response: Response) | Raised(reason: string)

  type Transport = Request -> Delivery

  /** The caller's extra parameters; `None` and `{}` both leave the payload alone. */
  function CallerParams(params: Option<Params>): Params {
    match params
    case None => map[]
    case Some(p) => p
  }

  /** `if not app_id`: the credential counts only when set and non-empty. */
  predicate HasAppId(env: Env) {
    AppIdVar in env && env[AppIdVar] != ""
  }

  /** The path segment a dated openexchangerates request inserts before the date. */
  const HistoricalSegment: string := "historical/"

  /** The suffix every openexchangerates URL ends with. */
  const JsonSuffix: string := ".json"

  /** Splits a URL built on `source` back into its date: the partner of the URL construction below. */
  function ParseOpenExchangeUrl(source: string, url: string): Option<Option<CalendarDate>> {
    if |source| <= |url| && url[..|source|] == source then
      var rest := url[|source|..];
      var dateStart := |HistoricalSegment|;
      var dateEnd := dateStart + DateLength;
      if rest == "latest" + JsonSuffix then Some(None)
      else if |rest| == dateEnd + |JsonSuffix| && rest[..dateStart] == HistoricalSegment
              && rest[dateEnd..] == JsonSuffix then
        match ParseDate(rest[dateStart..dateEnd])
        case Some(d) => Some(Some(d))
        case None => None
      else None
    else None
  }

  /** Every URL the parser accepts is rebuilt exactly from its source prefix and date. */
  lemma OpenExchangeUrlOfParse(source: string, url: string)
    requires ParseOpenExchangeUrl(source, url).Some?
    ensures var date := ParseOpenExchangeUrl(source, url).value;
      url == source + (if date.Some? then HistoricalSegment else "") + DateString(date) + JsonSuffix
  {
    var rest := url[|source|..];
    var dateStart := |HistoricalSegment|;
    var dateEnd := dateStart + DateLength;
    assert url == source + rest;
    if rest != "latest" + JsonSuffix {
      FormatParsedDate(rest[dateStart..dateEnd]);
      assert rest == rest[..dateStart] + rest[dateStart..dateEnd] + rest[dateEnd..];
    }
  }

  /**
   The request `provide_openexchangerates` sends: credential check first, then
   `historical/` exactly when a date is given, the date segment and `.json`;
   the payload is `{app_id, base}` updated with the caller's parameters.
   */
  function OpenExchangeRequest(env: Env, base: string, date: Option<CalendarDate>, params: Option<Params>)
    : (r: Result<Request, Error>)
    ensures r.Failure? <==> !HasAppId(env)
    ensures r.Failure? ==> r.error == AppIdNotAvailable
    ensures r.Success? ==>
      ParseOpenExchangeUrl(GetEnv(env, SourceUrlVar, OpenExchangeDefaultUrl), r.value.url) == Some(date)
    ensures r.Success? ==> r.value.params.Keys == {"app_id", "base"} + CallerParams(params).Keys
    ensures r.Success? ==>
      forall k :: k in CallerParams(params) ==> r.value.params[k] == CallerParams(params)[k]
    ensures r.Success? && "app_id" !in CallerParams(params) ==> r.value.params["app_id"] == env[AppIdVar]
    ensures r.Success? && "base" !in CallerParams(params) ==> r.value.params["base"] == base
  {
    var sourceUrl := GetEnv(env, SourceUrlVar, OpenExchangeDefaultUrl);
    if !HasAppId(env) then Failure(AppIdNotAvailable)
    else
      var dateText := DateString(date);
      var url := sourceUrl + (if date.Some? then HistoricalSegment else "") + dateText + JsonSuffix;
      var payload := map["app_id" := env[AppIdVar], "base" := base];
      var merged := if params.Some? && params.value != map[] then payload + params.value else payload;
      assert url[..|sourceUrl|] == sourceUrl;
      assert url[|sourceUrl|..] == (if date.Some? then HistoricalSegment else "") + dateText + JsonSuffix;
      Success(Request(url, merged))
  }

  /** `provide_openexchangerates`: the response to the request above, or the exception on the way. */
  function ProvideOpenExchangeRates(
    env: Env, base: string, date: Option<CalendarDate>, params: Option<Params>, transport: Transport)
    : (r: Result<Response, Error>)
    ensures r.Failure? && r.error == AppIdNotAvailable <==> !HasAppId(env)
    ensures r.Success? ==>
      HasAppId(env) && transport(OpenExchangeRequest(env, base, date, params).value) == Delivered(r.value)
    ensures r.Failure? && HasAppId(env) ==>
      && r.error.TransportError?
      && transport(OpenExchangeRequest(env, base, date, params).value) == Raised(r.error.reason)
  {
    var request :- OpenExchangeRequest(env, base, date, params);
    match transport(request)
    case Delivered(response) => Success(response)
    case Raised(reason) => Failure(TransportError(reason))
  }

  /**
   The request `provide_ratesapi` sends. The code updates the payload with
   itself, so the caller's parameters never reach it; the URL reads the same
   environment variable as openexchangerates, with its own default.
   */
  function RatesApiRequest(env: Env, base: string, date: Option<CalendarDate>, params: Option<Params>)
    : (r: Request)
    ensures r.params.Keys == {"base", "rtype"}
    ensures r.params["base"] == base && r.params["rtype"] == "fpy"
    ensures var source := GetEnv(env, SourceUrlVar, RatesApiDefaultUrl);
      && |source| <= |r.url|
      && r.url[..|source|] == source
      && ParseDateString(r.url[|source|..]) == Some(date)
  {
    var dateText := DateString(date);
    var payload := map["base" := base, "rtype" := "fpy"];
    var merged := if params.Some? && params.value != map[] then payload + payload else payload;
    var url := GetEnv(env, SourceUrlVar, RatesApiDefaultUrl) + dateText;
    assert url[|GetEnv(env, SourceUrlVar, RatesApiDefaultUrl)|..] == dateText;
    Request(url, merged)
  }

  /** `provide_ratesapi`: sends its request and returns nothing, unless the HTTP layer raises. */
  function ProvideRatesApi(
    env: Env, base: string, date: Option<CalendarDate>, params: Option<Params>, transport: Transport)
    : (r: Result<Option<Response>, Error>)
    ensures r.Success? ==> r.value.None?
    ensures r.Failure? <==> transport(RatesApiRequest(env, base, date, params)).Raised?
    ensures r.Failure? ==> r.error == TransportError(transport(RatesApiRequest(env, base, date, params)).reason)
  {
    match transport(RatesApiRequest(env, base, date, params))
    case Delivered(_) => Success(None)
    case Raised(reason) => Failure(TransportError(reason))
  }

  /** The `provide_` handlers the class defines. */
  const Handlers: set<string> := {"provide_openexchangerates", "provide_ratesapi"}

  /** `hasattr(self, 'provide_' + provider)`. */
  predicate HasHandler(provider: string) {
    "provide_" + provider in Handlers
  }

  /** Exactly two provider names resolve to a handler. */
  lemma HandlerNames(provider: string)
    ensures HasHandler(provider) <==> provider == "openexchangerates" || provider == "ratesapi"
  {
    var name := "provide_" + provider;
    assert name[8..] == provider;
    if name == "provide_openexchangerates" {
      assert provider == "provide_openexchangerates"[8..];
    } else if name == "provide_ratesapi" {
      assert provider == "provide_ratesapi"[8..];
    }
  }

  /**
   `ResponseProvider.__call__`: runs `provide_<provider>` when it exists and
   returns its result; an unknown name sends nothing and returns `None`.
   */
  function Call(
    env: Env, base: string, provider: string, date: Option<CalendarDate>, params: Option<Params>,
    transport: Transport)
    : (r: Result<Option<Response>, Error>)
    ensures provider != "openexchangerates" && provider != "ratesapi" ==> r == Success(None)
    ensures r.Success? && r.value.Some? ==> provider == "openexchangerates" && HasAppId(env)
    ensures provider == "openexchangerates" ==>
      var answer := ProvideOpenExchangeRates(env, base, date, params, transport);
      && (r.Success? <==> answer.Success?)
      && (r.Success? ==> r.value == Some(answer.value))
      && (r.Failure? ==> r.error == answer.error)
    ensures provider == "ratesapi" ==> r == ProvideRatesApi(env, base, date, params, transport)
  {
    HandlerNames(provider);
    var handler := "provide_" + provider;
    if handler !in Handlers then Success(None)
    else if handler == "provide_openexchangerates" then
      match ProvideOpenExchangeRates(env, base, date, params, transport)
      case Success(response) => Success(Some(response))
      case Failure(e) => Failure(e)
    else
      ProvideRatesApi(env, base, date, params, transport)
  }
}

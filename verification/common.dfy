/** `Common`: the client's precision setting and the decoding of a response body. */
module Common {
  import opened Wrappers
  import opened Numbers
  import opened ResponseProvider

  /** A client as constructed: `CurrencyRates(force_decimal=...)`. */
  datatype Client = Client(forceDecimal: bool)

  /**
   `_decode_rates`: the `rates` member of the body, numbers decoded as
   `Decimal` when the client forces it or the call asks for it; a body
   without `rates` decodes to the empty map.
   */
  function DecodeRates(client: Client, body: Body, useDecimal: bool): (m: map<string, Number>)
    ensures body.rates.None? ==> m == map[]
    ensures body.rates.Some? ==> m.Keys == body.rates.value.Keys
    ensures body.rates.Some? ==> forall k :: k in m ==>
      && m[k].value == LiteralValue(body.rates.value[k])
      && (m[k].kind == Int <==> body.rates.value[k].IntLiteral?)
      && (m[k].kind == Dec <==> (client.forceDecimal || useDecimal) && body.rates.value[k].FracLiteral?)
  {
    match body.rates
    case None => map[]
    case Some(rates) => map k | k in rates :: DecodeNumber(rates[k], client.forceDecimal || useDecimal)
  }

  /** `_get_decoded_rate`: the decoded rate of one currency, `None` when it is not in the body. */
  function DecodedRate(client: Client, body: Body, dest: string, useDecimal: bool): (r: Option<Number>)
    ensures r.None? <==> body.rates.None? || dest !in body.rates.value
    ensures r.Some? ==> r.value == DecodeRates(client, body, useDecimal)[dest]
  {
    var rates := DecodeRates(client, body, useDecimal);
    if dest in rates then Some(rates[dest]) else None
  }

  /**
   Decoding the same body in float mode and in decimal mode yields the same
   currencies with the same values; only fractional rates change type, from
   `float` to `Decimal`.
   */
  lemma DecodeModesAgree(body: Body)
    ensures var f := DecodeRates(Client(false), body, false);
      var d := DecodeRates(Client(false), body, true);
      && f.Keys == d.Keys
      && forall k :: k in f ==>
        && f[k].value == d[k].value
        && (f[k].kind == Int <==> d[k].kind == Int)
        && (f[k].kind == Float <==> d[k].kind == Dec)
  {
  }
}

/** The exceptions the converter raises, as values. */
module Errors {

  datatype Error =
      /** `OpenexchangeAppIdNotAvailableError`: the openexchangerates credential is missing or empty. */
    | AppIdNotAvailable
      /** `RatesNotAvailableError` with its message. */
    | RatesNotAvailable(message: string)
      /** `DecimalFloatMismatchError` with its message. */
    | DecimalFloatMismatch(message: string)
      /**
       The `AttributeError` raised by reading `status_code` of `None`, which is
       what the provider call returns for an unknown provider name and for `ratesapi`.
       */
    | NoStatusCode
      /** An exception raised by the HTTP layer, propagated unchanged. */
    | TransportError(reason: string)

  const SourceNotReady: string := "Currency Rates Source Not Ready"

  const MismatchMessage: string :=
    "convert requires amount parameter is of type Decimal when force_decimal=True"

  /** The message `get_rate` raises when the pair has no usable rate. */
  function RateMessage(base: string, dest: string, dateText: string): string {
    "Currency Rate " + base + " => " + dest + " not available for Date " + dateText
  }

  /** The message `convert` raises when the pair has no usable rate. */
  function ConvertMessage(base: string, dest: string, dateText: string): string {
    "Currency " + base + " => " + dest + " rate not available for Date " + dateText + "."
  }
}

/** Vocabulary shared by the resolver and the crawler: days, prices, errors,
    rate providers, store keys and the record of provider queries. */
module Domain {

  /** A calendar day in UTC, counted in whole days. The service truncates every
      date to the start of its day, so a day number is all the orchestration sees. */
  type Day = int

  /** An exchange rate. The orchestration passes prices along and never computes on them. */
  type Price = real

  const EthId: string := "ETH"
  const UsdId: string := "USD"
  /** The provider name the resolver uses for every store read. */
  const Coingecko: string := "coingecko"

  datatype Option<T> = None | Some(value: T)

  /** The errors the core distinguishes. Errors coming from a provider or from the
      store are whatever the oracle says; `NotFound` is the store's sentinel. */
  datatype Error =
    | NotFound
    | Failure(message: string)
    | ParseError(input: string)
    | FutureDate(date: string)
    | AllProvidersFailed
    | RangeOrder
    | BadClock(input: string)
    | Wrapped(context: string, cause: Error)

  datatype Result<T> = Ok(value: T) | Err(error: Error)

  /** A rate provider: its name (the store's provider discriminator) and its
      answer for the ETH/USD rate of each day. */
  datatype Provider = Provider(name: string, rate: Day -> Result<Price>)

  /** A store key: (token, currency, provider name, day). */
  datatype Key = Key(token: string, currency: string, provider: string, day: Day)

  function EthUsdKey(provider: string, day: Day): Key
  {
    Key(EthId, UsdId, provider, day)
  }

  /** One call of `USDRate`: which provider (its position in the list) for which day. */
  datatype Query = Query(provider: nat, day: Day)
}

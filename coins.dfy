/** A tracked asset and its latest price in US dollars. */
module Coins {

  /** `coin.name` is the asset identifier ("bitcoin", ...); `coin.price` its price.
      Kotlin's `Float` is modelled as `real`: no rounding. */
  datatype Coin = Coin(name: string, price: real)
}

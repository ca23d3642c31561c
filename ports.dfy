/**
 * The capability a chain adapter offers the aggregator: `GetBalance(address) (float64, error)`.
 * Go dispatches through an interface value; here the capability is a datatype holding the
 * function, so the aggregator sees a provider only through what that call returns.
 */
module Ports {
  import opened Wrappers
  import opened Errors

  datatype CryptoProvider = CryptoProvider(getBalance: string -> Result<real, Error>)
}

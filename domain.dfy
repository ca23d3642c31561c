/** The request and result records shared by the aggregator and its callers. */
module Domain {
  import opened Wrappers

  /** One element of a batch request. */
  datatype BalanceRequest = BalanceRequest(cryptoSymbol: string, address: string, fiatSymbol: string)

  /**
   * A resolved balance. The wall-clock `Timestamp` of the record is not modelled;
   * `error` is the optional error string a failed batch slot carries.
   */
  datatype BalanceResult = BalanceResult(
    cryptoSymbol: string,
    address: string,
    cryptoBalance: real,
    fiatSymbol: string,
    fiatValue: real,
    exchangeRate: real,
    change24h: real,
    error: Option<string>)
}

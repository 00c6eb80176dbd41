/** Types and constants shared by the routes that talk to the exchange. */
module Exchange {

  /** Root of the exchange's REST API. */
  const ServerUrl: string := "https://api.upbit.com"

  /** The one market the trading route and the refresh job work on. */
  const Market: string := "KRW-BTC"

  /** The outcome of one outbound HTTP call: either the call raised (network
      error, timeout) or a status code and a decoded body came back. */
  datatype HttpReply<T> = Unreachable | Reply(status: int, body: T)

  /** One entry of the exchange's account list. The exchange reports both
      amounts as decimal strings. */
  datatype Account = Account(currency: string, balance: string, avgBuyPrice: string)

  /** The body of the account-list call: the list itself, some other JSON
      value (an error object, say) that is not a list of accounts, or a body
      that is not JSON at all, on which decoding raises. */
  datatype AccountsBody = Accounts(items: seq<Account>) | OtherJson | Undecodable
}

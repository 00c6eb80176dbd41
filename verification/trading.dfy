/** The `/trade` route: authenticated request headers and the buy / sell /
    hold dispatch that turns the account list and the current price into a
    limit order on KRW-BTC.

    The outbound calls are the fields of `Upstream`; JWT signing, SHA-512,
    URL encoding and Python's `str(float)` are the fields of `Primitives`;
    the uuid4 nonces are the fields of `Nonces`; `float()` on a decimal
    string is `parse`.
 */
module Trading {
  import opened Wrappers
  import opened Text
  import opened Exchange

  /** The API keys read from the environment. */
  datatype Keys = Keys(access: string, secret: string)

  /** Library operations the route calls but that are not modelled. */
  datatype Primitives = Primitives(
    urlencode: seq<(string, string)> -> string,
    sha512Hex: string -> string,
    jwtEncode: (map<string, string>, string) -> string,
    render: real -> string)

  /** A JWT payload, as the dict passed to `jwt.encode`. */
  type Payload = map<string, string>

  /** The payload of `create_jwt_token`: the access key and a fresh nonce. */
  function PlainPayload(keys: Keys, nonce: string): (p: Payload)
    ensures p.Keys == {"access_key", "nonce"}
    ensures p["access_key"] == keys.access && p["nonce"] == nonce
  {
    map["access_key" := keys.access, "nonce" := nonce]
  }

  /** The payload signed for a request with a query: the plain payload plus
      the SHA-512 hex digest of the URL-encoded query. */
  function HashedPayload(query: seq<(string, string)>, keys: Keys, nonce: string, prims: Primitives): (p: Payload)
    ensures p.Keys == {"access_key", "nonce", "query_hash", "query_hash_alg"}
    ensures p["access_key"] == keys.access && p["nonce"] == nonce
    ensures p["query_hash"] == prims.sha512Hex(prims.urlencode(query))
    ensures p["query_hash_alg"] == "SHA512"
  {
    PlainPayload(keys, nonce)["query_hash" := prims.sha512Hex(prims.urlencode(query))]
                             ["query_hash_alg" := "SHA512"]
  }

  /** A query counts only when it is present and non-empty (Python `if query:`). */
  predicate HasQuery(query: Option<seq<(string, string)>>) {
    query.Some? && |query.value| > 0
  }

  /** `get_headers`: a single bearer header. The token of `create_jwt_token`
      (with `plainNonce`) is replaced by a token over the hashed payload
      (with `hashedNonce`) exactly when there is a query. */
  function GetHeaders(query: Option<seq<(string, string)>>, keys: Keys,
                      plainNonce: string, hashedNonce: string, prims: Primitives): (h: map<string, string>)
    ensures h.Keys == {"Authorization"}
    ensures IsPrefix("Bearer ", h["Authorization"])
    ensures !HasQuery(query) ==>
      h["Authorization"] == "Bearer " + prims.jwtEncode(PlainPayload(keys, plainNonce), keys.secret)
    ensures HasQuery(query) ==>
      h["Authorization"] == "Bearer " + prims.jwtEncode(HashedPayload(query.value, keys, hashedNonce, prims), keys.secret)
  {
    var token := if HasQuery(query)
      then prims.jwtEncode(HashedPayload(query.value, keys, hashedNonce, prims), keys.secret)
      else prims.jwtEncode(PlainPayload(keys, plainNonce), keys.secret);
    map["Authorization" := "Bearer " + token]
  }

  /** The headers use exactly one of the two nonces, and a query enters
      them only through its URL encoding. */
  lemma HeadersUseOneNonce(query: Option<seq<(string, string)>>, other: Option<seq<(string, string)>>,
                           keys: Keys, n1: string, n2: string, m1: string, m2: string, prims: Primitives)
    ensures !HasQuery(query) ==> GetHeaders(query, keys, n1, n2, prims) == GetHeaders(query, keys, n1, m2, prims)
    ensures HasQuery(query) ==> GetHeaders(query, keys, n1, n2, prims) == GetHeaders(query, keys, m1, n2, prims)
    ensures HasQuery(query) && HasQuery(other) && prims.urlencode(query.value) == prims.urlencode(other.value) ==>
      GetHeaders(query, keys, n1, n2, prims) == GetHeaders(other, keys, n1, n2, prims)
  {
    if HasQuery(query) && HasQuery(other) && prims.urlencode(query.value) == prims.urlencode(other.value) {
      assert HashedPayload(query.value, keys, n2, prims) == HashedPayload(other.value, keys, n2, prims);
    }
  }

  /** A balance looked up with `next(..., 0)`: the `balance` text of the
      first matching account, or the default integer 0. */
  datatype Amount = Reported(text: string) | DefaultZero

  /** The first account holding `currency`. */
  function FirstBalance(accounts: seq<Account>, currency: string): (a: Amount)
    ensures a.DefaultZero? <==> forall i :: 0 <= i < |accounts| ==> accounts[i].currency != currency
    ensures a.Reported? ==>
      exists i :: && 0 <= i < |accounts| && accounts[i].currency == currency
                  && accounts[i].balance == a.text
                  && forall j :: 0 <= j < i ==> accounts[j].currency != currency
  {
    if |accounts| == 0 then DefaultZero
    else if accounts[0].currency == currency then Reported(accounts[0].balance)
    else
      var rest := FirstBalance(accounts[1..], currency);
      assert forall i :: 1 <= i < |accounts| ==> accounts[i] == accounts[1..][i - 1];
      rest
  }

  /** The index of the first account holding `currency`, when there is one:
      the reference definition `FirstBalance` is checked against. */
  lemma FirstBalanceIsFirstMatch(accounts: seq<Account>, currency: string, i: int)
    requires 0 <= i < |accounts| && accounts[i].currency == currency
    requires forall j :: 0 <= j < i ==> accounts[j].currency != currency
    ensures FirstBalance(accounts, currency) == Reported(accounts[i].balance)
  {
    var a := FirstBalance(accounts, currency);
    var k :| 0 <= k < |accounts| && accounts[k].currency == currency
      && accounts[k].balance == a.text
      && forall j :: 0 <= j < k ==> accounts[j].currency != currency;
    assert k == i;
  }

  /** `float(amount)`: the default 0 converts to 0.0. */
  function AmountValue(a: Amount, parse: string -> Option<real>): (v: Option<real>)
    ensures a.DefaultZero? ==> v == Some(0.0)
    ensures a.Reported? ==> v == parse(a.text)
  {
    match a
    case DefaultZero => Some(0.0)
    case Reported(t) => parse(t)
  }

  /** The ticker body: the list of price entries (their `trade_price`), or
      anything else, on which the lookup raises. */
  datatype TickerBody = Tickers(tradePrices: seq<real>) | NotTickers

  /** A `volume` in the order query: a float rendered with `str`, the
      balance text as the exchange reported it, or the default integer 0. */
  datatype Volume = Rendered(x: real) | Verbatim(s: string) | Zero

  /** The order query, field by field in the order the route builds it. */
  datatype OrderQuery = OrderQuery(market: string, side: string, volume: Volume, price: real, ordType: string)

  /** The query as `urlencode` sees it. */
  function Pairs(q: OrderQuery, prims: Primitives): (ps: seq<(string, string)>)
    ensures |ps| == 5
    ensures ps[0] == ("market", q.market) && ps[1] == ("side", q.side)
    ensures ps[2] == ("volume", match q.volume
                                case Rendered(x) => prims.render(x)
                                case Verbatim(s) => s
                                case Zero => "0")
    ensures ps[3] == ("price", prims.render(q.price)) && ps[4] == ("ord_type", q.ordType)
  {
    var v := match q.volume
      case Rendered(x) => prims.render(x)
      case Verbatim(s) => s
      case Zero => "0";
    [("market", q.market), ("side", q.side), ("volume", v), ("price", prims.render(q.price)), ("ord_type", q.ordType)]
  }

  const OrdersUrl: string := ServerUrl + "/v1/orders"

  /** The order POST: where it goes, the query, and the signed headers. */
  datatype OrderRequest = OrderRequest(url: string, query: OrderQuery, headers: map<string, string>)

  /** The three uuid4 nonces one buy or sell draws: one for the account
      call, then two for the order call, of which the first is discarded. */
  datatype Nonces = Nonces(account: string, orderDiscarded: string, order: string)

  /** The exchange as the route sees it. The order reply body is None when
      it is not JSON. */
  datatype Upstream<J> = Upstream(
    accounts: map<string, string> -> HttpReply<AccountsBody>,
    ticker: HttpReply<TickerBody>,
    orders: OrderRequest -> HttpReply<Option<J>>)

  /** The request body of `/trade`: a JSON object with an optional
      `action`, or anything else (no body, not JSON, not an object). */
  datatype TradeBody = Action(action: Option<string>) | NoObject

  /** What raised inside the route's `try`. */
  datatype TradeError =
    | BadBody             // `data.get` on something that is not a dict
    | RequestFailed       // an outbound call raised
    | AccountsUnreadable  // the account body is not a list of accounts
    | NoTicker            // `[0]['trade_price']` on anything but a non-empty list
    | UnparsableBalance   // `float()` on the KRW balance text
    | ZeroPrice           // division by a zero price
    | UndecodableOrder    // the order reply is not JSON

  /** The outcome of `/trade`. `NoResponse` is a view that returns None,
      which the web framework turns into its own error page. */
  datatype TradeOutcome<J> =
    | Held
    | Placed(order: OrderRequest, data: J)
    | Failed(error: TradeError)
    | NoResponse

  const HoldMessage: string := "포지션 유지"
  const BuyMessage: string := "매수 주문 완료"
  const SellMessage: string := "매도 주문 완료"

  /** The HTTP status the route answers with, when it answers. */
  function StatusOf<J>(o: TradeOutcome<J>): (s: Option<int>)
    ensures s == Some(500) <==> o.Failed?
    ensures s == Some(200) <==> o.Held? || o.Placed?
    ensures s.None? <==> o.NoResponse?
  {
    match o
    case Held => Some(200)
    case Placed(_, _) => Some(200)
    case Failed(_) => Some(500)
    case NoResponse => None
  }

  /** The `message` field of a 200 answer, by the side of the order. */
  function MessageOf<J>(o: TradeOutcome<J>): (m: Option<string>)
    ensures m.Some? <==> o.Held? || o.Placed?
    ensures o.Held? ==> m == Some(HoldMessage)
    ensures o.Placed? && o.order.query.side == "bid" ==> m == Some(BuyMessage)
    ensures o.Placed? && o.order.query.side == "ask" ==> m == Some(SellMessage)
  {
    match o
    case Held => Some(HoldMessage)
    case Placed(order, _) => Some(if order.query.side == "bid" then BuyMessage else SellMessage)
    case _ => None
  }

  /** Reads the account list with the unhashed header. */
  function FetchAccounts<J>(up: Upstream<J>, keys: Keys, nonces: Nonces, prims: Primitives): (r: Option<seq<Account>>)
    ensures r.Some? <==> exists items :: AccountsRead(up, keys, nonces, prims, items)
    ensures r.Some? ==> AccountsRead(up, keys, nonces, prims, r.value)
  {
    var reply := up.accounts(GetHeaders(None, keys, nonces.account, nonces.account, prims));
    if reply.Reply? && reply.body.Accounts? then
      assert AccountsRead(up, keys, nonces, prims, reply.body.items);
      Some(reply.body.items)
    else None
  }

  /** The error of a failed account read. */
  function AccountsError<J>(up: Upstream<J>, keys: Keys, nonces: Nonces, prims: Primitives): TradeError {
    if up.accounts(GetHeaders(None, keys, nonces.account, nonces.account, prims)).Unreachable?
    then RequestFailed else AccountsUnreadable
  }

  /** The current price: the first ticker entry's `trade_price`. */
  function CurrentPrice(ticker: HttpReply<TickerBody>): (r: Option<real>)
    ensures r.Some? <==> ticker.Reply? && ticker.body.Tickers? && |ticker.body.tradePrices| > 0
    ensures r.Some? ==> r.value == ticker.body.tradePrices[0]
  {
    match ticker
    case Reply(_, Tickers(prices)) => if |prices| == 0 then None else Some(prices[0])
    case _ => None
  }

  function TickerError(ticker: HttpReply<TickerBody>): TradeError {
    if ticker.Unreachable? then RequestFailed else NoTicker
  }

  /** Signs and posts an order query, then decodes the reply. */
  function PlaceOrder<J>(q: OrderQuery, up: Upstream<J>, keys: Keys, nonces: Nonces, prims: Primitives): (o: TradeOutcome<J>)
    ensures o.Placed? || o.Failed?
    ensures o.Placed? ==> o.order.query == q && o.order.url == OrdersUrl
    ensures var req := OrderRequest(OrdersUrl, q, GetHeaders(Some(Pairs(q, prims)), keys, nonces.orderDiscarded, nonces.order, prims));
      && (o.Placed? <==> up.orders(req).Reply? && up.orders(req).body.Some?)
      && (o.Placed? ==> o.order == req && Some(o.data) == up.orders(req).body)
      && (o.Failed? ==> o.error == (if up.orders(req).Unreachable? then RequestFailed else UndecodableOrder))
  {
    var req := OrderRequest(OrdersUrl, q, GetHeaders(Some(Pairs(q, prims)), keys, nonces.orderDiscarded, nonces.order, prims));
    match up.orders(req)
    case Unreachable => Failed(RequestFailed)
    case Reply(_, body) => if body.None? then Failed(UndecodableOrder) else Placed(req, body.value)
  }

  /** The fee-adjusted buy volume: the KRW amount over the price, less 0.05%. */
  function BuyVolume(krw: real, price: real): real
    requires price != 0.0
  {
    krw / price * 0.9995
  }

  /** A buy order spends 99.95% of the KRW balance at the limit price. */
  lemma BuyVolumeNotional(krw: real, price: real)
    requires price != 0.0
    ensures price * BuyVolume(krw, price) == 0.9995 * krw
  {
    assert price * (krw / price) == krw;
  }

  /** The buy branch. */
  function Buy<J>(up: Upstream<J>, keys: Keys, nonces: Nonces, parse: string -> Option<real>, prims: Primitives)
    : (o: TradeOutcome<J>)
    ensures o.Placed? || o.Failed?
    ensures o.Placed? ==>
      && o.order.query.side == "bid" && o.order.query.market == Market
      && o.order.query.ordType == "limit" && o.order.query.volume.Rendered?
    ensures o.Failed? ==> o.error != BadBody
  {
    var accounts := FetchAccounts(up, keys, nonces, prims);
    if accounts.None? then Failed(AccountsError(up, keys, nonces, prims))
    else
      var krw := FirstBalance(accounts.value, "KRW");
      var price := CurrentPrice(up.ticker);
      if price.None? then Failed(TickerError(up.ticker))
      else
        var amount := AmountValue(krw, parse);
        if amount.None? then Failed(UnparsableBalance)
        else if price.value == 0.0 then Failed(ZeroPrice)
        else
          PlaceOrder(OrderQuery(Market, "bid", Rendered(BuyVolume(amount.value, price.value)), price.value, "limit"),
                     up, keys, nonces, prims)
  }

  /** The sell branch: the BTC balance text goes into the order as it is. */
  function Sell<J>(up: Upstream<J>, keys: Keys, nonces: Nonces, prims: Primitives): (o: TradeOutcome<J>)
    ensures o.Placed? || o.Failed?
    ensures o.Placed? ==>
      && o.order.query.side == "ask" && o.order.query.market == Market
      && o.order.query.ordType == "limit" && !o.order.query.volume.Rendered?
    ensures o.Failed? ==> o.error !in {BadBody, UnparsableBalance, ZeroPrice}
  {
    var accounts := FetchAccounts(up, keys, nonces, prims);
    if accounts.None? then Failed(AccountsError(up, keys, nonces, prims))
    else
      var btc := FirstBalance(accounts.value, "BTC");
      var price := CurrentPrice(up.ticker);
      if price.None? then Failed(TickerError(up.ticker))
      else
        var volume := if btc.Reported? then Verbatim(btc.text) else Zero;
        PlaceOrder(OrderQuery(Market, "ask", volume, price.value, "limit"), up, keys, nonces, prims)
  }

  /** The `/trade` route. */
  function Trade<J>(body: TradeBody, up: Upstream<J>, keys: Keys, nonces: Nonces,
                    parse: string -> Option<real>, prims: Primitives): (o: TradeOutcome<J>)
    ensures o.NoResponse? <==> body.Action? && body.action !in [Some("hold"), Some("buy"), Some("sell")]
    ensures o.Held? <==> body == Action(Some("hold"))
    ensures body.NoObject? ==> o == Failed(BadBody)
    ensures o.Placed? ==>
      o.order.url == OrdersUrl && o.order.query.market == Market && o.order.query.ordType == "limit"
    ensures o.Placed? ==> (o.order.query.side == "bid" <==> body == Action(Some("buy")))
    ensures o.Placed? ==> (o.order.query.side == "ask" <==> body == Action(Some("sell")))
  {
    match body
    case NoObject => Failed(BadBody)
    case Action(action) =>
      if action == Some("hold") then Held
      else if action == Some("buy") then Buy(up, keys, nonces, parse, prims)
      else if action == Some("sell") then Sell(up, keys, nonces, prims)
      else NoResponse
  }

  /** Holding answers 200 without consulting the exchange. */
  lemma HoldConsultsNothing<J>(up: Upstream<J>, other: Upstream<J>, keys: Keys, nonces: Nonces,
                               parse: string -> Option<real>, prims: Primitives)
    ensures Trade(Action(Some("hold")), up, keys, nonces, parse, prims)
         == Trade(Action(Some("hold")), other, keys, nonces, parse, prims)
    ensures StatusOf(Trade(Action(Some("hold")), up, keys, nonces, parse, prims)) == Some(200)
    ensures MessageOf(Trade(Action(Some("hold")), up, keys, nonces, parse, prims)) == Some(HoldMessage)
  {
  }

  /** The branch read back `items` as the account list, with the unhashed header. */
  predicate AccountsRead<J>(up: Upstream<J>, keys: Keys, nonces: Nonces, prims: Primitives, items: seq<Account>) {
    var reply := up.accounts(GetHeaders(None, keys, nonces.account, nonces.account, prims));
    reply.Reply? && reply.body == Accounts(items)
  }

  /** A placed buy order bids, at the first ticker price, the buy volume of
      the KRW amount of the first KRW account (0 without one); by
      `BuyVolumeNotional` that spends 99.95% of the amount. */
  lemma BuyPlacedOrder<J>(up: Upstream<J>, keys: Keys, nonces: Nonces, parse: string -> Option<real>, prims: Primitives)
    requires Trade(Action(Some("buy")), up, keys, nonces, parse, prims).Placed?
    ensures var q := Trade(Action(Some("buy")), up, keys, nonces, parse, prims).order.query;
      && q.side == "bid" && q.volume.Rendered?
      && up.ticker.Reply? && up.ticker.body.Tickers? && |up.ticker.body.tradePrices| > 0
      && q.price == up.ticker.body.tradePrices[0] && q.price != 0.0
      && exists items ::
           && AccountsRead(up, keys, nonces, prims, items)
           && AmountValue(FirstBalance(items, "KRW"), parse).Some?
           && q.volume == Rendered(BuyVolume(AmountValue(FirstBalance(items, "KRW"), parse).value, q.price))
  {
    var o := Trade(Action(Some("buy")), up, keys, nonces, parse, prims);
    assert o == Buy(up, keys, nonces, parse, prims);
    var accounts := FetchAccounts(up, keys, nonces, prims);
    assert accounts.Some?;
    var items := accounts.value;
    assert AccountsRead(up, keys, nonces, prims, items);
    var amount := AmountValue(FirstBalance(items, "KRW"), parse);
    var price := CurrentPrice(up.ticker);
    assert price.Some? && amount.Some? && price.value != 0.0;
    var q := OrderQuery(Market, "bid", Rendered(BuyVolume(amount.value, price.value)), price.value, "limit");
    assert o == PlaceOrder(q, up, keys, nonces, prims);
    assert o.order.query == q;
  }

  /** Where a buy stops: an unreadable account list fails it whatever the
      ticker says, a zero price fails it once the amount converts, and
      without a KRW account the order volume is zero. */
  lemma BuyFailures<J>(up: Upstream<J>, keys: Keys, nonces: Nonces, parse: string -> Option<real>, prims: Primitives,
                       items: seq<Account>)
    ensures var o := Trade(Action(Some("buy")), up, keys, nonces, parse, prims);
      && ((forall its :: !AccountsRead(up, keys, nonces, prims, its)) ==> o.Failed?)
      && ((&& AccountsRead(up, keys, nonces, prims, items)
           && AmountValue(FirstBalance(items, "KRW"), parse).Some?
           && up.ticker.Reply? && up.ticker.body.Tickers? && |up.ticker.body.tradePrices| > 0
           && up.ticker.body.tradePrices[0] == 0.0)
          ==> o == Failed(ZeroPrice))
      && ((&& AccountsRead(up, keys, nonces, prims, items)
           && (forall i :: 0 <= i < |items| ==> items[i].currency != "KRW")
           && o.Placed?)
          ==> o.order.query.volume == Rendered(0.0))
  {
    if (forall its :: !AccountsRead(up, keys, nonces, prims, its)) {
      assert FetchAccounts(up, keys, nonces, prims).None?;
    }
  }

  /** A placed sell order asks, at the first ticker price (zero included),
      the first BTC account's balance text unconverted, or the integer 0
      without a BTC account. */
  lemma SellPlacedOrder<J>(up: Upstream<J>, keys: Keys, nonces: Nonces, parse: string -> Option<real>, prims: Primitives)
    requires Trade(Action(Some("sell")), up, keys, nonces, parse, prims).Placed?
    ensures var q := Trade(Action(Some("sell")), up, keys, nonces, parse, prims).order.query;
      && q.side == "ask"
      && up.ticker.Reply? && up.ticker.body.Tickers? && |up.ticker.body.tradePrices| > 0
      && q.price == up.ticker.body.tradePrices[0]
      && exists items ::
           && AccountsRead(up, keys, nonces, prims, items)
           && q.volume == (match FirstBalance(items, "BTC")
                           case Reported(t) => Verbatim(t)
                           case DefaultZero => Zero)
  {
    var accounts := FetchAccounts(up, keys, nonces, prims);
    assert AccountsRead(up, keys, nonces, prims, accounts.value);
  }

  /** A sell never converts the balance, so it cannot fail on it. */
  lemma SellIgnoresParse<J>(up: Upstream<J>, keys: Keys, nonces: Nonces,
                            parse: string -> Option<real>, other: string -> Option<real>, prims: Primitives)
    ensures Trade(Action(Some("sell")), up, keys, nonces, parse, prims)
         == Trade(Action(Some("sell")), up, keys, nonces, other, prims)
  {
  }

  /** Every order is signed over the hash of its own query with the second
      order nonce. */
  lemma OrderHeadersHashed<J>(body: TradeBody, up: Upstream<J>, keys: Keys, nonces: Nonces,
                              parse: string -> Option<real>, prims: Primitives)
    requires Trade(body, up, keys, nonces, parse, prims).Placed?
    ensures var req := Trade(body, up, keys, nonces, parse, prims).order;
      var payload := HashedPayload(Pairs(req.query, prims), keys, nonces.order, prims);
      && req.headers == map["Authorization" := "Bearer " + prims.jwtEncode(payload, keys.secret)]
      && payload["query_hash"] == prims.sha512Hex(prims.urlencode(Pairs(req.query, prims)))
  {
  }
}

/** The read routes that proxy the exchange: chart candles, the account
    balance, and the profit/loss summary built from it. Each route wraps
    what its collaborator returned in the `Reply` envelope.

    Outbound calls are parameters: the chart call is a function from the
    request to its HTTP reply, the account call is its reply, and Python's
    `float()` on the exchange's decimal strings is `parse`.
 */
module Connect {
  import opened Wrappers
  import opened Text
  import opened Exchange
  import Crawling

  const CandlesBase: string := "https://api.upbit.com/v1/candles"

  /** The query-string defaults of the chart route. */
  const DefaultTicker: string := "KRW-BTC"
  const DefaultInterval: string := "minute60"
  const DefaultCount: int := 24

  /** The route errors, as the routes report them. */
  const ChartError: string := "차트 데이터 조회 실패"
  const BalanceError: string := "잔고 조회 실패"
  const ProfitLossError: string := "수익/손실 조회 실패"

  /** The named periods the chart route recognises besides minutes. */
  predicate IsDays(interval: string) { interval in ["day", "days"] }
  predicate IsWeeks(interval: string) { interval in ["week", "weeks"] }
  predicate IsMonths(interval: string) { interval in ["month", "months"] }

  /** An interval the chart route does not recognise at all. */
  predicate Unrecognised(interval: string) {
    !Contains(interval, "minute") && !IsDays(interval) && !IsWeeks(interval) && !IsMonths(interval)
  }

  /** The interval-to-endpoint mapping of `get_chart_data`. The substring
      test for "minute" comes first; then exact matches for the named
      periods; anything else falls back to hourly candles. */
  function ChartUrl(interval: string): (url: string)
    ensures IsPrefix(CandlesBase, url)
  {
    if Contains(interval, "minute") then
      CandlesBase + "/minutes/" + Replace(interval, "minute", "")
    else if IsDays(interval) then
      CandlesBase + "/days"
    else if IsWeeks(interval) then
      CandlesBase + "/weeks"
    else if IsMonths(interval) then
      CandlesBase + "/months"
    else
      CandlesBase + "/minutes/60"
  }

  /** No named period contains "minute", so the substring test never
      shadows an exact match. */
  lemma NamedPeriodsHaveNoMinute(interval: string)
    requires IsDays(interval) || IsWeeks(interval) || IsMonths(interval)
    ensures !Contains(interval, "minute")
  {
    if interval == "months" {
      assert interval[1] != "minute"[1];
    }
  }

  /** Any interval containing "minute" maps to the minutes endpoint with
      every occurrence removed in one pass, which is `"".join` of the
      interval split on "minute". */
  lemma ChartUrlMinutes(interval: string)
    requires Contains(interval, "minute")
    ensures ChartUrl(interval) == CandlesBase + "/minutes/" + Join(Split(interval, "minute"), "")
  {
    ReplaceIsJoinSplit(interval, "minute", "");
  }

  /** Each named endpoint is produced by exactly its two spellings. */
  lemma ChartUrlPeriods(interval: string)
    ensures ChartUrl(interval) == CandlesBase + "/days" <==> IsDays(interval)
    ensures ChartUrl(interval) == CandlesBase + "/weeks" <==> IsWeeks(interval)
    ensures ChartUrl(interval) == CandlesBase + "/months" <==> IsMonths(interval)
  {
    var url := ChartUrl(interval);
    var b := |CandlesBase|;
    if IsDays(interval) || IsWeeks(interval) || IsMonths(interval) {
      NamedPeriodsHaveNoMinute(interval);
    }
    if Contains(interval, "minute") {
      assert url[b + 1] == 'm' && url[b + 2] == 'i';
    } else if !IsDays(interval) && !IsWeeks(interval) && !IsMonths(interval) {
      assert url[b + 1] == 'm' && url[b + 2] == 'i';
    }
    assert (CandlesBase + "/days")[b + 1] == 'd';
    assert (CandlesBase + "/weeks")[b + 1] == 'w';
    assert (CandlesBase + "/months")[b + 1] == 'm' && (CandlesBase + "/months")[b + 2] == 'o';
  }

  lemma DefaultIntervalIsHourly()
    ensures ChartUrl(DefaultInterval) == CandlesBase + "/minutes/60"
  {
    var s := "minute60";
    assert OccursAt(s, "minute", 0);
    assert IsPrefix("minute", s) && s[6..] == "60";
    assert Replace("60", "minute", "") == "60";
  }

  /** The default interval and every unrecognised interval give the same
      endpoint; the hourly endpoint is reached by exactly those and by
      minute intervals that reduce to "60". */
  lemma ChartUrlFallback(interval: string)
    ensures Unrecognised(interval) ==> ChartUrl(interval) == ChartUrl(DefaultInterval)
    ensures ChartUrl(interval) == CandlesBase + "/minutes/60" <==>
      Unrecognised(interval)
      || (Contains(interval, "minute") && Replace(interval, "minute", "") == "60")
  {
    DefaultIntervalIsHourly();
    var prefix := CandlesBase + "/minutes/";
    if Contains(interval, "minute") {
      var x := Replace(interval, "minute", "");
      assert (prefix + x)[|prefix|..] == x;
      assert (prefix + "60")[|prefix|..] == "60";
    } else if !Unrecognised(interval) {
      var b := |CandlesBase|;
      assert |ChartUrl(interval)| <= b + 7;
    }
  }

  /** The refresh job's candle endpoint is the one the chart route builds
      for the interval "minute10". */
  lemma RefreshJobUsesTenMinuteCandles()
    ensures Crawling.CandleUrl == ChartUrl("minute10")
  {
    var s := "minute10";
    assert OccursAt(s, "minute", 0);
    assert IsPrefix("minute", s) && s[6..] == "10";
    assert Replace("10", "minute", "") == "10";
  }

  /** The candle request `get_chart_data` sends. */
  datatype ChartRequest = ChartRequest(url: string, market: string, count: int)

  /** `get_chart_data`: the decoded body of a 200 reply, None for any other
      status, a body that does not decode, or a failed call. The upstream
      reply body is None when it is not JSON. */
  function GetChartData<J>(ticker: string, interval: string, count: int,
                           upstream: ChartRequest -> HttpReply<Option<J>>): (r: Option<J>)
    ensures var reply := upstream(ChartRequest(ChartUrl(interval), ticker, count));
      && (r.Some? <==> reply.Reply? && reply.status == 200 && reply.body.Some?)
      && (r.Some? ==> r == reply.body)
  {
    match upstream(ChartRequest(ChartUrl(interval), ticker, count))
    case Reply(200, body) => body
    case _ => None
  }

  /** The query-string arguments of the chart route, absent when missing. */
  datatype ChartQuery = ChartQuery(ticker: Option<string>, interval: Option<string>, count: Option<int>)

  /** The `/chart` route: missing arguments take their defaults, and the
      envelope reports success exactly when the upstream call answered 200. */
  function ChartRoute<J>(q: ChartQuery, upstream: ChartRequest -> HttpReply<Option<J>>): (r: Reply<J>)
    ensures
      var req := ChartRequest(ChartUrl(q.interval.GetOr(DefaultInterval)),
                              q.ticker.GetOr(DefaultTicker), q.count.GetOr(DefaultCount));
      && (r.Success? <==> upstream(req).Reply? && upstream(req).status == 200 && upstream(req).body.Some?)
      && (r.Success? ==> Some(r.data) == upstream(req).body)
      && (r.Failure? ==> r.error == ChartError)
  {
    var data := GetChartData(q.ticker.GetOr(DefaultTicker), q.interval.GetOr(DefaultInterval),
                             q.count.GetOr(DefaultCount), upstream);
    Wrap(data, ChartError)
  }

  /** With no arguments the route asks for 24 hourly KRW-BTC candles. */
  lemma ChartRouteDefaults<J>(upstream: ChartRequest -> HttpReply<Option<J>>)
    ensures var r := ChartRoute(ChartQuery(None, None, None), upstream);
      var reply := upstream(ChartRequest(CandlesBase + "/minutes/60", Market, 24));
      r.Success? <==> reply.Reply? && reply.status == 200 && reply.body.Some?
  {
    DefaultIntervalIsHourly();
  }

  /** `get_balance`: the decoded account body whatever the status code;
      None when the call raises or the body is not JSON. */
  function GetBalance(reply: HttpReply<AccountsBody>): (r: Option<AccountsBody>)
    ensures r.Some? <==> reply.Reply? && !reply.body.Undecodable?
    ensures r.Some? ==> r.value == reply.body
  {
    match reply
    case Unreachable => None
    case Reply(_, body) => if body.Undecodable? then None else Some(body)
  }

  /** The `/balance` route. A reply with an error status still counts as
      data, because `get_balance` does not look at the status. */
  function BalanceRoute(reply: HttpReply<AccountsBody>): (r: Reply<AccountsBody>)
    ensures r.Success? <==> reply.Reply? && !reply.body.Undecodable?
    ensures r.Success? ==> r.data == reply.body
    ensures r.Failure? ==> r.error == BalanceError
  {
    Wrap(GetBalance(reply), BalanceError)
  }

  /** Every account's two amounts convert with `float()`. */
  predicate AllParse(items: seq<Account>, parse: string -> Option<real>) {
    forall i :: 0 <= i < |items| ==>
      parse(items[i].balance).Some? && parse(items[i].avgBuyPrice).Some?
  }

  /** balance × avg_buy_price of one account. */
  function HoldingValue(a: Account, parse: string -> Option<real>): real
    requires parse(a.balance).Some? && parse(a.avgBuyPrice).Some?
  {
    parse(a.balance).value * parse(a.avgBuyPrice).value
  }

  /** The left-to-right sum of the holding values, as `sum()` adds them. */
  function Holdings(items: seq<Account>, parse: string -> Option<real>): (total: real)
    requires AllParse(items, parse)
    ensures (forall i :: 0 <= i < |items| ==> HoldingValue(items[i], parse) == 0.0) ==> total == 0.0
    ensures (forall i :: 0 <= i < |items| ==> HoldingValue(items[i], parse) >= 0.0) ==> total >= 0.0
  {
    if |items| == 0 then 0.0
    else Holdings(items[..|items| - 1], parse) + HoldingValue(items[|items| - 1], parse)
  }

  /** The total splits over any division of the account list. */
  lemma {:induction false} HoldingsAppend(a: seq<Account>, b: seq<Account>, parse: string -> Option<real>)
    requires AllParse(a + b, parse)
    ensures AllParse(a, parse) && AllParse(b, parse)
    ensures Holdings(a + b, parse) == Holdings(a, parse) + Holdings(b, parse)
    decreases |b|
  {
    assert forall i :: 0 <= i < |a| ==> (a + b)[i] == a[i];
    assert forall i :: 0 <= i < |b| ==> (a + b)[|a| + i] == b[i];
    if |b| > 0 {
      var init := b[..|b| - 1];
      assert (a + b)[..|a + b| - 1] == a + init;
      HoldingsAppend(a, init, parse);
    } else {
      assert a + b == a;
    }
  }

  /** Holdings of accounts with non-negative amounts are non-negative. */
  lemma {:induction false} HoldingsNonNegative(items: seq<Account>, parse: string -> Option<real>)
    requires AllParse(items, parse)
    requires forall i :: 0 <= i < |items| ==>
      parse(items[i].balance).value >= 0.0 && parse(items[i].avgBuyPrice).value >= 0.0
    ensures Holdings(items, parse) >= 0.0
  {
    if |items| > 0 {
      HoldingsNonNegative(items[..|items| - 1], parse);
    }
  }

  /** The generator sum of `get_profit_loss`: None as soon as one amount
      fails to convert, otherwise the total of balance × avg_buy_price. */
  method TotalBalance(items: seq<Account>, parse: string -> Option<real>) returns (t: Option<real>)
    ensures t.Some? <==> AllParse(items, parse)
    ensures t.Some? ==> t.value == Holdings(items, parse)
  {
    var acc := 0.0;
    var i := 0;
    while i < |items|
      invariant 0 <= i <= |items|
      invariant AllParse(items[..i], parse)
      invariant acc == Holdings(items[..i], parse)
    {
      var b := parse(items[i].balance);
      var p := parse(items[i].avgBuyPrice);
      if b.None? || p.None? {
        return None;
      }
      assert items[..i + 1][..i] == items[..i];
      acc := acc + b.value * p.value;
      i := i + 1;
    }
    assert items[..i] == items;
    return Some(acc);
  }

  /** The profit/loss summary: the total and the account list unchanged. */
  datatype ProfitLossData = ProfitLossData(totalBalance: real, assets: seq<Account>)

  /** `get_profit_loss`: a summary exactly when the balance call returned a
      non-empty account list whose amounts all convert. */
  method ProfitLoss(reply: HttpReply<AccountsBody>, parse: string -> Option<real>)
    returns (r: Option<ProfitLossData>)
    ensures r.Some? <==>
      && reply.Reply? && reply.body.Accounts? && |reply.body.items| > 0
      && AllParse(reply.body.items, parse)
    ensures r.Some? ==>
      && r.value.assets == reply.body.items
      && r.value.totalBalance == Holdings(reply.body.items, parse)
  {
    var balance := GetBalance(reply);
    if balance.None? || !balance.value.Accounts? || |balance.value.items| == 0 {
      return None;
    }
    var items := balance.value.items;
    var total := TotalBalance(items, parse);
    if total.None? {
      return None;
    }
    return Some(ProfitLossData(total.value, items));
  }

  /** The `/profit-loss` route. */
  method ProfitLossRoute(reply: HttpReply<AccountsBody>, parse: string -> Option<real>)
    returns (r: Reply<ProfitLossData>)
    ensures r.Success? <==>
      && reply.Reply? && reply.body.Accounts? && |reply.body.items| > 0
      && AllParse(reply.body.items, parse)
    ensures r.Success? ==> r.data.assets == reply.body.items
    ensures r.Success? ==> r.data.totalBalance == Holdings(reply.body.items, parse)
    ensures r.Failure? ==> r.error == ProfitLossError
  {
    var data := ProfitLoss(reply, parse);
    r := Wrap(data, ProfitLossError);
  }
}

/** The market-data refresh job: fetch the 200 most recent candles, compute
    the indicators, publish the values at the LAST index of each series into
    a single slot, and the route that reads that slot. The rows keep the
    order of the exchange's reply, which lists candles newest first, so the
    last index is the oldest candle of the batch.

    The slot is a value of type `Option<Snapshot>`; a refresh is a pure
    function from the old slot to the new one. The library that computes
    the EMA-200 and the raw stochastic RSI is a parameter (`Library`), as
    are the clock reading and the HTTP reply.
 */
module Crawling {
  import opened Wrappers
  import opened Indicators
  import opened Exchange

  /** Endpoint and parameters of the candle request the job issues. */
  const CandleUrl: string := "https://api.upbit.com/v1/candles/minutes/10"
  const CandleCount: int := 200

  datatype CandleRequest = CandleRequest(url: string, market: string, count: int)

  /** The request `fetch_market_data(market)` sends; the job calls it with
      the default market. */
  function MarketDataRequest(market: string): (r: CandleRequest)
    ensures r.market == market && r.url == CandleUrl && r.count == CandleCount
  {
    CandleRequest(CandleUrl, market, CandleCount)
  }

  /** One JSON object of the candle reply, restricted to its numeric fields. */
  type Row = map<string, real>

  /** The decoded body: a JSON array of objects, or anything else (a JSON
      object, a decode failure). */
  datatype CandleBody = Rows(rows: seq<Row>) | NotRows

  /** A row that carries the four price fields the job keeps. */
  predicate HasPrices(r: Row) {
    "opening_price" in r && "high_price" in r && "low_price" in r && "trade_price" in r
  }

  /** The column selection and renaming of one row. */
  function Rename(r: Row): (c: Candle)
    requires HasPrices(r)
    ensures c.open == r["opening_price"] && c.high == r["high_price"]
    ensures c.low == r["low_price"] && c.close == r["trade_price"]
  {
    Candle(r["opening_price"], r["high_price"], r["low_price"], r["trade_price"])
  }

  /** `fetch_market_data`: a 200 reply whose body is a non-empty array of
      rows with the four price fields becomes a frame of exactly those four
      columns, renamed, in the order received. Any other status, a failed
      call, or a body the column selection cannot apply to yields None. */
  function FetchMarketData(reply: HttpReply<CandleBody>): (df: Option<seq<Candle>>)
    ensures df.Some? <==>
      && reply.Reply? && reply.status == 200 && reply.body.Rows?
      && |reply.body.rows| > 0
      && forall i :: 0 <= i < |reply.body.rows| ==> HasPrices(reply.body.rows[i])
    ensures df.Some? ==> |df.value| == |reply.body.rows| > 0
    ensures df.Some? ==> forall i :: 0 <= i < |df.value| ==> df.value[i] == Rename(reply.body.rows[i])
  {
    match reply
    case Unreachable => None
    case Reply(status, body) =>
      if status != 200 then None
      else
        match body
        case NotRows => None
        case Rows(rows) =>
          if |rows| == 0 || exists i :: 0 <= i < |rows| && !HasPrices(rows[i]) then None
          else Some(seq(|rows|, i requires 0 <= i < |rows| => Rename(rows[i])))
  }

  /** The values of one successful refresh. `None` stands for NaN. */
  datatype Snapshot = Snapshot(
    timestamp: string,
    heikinAshi: HaCandle,
    ema200: Option<real>,
    stochK: Option<real>,
    stochD: Option<real>)

  /** The technical-analysis library, applied to the close column: the
      200-period EMA and the raw 14-period stochastic RSI. */
  datatype Library = Library(
    ema200: seq<real> -> seq<Option<real>>,
    stochRsi: seq<real> -> seq<Option<real>>)

  function Closes(df: seq<Candle>): (c: seq<real>)
    ensures |c| == |df|
    ensures forall i :: 0 <= i < |df| ==> c[i] == df[i].close
  {
    seq(|df|, i requires 0 <= i < |df| => df[i].close)
  }

  function Last<T>(s: seq<T>): T
    requires |s| > 0
  {
    s[|s| - 1]
  }

  /** The snapshot `update_market_data` would store for this fetch reply, or
      None when it stores nothing: the fetch failed, or one of the library's
      series is empty so that `iloc[-1]` raises before the assignment. */
  function Publish(reply: HttpReply<CandleBody>, now: string, lib: Library): (snap: Option<Snapshot>)
    ensures snap.Some? ==> FetchMarketData(reply).Some?
    ensures snap.Some? <==>
      && FetchMarketData(reply).Some?
      && |lib.ema200(Closes(FetchMarketData(reply).value))| > 0
      && |lib.stochRsi(Closes(FetchMarketData(reply).value))| > 0
    ensures snap.Some? ==> snap.value.timestamp == now
  {
    match FetchMarketData(reply)
    case None => None
    case Some(df) =>
      var ha := HeikinAshi(df);
      var ema := lib.ema200(Closes(df));
      var stoch := StochRsi(lib.stochRsi(Closes(df)), SmoothK, SmoothD);
      if |ema| == 0 || |stoch.k| == 0 then None
      else Some(Snapshot(now, Last(ha), Last(ema), Last(stoch.k), Last(stoch.d)))
  }

  /** `update_market_data` as a slot update: a refresh that stores nothing
      leaves the slot as it was; one that stores replaces the whole slot. */
  function Refresh(slot: Option<Snapshot>, reply: HttpReply<CandleBody>, now: string, lib: Library)
    : (next: Option<Snapshot>)
    ensures FetchMarketData(reply).None? ==> next == slot
    ensures Publish(reply, now, lib).None? ==> next == slot
    ensures Publish(reply, now, lib).Some? ==> next == Publish(reply, now, lib)
  {
    match Publish(reply, now, lib)
    case Some(s) => Some(s)
    case None => slot
  }

  /** A successful refresh reads the LAST row of the upstream array, and
      the one before it, with no reordering (with the exchange's newest-first
      order, the oldest candle and the one just after it in time): the stored Heikin-Ashi values
      are `HaRow` of the renamed last row, whose open averages the renamed
      previous row (NaN when the array holds a single row). With the
      contracts of `HaRow` and `Rename`, the stored close is the mean of the
      last row's opening, high, low and trade prices, and so on. */
  lemma SnapshotReadsLastRow(reply: HttpReply<CandleBody>, now: string, lib: Library)
    requires Publish(reply, now, lib).Some?
    ensures reply.Reply? && reply.status == 200 && reply.body.Rows? && |reply.body.rows| > 0
    ensures forall i :: 0 <= i < |reply.body.rows| ==> HasPrices(reply.body.rows[i])
    ensures Publish(reply, now, lib).value.heikinAshi ==
      HaRow(
        if |reply.body.rows| == 1 then None else Some(Rename(reply.body.rows[|reply.body.rows| - 2])),
        Rename(Last(reply.body.rows)))
  {
    PublishedHeikinAshi(reply, now, lib);
    LastHeikinAshiRow(reply.body.rows, FetchMarketData(reply).value);
  }

  /** The stored Heikin-Ashi values are the last row of the transform. */
  lemma PublishedHeikinAshi(reply: HttpReply<CandleBody>, now: string, lib: Library)
    requires Publish(reply, now, lib).Some?
    ensures FetchMarketData(reply).Some? && |FetchMarketData(reply).value| > 0
    ensures Publish(reply, now, lib).value.heikinAshi == Last(HeikinAshi(FetchMarketData(reply).value))
  {
  }

  /** The last Heikin-Ashi row of a frame renamed row by row from `rows`. */
  lemma LastHeikinAshiRow(rows: seq<Row>, df: seq<Candle>)
    requires |df| == |rows| > 0
    requires forall i :: 0 <= i < |rows| ==> HasPrices(rows[i]) && df[i] == Rename(rows[i])
    ensures Last(HeikinAshi(df)) ==
      HaRow(if |rows| == 1 then None else Some(Rename(rows[|rows| - 2])), Rename(Last(rows)))
  {
    var n := |df|;
    HeikinAshiAt(df, n - 1);
  }

  /** A successful refresh stores the last value of each indicator series.
      With the default smoothing, the stored %K is a number exactly when the
      library's last three raw stochastic-RSI values are, and is then their
      mean; the stored %D is a number exactly when the last five are, and is
      then their 1-2-3-2-1 weighted mean. Otherwise they are NaN. */
  lemma SnapshotIndicators(reply: HttpReply<CandleBody>, now: string, lib: Library)
    requires Publish(reply, now, lib).Some?
    ensures
      var closes := Closes(FetchMarketData(reply).value);
      var raw := lib.stochRsi(closes);
      var m := |raw|;
      var snap := Publish(reply, now, lib).value;
      && snap.ema200 == Last(lib.ema200(closes))
      && snap.stochK == Last(StochRsi(raw, SmoothK, SmoothD).k)
      && snap.stochD == Last(StochRsi(raw, SmoothK, SmoothD).d)
      && (snap.stochK.Some? <==> m >= 3 && raw[m - 3].Some? && raw[m - 2].Some? && raw[m - 1].Some?)
      && (snap.stochK.Some? ==>
            snap.stochK.value == (raw[m - 3].value + raw[m - 2].value + raw[m - 1].value) / 3.0)
      && (snap.stochD.Some? <==>
            && m >= 5 && raw[m - 5].Some? && raw[m - 4].Some? && raw[m - 3].Some?
            && raw[m - 2].Some? && raw[m - 1].Some?)
      && (snap.stochD.Some? ==>
            snap.stochD.value == (raw[m - 5].value + 2.0 * raw[m - 4].value + 3.0 * raw[m - 3].value
                                  + 2.0 * raw[m - 2].value + raw[m - 1].value) / 9.0)
  {
    var raw := lib.stochRsi(Closes(FetchMarketData(reply).value));
    var lines := StochRsi(raw, SmoothK, SmoothD);
    assert Publish(reply, now, lib).value.stochK == Last(lines.k);
    assert Publish(reply, now, lib).value.stochD == Last(lines.d);
    StochDefaultLines(raw, |raw| - 1);
    StochDefaultD(raw, |raw| - 1);
  }

  /** The error the reader reports while the slot is empty. */
  const NoDataError: string := "데이터 없음"

  /** The slot at process start. */
  const InitialSlot: Option<Snapshot> := None

  /** `get_technical_indicators`: success with the stored snapshot if and
      only if one is stored, otherwise the "no data" error. */
  function TechnicalIndicators(slot: Option<Snapshot>): (r: Reply<Snapshot>)
    ensures r.Success? <==> slot.Some?
    ensures r.Success? ==> r.data == slot.value
    ensures r.Failure? ==> r.error == NoDataError
  {
    Wrap(slot, NoDataError)
  }

  /** One scheduler tick: the reply the job's fetch received and the clock
      reading taken when it stored its result. */
  datatype Tick = Tick(reply: HttpReply<CandleBody>, now: string)

  /** The slot after the given ticks, applied in order: untouched while
      every refresh fails, and the last tick's snapshot when that tick's
      refresh succeeds. */
  function Run(slot: Option<Snapshot>, ticks: seq<Tick>, lib: Library): (r: Option<Snapshot>)
    ensures (forall i :: 0 <= i < |ticks| ==> Publish(ticks[i].reply, ticks[i].now, lib).None?) ==> r == slot
    ensures |ticks| > 0 && Publish(Last(ticks).reply, Last(ticks).now, lib).Some? ==>
      r == Publish(Last(ticks).reply, Last(ticks).now, lib)
    decreases |ticks|
  {
    if |ticks| == 0 then slot
    else
      var rest := ticks[1..];
      assert forall i :: 0 <= i < |rest| ==> rest[i] == ticks[i + 1];
      assert |rest| > 0 ==> Last(rest) == Last(ticks);
      Run(Refresh(slot, ticks[0].reply, ticks[0].now, lib), rest, lib)
  }

  /** The snapshot of the most recent tick that stored one, if any. */
  function LatestPublished(ticks: seq<Tick>, lib: Library): Option<Snapshot>
    decreases |ticks|
  {
    if |ticks| == 0 then None
    else
      var t := Last(ticks);
      match Publish(t.reply, t.now, lib)
      case Some(s) => Some(s)
      case None => LatestPublished(ticks[..|ticks| - 1], lib)
  }

  lemma {:induction false} LatestPublishedCons(t: Tick, ticks: seq<Tick>, lib: Library)
    ensures LatestPublished([t] + ticks, lib) ==
      if LatestPublished(ticks, lib).Some? then LatestPublished(ticks, lib)
      else Publish(t.reply, t.now, lib)
    decreases |ticks|
  {
    if |ticks| == 0 {
      assert [t] + ticks == [t];
      assert [t][..0] == [];
    } else {
      var all := [t] + ticks;
      var init := ticks[..|ticks| - 1];
      assert Last(all) == Last(ticks);
      assert all[..|all| - 1] == [t] + init;
      LatestPublishedCons(t, init, lib);
      var p := Publish(Last(ticks).reply, Last(ticks).now, lib);
      if p.None? {
        assert LatestPublished(all, lib) == LatestPublished([t] + init, lib);
        assert LatestPublished(ticks, lib) == LatestPublished(init, lib);
      } else {
        assert LatestPublished(all, lib) == p;
        assert LatestPublished(ticks, lib) == p;
      }
    }
  }

  /** Whatever happens in between, the slot holds the snapshot of the most
      recent successful refresh, or what it held before if none succeeded. */
  lemma {:induction false} RunKeepsLatest(slot: Option<Snapshot>, ticks: seq<Tick>, lib: Library)
    ensures Run(slot, ticks, lib) ==
      if LatestPublished(ticks, lib).Some? then LatestPublished(ticks, lib) else slot
    decreases |ticks|
  {
    if |ticks| > 0 {
      var t := ticks[0];
      RunKeepsLatest(Refresh(slot, t.reply, t.now, lib), ticks[1..], lib);
      assert ticks == [t] + ticks[1..];
      LatestPublishedCons(t, ticks[1..], lib);
    }
  }

  lemma {:induction false} LatestPublishedNone(ticks: seq<Tick>, lib: Library)
    ensures LatestPublished(ticks, lib).None? <==>
      forall i :: 0 <= i < |ticks| ==> Publish(ticks[i].reply, ticks[i].now, lib).None?
    decreases |ticks|
  {
    if |ticks| > 0 {
      var n := |ticks|;
      var init := ticks[..n - 1];
      var p := Publish(ticks[n - 1].reply, ticks[n - 1].now, lib);
      assert LatestPublished(ticks, lib) == if p.Some? then p else LatestPublished(init, lib);
      LatestPublishedNone(init, lib);
      assert forall i :: 0 <= i < |init| ==> init[i] == ticks[i];
      if p.None? {
        assert (forall i :: 0 <= i < n ==> Publish(ticks[i].reply, ticks[i].now, lib).None?) <==>
               (forall i :: 0 <= i < n - 1 ==> Publish(init[i].reply, init[i].now, lib).None?);
      }
    }
  }

  /** From process start, the reader answers "no data" exactly until the
      first tick whose refresh succeeds, and afterwards returns the snapshot
      of the most recent successful one. */
  lemma NoDataUntilFirstSuccess(ticks: seq<Tick>, lib: Library)
    ensures TechnicalIndicators(Run(InitialSlot, ticks, lib)).Failure? <==>
      forall i :: 0 <= i < |ticks| ==> Publish(ticks[i].reply, ticks[i].now, lib).None?
    ensures TechnicalIndicators(Run(InitialSlot, ticks, lib)).Success? ==>
      Some(TechnicalIndicators(Run(InitialSlot, ticks, lib)).data) == LatestPublished(ticks, lib)
  {
    RunKeepsLatest(InitialSlot, ticks, lib);
    LatestPublishedNone(ticks, lib);
  }
}

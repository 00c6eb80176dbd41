/** The indicator arithmetic of the market-data refresh job: the Heikin-Ashi
    transform of an OHLC series and the two rolling means that turn a raw
    stochastic-RSI series into its %K and %D lines.

    A pandas cell that may be NaN is an `Option<real>`; `None` is NaN.
    Rows keep the order in which the upstream feed delivered them.
 */
module Indicators {
  import opened Wrappers

  /** One raw candle, after the fetch renamed its columns. */
  datatype Candle = Candle(open: real, high: real, low: real, close: real)

  /** One Heikin-Ashi row. `open` is NaN on the first row, which has no
      previous raw candle to average. */
  datatype HaCandle = HaCandle(open: Option<real>, high: real, low: real, close: real)

  /** A raw candle whose high and low bound its open and close. */
  predicate WellFormed(c: Candle) {
    c.low <= c.open <= c.high && c.low <= c.close <= c.high
  }

  /** Row-wise `max` over three columns. */
  function Max3(a: real, b: real, c: real): (m: real)
    ensures m >= a && m >= b && m >= c
    ensures m == a || m == b || m == c
  {
    if a >= b && a >= c then a else if b >= c then b else c
  }

  /** Row-wise `min` over three columns. */
  function Min3(a: real, b: real, c: real): (m: real)
    ensures m <= a && m <= b && m <= c
    ensures m == a || m == b || m == c
  {
    if a <= b && a <= c then a else if b <= c then b else c
  }

  /** One Heikin-Ashi row from the raw candle `c` and the raw candle
      `prev` before it (None on the first row). */
  function HaRow(prev: Option<Candle>, c: Candle): (h: HaCandle)
    ensures h.close == (c.open + c.high + c.low + c.close) / 4.0
    ensures h.open.Some? <==> prev.Some?
    ensures prev.Some? ==> h.open.value == (prev.value.open + prev.value.close) / 2.0
    ensures h.high == Max3(c.high, c.open, c.close)
    ensures h.low == Min3(c.low, c.open, c.close)
  {
    HaCandle(
      match prev
      case None => None
      case Some(p) => Some((p.open + p.close) / 2.0),
      Max3(c.high, c.open, c.close),
      Min3(c.low, c.open, c.close),
      (c.open + c.high + c.low + c.close) / 4.0)
  }

  /** `calculate_heikin_ashi`: a column-wise transform of the whole frame.
      Close is the mean of the row's four prices; open averages the RAW
      previous candle's open and close (pandas `shift(1)`), so it is NaN on
      row 0; high and low are the row-wise max and min of the raw high/low,
      open and close. */
  function HeikinAshi(s: seq<Candle>): (ha: seq<HaCandle>)
    ensures |ha| == |s|
    ensures forall i :: 0 <= i < |s| ==> (ha[i].open.Some? <==> i > 0)
  {
    seq(|s|, i requires 0 <= i < |s| => HaRow(if i == 0 then None else Some(s[i - 1]), s[i]))
  }

  /** Row `i` of the transform depends only on raw rows `i - 1` and `i`. */
  lemma HeikinAshiAt(s: seq<Candle>, i: nat)
    requires i < |s|
    ensures HeikinAshi(s)[i] == HaRow(if i == 0 then None else Some(s[i - 1]), s[i])
  {
  }

  /** The Heikin-Ashi rows, stated per row against the raw series: close is
      the mean of the same raw row, open is NaN on row 0 and otherwise the
      mean of the RAW previous open and close, high and low are the row-wise
      max and min of the raw high/low, open and close. */
  lemma HeikinAshiRows(s: seq<Candle>)
    ensures |HeikinAshi(s)| == |s|
    ensures forall i :: 0 <= i < |s| ==>
      HeikinAshi(s)[i].close == (s[i].open + s[i].high + s[i].low + s[i].close) / 4.0
    ensures |s| > 0 ==> HeikinAshi(s)[0].open == None
    ensures forall i :: 1 <= i < |s| ==>
      HeikinAshi(s)[i].open == Some((s[i - 1].open + s[i - 1].close) / 2.0)
    ensures forall i :: 0 <= i < |s| ==>
      HeikinAshi(s)[i].high == Max3(s[i].high, s[i].open, s[i].close)
    ensures forall i :: 0 <= i < |s| ==>
      HeikinAshi(s)[i].low == Min3(s[i].low, s[i].open, s[i].close)
  {
    var ha := HeikinAshi(s);
    forall i | 0 <= i < |s|
      ensures ha[i].close == (s[i].open + s[i].high + s[i].low + s[i].close) / 4.0
      ensures ha[i].high == Max3(s[i].high, s[i].open, s[i].close)
      ensures ha[i].low == Min3(s[i].low, s[i].open, s[i].close)
      ensures i > 0 ==> ha[i].open == Some((s[i - 1].open + s[i - 1].close) / 2.0)
    {
      assert ha[i] == HaRow(if i == 0 then None else Some(s[i - 1]), s[i]);
    }
  }

  /** On every row the Heikin-Ashi high is at least its low, at least the raw
      high, and the Heikin-Ashi low is at most the raw low. These involve no
      arithmetic, only max and min. */
  lemma HeikinAshiRange(s: seq<Candle>)
    ensures forall i :: 0 <= i < |s| ==>
      var h := HeikinAshi(s)[i];
      h.low <= h.high && h.high >= s[i].high && h.low <= s[i].low
  {
    var ha := HeikinAshi(s);
    forall i | 0 <= i < |s|
      ensures ha[i].low <= ha[i].high && ha[i].high >= s[i].high && ha[i].low <= s[i].low
    {
      assert ha[i] == HaRow(if i == 0 then None else Some(s[i - 1]), s[i]);
      assert ha[i].low <= s[i].open <= ha[i].high;
    }
  }

  /** For well-formed raw candles the Heikin-Ashi high and low are the raw
      high and low, and the Heikin-Ashi close lies between them. */
  lemma HeikinAshiWellFormed(s: seq<Candle>)
    requires forall i :: 0 <= i < |s| ==> WellFormed(s[i])
    ensures forall i :: 0 <= i < |s| ==>
      var h := HeikinAshi(s)[i];
      h.high == s[i].high && h.low == s[i].low && h.low <= h.close <= h.high
  {
  }

  /** The transform is causal: appending later candles never changes an
      earlier Heikin-Ashi row. */
  lemma HeikinAshiPrefix(s: seq<Candle>, n: nat)
    requires n <= |s|
    ensures HeikinAshi(s[..n]) == HeikinAshi(s)[..n]
  {
  }

  /** Every cell of the window is a number (no NaN). */
  predicate Defined(xs: seq<Option<real>>) {
    forall k :: 0 <= k < |xs| ==> xs[k].Some?
  }

  /** The numbers of a NaN-free window. */
  function Values(xs: seq<Option<real>>): (v: seq<real>)
    requires Defined(xs)
    ensures |v| == |xs|
    ensures forall k :: 0 <= k < |xs| ==> xs[k] == Some(v[k])
  {
    seq(|xs|, k requires 0 <= k < |xs| => xs[k].value)
  }

  /** Left-to-right sum, as `mean` accumulates it. */
  function Sum(v: seq<real>): real {
    if |v| == 0 then 0.0 else Sum(v[..|v| - 1]) + v[|v| - 1]
  }

  lemma {:induction false} SumBounds(v: seq<real>, lo: real, hi: real)
    requires forall k :: 0 <= k < |v| ==> lo <= v[k] <= hi
    ensures |v| as real * lo <= Sum(v) <= |v| as real * hi
  {
    if |v| > 0 {
      SumBounds(v[..|v| - 1], lo, hi);
    }
  }

  lemma Sum3(a: real, b: real, c: real)
    ensures Sum([a, b, c]) == a + b + c
  {
    assert [a, b, c][..2] == [a, b];
    assert [a, b][..1] == [a];
    assert [a][..0] == [];
    assert Sum([a]) == a;
    assert Sum([a, b]) == a + b;
  }

  /** The trailing window of width `w` ending at index `i`. */
  function Window(xs: seq<Option<real>>, i: nat, w: nat): seq<Option<real>>
    requires i < |xs| && w <= i + 1
  {
    xs[i + 1 - w..i + 1]
  }

  /** pandas `rolling(window=w).mean()` at index `i`: with the default
      `min_periods == w`, NaN unless the full window exists and holds no NaN. */
  function WindowMean(xs: seq<Option<real>>, i: nat, w: nat): Option<real>
    requires i < |xs| && w > 0
  {
    if w <= i + 1 && Defined(Window(xs, i, w)) then
      Some(Sum(Values(Window(xs, i, w))) / w as real)
    else
      None
  }

  /** pandas `series.rolling(window=w).mean()`. */
  function RollingMean(xs: seq<Option<real>>, w: nat): (ys: seq<Option<real>>)
    requires w > 0
    ensures |ys| == |xs|
    ensures forall i :: 0 <= i < |xs| ==>
      (ys[i].Some? <==> w <= i + 1 && Defined(Window(xs, i, w)))
  {
    seq(|xs|, i requires 0 <= i < |xs| => WindowMean(xs, i, w))
  }

  /** A rolling mean never leaves the band its inputs lie in. */
  lemma RollingMeanBounds(xs: seq<Option<real>>, w: nat, lo: real, hi: real)
    requires w > 0
    requires forall k :: 0 <= k < |xs| && xs[k].Some? ==> lo <= xs[k].value <= hi
    ensures forall i :: 0 <= i < |xs| && RollingMean(xs, w)[i].Some? ==>
      lo <= RollingMean(xs, w)[i].value <= hi
  {
    var ys := RollingMean(xs, w);
    forall i | 0 <= i < |xs| && ys[i].Some?
      ensures lo <= ys[i].value <= hi
    {
      var v := Values(Window(xs, i, w));
      forall k | 0 <= k < |v|
        ensures lo <= v[k] <= hi
      {
        assert xs[i + 1 - w + k] == Window(xs, i, w)[k];
      }
      SumBounds(v, lo, hi);
    }
  }

  /** A width-3 rolling mean is the plain mean of the current and two
      previous values, and exists exactly where those three are numbers. */
  lemma RollingMean3At(xs: seq<Option<real>>, i: nat)
    requires i < |xs|
    ensures RollingMean(xs, 3)[i].Some? <==>
      2 <= i && xs[i - 2].Some? && xs[i - 1].Some? && xs[i].Some?
    ensures RollingMean(xs, 3)[i].Some? ==>
      RollingMean(xs, 3)[i].value == (xs[i - 2].value + xs[i - 1].value + xs[i].value) / 3.0
  {
    if 2 <= i {
      var win := Window(xs, i, 3);
      assert win == [xs[i - 2], xs[i - 1], xs[i]];
      if Defined(win) {
        assert Values(win) == [xs[i - 2].value, xs[i - 1].value, xs[i].value];
        Sum3(xs[i - 2].value, xs[i - 1].value, xs[i].value);
      }
    }
  }

  /** The %K and %D lines of a stochastic RSI. */
  datatype StochLines = StochLines(k: seq<Option<real>>, d: seq<Option<real>>)

  const SmoothK: nat := 3
  const SmoothD: nat := 3

  /** The smoothing half of `calculate_stoch_rsi`: %K is the rolling mean of
      the raw stochastic RSI over `smoothK` rows and %D the rolling mean of
      %K over `smoothD` rows. The raw series comes from a library. */
  function StochRsi(stoch: seq<Option<real>>, smoothK: nat, smoothD: nat): (r: StochLines)
    requires smoothK > 0 && smoothD > 0
    ensures |r.k| == |stoch| && |r.d| == |stoch|
    ensures forall i :: 0 <= i < |stoch| && r.d[i].Some? ==> smoothK + smoothD <= i + 2
  {
    var k := RollingMean(stoch, smoothK);
    var d := RollingMean(k, smoothD);
    assert forall i :: 0 <= i < |stoch| && d[i].Some? ==> smoothK + smoothD <= i + 2 by {
      forall i | 0 <= i < |stoch| && d[i].Some?
        ensures smoothK + smoothD <= i + 2
      {
        assert Window(k, i, smoothD)[0].Some?;
        assert k[i + 1 - smoothD].Some?;
      }
    }
    StochLines(k, d)
  }

  /** With the default smoothing (3 and 3), %K at row `i` is the mean of the
      raw values at `i-2 .. i` and %D the mean of %K at `i-2 .. i`; each is
      NaN exactly where its three-row window is incomplete or holds a NaN. */
  lemma StochDefaultLines(stoch: seq<Option<real>>, i: nat)
    requires i < |stoch|
    ensures var r := StochRsi(stoch, SmoothK, SmoothD);
      && (r.k[i].Some? <==> 2 <= i && stoch[i - 2].Some? && stoch[i - 1].Some? && stoch[i].Some?)
      && (r.k[i].Some? ==> r.k[i].value == (stoch[i - 2].value + stoch[i - 1].value + stoch[i].value) / 3.0)
      && (r.d[i].Some? <==> 2 <= i && r.k[i - 2].Some? && r.k[i - 1].Some? && r.k[i].Some?)
      && (r.d[i].Some? ==> r.d[i].value == (r.k[i - 2].value + r.k[i - 1].value + r.k[i].value) / 3.0)
  {
    RollingMean3At(stoch, i);
    RollingMean3At(RollingMean(stoch, 3), i);
  }

  /** With the default smoothing (3 and 3), %D at row `i` is defined exactly
      when the five raw values `i-4 .. i` are, and is then their 1-2-3-2-1
      weighted mean. */
  lemma StochDefaultD(stoch: seq<Option<real>>, i: nat)
    requires i < |stoch|
    ensures StochRsi(stoch, SmoothK, SmoothD).d[i].Some? <==>
      && 4 <= i
      && stoch[i - 4].Some? && stoch[i - 3].Some? && stoch[i - 2].Some?
      && stoch[i - 1].Some? && stoch[i].Some?
    ensures StochRsi(stoch, SmoothK, SmoothD).d[i].Some? ==>
      StochRsi(stoch, SmoothK, SmoothD).d[i].value ==
        (stoch[i - 4].value + 2.0 * stoch[i - 3].value + 3.0 * stoch[i - 2].value
         + 2.0 * stoch[i - 1].value + stoch[i].value) / 9.0
  {
    var k := RollingMean(stoch, 3);
    RollingMean3At(k, i);
    if 2 <= i {
      RollingMean3At(stoch, i);
      RollingMean3At(stoch, i - 1);
      RollingMean3At(stoch, i - 2);
    }
  }

  /** If the raw stochastic RSI stays within [0, 1], so do %K and %D. */
  lemma StochRsiUnitRange(stoch: seq<Option<real>>, smoothK: nat, smoothD: nat)
    requires smoothK > 0 && smoothD > 0
    requires forall i :: 0 <= i < |stoch| && stoch[i].Some? ==> 0.0 <= stoch[i].value <= 1.0
    ensures forall i :: 0 <= i < |stoch| && StochRsi(stoch, smoothK, smoothD).k[i].Some? ==>
      0.0 <= StochRsi(stoch, smoothK, smoothD).k[i].value <= 1.0
    ensures forall i :: 0 <= i < |stoch| && StochRsi(stoch, smoothK, smoothD).d[i].Some? ==>
      0.0 <= StochRsi(stoch, smoothK, smoothD).d[i].value <= 1.0
  {
    var k := RollingMean(stoch, smoothK);
    RollingMeanBounds(stoch, smoothK, 0.0, 1.0);
    RollingMeanBounds(k, smoothD, 0.0, 1.0);
  }
}

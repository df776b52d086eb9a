/** The live candlestick chart (`components/PriceChart.tsx`): the initial
    load with its high/low statistics, the updater that merges each streamed
    candle into the shown series, and the timeframe switch. The updater reads
    the statistics its subscription captured when it was created; `Merge` is
    the same updater reading the current ones. */
module PriceChart {
  import opened Base
  import opened Hyperliquid

  datatype Direction = Up | Down | Neutral

  /** The chart's React state (the random volume figure and the flash
      indicator are not modelled). */
  datatype ChartState = ChartState(
    interval: Interval,
    candles: seq<Candle>,
    loading: bool,
    error: Option<string>,
    currentPrice: real,
    lastPrice: real,
    priceChange24h: Numeric,
    high24h: real,
    low24h: real,
    direction: Direction)

  /** The values a callback reads from the render that created it. */
  datatype Captured = Captured(currentPrice: real, high24h: real, low24h: real)

  /** Lines 39-56: the state on mount. */
  const InitialChart: ChartState := ChartState(M1, [], true, None, 0.0, 0.0, Num(0.0), 0.0, 0.0, Neutral)

  /** The statistics a state shows. */
  function CapturedOf(s: ChartState): Captured
  {
    Captured(s.currentPrice, s.high24h, s.low24h)
  }

  const MaxCandles: nat := 200

  /** `Math.max(...cs.map(c => c.y[1]))`: the highest high. */
  function MaxHigh(cs: seq<Candle>): (m: real)
    requires |cs| > 0
    ensures forall i :: 0 <= i < |cs| ==> cs[i].high <= m
    ensures exists i :: 0 <= i < |cs| && cs[i].high == m
  {
    if |cs| == 1 then cs[0].high
    else
      var rest := MaxHigh(cs[1..]);
      assert forall i :: 1 <= i < |cs| ==> cs[i] == cs[1..][i - 1];
      if cs[0].high >= rest then cs[0].high else rest
  }

  /** `Math.min(...cs.map(c => c.y[2]))`: the lowest low. */
  function MinLow(cs: seq<Candle>): (m: real)
    requires |cs| > 0
    ensures forall i :: 0 <= i < |cs| ==> m <= cs[i].low
    ensures exists i :: 0 <= i < |cs| && cs[i].low == m
  {
    if |cs| == 1 then cs[0].low
    else
      var rest := MinLow(cs[1..]);
      assert forall i :: 1 <= i < |cs| ==> cs[i] == cs[1..][i - 1];
      if cs[0].low <= rest then cs[0].low else rest
  }

  /** The percentage change from an opening price to a closing price; a zero
      opening price gives a non-finite value (NaN here). */
  function ChangePercent(open: real, close: real): Numeric
  {
    if open == 0.0 then NaN else Num((close - open) / open * 100.0)
  }

  /** `loadInitialData` (lines 66-103) once the fetch has resolved: a
      non-empty series is shown with its last close, its highest high, its
      lowest low and the change from the first open to the last close; an
      empty one leaves the series as it was and reports that there is no
      data. */
  function LoadInitialData(s: ChartState, cs: seq<Candle>): (r: ChartState)
  {
    if |cs| == 0 then s.(loading := false, error := Some("No data available for this symbol"))
    else
      var latest := cs[|cs| - 1];
      s.(candles := cs, loading := false, error := None, currentPrice := latest.close,
         high24h := MaxHigh(cs), low24h := MinLow(cs), priceChange24h := ChangePercent(cs[0].open, latest.close))
  }

  /** The shown statistics bound every shown candle. */
  predicate Covers(s: ChartState)
  {
    forall i :: 0 <= i < |s.candles| ==> s.low24h <= s.candles[i].low && s.candles[i].high <= s.high24h
  }

  /** Lines 82-85: after a non-empty load the high and the low are exactly the
      series' extremes: they bound every candle and are reached by some
      candle. */
  lemma InitialHighLow(s: ChartState, cs: seq<Candle>)
    requires |cs| > 0
    ensures var r := LoadInitialData(s, cs);
            && r.candles == cs && r.error.None? && !r.loading
            && r.currentPrice == cs[|cs| - 1].close
            && Covers(r)
            && (exists i :: 0 <= i < |cs| && cs[i].high == r.high24h)
            && (exists i :: 0 <= i < |cs| && cs[i].low == r.low24h)
  {
  }

  /** The last `MaxCandles` candles (`slice(-200)`). */
  function KeepLast(cs: seq<Candle>): (r: seq<Candle>)
    ensures |r| == if |cs| > MaxCandles then MaxCandles else |cs|
    ensures forall i :: 0 <= i < |r| ==> r[i] == cs[|cs| - |r| + i]
  {
    if |cs| > MaxCandles then cs[|cs| - MaxCandles..] else cs
  }

  /** Whether a streamed candle continues the last shown candle. */
  predicate ContinuesLast(cs: seq<Candle>, c: Candle)
  {
    |cs| > 0 && cs[|cs| - 1].x == c.x
  }

  /** The updater of lines 117-169, reading `ref` wherever the code reads
      `currentPrice`, `high24h` or `low24h`. */
  function MergeWith(s: ChartState, ref: Captured, c: Candle): (r: ChartState)
  {
    if ContinuesLast(s.candles, c) then
      var n := |s.candles|;
      var direction := if c.close > ref.currentPrice then Up else if c.close < ref.currentPrice then Down else Neutral;
      s.(candles := s.candles[..n - 1] + [c],
         lastPrice := ref.currentPrice, currentPrice := c.close, direction := direction,
         high24h := if c.high > ref.high24h then c.high else s.high24h,
         low24h := if c.low < ref.low24h then c.low else s.low24h)
    else
      var all := s.candles + [c];
      s.(candles := KeepLast(all), currentPrice := c.close,
         high24h := MaxHigh(all), low24h := MinLow(all),
         priceChange24h := ChangePercent(all[0].open, c.close))
  }

  /** The updater as written: it compares with the values `captured` by the
      subscription when it was created (the effect depends only on the
      symbol, the timeframe and the loader). */
  function MergeAsWritten(s: ChartState, captured: Captured, c: Candle): (r: ChartState)
  {
    MergeWith(s, captured, c)
  }

  /** The updater comparing with the statistics currently shown. */
  function Merge(s: ChartState, c: Candle): (r: ChartState)
  {
    MergeWith(s, CapturedOf(s), c)
  }

  /** Lines 123-128, 151 and 168, whatever the compared values: a candle with
      the last candle's open time replaces it, any other candle is appended
      and only the last 200 are kept; the streamed candle is always the last
      one shown and its close the current price. */
  lemma MergeSeries(s: ChartState, ref: Captured, c: Candle)
    ensures var r := MergeWith(s, ref, c);
            && |r.candles| > 0 && r.candles[|r.candles| - 1] == c
            && r.currentPrice == c.close
            && (ContinuesLast(s.candles, c) ==>
                  |r.candles| == |s.candles| && r.candles[..|s.candles| - 1] == s.candles[..|s.candles| - 1])
            && (!ContinuesLast(s.candles, c) ==> r.candles == KeepLast(s.candles + [c]))
            && (!ContinuesLast(s.candles, c) && |s.candles| < MaxCandles ==> r.candles == s.candles + [c])
            && (|s.candles| <= MaxCandles ==> |r.candles| <= MaxCandles)
            && r.interval == s.interval
  {
    var r := MergeWith(s, ref, c);
    if ContinuesLast(s.candles, c) {
      assert r.candles[..|s.candles| - 1] == s.candles[..|s.candles| - 1];
    }
  }

  /** Lines 151-160, whatever the compared values: an appended candle resets
      the high and the low to the extremes of the series including it (before
      trimming). */
  lemma AppendRecomputesExtremes(s: ChartState, ref: Captured, c: Candle)
    requires !ContinuesLast(s.candles, c)
    ensures var r := MergeWith(s, ref, c);
            var all := s.candles + [c];
            && (forall i :: 0 <= i < |all| ==> r.low24h <= all[i].low && all[i].high <= r.high24h)
            && (exists i :: 0 <= i < |all| && all[i].high == r.high24h)
            && (exists i :: 0 <= i < |all| && all[i].low == r.low24h)
  {
    var all := s.candles + [c];
    assert MergeWith(s, ref, c).high24h == MaxHigh(all) && MergeWith(s, ref, c).low24h == MinLow(all);
  }

  /** The corrected updater keeps the statistics covering the shown series:
      a replacing candle can only raise the high or lower the low, and an
      appended candle recomputes both. */
  lemma {:induction false} MergePreservesCovers(s: ChartState, c: Candle)
    requires Covers(s)
    ensures Covers(Merge(s, c))
    ensures ContinuesLast(s.candles, c) ==>
              Merge(s, c).high24h >= s.high24h && Merge(s, c).high24h >= c.high
              && Merge(s, c).low24h <= s.low24h && Merge(s, c).low24h <= c.low
  {
    var r := Merge(s, c);
    var n := |s.candles|;
    if ContinuesLast(s.candles, c) {
      forall i | 0 <= i < |r.candles|
        ensures r.low24h <= r.candles[i].low && r.candles[i].high <= r.high24h
      {
        if i < n - 1 {
          assert r.candles[i] == s.candles[i];
        } else {
          assert r.candles[i] == c;
        }
      }
    } else {
      var all := s.candles + [c];
      forall i | 0 <= i < |r.candles|
        ensures r.low24h <= r.candles[i].low && r.candles[i].high <= r.high24h
      {
        assert r.candles[i] == all[|all| - |r.candles| + i];
      }
    }
  }

  /** The corrected updater shows the direction of the move from the price
      shown before the candle arrived, and remembers that price. */
  lemma MergeDirection(s: ChartState, c: Candle)
    requires ContinuesLast(s.candles, c)
    ensures var r := Merge(s, c);
            && r.lastPrice == s.currentPrice
            && (r.direction == Up <==> c.close > s.currentPrice)
            && (r.direction == Down <==> c.close < s.currentPrice)
  {
  }

  /** Lines 144-145 as written: the subscription captured the statistics of
      the render that created it (here the zeros of the first render, since
      the initial load resolves later). After a load showing a high of 100, a
      tick on the last candle with high 90 sets the high to 90 although a
      shown candle still reaches 100; the corrected updater keeps 100. */
  lemma StaleHighDropsBelowShownCandle()
    ensures var loaded := LoadInitialData(InitialChart, [Candle(0, 50.0, 100.0, 40.0, 60.0),
                                                         Candle(60000, 60.0, 80.0, 55.0, 70.0)]);
            var tick := Candle(60000, 60.0, 90.0, 55.0, 85.0);
            && Covers(loaded)
            && !Covers(MergeAsWritten(loaded, CapturedOf(InitialChart), tick))
            && MergeAsWritten(loaded, CapturedOf(InitialChart), tick).high24h == 90.0
            && Merge(loaded, tick).high24h == 100.0 && Covers(Merge(loaded, tick))
  {
    var cs := [Candle(0, 50.0, 100.0, 40.0, 60.0), Candle(60000, 60.0, 80.0, 55.0, 70.0)];
    assert MaxHigh(cs) == 100.0;
    assert MinLow(cs) == 40.0;
    var loaded := LoadInitialData(InitialChart, cs);
    var tick := Candle(60000, 60.0, 90.0, 55.0, 85.0);
    var stale := MergeAsWritten(loaded, CapturedOf(InitialChart), tick);
    assert stale.candles[0] == cs[0];
    MergePreservesCovers(loaded, tick);
  }

  /** Lines 131-141 as written: the direction compares with the captured
      price (0 on the first render), so a falling price shows as rising;
      the corrected updater shows it falling. */
  lemma StaleDirectionShowsFallAsRise()
    ensures var loaded := LoadInitialData(InitialChart, [Candle(0, 50.0, 100.0, 40.0, 60.0)]);
            var tick := Candle(0, 50.0, 100.0, 40.0, 45.0);
            && loaded.currentPrice == 60.0
            && MergeAsWritten(loaded, CapturedOf(InitialChart), tick).direction == Up
            && Merge(loaded, tick).direction == Down
  {
    var cs := [Candle(0, 50.0, 100.0, 40.0, 60.0)];
    assert MaxHigh(cs) == 100.0;
  }

  /** `handleIntervalChange` (lines 183-188). */
  function HandleIntervalChange(s: ChartState, i: Interval): (r: ChartState)
  {
    if i == s.interval then s else s.(interval := i, candles := [])
  }

  /** Choosing the shown timeframe changes nothing; choosing another one
      switches to it and clears the series, leaving the rest of the state;
      choosing the same timeframe twice is choosing it once. */
  lemma IntervalChangeClears(s: ChartState, i: Interval)
    ensures var r := HandleIntervalChange(s, i);
            && r.interval == i
            && (i == s.interval <==> r == s)
            && (i != s.interval ==> r.candles == [] && r == s.(interval := i, candles := []))
            && HandleIntervalChange(r, i) == r
  {
  }
}

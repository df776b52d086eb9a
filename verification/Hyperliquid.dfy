/** The candle feed of the perpetuals exchange (`lib/hyperliquid.ts`):
    interval names and lengths, the snapshot request window, normalisation of
    raw candles, the failed fetch that yields no candles, and the update flag
    of the live stream. Transports are oracle values; `parseFloat` of a price
    string is a function parameter. */
module Hyperliquid {
  import opened Base
  import opened Decimal

  /** The timeframes the chart offers. */
  datatype Interval = M1 | M5 | M15 | H1 | H4 | D1

  /** The timeframes the exchange accepts. */
  datatype ExchangeInterval = X1m | X3m | X5m | X15m | X30m | X1h | X2h | X4h | X8h | X12h | X1d | X3d | X1w | X1Mo

  /** The name of a chart timeframe. */
  function IntervalName(i: Interval): string
  {
    match i
    case M1 => "1m"
    case M5 => "5m"
    case M15 => "15m"
    case H1 => "1h"
    case H4 => "4h"
    case D1 => "1d"
  }

  /** The name of an exchange timeframe. */
  function ExchangeName(x: ExchangeInterval): string
  {
    match x
    case X1m => "1m"
    case X3m => "3m"
    case X5m => "5m"
    case X15m => "15m"
    case X30m => "30m"
    case X1h => "1h"
    case X2h => "2h"
    case X4h => "4h"
    case X8h => "8h"
    case X12h => "12h"
    case X1d => "1d"
    case X3d => "3d"
    case X1w => "1w"
    case X1Mo => "1M"
  }

  /** `INTERVAL_MAP` (lines 55-62). */
  function ToExchange(i: Interval): (x: ExchangeInterval)
  {
    match i
    case M1 => X1m
    case M5 => X5m
    case M15 => X15m
    case H1 => X1h
    case H4 => X4h
    case D1 => X1d
  }

  /** The map sends every chart timeframe to the exchange timeframe of the
      same name, so no two chart timeframes share one. */
  lemma IntervalMapKeepsNames(i: Interval, j: Interval)
    ensures ExchangeName(ToExchange(i)) == IntervalName(i)
    ensures ToExchange(i) == ToExchange(j) <==> i == j
  {
  }

  const MinuteMs: int := 60 * 1000

  /** `getIntervalMs` (lines 178-192) on any text: the leading number times
      the length of the unit named by the last character; `None` stands for
      NaN (no leading digits with a known unit); any other unit means one
      minute. */
  function IntervalMsOfText(s: string): (r: Option<int>)
  {
    var value := if s == [] then None else ParseLeadingInt(s[..|s| - 1]);
    var unit := if s == [] then "" else [s[|s| - 1]];
    if unit == "m" then (if value.None? then None else Some(value.value * 60 * 1000))
    else if unit == "h" then (if value.None? then None else Some(value.value * 60 * 60 * 1000))
    else if unit == "d" then (if value.None? then None else Some(value.value * 24 * 60 * 60 * 1000))
    else Some(MinuteMs)
  }

  /** The length of a chart timeframe in minutes. */
  function Minutes(i: Interval): nat
  {
    match i
    case M1 => 1
    case M5 => 5
    case M15 => 15
    case H1 => 60
    case H4 => 240
    case D1 => 1440
  }

  /** A number followed by a unit letter is that many units. */
  lemma {:induction false} IntervalMsOfUnit(n: nat, u: char)
    ensures IntervalMsOfText(NatToString(n) + [u]) ==
              if u == 'm' then Some(n * MinuteMs)
              else if u == 'h' then Some(n * 60 * MinuteMs)
              else if u == 'd' then Some(n * 1440 * MinuteMs)
              else Some(MinuteMs)
  {
    var s := NatToString(n) + [u];
    assert s[..|s| - 1] == NatToString(n) + [];
    ParseAfterRender(n, []);
  }

  /** The length of every chart timeframe is its number of minutes, as read
      from its name. */
  lemma {:induction false} IntervalMsTable(i: Interval)
    ensures IntervalMsOfText(IntervalName(i)) == Some(Minutes(i) * MinuteMs)
  {
    match i
    case M1 => IntervalMsOfUnit(1, 'm');
    case M5 => IntervalMsOfUnit(5, 'm');
    case M15 => assert IntervalName(i) == NatToString(15) + ['m']; IntervalMsOfUnit(15, 'm');
    case H1 => IntervalMsOfUnit(1, 'h');
    case H4 => IntervalMsOfUnit(4, 'h');
    case D1 => IntervalMsOfUnit(1, 'd');
  }

  /** `getIntervalMs` on a chart timeframe: its number of minutes in
      milliseconds. */
  function IntervalMs(i: Interval): (ms: nat)
    ensures ms == Minutes(i) * MinuteMs
  {
    IntervalMsTable(i);
    IntervalMsOfText(IntervalName(i)).value
  }

  /** One candle as the exchange sends it. */
  datatype RawCandle = RawCandle(t: int, closeTime: int, o: string, c: string, h: string, l: string,
                                 v: string, n: int)

  /** The chart's candle: its open time and `[open, high, low, close]`. */
  datatype Candle = Candle(x: int, open: real, high: real, low: real, close: real)

  /** Lines 105-113 and 147-155: the open time is kept and the four prices are
      read from the `o`, `h`, `l` and `c` strings, in that order. */
  function Normalize(parse: string -> real, raw: RawCandle): (c: Candle)
  {
    Candle(raw.t, parse(raw.o), parse(raw.h), parse(raw.l), parse(raw.c))
  }

  function NormalizeAll(parse: string -> real, raws: seq<RawCandle>): (cs: seq<Candle>)
    ensures |cs| == |raws|
    ensures forall i :: 0 <= i < |raws| ==> cs[i] == Normalize(parse, raws[i])
  {
    if raws == [] then [] else [Normalize(parse, raws[0])] + NormalizeAll(parse, raws[1..])
  }

  /** The snapshot request: coin, exchange timeframe and the time window. */
  datatype SnapshotRequest = SnapshotRequest(coin: string, interval: ExchangeInterval, startTime: int, endTime: int)

  /** Lines 97-102: the clock is read twice, `now0` for the start, which
      reaches back `limit` candles, and then `now1` for the end. */
  function SnapshotWindow(symbol: string, i: Interval, limit: int, now0: int, now1: int): (q: SnapshotRequest)
  {
    SnapshotRequest(symbol, ToExchange(i), now0 - limit * IntervalMs(i), now1)
  }

  /** The window ends at the second clock reading and spans `limit`
      timeframes plus the time that passed between the two readings; with
      equal readings the default hundred one-minute candles span 6,000,000
      ms. */
  lemma SnapshotWindowSpan(symbol: string, i: Interval, limit: int, now0: int, now1: int)
    ensures var q := SnapshotWindow(symbol, i, limit, now0, now1);
            && q.endTime == now1
            && q.endTime - q.startTime == limit * Minutes(i) * 60000 + (now1 - now0)
            && (now0 <= now1 ==> q.endTime - q.startTime >= limit * Minutes(i) * 60000)
            && q.coin == symbol && ExchangeName(q.interval) == IntervalName(i)
    ensures SnapshotWindow(symbol, M1, 100, now0, now0).startTime == now0 - 6000000
  {
  }

  /** The request a fetch sends and the candles it returns. */
  datatype Fetched = Fetched(request: SnapshotRequest, candles: seq<Candle>)

  /** `fetchInitialCandles` (lines 86-118). */
  function FetchInitialCandles(symbol: string, i: Interval, limit: int, now0: int, now1: int,
                               response: Probe<seq<RawCandle>>, parse: string -> real): (r: Fetched)
  {
    var q := SnapshotWindow(symbol, i, limit, now0, now1);
    match response
    case Threw(_) => Fetched(q, [])
    case Answered(raws) => Fetched(q, NormalizeAll(parse, raws))
  }

  /** A failure never reaches the caller: it becomes an empty list; an answer
      is normalised candle by candle, in order. */
  lemma FetchOutcome(symbol: string, i: Interval, limit: int, now0: int, now1: int,
                     response: Probe<seq<RawCandle>>, parse: string -> real)
    ensures var r := FetchInitialCandles(symbol, i, limit, now0, now1, response, parse);
            && r.request == SnapshotWindow(symbol, i, limit, now0, now1)
            && (response.Threw? ==> r.candles == [])
            && (response.Answered? ==>
                  |r.candles| == |response.answer|
                  && forall k :: 0 <= k < |r.candles| ==> r.candles[k] == Normalize(parse, response.answer[k]))
  {
  }

  /** Lines 137-161 over a stream of messages: each message is normalised
      and flagged as an update exactly when its open time equals the previous
      message's (0 before the first message). */
  method StreamFlags(parse: string -> real, msgs: seq<RawCandle>) returns (out: seq<(Candle, bool)>)
    ensures |out| == |msgs|
    ensures forall k :: 0 <= k < |msgs| ==> out[k].0 == Normalize(parse, msgs[k])
    ensures forall k :: 0 <= k < |msgs| ==>
              (out[k].1 <==> msgs[k].t == (if k == 0 then 0 else msgs[k - 1].t))
  {
    var lastCandleTime := 0;
    out := [];
    var k := 0;
    while k < |msgs|
      invariant 0 <= k <= |msgs|
      invariant |out| == k
      invariant lastCandleTime == if k == 0 then 0 else msgs[k - 1].t
      invariant forall j :: 0 <= j < k ==> out[j].0 == Normalize(parse, msgs[j])
      invariant forall j :: 0 <= j < k ==> (out[j].1 <==> msgs[j].t == (if j == 0 then 0 else msgs[j - 1].t))
    {
      var candle := Normalize(parse, msgs[k]);
      var isUpdate := msgs[k].t == lastCandleTime;
      lastCandleTime := msgs[k].t;
      out := out + [(candle, isUpdate)];
      k := k + 1;
    }
  }
}

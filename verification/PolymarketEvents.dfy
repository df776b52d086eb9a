/** The prediction-market event feed (`hooks/usePolymarketEvents.ts`):
    which markets of an event become tradeable cards, with what fields, and
    how the events of one query are flattened into one list. JSON parsing,
    `parseFloat` and the clock are function parameters. */
module PolymarketEvents {
  import opened Base
  import opened Text
  import opened Decimal

  /** A market as the events endpoint sends it; absent fields are `None`. */
  datatype GammaMarket = GammaMarket(
    id: string,
    question: Option<string>,
    description: Option<string>,
    slug: Option<string>,
    clobTokenIds: Option<string>,
    outcomePrices: Option<string>,
    liquidity: Option<string>,
    endDate: Option<string>,
    enableOrderBook: Option<bool>)

  datatype GammaEvent = GammaEvent(
    id: string,
    title: Option<string>,
    slug: Option<string>,
    description: Option<string>,
    endDate: Option<string>,
    markets: Option<seq<GammaMarket>>)

  /** The environment the parser consults: `JSON.parse` of a string array
      (`None` when it throws), `parseFloat`, whether a date lies after the
      current time, and the locale rendering of a date. */
  datatype Env = Env(
    parseStrings: string -> Option<seq<string>>,
    parseFloat: string -> Numeric,
    isFuture: string -> bool,
    localeDate: string -> string)

  /** A tradeable market card. */
  datatype EventMarket = EventMarket(
    id: string,
    question: string,
    yesProbability: real,
    noProbability: real,
    liquidity: Numeric,
    description: string,
    expiresIn: string,
    clobTokenIdYes: string,
    clobTokenIdNo: string,
    polymarketSlug: string)

  /** `a ?? b`: only an absent value falls back; an empty string is kept. */
  function Coalesce<T>(a: Option<T>, b: T): (r: T)
  {
    if a.Some? then a.value else b
  }

  /** `parseFloat(x) || 0.5`: NaN and zero fall back to one half. */
  function OrHalf(n: Numeric): (p: real)
    ensures p != 0.0
    ensures n.Num? && n.number != 0.0 ==> p == n.number
    ensures n.NaN? || n == Num(0.0) ==> p == 0.5
  {
    if n.Num? && n.number != 0.0 then n.number else 0.5
  }

  /** Lines 46-58: the yes and no prices, one half each unless the outcome
      prices parse to at least two entries. */
  function Prices(env: Env, text: Option<string>): (r: (real, real))
  {
    if !Truthy(text) then (0.5, 0.5)
    else
      match env.parseStrings(text.value)
      case None => (0.5, 0.5)
      case Some(ps) =>
        if |ps| >= 2 then (OrHalf(env.parseFloat(ps[0])), OrHalf(env.parseFloat(ps[1]))) else (0.5, 0.5)
  }

  /** Lines 61-66. */
  function ExpiresIn(env: Env, endDate: Option<string>): string
  {
    if !Truthy(endDate) then "—"
    else if env.isFuture(endDate.value) then "Ends " + env.localeDate(endDate.value)
    else "Ended"
  }

  /** The filter of lines 36-44: order book enabled, token ids and question
      present, and the token ids parse to at least two entries. */
  predicate Listable(env: Env, m: GammaMarket)
  {
    && m.enableOrderBook == Some(true) && Truthy(m.clobTokenIds) && Truthy(m.question)
    && env.parseStrings(m.clobTokenIds.value).Some?
    && |env.parseStrings(m.clobTokenIds.value).value| >= 2
  }

  /** One iteration of the loop of lines 35-80. */
  function ParseMarket(env: Env, e: GammaEvent, m: GammaMarket): Option<EventMarket>
  {
    if m.enableOrderBook != Some(true) || !Truthy(m.clobTokenIds) || !Truthy(m.question) then None
    else
      match env.parseStrings(m.clobTokenIds.value)
      case None => None
      case Some(tokenIds) =>
        if |tokenIds| < 2 then None
        else
          var prices := Prices(env, m.outcomePrices);
          var liquidity := if Truthy(m.liquidity) then env.parseFloat(m.liquidity.value) else Num(0.0);
          Some(EventMarket(
            m.id, m.question.value, prices.0, prices.1, liquidity,
            Coalesce(m.description, Coalesce(e.description, "")),
            ExpiresIn(env, if m.endDate.Some? then m.endDate else e.endDate),
            tokenIds[0], tokenIds[1],
            Coalesce(m.slug, Coalesce(e.slug, e.id))))
  }

  /** Lines 36-79: a market becomes a card exactly when it passes the filter;
      the card takes the first two token ids as yes and no, falls back to the
      event's description, end date and slug (and to the event id) only where
      the market's own field is absent, takes its prices from the outcome
      prices (never zero), and parses its liquidity, which is zero when
      absent. */
  lemma ParseMarketFields(env: Env, e: GammaEvent, m: GammaMarket)
    ensures ParseMarket(env, e, m).Some? <==> Listable(env, m)
    ensures Listable(env, m) ==>
              var r := ParseMarket(env, e, m).value;
              var ids := env.parseStrings(m.clobTokenIds.value).value;
              && r.id == m.id && r.question == m.question.value
              && r.clobTokenIdYes == ids[0] && r.clobTokenIdNo == ids[1]
              && r.polymarketSlug == (if m.slug.Some? then m.slug.value else if e.slug.Some? then e.slug.value else e.id)
              && r.description == (if m.description.Some? then m.description.value
                                   else if e.description.Some? then e.description.value else "")
              && r.expiresIn == ExpiresIn(env, if m.endDate.Some? then m.endDate else e.endDate)
              && (r.yesProbability, r.noProbability) == Prices(env, m.outcomePrices)
              && r.yesProbability != 0.0 && r.noProbability != 0.0
              && (Truthy(m.liquidity) ==> r.liquidity == env.parseFloat(m.liquidity.value))
              && (!Truthy(m.liquidity) ==> r.liquidity == Num(0.0))
  {
  }

  /** Lines 48-58: both prices stay at one half unless the outcome prices
      parse to at least two entries; a parsed price is kept unless it is NaN
      or zero. */
  lemma PricesFallBack(env: Env, text: Option<string>)
    ensures var r := Prices(env, text);
            var parsed := Truthy(text) && env.parseStrings(text.value).Some? && |env.parseStrings(text.value).value| >= 2;
            && (!parsed ==> r == (0.5, 0.5))
            && (parsed ==>
                  var ps := env.parseStrings(text.value).value;
                  && r.0 == OrHalf(env.parseFloat(ps[0])) && r.1 == OrHalf(env.parseFloat(ps[1])))
  {
  }

  /** The loop of lines 35-80 over a list of markets. */
  function ParseMarkets(env: Env, e: GammaEvent, ms: seq<GammaMarket>): (r: seq<EventMarket>)
    ensures |r| <= |ms|
    ensures forall k :: 0 <= k < |r| ==> exists i :: 0 <= i < |ms| && ParseMarket(env, e, ms[i]) == Some(r[k])
  {
    if ms == [] then []
    else
      var head := match ParseMarket(env, e, ms[0]) case Some(x) => [x] case None => [];
      var tail := ParseMarkets(env, e, ms[1..]);
      assert forall k :: 0 <= k < |tail| ==> exists i :: 1 <= i < |ms| && ParseMarket(env, e, ms[i]) == Some(tail[k]) by {
        forall k | 0 <= k < |tail|
          ensures exists i :: 1 <= i < |ms| && ParseMarket(env, e, ms[i]) == Some(tail[k])
        {
          var i :| 0 <= i < |ms[1..]| && ParseMarket(env, e, ms[1..][i]) == Some(tail[k]);
          assert ms[1..][i] == ms[i + 1];
        }
      }
      head + tail
  }

  /** `parseEventToMarkets` (lines 30-83); an event without markets has no
      cards. */
  function ParseEventToMarkets(env: Env, e: GammaEvent): seq<EventMarket>
  {
    ParseMarkets(env, e, Coalesce(e.markets, []))
  }

  /** The number of markets that pass the filter. */
  function CountListable(env: Env, ms: seq<GammaMarket>): nat
  {
    if ms == [] then 0 else (if Listable(env, ms[0]) then 1 else 0) + CountListable(env, ms[1..])
  }

  /** Every market that passes the filter gives exactly one card, in order:
      parsing a concatenation concatenates the cards, and there are as many
      cards as listable markets. */
  lemma {:induction false} ParseMarketsSplits(env: Env, e: GammaEvent, a: seq<GammaMarket>, b: seq<GammaMarket>)
    ensures ParseMarkets(env, e, a + b) == ParseMarkets(env, e, a) + ParseMarkets(env, e, b)
    ensures |ParseMarkets(env, e, a)| == CountListable(env, a)
  {
    if a != [] {
      assert (a + b)[1..] == a[1..] + b;
      assert (a + b)[0] == a[0];
      ParseMarketsSplits(env, e, a[1..], b);
      ParseMarketFields(env, e, a[0]);
      var head := match ParseMarket(env, e, a[0]) case Some(x) => [x] case None => [];
      assert ParseMarkets(env, e, a + b) == head + ParseMarkets(env, e, a[1..] + b);
      assert ParseMarkets(env, e, a) == head + ParseMarkets(env, e, a[1..]);
    } else {
      assert a + b == b;
    }
  }

  /** The cards of a list of events, in order. */
  function AllMarkets(env: Env, events: seq<GammaEvent>): seq<EventMarket>
  {
    if events == [] then [] else ParseEventToMarkets(env, events[0]) + AllMarkets(env, events[1..])
  }

  lemma {:induction false} AllMarketsSnoc(env: Env, events: seq<GammaEvent>, e: GammaEvent)
    ensures AllMarkets(env, events + [e]) == AllMarkets(env, events) + ParseEventToMarkets(env, e)
  {
    if events == [] {
      assert [e][1..] == [];
    } else {
      assert (events + [e])[1..] == events[1..] + [e];
      AllMarketsSnoc(env, events[1..], e);
    }
  }

  const EventsPath: string := "/api/polymarket/events?limit="

  /** The request of lines 89-91. */
  function QueryUrl(limit: nat): string
  {
    EventsPath + NatToString(limit) + "&closed=false"
  }

  /** The limit can be read back from the request. */
  lemma {:induction false} QueryUrlCarriesLimit(limit: nat)
    ensures IsPrefix(EventsPath, QueryUrl(limit))
    ensures ParseLeadingInt(QueryUrl(limit)[|EventsPath|..]) == Some(limit)
  {
    assert QueryUrl(limit)[|EventsPath|..] == NatToString(limit) + "&closed=false";
    ParseAfterRender(limit, "&closed=false");
  }

  /** The response of the events route: its `ok` flag and the parsed body. */
  datatype Response = Response(ok: bool, body: Probe<seq<GammaEvent>>)

  /** `queryFn` (lines 88-99): the request it sends, and the cards of every
      event in order, or the failure. */
  method QueryMarkets(env: Env, limit: nat, fetched: Probe<Response>) returns (url: string, r: Result<seq<EventMarket>>)
    ensures url == QueryUrl(limit)
    ensures fetched.Threw? ==> r == Err(fetched.thrown)
    ensures fetched.Answered? && !fetched.answer.ok ==> r == Err(Error("Failed to fetch Polymarket events"))
    ensures fetched.Answered? && fetched.answer.ok && fetched.answer.body.Threw? ==> r == Err(fetched.answer.body.thrown)
    ensures r.Ok? <==> fetched.Answered? && fetched.answer.ok && fetched.answer.body.Answered?
    ensures r.Ok? ==> r.value == AllMarkets(env, fetched.answer.body.answer)
  {
    url := QueryUrl(limit);
    if fetched.Threw? {
      return url, Err(fetched.thrown);
    }
    if !fetched.answer.ok {
      return url, Err(Error("Failed to fetch Polymarket events"));
    }
    if fetched.answer.body.Threw? {
      return url, Err(fetched.answer.body.thrown);
    }
    var events := fetched.answer.body.answer;
    var markets: seq<EventMarket> := [];
    var k := 0;
    while k < |events|
      invariant 0 <= k <= |events|
      invariant markets == AllMarkets(env, events[..k])
    {
      AllMarketsSnoc(env, events[..k], events[k]);
      assert events[..k + 1] == events[..k] + [events[k]];
      markets := markets + ParseEventToMarkets(env, events[k]);
      k := k + 1;
    }
    assert events[..k] == events;
    r := Ok(markets);
  }
}

/** The application store (`lib/store.ts`): tokens, event markets,
    portfolio and hedge positions, the selected token, and the store's
    lookups and appends. */
module AppStore {
  import opened Base

  datatype RiskScore = Low | Medium | High

  datatype Token = Token(symbol: string, name: string, price: real, change24h: real, volume24h: real,
                         riskScore: RiskScore)

  /** An event market of the store, linked to a token by symbol. */
  datatype StoreMarket = StoreMarket(id: int, token: string, question: string, yesProbability: real,
                                     noProbability: real, liquidity: real, description: string, expiresIn: string)

  datatype PositionKind = TokenPosition | EventPosition

  datatype PortfolioPosition = PortfolioPosition(
    id: string, kind: PositionKind, symbol: Option<string>, eventId: Option<int>,
    amount: real, entryPrice: real, currentValue: real, pnl: real, pnlPercent: real)

  datatype HedgePosition = HedgePosition(
    id: string, tokenSymbol: string, eventMarketId: int,
    sharesYes: real, sharesNo: real, totalCost: real, protectionPercent: real)

  datatype AppState = AppState(
    selectedToken: Option<string>,
    tokens: seq<Token>,
    eventMarkets: seq<StoreMarket>,
    portfolioPositions: seq<PortfolioPosition>,
    hedgePositions: seq<HedgePosition>)

  /** The demonstration tokens the store starts with (`lib/mock-data.ts`). */
  const MockTokens: seq<Token> := [
    Token("APT", "Aptos", 8.40, -3.24, 124500000.0, Medium),
    Token("OP", "Optimism", 3.12, 1.87, 89200000.0, Low),
    Token("ETH", "Ethereum", 2800.00, 0.45, 8950000000.0, Low),
    Token("ARB", "Arbitrum", 1.50, -1.12, 156700000.0, Medium)]

  /** The demonstration portfolio the store starts with. */
  const MockPortfolio: seq<PortfolioPosition> := [
    PortfolioPosition("1", TokenPosition, Some("APT"), None, 250.0, 8.65, 2100.0, -62.5, -2.89),
    PortfolioPosition("2", TokenPosition, Some("ETH"), None, 1.5, 2750.0, 4200.0, 75.0, 1.82),
    PortfolioPosition("3", EventPosition, None, Some(1), 100.0, 0.22, 22.0, 0.0, 0.0)]

  /** Lines 20-25: nothing selected, the demonstration tokens and portfolio,
      the given event markets and no hedges. */
  function InitialState(eventMarkets: seq<StoreMarket>): (s: AppState)
  {
    AppState(None, MockTokens, eventMarkets, MockPortfolio, [])
  }

  /** The position of the first token with the symbol (`Array.find`). */
  function FirstIndexOf(ts: seq<Token>, symbol: string): (r: Option<nat>)
    ensures r.None? <==> forall i :: 0 <= i < |ts| ==> ts[i].symbol != symbol
    ensures r.Some? ==> r.value < |ts| && ts[r.value].symbol == symbol
                        && forall j :: 0 <= j < r.value ==> ts[j].symbol != symbol
  {
    if ts == [] then None
    else if ts[0].symbol == symbol then Some(0)
    else
      var rest := FirstIndexOf(ts[1..], symbol);
      assert forall i :: 1 <= i < |ts| ==> ts[i] == ts[1..][i - 1];
      if rest.None? then None else Some(rest.value + 1)
  }

  /** `getTokenBySymbol` (lines 29-31). */
  function GetTokenBySymbol(s: AppState, symbol: string): (r: Option<Token>)
  {
    var i := FirstIndexOf(s.tokens, symbol);
    if i.None? then None else Some(s.tokens[i.value])
  }

  /** A token is found exactly when some token has the symbol, and it is the
      first such token. */
  lemma GetTokenFirstMatch(s: AppState, symbol: string)
    ensures var r := GetTokenBySymbol(s, symbol);
            && (r.Some? <==> exists i :: 0 <= i < |s.tokens| && s.tokens[i].symbol == symbol)
            && (r.Some? ==> exists i :: 0 <= i < |s.tokens| && s.tokens[i] == r.value && r.value.symbol == symbol
                                        && forall j :: 0 <= j < i ==> s.tokens[j].symbol != symbol)
  {
  }

  /** The markets linked to a symbol, in order (`Array.filter`). */
  function MarketsFor(ms: seq<StoreMarket>, symbol: string): (r: seq<StoreMarket>)
    ensures |r| <= |ms|
    ensures forall k :: 0 <= k < |r| ==> r[k].token == symbol
  {
    if ms == [] then []
    else (if ms[0].token == symbol then [ms[0]] else []) + MarketsFor(ms[1..], symbol)
  }

  /** `getEventMarketsForToken` (lines 33-35). */
  function GetEventMarketsForToken(s: AppState, symbol: string): seq<StoreMarket>
  {
    MarketsFor(s.eventMarkets, symbol)
  }

  /** The filter keeps exactly the markets linked to the symbol: a market is
      in the result if and only if it is in the store and carries the symbol,
      and filtering a concatenation concatenates the results (so order is
      kept). */
  lemma {:induction false} MarketsForExactly(ms: seq<StoreMarket>, more: seq<StoreMarket>, symbol: string)
    ensures forall m :: m in MarketsFor(ms, symbol) <==> m in ms && m.token == symbol
    ensures MarketsFor(ms + more, symbol) == MarketsFor(ms, symbol) + MarketsFor(more, symbol)
  {
    if ms != [] {
      MarketsForExactly(ms[1..], more, symbol);
      assert ms == [ms[0]] + ms[1..];
      assert (ms + more)[1..] == ms[1..] + more;
      assert (ms + more)[0] == ms[0];
    } else {
      assert ms + more == more;
    }
  }

  /** `setSelectedToken` (line 27): any symbol is accepted, whether or not a
      token has it. */
  function SetSelectedToken(s: AppState, symbol: string): (r: AppState)
  {
    s.(selectedToken := Some(symbol))
  }

  /** Selecting records the symbol and touches nothing else; selecting the
      same symbol again changes nothing; and the selection is kept even for
      a symbol no token has. */
  lemma SelectionOnlyChangesSelection(s: AppState, symbol: string)
    ensures var r := SetSelectedToken(s, symbol);
            && r.selectedToken == Some(symbol)
            && r.tokens == s.tokens && r.eventMarkets == s.eventMarkets
            && r.portfolioPositions == s.portfolioPositions && r.hedgePositions == s.hedgePositions
            && SetSelectedToken(r, symbol) == r
            && GetTokenBySymbol(r, symbol) == GetTokenBySymbol(s, symbol)
  {
  }

  /** `addPortfolioPosition` (lines 37-41). */
  function AddPortfolioPosition(s: AppState, p: PortfolioPosition): (r: AppState)
  {
    s.(portfolioPositions := s.portfolioPositions + [p])
  }

  /** `addHedgePosition` (lines 43-47). */
  function AddHedgePosition(s: AppState, h: HedgePosition): (r: AppState)
  {
    s.(hedgePositions := s.hedgePositions + [h])
  }

  /** Adding a position appends it after every existing one (no
      de-duplication by id) and changes no other part of the store; the
      lookups answer as before. */
  lemma AddsAppendOnly(s: AppState, p: PortfolioPosition, h: HedgePosition, symbol: string)
    ensures var r := AddPortfolioPosition(s, p);
            && |r.portfolioPositions| == |s.portfolioPositions| + 1
            && r.portfolioPositions[..|s.portfolioPositions|] == s.portfolioPositions
            && r.portfolioPositions[|s.portfolioPositions|] == p
            && r.(portfolioPositions := s.portfolioPositions) == s
            && GetTokenBySymbol(r, symbol) == GetTokenBySymbol(s, symbol)
            && GetEventMarketsForToken(r, symbol) == GetEventMarketsForToken(s, symbol)
    ensures var r := AddHedgePosition(s, h);
            && |r.hedgePositions| == |s.hedgePositions| + 1
            && r.hedgePositions[..|s.hedgePositions|] == s.hedgePositions
            && r.hedgePositions[|s.hedgePositions|] == h
            && r.(hedgePositions := s.hedgePositions) == s
    ensures AddHedgePosition(AddPortfolioPosition(s, p), h) == AddPortfolioPosition(AddHedgePosition(s, h), p)
  {
    assert (s.portfolioPositions + [p])[..|s.portfolioPositions|] == s.portfolioPositions;
    assert (s.hedgePositions + [h])[..|s.hedgePositions|] == s.hedgePositions;
  }

  /** The initial store: nothing selected, no hedges, the four demonstration
      tokens, each found by its symbol, and no token for an unknown symbol. */
  lemma InitialStateLookups(markets: seq<StoreMarket>)
    ensures var s := InitialState(markets);
            && s.selectedToken.None? && s.hedgePositions == [] && |s.portfolioPositions| == 3
            && GetTokenBySymbol(s, "ETH") == Some(MockTokens[2])
            && GetTokenBySymbol(s, "BTC").None?
  {
    assert MockTokens[0].symbol != "ETH";
    assert MockTokens[1].symbol != "ETH";
    assert MockTokens[2].symbol == "ETH";
    assert forall i :: 0 <= i < |MockTokens| ==> MockTokens[i].symbol != "BTC";
  }
}

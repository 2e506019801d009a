/** The three endpoints of the dev ticker server, and the choice made at
    start-up between installing them directly and installing them wrapped by
    the fault injector. HTTP, JSON shaping and timestamps are not modelled. */
module TickerServer {
  import opened Wrappers
  import opened Ascii
  import opened TokenCatalog
  import opened Prices
  import opened Sloppy

  /** A GET request to one of the three routes. */
  datatype Request =
    | LatestQuote(symbol: string)         // /cryptocurrency/quotes/latest?symbol=...
    | CoinsList                           // /api/v3/coins/list
    | MarketChart(coinId: Option<string>) // /api/v3/coins/{coin_id}/market_chart

  /** What a handler produces; `CatalogPanic` is the list handler panicking
      because a catalog record cannot be read. */
  datatype Response =
    | Quote(quote: SymbolQuote)
    | Coins(tokens: seq<TokenData>)
    | Chart(price: real)
    | CatalogPanic(error: LoadError)

  /** The catalog as read from disk, the price multiplier drawn by the
      handler, and the request: the handler's response. The catalog is read
      again for every coins-list request. */
  function Handle(catalog: seq<Record>, m: Multiplier, req: Request): (resp: Response)
    ensures req.LatestQuote? ==> resp == Quote(QuoteBySymbol(req.symbol, m))
    ensures req.MarketChart? ==> resp == Chart(QuoteByCoinId(req.coinId, m))
    ensures req.CoinsList? ==> (resp.Coins? <==> LoadTokens(catalog).Success?)
    ensures resp.Coins? ==> req.CoinsList? && resp.tokens == LoadTokens(catalog).value
    ensures resp.CatalogPanic? ==> req.CoinsList? && LoadTokens(catalog) == Failure(resp.error)
  {
    match req
    case LatestQuote(symbol) => Quote(QuoteBySymbol(symbol, m))
    case MarketChart(coinId) => Chart(QuoteByCoinId(coinId, m))
    case CoinsList =>
      match LoadTokens(catalog)
      case Success(tokens) => Coins(tokens)
      case Failure(e) => CatalogPanic(e)
  }

  /** The three random draws of the fault injector. */
  datatype FaultDraws = FaultDraws(first: int, second: int, third: nat)

  /** `main_scope`: the outcome of one request, with the fault injector
      installed or not. */
  function Serve(sloppy: bool, catalog: seq<Record>, m: Multiplier, draws: FaultDraws, req: Request): (o: Outcome<Response>)
    ensures !sloppy ==> o == Served(0, Handle(catalog, m, req))
    ensures sloppy ==> (o.InternalServerError? <==> FailsRequest(draws.first))
    ensures o.Served? ==> o.response == Handle(catalog, m, req)
    ensures sloppy && o.Served? ==> o.delayMs == DelayMs(draws.second, draws.third)
  {
    var handler := (r: Request) => Handle(catalog, m, r);
    if sloppy then MakeSloppy(handler, req, draws.first, draws.second, draws.third)
    else Direct(handler, req)
  }

  /** With fault injection off, no request fails or waits; with it on, a
      request that is served gets exactly the direct response, after 100 ms
      to 5 s. */
  lemma FaultInjectionOnlyFailsOrDelays(sloppy: bool, catalog: seq<Record>, m: Multiplier, draws: FaultDraws, req: Request)
    requires 0 <= draws.first < 100 && 0 <= draws.second < 100 && 100 <= draws.third < 1000
    ensures var o := Serve(sloppy, catalog, m, draws, req);
      && (!sloppy ==> o.Served? && o.delayMs == 0)
      && (o.Served? ==> o.response == Serve(false, catalog, m, draws, req).response)
      && (sloppy && o.Served? ==> 100 <= o.delayMs <= 5000)
  {
  }

  /** For every symbol the quotes endpoint prices, the coin id that the
      coins list gives a token of that symbol is priced the same by the
      market-chart endpoint: "ETH" and "ethereum" both at 200, "wBTC" and
      "wrapped-bitcoin" at 9000, "BAT" and "basic-attention-token" at 0.2,
      and "DAI", "tGLM", "GLM" and their ids "dai", "tglm", "glm" at 1. */
  lemma ListedTokenPricesAgree(symbol: string, address: string)
    requires symbol in KnownSymbols
    ensures CoinIdBasePrice(Some(MakeToken(symbol, address).id)) == SymbolBasePrice(symbol)
  {
    match symbol
    case "ETH" => assert ToAsciiLowercase(symbol) == "eth";
    case "wBTC" => assert ToAsciiLowercase(symbol) == "wbtc";
    case "BAT" => assert ToAsciiLowercase(symbol) == "bat";
    case "DAI" => assert ToAsciiLowercase(symbol) == "dai";
    case "tGLM" => assert ToAsciiLowercase(symbol) == "tglm";
    case "GLM" => assert ToAsciiLowercase(symbol) == "glm";
  }

  /** The two endpoints disagree on coins they do not know: a symbol outside
      both tables quotes at 0 by symbol, but its listed coin id charts at 1. */
  lemma UnknownTokenPricesDisagree(symbol: string, address: string)
    requires symbol !in KnownSymbols
    requires ToAsciiLowercase(symbol) !in KnownCoinIds
    requires ToAsciiLowercase(symbol) !in {"eth", "wbtc", "bat"}
    ensures SymbolBasePrice(symbol) == 0.0
    ensures CoinIdBasePrice(Some(MakeToken(symbol, address).id)) == 1.0
  {
  }

  /** A catalog holding "ETH" at address "0xAB" lists the single coin
      `{id: "ethereum", symbol: "eth", name: "eth", platforms: {"ethereum": "0xab"}}`. */
  lemma EthCatalogEntry(m: Multiplier)
    ensures Handle([map["symbol" := JString("ETH"), "address" := JString("0xAB")]], m, CoinsList)
      == Coins([TokenData("ethereum", "eth", "eth", map["ethereum" := "0xab"])])
  {
    var rec := map["symbol" := JString("ETH"), "address" := JString("0xAB")];
    assert ToAsciiLowercase("ETH") == "eth";
    assert ToAsciiLowercase("0xAB") == "0xab";
    assert WellFormed([rec][0]);
    assert LoadTokens([rec]).value == [MakeToken("ETH", "0xAB")];
  }
}

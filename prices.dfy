/** The two price handlers' arithmetic: a base price looked up in a fixed
    table, times a random multiplier. The multiplier is an exact real here;
    the floating-point draw and its conversion to a decimal are not modelled. */
module Prices {
  import opened Wrappers
  import opened Ascii

  /** A draw of `gen_range(0.9, 1.1)`: half-open, 0.9 included, 1.1 not. */
  type Multiplier = m: real | 0.9 <= m < 1.1 witness 1.0

  /** The ticker symbols the quotes endpoint knows, spelled case-sensitively. */
  const KnownSymbols: set<string> := {"ETH", "wBTC", "BAT", "DAI", "tGLM", "GLM"}

  /** The coin ids the market-chart endpoint knows. */
  const KnownCoinIds: set<string> := {"ethereum", "wrapped-bitcoin", "basic-attention-token"}

  /** Base price of a ticker symbol, by exact match; an unknown symbol costs nothing. */
  function SymbolBasePrice(symbol: string): (base: real)
    ensures base >= 0.0
    ensures base > 0.0 <==> symbol in KnownSymbols
  {
    match symbol
    case "ETH" => 200.0
    case "wBTC" => 9000.0
    case "BAT" => 0.2
    case "DAI" => 1.0
    case "tGLM" => 1.0
    case "GLM" => 1.0
    case _ => 0.0
  }

  /** Base price of a coin id; an unknown id, or no id at all, costs 1. */
  function CoinIdBasePrice(coinId: Option<string>): (base: real)
    ensures base >= 0.2
    ensures base != 1.0 <==> coinId.Some? && coinId.value in KnownCoinIds
  {
    match coinId
    case Some("ethereum") => 200.0
    case Some("wrapped-bitcoin") => 9000.0
    case Some("basic-attention-token") => 0.2
    case _ => 1.0
  }

  /** `base * multiplier`: within 10% of the base, of the base's sign, and zero
      exactly when the base is. */
  function SynthesizedPrice(base: real, m: Multiplier): (price: real)
    ensures base >= 0.0 ==> 0.9 * base <= price <= 1.1 * base
    ensures base > 0.0 ==> price < 1.1 * base
    ensures price == 0.0 <==> base == 0.0
    ensures price > 0.0 <==> base > 0.0
  {
    ProductSign(base, m);
    ProductSign(base, m - 0.9);
    ProductSign(base, 1.1 - m);
    base * m
  }

  /** The sign of a product of reals, from the signs of its factors. */
  lemma ProductSign(x: real, y: real)
    ensures x >= 0.0 && y >= 0.0 ==> x * y >= 0.0
    ensures x > 0.0 && y > 0.0 ==> x * y > 0.0
    ensures x < 0.0 && y > 0.0 ==> x * y < 0.0
  {
  }

  /** The body of a quotes-endpoint response: the price is keyed by the
      symbol exactly as the client sent it. */
  datatype SymbolQuote = SymbolQuote(symbol: string, price: real)

  /** `handle_coinmarketcap_token_price_query` without the JSON and the timestamp. */
  function QuoteBySymbol(symbol: string, m: Multiplier): (q: SymbolQuote)
    ensures q.symbol == symbol
    ensures q.price >= 0.0
    ensures q.price > 0.0 <==> symbol in KnownSymbols
    ensures 0.9 * SymbolBasePrice(symbol) <= q.price <= 1.1 * SymbolBasePrice(symbol)
  {
    SymbolQuote(symbol, SynthesizedPrice(SymbolBasePrice(symbol), m))
  }

  /** `handle_coingecko_token_price_query` without the JSON and the timestamp. */
  function QuoteByCoinId(coinId: Option<string>, m: Multiplier): (price: real)
    ensures price >= 0.9 * 0.2
    ensures 0.9 * CoinIdBasePrice(coinId) <= price < 1.1 * CoinIdBasePrice(coinId)
  {
    SynthesizedPrice(CoinIdBasePrice(coinId), m)
  }

  /** The symbol table tells case apart: a known symbol spelled in another case
      ("eth", "WBTC") is an unknown symbol and quotes at zero. */
  lemma SymbolTableIsCaseSensitive(s: string, k: string, m: Multiplier)
    requires k in KnownSymbols && s != k && EqIgnoreAsciiCase(s, k)
    ensures SymbolBasePrice(s) == 0.0 && QuoteBySymbol(s, m).price == 0.0
  {
  }

  /** Any symbol outside the table quotes at zero, whatever the multiplier. */
  lemma UnknownSymbolQuotesZero(symbol: string, m: Multiplier)
    requires symbol !in KnownSymbols
    ensures QuoteBySymbol(symbol, m).price == 0.0
  {
  }

  /** A quote for "ETH" lies in [180, 220]. */
  lemma EthQuoteInBand(m: Multiplier)
    ensures 180.0 <= QuoteBySymbol("ETH", m).price <= 220.0
  {
  }

  /** A market chart for "wrapped-bitcoin" lies in [8100, 9900]. */
  lemma WrappedBitcoinChartInBand(m: Multiplier)
    ensures 8100.0 <= QuoteByCoinId(Some("wrapped-bitcoin"), m) <= 9900.0
  {
  }
}

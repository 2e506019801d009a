# Dev ticker server — a Dafny model

The dev ticker server (`core/bin/zksync_api/src/bin/dev-ticker-server.rs`) stands in
for two third-party price APIs during local development. It serves three GET routes:

- `/cryptocurrency/quotes/latest?symbol=S` — a quote for ticker symbol `S`,
- `/api/v3/coins/list` — the token catalog as a coin list,
- `/api/v3/coins/{coin_id}/market_chart` — a price for a coin id.

A start-up flag, `--sloppy`, wraps every handler in a fault injector. The injector fails
5% of requests with a bare 500 response and delays the rest.

This project models the server's decision logic as pure Dafny functions. Randomness,
time and I/O are parameters. The model has five parts:

- `Ascii` — Rust's `to_ascii_lowercase` and `eq_ignore_ascii_case` on strings.
- `TokenCatalog` — `load_tokens`. Each catalog record becomes a `TokenData`. The symbol
  and the address are ASCII-lowercased. The name is the lowercased symbol. The only
  platform is `"ethereum"`, mapped to the lowercased address. The id is a fixed slug for
  `eth`, `wbtc` and `bat`, and the lowercased symbol otherwise. A record with a missing
  or non-string `symbol` or `address` makes the source panic. Here that panic is a
  `Failure` that names the first such record and the field (`symbol` is read before
  `address`).
- `Prices` — the two base-price tables and `price = base * multiplier`. The multiplier is
  an exact real in [0.9, 1.1).
- `Sloppy` — `make_sloppy!`. The first draw in [0, 100) fails the request when it is
  below 5, and the wrapped handler is then not run. Otherwise the second draw in [0, 100)
  picks the delay: 0–59 gives 100 ms, 60–69 gives 5 s, 70–99 gives the third draw in
  [100, 1000) ms. The handler's response is then returned unchanged.
- `TickerServer` — the three handlers, the direct-or-sloppy choice of `main_scope`, and
  the lemmas that relate the two price tables to the coin list.

`Wrappers` holds the `Option` and `Result` datatypes.

Points where the code's behaviour is easy to misread (the model follows the code):

- An unknown ticker symbol has base price 0. An unknown coin id, or a missing one, has
  base price 1. So a token outside both tables is quoted at 0 by symbol and at about 1
  by its coin id (`TickerServer.UnknownTokenPricesDisagree`).
- A token's `name` is the lowercased symbol, not the symbol as written in the catalog.
- The multiplier is drawn from the half-open range [0.9, 1.1): 0.9 is possible and 1.1
  is not.
- The id table is not one-to-one. A catalog symbol `ETHEREUM` also gets the id
  `ethereum`, the same as `ETH` (`TokenCatalog.CanonicalIdCollisions`).
- The quote response is keyed by the symbol exactly as the client sent it.

## Model

| member | source | states |
|---|---|---|
| `Ascii.ToAsciiLowercase` | core/bin/zksync_api/src/bin/dev-ticker-server.rs:102-103 | lowercasing keeps the length and lowers each character on its own; only `A`–`Z` change |
| `Ascii.LowercaseIsLowercase` | core/bin/zksync_api/src/bin/dev-ticker-server.rs:102-103 | a lowercased string has no upper-case ASCII letter |
| `Ascii.LowercaseFixesExactlyLowercase` | core/bin/zksync_api/src/bin/dev-ticker-server.rs:102-103 | lowercasing leaves a string unchanged exactly when it has no upper-case ASCII letter |
| `Ascii.LowercaseIdempotent` | core/bin/zksync_api/src/bin/dev-ticker-server.rs:102-103 | lowercasing twice is the same as lowercasing once |
| `Ascii.LowercaseEqualIffEqIgnoreCase` | core/bin/zksync_api/src/bin/dev-ticker-server.rs:102-103 | two strings lower to the same string exactly when they are equal up to ASCII case |
| `TokenCatalog.CanonicalIdSlugs` | core/bin/zksync_api/src/bin/dev-ticker-server.rs:106-111 | the id is `ethereum` / `wrapped-bitcoin` / `basic-attention-token` exactly when the symbol is that slug's ticker or the slug itself; any other symbol is its own id |
| `TokenCatalog.MakeTokenShape` | core/bin/zksync_api/src/bin/dev-ticker-server.rs:102-118 | symbol is the lowercased input and has no upper-case letter; name equals symbol; platforms has exactly the key `ethereum`, mapped to the lowercased address; id is the canonical id of the symbol |
| `TokenCatalog.TokenFromRecord` | core/bin/zksync_api/src/bin/dev-ticker-server.rs:101-119 | a record gives an entry exactly when `symbol` and `address` are both present strings; otherwise it fails on `symbol` first, as missing or as not a string |
| `TokenCatalog.LoadTokens` | core/bin/zksync_api/src/bin/dev-ticker-server.rs:94-122 | success exactly when every record is readable; then one entry per record, in order; otherwise the error names the first unreadable record and its cause |
| `TokenCatalog.MakeTokenIgnoresAsciiCase` | core/bin/zksync_api/src/bin/dev-ticker-server.rs:102-118 | two records give equal entries exactly when their symbols and their addresses are equal up to ASCII case (`ETH` and `eth` give the same entry) |
| `TokenCatalog.CanonicalIdCollisions` | core/bin/zksync_api/src/bin/dev-ticker-server.rs:106-111 | distinct symbols share an id exactly when they are a ticker and its slug (`eth`/`ethereum`, `wbtc`/`wrapped-bitcoin`, `bat`/`basic-attention-token`) |
| `TokenCatalog.LoadTokensConcat` | core/bin/zksync_api/src/bin/dev-ticker-server.rs:99-120 | loading a concatenated catalog succeeds exactly when both parts load, and gives the two lists joined |
| `Prices.SymbolBasePrice` | core/bin/zksync_api/src/bin/dev-ticker-server.rs:56-64 | base prices are never negative and positive exactly for `ETH`, `wBTC`, `BAT`, `DAI`, `tGLM`, `GLM`, matched case-sensitively |
| `Prices.CoinIdBasePrice` | core/bin/zksync_api/src/bin/dev-ticker-server.rs:130-136 | base prices are at least 0.2, and differ from 1 exactly for the three known ids; an unknown or missing id gives 1 |
| `Prices.SynthesizedPrice` | core/bin/zksync_api/src/bin/dev-ticker-server.rs:65-67 | for a non-negative base, the price lies in [0.9·base, 1.1·base], strictly below 1.1·base when base > 0; the price is 0 exactly when the base is 0 and positive exactly when the base is |
| `Prices.QuoteBySymbol` | core/bin/zksync_api/src/bin/dev-ticker-server.rs:52-83 | the quote is keyed by the symbol as sent; its price is non-negative, within 10% of the symbol's base, and positive exactly for a known symbol |
| `Prices.QuoteByCoinId` | core/bin/zksync_api/src/bin/dev-ticker-server.rs:129-148 | the chart price is at least 0.18 and within [0.9, 1.1) times the id's base price |
| `Prices.SymbolTableIsCaseSensitive` | core/bin/zksync_api/src/bin/dev-ticker-server.rs:56-64 | a known symbol spelled in another ASCII case (`eth`, `WBTC`) is priced 0 |
| `Prices.UnknownSymbolQuotesZero` | core/bin/zksync_api/src/bin/dev-ticker-server.rs:63-67 | an unknown symbol is quoted at 0 whatever the multiplier |
| `Prices.EthQuoteInBand` | core/bin/zksync_api/src/bin/dev-ticker-server.rs:56-67 | a quote for `ETH` lies in [180, 220] |
| `Prices.WrappedBitcoinChartInBand` | core/bin/zksync_api/src/bin/dev-ticker-server.rs:131-138 | a chart price for `wrapped-bitcoin` lies in [8100, 9900] |
| `Sloppy.DelayMs` | core/bin/zksync_api/src/bin/dev-ticker-server.rs:30-37 | the delay is 100 ms for the first bucket, 5000 ms for the second and the third draw for the third; with the third draw in [100, 1000) it is always in [100, 5000] |
| `Sloppy.Direct` | core/bin/zksync_api/src/bin/dev-ticker-server.rs:165-178 | an unwrapped handler serves its own response with no delay |
| `Sloppy.MakeSloppy` | core/bin/zksync_api/src/bin/dev-ticker-server.rs:22-50 | the wrapper fails exactly when the first draw is below 5, and then the outcome holds no response of the handler; otherwise it serves the handler's response unchanged after the chosen delay |
| `Sloppy.ErrorDrawCount` | core/bin/zksync_api/src/bin/dev-ticker-server.rs:25-28 | exactly 5 of the 100 first draws fail the request and 95 let it through |
| `Sloppy.BucketSizes` | core/bin/zksync_api/src/bin/dev-ticker-server.rs:30-37 | the 100 second draws split 60 / 10 / 30 into the 100 ms, 5 s and 100–999 ms delays, as the `--sloppy` help text (lines 188-192) says |
| `Sloppy.ServedDelayBounds` | core/bin/zksync_api/src/bin/dev-ticker-server.rs:30-47 | with draws in their ranges, a request that is not failed is served the handler's response after 100 ms to 5 s |
| `TickerServer.Handle` | core/bin/zksync_api/src/bin/dev-ticker-server.rs:52-148 | each route gets its handler's response; the coins list is the loaded catalog, or the load's panic when a record cannot be read |
| `TickerServer.Serve` | core/bin/zksync_api/src/bin/dev-ticker-server.rs:150-179 | without `--sloppy` every request is served directly with no delay; with it, a request fails exactly when the first draw is below 5, and a served request gets the direct response after the delay the second (and third) draw picks, `Sloppy.DelayMs` |
| `TickerServer.FaultInjectionOnlyFailsOrDelays` | core/bin/zksync_api/src/bin/dev-ticker-server.rs:150-179 | fault injection never changes a served response; it only fails or delays by 100 ms to 5 s; without it nothing fails or waits |
| `TickerServer.ListedTokenPricesAgree` | core/bin/zksync_api/src/bin/dev-ticker-server.rs:56-136 | for each of the six known symbols, the coin id the list gives it has the same base price in the id table as the symbol has in the symbol table |
| `TickerServer.UnknownTokenPricesDisagree` | core/bin/zksync_api/src/bin/dev-ticker-server.rs:56-136 | a token in neither table has base 0 by symbol but base 1 by its coin id |
| `TickerServer.EthCatalogEntry` | core/bin/zksync_api/src/bin/dev-ticker-server.rs:99-120 | a catalog holding `ETH` at `0xAB` lists exactly the coin `ethereum` with symbol and name `eth` and platform address `0xab` |

## Left out

- The actix-web server, CORS, the logger middleware, `main`, the bind address and the
  StructOpt flag parsing are not modelled. Only the flag's effect is: `TickerServer.Serve`
  takes it as a boolean.
- A quotes request without a `symbol` query parameter is not modelled. actix's
  `web::Query` extractor (lines 52-53) rejects it before the handler runs, and in sloppy
  mode before any draw; `LatestQuote` always carries a symbol.
- Opening the catalog file and parsing its JSON are not modelled. The input is the parsed
  array of records, a parameter of `TickerServer.Handle`. Re-reading it on every request
  shows only in that it is passed to each call. A file that cannot be opened, or that is
  not an array of objects, is not modelled.
- What actix does with a handler that panics is not modelled. `TickerServer.Handle`
  returns the panic's cause as `CatalogPanic`.
- JSON response shaping, `Utc::now()` timestamps, RFC 3339 formatting and the logging
  calls are not modelled: they are serialisation, wall-clock time and output.
- The `thread_rng()` draws are parameters. That the draws are uniform is not modelled.
  The distribution lemmas count draw values out of the 100 possible ones instead.
- `tokio::time::delay_for` is not modelled. The chosen delay is returned in milliseconds.
  Async execution and concurrency are left out.
- The f64 multiplier and `BigDecimal::try_from(f64)` are not modelled. The multiplier is
  an exact real in [0.9, 1.1), and BAT's base price is exactly 1/5. Rounding in the
  float-to-decimal conversion is not modelled.
- Unicode strings are sequences of `char`. Lowercasing is ASCII-only in the source too,
  so no Unicode case mapping is missing.

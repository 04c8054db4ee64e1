/**
 * The Korean screener's data assembly: Upbit's KRW markets for the tokens
 * of the symbol table, Upbit tickers, Bithumb volumes and CoinGecko prices
 * combined into one row per token with its "kimchi premium" (how much
 * dearer it trades in won than BTC's own won price implies), its combined
 * won volume and its volume-to-market-cap ratio, busiest first. The
 * requests are left out: their parsed answers are parameters.
 */
module KoreanFetch {
  import opened Common
  import opened Sorting

  /** The won per dollar rate assumed when BTC has no dollar price, and the baseline of BTC's own premium. */
  const BaselineKrwUsd := 1450.0

  /** Upbit base symbol to CoinGecko id, in declaration order. */
  const UpbitToGecko: seq<(string, string)> := [
    ("BTC", "bitcoin"), ("ETH", "ethereum"), ("XRP", "ripple"), ("SOL", "solana"), ("DOGE", "dogecoin"),
    ("ADA", "cardano"), ("AVAX", "avalanche-2"), ("LINK", "chainlink"), ("DOT", "polkadot"), ("TRX", "tron"),
    ("MATIC", "matic-network"), ("SHIB", "shiba-inu"), ("ATOM", "cosmos"), ("UNI", "uniswap"),
    ("NEAR", "near"), ("APT", "aptos"), ("SUI", "sui"), ("ARB", "arbitrum"), ("OP", "optimism"),
    ("FIL", "filecoin"), ("HBAR", "hedera-hashgraph"), ("VET", "vechain"), ("ALGO", "algorand"),
    ("SAND", "the-sandbox"), ("MANA", "decentraland"), ("AAVE", "aave"), ("EOS", "eos"), ("XLM", "stellar"),
    ("FLOW", "flow"), ("IMX", "immutable-x"), ("SEI", "sei-network"), ("STX", "blockstack"),
    ("INJ", "injective-protocol"), ("THETA", "theta-token"), ("GRT", "the-graph"), ("AXS", "axie-infinity"),
    ("CRV", "curve-dao-token"), ("ENS", "ethereum-name-service"), ("COMP", "compound-governance-token"),
    ("ZRX", "0x"), ("BAT", "basic-attention-token"), ("IOTA", "iota"), ("QTUM", "qtum"), ("NEO", "neo"),
    ("KAVA", "kava"), ("ONT", "ontology"), ("ZIL", "zilliqa"), ("ICX", "icon"), ("STORJ", "storj"),
    ("SNX", "havven")
  ]

  /** The prefix of every Upbit won market code. */
  const KrwPrefix := "KRW-"

  // ---------------------------------------------------------------------------
  // The KRW markets.

  datatype UpbitMarket = UpbitMarket(market: string, englishName: string)

  /** `UPBIT_TO_GECKO[sym]` is truthy: the table has a non-empty id for the symbol. */
  predicate Mapped(table: seq<(string, string)>, sym: string)
  {
    sym in LastWins(table) && LastWins(table)[sym] != ""
  }

  /** The base symbol of a market code: the first "KRW-" removed. */
  function BaseOf(market: string): (sym: string)
    ensures StartsWith(market, KrwPrefix) ==> sym == market[|KrwPrefix|..]
  {
    RemoveFirst(market, KrwPrefix)
  }

  predicate IsKrwMarket(table: seq<(string, string)>, m: UpbitMarket)
  {
    StartsWith(m.market, KrwPrefix) && Mapped(table, BaseOf(m.market))
  }

  /** The won markets whose base symbol the table maps, in Upbit's order. */
  function KrwMarkets(table: seq<(string, string)>, markets: seq<UpbitMarket>): (r: seq<UpbitMarket>)
    ensures |r| <= |markets|
    ensures forall m :: m in r <==> m in markets && StartsWith(m.market, KrwPrefix) && Mapped(table, m.market[|KrwPrefix|..])
  {
    if |markets| == 0 then []
    else
      var init := markets[..|markets| - 1];
      var last := markets[|markets| - 1];
      assert markets == init + [last];
      KrwMarkets(table, init) + (if IsKrwMarket(table, last) then [last] else [])
  }

  function MarketCodes(krw: seq<UpbitMarket>): (codes: seq<string>)
    ensures |codes| == |krw| && forall k :: 0 <= k < |krw| ==> codes[k] == krw[k].market
  {
    seq(|krw|, k requires 0 <= k < |krw| => krw[k].market)
  }

  // ---------------------------------------------------------------------------
  // The lookups.

  /** An Upbit ticker; the fields read with `?? 0` are options. */
  datatype UpbitTicker = UpbitTicker(market: string, tradePrice: real, accTradePrice24h: Option<real>,
                                     signedChangeRate: Option<real>)

  /** A CoinGecko market; the market cap is read with `?? 0`. */
  datatype GeckoMarket = GeckoMarket(id: string, symbol: string, currentPrice: real, marketCap: Option<real>)

  /** A Bithumb ticker, already parsed. */
  datatype BithumbTicker = BithumbTicker(price: real, volume24h: real)

  function TickerPairs(tickers: seq<UpbitTicker>): (r: seq<(string, UpbitTicker)>)
    ensures |r| == |tickers| && forall k :: 0 <= k < |r| ==> r[k] == (BaseOf(tickers[k].market), tickers[k])
  {
    seq(|tickers|, k requires 0 <= k < |tickers| => (BaseOf(tickers[k].market), tickers[k]))
  }

  function NamePairs(krw: seq<UpbitMarket>): (r: seq<(string, string)>)
    ensures |r| == |krw| && forall k :: 0 <= k < |r| ==> r[k] == (BaseOf(krw[k].market), krw[k].englishName)
  {
    seq(|krw|, k requires 0 <= k < |krw| => (BaseOf(krw[k].market), krw[k].englishName))
  }

  function GeckoPairs(gs: seq<GeckoMarket>): (r: seq<(string, GeckoMarket)>)
    ensures |r| == |gs| && forall k :: 0 <= k < |r| ==> r[k] == (AsciiUpper(gs[k].symbol), gs[k])
  {
    seq(|gs|, k requires 0 <= k < |gs| => (AsciiUpper(gs[k].symbol), gs[k]))
  }

  // ---------------------------------------------------------------------------
  // The premium formulas.

  /** Won per dollar as BTC's two prices imply it, or the baseline when BTC has no dollar price. */
  function ImpliedKrwUsd(btcKrw: real, btcUsd: real): (r: real)
    ensures btcUsd > 0.0 ==> r * btcUsd == btcKrw
    ensures btcUsd <= 0.0 ==> r == BaselineKrwUsd
  {
    if btcUsd > 0.0 then btcKrw / btcUsd else BaselineKrwUsd
  }

  /** BTC's own premium in percent over the baseline rate; 0 when BTC has no dollar price. */
  function BtcKimchiPremium(btcKrw: real, btcUsd: real): (r: real)
    ensures btcUsd <= 0.0 ==> r == 0.0
    ensures btcUsd > 0.0 ==> (r + 100.0) * BaselineKrwUsd == 100.0 * ImpliedKrwUsd(btcKrw, btcUsd)
  {
    if btcUsd > 0.0 then (btcKrw / BaselineKrwUsd / btcUsd - 1.0) * 100.0 else 0.0
  }

  /** BTC trades at a premium exactly when its implied rate is above the baseline, and at none when they agree. */
  lemma BtcPremiumSign(btcKrw: real, btcUsd: real)
    requires btcUsd > 0.0
    ensures BtcKimchiPremium(btcKrw, btcUsd) > 0.0 <==> ImpliedKrwUsd(btcKrw, btcUsd) > BaselineKrwUsd
    ensures BtcKimchiPremium(btcKrw, btcUsd) == 0.0 <==> ImpliedKrwUsd(btcKrw, btcUsd) == BaselineKrwUsd
  {
  }

  /**
   * A token's premium in percent: how far its won over dollar price lies
   * above the rate BTC implies; 0 unless the token's dollar price and both
   * BTC prices are positive.
   */
  function KimchiPremium(krwPrice: real, usdPrice: real, btcKrw: real, btcUsd: real): (r: real)
    ensures !(usdPrice > 0.0 && btcKrw > 0.0 && btcUsd > 0.0) ==> r == 0.0
    ensures usdPrice > 0.0 && btcKrw > 0.0 && btcUsd > 0.0 ==>
      (r + 100.0) * ImpliedKrwUsd(btcKrw, btcUsd) == 100.0 * (krwPrice / usdPrice)
  {
    var implied := ImpliedKrwUsd(btcKrw, btcUsd);
    if usdPrice > 0.0 && btcKrw > 0.0 && btcUsd > 0.0 then (krwPrice / usdPrice / implied - 1.0) * 100.0 else 0.0
  }

  /**
   * With the three prices positive, the premium is positive exactly when
   * the token's won over dollar price is above BTC's, and 0 exactly when
   * they are equal.
   */
  lemma KimchiPremiumSign(krwPrice: real, usdPrice: real, btcKrw: real, btcUsd: real)
    requires usdPrice > 0.0 && btcKrw > 0.0 && btcUsd > 0.0
    ensures KimchiPremium(krwPrice, usdPrice, btcKrw, btcUsd) > 0.0 <==> krwPrice / usdPrice > btcKrw / btcUsd
    ensures KimchiPremium(krwPrice, usdPrice, btcKrw, btcUsd) == 0.0 <==> krwPrice / usdPrice == btcKrw / btcUsd
  {
    var implied := ImpliedKrwUsd(btcKrw, btcUsd);
    assert implied > 0.0 by { PositiveQuotient(btcKrw, btcUsd); }
    var r := KimchiPremium(krwPrice, usdPrice, btcKrw, btcUsd);
    ScaledComparison(r + 100.0, implied, krwPrice / usdPrice);
  }

  lemma PositiveQuotient(a: real, b: real)
    requires a > 0.0 && b > 0.0
    ensures a / b > 0.0
  {
  }

  /** From `s * d == 100 * x` with `d > 0`: `s > 100` iff `x > d`, `s == 100` iff `x == d`. */
  lemma ScaledComparison(s: real, d: real, x: real)
    requires d > 0.0 && s * d == 100.0 * x
    ensures s > 100.0 <==> x > d
    ensures s == 100.0 <==> x == d
  {
    if s > 100.0 { assert s * d > 100.0 * d; }
    if s < 100.0 { assert s * d < 100.0 * d; }
  }

  /**
   * The combined won volume in dollars over the market cap; 0 without a
   * positive market cap. With a positive cap and a zero rate the source
   * divides by zero (Infinity or NaN), which is `None` here.
   */
  function VolumeToMcap(totalKrwVolume: real, impliedKrwUsd: real, marketCap: real): (r: Option<real>)
    ensures marketCap <= 0.0 ==> r == Some(0.0)
    ensures marketCap > 0.0 ==> (r.None? <==> impliedKrwUsd == 0.0)
    ensures marketCap > 0.0 && r.Some? ==> r.value * impliedKrwUsd * marketCap == totalKrwVolume
  {
    if marketCap <= 0.0 then Some(0.0)
    else if impliedKrwUsd == 0.0 then None
    else
      var volUsd := totalKrwVolume / impliedKrwUsd;
      assert volUsd / marketCap * marketCap == volUsd;
      Some(volUsd / marketCap)
  }

  // ---------------------------------------------------------------------------
  // The rows.

  datatype KoreanToken = KoreanToken(
    symbol: string,
    name: string,
    krwPrice: real,
    usdPrice: real,
    kimchiPremium: real,
    upbitVolume24h: real,
    bithumbVolume24h: real,
    totalKrwVolume: real,
    priceChange24h: real,
    marketCap: real,
    volumeToMcap: Option<real>)

  /** The lookup tables of step 3 and BTC's two prices. */
  datatype Lookups = Lookups(upbit: map<string, UpbitTicker>, names: map<string, string>,
                             gecko: map<string, GeckoMarket>, bithumb: map<string, BithumbTicker>,
                             btcKrw: real, btcUsd: real)

  /** The row of a symbol with both an Upbit ticker and a CoinGecko market. */
  function TokenOf(sym: string, u: UpbitTicker, g: GeckoMarket, t: Lookups): (tok: KoreanToken)
    ensures tok.symbol == sym && tok.krwPrice == u.tradePrice && tok.usdPrice == g.currentPrice
    ensures tok.upbitVolume24h == u.accTradePrice24h.GetOr(0.0)
    ensures tok.bithumbVolume24h == (if sym in t.bithumb then t.bithumb[sym].volume24h else 0.0)
    ensures tok.totalKrwVolume == tok.upbitVolume24h + tok.bithumbVolume24h
    ensures tok.name == (if sym in t.names then t.names[sym] else sym)
    ensures tok.kimchiPremium == KimchiPremium(u.tradePrice, g.currentPrice, t.btcKrw, t.btcUsd)
    ensures tok.volumeToMcap == VolumeToMcap(tok.totalKrwVolume, ImpliedKrwUsd(t.btcKrw, t.btcUsd), tok.marketCap)
  {
    var upbitVol := u.accTradePrice24h.GetOr(0.0);
    var bithumbVol := if sym in t.bithumb then t.bithumb[sym].volume24h else 0.0;
    var total := upbitVol + bithumbVol;
    var marketCap := g.marketCap.GetOr(0.0);
    KoreanToken(sym, if sym in t.names then t.names[sym] else sym, u.tradePrice, g.currentPrice,
      KimchiPremium(u.tradePrice, g.currentPrice, t.btcKrw, t.btcUsd), upbitVol, bithumbVol, total,
      u.signedChangeRate.GetOr(0.0) * 100.0, marketCap,
      VolumeToMcap(total, ImpliedKrwUsd(t.btcKrw, t.btcUsd), marketCap))
  }

  /** A symbol gets a row when it is not BTC and has both an Upbit ticker and a CoinGecko market. */
  predicate Listed(sym: string, t: Lookups)
  {
    sym != "BTC" && sym in t.upbit && sym in t.gecko
  }

  /** One row per listed symbol, in the order of the symbols. */
  function AssembleSpec(symbols: seq<string>, t: Lookups): seq<KoreanToken>
  {
    if |symbols| == 0 then []
    else
      var init := AssembleSpec(symbols[..|symbols| - 1], t);
      var sym := symbols[|symbols| - 1];
      if Listed(sym, t) then init + [TokenOf(sym, t.upbit[sym], t.gecko[sym], t)] else init
  }

  /** The assembly loop of step 4. */
  method AssembleTokens(symbols: seq<string>, t: Lookups) returns (tokens: seq<KoreanToken>)
    ensures tokens == AssembleSpec(symbols, t)
  {
    tokens := [];
    for i := 0 to |symbols|
      invariant tokens == AssembleSpec(symbols[..i], t)
    {
      assert symbols[..i + 1][..i] == symbols[..i];
      var sym := symbols[i];
      if sym == "BTC" {
        continue;
      }
      if sym !in t.upbit || sym !in t.gecko {
        continue;
      }
      tokens := tokens + [TokenOf(sym, t.upbit[sym], t.gecko[sym], t)];
    }
    assert symbols[..|symbols|] == symbols;
  }

  /** Every row is of a listed symbol, so never BTC, with its row as `TokenOf` builds it. */
  lemma {:induction false} AssembleSound(symbols: seq<string>, t: Lookups)
    ensures forall tok :: tok in AssembleSpec(symbols, t) ==>
      tok.symbol in symbols && Listed(tok.symbol, t)
      && tok == TokenOf(tok.symbol, t.upbit[tok.symbol], t.gecko[tok.symbol], t)
  {
    if |symbols| > 0 {
      var init := symbols[..|symbols| - 1];
      AssembleSound(init, t);
      assert symbols == init + [symbols[|symbols| - 1]];
    }
  }

  /** Every listed symbol gets its row. */
  lemma {:induction false} AssembleComplete(symbols: seq<string>, t: Lookups)
    ensures forall sym :: sym in symbols && Listed(sym, t) ==> TokenOf(sym, t.upbit[sym], t.gecko[sym], t) in AssembleSpec(symbols, t)
  {
    if |symbols| > 0 {
      var init := symbols[..|symbols| - 1];
      AssembleComplete(init, t);
      assert symbols == init + [symbols[|symbols| - 1]];
    }
  }

  /** The sort key of `(a, b) => b.totalKrwVolume - a.totalKrwVolume`. */
  function NegatedVolume(tok: KoreanToken): real { -tok.totalKrwVolume }

  /** The ranked rows: the assembled rows, busiest in won first. */
  lemma RankedByVolume(symbols: seq<string>, t: Lookups)
    ensures var tokens := AssembleSpec(symbols, t);
      var ranked := SortBy(tokens, NegatedVolume);
      && multiset(ranked) == multiset(tokens)
      && forall i, j :: 0 <= i < j < |ranked| ==> ranked[i].totalKrwVolume >= ranked[j].totalKrwVolume
  {
    var tokens := AssembleSpec(symbols, t);
    var ranked := SortBy(tokens, NegatedVolume);
    SortByFacts(tokens, NegatedVolume);
    forall i, j | 0 <= i < j < |ranked| ensures ranked[i].totalKrwVolume >= ranked[j].totalKrwVolume {
      assert NegatedVolume(ranked[i]) <= NegatedVolume(ranked[j]);
    }
  }

  // ---------------------------------------------------------------------------
  // The screener.

  function Symbols(table: seq<(string, string)>): (r: seq<string>)
    ensures |r| == |table| && forall k :: 0 <= k < |r| ==> r[k] == table[k].0
  {
    seq(|table|, k requires 0 <= k < |table| => table[k].0)
  }

  datatype KoreanScreenerData = KoreanScreenerData(tokens: seq<KoreanToken>, btcKimchiPremium: real, impliedKrwUsd: real)

  /** Step 1 up to the ticker request: the won markets of the table's symbols and their codes. */
  method SelectMarkets(table: seq<(string, string)>, upbitMarkets: seq<UpbitMarket>)
    returns (krw: seq<UpbitMarket>, codes: seq<string>)
    ensures krw == KrwMarkets(table, upbitMarkets)
    ensures codes == MarketCodes(krw)
  {
    krw := KrwMarkets(table, upbitMarkets);
    codes := MarketCodes(krw);
  }

  /** Steps 2 to 4 from the answers on: the lookups, BTC's prices, the rows and the ranking. */
  method Assemble(table: seq<(string, string)>, krw: seq<UpbitMarket>, tickers: seq<UpbitTicker>,
                  bithumb: map<string, BithumbTicker>, gecko: seq<GeckoMarket>) returns (data: KoreanScreenerData)
    ensures var upbit := LastWins(TickerPairs(tickers));
      var geckoBySymbol := LastWins(GeckoPairs(gecko));
      var btcKrw := if "BTC" in upbit then upbit["BTC"].tradePrice else 0.0;
      var btcUsd := if "BTC" in geckoBySymbol then geckoBySymbol["BTC"].currentPrice else 0.0;
      var t := Lookups(upbit, LastWins(NamePairs(krw)), geckoBySymbol, bithumb, btcKrw, btcUsd);
      && data.tokens == SortBy(AssembleSpec(Symbols(table), t), NegatedVolume)
      && data.impliedKrwUsd == ImpliedKrwUsd(btcKrw, btcUsd)
      && data.btcKimchiPremium == BtcKimchiPremium(btcKrw, btcUsd)
  {
    var upbit := BuildMap(TickerPairs(tickers));
    var names := BuildMap(NamePairs(krw));
    var geckoBySymbol := BuildMap(GeckoPairs(gecko));
    var btcKrw := if "BTC" in upbit then upbit["BTC"].tradePrice else 0.0;
    var btcUsd := if "BTC" in geckoBySymbol then geckoBySymbol["BTC"].currentPrice else 0.0;
    var tokens := AssembleTokens(Symbols(table), Lookups(upbit, names, geckoBySymbol, bithumb, btcKrw, btcUsd));
    data := KoreanScreenerData(SortBy(tokens, NegatedVolume), BtcKimchiPremium(btcKrw, btcUsd), ImpliedKrwUsd(btcKrw, btcUsd));
  }

  /** The facts of the ranked rows that the screener shows. */
  predicate RankedRows(tokens: seq<KoreanToken>, symbols: seq<string>)
  {
    && (forall i, j :: 0 <= i < j < |tokens| ==> tokens[i].totalKrwVolume >= tokens[j].totalKrwVolume)
    && (forall k :: 0 <= k < |tokens| ==>
          && tokens[k].symbol != "BTC"
          && tokens[k].symbol in symbols
          && tokens[k].totalKrwVolume == tokens[k].upbitVolume24h + tokens[k].bithumbVolume24h)
  }

  lemma RankedRowsHold(symbols: seq<string>, t: Lookups)
    ensures RankedRows(SortBy(AssembleSpec(symbols, t), NegatedVolume), symbols)
  {
    RankedByVolume(symbols, t);
    AssembleSound(symbols, t);
    var tokens := AssembleSpec(symbols, t);
    var ranked := SortBy(tokens, NegatedVolume);
    forall k | 0 <= k < |ranked|
      ensures ranked[k].symbol != "BTC" && ranked[k].symbol in symbols
      ensures ranked[k].totalKrwVolume == ranked[k].upbitVolume24h + ranked[k].bithumbVolume24h
    {
      assert ranked[k] in multiset(tokens);
    }
  }

  /**
   * `fetchKoreanData` over the answers, the ticker request being a function
   * of the market codes asked for: the rows are ranked busiest first, none
   * is BTC, each is of a symbol of the table with both an Upbit ticker and
   * a CoinGecko market, and each total is its two exchange volumes added.
   */
  method FetchKoreanData(upbitMarkets: seq<UpbitMarket>, bithumb: map<string, BithumbTicker>,
                         gecko: seq<GeckoMarket>, fetchTickers: seq<string> -> seq<UpbitTicker>)
    returns (data: KoreanScreenerData)
    ensures RankedRows(data.tokens, Symbols(UpbitToGecko))
  {
    var krw, codes := SelectMarkets(UpbitToGecko, upbitMarkets);
    var tickers := fetchTickers(codes);
    data := Assemble(UpbitToGecko, krw, tickers, bithumb, gecko);
    var upbit := LastWins(TickerPairs(tickers));
    var geckoBySymbol := LastWins(GeckoPairs(gecko));
    var btcKrw := if "BTC" in upbit then upbit["BTC"].tradePrice else 0.0;
    var btcUsd := if "BTC" in geckoBySymbol then geckoBySymbol["BTC"].currentPrice else 0.0;
    RankedRowsHold(Symbols(UpbitToGecko), Lookups(upbit, LastWins(NamePairs(krw)), geckoBySymbol, bithumb, btcKrw, btcUsd));
  }
}

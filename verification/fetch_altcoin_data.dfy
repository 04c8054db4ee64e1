/**
 * The altcoin screener's data assembly: Coinalyze's aggregated USDT
 * perpetual markets are matched with CoinGecko markets, the 40 busiest
 * tokens are selected, their Coinalyze symbols are split into request
 * batches of 20, the per-batch answers are folded into lookup tables, and
 * every selected token becomes a row with its derived fields and breakout
 * score, ranked by that score. The requests themselves are left out: the
 * parsed answers are parameters, a failed request being `None`.
 */
module AltcoinFetch {
  import opened Common
  import opened Sorting
  import opened ComputeMetrics

  const TopN := 40
  const CoinalyzeBatch := 20
  /** Funding is paid three times a day; the annual rate is in percent. */
  const FundingPerYearPct := 3.0 * 365.0 * 100.0

  // ---------------------------------------------------------------------------
  // `chunk`.

  function Flatten<T>(chunks: seq<seq<T>>): seq<T>
  {
    if |chunks| == 0 then [] else Flatten(chunks[..|chunks| - 1]) + chunks[|chunks| - 1]
  }

  function Min(a: int, b: int): int { if a < b then a else b }

  /** Ceiling division, characterised by the two inequalities that fix it. */
  lemma CeilingCount(count: nat, n: nat, len: nat)
    requires n > 0
    requires len <= count * n
    requires count > 0 ==> (count - 1) * n < len
    ensures count == (len + n - 1) / n
  {
    var q := (len + n - 1) / n;
    var r := (len + n - 1) % n;
    assert len + n - 1 == q * n + r && 0 <= r < n;
    if count < q {
      MultiplyMonotone(count, q - 1, n);
    } else if count > q {
      MultiplyMonotone(q, count - 1, n);
    }
  }

  lemma MultiplyMonotone(a: int, b: int, n: nat)
    requires a <= b
    ensures a * n <= b * n
  {
    assert b * n - a * n == (b - a) * n;
  }

  /**
   * Splits `arr` into consecutive slices of `n`: joined they give `arr`
   * back, every slice but the last has exactly `n` elements, the last is
   * non-empty, and there are `ceil(|arr| / n)` of them.
   */
  method Chunk<T>(arr: seq<T>, n: nat) returns (result: seq<seq<T>>)
    requires n > 0
    ensures Flatten(result) == arr
    ensures forall k :: 0 <= k < |result| - 1 ==> |result[k]| == n
    ensures |result| > 0 ==> 0 < |result[|result| - 1]| <= n
    ensures |result| == (|arr| + n - 1) / n
  {
    result := [];
    var i := 0;
    while i < |arr|
      invariant i == |result| * n
      invariant i <= |arr| ==> Flatten(result) == arr[..i]
      invariant i > |arr| ==> Flatten(result) == arr
      invariant |result| > 0 ==> (|result| - 1) * n < |arr|
      invariant forall k :: 0 <= k < |result| - 1 ==> |result[k]| == n
      invariant |result| > 0 ==> 0 < |result[|result| - 1]| <= n
      invariant i <= |arr| ==> forall k :: 0 <= k < |result| ==> |result[k]| == n
      decreases |arr| - i
    {
      var piece := arr[i..Min(i + n, |arr|)];
      assert (result + [piece])[..|result|] == result;
      if i + n <= |arr| {
        assert arr[..i] + piece == arr[..i + n];
      } else {
        assert arr[..i] + piece == arr;
      }
      result := result + [piece];
      i := i + n;
    }
    CeilingCount(|result|, n, |arr|);
    if i == |arr| {
      assert arr[..i] == arr;
    }
  }

  // ---------------------------------------------------------------------------
  // The Coinalyze markets.

  datatype CoinalyzeMarket = CoinalyzeMarket(symbol: string, baseAsset: string, isPerpetual: bool,
                                             exchange: string, hasOhlcvData: bool)

  /** An aggregated ("A") USDT perpetual, as its symbol says. */
  predicate IsAggregatedUsdtPerp(m: CoinalyzeMarket)
  {
    m.exchange == "A" && m.isPerpetual && EndsWith(m.symbol, "_PERP.A") && Contains(m.symbol, "USDT")
  }

  /** The markets that pass the filter, in their order. */
  function AggPerps(markets: seq<CoinalyzeMarket>): (r: seq<CoinalyzeMarket>)
    ensures |r| <= |markets|
    ensures forall m :: m in r <==> m in markets && IsAggregatedUsdtPerp(m)
  {
    if |markets| == 0 then []
    else
      var init := markets[..|markets| - 1];
      var last := markets[|markets| - 1];
      assert markets == init + [last];
      AggPerps(init) + (if IsAggregatedUsdtPerp(last) then [last] else [])
  }

  /** The base asset to Coinalyze symbol pairs of the kept markets. */
  function BaseSymbolPairs(perps: seq<CoinalyzeMarket>): (r: seq<(string, string)>)
    ensures |r| == |perps| && forall k :: 0 <= k < |r| ==> r[k] == (perps[k].baseAsset, perps[k].symbol)
  {
    seq(|perps|, k requires 0 <= k < |perps| => (perps[k].baseAsset, perps[k].symbol))
  }

  // ---------------------------------------------------------------------------
  // The CoinGecko markets.

  /** A CoinGecko market; the nullable fields, read with `?? 0`, are options. */
  datatype GeckoMarket = GeckoMarket(id: string, symbol: string, currentPrice: Option<real>,
                                     marketCap: Option<real>, fdv: Option<real>, totalVolume: Option<real>,
                                     change24h: Option<real>, change7d: Option<real>)

  /** The 7-day change of the last "bitcoin" entry, 0 if there is none or it has no change. */
  function BtcChange7d(gs: seq<GeckoMarket>): real
  {
    if |gs| == 0 then 0.0
    else if gs[|gs| - 1].id == "bitcoin" then gs[|gs| - 1].change7d.GetOr(0.0)
    else BtcChange7d(gs[..|gs| - 1])
  }

  predicate NoBitcoinAfter(gs: seq<GeckoMarket>, k: int)
  {
    forall j :: 0 <= j < |gs| && k < j ==> gs[j].id != "bitcoin"
  }

  /** With no bitcoin entry the change is 0; otherwise it is that of the last bitcoin entry. */
  lemma {:induction false} BtcChangeIsLast(gs: seq<GeckoMarket>)
    ensures NoBitcoinAfter(gs, -1) ==> BtcChange7d(gs) == 0.0
    ensures !NoBitcoinAfter(gs, -1) ==>
      exists k :: 0 <= k < |gs| && gs[k].id == "bitcoin" && NoBitcoinAfter(gs, k)
        && BtcChange7d(gs) == gs[k].change7d.GetOr(0.0)
  {
    if |gs| > 0 {
      var n := |gs|;
      var init := gs[..n - 1];
      BtcChangeIsLast(init);
      if gs[n - 1].id == "bitcoin" {
        assert NoBitcoinAfter(gs, n - 1);
      } else {
        if NoBitcoinAfter(gs, -1) {
          assert NoBitcoinAfter(init, -1) by {
            forall j | 0 <= j < n - 1 ensures init[j].id != "bitcoin" { assert init[j] == gs[j]; }
          }
        } else {
          var j :| 0 <= j < n && gs[j].id == "bitcoin";
          assert init[j] == gs[j];
          var k :| 0 <= k < n - 1 && init[k].id == "bitcoin" && NoBitcoinAfter(init, k)
            && BtcChange7d(init) == init[k].change7d.GetOr(0.0);
          assert gs[k] == init[k];
          assert NoBitcoinAfter(gs, k) by {
            forall j | 0 <= j < n && k < j ensures gs[j].id != "bitcoin" {
              if j < n - 1 { assert init[j] == gs[j]; }
            }
          }
        }
      }
    }
  }

  /** The symbol table the loop also fills; nothing reads it afterwards. */
  function GeckoSymbolPairs(gs: seq<GeckoMarket>): (r: seq<(string, GeckoMarket)>)
    ensures |r| == |gs| && forall k :: 0 <= k < |r| ==> r[k] == (AsciiUpper(gs[k].symbol), gs[k])
  {
    seq(|gs|, k requires 0 <= k < |gs| => (AsciiUpper(gs[k].symbol), gs[k]))
  }

  /** The CoinGecko loop: the symbol table, and the 7-day change of bitcoin. */
  method ScanGecko(gs: seq<GeckoMarket>) returns (bySymbol: map<string, GeckoMarket>, btcChange: real)
    ensures bySymbol == LastWins(GeckoSymbolPairs(gs))
    ensures btcChange == BtcChange7d(gs)
  {
    bySymbol := map[];
    btcChange := 0.0;
    ghost var pairs := GeckoSymbolPairs(gs);
    for i := 0 to |gs|
      invariant bySymbol == LastWins(pairs[..i])
      invariant btcChange == BtcChange7d(gs[..i])
    {
      assert pairs[..i + 1][..i] == pairs[..i];
      assert gs[..i + 1][..i] == gs[..i];
      var g := gs[i];
      bySymbol := bySymbol[AsciiUpper(g.symbol) := g];
      if g.id == "bitcoin" {
        btcChange := if g.change7d.Some? then g.change7d.value else 0.0;
      }
    }
    assert pairs[..|gs|] == pairs;
    assert gs[..|gs|] == gs;
  }

  /** `total_volume ?? 0`. */
  function Volume(g: GeckoMarket): real { g.totalVolume.GetOr(0.0) }

  /** The sort key of `(a, b) => (b.total_volume ?? 0) - (a.total_volume ?? 0)`. */
  function NegatedVolume(g: GeckoMarket): real { -Volume(g) }

  predicate IsCandidate(g: GeckoMarket, baseMap: map<string, string>)
  {
    g.id != "bitcoin" && AsciiUpper(g.symbol) in baseMap
  }

  /** The markets other than bitcoin whose upper-cased symbol has a Coinalyze market, in order. */
  function Candidates(gs: seq<GeckoMarket>, baseMap: map<string, string>): (r: seq<GeckoMarket>)
    ensures |r| <= |gs|
    ensures forall g :: g in r <==> g in gs && IsCandidate(g, baseMap)
  {
    if |gs| == 0 then []
    else
      var init := gs[..|gs| - 1];
      var last := gs[|gs| - 1];
      assert gs == init + [last];
      Candidates(init, baseMap) + (if IsCandidate(last, baseMap) then [last] else [])
  }

  /** The candidates by volume, busiest first, cut to the first 40. */
  function SelectTokens(gs: seq<GeckoMarket>, baseMap: map<string, string>): seq<GeckoMarket>
  {
    var sorted := SortBy(Candidates(gs, baseMap), NegatedVolume);
    sorted[..Min(|sorted|, TopN)]
  }

  /** At most 40 tokens are selected, all of them candidates, and all of them when there are at most 40. */
  lemma SelectedAreCandidates(gs: seq<GeckoMarket>, baseMap: map<string, string>)
    ensures var r := SelectTokens(gs, baseMap);
      var cs := Candidates(gs, baseMap);
      && |r| == Min(|cs|, TopN)
      && (forall k :: 0 <= k < |r| ==> r[k] in gs && IsCandidate(r[k], baseMap))
      && (|cs| <= TopN ==> multiset(r) == multiset(cs))
  {
    var cs := Candidates(gs, baseMap);
    var sorted := SortBy(cs, NegatedVolume);
    SortByFacts(cs, NegatedVolume);
    var r := sorted[..Min(|sorted|, TopN)];
    forall k | 0 <= k < |r| ensures r[k] in gs && IsCandidate(r[k], baseMap) {
      assert r[k] == sorted[k];
      assert sorted[k] in multiset(sorted);
    }
    if |cs| <= TopN {
      assert r == sorted;
    }
  }

  /** The selected tokens come busiest first. */
  lemma SelectedByVolume(gs: seq<GeckoMarket>, baseMap: map<string, string>)
    ensures var r := SelectTokens(gs, baseMap);
      forall i, j :: 0 <= i < j < |r| ==> Volume(r[i]) >= Volume(r[j])
  {
    var cs := Candidates(gs, baseMap);
    var sorted := SortBy(cs, NegatedVolume);
    SortByFacts(cs, NegatedVolume);
    var r := sorted[..Min(|sorted|, TopN)];
    forall i, j | 0 <= i < j < |r| ensures Volume(r[i]) >= Volume(r[j]) {
      assert NegatedVolume(sorted[i]) <= NegatedVolume(sorted[j]);
    }
  }

  /** Every candidate left out is at most as busy as every token selected. */
  lemma SelectedAreBusiest(gs: seq<GeckoMarket>, baseMap: map<string, string>)
    ensures var r := SelectTokens(gs, baseMap);
      var cs := Candidates(gs, baseMap);
      && multiset(r) <= multiset(cs)
      && forall g :: g in multiset(cs) - multiset(r) ==> forall k :: 0 <= k < |r| ==> Volume(g) <= Volume(r[k])
  {
    var cs := Candidates(gs, baseMap);
    var sorted := SortBy(cs, NegatedVolume);
    SortByFacts(cs, NegatedVolume);
    var m := Min(|sorted|, TopN);
    PrefixDominates(sorted, NegatedVolume, m);
  }

  /** `get(b)!` then `filter(Boolean)`: the non-empty Coinalyze symbols of the selected tokens. */
  function CoinalyzeSymbols(selected: seq<GeckoMarket>, baseMap: map<string, string>): (r: seq<string>)
    ensures |r| <= |selected|
    ensures forall k :: 0 <= k < |r| ==> r[k] != "" && r[k] in baseMap.Values
  {
    if |selected| == 0 then []
    else
      var b := AsciiUpper(selected[|selected| - 1].symbol);
      CoinalyzeSymbols(selected[..|selected| - 1], baseMap) + (if b in baseMap && baseMap[b] != "" then [baseMap[b]] else [])
  }

  /** What the first stage hands to the requests: the tables and the symbol batches to ask for. */
  datatype Selection = Selection(btcChange7d: real, baseMap: map<string, string>,
                                 geckoTokens: seq<GeckoMarket>, symbolBatches: seq<seq<string>>)

  /** Steps 1 and 2 up to the requests; a failed market list counts as empty. */
  method SelectMarkets(markets: Option<seq<CoinalyzeMarket>>, gecko: seq<GeckoMarket>) returns (sel: Selection)
    ensures var perps := AggPerps(markets.GetOr([]));
      && sel.btcChange7d == BtcChange7d(gecko)
      && sel.baseMap == LastWins(BaseSymbolPairs(perps))
      && sel.geckoTokens == SelectTokens(gecko, sel.baseMap)
      && Flatten(sel.symbolBatches) == CoinalyzeSymbols(sel.geckoTokens, sel.baseMap)
      && (forall k :: 0 <= k < |sel.symbolBatches| ==> 0 < |sel.symbolBatches[k]| <= CoinalyzeBatch)
  {
    var bySymbol, btcChange := ScanGecko(gecko);
    var perps := AggPerps(if markets.Some? then markets.value else []);
    var baseMap := BuildMap(BaseSymbolPairs(perps));
    var tokens := SelectTokens(gecko, baseMap);
    var batches := Chunk(CoinalyzeSymbols(tokens, baseMap), CoinalyzeBatch);
    sel := Selection(btcChange, baseMap, tokens, batches);
  }

  // ---------------------------------------------------------------------------
  // The Coinalyze answers, folded into lookup tables.

  /** One `{symbol, value}` item of the open interest and funding answers. */
  datatype SymbolValue = SymbolValue(symbol: string, value: real)

  /** One open-interest history: the closes of its daily candles. */
  datatype OiHistory = OiHistory(symbol: string, closes: seq<real>)

  /** One OHLCV history: the volumes of its daily candles. */
  datatype VolumeHistory = VolumeHistory(symbol: string, volumes: seq<real>)

  /** The items of the batches that arrived, in order; failed batches are skipped. */
  function Arrived<T>(batches: seq<Option<seq<T>>>): seq<T>
  {
    if |batches| == 0 then []
    else Arrived(batches[..|batches| - 1]) + batches[|batches| - 1].GetOr([])
  }

  /** The table entries the items give; `None` sets nothing. */
  function Entries<T, V>(items: seq<T>, entry: T -> Option<(string, V)>): seq<(string, V)>
  {
    if |items| == 0 then []
    else
      var e := entry(items[|items| - 1]);
      Entries(items[..|items| - 1], entry) + (if e.Some? then [e.value] else [])
  }

  lemma EntriesAppend<T, V>(xs: seq<T>, ys: seq<T>, entry: T -> Option<(string, V)>)
    ensures Entries(xs + ys, entry) == Entries(xs, entry) + Entries(ys, entry)
    decreases |ys|
  {
    if |ys| > 0 {
      assert (xs + ys)[..|xs + ys| - 1] == xs + ys[..|ys| - 1];
      EntriesAppend(xs, ys[..|ys| - 1], entry);
    } else {
      assert xs + ys == xs;
    }
  }

  lemma LastWinsAppend<V>(done: seq<(string, V)>, more: seq<(string, V)>, e: (string, V))
    ensures LastWins(done + more + [e]) == LastWins(done + more)[e.0 := e.1]
  {
    assert (done + more + [e])[..|done + more|] == done + more;
  }

  /** The inner `for (const item of batch) map.set(...)` loop. */
  method SetItems<T, V>(m0: map<string, V>, ghost done: seq<(string, V)>, items: seq<T>,
                        entry: T -> Option<(string, V)>) returns (m: map<string, V>)
    requires m0 == LastWins(done)
    ensures m == LastWins(done + Entries(items, entry))
  {
    m := m0;
    assert done + Entries(items[..0], entry) == done;
    for j := 0 to |items|
      invariant m == LastWins(done + Entries(items[..j], entry))
    {
      assert items[..j + 1][..j] == items[..j];
      var e := entry(items[j]);
      ghost var before := Entries(items[..j], entry);
      if e.Some? {
        assert Entries(items[..j + 1], entry) == before + [e.value];
        assert done + (before + [e.value]) == done + before + [e.value];
        LastWinsAppend(done, before, e.value);
        m := m[e.value.0 := e.value.1];
      } else {
        assert Entries(items[..j + 1], entry) == before;
      }
    }
    assert items[..|items|] == items;
  }

  /** A lookup table filled from every batch that arrived, the last item for a symbol winning. */
  method FillTable<T, V>(batches: seq<Option<seq<T>>>, entry: T -> Option<(string, V)>) returns (m: map<string, V>)
    ensures m == LastWins(Entries(Arrived(batches), entry))
  {
    m := map[];
    for i := 0 to |batches|
      invariant m == LastWins(Entries(Arrived(batches[..i]), entry))
    {
      assert batches[..i + 1][..i] == batches[..i];
      ghost var before := Arrived(batches[..i]);
      assert Arrived(batches[..i + 1]) == before + batches[i].GetOr([]);
      if batches[i].Some? {
        assert Arrived(batches[..i + 1]) == before + batches[i].value;
        EntriesAppend(before, batches[i].value, entry);
        m := SetItems(m, Entries(before, entry), batches[i].value, entry);
      } else {
        assert Arrived(batches[..i + 1]) == before + [] == before;
      }
    }
    assert batches[..|batches|] == batches;
  }

  function OiEntry(item: SymbolValue): Option<(string, real)> { Some((item.symbol, item.value)) }

  function HistoryEntry(item: OiHistory): Option<(string, seq<real>)> { Some((item.symbol, item.closes)) }

  /** The latest candle's volume, when there is a candle. */
  function VolumeEntry(item: VolumeHistory): Option<(string, real)>
  {
    if |item.volumes| > 0 then Some((item.symbol, item.volumes[|item.volumes| - 1])) else None
  }

  datatype Lookups = Lookups(oi: map<string, real>, funding: map<string, real>,
                             oiHistory: map<string, seq<real>>, volume: map<string, real>)

  // ---------------------------------------------------------------------------
  // The derived fields of a token.

  /** `map.get(key) ?? fallback`. */
  function GetOr<V>(m: map<string, V>, key: string, fallback: V): (r: V)
    ensures key in m ==> r == m[key]
    ensures key !in m ==> r == fallback
  {
    if key in m then m[key] else fallback
  }

  /** The day-on-day change of open interest in percent; 0 without two points or a positive previous one. */
  function OiChange24h(history: seq<real>): (r: real)
    ensures |history| < 2 || history[|history| - 2] <= 0.0 ==> r == 0.0
    ensures |history| >= 2 && history[|history| - 2] > 0.0 ==>
      r * history[|history| - 2] == (history[|history| - 1] - history[|history| - 2]) * 100.0
  {
    var prev := if |history| > 1 then history[|history| - 2] else 0.0;
    var curr := if |history| > 0 then history[|history| - 1] else 0.0;
    if prev > 0.0 then (curr - prev) / prev * 100.0 else 0.0
  }

  /** The funding rate per eight hours as an annual percentage. */
  function FundingApr(rate: real): (r: real)
    ensures r == rate * 109500.0
    ensures r > 0.0 <==> rate > 0.0
  {
    rate * FundingPerYearPct
  }

  /** The 7-day change over bitcoin's, 0 when bitcoin did not move. */
  function RelativeStrength(change7d: real, btcChange7d: real): (r: real)
    ensures btcChange7d == 0.0 ==> r == 0.0
    ensures btcChange7d != 0.0 ==> r * btcChange7d == change7d
  {
    if btcChange7d != 0.0 then change7d / btcChange7d else 0.0
  }

  /** Futures volume in dollars when Coinalyze has a non-zero one, else CoinGecko's volume. */
  function Volume24h(futuresVolume: Option<real>, price: real, g: GeckoMarket): (r: real)
    ensures futuresVolume.Some? && futuresVolume.value != 0.0 ==> r == futuresVolume.value * price
    ensures futuresVolume.None? || futuresVolume.value == 0.0 ==> r == Volume(g)
  {
    if futuresVolume.Some? && futuresVolume.value != 0.0 then futuresVolume.value * price else Volume(g)
  }

  /** The row of a selected market with Coinalyze symbol `cSymbol`. */
  function TokenOf(g: GeckoMarket, cSymbol: string, t: Lookups, btcChange7d: real, sqrt: real -> real): (tok: AltcoinToken)
    ensures tok.symbol == AsciiUpper(g.symbol)
    ensures tok.openInterest == GetOr(t.oi, cSymbol, 0.0) * g.currentPrice.GetOr(0.0)
    ensures tok.oiZScore == OiZScore(GetOr(t.oiHistory, cSymbol, []), sqrt)
    ensures tok.breakoutScore == BreakoutScore(tok)
  {
    var price := g.currentPrice.GetOr(0.0);
    var change7d := g.change7d.GetOr(0.0);
    var history := GetOr(t.oiHistory, cSymbol, []);
    var rate := GetOr(t.funding, cSymbol, 0.0);
    var futuresVolume := if cSymbol in t.volume then Some(t.volume[cSymbol]) else None;
    var unscored := AltcoinToken(
      AsciiUpper(g.symbol), price, g.change24h.GetOr(0.0), change7d,
      Volume24h(futuresVolume, price, g), g.marketCap.GetOr(0.0), g.fdv.GetOr(0.0),
      GetOr(t.oi, cSymbol, 0.0) * price, OiChange24h(history), OiZScore(history, sqrt),
      rate, FundingApr(rate), RelativeStrength(change7d, btcChange7d), 0.0);
    unscored.(breakoutScore := BreakoutScore(unscored))
  }

  /** The Coinalyze symbol of a market, when the table has a non-empty one. */
  function SymbolFor(g: GeckoMarket, baseMap: map<string, string>): Option<string>
  {
    var b := AsciiUpper(g.symbol);
    if b in baseMap && baseMap[b] != "" then Some(baseMap[b]) else None
  }

  /** One row per selected market that has a Coinalyze symbol, in selection order. */
  function AssembleSpec(selected: seq<GeckoMarket>, baseMap: map<string, string>, t: Lookups,
                        btcChange7d: real, sqrt: real -> real): seq<AltcoinToken>
  {
    if |selected| == 0 then []
    else
      var init := AssembleSpec(selected[..|selected| - 1], baseMap, t, btcChange7d, sqrt);
      var g := selected[|selected| - 1];
      var c := SymbolFor(g, baseMap);
      if c.Some? then init + [TokenOf(g, c.value, t, btcChange7d, sqrt)] else init
  }

  /** The assembly loop of step 3. */
  method AssembleTokens(selected: seq<GeckoMarket>, baseMap: map<string, string>, t: Lookups,
                        btcChange7d: real, sqrt: real -> real) returns (tokens: seq<AltcoinToken>)
    ensures tokens == AssembleSpec(selected, baseMap, t, btcChange7d, sqrt)
  {
    tokens := [];
    for i := 0 to |selected|
      invariant tokens == AssembleSpec(selected[..i], baseMap, t, btcChange7d, sqrt)
    {
      assert selected[..i + 1][..i] == selected[..i];
      var g := selected[i];
      var base := AsciiUpper(g.symbol);
      if base !in baseMap || baseMap[base] == "" {
        continue;
      }
      var cSymbol := baseMap[base];
      tokens := tokens + [TokenOf(g, cSymbol, t, btcChange7d, sqrt)];
    }
    assert selected[..|selected|] == selected;
  }

  /** There are no more rows than selected markets, and every row's score is computed from its own fields. */
  lemma {:induction false} AssembleScores(selected: seq<GeckoMarket>, baseMap: map<string, string>, t: Lookups,
                                          btcChange7d: real, sqrt: real -> real)
    ensures var tokens := AssembleSpec(selected, baseMap, t, btcChange7d, sqrt);
      && |tokens| <= |selected|
      && forall tok :: tok in tokens ==> tok.breakoutScore == BreakoutScore(tok)
  {
    if |selected| > 0 {
      AssembleScores(selected[..|selected| - 1], baseMap, t, btcChange7d, sqrt);
    }
  }

  /** The row bears the upper-cased symbol of a selected market that has a Coinalyze symbol. */
  predicate FromSelected(tok: AltcoinToken, selected: seq<GeckoMarket>, baseMap: map<string, string>)
  {
    exists g :: g in selected && SymbolFor(g, baseMap).Some? && tok.symbol == AsciiUpper(g.symbol)
  }

  /** Every row comes from a selected market with a Coinalyze symbol. */
  lemma {:induction false} AssembleOrigin(selected: seq<GeckoMarket>, baseMap: map<string, string>, t: Lookups,
                                          btcChange7d: real, sqrt: real -> real)
    ensures forall tok :: tok in AssembleSpec(selected, baseMap, t, btcChange7d, sqrt) ==> FromSelected(tok, selected, baseMap)
  {
    if |selected| > 0 {
      var init := selected[..|selected| - 1];
      var g := selected[|selected| - 1];
      AssembleOrigin(init, baseMap, t, btcChange7d, sqrt);
      forall tok | tok in AssembleSpec(selected, baseMap, t, btcChange7d, sqrt) ensures FromSelected(tok, selected, baseMap) {
        if tok in AssembleSpec(init, baseMap, t, btcChange7d, sqrt) {
          var h :| h in init && SymbolFor(h, baseMap).Some? && tok.symbol == AsciiUpper(h.symbol);
          assert h in selected;
        } else {
          assert tok.symbol == AsciiUpper(g.symbol);
        }
      }
    }
  }

  /** Every selected market with a Coinalyze symbol gets its row. */
  lemma {:induction false} AssembleComplete(selected: seq<GeckoMarket>, baseMap: map<string, string>, t: Lookups,
                                            btcChange7d: real, sqrt: real -> real)
    ensures forall g :: g in selected && SymbolFor(g, baseMap).Some? ==>
      TokenOf(g, SymbolFor(g, baseMap).value, t, btcChange7d, sqrt) in AssembleSpec(selected, baseMap, t, btcChange7d, sqrt)
  {
    if |selected| > 0 {
      var init := selected[..|selected| - 1];
      AssembleComplete(init, baseMap, t, btcChange7d, sqrt);
      assert selected == init + [selected[|selected| - 1]];
    }
  }

  // ---------------------------------------------------------------------------
  // The ranking.

  /** The sort key of `(a, b) => b.breakoutScore - a.breakoutScore`. */
  function NegatedScore(t: AltcoinToken): real { -t.breakoutScore }

  datatype AltcoinScreenerData = AltcoinScreenerData(tokens: seq<AltcoinToken>, btcChange7d: real)

  /** Step 3 from the Coinalyze answers on: the tables, the rows, and the ranking. */
  method Assemble(sel: Selection, oiBatches: seq<Option<seq<SymbolValue>>>,
                  fundingBatches: seq<Option<seq<SymbolValue>>>,
                  historyBatches: seq<Option<seq<OiHistory>>>,
                  volumeBatches: seq<Option<seq<VolumeHistory>>>,
                  sqrt: real -> real) returns (data: AltcoinScreenerData)
    ensures var t := Lookups(
        LastWins(Entries(Arrived(oiBatches), OiEntry)),
        LastWins(Entries(Arrived(fundingBatches), OiEntry)),
        LastWins(Entries(Arrived(historyBatches), HistoryEntry)),
        LastWins(Entries(Arrived(volumeBatches), VolumeEntry)));
      data.tokens == SortBy(AssembleSpec(sel.geckoTokens, sel.baseMap, t, sel.btcChange7d, sqrt), NegatedScore)
    ensures data.btcChange7d == sel.btcChange7d
  {
    var oi := FillTable(oiBatches, OiEntry);
    var funding := FillTable(fundingBatches, OiEntry);
    var history := FillTable(historyBatches, HistoryEntry);
    var volume := FillTable(volumeBatches, VolumeEntry);
    var tokens := AssembleTokens(sel.geckoTokens, sel.baseMap, Lookups(oi, funding, history, volume), sel.btcChange7d, sqrt);
    data := AltcoinScreenerData(SortBy(tokens, NegatedScore), sel.btcChange7d);
  }

  /**
   * The ranked rows: highest score first, the same rows as assembled, no
   * more than there are selected markets, each with a score between 0.5 and
   * 9.5 computed from its own fields.
   */
  lemma RankedFacts(sel: Selection, t: Lookups, sqrt: real -> real)
    ensures var tokens := AssembleSpec(sel.geckoTokens, sel.baseMap, t, sel.btcChange7d, sqrt);
      var ranked := SortBy(tokens, NegatedScore);
      && multiset(ranked) == multiset(tokens)
      && |ranked| <= |sel.geckoTokens|
      && (forall i, j :: 0 <= i < j < |ranked| ==> ranked[i].breakoutScore >= ranked[j].breakoutScore)
      && (forall k :: 0 <= k < |ranked| ==>
            ranked[k].breakoutScore == BreakoutScore(ranked[k]) && 0.5 <= ranked[k].breakoutScore <= 9.5)
  {
    var tokens := AssembleSpec(sel.geckoTokens, sel.baseMap, t, sel.btcChange7d, sqrt);
    var ranked := SortBy(tokens, NegatedScore);
    SortByFacts(tokens, NegatedScore);
    AssembleScores(sel.geckoTokens, sel.baseMap, t, sel.btcChange7d, sqrt);
    forall i, j | 0 <= i < j < |ranked| ensures ranked[i].breakoutScore >= ranked[j].breakoutScore {
      assert NegatedScore(ranked[i]) <= NegatedScore(ranked[j]);
    }
    forall k | 0 <= k < |ranked| ensures ranked[k].breakoutScore == BreakoutScore(ranked[k]) {
      assert ranked[k] in multiset(tokens);
    }
  }

  /** The facts of the ranked rows that the screener shows. */
  predicate RankedRows(tokens: seq<AltcoinToken>)
  {
    && |tokens| <= TopN
    && (forall i, j :: 0 <= i < j < |tokens| ==> tokens[i].breakoutScore >= tokens[j].breakoutScore)
    && (forall k :: 0 <= k < |tokens| ==>
          tokens[k].breakoutScore == BreakoutScore(tokens[k]) && 0.5 <= tokens[k].breakoutScore <= 9.5)
  }

  lemma RankedRowsHold(sel: Selection, gecko: seq<GeckoMarket>, t: Lookups, sqrt: real -> real)
    requires sel.geckoTokens == SelectTokens(gecko, sel.baseMap)
    ensures RankedRows(SortBy(AssembleSpec(sel.geckoTokens, sel.baseMap, t, sel.btcChange7d, sqrt), NegatedScore))
  {
    RankedFacts(sel, t, sqrt);
    SelectedAreCandidates(gecko, sel.baseMap);
  }

  /** The answers to one request per batch. */
  function Ask<R>(batches: seq<seq<string>>, request: seq<string> -> R): (r: seq<R>)
    ensures |r| == |batches| && forall k :: 0 <= k < |r| ==> r[k] == request(batches[k])
  {
    seq(|batches|, k requires 0 <= k < |batches| => request(batches[k]))
  }

  /**
   * `fetchAllAltcoinData` over the answers, each request being a function
   * of the batch of symbols it asks for: the rows are ranked by a breakout
   * score computed from their own fields, there are at most 40, and the
   * 7-day change of bitcoin is that of the last bitcoin market.
   */
  method FetchAllAltcoinData(markets: Option<seq<CoinalyzeMarket>>, gecko: seq<GeckoMarket>,
                             fetchOi: seq<string> -> Option<seq<SymbolValue>>,
                             fetchFunding: seq<string> -> Option<seq<SymbolValue>>,
                             fetchHistory: seq<string> -> Option<seq<OiHistory>>,
                             fetchVolume: seq<string> -> Option<seq<VolumeHistory>>,
                             sqrt: real -> real) returns (data: AltcoinScreenerData)
    ensures RankedRows(data.tokens)
    ensures data.btcChange7d == BtcChange7d(gecko)
  {
    var sel := SelectMarkets(markets, gecko);
    var oi := Ask(sel.symbolBatches, fetchOi);
    var funding := Ask(sel.symbolBatches, fetchFunding);
    var history := Ask(sel.symbolBatches, fetchHistory);
    var volume := Ask(sel.symbolBatches, fetchVolume);
    data := Assemble(sel, oi, funding, history, volume, sqrt);
    RankedRowsHold(sel, gecko, Lookups(
      LastWins(Entries(Arrived(oi), OiEntry)),
      LastWins(Entries(Arrived(funding), OiEntry)),
      LastWins(Entries(Arrived(history), HistoryEntry)),
      LastWins(Entries(Arrived(volume), VolumeEntry))), sqrt);
  }
}

/** The coin lists the dashboard derives on every render: the formatted coin
    list, the search-filtered list, the price-ranked list and its top and
    bottom three. */
module Markets {
  import opened Builtins

  /** A coin as the markets endpoint returns it (only the fields used). */
  datatype RawCoin = RawCoin(id: string, symbol: string)

  /** A coin as the dashboard keeps it. */
  datatype Coin = Coin(id: string, symbol: string, tradingview: string)

  /** One entry of the simple-price response: the USD price and its 24h change. */
  datatype PriceData = PriceData(usd: real, usd24hChange: real)

  /** A coin joined with its price data. */
  datatype RankedCoin = RankedCoin(id: string, symbol: string, price: real, change: real)

  const TICKER_PREFIX: string := "BINANCE:"
  const TICKER_SUFFIX: string := "USDT"

  // ---------------------------------------------------------------------------
  // fetchTopCoins: formatting
  // ---------------------------------------------------------------------------

  /** One formatted coin: same id, symbol in capitals, and the chart ticker
      built from the capitalised symbol. */
  function FormatCoin(c: RawCoin): (f: Coin)
    ensures f.id == c.id
    ensures |f.symbol| == |c.symbol| && ToLower(f.symbol) == ToLower(c.symbol)
    ensures forall i :: 0 <= i < |f.symbol| ==> !IsLowerAscii(f.symbol[i])
    ensures f.tradingview == TICKER_PREFIX + f.symbol + TICKER_SUFFIX
  {
    Coin(c.id, ToUpper(c.symbol), TICKER_PREFIX + ToUpper(c.symbol) + TICKER_SUFFIX)
  }

  /** The chart ticker gives the symbol back: strip the exchange prefix and the
      quote-currency suffix. */
  lemma TickerNamesSymbol(c: RawCoin)
    ensures var t := FormatCoin(c).tradingview;
      |t| == |c.symbol| + 12 && t[8..|t| - 4] == FormatCoin(c).symbol
  {
    var f := FormatCoin(c);
    assert f.tradingview[8..|f.tradingview| - 4] == f.symbol;
  }

  /** `res.data.map(...)`: one formatted coin per raw coin, in order. */
  function FormatCoins(raw: seq<RawCoin>): (coins: seq<Coin>)
    ensures |coins| == |raw|
    ensures forall i :: 0 <= i < |raw| ==> coins[i] == FormatCoin(raw[i])
  {
    if raw == [] then [] else [FormatCoin(raw[0])] + FormatCoins(raw[1..])
  }

  // ---------------------------------------------------------------------------
  // filteredCoins
  // ---------------------------------------------------------------------------

  /** `coin.symbol.toLowerCase().includes(query.toLowerCase())`: the query
      occurs in the symbol when the case of both is ignored. */
  function MatchesQuery(c: Coin, query: string): (matches: bool)
    ensures matches <==> exists i :: OccursAt(ToLower(c.symbol), ToLower(query), i)
  {
    Includes(ToLower(c.symbol), ToLower(query))
  }

  /** `allCoins.filter(...)`: the matching coins, in order, each as often as
      it occurs in the input. */
  function FilterCoins(coins: seq<Coin>, query: string): (kept: seq<Coin>)
    ensures IsSubsequence(kept, coins)
    ensures forall c :: c in kept ==> MatchesQuery(c, query)
    ensures forall c :: MatchesQuery(c, query) ==> multiset(kept)[c] == multiset(coins)[c]
  {
    Filter(coins, c => MatchesQuery(c, query))
  }

  /** An empty search box keeps every coin. */
  lemma {:induction false} EmptyQueryKeepsAll(coins: seq<Coin>)
    ensures FilterCoins(coins, "") == coins
  {
    if coins != [] {
      assert OccursAt(ToLower(coins[0].symbol), ToLower(""), 0);
      EmptyQueryKeepsAll(coins[1..]);
    }
  }

  /** The search ignores the case of the query: typing it in capitals filters
      the same coins. */
  lemma {:induction false} QueryCaseIgnored(coins: seq<Coin>, query: string)
    ensures FilterCoins(coins, ToUpper(query)) == FilterCoins(coins, query)
  {
    LowerOfUpper(query);
    if coins != [] {
      QueryCaseIgnored(coins[1..], query);
    }
  }

  /** Searching the formatted list by a raw symbol's own text finds that coin:
      the capitalised symbol still matches its lower-case original. */
  lemma FormattedCoinMatchesOwnSymbol(c: RawCoin)
    ensures MatchesQuery(FormatCoin(c), c.symbol)
  {
    assert OccursAt(ToLower(FormatCoin(c).symbol), ToLower(c.symbol), 0);
  }

  // ---------------------------------------------------------------------------
  // sortedCoins, topGainers, topLosers
  // ---------------------------------------------------------------------------

  /** The ranked entry of one coin: its id and symbol with the price data's
      USD price and 24h change. */
  function Attach(c: Coin, p: PriceData): (r: RankedCoin)
    ensures r.id == c.id && r.symbol == c.symbol
    ensures r.price == p.usd && r.change == p.usd24hChange
  {
    RankedCoin(c.id, c.symbol, p.usd, p.usd24hChange)
  }

  /** The coins that survive `.filter(Boolean)`: those whose id has an entry in
      the price map (the map callback returns `null` for the others). */
  function PricedCoins(coins: seq<Coin>, prices: map<string, PriceData>): (kept: seq<Coin>)
    ensures IsSubsequence(kept, coins)
    ensures forall c :: c in kept ==> c.id in prices
    ensures forall c: Coin :: c.id in prices ==> multiset(kept)[c] == multiset(coins)[c]
  {
    Filter(coins, (c: Coin) => c.id in prices)
  }

  /** `allCoins.map(...).filter(Boolean)`: one entry per priced coin, in list
      order, each joined with its own price data; unpriced coins are dropped.
      Mapping unpriced coins to `null` and then dropping the `null`s is the
      same as dropping the unpriced coins first and then mapping. */
  function WithPrices(coins: seq<Coin>, prices: map<string, PriceData>): (priced: seq<RankedCoin>)
    ensures |priced| == |PricedCoins(coins, prices)|
    ensures forall k :: 0 <= k < |priced| ==>
      PricedCoins(coins, prices)[k].id in prices &&
      priced[k] == Attach(PricedCoins(coins, prices)[k], prices[PricedCoins(coins, prices)[k].id])
  {
    var kept := PricedCoins(coins, prices);
    seq(|kept|, k requires 0 <= k < |kept| => assert kept[k] in kept; Attach(kept[k], prices[kept[k].id]))
  }

  /** A coin is priced exactly when it is in the list and has price data. */
  lemma PricedCoinsMembers(coins: seq<Coin>, prices: map<string, PriceData>, c: Coin)
    ensures c in PricedCoins(coins, prices) <==> c in coins && c.id in prices
  {
    var kept := PricedCoins(coins, prices);
    if c in kept {
      assert c in multiset(kept);
    }
    if c in coins && c.id in prices {
      assert c in multiset(coins);
    }
  }

  /** Descending by 24h change. */
  ghost predicate SortedByChange(s: seq<RankedCoin>)
  {
    forall i, j :: 0 <= i < j < |s| ==> s[i].change >= s[j].change
  }

  /** Insert `x` before the first coin whose change does not exceed its own. */
  function Insert(x: RankedCoin, s: seq<RankedCoin>): (r: seq<RankedCoin>)
    requires SortedByChange(s)
    ensures SortedByChange(r)
    ensures |r| == |s| + 1
    ensures forall y :: y in r ==> y == x || y in s
    ensures r[0] == x || (s != [] && r[0] == s[0])
    ensures multiset(r) == multiset(s) + multiset{x}
  {
    if s == [] || s[0].change <= x.change then [x] + s
    else
      var rest := Insert(x, s[1..]);
      assert s == [s[0]] + s[1..];
      SortedCons(s[0], rest);
      [s[0]] + rest
  }

  /** A coin whose change is at least that of a ranked list's head may lead it. */
  lemma SortedCons(head: RankedCoin, tail: seq<RankedCoin>)
    requires SortedByChange(tail)
    requires tail == [] || head.change >= tail[0].change
    ensures SortedByChange([head] + tail)
  {
    var r := [head] + tail;
    forall i, j | 0 <= i < j < |r| ensures r[i].change >= r[j].change {
      if i > 0 {
        assert r[i] == tail[i - 1] && r[j] == tail[j - 1];
      } else {
        assert r[j] == tail[j - 1] && tail[0].change >= tail[j - 1].change;
      }
    }
  }

  /** `.sort((a, b) => b.change - a.change)`: the same coins, largest change first. */
  function SortByChange(s: seq<RankedCoin>): (r: seq<RankedCoin>)
    ensures SortedByChange(r)
    ensures |r| == |s|
    ensures multiset(r) == multiset(s)
  {
    if s == [] then []
    else
      assert s == [s[0]] + s[1..];
      Insert(s[0], SortByChange(s[1..]))
  }

  /** `sortedCoins`: exactly the coins with price data, largest change first. */
  function SortedCoins(coins: seq<Coin>, prices: map<string, PriceData>): (r: seq<RankedCoin>)
    ensures SortedByChange(r)
    ensures multiset(r) == multiset(WithPrices(coins, prices))
    ensures |r| <= |coins|
  {
    SortByChange(WithPrices(coins, prices))
  }

  /** The ranked list holds exactly the coins that have price data, each
      joined with its own entry. */
  lemma SortedCoinsArePricedCoins(coins: seq<Coin>, prices: map<string, PriceData>)
    ensures forall i :: 0 <= i < |coins| && coins[i].id in prices ==> Attach(coins[i], prices[coins[i].id]) in SortedCoins(coins, prices)
    ensures forall x :: x in SortedCoins(coins, prices) ==>
      && x.id in prices && x.price == prices[x.id].usd && x.change == prices[x.id].usd24hChange
      && exists i :: 0 <= i < |coins| && coins[i].id == x.id && coins[i].symbol == x.symbol
  {
    PricedCoinsAreRanked(coins, prices);
    RankedCoinsArePriced(coins, prices);
  }

  /** Every coin with price data reaches the ranked list, joined with its data. */
  lemma PricedCoinsAreRanked(coins: seq<Coin>, prices: map<string, PriceData>)
    ensures forall i :: 0 <= i < |coins| && coins[i].id in prices ==> Attach(coins[i], prices[coins[i].id]) in SortedCoins(coins, prices)
  {
    var ranked, priced, kept := SortedCoins(coins, prices), WithPrices(coins, prices), PricedCoins(coins, prices);
    forall i | 0 <= i < |coins| && coins[i].id in prices
      ensures Attach(coins[i], prices[coins[i].id]) in ranked
    {
      PricedCoinsMembers(coins, prices, coins[i]);
      var k :| 0 <= k < |kept| && kept[k] == coins[i];
      assert priced[k] in multiset(priced);
    }
  }

  /** Every ranked entry comes from a listed coin and carries that coin's price data. */
  lemma RankedCoinsArePriced(coins: seq<Coin>, prices: map<string, PriceData>)
    ensures forall x :: x in SortedCoins(coins, prices) ==>
      && x.id in prices && x.price == prices[x.id].usd && x.change == prices[x.id].usd24hChange
      && exists i :: 0 <= i < |coins| && coins[i].id == x.id && coins[i].symbol == x.symbol
  {
    var ranked, priced, kept := SortedCoins(coins, prices), WithPrices(coins, prices), PricedCoins(coins, prices);
    forall x | x in ranked
      ensures x.id in prices && x.price == prices[x.id].usd && x.change == prices[x.id].usd24hChange
      ensures exists i :: 0 <= i < |coins| && coins[i].id == x.id && coins[i].symbol == x.symbol
    {
      assert x in multiset(ranked);
      var k :| 0 <= k < |priced| && priced[k] == x;
      PricedCoinsMembers(coins, prices, kept[k]);
      var i :| 0 <= i < |coins| && coins[i] == kept[k];
    }
  }

  /** `sortedCoins.slice(0, 3)`: the first three, or all when fewer. */
  function TopGainers(sorted: seq<RankedCoin>): (r: seq<RankedCoin>)
    ensures |r| == Min(3, |sorted|)
    ensures r == sorted[..|r|]
  {
    SliceFirst(sorted, 3);
    Slice(sorted, 0, 3)
  }

  /** `sortedCoins.slice(-3).reverse()`: the last three, last one first. */
  function TopLosers(sorted: seq<RankedCoin>): (r: seq<RankedCoin>)
    ensures |r| == Min(3, |sorted|)
    ensures forall i :: 0 <= i < |r| ==> r[i] == sorted[|sorted| - 1 - i]
  {
    var n := |sorted|;
    var tail := SliceFrom(sorted, -3);
    assert tail == sorted[n - Min(3, n)..];
    Reverse(tail)
  }

  /** Over a ranked list the gainers come in descending change and none of the
      coins left out changed more than any gainer. */
  lemma GainersAreTop(sorted: seq<RankedCoin>)
    requires SortedByChange(sorted)
    ensures SortedByChange(TopGainers(sorted))
    ensures forall i, j :: 0 <= i < |TopGainers(sorted)| <= j < |sorted| ==>
      TopGainers(sorted)[i].change >= sorted[j].change
  {
    var top := TopGainers(sorted);
    assert forall i :: 0 <= i < |top| ==> top[i] == sorted[i];
  }

  /** Over a ranked list the losers come in ascending change and none of the
      coins left out changed less than any loser. */
  lemma LosersAreBottom(sorted: seq<RankedCoin>)
    requires SortedByChange(sorted)
    ensures forall i, j :: 0 <= i < j < |TopLosers(sorted)| ==> TopLosers(sorted)[i].change <= TopLosers(sorted)[j].change
    ensures forall i, j :: 0 <= i < |TopLosers(sorted)| && 0 <= j < |sorted| - |TopLosers(sorted)| ==>
      TopLosers(sorted)[i].change <= sorted[j].change
  {
    ReversedTailAscends(sorted, TopLosers(sorted));
  }

  /** A tail of a descending list, read backwards, ascends and lies below the rest. */
  lemma ReversedTailAscends(sorted: seq<RankedCoin>, bottom: seq<RankedCoin>)
    requires SortedByChange(sorted)
    requires |bottom| <= |sorted|
    requires forall i :: 0 <= i < |bottom| ==> bottom[i] == sorted[|sorted| - 1 - i]
    ensures forall i, j :: 0 <= i < j < |bottom| ==> bottom[i].change <= bottom[j].change
    ensures forall i, j :: 0 <= i < |bottom| && 0 <= j < |sorted| - |bottom| ==>
      bottom[i].change <= sorted[j].change
  {
    var n := |sorted|;
    forall i, j | 0 <= i < j < |bottom| ensures bottom[i].change <= bottom[j].change {
      assert bottom[i] == sorted[n - 1 - i] && bottom[j] == sorted[n - 1 - j];
    }
    forall i, j | 0 <= i < |bottom| && 0 <= j < n - |bottom| ensures bottom[i].change <= sorted[j].change {
      assert bottom[i] == sorted[n - 1 - i];
    }
  }

  /** With three or fewer priced coins both lists hold every coin, the losers in
      the reverse order of the gainers. */
  lemma FewCoinsMirror(sorted: seq<RankedCoin>)
    requires |sorted| <= 3
    ensures TopLosers(sorted) == Reverse(TopGainers(sorted))
  {
    var g, l := TopGainers(sorted), TopLosers(sorted);
    assert g == sorted;
    assert |l| == |Reverse(g)|;
    forall i | 0 <= i < |l| ensures l[i] == Reverse(g)[i] {
    }
  }
}

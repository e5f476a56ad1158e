/** The coins store: the market list, the search over it, the top movers, and the
    merge of a fresh price answer into the list. */
module Coins {
  import opened Seqs
  import opened Types

  // ---------------------------------------------------------------------------
  // Search
  // ---------------------------------------------------------------------------

  /** `toLowerCase` on one character, for the ASCII letters. */
  function LowerChar(c: char): char
  {
    if 'A' <= c <= 'Z' then (c as int - 'A' as int + 'a' as int) as char else c
  }

  function ToLower(s: string): string
  {
    seq(|s|, i requires 0 <= i < |s| => LowerChar(s[i]))
  }

  /** `q` occurs in `s` starting at position `i`. */
  ghost predicate OccursAt(s: string, q: string, i: int)
  {
    0 <= i && i + |q| <= |s| && s[i..i + |q|] == q
  }

  /** `s.includes(q)`, by trying each start position in turn. */
  function Includes(s: string, q: string): bool
    decreases |s|
  {
    if |q| <= |s| && s[..|q|] == q then true
    else if |s| <= |q| then false
    else Includes(s[1..], q)
  }

  /** `Includes` holds exactly when the query occurs somewhere in the text. */
  lemma {:induction false} IncludesIsSubstring(s: string, q: string)
    ensures Includes(s, q) <==> exists i :: OccursAt(s, q, i)
    decreases |s|
  {
    if |q| <= |s| && s[..|q|] == q {
      assert OccursAt(s, q, 0);
    } else if |s| <= |q| {
    } else {
      IncludesIsSubstring(s[1..], q);
      if exists i :: OccursAt(s, q, i) {
        var i :| OccursAt(s, q, i);
        assert i != 0;
        assert s[1..][i - 1..i - 1 + |q|] == s[i..i + |q|];
        assert OccursAt(s[1..], q, i - 1);
      }
      if exists i :: OccursAt(s[1..], q, i) {
        var i :| OccursAt(s[1..], q, i);
        assert s[i + 1..i + 1 + |q|] == s[1..][i..i + |q|];
        assert OccursAt(s, q, i + 1);
      }
    }
  }

  /** The search test: the lower-cased name or symbol contains the lower-cased query. */
  predicate MatchesQuery(c: SimpleCoin, query: string)
  {
    Includes(ToLower(c.name), ToLower(query)) || Includes(ToLower(c.symbol), ToLower(query))
  }

  function Matching(query: string): SimpleCoin -> bool
  {
    (c: SimpleCoin) => MatchesQuery(c, query)
  }

  /** `filteredCoins`: an empty query shows the whole list; otherwise the coins that
      match it, in list order. */
  function FilteredCoins(coins: seq<SimpleCoin>, query: string): (r: seq<SimpleCoin>)
    ensures query == "" ==> r == coins
    ensures query != "" ==> forall c :: c in r <==> c in coins && MatchesQuery(c, query)
  {
    if query == "" then coins else Filter(coins, Matching(query))
  }

  /** The search works coin by coin: searching a concatenation concatenates the
      results, and a single coin is kept or dropped. So matches keep their list order
      and each is listed as often as it is in the list. */
  lemma SearchKeepsOrder(a: seq<SimpleCoin>, b: seq<SimpleCoin>, c: SimpleCoin, query: string)
    ensures FilteredCoins(a + b, query) == FilteredCoins(a, query) + FilteredCoins(b, query)
    ensures FilteredCoins([c], query) == if query == "" || MatchesQuery(c, query) then [c] else []
  {
    if query != "" {
      FilterAppend(a, b, Matching(query));
      FilterOne(c, Matching(query));
    }
  }

  /** A coin shows up for a query exactly when the query, lower-cased, occurs in its
      lower-cased name or symbol. */
  lemma SearchFindsSubstrings(coins: seq<SimpleCoin>, query: string, c: SimpleCoin)
    requires query != "" && c in coins
    ensures c in FilteredCoins(coins, query) <==>
      (exists i :: OccursAt(ToLower(c.name), ToLower(query), i)) ||
      (exists i :: OccursAt(ToLower(c.symbol), ToLower(query), i))
  {
    IncludesIsSubstring(ToLower(c.name), ToLower(query));
    IncludesIsSubstring(ToLower(c.symbol), ToLower(query));
  }

  // ---------------------------------------------------------------------------
  // Top movers
  // ---------------------------------------------------------------------------

  /** The sort key: `change24h` for the gainers (largest first), its negation for
      the losers, so that both lists are "largest key first". */
  function Key(c: SimpleCoin, ascending: bool): real
  {
    if ascending then -c.change24h else c.change24h
  }

  ghost predicate SortedByKey(s: seq<SimpleCoin>, ascending: bool)
  {
    forall i, j :: 0 <= i < j < |s| ==> Key(s[i], ascending) >= Key(s[j], ascending)
  }

  /** Inserts `x` before the first element whose key is not larger, so an element
      never overtakes an equal one that came before it (the sort is stable). */
  function Insert(x: SimpleCoin, s: seq<SimpleCoin>, ascending: bool): (r: seq<SimpleCoin>)
    ensures |r| == |s| + 1
    ensures multiset(r) == multiset(s) + multiset{x}
  {
    if s == [] || Key(s[0], ascending) <= Key(x, ascending) then [x] + s
    else
      assert s == [s[0]] + s[1..];
      [s[0]] + Insert(x, s[1..], ascending)
  }

  /** Inserting an element no larger than a bound into elements no larger than it
      yields elements no larger than it. */
  lemma {:induction false} InsertBounded(x: SimpleCoin, s: seq<SimpleCoin>, ascending: bool, bound: real)
    requires forall k :: 0 <= k < |s| ==> Key(s[k], ascending) <= bound
    requires Key(x, ascending) <= bound
    ensures forall k :: 0 <= k < |Insert(x, s, ascending)| ==> Key(Insert(x, s, ascending)[k], ascending) <= bound
  {
    if s != [] && Key(s[0], ascending) > Key(x, ascending) {
      InsertBounded(x, s[1..], ascending, bound);
    }
  }

  lemma {:induction false} InsertKeepsSorted(x: SimpleCoin, s: seq<SimpleCoin>, ascending: bool)
    requires SortedByKey(s, ascending)
    ensures SortedByKey(Insert(x, s, ascending), ascending)
  {
    if s != [] && Key(s[0], ascending) > Key(x, ascending) {
      InsertKeepsSorted(x, s[1..], ascending);
      InsertBounded(x, s[1..], ascending, Key(s[0], ascending));
    }
  }

  /** `[...coins].sort(...)`: a stable sort by descending key. */
  function SortByChange(s: seq<SimpleCoin>, ascending: bool): (r: seq<SimpleCoin>)
    ensures |r| == |s|
    ensures SortedByKey(r, ascending)
    ensures multiset(r) == multiset(s)
  {
    if s == [] then []
    else
      assert s == [s[0]] + s[1..];
      var t := SortByChange(s[1..], ascending);
      InsertKeepsSorted(s[0], t, ascending);
      Insert(s[0], t, ascending)
  }

  const TopCount := 5

  /** `.slice(0, 5)` of the sorted copy. */
  function TopMovers(coins: seq<SimpleCoin>, ascending: bool): (r: seq<SimpleCoin>)
    ensures |r| == if |coins| < TopCount then |coins| else TopCount
    ensures multiset(r) <= multiset(coins)
    ensures SortedByKey(r, ascending)
  {
    var sorted := SortByChange(coins, ascending);
    var n := if |sorted| < TopCount then |sorted| else TopCount;
    assert sorted == sorted[..n] + sorted[n..];
    sorted[..n]
  }

  /** Past position `n` of a sorted list, no key exceeds the one at `n - 1`. */
  lemma SortedSuffixBounded(sorted: seq<SimpleCoin>, ascending: bool, n: int)
    requires SortedByKey(sorted, ascending) && 0 < n <= |sorted|
    ensures forall c :: c in multiset(sorted[n..]) ==> Key(c, ascending) <= Key(sorted[n - 1], ascending)
  {
    forall c | c in multiset(sorted[n..])
      ensures Key(c, ascending) <= Key(sorted[n - 1], ascending)
    {
      var k :| 0 <= k < |sorted[n..]| && sorted[n..][k] == c;
      assert sorted[n + k] == c;
    }
  }

  /** No coin left out of the top movers has a larger key than the last one kept. */
  lemma TopMoversOmitNoLarger(coins: seq<SimpleCoin>, ascending: bool)
    ensures var r := TopMovers(coins, ascending);
      coins != [] ==> (|r| > 0 &&
        forall c :: c in multiset(coins) - multiset(r) ==> Key(c, ascending) <= Key(r[|r| - 1], ascending))
  {
    if coins != [] {
      var sorted := SortByChange(coins, ascending);
      var r := TopMovers(coins, ascending);
      var n := |r|;
      assert r == sorted[..n];
      assert sorted == sorted[..n] + sorted[n..];
      assert multiset(sorted) == multiset(sorted[..n]) + multiset(sorted[n..]);
      assert multiset(coins) - multiset(r) == multiset(sorted[n..]);
      SortedSuffixBounded(sorted, ascending, n);
    }
  }

  /** `topGainers`: up to five coins, drawn from the list, largest 24h change first. */
  function TopGainers(coins: seq<SimpleCoin>): (r: seq<SimpleCoin>)
    ensures |r| == if |coins| < 5 then |coins| else 5
    ensures multiset(r) <= multiset(coins)
    ensures forall i, j :: 0 <= i < j < |r| ==> r[i].change24h >= r[j].change24h
    ensures coins != [] ==>
      forall c :: c in multiset(coins) - multiset(r) ==> c.change24h <= r[|r| - 1].change24h
  {
    TopMoversOmitNoLarger(coins, false);
    TopMovers(coins, false)
  }

  /** `topLosers`: up to five coins, drawn from the list, smallest 24h change first. */
  function TopLosers(coins: seq<SimpleCoin>): (r: seq<SimpleCoin>)
    ensures |r| == if |coins| < 5 then |coins| else 5
    ensures multiset(r) <= multiset(coins)
    ensures forall i, j :: 0 <= i < j < |r| ==> r[i].change24h <= r[j].change24h
    ensures coins != [] ==>
      forall c :: c in multiset(coins) - multiset(r) ==> c.change24h >= r[|r| - 1].change24h
  {
    TopMoversOmitNoLarger(coins, true);
    TopMovers(coins, true)
  }

  // ---------------------------------------------------------------------------
  // Lookup and price merge
  // ---------------------------------------------------------------------------

  function CoinHasId(id: string): SimpleCoin -> bool { (c: SimpleCoin) => c.id == id }

  /** `getCoinById(id)`: the first coin with that id, if any. */
  function CoinById(coins: seq<SimpleCoin>, id: string): (r: Option<SimpleCoin>)
    ensures r.None? <==> forall i :: 0 <= i < |coins| ==> coins[i].id != id
    ensures r.Some? ==> exists i :: IsFirst(coins, CoinHasId(id), i) && coins[i] == r.value
  {
    match FirstIndex(coins, CoinHasId(id))
    case None => None
    case Some(i) => Some(coins[i])
  }

  /** The price merge of `updatePrices`: `data[id]?.usd ?? price` and
      `data[id]?.usd_24h_change ?? change24h`. */
  function MergePrices(coins: seq<SimpleCoin>, data: map<string, PriceQuote>): (r: seq<SimpleCoin>)
    ensures |r| == |coins|
    ensures forall i :: 0 <= i < |r| ==>
      r[i].(price := coins[i].price, change24h := coins[i].change24h) == coins[i]
    ensures forall i :: 0 <= i < |r| ==> coins[i].id !in data ==> r[i] == coins[i]
    ensures forall i :: 0 <= i < |r| ==> coins[i].id in data ==>
      r[i].price == data[coins[i].id].usd &&
      r[i].change24h == Pick(data[coins[i].id].usd24hChange, coins[i].change24h)
  {
    seq(|coins|, i requires 0 <= i < |coins| =>
      var c := coins[i];
      if c.id in data then c.(price := data[c.id].usd, change24h := Pick(data[c.id].usd24hChange, c.change24h))
      else c)
  }

  /** Merging the same answer twice is merging it once, and an empty answer changes nothing. */
  lemma MergePricesLaws(coins: seq<SimpleCoin>, data: map<string, PriceQuote>)
    ensures MergePrices(MergePrices(coins, data), data) == MergePrices(coins, data)
    ensures MergePrices(coins, map[]) == coins
  {
  }

  /** The coin list after `updatePrices`, given the fetch's answer (`None` when the
      request failed): an empty list is not refreshed, a failed fetch changes nothing. */
  function RefreshedCoins(coins: seq<SimpleCoin>, response: Option<map<string, PriceQuote>>): (r: seq<SimpleCoin>)
    ensures |r| == |coins|
    ensures coins == [] || response.None? ==> r == coins
    ensures coins != [] && response.Some? ==> r == MergePrices(coins, response.value)
  {
    if |coins| == 0 then coins
    else match response
      case None => coins
      case Some(data) => MergePrices(coins, data)
  }

  // ---------------------------------------------------------------------------
  // The store
  // ---------------------------------------------------------------------------

  class CoinStore {
    var coins: seq<SimpleCoin>
    var searchQuery: string
    var lastUpdated: Option<string>

    constructor ()
      ensures coins == [] && searchQuery == "" && lastUpdated == None
    {
      coins, searchQuery, lastUpdated := [], "", None;
    }

    /** `updatePrices`, with the fetch's answer (`None` for a failed request) and the
        clock passed in. */
    method UpdatePrices(response: Option<map<string, PriceQuote>>, now: string)
      modifies this
      ensures coins == RefreshedCoins(old(coins), response)
      ensures lastUpdated == if old(coins) != [] && response.Some? then Some(now) else old(lastUpdated)
      ensures searchQuery == old(searchQuery)
    {
      if |coins| == 0 {
        return;
      }
      match response {
        case None =>
        case Some(data) =>
          coins := MergePrices(coins, data);
          lastUpdated := Some(now);
      }
    }

    method SetSearchQuery(query: string)
      modifies this
      ensures searchQuery == query
      ensures coins == old(coins) && lastUpdated == old(lastUpdated)
    {
      searchQuery := query;
    }
  }
}

/** Price estimation of ImageGenerator.js: the price rule `pickPrice`, the
    price map `fetchPriceMap` builds from the market-data service (distinct
    item keys, batches of 50 ids, cities in priority order, first usable row
    wins), and the totals `sumItemValue` computes from it. */
module Prices {
  import opened Text
  import opened Events

  /** A lone `sell_price_min` above this is treated as an outlier. */
  const MinSellCap: int := 500_000
  /** Item ids per price request. */
  const BatchSize: nat := 50
  /** The markets asked, in priority order. */
  const PriceLocations: seq<string> := ["Caerleon", "Lymhurst"]

  /** One row of the price service's answer; a missing or non-numeric price
      field is 0 (`Number(x) || 0`). */
  datatype PriceRow = PriceRow(itemId: string, quality: int, sellPriceAvg: int, buyPriceMax: int, sellPriceMin: int)

  /** A price-map key, `${item_id}|${quality}`. The quality is a number, so
      the text after the last `|` determines both halves and the pair is an
      exact model of the joined string. */
  datatype Key = Key(itemId: string, quality: int)

  function RowKey(row: PriceRow): Key {
    Key(row.itemId, row.quality)
  }

  /** `pickPrice(row)`: the average sell price if positive, else the best buy
      order if positive, else the cheapest sell order when it is positive
      and not above the cap, else 0 (also for a missing row). */
  function PickPrice(row: Option<PriceRow>): (p: int)
    ensures p >= 0
    ensures p > 0 ==>
      (row.Some? &&
       (p == row.value.sellPriceAvg || p == row.value.buyPriceMax ||
        (p == row.value.sellPriceMin && p <= MinSellCap)))
    // the three sources in priority order
    ensures row.Some? && row.value.sellPriceAvg > 0 ==> p == row.value.sellPriceAvg
    ensures row.Some? && row.value.sellPriceAvg <= 0 && row.value.buyPriceMax > 0 ==> p == row.value.buyPriceMax
    ensures row.Some? && row.value.sellPriceAvg <= 0 && row.value.buyPriceMax <= 0 && 0 < row.value.sellPriceMin <= MinSellCap ==>
      p == row.value.sellPriceMin
  {
    if row.None? then 0
    else
      var r := row.value;
      if r.sellPriceAvg > 0 then r.sellPriceAvg
      else if r.buyPriceMax > 0 then r.buyPriceMax
      else if r.sellPriceMin > 0 && r.sellPriceMin <= MinSellCap then r.sellPriceMin
      else 0
  }

  /** `isUsable(row)` of `fetchPriceMap`: the row has a price signal that is
      not junk. */
  predicate IsUsable(row: Option<PriceRow>) {
    row.Some? &&
    (row.value.sellPriceAvg > 0 || row.value.buyPriceMax > 0 ||
     (row.value.sellPriceMin > 0 && row.value.sellPriceMin <= MinSellCap))
  }

  /** The two rules agree: a row is usable exactly when it yields a price. */
  lemma UsableIffPriced(row: Option<PriceRow>)
    ensures IsUsable(row) <==> PickPrice(row) > 0
  {
  }

  /** With no average and no buy order, a sell order above the cap is ignored. */
  lemma OutlierMinIgnored(row: PriceRow)
    requires row.sellPriceAvg <= 0 && row.buyPriceMax <= 0 && row.sellPriceMin > MinSellCap
    ensures PickPrice(Some(row)) == 0
  {
  }

  /** The key `fetchPriceMap` files a typed item under: trimmed type, quality. */
  function PairOf(it: Item): Key {
    Key(Trim(it.itemType), QualityOf(it))
  }

  predicate DistinctKeys(s: seq<Key>) {
    forall i, j :: 0 <= i < j < |s| ==> s[i] != s[j]
  }

  /** The `uniquePairs` of `fetchPriceMap` in insertion order: the keys of the
      typed items, each once, in order of first appearance. */
  function Pairs(items: seq<Item>): (r: seq<Key>)
    ensures DistinctKeys(r)
    ensures forall k :: k in r <==> exists i :: 0 <= i < |items| && items[i].itemType != "" && PairOf(items[i]) == k
    decreases |items|
  {
    if items == [] then []
    else
      var prev := Pairs(items[..|items| - 1]);
      var it := items[|items| - 1];
      assert forall i :: 0 <= i < |items| - 1 ==> items[..|items| - 1][i] == items[i];
      if it.itemType == "" || PairOf(it) in prev then prev else prev + [PairOf(it)]
  }

  /** `itemIds`: the item id of every distinct pair, in the same order. */
  function IdsOf(pairs: seq<Key>): (r: seq<string>)
    ensures |r| == |pairs| && forall i :: 0 <= i < |pairs| ==> r[i] == pairs[i].itemId
  {
    seq(|pairs|, i requires 0 <= i < |pairs| => pairs[i].itemId)
  }

  /** `qualities`: the qualities of the typed items. */
  function Qualities(items: seq<Item>): set<nat> {
    set i | 0 <= i < |items| && items[i].itemType != "" :: QualityOf(items[i])
  }

  /** The key-collection loop of `fetchPriceMap`. */
  method CollectKeys(items: seq<Item>) returns (itemIds: seq<string>, pairs: seq<Key>, qualities: set<nat>)
    ensures pairs == Pairs(items)
    ensures itemIds == IdsOf(pairs)
    ensures qualities == Qualities(items)
  {
    itemIds, pairs, qualities := [], [], {};
    for n := 0 to |items|
      invariant pairs == Pairs(items[..n])
      invariant itemIds == IdsOf(pairs)
      invariant qualities == Qualities(items[..n])
    {
      var it := items[n];
      assert items[..n + 1][..n] == items[..n];
      assert Qualities(items[..n + 1]) == Qualities(items[..n]) + (if it.itemType == "" then {} else {QualityOf(it)}) by {
        assert forall i :: 0 <= i < n ==> items[..n + 1][i] == items[..n][i];
      }
      if it.itemType == "" {
        continue;
      }
      var key := Key(Trim(it.itemType), QualityOf(it));
      qualities := qualities + {key.quality};
      if key !in pairs {
        pairs := pairs + [key];
        itemIds := itemIds + [key.itemId];
      }
    }
    assert items[..|items|] == items;
  }

  /** Concatenation of a list of batches. */
  function Flatten(bs: seq<seq<string>>): seq<string>
    decreases |bs|
  {
    if bs == [] then [] else bs[0] + Flatten(bs[1..])
  }

  /** `itemIds` cut into consecutive slices of `size`: every batch is
      non-empty and at most `size` long, all but the last are full, and
      together they are `ids` again. */
  function Batches(ids: seq<string>, size: nat): (r: seq<seq<string>>)
    requires size > 0
    ensures Flatten(r) == ids
    ensures forall b :: b in r ==> 1 <= |b| <= size
    ensures forall j :: 0 <= j < |r| - 1 ==> |r[j]| == size
    ensures ids == [] <==> r == []
    decreases |ids|
  {
    if ids == [] then []
    else if |ids| <= size then
      assert Flatten([ids]) == ids + Flatten([]);
      [ids]
    else
      var rest := Batches(ids[size..], size);
      var r := [ids[..size]] + rest;
      assert r[1..] == rest;
      assert ids[..size] + ids[size..] == ids;
      r
  }

  /** The batching loop of `fetchPriceMap`: `itemIds.slice(i, i + 50)` for
      i = 0, 50, 100, ... */
  method MakeBatches(ids: seq<string>) returns (batches: seq<seq<string>>)
    ensures batches == Batches(ids, BatchSize)
  {
    batches := [];
    var i := 0;
    while i < |ids|
      invariant 0 <= i <= |ids|
      invariant batches + Batches(ids[i..], BatchSize) == Batches(ids, BatchSize)
      decreases |ids| - i
    {
      var end := if i + BatchSize <= |ids| then i + BatchSize else |ids|;
      BatchesStep(ids, i, end);
      assert batches + Batches(ids[i..], BatchSize) == (batches + [ids[i..end]]) + Batches(ids[end..], BatchSize);
      batches := batches + [ids[i..end]];
      i := end;
    }
  }

  /** The batches from position `i` on: the next slice, then the rest. */
  lemma BatchesStep(ids: seq<string>, i: nat, end: nat)
    requires i < |ids| && end == (if i + BatchSize <= |ids| then i + BatchSize else |ids|)
    ensures Batches(ids[i..], BatchSize) == [ids[i..end]] + Batches(ids[end..], BatchSize)
  {
    var t := ids[i..];
    if |t| > BatchSize {
      assert t[..BatchSize] == ids[i..end];
      assert t[BatchSize..] == ids[end..];
    } else {
      assert t == ids[i..end];
      assert ids[end..] == [];
    }
  }

  /** The stored row for a key, and what `map.set(key, row)` does when it
      runs: a usable stored row is kept, anything else is replaced. */
  function Merge(m: map<Key, PriceRow>, row: PriceRow): (r: map<Key, PriceRow>)
    ensures RowKey(row) in r
    ensures r[RowKey(row)] == (if RowKey(row) in m && IsUsable(Some(m[RowKey(row)])) then m[RowKey(row)] else row)
    ensures forall k :: k != RowKey(row) ==> (k in r <==> k in m) && (k in m ==> r[k] == m[k])
  {
    var k := RowKey(row);
    if k in m && IsUsable(Some(m[k])) then m else m[k := row]
  }

  /** The rows of one answer merged in order. */
  function MergeRows(m: map<Key, PriceRow>, rows: seq<PriceRow>): map<Key, PriceRow>
    decreases |rows|
  {
    if rows == [] then m else Merge(MergeRows(m, rows[..|rows| - 1]), rows[|rows| - 1])
  }

  lemma {:induction false} MergeRowsAppend(m: map<Key, PriceRow>, a: seq<PriceRow>, b: seq<PriceRow>)
    ensures MergeRows(m, a + b) == MergeRows(MergeRows(m, a), b)
    decreases |b|
  {
    if b == [] {
      assert a + b == a;
    } else {
      assert (a + b)[..|a + b| - 1] == a + b[..|b| - 1];
      MergeRowsAppend(m, a, b[..|b| - 1]);
    }
  }

  /** The key holds a usable row. */
  predicate HoldsUsable(m: map<Key, PriceRow>, k: Key) {
    k in m && IsUsable(Some(m[k]))
  }

  /** Once a key holds a usable row, no later row for it overwrites it. */
  lemma {:induction false} UsableStays(m: map<Key, PriceRow>, rows: seq<PriceRow>, k: Key)
    requires HoldsUsable(m, k)
    ensures k in MergeRows(m, rows) && MergeRows(m, rows)[k] == m[k]
    decreases |rows|
  {
    if rows != [] {
      UsableStays(m, rows[..|rows| - 1], k);
    }
  }

  /** Without a usable row for a key among the rows, the key does not come
      to hold one. */
  lemma {:induction false} NoUsableRow(m: map<Key, PriceRow>, rows: seq<PriceRow>, k: Key)
    requires !HoldsUsable(m, k)
    requires forall j :: 0 <= j < |rows| && RowKey(rows[j]) == k ==> !IsUsable(Some(rows[j]))
    ensures !HoldsUsable(MergeRows(m, rows), k)
    decreases |rows|
  {
    if rows != [] {
      NoUsableRow(m, rows[..|rows| - 1], k);
    }
  }

  /** "First usable wins": the key ends up holding the first usable row for
      it, whatever follows. */
  lemma FirstUsableWins(m: map<Key, PriceRow>, rows: seq<PriceRow>, k: Key, i: nat)
    requires !HoldsUsable(m, k)
    requires i < |rows| && RowKey(rows[i]) == k && IsUsable(Some(rows[i]))
    requires forall j :: 0 <= j < i && RowKey(rows[j]) == k ==> !IsUsable(Some(rows[j]))
    ensures k in MergeRows(m, rows) && MergeRows(m, rows)[k] == rows[i]
  {
    MergeRowsSplit(m, rows, i + 1);
    RowLands(m, rows, k, i);
    UsableStays(MergeRows(m, rows[..i + 1]), rows[i + 1..], k);
  }

  lemma MergeRowsSplit(m: map<Key, PriceRow>, rows: seq<PriceRow>, n: nat)
    requires n <= |rows|
    ensures MergeRows(m, rows) == MergeRows(MergeRows(m, rows[..n]), rows[n..])
  {
    assert rows[..n] + rows[n..] == rows;
    MergeRowsAppend(m, rows[..n], rows[n..]);
  }

  /** Merging up to row `i` of a key, with no usable row for it before, leaves
      that row in place. */
  lemma RowLands(m: map<Key, PriceRow>, rows: seq<PriceRow>, k: Key, i: nat)
    requires !HoldsUsable(m, k)
    requires i < |rows| && RowKey(rows[i]) == k
    requires forall j :: 0 <= j < i && RowKey(rows[j]) == k ==> !IsUsable(Some(rows[j]))
    ensures k in MergeRows(m, rows[..i + 1]) && MergeRows(m, rows[..i + 1])[k] == rows[i]
  {
    var before := rows[..i];
    forall j | 0 <= j < |before| && RowKey(before[j]) == k ensures !IsUsable(Some(before[j])) {
      assert before[j] == rows[j];
    }
    NoUsableRow(m, before, k);
    assert rows[..i + 1][..i] == before;
  }

  /** Without any usable row, the key holds the last row for it: an unusable
      row is always replaced by the next one. */
  lemma LastUnusableKept(m: map<Key, PriceRow>, rows: seq<PriceRow>, k: Key, i: nat)
    requires !HoldsUsable(m, k)
    requires i < |rows| && RowKey(rows[i]) == k
    requires forall j :: 0 <= j < |rows| && RowKey(rows[j]) == k ==> !IsUsable(Some(rows[j]))
    requires forall j :: i < j < |rows| ==> RowKey(rows[j]) != k
    ensures k in MergeRows(m, rows) && MergeRows(m, rows)[k] == rows[i]
  {
    MergeRowsSplit(m, rows, i + 1);
    RowLands(m, rows, k, i);
    LaterRowsOtherKeys(MergeRows(m, rows[..i + 1]), rows, k, i);
  }

  lemma LaterRowsOtherKeys(m: map<Key, PriceRow>, rows: seq<PriceRow>, k: Key, i: nat)
    requires k in m && i < |rows|
    requires forall j :: i < j < |rows| ==> RowKey(rows[j]) != k
    ensures k in MergeRows(m, rows[i + 1..]) && MergeRows(m, rows[i + 1..])[k] == m[k]
  {
    var rest := rows[i + 1..];
    forall j | 0 <= j < |rest| ensures RowKey(rest[j]) != k {
      assert rest[j] == rows[i + 1 + j];
    }
    OtherKeysUntouched(m, rest, k);
  }

  /** Rows for other keys leave a key's entry alone. */
  lemma {:induction false} OtherKeysUntouched(m: map<Key, PriceRow>, rows: seq<PriceRow>, k: Key)
    requires k in m
    requires forall j :: 0 <= j < |rows| ==> RowKey(rows[j]) != k
    ensures k in MergeRows(m, rows) && MergeRows(m, rows)[k] == m[k]
    decreases |rows|
  {
    if rows != [] {
      OtherKeysUntouched(m, rows[..|rows| - 1], k);
    }
  }

  /** One price request: a market, a batch of ids and the qualities asked
      for (the sorted `qList`). */
  datatype Request = Request(location: string, ids: seq<string>, qualities: set<nat>)

  /** `fetchJson` on the price URL: the rows, or the error it throws. */
  type PriceFeed = Request -> Result<seq<PriceRow>>

  /** The requests of one market, batch by batch. */
  function CityRequests(location: string, batches: seq<seq<string>>, qualities: set<nat>): (r: seq<Request>)
    ensures |r| == |batches|
    ensures forall j :: 0 <= j < |batches| ==> r[j] == Request(location, batches[j], qualities)
  {
    seq(|batches|, j requires 0 <= j < |batches| => Request(location, batches[j], qualities))
  }

  /** All requests in the order `fetchPriceMap` makes them: every batch for
      the first market, then every batch for the next. */
  function Requests(locations: seq<string>, batches: seq<seq<string>>, qualities: set<nat>): seq<Request>
    decreases |locations|
  {
    if locations == [] then []
    else Requests(locations[..|locations| - 1], batches, qualities) + CityRequests(locations[|locations| - 1], batches, qualities)
  }

  /** The answers to `reqs` in order, or the first error. */
  function RowsOf(feed: PriceFeed, reqs: seq<Request>): Result<seq<PriceRow>>
    decreases |reqs|
  {
    if reqs == [] then Ok([])
    else
      var prev := RowsOf(feed, reqs[..|reqs| - 1]);
      if prev.Err? then prev
      else
        var out := feed(reqs[|reqs| - 1]);
        if out.Err? then Err(out.message) else Ok(prev.value + out.value)
  }

  /** Answers split along the requests: the rows of `a + b` are the rows of
      `a` followed by those of `b`, and an error in `a` ends it. */
  lemma {:induction false} RowsOfAppend(feed: PriceFeed, a: seq<Request>, b: seq<Request>)
    ensures RowsOf(feed, a).Err? ==> RowsOf(feed, a + b) == RowsOf(feed, a)
    ensures RowsOf(feed, a).Ok? && RowsOf(feed, b).Err? ==> RowsOf(feed, a + b) == RowsOf(feed, b)
    ensures RowsOf(feed, a).Ok? && RowsOf(feed, b).Ok? ==>
      RowsOf(feed, a + b) == Ok(RowsOf(feed, a).value + RowsOf(feed, b).value)
    decreases |b|
  {
    if b == [] {
      assert a + b == a;
      if RowsOf(feed, a).Ok? {
        assert RowsOf(feed, a).value + [] == RowsOf(feed, a).value;
      }
    } else {
      assert (a + b)[..|a + b| - 1] == a + b[..|b| - 1];
      RowsOfAppend(feed, a, b[..|b| - 1]);
      if RowsOf(feed, a).Ok? && RowsOf(feed, b).Ok? {
        var x := RowsOf(feed, a).value;
        var y := RowsOf(feed, b[..|b| - 1]).value;
        assert x + (y + feed(b[|b| - 1]).value) == x + y + feed(b[|b| - 1]).value;
      }
    }
  }

  /** What `fetchPriceMap(items)` resolves to, or the error it rejects with. */
  function PriceMap(items: seq<Item>, feed: PriceFeed): Result<map<Key, PriceRow>> {
    var pairs := Pairs(items);
    if pairs == [] then Ok(map[])
    else
      var reqs := Requests(PriceLocations, Batches(IdsOf(pairs), BatchSize), Qualities(items));
      var rows := RowsOf(feed, reqs);
      if rows.Err? then Err(rows.message) else Ok(MergeRows(map[], rows.value))
  }

  /** Items without a type ask for nothing and price nothing. */
  lemma NoTypedItemsEmptyMap(items: seq<Item>, feed: PriceFeed)
    requires forall i :: 0 <= i < |items| ==> items[i].itemType == ""
    ensures PriceMap(items, feed) == Ok(map[])
  {
    NoTypedNoPairs(items);
  }

  lemma {:induction false} NoTypedNoPairs(items: seq<Item>)
    requires forall i :: 0 <= i < |items| ==> items[i].itemType == ""
    ensures Pairs(items) == []
    decreases |items|
  {
    if items != [] {
      NoTypedNoPairs(items[..|items| - 1]);
    }
  }

  /** Earlier markets take precedence: when the first market's answers hold a
      usable row for a key, the later markets' answers cannot displace the
      first such row. */
  lemma EarlierMarketWins(first: seq<PriceRow>, later: seq<PriceRow>, k: Key, i: nat)
    requires i < |first| && RowKey(first[i]) == k && IsUsable(Some(first[i]))
    requires forall j :: 0 <= j < i && RowKey(first[j]) == k ==> !IsUsable(Some(first[j]))
    ensures k in MergeRows(map[], first + later) && MergeRows(map[], first + later)[k] == first[i]
  {
    FirstUsableWins(map[], first + later, k, i);
  }

  /** Merging one answer row by row (`map.set` unless a usable row is kept). */
  method MergeAnswer(m: map<Key, PriceRow>, rows: seq<PriceRow>) returns (m': map<Key, PriceRow>)
    ensures m' == MergeRows(m, rows)
  {
    m' := m;
    for j := 0 to |rows|
      invariant m' == MergeRows(m, rows[..j])
    {
      assert rows[..j + 1][..j] == rows[..j];
      var row := rows[j];
      var key := RowKey(row);
      if key in m' && IsUsable(Some(m'[key])) {
        continue;
      }
      m' := m'[key := row];
    }
    assert rows[..|rows|] == rows;
  }

  /** The batch loop for one market: ask for every batch in turn and merge
      each answer; a failed request ends it with its error. */
  method AskMarket(feed: PriceFeed, location: string, batches: seq<seq<string>>, qualities: set<nat>, m: map<Key, PriceRow>)
    returns (out: Result<map<Key, PriceRow>>)
    ensures var rows := RowsOf(feed, CityRequests(location, batches, qualities));
      out == if rows.Err? then Err(rows.message) else Ok(MergeRows(m, rows.value))
  {
    var cur := m;
    ghost var seen: seq<PriceRow> := [];
    for bi := 0 to |batches|
      invariant RowsOf(feed, CityRequests(location, batches[..bi], qualities)) == Ok(seen)
      invariant cur == MergeRows(m, seen)
    {
      BatchTurn(feed, location, batches, qualities, bi, seen);
      var answer := feed(Request(location, batches[bi], qualities));
      if answer.Err? {
        return Err(answer.message);
      }
      cur := MergeAnswer(cur, answer.value);
      MergeRowsAppend(m, seen, answer.value);
      seen := seen + answer.value;
    }
    assert batches[..|batches|] == batches;
    out := Ok(cur);
  }

  /** The batch loop one batch further: the answer extends the rows so far,
      and its error is the error of the whole market. */
  lemma BatchTurn(feed: PriceFeed, location: string, batches: seq<seq<string>>, qualities: set<nat>, bi: nat, seen: seq<PriceRow>)
    requires bi < |batches|
    requires RowsOf(feed, CityRequests(location, batches[..bi], qualities)) == Ok(seen)
    ensures var answer := feed(Request(location, batches[bi], qualities));
      (answer.Err? ==> RowsOf(feed, CityRequests(location, batches, qualities)) == Err(answer.message)) &&
      (answer.Ok? ==> RowsOf(feed, CityRequests(location, batches[..bi + 1], qualities)) == Ok(seen + answer.value))
  {
    var req := Request(location, batches[bi], qualities);
    var done := CityRequests(location, batches[..bi], qualities);
    var next := CityRequests(location, batches[..bi + 1], qualities);
    assert next == done + [req];
    assert next[..|done|] == done;
    if feed(req).Err? {
      var rest := CityRequests(location, batches[bi + 1..], qualities);
      assert CityRequests(location, batches, qualities) == next + rest;
      RowsOfAppend(feed, next, rest);
    }
  }

  /** The answers come market by market: Caerleon's for every batch, then
      Lymhurst's, and the map fails when either market's requests fail. */
  lemma MarketsInOrder(feed: PriceFeed, batches: seq<seq<string>>, qualities: set<nat>)
    ensures var all := RowsOf(feed, Requests(PriceLocations, batches, qualities));
      var first := RowsOf(feed, CityRequests("Caerleon", batches, qualities));
      var second := RowsOf(feed, CityRequests("Lymhurst", batches, qualities));
      (all.Ok? <==> first.Ok? && second.Ok?) &&
      (all.Ok? ==> all.value == first.value + second.value)
  {
    var first := CityRequests("Caerleon", batches, qualities);
    var second := CityRequests("Lymhurst", batches, qualities);
    assert PriceLocations[..1] == ["Caerleon"] && PriceLocations[..1][..0] == [];
    assert Requests(PriceLocations[..1], batches, qualities) == [] + first;
    assert [] + first == first;
    assert Requests(PriceLocations, batches, qualities) == first + second;
    RowsOfAppend(feed, first, second);
  }

  /** `fetchPriceMap(items)`: collect the keys, cut the ids into batches, ask
      every market for every batch, and merge the answers. */
  method FetchPriceMap(items: seq<Item>, feed: PriceFeed) returns (r: Result<map<Key, PriceRow>>)
    ensures r == PriceMap(items, feed)
  {
    var itemIds, pairs, qualities := CollectKeys(items);
    if |itemIds| == 0 {
      return Ok(map[]);
    }
    var batches := MakeBatches(itemIds);
    var m: map<Key, PriceRow> := map[];
    ghost var seen: seq<PriceRow> := [];
    for li := 0 to |PriceLocations|
      invariant RowsOf(feed, Requests(PriceLocations[..li], batches, qualities)) == Ok(seen)
      invariant m == MergeRows(map[], seen)
    {
      var location := PriceLocations[li];
      MarketTurn(feed, PriceLocations, li, batches, qualities, seen);
      var out := AskMarket(feed, location, batches, qualities, m);
      if out.Err? {
        return Err(out.message);
      }
      ghost var answer := RowsOf(feed, CityRequests(location, batches, qualities)).value;
      MergeRowsAppend(map[], seen, answer);
      seen := seen + answer;
      m := out.value;
    }
    assert PriceLocations[..|PriceLocations|] == PriceLocations;
    r := Ok(m);
  }

  /** The market loop one market further: its answers extend the rows so
      far, and its error is the error of the whole price map. */
  lemma MarketTurn(feed: PriceFeed, locations: seq<string>, li: nat, batches: seq<seq<string>>, qualities: set<nat>, seen: seq<PriceRow>)
    requires li < |locations|
    requires RowsOf(feed, Requests(locations[..li], batches, qualities)) == Ok(seen)
    ensures var city := RowsOf(feed, CityRequests(locations[li], batches, qualities));
      (city.Err? ==> RowsOf(feed, Requests(locations, batches, qualities)) == Err(city.message)) &&
      (city.Ok? ==> RowsOf(feed, Requests(locations[..li + 1], batches, qualities)) == Ok(seen + city.value))
  {
    var done := Requests(locations[..li], batches, qualities);
    var city := CityRequests(locations[li], batches, qualities);
    assert locations[..li + 1][..li] == locations[..li];
    assert Requests(locations[..li + 1], batches, qualities) == done + city;
    RowsOfAppend(feed, done, city);
    if RowsOf(feed, city).Err? {
      LaterMarkets(feed, locations, li + 1, batches, qualities);
    }
  }

  /** Requests of later markets come after an error that already happened. */
  lemma {:induction false} LaterMarkets(feed: PriceFeed, locations: seq<string>, n: nat, batches: seq<seq<string>>, qualities: set<nat>)
    requires n <= |locations|
    requires RowsOf(feed, Requests(locations[..n], batches, qualities)).Err?
    ensures RowsOf(feed, Requests(locations, batches, qualities)) == RowsOf(feed, Requests(locations[..n], batches, qualities))
    decreases |locations| - n
  {
    if n < |locations| {
      var a := Requests(locations[..n], batches, qualities);
      assert locations[..n + 1][..n] == locations[..n];
      RowsOfAppend(feed, a, CityRequests(locations[n], batches, qualities));
      LaterMarkets(feed, locations, n + 1, batches, qualities);
    } else {
      assert locations[..n] == locations;
    }
  }

  function Lookup(m: map<Key, PriceRow>, k: Key): Option<PriceRow> {
    if k in m then Some(m[k]) else None
  }

  /** What one item adds in `sumItemValue`: nothing without a type; otherwise
      its price (looked up under the type as given, not trimmed) times 1 for
      builds and times its count otherwise. */
  function ItemValue(it: Item, m: map<Key, PriceRow>, ignoreCounts: bool): int {
    if it.itemType == "" then 0
    else PickPrice(Lookup(m, Key(it.itemType, QualityOf(it)))) * (if ignoreCounts then 1 else CountOf(it))
  }

  /** The value `sumItemValue` adds up, never negative. */
  function ItemsValue(items: seq<Item>, m: map<Key, PriceRow>, ignoreCounts: bool): (v: int)
    ensures v >= 0
    decreases |items|
  {
    if items == [] then 0
    else ItemsValue(items[..|items| - 1], m, ignoreCounts) + ItemValue(items[|items| - 1], m, ignoreCounts)
  }

  /** `sumItemValue(items, priceMap, { ignoreCounts })`. Prices are integers
      here, so the final `Math.round` changes nothing. */
  method SumItemValue(items: seq<Item>, m: map<Key, PriceRow>, ignoreCounts: bool) returns (total: int)
    ensures total == ItemsValue(items, m, ignoreCounts)
  {
    total := 0;
    for n := 0 to |items|
      invariant total == ItemsValue(items[..n], m, ignoreCounts)
    {
      assert items[..n + 1][..n] == items[..n];
      var it := items[n];
      if it.itemType == "" {
        continue;
      }
      var q := QualityOf(it);
      var count := if ignoreCounts then 1 else CountOf(it);
      total := total + PickPrice(Lookup(m, Key(it.itemType, q))) * count;
    }
    assert items[..|items|] == items;
  }

  /** Values add up over concatenated item lists. */
  lemma {:induction false} ItemsValueAppend(a: seq<Item>, b: seq<Item>, m: map<Key, PriceRow>, ignoreCounts: bool)
    ensures ItemsValue(a + b, m, ignoreCounts) == ItemsValue(a, m, ignoreCounts) + ItemsValue(b, m, ignoreCounts)
    decreases |b|
  {
    if b == [] {
      assert a + b == a;
    } else {
      assert (a + b)[..|a + b| - 1] == a + b[..|b| - 1];
      ItemsValueAppend(a, b[..|b| - 1], m, ignoreCounts);
    }
  }

  /** Untyped items are worth nothing. */
  lemma {:induction false} UntypedWorthNothing(items: seq<Item>, m: map<Key, PriceRow>, ignoreCounts: bool)
    requires forall i :: 0 <= i < |items| ==> items[i].itemType == ""
    ensures ItemsValue(items, m, ignoreCounts) == 0
    decreases |items|
  {
    if items != [] {
      UntypedWorthNothing(items[..|items| - 1], m, ignoreCounts);
    }
  }

  /** A build is priced without its stack counts: lists that differ only in
      counts are worth the same. */
  lemma {:induction false} BuildIgnoresCounts(a: seq<Item>, b: seq<Item>, m: map<Key, PriceRow>)
    requires |a| == |b|
    requires forall i :: 0 <= i < |a| ==> a[i].itemType == b[i].itemType && a[i].quality == b[i].quality
    ensures ItemsValue(a, m, true) == ItemsValue(b, m, true)
    decreases |a|
  {
    if a != [] {
      BuildIgnoresCounts(a[..|a| - 1], b[..|b| - 1], m);
    }
  }

  /** The estimates `generateKillImage` reports. */
  datatype Estimates = Estimates(killerBuild: int, victimBuild: int, victimInv: int, victimTotalLoss: int)

  /** Builds are priced without counts, the inventory with them; the total
      loss is the victim's build plus inventory. */
  function EstimatesOf(kill: Kill, m: map<Key, PriceRow>): (e: Estimates)
    // builds are summed without counts, the inventory with them
    ensures e.killerBuild == ItemsValue(kill.killerEquipment, m, true)
    ensures e.victimBuild == ItemsValue(kill.victimEquipment, m, true)
    ensures e.victimInv == ItemsValue(kill.inventory, m, false)
    // the total loss is the victim's build plus inventory
    ensures e.victimTotalLoss == e.victimBuild + e.victimInv
    ensures e.killerBuild >= 0 && e.victimBuild >= 0 && e.victimInv >= 0
    ensures e.victimTotalLoss >= e.victimBuild && e.victimTotalLoss >= e.victimInv
  {
    var victimBuild := ItemsValue(kill.victimEquipment, m, true);
    var victimInv := ItemsValue(kill.inventory, m, false);
    Estimates(ItemsValue(kill.killerEquipment, m, true), victimBuild, victimInv, victimBuild + victimInv)
  }

  /** The price part of `generateKillImage`: one price map for all equipment
      and the inventory, then the estimates. */
  function KillEstimates(kill: Kill, feed: PriceFeed): (r: Result<Estimates>)
    // a failed market request fails the estimate with its message
    ensures var pm := PriceMap(kill.killerEquipment + kill.victimEquipment + kill.inventory, feed);
      (r.Err? <==> pm.Err?) && (r.Err? ==> r.message == pm.message)
    // otherwise every figure is read from that one price map
    ensures var pm := PriceMap(kill.killerEquipment + kill.victimEquipment + kill.inventory, feed);
      r.Ok? ==>
        && pm.Ok?
        && r.value == EstimatesOf(kill, pm.value)
        && r.value.victimTotalLoss == ItemsValue(kill.victimEquipment, pm.value, true) + ItemsValue(kill.inventory, pm.value, false)
  {
    var pm := PriceMap(kill.killerEquipment + kill.victimEquipment + kill.inventory, feed);
    if pm.Err? then Err(pm.message) else Ok(EstimatesOf(kill, pm.value))
  }

  /** Stack counts in the equipment do not move the estimates: two kills whose
      equipment differs only in counts, with the same inventory, are valued
      alike. */
  lemma EstimatesIgnoreGearCounts(a: Kill, b: Kill, m: map<Key, PriceRow>)
    requires |a.killerEquipment| == |b.killerEquipment| && |a.victimEquipment| == |b.victimEquipment|
    requires forall i :: 0 <= i < |a.killerEquipment| ==>
      a.killerEquipment[i].itemType == b.killerEquipment[i].itemType && a.killerEquipment[i].quality == b.killerEquipment[i].quality
    requires forall i :: 0 <= i < |a.victimEquipment| ==>
      a.victimEquipment[i].itemType == b.victimEquipment[i].itemType && a.victimEquipment[i].quality == b.victimEquipment[i].quality
    requires a.inventory == b.inventory
    ensures EstimatesOf(a, m) == EstimatesOf(b, m)
  {
    BuildIgnoresCounts(a.killerEquipment, b.killerEquipment, m);
    BuildIgnoresCounts(a.victimEquipment, b.victimEquipment, m);
  }
}

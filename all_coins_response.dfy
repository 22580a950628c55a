/** `AllCoinsResponse`: the initial snapshot, a list of `{id, priceUsd}` items
    turned into a list of coins, or `null` when no item has an id. */
module AllCoinsDecoding {
  import opened Wrappers
  import opened Coins

  datatype CoinItem = CoinItem(id: Option<string>, priceUsd: Option<string>)

  datatype AllCoinsResponse = AllCoinsResponse(data: Option<seq<CoinItem>>)

  /** `data ?: emptyList()`. */
  function Items(resp: AllCoinsResponse): seq<CoinItem>
  {
    match resp.data
    case None => []
    case Some(items) => items
  }

  /** `priceUsd?.toFloatOrNull() ?: 0.0f`. */
  function PriceOf(item: CoinItem, parse: string -> Option<real>): (p: real)
    ensures item.priceUsd.None? ==> p == 0.0
    ensures item.priceUsd.Some? && parse(item.priceUsd.value).None? ==> p == 0.0
    ensures item.priceUsd.Some? && parse(item.priceUsd.value).Some? ==> p == parse(item.priceUsd.value).value
  {
    match item.priceUsd
    case None => 0.0
    case Some(s) => if parse(s).Some? then parse(s).value else 0.0
  }

  /** The coins the loop collects from `items`: items without an id contribute nothing. */
  function Collected(items: seq<CoinItem>, parse: string -> Option<real>): seq<Coin>
    decreases |items|
  {
    if items == [] then []
    else
      var item := items[|items| - 1];
      Collected(items[..|items| - 1], parse)
        + (if item.id.Some? then [Coin(item.id.value, PriceOf(item, parse))] else [])
  }

  /** The positions of the items that carry an id, in increasing order. */
  function IdPositions(items: seq<CoinItem>): (ps: seq<nat>)
    ensures forall k :: 0 <= k < |ps| ==> ps[k] < |items| && items[ps[k]].id.Some?
    ensures forall k, k' :: 0 <= k < k' < |ps| ==> ps[k] < ps[k']
    ensures forall i :: 0 <= i < |items| && items[i].id.Some? ==> i in ps
    decreases |items|
  {
    if items == [] then []
    else
      var n := |items| - 1;
      var init := items[..n];
      IdPositions(init) + (if items[n].id.Some? then [n] else [])
  }

  /** Exactly one coin per item with an id, in input order: the k-th coin is the
      item at the k-th id position, named by its id and priced by PriceOf. */
  lemma {:induction false} CollectedFollowsIds(items: seq<CoinItem>, parse: string -> Option<real>)
    ensures |Collected(items, parse)| == |IdPositions(items)|
    ensures forall k :: 0 <= k < |Collected(items, parse)| ==>
      var item := items[IdPositions(items)[k]];
      Collected(items, parse)[k] == Coin(item.id.value, PriceOf(item, parse))
    decreases |items|
  {
    if items != [] {
      var n := |items| - 1;
      var init := items[..n];
      CollectedFollowsIds(init, parse);
      forall k | 0 <= k < |IdPositions(init)|
        ensures items[IdPositions(init)[k]] == init[IdPositions(init)[k]]
      {
      }
    }
  }

  /** The result is empty exactly when no item has an id. */
  lemma {:induction false} CollectedEmptyIff(items: seq<CoinItem>, parse: string -> Option<real>)
    ensures Collected(items, parse) == [] <==> forall i :: 0 <= i < |items| ==> items[i].id.None?
    decreases |items|
  {
    if items != [] {
      var n := |items| - 1;
      CollectedEmptyIff(items[..n], parse);
      assert forall i :: 0 <= i < n ==> items[..n][i] == items[i];
    }
  }

  /** Collecting distributes over concatenation: each item is handled on its own. */
  lemma {:induction false} CollectedAppend(a: seq<CoinItem>, b: seq<CoinItem>, parse: string -> Option<real>)
    ensures Collected(a + b, parse) == Collected(a, parse) + Collected(b, parse)
    decreases |b|
  {
    if b != [] {
      var n := |b| - 1;
      CollectedAppend(a, b[..n], parse);
      assert (a + b)[..|a + b| - 1] == a + b[..n];
    } else {
      assert a + b == a;
    }
  }

  /** `convertToCoinList`: null when no item has an id (including a null or empty
      `data`), otherwise the collected coins. */
  method ConvertToCoinList(resp: AllCoinsResponse, parse: string -> Option<real>) returns (r: Option<seq<Coin>>)
    ensures r.None? <==> forall i :: 0 <= i < |Items(resp)| ==> Items(resp)[i].id.None?
    ensures r.Some? ==> r.value == Collected(Items(resp), parse) && r.value != []
  {
    var result: seq<Coin> := [];
    var responseArray := Items(resp);
    for i := 0 to |responseArray|
      invariant result == Collected(responseArray[..i], parse)
    {
      var coin := responseArray[i];
      var price := PriceOf(coin, parse);
      assert responseArray[..i + 1][..i] == responseArray[..i];
      if coin.id.None? {
        continue;
      }
      result := result + [Coin(coin.id.value, price)];
    }
    assert responseArray[..|responseArray|] == responseArray;
    CollectedEmptyIff(responseArray, parse);
    if result == [] {
      return None;
    }
    return Some(result);
  }
}

/** The rolling price window behind the chart: a running global minimum and
    maximum of every price ever saved, the most recent prices in arrival order,
    and their normalisation into chart dots. */
module LineGraph {

  /** Eviction threshold: the window is trimmed only once it holds MORE than
      LIMIT prices, and before the append, so it holds up to LIMIT + 1. */
  const LIMIT: nat := 10

  /** What the chart is drawn from: `dots` are meant to lie in [0, 1]. */
  datatype LineGraphData = LineGraphData(min: real, max: real, dots: seq<real>)

  /** The manager's state as a value: `0.0` in `maxPrice` or `minPrice` means "unset". */
  datatype Window = Window(maxPrice: real, minPrice: real, prices: seq<real>)

  const EmptyWindow: Window := Window(0.0, 0.0, [])

  function Min(a: int, b: int): int { if a <= b then a else b }

  function MaxReal(a: real, b: real): real { if a >= b then a else b }

  function MinReal(a: real, b: real): real { if a <= b then a else b }

  /** The last `n` elements of `s` (all of `s` when it is shorter). */
  function Latest(s: seq<real>, n: nat): (r: seq<real>)
    ensures |r| == Min(|s|, n)
    ensures r == s[|s| - |r|..]
  {
    if |s| <= n then s else s[|s| - n..]
  }

  /** One `savePrice(price)`: the sentinel check, the min/max update, then
      eviction of the oldest price when more than LIMIT are held, then the append. */
  function Save(w: Window, price: real): Window
  {
    var max0 := if w.maxPrice == 0.0 then price else w.maxPrice;
    var min0 := if w.minPrice == 0.0 then price else w.minPrice;
    var max1 := if price > max0 then price else max0;
    var min1 := if price < min0 then price else min0;
    var kept := if |w.prices| > LIMIT then w.prices[1..] else w.prices;
    Window(max1, min1, kept + [price])
  }

  /** A save ends the window with the new price and grows it by one, up to LIMIT + 1. */
  lemma SaveAppends(w: Window, price: real)
    ensures var r := Save(w, price);
      && r.prices != [] && r.prices[|r.prices| - 1] == price
      && (|w.prices| <= LIMIT + 1 ==> |r.prices| == Min(|w.prices| + 1, LIMIT + 1))
  {
  }

  /** The window after saving `ps` in order, oldest first. */
  function SaveAll(w: Window, ps: seq<real>): Window
    decreases |ps|
  {
    if ps == [] then w else Save(SaveAll(w, ps[..|ps| - 1]), ps[|ps| - 1])
  }

  /** One dot: where `price` sits between `max` (dot 0) and `min` (dot 1). */
  function Normalize(max: real, min: real, price: real): real
  {
    var delta := max - min;
    if delta != 0.0 then (max - price) / delta else 0.0
  }

  /** `calculateGraphData` as a function of the window. */
  function GraphData(w: Window): (r: LineGraphData)
  {
    LineGraphData(w.minPrice, w.maxPrice,
                  seq(|w.prices|, i requires 0 <= i < |w.prices| => Normalize(w.maxPrice, w.minPrice, w.prices[i])))
  }

  /** The invariant that holds while every saved price is positive: either nothing
      was saved yet (both sentinels unset) or every retained price lies in
      [minPrice, maxPrice] and minPrice is positive. */
  ghost predicate Good(w: Window)
  {
    if w.prices == [] then w.maxPrice == 0.0 && w.minPrice == 0.0
    else
      && 0.0 < w.minPrice <= w.maxPrice
      && forall i :: 0 <= i < |w.prices| ==> w.minPrice <= w.prices[i] <= w.maxPrice
  }

  ghost predicate AllPositive(ps: seq<real>)
  {
    forall i :: 0 <= i < |ps| ==> ps[i] > 0.0
  }

  /** The largest and smallest elements of a non-empty sequence. */
  function SeqMax(ps: seq<real>): real
    requires ps != []
    decreases |ps|
  {
    if |ps| == 1 then ps[0] else MaxReal(SeqMax(ps[..|ps| - 1]), ps[|ps| - 1])
  }

  function SeqMin(ps: seq<real>): real
    requires ps != []
    decreases |ps|
  {
    if |ps| == 1 then ps[0] else MinReal(SeqMin(ps[..|ps| - 1]), ps[|ps| - 1])
  }

  /** A positive save keeps the invariant, brackets the new price, moves the
      maximum only up and the minimum only down, and the first save sets both. */
  lemma SaveBounds(w: Window, price: real)
    requires Good(w) && price > 0.0
    ensures var r := Save(w, price);
      && Good(r)
      && r.minPrice <= price <= r.maxPrice
      && (w.prices != [] ==> w.maxPrice <= r.maxPrice && r.minPrice <= w.minPrice)
      && (w.prices == [] ==> r.minPrice == price && r.maxPrice == price)
  {
    var r := Save(w, price);
    var kept := if |w.prices| > LIMIT then w.prices[1..] else w.prices;
    assert r.prices == kept + [price];
    forall i | 0 <= i < |r.prices|
      ensures r.minPrice <= r.prices[i] <= r.maxPrice
    {
      if i < |kept| {
        assert r.prices[i] == kept[i];
        assert kept[i] == w.prices[if |w.prices| > LIMIT then i + 1 else i];
      }
    }
  }

  /** Saving only positive prices from the empty window keeps the invariant. */
  lemma {:induction false} SaveAllGood(ps: seq<real>)
    requires AllPositive(ps)
    ensures Good(SaveAll(EmptyWindow, ps))
    decreases |ps|
  {
    if ps != [] {
      var init := ps[..|ps| - 1];
      assert AllPositive(init) by {
        forall i | 0 <= i < |init| ensures init[i] > 0.0 { assert init[i] == ps[i]; }
      }
      SaveAllGood(init);
      SaveBounds(SaveAll(EmptyWindow, init), ps[|ps| - 1]);
    }
  }

  /** With positive prices, the running maximum and minimum are those of the
      whole history, not just of the retained window. */
  lemma {:induction false} HistoryExtremes(ps: seq<real>)
    requires ps != [] && AllPositive(ps)
    ensures SaveAll(EmptyWindow, ps).maxPrice == SeqMax(ps)
    ensures SaveAll(EmptyWindow, ps).minPrice == SeqMin(ps)
    decreases |ps|
  {
    var init := ps[..|ps| - 1];
    assert AllPositive(init) by {
      forall i | 0 <= i < |init| ensures init[i] > 0.0 { assert init[i] == ps[i]; }
    }
    if |ps| > 1 {
      HistoryExtremes(init);
      SaveAllGood(init);
    }
  }

  /** Saving appends at the end of `ps`. */
  lemma SaveAllSnoc(w: Window, ps: seq<real>, p: real)
    ensures SaveAll(w, ps + [p]) == Save(SaveAll(w, ps), p)
  {
    assert (ps + [p])[..|ps|] == ps;
  }

  /** One save keeps the last LIMIT + 1 prices. */
  lemma SaveIsLatest(v: Window, p: real)
    requires |v.prices| <= LIMIT + 1
    ensures Save(v, p).prices == Latest(v.prices + [p], LIMIT + 1)
  {
    if |v.prices| > LIMIT {
      assert Save(v, p).prices == v.prices[1..] + [p];
      assert (v.prices + [p])[1..] == v.prices[1..] + [p];
    }
  }

  lemma LatestStep(x: seq<real>, p: real, n: nat)
    requires n > 0
    ensures Latest(Latest(x, n) + [p], n) == Latest(x + [p], n)
  {
    if |x| > n {
      var l := Latest(x, n);
      assert Latest(l + [p], n) == l[1..] + [p];
      assert Latest(x + [p], n) == x[|x| + 1 - n..] + [p];
      assert l[1..] == x[|x| + 1 - n..];
    }
  }

  /** FIFO: from any window within the bound, saving `ps` leaves exactly the last
      LIMIT + 1 prices of the old window followed by `ps`, in arrival order. */
  lemma {:induction false} WindowIsLatest(w: Window, ps: seq<real>)
    requires |w.prices| <= LIMIT + 1
    ensures SaveAll(w, ps).prices == Latest(w.prices + ps, LIMIT + 1)
    decreases |ps|
  {
    if ps == [] {
      assert w.prices + ps == w.prices;
    } else {
      var init, p := ps[..|ps| - 1], ps[|ps| - 1];
      var a := w.prices + init;
      WindowIsLatest(w, init);
      var v := SaveAll(w, init);
      assert v.prices == Latest(a, LIMIT + 1);
      SaveIsLatest(v, p);
      LatestStep(a, p, LIMIT + 1);
      assert a + [p] == w.prices + ps;
    }
  }

  /** After n saves from the empty window it holds the last min(n, LIMIT + 1)
      saved prices, so never more than 11. */
  lemma WindowBound(ps: seq<real>)
    ensures SaveAll(EmptyWindow, ps).prices == Latest(ps, LIMIT + 1)
    ensures |SaveAll(EmptyWindow, ps).prices| == Min(|ps|, LIMIT + 1) <= 11
  {
    WindowIsLatest(EmptyWindow, ps);
    assert EmptyWindow.prices + ps == ps;
  }

  /** A price inside [min, max] with min < max normalises into [0, 1], to 0
      exactly at the maximum and to 1 exactly at the minimum. */
  lemma NormalizeInUnitInterval(max: real, min: real, price: real)
    requires min < max && min <= price <= max
    ensures 0.0 <= Normalize(max, min, price) <= 1.0
    ensures Normalize(max, min, price) == 0.0 <==> price == max
    ensures Normalize(max, min, price) == 1.0 <==> price == min
  {
    QuotientFacts(max - price, max - min);
  }

  lemma QuotientFacts(a: real, b: real)
    requires 0.0 <= a <= b && b > 0.0
    ensures 0.0 <= a / b <= 1.0
    ensures a / b == 0.0 <==> a == 0.0
    ensures a / b == 1.0 <==> a == b
  {
    assert a / b * b == a;
  }

  lemma QuotientAboveOne(a: real, b: real)
    requires 0.0 < b < a
    ensures a / b > 1.0
  {
    assert a / b * b == a;
  }

  /** The documented claim "dots are from 0 to 1", under the invariant. */
  lemma DotsInUnitInterval(w: Window)
    requires Good(w)
    ensures var d := GraphData(w).dots;
      forall i :: 0 <= i < |d| ==> 0.0 <= d[i] <= 1.0
  {
    var d := GraphData(w).dots;
    forall i | 0 <= i < |d| ensures 0.0 <= d[i] <= 1.0 {
      if w.minPrice < w.maxPrice {
        NormalizeInUnitInterval(w.maxPrice, w.minPrice, w.prices[i]);
      }
    }
  }

  /** When the window is not flat, a dot is 0 exactly at the maximum and 1 exactly
      at the minimum; when it is flat, every dot is 0. */
  lemma DotExtremes(w: Window, i: int)
    requires Good(w) && 0 <= i < |w.prices|
    ensures w.minPrice < w.maxPrice ==>
      && (GraphData(w).dots[i] == 0.0 <==> w.prices[i] == w.maxPrice)
      && (GraphData(w).dots[i] == 1.0 <==> w.prices[i] == w.minPrice)
    ensures w.minPrice == w.maxPrice ==> GraphData(w).dots[i] == 0.0
  {
    if w.minPrice < w.maxPrice {
      NormalizeInUnitInterval(w.maxPrice, w.minPrice, w.prices[i]);
    }
  }

  /** Any history of positive prices gives dots in [0, 1]. */
  lemma PositiveHistoryDots(ps: seq<real>)
    requires AllPositive(ps)
    ensures var d := GraphData(SaveAll(EmptyWindow, ps)).dots;
      forall i :: 0 <= i < |d| ==> 0.0 <= d[i] <= 1.0
  {
    SaveAllGood(ps);
    DotsInUnitInterval(SaveAll(EmptyWindow, ps));
  }

  /** Why positivity is needed: a saved 0 is retained but does not initialise the
      sentinels, so after saving 0, then p, then a lower q, the first dot is
      p / (p - q) > 1 (2.5 for 0, 5, 3). */
  lemma SentinelZeroEscapes(p: real, q: real)
    requires 0.0 < q < p
    ensures var d := GraphData(SaveAll(EmptyWindow, [0.0, p, q])).dots;
      |d| == 3 && d[0] == p / (p - q) && d[0] > 1.0
  {
    var ps := [0.0, p, q];
    SaveAllSnoc(EmptyWindow, [], 0.0);
    SaveAllSnoc(EmptyWindow, [0.0], p);
    SaveAllSnoc(EmptyWindow, [0.0, p], q);
    assert [0.0] + [p] == [0.0, p] && [0.0, p] + [q] == ps;
    assert SaveAll(EmptyWindow, [0.0]) == Window(0.0, 0.0, [0.0]);
    assert SaveAll(EmptyWindow, [0.0, p]) == Window(p, p, [0.0, p]);
    assert SaveAll(EmptyWindow, ps) == Window(p, q, ps);
    QuotientAboveOne(p, p - q);
  }

  /** `LineGraphManager`: the window, updated in place. */
  class LineGraphManager {
    var maxPrice: real
    var minPrice: real
    var allPrices: seq<real>
    /** Every price saved so far, oldest first. */
    ghost var history: seq<real>

    ghost function State(): Window
      reads this
    {
      Window(maxPrice, minPrice, allPrices)
    }

    ghost predicate Valid()
      reads this
    {
      State() == SaveAll(EmptyWindow, history)
    }

    constructor ()
      ensures Valid() && history == [] && State() == EmptyWindow
    {
      maxPrice, minPrice, allPrices := 0.0, 0.0, [];
      history := [];
    }

    method SavePrice(price: real)
      requires Valid()
      modifies this
      ensures Valid() && history == old(history) + [price]
      ensures State() == Save(old(State()), price)
    {
      SaveAllSnoc(EmptyWindow, history, price);
      if maxPrice == 0.0 { maxPrice := price; }
      if minPrice == 0.0 { minPrice := price; }
      if price > maxPrice { maxPrice := price; }
      if price < minPrice { minPrice := price; }
      if |allPrices| > LIMIT {
        allPrices := allPrices[1..];
      }
      allPrices := allPrices + [price];
      history := history + [price];
    }

    /** Reads the window and changes no field; builds one dot per retained price. */
    method CalculateGraphData() returns (data: LineGraphData)
      ensures data == GraphData(State())
    {
      var prices := allPrices;
      var dots: seq<real> := [];
      for k := 0 to |prices|
        invariant |dots| == k
        invariant forall j :: 0 <= j < k ==> dots[j] == Normalize(maxPrice, minPrice, prices[j])
      {
        var delta := maxPrice - minPrice;
        var normalized := if delta != 0.0 then (maxPrice - prices[k]) / delta else 0.0;
        dots := dots + [normalized];
      }
      data := LineGraphData(minPrice, maxPrice, dots);
    }
  }
}

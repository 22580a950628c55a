/** `PricesResponse`: one streaming message, a flat object with an optional
    price string per tracked coin, turned into a list of coins. */
module PricesDecoding {
  import opened Wrappers
  import opened Coins

  /** The four optional fields, every one `null` when absent from the message. */
  datatype PricesResponse = PricesResponse(
    bitcoin: Option<string>,
    ethereum: Option<string>,
    monero: Option<string>,
    litecoin: Option<string>)

  const DefaultResponse: PricesResponse := PricesResponse(None, None, None, None)

  /** The fixed output order of the fields. */
  const FixedOrder: seq<string> := ["bitcoin", "ethereum", "monero", "litecoin"]

  /** Position of `name` in FixedOrder; 4 for any other name. */
  function Rank(name: string): nat
  {
    if name == "bitcoin" then 0
    else if name == "ethereum" then 1
    else if name == "monero" then 2
    else if name == "litecoin" then 3
    else 4
  }

  /** The value a field contributes: the parsed price, or nothing when the field
      is absent or its string does not parse (`toFloatOrNull` gives null). */
  function Parsed(field: Option<string>, parse: string -> Option<real>): Option<real>
  {
    match field
    case None => None
    case Some(s) => parse(s)
  }

  /** `result` has an entry named `name` exactly when the field parses, and every
      such entry carries the parsed value. */
  ghost predicate Reports(result: seq<Coin>, name: string, field: Option<string>, parse: string -> Option<real>)
  {
    && ((exists i :: 0 <= i < |result| && result[i].name == name) <==> Parsed(field, parse).Some?)
    && forall i :: 0 <= i < |result| && result[i].name == name ==> Parsed(field, parse) == Some(result[i].price)
  }

  /** Names follow FixedOrder strictly, so they are pairwise distinct and known. */
  ghost predicate InFixedOrder(result: seq<Coin>)
  {
    && (forall i :: 0 <= i < |result| ==> Rank(result[i].name) < 4)
    && forall i, j :: 0 <= i < j < |result| ==> Rank(result[i].name) < Rank(result[j].name)
  }

  /** What one field contributes to the list: one coin with the field's fixed name
      and parsed value, or nothing. */
  function Entry(field: Option<string>, name: string, parse: string -> Option<real>): (e: seq<Coin>)
    ensures |e| <= 1
    ensures |e| == 1 <==> Parsed(field, parse).Some?
    ensures forall i :: 0 <= i < |e| ==> e[i] == Coin(name, Parsed(field, parse).value)
  {
    match Parsed(field, parse)
    case None => []
    case Some(v) => [Coin(name, v)]
  }

  /** No coin of `s` is named `name`. */
  ghost predicate Lacks(s: seq<Coin>, name: string)
  {
    forall i :: 0 <= i < |s| ==> s[i].name != name
  }

  lemma LacksAppend(s: seq<Coin>, t: seq<Coin>, name: string)
    requires Lacks(s, name) && Lacks(t, name)
    ensures Lacks(s + t, name)
  {
  }

  /** The entry of another field never carries `name`. */
  lemma EntryLacks(field: Option<string>, other: string, name: string, parse: string -> Option<real>)
    requires other != name
    ensures Lacks(Entry(field, other, parse), name)
  {
  }

  /** A field's own entry reports it exactly. */
  lemma EntryReports(field: Option<string>, name: string, parse: string -> Option<real>)
    ensures Reports(Entry(field, name, parse), name, field, parse)
  {
    if Parsed(field, parse).Some? {
      assert Entry(field, name, parse)[0].name == name;
    }
  }

  /** Coins of other names, before or after, do not change what is reported. */
  lemma ReportsBefore(s: seq<Coin>, t: seq<Coin>, name: string, field: Option<string>, parse: string -> Option<real>)
    requires Reports(s, name, field, parse) && Lacks(t, name)
    ensures Reports(s + t, name, field, parse)
  {
    if exists i :: 0 <= i < |s| && s[i].name == name {
      var i :| 0 <= i < |s| && s[i].name == name;
      assert (s + t)[i] == s[i];
    }
  }

  lemma ReportsAfter(s: seq<Coin>, t: seq<Coin>, name: string, field: Option<string>, parse: string -> Option<real>)
    requires Lacks(s, name) && Reports(t, name, field, parse)
    ensures Reports(s + t, name, field, parse)
  {
    if exists i :: 0 <= i < |t| && t[i].name == name {
      var i :| 0 <= i < |t| && t[i].name == name;
      assert (s + t)[|s| + i] == t[i];
    }
  }

  /** Appending at most one coin of rank `k` to a list whose names all rank below
      `k` keeps the list in fixed order. */
  lemma OrderedSnoc(a: seq<Coin>, e: seq<Coin>, k: nat)
    requires k < 4 && |e| <= 1
    requires InFixedOrder(a) && forall i :: 0 <= i < |a| ==> Rank(a[i].name) < k
    requires forall i :: 0 <= i < |e| ==> Rank(e[i].name) == k
    ensures InFixedOrder(a + e) && forall i :: 0 <= i < |a + e| ==> Rank((a + e)[i].name) < k + 1
  {
  }

  /** The rank of each field name is its position in FixedOrder. */
  lemma RanksOfNames()
    ensures Rank("bitcoin") == 0 && Rank("ethereum") == 1 && Rank("monero") == 2 && Rank("litecoin") == 3
  {
    NamesDistinct();
  }

  /** The list `convertToCoinList` builds, as a value. */
  function Decoded(r: PricesResponse, parse: string -> Option<real>): seq<Coin>
  {
    Entry(r.bitcoin, "bitcoin", parse) + Entry(r.ethereum, "ethereum", parse)
      + Entry(r.monero, "monero", parse) + Entry(r.litecoin, "litecoin", parse)
  }

  lemma DecodedInFixedOrder(r: PricesResponse, parse: string -> Option<real>)
    ensures InFixedOrder(Decoded(r, parse))
  {
    var b, e, m, l := Entry(r.bitcoin, "bitcoin", parse), Entry(r.ethereum, "ethereum", parse),
                      Entry(r.monero, "monero", parse), Entry(r.litecoin, "litecoin", parse);
    RanksOfNames();
    OrderedSnoc([], b, 0);
    EmptyAppend(b);
    OrderedSnoc(b, e, 1);
    OrderedSnoc(b + e, m, 2);
    OrderedSnoc(b + e + m, l, 3);
  }

  /** The field names are pairwise distinct; stated once so callers need not
      compare the strings themselves. */
  lemma NamesDistinct()
    ensures "bitcoin" != "ethereum" && "bitcoin" != "monero" && "bitcoin" != "litecoin"
    ensures "ethereum" != "monero" && "ethereum" != "litecoin" && "monero" != "litecoin"
  {
    assert "ethereum"[0] != "litecoin"[0];
  }

  /** Each field is reported exactly in the decoded list, whatever the others hold. */
  lemma BitcoinReported(r: PricesResponse, parse: string -> Option<real>)
    ensures Reports(Decoded(r, parse), "bitcoin", r.bitcoin, parse)
  {
    var b, e, m, l := Entry(r.bitcoin, "bitcoin", parse), Entry(r.ethereum, "ethereum", parse),
                      Entry(r.monero, "monero", parse), Entry(r.litecoin, "litecoin", parse);
    NamesDistinct();
    EntryReports(r.bitcoin, "bitcoin", parse);
    EntryLacks(r.ethereum, "ethereum", "bitcoin", parse);
    ReportsBefore(b, e, "bitcoin", r.bitcoin, parse);
    EntryLacks(r.monero, "monero", "bitcoin", parse);
    ReportsBefore(b + e, m, "bitcoin", r.bitcoin, parse);
    EntryLacks(r.litecoin, "litecoin", "bitcoin", parse);
    ReportsBefore(b + e + m, l, "bitcoin", r.bitcoin, parse);
  }

  lemma EthereumReported(r: PricesResponse, parse: string -> Option<real>)
    ensures Reports(Decoded(r, parse), "ethereum", r.ethereum, parse)
  {
    var b, e, m, l := Entry(r.bitcoin, "bitcoin", parse), Entry(r.ethereum, "ethereum", parse),
                      Entry(r.monero, "monero", parse), Entry(r.litecoin, "litecoin", parse);
    NamesDistinct();
    EntryReports(r.ethereum, "ethereum", parse);
    EntryLacks(r.bitcoin, "bitcoin", "ethereum", parse);
    ReportsAfter(b, e, "ethereum", r.ethereum, parse);
    EntryLacks(r.monero, "monero", "ethereum", parse);
    ReportsBefore(b + e, m, "ethereum", r.ethereum, parse);
    EntryLacks(r.litecoin, "litecoin", "ethereum", parse);
    ReportsBefore(b + e + m, l, "ethereum", r.ethereum, parse);
  }

  lemma MoneroReported(r: PricesResponse, parse: string -> Option<real>)
    ensures Reports(Decoded(r, parse), "monero", r.monero, parse)
  {
    var b, e, m, l := Entry(r.bitcoin, "bitcoin", parse), Entry(r.ethereum, "ethereum", parse),
                      Entry(r.monero, "monero", parse), Entry(r.litecoin, "litecoin", parse);
    NamesDistinct();
    EntryReports(r.monero, "monero", parse);
    EntryLacks(r.bitcoin, "bitcoin", "monero", parse);
    EntryLacks(r.ethereum, "ethereum", "monero", parse);
    LacksAppend(b, e, "monero");
    ReportsAfter(b + e, m, "monero", r.monero, parse);
    EntryLacks(r.litecoin, "litecoin", "monero", parse);
    ReportsBefore(b + e + m, l, "monero", r.monero, parse);
  }

  lemma LitecoinReported(r: PricesResponse, parse: string -> Option<real>)
    ensures Reports(Decoded(r, parse), "litecoin", r.litecoin, parse)
  {
    var b, e, m, l := Entry(r.bitcoin, "bitcoin", parse), Entry(r.ethereum, "ethereum", parse),
                      Entry(r.monero, "monero", parse), Entry(r.litecoin, "litecoin", parse);
    NamesDistinct();
    EntryReports(r.litecoin, "litecoin", parse);
    EntryLacks(r.bitcoin, "bitcoin", "litecoin", parse);
    EntryLacks(r.ethereum, "ethereum", "litecoin", parse);
    EntryLacks(r.monero, "monero", "litecoin", parse);
    LacksAppend(b, e, "litecoin");
    LacksAppend(b + e, m, "litecoin");
    ReportsAfter(b + e + m, l, "litecoin", r.litecoin, parse);
  }

  /** Sequence identity stated once, so callers prove it cheaply. */
  lemma EmptyAppend<T>(s: seq<T>)
    ensures [] + s == s
  {
  }

  /** `addCoinToList`: appends `Coin(coinName, price)` to `list` when the field is
      present and parses, and leaves `list` as it was otherwise. */
  method AddCoinToList(coinPrice: Option<string>, coinName: string, list: seq<Coin>, parse: string -> Option<real>)
    returns (list': seq<Coin>)
    ensures coinPrice.None? ==> list' == list
    ensures coinPrice.Some? && parse(coinPrice.value).None? ==> list' == list
    ensures coinPrice.Some? && parse(coinPrice.value).Some? ==>
      list' == list + [Coin(coinName, parse(coinPrice.value).value)]
    ensures list' == list + Entry(coinPrice, coinName, parse)
  {
    list' := list;
    if coinPrice.None? {
      return;
    }
    var price := parse(coinPrice.value);
    if price.Some? {
      list' := list' + [Coin(coinName, price.value)];
    }
  }

  /** `convertToCoinList`: the four fields in fixed order, absent and unparseable
      ones skipped, each present one reported with its own parsed value. */
  method ConvertToCoinList(r: PricesResponse, parse: string -> Option<real>) returns (result: seq<Coin>)
    ensures |result| <= 4
    ensures InFixedOrder(result)
    ensures Reports(result, "bitcoin", r.bitcoin, parse)
    ensures Reports(result, "ethereum", r.ethereum, parse)
    ensures Reports(result, "monero", r.monero, parse)
    ensures Reports(result, "litecoin", r.litecoin, parse)
    ensures r == DefaultResponse ==> result == []
  {
    result := [];
    EmptyAppend(Entry(r.bitcoin, "bitcoin", parse));
    result := AddCoinToList(r.bitcoin, "bitcoin", result, parse);
    result := AddCoinToList(r.ethereum, "ethereum", result, parse);
    result := AddCoinToList(r.monero, "monero", result, parse);
    result := AddCoinToList(r.litecoin, "litecoin", result, parse);
    assert result == Decoded(r, parse);
    DecodedInFixedOrder(r, parse);
    BitcoinReported(r, parse);
    EthereumReported(r, parse);
    MoneroReported(r, parse);
    LitecoinReported(r, parse);
  }
}

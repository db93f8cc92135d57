/** A representative sample of the endpoint methods of coingecko/coingecko.py,
    as the (path, raw params) pair each one hands to `CoinGecko._get`.
    Python's default argument values are Dafny default parameters. */
module Endpoints {
  import opened Wrappers
  import opened Utils

  /** What an endpoint method passes to `_get`: a relative path and,
      when it builds one, a params dict display. */
  datatype Call = Call(path: string, params: Option<seq<Entry>>)

  /** Every dict display in the modelled endpoint methods lists each key
      once. */
  ghost predicate WellFormed(c: Call)
  {
    c.params.Some? ==> DistinctKeys(c.params.value)
  }

  /** An optional bool argument: `None` stays `None`. */
  function OptBool(b: Option<bool>): Value
  {
    if b.None? then Absent else Bool(b.value)
  }

  function OptInt(n: Option<int>): Value
  {
    if n.None? then Absent else Int(n.value)
  }

  /** `str(include_platform).lower()`: "none", "true" or "false",
      each for exactly one argument. */
  function LowerStr(b: Option<bool>): (s: string)
    ensures s == "none" <==> b.None?
    ensures s == "true" <==> b == Some(true)
    ensures s == "false" <==> b == Some(false)
  {
    match b
    case None => "none"
    case Some(true) => "true"
    case Some(false) => "false"
  }

  /** `ping` (coingecko/coingecko.py:93-95) */
  function Ping(): (c: Call)
    ensures c.path == "ping" && WellFormed(c) && c.params.None?
  {
    Call("ping", None)
  }

  /** `get_simple_price` (coingecko/coingecko.py:97-117) */
  function SimplePrice(ids: seq<string>, vsCurrencies: seq<string>,
                       includeMarketCap: Option<bool> := None,
                       include24hrVol: Option<bool> := None,
                       include24hrChange: Option<bool> := None,
                       includeLastUpdatedAt: Option<bool> := None): (c: Call)
    ensures c.path == "simple/price"
    ensures WellFormed(c) && c.params.Some?
    ensures Lookup(c.params.value, "ids") == Some(List(ids))
    ensures Lookup(c.params.value, "vs_currencies") == Some(List(vsCurrencies))
  {
    Call("simple/price", Some([
      ("ids", List(ids)),
      ("vs_currencies", List(vsCurrencies)),
      ("include_market_cap", OptBool(includeMarketCap)),
      ("include_24hr_vol", OptBool(include24hrVol)),
      ("include_24hr_change", OptBool(include24hrChange)),
      ("include_last_updated_at", OptBool(includeLastUpdatedAt))]))
  }

  /** `get_coins_list` (coingecko/coingecko.py:146-151) */
  function CoinsList(includePlatform: Option<bool> := None): (c: Call)
    ensures c.path == "coins/list"
    ensures WellFormed(c) && c.params.Some? && |c.params.value| == 1
    ensures c.params.value[0].0 == "include_platform" && c.params.value[0].1.Str?
  {
    Call("coins/list", Some([("include_platform", Str(LowerStr(includePlatform)))]))
  }

  /** `get_coin_by_id` (coingecko/coingecko.py:179-200) */
  function CoinById(id: string,
                    localization: Option<bool> := Some(false),
                    tickers: Option<bool> := Some(false),
                    marketData: Option<bool> := None,
                    communityData: Option<bool> := None,
                    developerData: Option<bool> := None,
                    sparkline: Option<bool> := None): (c: Call)
    ensures WellFormed(c) && c.params.Some?
    ensures "coins/" <= c.path && c.path[6..] == id
  {
    Call("coins/" + id, Some([
      ("localization", OptBool(localization)),
      ("tickers", OptBool(tickers)),
      ("market_data", OptBool(marketData)),
      ("community_data", OptBool(communityData)),
      ("developer_data", OptBool(developerData)),
      ("sparkline", OptBool(sparkline))]))
  }

  /** `get_coin_market_chart_range` (coingecko/coingecko.py:255-270) */
  function CoinMarketChartRange(id: string, vsCurrency: string, fromParam: string, to: string): (c: Call)
    ensures c.path == "coins/" + id + "/market_chart/range"
    ensures WellFormed(c) && c.params.Some? && |c.params.value| == 3
    ensures forall i :: 0 <= i < |c.params.value| ==> c.params.value[i].1.Str?
  {
    Call("coins/" + id + "/market_chart/range", Some([
      ("vs_currency", Str(vsCurrency)),
      ("from", Str(fromParam)),
      ("to", Str(to))]))
  }

  /** `get_coin_status_updates` (coingecko/coingecko.py:272-285) */
  function CoinStatusUpdates(id: string, perPage: Option<int> := None, page: Option<int> := None): (c: Call)
    ensures c.path == "coins/" + id + "/market_chart/range"
    ensures WellFormed(c) && c.params.Some?
    ensures forall i :: 0 <= i < |c.params.value| ==> c.params.value[i].1.Absent? || c.params.value[i].1.Int?
  {
    Call("coins/" + id + "/market_chart/range", Some([
      ("per_page", OptInt(perPage)),
      ("page", OptInt(page))]))
  }

  /** `get_exchange` (coingecko/coingecko.py:360-362): a plain string, not an f-string. */
  function Exchange(id: string): (c: Call)
    ensures WellFormed(c) && c.params.None?
  {
    Call("exchanges/{id}", None)
  }

  // ---------------------------------------------------------------------
  // What the endpoints send once `_get` has cleaned their params.

  /** The coin ids of the example below, as `",".join` sends them. */
  lemma ExampleIdsJoined()
    ensures Text.Join(",", ["bitcoin", "ethereum"]) == "bitcoin,ethereum"
  {
    assert Text.Join(",", ["ethereum"]) == "ethereum";
  }

  /** The example call `get_simple_price(ids=["bitcoin","ethereum"], vs_currencies=["usd"])`
      sends exactly `ids` and `vs_currencies`, both comma-joined. */
  lemma SimplePriceExample()
    ensures SimplePrice(["bitcoin", "ethereum"], ["usd"]).path == "simple/price"
    ensures Clean(SimplePrice(["bitcoin", "ethereum"], ["usd"]).params)
         == Some([("ids", Str("bitcoin,ethereum")), ("vs_currencies", Str("usd"))])
  {
    var d := SimplePrice(["bitcoin", "ethereum"], ["usd"]).params.value;
    var kept := [("ids", List(["bitcoin", "ethereum"])), ("vs_currencies", List(["usd"]))];
    var unset := [("include_market_cap", Absent), ("include_24hr_vol", Absent),
                  ("include_24hr_change", Absent), ("include_last_updated_at", Absent)];
    assert d == kept + unset;
    RemoveEmptyAppend(kept, unset);
    RemoveEmptyAllAbsent(unset);
    assert kept[1..][1..] == [];
    assert RemoveEmpty(kept) == kept;
    ExampleIdsJoined();
    RenderAllPointwise(kept);
    assert RenderAll(kept) == [("ids", Str("bitcoin,ethereum")), ("vs_currencies", Str("usd"))];
  }

  /** An optional bool flag `k` is sent exactly when it was given, and
      then as "true" or "false" according to its value. */
  ghost predicate SendsFlag(sent: seq<Entry>, k: string, b: Option<bool>)
  {
    (k in Keys(sent) <==> b.Some?)
    && (b.Some? ==> Lookup(sent, k) == Some(Str(if b.value then "true" else "false")))
  }

  /** The flag at position `i` of a dict display goes out as `SendsFlag` says. */
  lemma FlagSent(d: seq<Entry>, i: nat, b: Option<bool>)
    requires DistinctKeys(d) && i < |d| && d[i].1 == OptBool(b)
    ensures Clean(Some(d)).Some? && SendsFlag(Clean(Some(d)).value, d[i].0, b)
  {
    CleanSendsAt(d, i);
  }

  /** `get_simple_price` sends `ids` and `vs_currencies` comma-joined,
      exactly those `include_*` flags that were given, each as "true" or
      "false", and nothing else. */
  lemma SimplePriceKeys(ids: seq<string>, vsCurrencies: seq<string>,
                        mc: Option<bool>, vol: Option<bool>, change: Option<bool>, updated: Option<bool>)
    ensures var sent := Clean(SimplePrice(ids, vsCurrencies, mc, vol, change, updated).params);
            sent.Some? &&
            var keys := Keys(sent.value);
            && keys <= {"ids", "vs_currencies", "include_market_cap", "include_24hr_vol",
                        "include_24hr_change", "include_last_updated_at"}
            && "ids" in keys && "vs_currencies" in keys
            && Lookup(sent.value, "ids") == Some(Str(Text.Join(",", ids)))
            && Lookup(sent.value, "vs_currencies") == Some(Str(Text.Join(",", vsCurrencies)))
            && SendsFlag(sent.value, "include_market_cap", mc)
            && SendsFlag(sent.value, "include_24hr_vol", vol)
            && SendsFlag(sent.value, "include_24hr_change", change)
            && SendsFlag(sent.value, "include_last_updated_at", updated)
  {
    var d := SimplePrice(ids, vsCurrencies, mc, vol, change, updated).params.value;
    CleanKeys(d);
    var keys := Keys(Clean(Some(d)).value);
    forall k | k in keys
      ensures k in {"ids", "vs_currencies", "include_market_cap", "include_24hr_vol",
                    "include_24hr_change", "include_last_updated_at"}
    {
      var i :| 0 <= i < |d| && d[i].0 == k && !d[i].1.Absent?;
    }
    CleanSendsAt(d, 0);
    CleanSendsAt(d, 1);
    FlagSent(d, 2, mc);
    FlagSent(d, 3, vol);
    FlagSent(d, 4, change);
    FlagSent(d, 5, updated);
  }

  /** `get_coins_list` always sends `include_platform`, as the lower-cased
      `str()` of its argument, so `None` goes out as "none". */
  lemma CoinsListSendsPlatform(includePlatform: Option<bool>)
    ensures var sent := Clean(CoinsList(includePlatform).params);
            sent.Some? && |sent.value| == 1 && sent.value[0].0 == "include_platform"
            && sent.value[0].1.Str?
            && (sent.value[0].1.s == "none" <==> includePlatform.None?)
            && (sent.value[0].1.s == "true" <==> includePlatform == Some(true))
            && (sent.value[0].1.s == "false" <==> includePlatform == Some(false))
  {
    var d := CoinsList(includePlatform).params.value;
    assert d[1..] == [];
    assert RemoveEmpty(d) == d;
    RenderAllPointwise(d);
  }

  /** The coin id is substituted into the path: different ids, different paths. */
  lemma CoinByIdPathsDiffer(a: string, b: string)
    requires a != b
    ensures CoinById(a).path != CoinById(b).path
  {
    assert CoinById(a).path[6..] == a;
    assert CoinById(b).path[6..] == b;
  }

  /** `get_coin_by_id` sends each of its six flags exactly when it was
      given, under its own name, as "true" or "false", and nothing else. */
  lemma CoinByIdSends(id: string, localization: Option<bool>, tickers: Option<bool>,
                      marketData: Option<bool>, communityData: Option<bool>,
                      developerData: Option<bool>, sparkline: Option<bool>)
    ensures var sent := Clean(CoinById(id, localization, tickers, marketData,
                                       communityData, developerData, sparkline).params);
            sent.Some?
            && Keys(sent.value) <= {"localization", "tickers", "market_data", "community_data",
                                    "developer_data", "sparkline"}
            && SendsFlag(sent.value, "localization", localization)
            && SendsFlag(sent.value, "tickers", tickers)
            && SendsFlag(sent.value, "market_data", marketData)
            && SendsFlag(sent.value, "community_data", communityData)
            && SendsFlag(sent.value, "developer_data", developerData)
            && SendsFlag(sent.value, "sparkline", sparkline)
  {
    var d := CoinById(id, localization, tickers, marketData,
                      communityData, developerData, sparkline).params.value;
    CleanKeys(d);
    forall k | k in Keys(Clean(Some(d)).value)
      ensures k in {"localization", "tickers", "market_data", "community_data",
                    "developer_data", "sparkline"}
    {
      var i :| 0 <= i < |d| && d[i].0 == k && !d[i].1.Absent?;
    }
    FlagSent(d, 0, localization);
    FlagSent(d, 1, tickers);
    FlagSent(d, 2, marketData);
    FlagSent(d, 3, communityData);
    FlagSent(d, 4, developerData);
    FlagSent(d, 5, sparkline);
  }

  /** With Python's defaults, `get_coin_by_id` sends exactly
      `localization=false` and `tickers=false`. */
  lemma CoinByIdDefaults(id: string)
    ensures Clean(CoinById(id).params) == Some([("localization", Str("false")), ("tickers", Str("false"))])
  {
    var d := CoinById(id).params.value;
    var kept := d[..2];
    assert d == kept + d[2..];
    RemoveEmptyAppend(kept, d[2..]);
    RemoveEmptyAllAbsent(d[2..]);
    assert kept[1..][1..] == [];
    assert RemoveEmpty(kept) == kept;
    RenderAllPointwise(kept);
    assert RenderAll(kept) == [("localization", Str("false")), ("tickers", Str("false"))];
  }

  /** `get_exchange` sends the literal path "exchanges/{id}" whatever the id. */
  lemma ExchangeIgnoresId(a: string, b: string)
    ensures Exchange(a) == Exchange(b)
    ensures Exchange(a).path == "exchanges/{id}"
  {
  }

  /** `get_coin_market_chart_range` sends its three string arguments
      unchanged, under `vs_currency`, `from` and `to`. */
  lemma CoinMarketChartRangeSends(id: string, vsCurrency: string, fromParam: string, to: string)
    ensures Clean(CoinMarketChartRange(id, vsCurrency, fromParam, to).params)
         == Some([("vs_currency", Str(vsCurrency)), ("from", Str(fromParam)), ("to", Str(to))])
  {
    var d := CoinMarketChartRange(id, vsCurrency, fromParam, to).params.value;
    RemoveEmptyIdentity(d);
    assert RemoveEmpty(d) == d;
    RenderAllKeys(d);
    assert RenderAll(d) == d;
  }

  /** `get_coin_status_updates` sends `per_page` and `page` exactly when
      they are given, as ints, and nothing else. */
  lemma StatusUpdatesSendsPages(id: string, perPage: Option<int>, page: Option<int>)
    ensures var sent := Clean(CoinStatusUpdates(id, perPage, page).params);
            sent.Some?
            && Keys(sent.value) <= {"per_page", "page"}
            && ("per_page" in Keys(sent.value) <==> perPage.Some?)
            && ("page" in Keys(sent.value) <==> page.Some?)
            && (perPage.Some? ==> Lookup(sent.value, "per_page") == Some(Int(perPage.value)))
            && (page.Some? ==> Lookup(sent.value, "page") == Some(Int(page.value)))
  {
    var d := CoinStatusUpdates(id, perPage, page).params.value;
    CleanKeys(d);
    CleanKeepsKey(d, 0);
    CleanKeepsKey(d, 1);
    CleanLookup(d, "per_page");
    CleanLookup(d, "page");
    forall k | k in Keys(Clean(Some(d)).value) ensures k in {"per_page", "page"} {
      var i :| 0 <= i < |d| && d[i].0 == k && !d[i].1.Absent?;
    }
  }

  /** `get_coin_status_updates` requests the same path as
      `get_coin_market_chart_range` for the same coin. */
  lemma StatusUpdatesReuseRangePath(id: string, perPage: Option<int>, page: Option<int>,
                                    vsCurrency: string, fromParam: string, to: string)
    ensures CoinStatusUpdates(id, perPage, page).path == CoinMarketChartRange(id, vsCurrency, fromParam, to).path
  {
  }
}

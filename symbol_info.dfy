/**
 * `get_all_symbol_info`: the exchange's tagged filter lists, one per market, translated
 * into one trading-rule record per base asset. Filter values arrive already as numbers.
 */
module SymbolInfo {
  import opened Results

  const PRICE_FILTER: string := "PRICE_FILTER"
  const LOT_SIZE: string := "LOT_SIZE"
  const MIN_NOTIONAL: string := "MIN_NOTIONAL"

  /** One filter of a market as the exchange sends it: a type tag and named values. */
  datatype RawFilter = RawFilter(filterType: string, params: map<string, real>)

  /** The part of a market's description that is read: its base asset and its filters. */
  datatype RawSymbolInfo = RawSymbolInfo(baseAsset: string, filters: seq<RawFilter>)

  datatype PriceFilter = PriceFilter(tickSize: real, minPrice: real, maxPrice: real)

  datatype LotSize = LotSize(stepSize: real, minQty: real, maxQty: real)

  /** The per-asset record: each group of fields is present once its filter was seen. */
  datatype TradingRule = TradingRule(priceFilter: Option<PriceFilter>, lotSize: Option<LotSize>, minNotional: Option<real>)

  const NO_FILTERS: TradingRule := TradingRule(None, None, None)

  /** A recognised filter lacks one of the values it is read for. */
  datatype FilterError = MissingKey(filterType: string, key: string)

  /** The filter carries every value its type is read for (any other type needs none). */
  predicate Complete(f: RawFilter)
  {
    if f.filterType == PRICE_FILTER then "tickSize" in f.params && "minPrice" in f.params && "maxPrice" in f.params
    else if f.filterType == LOT_SIZE then "stepSize" in f.params && "minQty" in f.params && "maxQty" in f.params
    else if f.filterType == MIN_NOTIONAL then "minNotional" in f.params
    else true
  }

  function PriceFilterOf(f: RawFilter): PriceFilter
    requires f.filterType == PRICE_FILTER && Complete(f)
  {
    PriceFilter(f.params["tickSize"], f.params["minPrice"], f.params["maxPrice"])
  }

  function LotSizeOf(f: RawFilter): LotSize
    requires f.filterType == LOT_SIZE && Complete(f)
  {
    LotSize(f.params["stepSize"], f.params["minQty"], f.params["maxQty"])
  }

  function MinNotionalOf(f: RawFilter): real
    requires f.filterType == MIN_NOTIONAL && Complete(f)
  {
    f.params["minNotional"]
  }

  function Param(f: RawFilter, key: string): (r: Result<real, FilterError>)
  {
    if key in f.params then Ok(f.params[key]) else Err(MissingKey(f.filterType, key))
  }

  /** One step of the inner loop: the record after reading filter `f`. */
  function ApplyFilter(rule: TradingRule, f: RawFilter): (r: Result<TradingRule, FilterError>)
    ensures r.Ok? <==> Complete(f)
    ensures r.Err? ==> r.error.filterType == f.filterType && r.error.key !in f.params
    ensures r.Ok? && f.filterType == PRICE_FILTER ==> r.value == rule.(priceFilter := Some(PriceFilterOf(f)))
    ensures r.Ok? && f.filterType == LOT_SIZE ==> r.value == rule.(lotSize := Some(LotSizeOf(f)))
    ensures r.Ok? && f.filterType == MIN_NOTIONAL ==> r.value == rule.(minNotional := Some(MinNotionalOf(f)))
    ensures f.filterType != PRICE_FILTER && f.filterType != LOT_SIZE && f.filterType != MIN_NOTIONAL ==> r == Ok(rule)
  {
    if f.filterType == PRICE_FILTER then
      var tickSize :- Param(f, "tickSize");
      var minPrice :- Param(f, "minPrice");
      var maxPrice :- Param(f, "maxPrice");
      Ok(rule.(priceFilter := Some(PriceFilter(tickSize, minPrice, maxPrice))))
    else if f.filterType == LOT_SIZE then
      var stepSize :- Param(f, "stepSize");
      var minQty :- Param(f, "minQty");
      var maxQty :- Param(f, "maxQty");
      Ok(rule.(lotSize := Some(LotSize(stepSize, minQty, maxQty))))
    else if f.filterType == MIN_NOTIONAL then
      var minNotional :- Param(f, "minNotional");
      Ok(rule.(minNotional := Some(minNotional)))
    else
      Ok(rule)
  }

  /** The record the inner loop builds from a filter list, read in order. */
  function BuildRule(filters: seq<RawFilter>): (r: Result<TradingRule, FilterError>)
    ensures r.Ok? ==> (r.value.priceFilter.Some? <==> exists i :: 0 <= i < |filters| && filters[i].filterType == PRICE_FILTER)
    ensures r.Ok? ==> (r.value.lotSize.Some? <==> exists i :: 0 <= i < |filters| && filters[i].filterType == LOT_SIZE)
    ensures r.Ok? ==> (r.value.minNotional.Some? <==> exists i :: 0 <= i < |filters| && filters[i].filterType == MIN_NOTIONAL)
  {
    if filters == [] then Ok(NO_FILTERS)
    else
      var init := filters[..|filters| - 1];
      assert forall i :: 0 <= i < |init| ==> init[i] == filters[i];
      var d :- BuildRule(init);
      ApplyFilter(d, filters[|filters| - 1])
  }

  /** The position of the last filter of type `tag`, or -1 when there is none. */
  function LastIndex(filters: seq<RawFilter>, tag: string): (i: int)
    ensures -1 <= i < |filters|
    ensures 0 <= i ==> filters[i].filterType == tag && forall j :: i < j < |filters| ==> filters[j].filterType != tag
    ensures i < 0 ==> forall j :: 0 <= j < |filters| ==> filters[j].filterType != tag
  {
    if filters == [] then -1
    else if filters[|filters| - 1].filterType == tag then |filters| - 1
    else LastIndex(filters[..|filters| - 1], tag)
  }

  /** The record is built exactly when every filter is complete; otherwise the error names
      the first incomplete filter. */
  lemma {:induction false} BuildRuleOkIffComplete(filters: seq<RawFilter>)
    ensures BuildRule(filters).Ok? <==> forall i :: 0 <= i < |filters| ==> Complete(filters[i])
    ensures BuildRule(filters).Err? ==>
      (exists i :: 0 <= i < |filters| && !Complete(filters[i])
        && BuildRule(filters).error.filterType == filters[i].filterType
        && (forall j :: 0 <= j < i ==> Complete(filters[j])))
  {
    if filters != [] {
      var init := filters[..|filters| - 1];
      BuildRuleOkIffComplete(init);
      assert forall i :: 0 <= i < |init| ==> init[i] == filters[i];
    }
  }

  /** Each group of fields comes from the last filter of its type, and is absent when the
      list has no filter of that type; filters of any other type change nothing. */
  lemma {:induction false} BuildRuleTakesLastOfEachType(filters: seq<RawFilter>)
    requires forall i :: 0 <= i < |filters| ==> Complete(filters[i])
    ensures BuildRule(filters).Ok?
    ensures var rule, p, l, n := BuildRule(filters).value, LastIndex(filters, PRICE_FILTER),
                                LastIndex(filters, LOT_SIZE), LastIndex(filters, MIN_NOTIONAL);
      && rule.priceFilter == (if p < 0 then None else Some(PriceFilterOf(filters[p])))
      && rule.lotSize == (if l < 0 then None else Some(LotSizeOf(filters[l])))
      && rule.minNotional == (if n < 0 then None else Some(MinNotionalOf(filters[n])))
  {
    if filters != [] {
      var init := filters[..|filters| - 1];
      assert forall i :: 0 <= i < |init| ==> init[i] == filters[i];
      BuildRuleTakesLastOfEachType(init);
    }
  }

  /** An error in the first `k` filters is the error of the whole list. */
  lemma {:induction false} BuildRuleErrorIsFinal(filters: seq<RawFilter>, k: nat)
    requires k <= |filters| && BuildRule(filters[..k]).Err?
    ensures BuildRule(filters) == BuildRule(filters[..k])
    decreases |filters| - k
  {
    if k < |filters| {
      var init := filters[..|filters| - 1];
      assert init[..k] == filters[..k];
      BuildRuleErrorIsFinal(init, k);
    } else {
      assert filters[..k] == filters;
    }
  }

  /** The dictionary `get_all_symbol_info` returns, keyed by base asset. */
  function SymbolInfoTable(infos: seq<RawSymbolInfo>): (r: Result<map<string, TradingRule>, FilterError>)
    ensures r.Ok? ==> forall b :: b in r.value ==>
      exists i :: 0 <= i < |infos| && infos[i].baseAsset == b && BuildRule(infos[i].filters) == Ok(r.value[b])
  {
    if infos == [] then Ok(map[])
    else
      var init := infos[..|infos| - 1];
      assert forall i :: 0 <= i < |init| ==> init[i] == infos[i];
      var result :- SymbolInfoTable(init);
      var info := infos[|infos| - 1];
      var d :- BuildRule(info.filters);
      Ok(result[info.baseAsset := d])
  }

  /** The table is built exactly when the filters of every market are; otherwise its error
      is that of the first market whose filters fail. */
  lemma {:induction false} SymbolInfoTableOkIffRulesOk(infos: seq<RawSymbolInfo>)
    ensures SymbolInfoTable(infos).Ok? <==> forall i :: 0 <= i < |infos| ==> BuildRule(infos[i].filters).Ok?
    ensures SymbolInfoTable(infos).Err? ==>
      (exists i :: 0 <= i < |infos| && BuildRule(infos[i].filters) == Err(SymbolInfoTable(infos).error)
        && forall j :: 0 <= j < i ==> BuildRule(infos[j].filters).Ok?)
  {
    if infos != [] {
      var init := infos[..|infos| - 1];
      assert forall i :: 0 <= i < |init| ==> init[i] == infos[i];
      SymbolInfoTableOkIffRulesOk(init);
    }
  }

  function BaseAssets(infos: seq<RawSymbolInfo>): set<string>
  {
    set i | 0 <= i < |infos| :: infos[i].baseAsset
  }

  /** A built table has exactly the base assets of the markets as keys. */
  lemma {:induction false} SymbolInfoTableKeys(infos: seq<RawSymbolInfo>)
    requires SymbolInfoTable(infos).Ok?
    ensures SymbolInfoTable(infos).value.Keys == BaseAssets(infos)
  {
    if infos != [] {
      var n := |infos| - 1;
      var init := infos[..n];
      var last := infos[n];
      SymbolInfoTableKeys(init);
      assert SymbolInfoTable(infos).value.Keys == SymbolInfoTable(init).value.Keys + {last.baseAsset};
      forall b | b in BaseAssets(infos) ensures b in BaseAssets(init) + {last.baseAsset} {
        var i :| 0 <= i < |infos| && infos[i].baseAsset == b;
        if i < n { assert init[i].baseAsset == b; }
      }
      forall b | b in BaseAssets(init) ensures b in BaseAssets(infos) {
        var i :| 0 <= i < |init| && init[i].baseAsset == b;
        assert infos[i].baseAsset == b;
      }
    }
  }

  /** In a built table, a base asset maps to the record of the last market with that base asset. */
  lemma {:induction false} SymbolInfoTableLastMarketWins(infos: seq<RawSymbolInfo>, i: nat)
    requires SymbolInfoTable(infos).Ok? && i < |infos|
    requires forall j :: i < j < |infos| ==> infos[j].baseAsset != infos[i].baseAsset
    ensures BuildRule(infos[i].filters).Ok?
    ensures infos[i].baseAsset in SymbolInfoTable(infos).value
    ensures SymbolInfoTable(infos).value[infos[i].baseAsset] == BuildRule(infos[i].filters).value
  {
    var n := |infos| - 1;
    var init := infos[..n];
    if i < n {
      assert init[i] == infos[i];
      assert forall j :: i < j < |init| ==> init[j] == infos[j];
      SymbolInfoTableLastMarketWins(init, i);
    }
  }

  /** An error in the first `k` markets is the error of the whole table. */
  lemma {:induction false} SymbolInfoTableErrorIsFinal(infos: seq<RawSymbolInfo>, k: nat)
    requires k <= |infos| && SymbolInfoTable(infos[..k]).Err?
    ensures SymbolInfoTable(infos) == SymbolInfoTable(infos[..k])
    decreases |infos| - k
  {
    if k < |infos| {
      var init := infos[..|infos| - 1];
      assert init[..k] == infos[..k];
      SymbolInfoTableErrorIsFinal(init, k);
    } else {
      assert infos[..k] == infos;
    }
  }

  /** `get_all_symbol_info`, on the market descriptions the exchange returned. */
  method GetAllSymbolInfo(infos: seq<RawSymbolInfo>) returns (r: Result<map<string, TradingRule>, FilterError>)
    ensures r == SymbolInfoTable(infos)
  {
    var result: map<string, TradingRule> := map[];
    var i := 0;
    while i < |infos|
      invariant 0 <= i <= |infos|
      invariant SymbolInfoTable(infos[..i]) == Ok(result)
    {
      var info := infos[i];
      var d := NO_FILTERS;
      var j := 0;
      while j < |info.filters|
        invariant 0 <= j <= |info.filters|
        invariant BuildRule(info.filters[..j]) == Ok(d)
      {
        assert info.filters[..j + 1][..j] == info.filters[..j];
        var next := ApplyFilter(d, info.filters[j]);
        if next.Err? {
          BuildRuleErrorIsFinal(info.filters, j + 1);
          assert infos[..i + 1][..i] == infos[..i];
          SymbolInfoTableErrorIsFinal(infos, i + 1);
          return Err(next.error);
        }
        d := next.value;
        j := j + 1;
      }
      assert info.filters[..j] == info.filters;
      assert infos[..i + 1][..i] == infos[..i];
      result := result[info.baseAsset := d];
      i := i + 1;
    }
    assert infos[..i] == infos;
    r := Ok(result);
  }
}

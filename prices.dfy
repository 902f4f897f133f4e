/**
 * `get_avg_price`, `get_predicted_price` and `get_predicted_prices`: dollar prices per
 * asset. The order book and the price forecaster are remote and enter as inputs; the cash
 * asset is priced at 1 without consulting either.
 */
module Prices {
  import opened Results
  import opened Constants

  function Sum(xs: seq<real>): real
  {
    if xs == [] then 0.0 else Sum(xs[..|xs| - 1]) + xs[|xs| - 1]
  }

  /** The arithmetic mean; `None` for an empty list, where numpy's mean gives NaN. */
  function Mean(xs: seq<real>): (m: Option<real>)
    ensures m.Some? <==> xs != []
    ensures m.Some? ==> m.value * (|xs| as real) == Sum(xs)
  {
    if xs == [] then None else Some(Sum(xs) / |xs| as real)
  }

  /** `get_avg_price`: the asset with its mean bid price, `bids` being the best bid
      prices of the order book of the asset's dollar market. */
  function AvgPrice(assetSymbol: string, bids: seq<real>): (r: (string, Option<real>))
    ensures r.0 == assetSymbol
    ensures assetSymbol == USD_SYMBOL ==> r.1 == Some(1.0)
    ensures assetSymbol != USD_SYMBOL ==> (r.1.Some? <==> bids != [])
    ensures assetSymbol != USD_SYMBOL && bids != [] ==> r.1.value * (|bids| as real) == Sum(bids)
  {
    if assetSymbol == USD_SYMBOL then (assetSymbol, Some(1.0)) else (assetSymbol, Mean(bids))
  }

  /** A sum of values all within [lo, hi] is within [n * lo, n * hi]. */
  lemma {:induction false} SumWithin(xs: seq<real>, lo: real, hi: real)
    requires forall i :: 0 <= i < |xs| ==> lo <= xs[i] <= hi
    ensures |xs| as real * lo <= Sum(xs) <= |xs| as real * hi
  {
    if xs != [] {
      SumWithin(xs[..|xs| - 1], lo, hi);
      assert (|xs| - 1) as real * lo + lo == |xs| as real * lo;
      assert (|xs| - 1) as real * hi + hi == |xs| as real * hi;
    }
  }

  function MinIndex(xs: seq<real>): (m: nat)
    requires xs != []
    ensures m < |xs| && forall i :: 0 <= i < |xs| ==> xs[m] <= xs[i]
  {
    if |xs| == 1 then 0
    else
      var m := MinIndex(xs[1..]) + 1;
      if xs[0] <= xs[m] then 0 else m
  }

  function MaxIndex(xs: seq<real>): (m: nat)
    requires xs != []
    ensures m < |xs| && forall i :: 0 <= i < |xs| ==> xs[i] <= xs[m]
  {
    if |xs| == 1 then 0
    else
      var m := MaxIndex(xs[1..]) + 1;
      if xs[m] <= xs[0] then 0 else m
  }

  lemma QuotientWithin(sum: real, n: real, lo: real, hi: real)
    requires 0.0 < n && n * lo <= sum <= n * hi
    ensures lo <= sum / n <= hi
  {
    var q := sum / n;
    assert q * n == sum;
  }

  /** The average price of a market asset lies between its lowest and its highest bid. */
  lemma AvgPriceWithinBids(assetSymbol: string, bids: seq<real>)
    requires assetSymbol != USD_SYMBOL && bids != []
    ensures AvgPrice(assetSymbol, bids).1.Some?
    ensures bids[MinIndex(bids)] <= AvgPrice(assetSymbol, bids).1.value <= bids[MaxIndex(bids)]
  {
    var lo, hi := bids[MinIndex(bids)], bids[MaxIndex(bids)];
    SumWithin(bids, lo, hi);
    QuotientWithin(Sum(bids), |bids| as real, lo, hi);
  }

  /** `get_predicted_price`: the asset with the forecaster's price for its dollar market. */
  function PredictedPrice(assetSymbol: string, forecast: string -> real): (r: (string, real))
    ensures r.0 == assetSymbol
    ensures assetSymbol == USD_SYMBOL ==> r.1 == 1.0
    ensures assetSymbol != USD_SYMBOL ==> r.1 == forecast(assetSymbol + USD_SYMBOL)
  {
    if assetSymbol == USD_SYMBOL then (assetSymbol, 1.0)
    else (assetSymbol, forecast(assetSymbol + USD_SYMBOL))
  }

  /** The dictionary built from the predicted prices of `symbols`. */
  function PriceTable(symbols: seq<string>, forecast: string -> real): (table: map<string, real>)
    ensures table.Keys == set s | s in symbols
    ensures forall s :: s in symbols ==> table[s] == PredictedPrice(s, forecast).1
  {
    if symbols == [] then map[]
    else
      var p := PredictedPrice(symbols[|symbols| - 1], forecast);
      var table := PriceTable(symbols[..|symbols| - 1], forecast)[p.0 := p.1];
      assert forall s :: s in symbols ==> s in symbols[..|symbols| - 1] || s == symbols[|symbols| - 1];
      table
  }

  /** `get_predicted_prices`: a price for every allocation symbol and for the cash asset. */
  function PredictedPrices(symbols: seq<string>, forecast: string -> real): (prices: map<string, real>)
    ensures prices.Keys == (set s | s in symbols) + {USD_SYMBOL}
    ensures prices[USD_SYMBOL] == 1.0
    ensures forall s :: s in symbols && s != USD_SYMBOL ==> prices[s] == forecast(s + USD_SYMBOL)
  {
    var all := symbols + [USD_SYMBOL];
    assert forall s :: s in all <==> s in symbols || s == USD_SYMBOL;
    PriceTable(all, forecast)
  }
}

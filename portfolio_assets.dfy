/**
 * `get_portfolio_assets`: one portfolio asset per kept balance, valued in cents at the
 * price of its symbol.
 */
module PortfolioAssets {
  import opened Results
  import opened Constants
  import opened Balances
  import opened Prices

  /** The fields `get_portfolio_assets` sets on each asset; `initialBalance` is in cents. */
  datatype Asset = Asset(accountId: string, symbol: string, quantity: real, initialBalance: real)

  /** The price dictionary has no entry for a balance's asset. */
  datatype AssetError = MissingPrice(symbol: string)

  function AssetOf(b: Balance, prices: map<string, real>): Asset
    requires b.asset in prices
  {
    Asset(ACCOUNT_ID, b.asset, b.total, prices[b.asset] * b.total * 100.0)
  }

  /** The assets built from `balances`, or the first balance whose asset has no price. */
  function AssetsFor(balances: seq<Balance>, prices: map<string, real>): (r: Result<seq<Asset>, AssetError>)
    ensures r.Ok? <==> forall i :: 0 <= i < |balances| ==> balances[i].asset in prices
    ensures r.Ok? ==> |r.value| == |balances| && forall i :: 0 <= i < |balances| ==>
      && r.value[i].accountId == ACCOUNT_ID
      && r.value[i].symbol == balances[i].asset
      && r.value[i].quantity == balances[i].total
      && r.value[i].initialBalance == prices[balances[i].asset] * balances[i].total * 100.0
    ensures r.Err? ==>
      (exists i :: 0 <= i < |balances| && r.error == MissingPrice(balances[i].asset)
        && balances[i].asset !in prices && forall j :: 0 <= j < i ==> balances[j].asset in prices)
  {
    if balances == [] then Ok([])
    else
      var n := |balances| - 1;
      var init, last := balances[..n], balances[n];
      assert forall i :: 0 <= i < n ==> init[i] == balances[i];
      var assets :- AssetsFor(init, prices);
      if last.asset !in prices then Err(MissingPrice(last.asset))
      else Ok(assets + [AssetOf(last, prices)])
  }

  /** `get_portfolio_assets`, on the kept balances and a price dictionary. */
  method GetPortfolioAssets(balances: seq<Balance>, prices: map<string, real>) returns (r: Result<seq<Asset>, AssetError>)
    ensures r == AssetsFor(balances, prices)
  {
    var assets: seq<Asset> := [];
    var i := 0;
    while i < |balances|
      invariant 0 <= i <= |balances|
      invariant AssetsFor(balances[..i], prices) == Ok(assets)
    {
      var balance := balances[i];
      ghost var prefix := balances[..i + 1];
      assert |prefix| - 1 == i && prefix[..i] == balances[..i] && prefix[i] == balance;
      if balance.asset !in prices {
        AssetsForErrorIsFinal(balances, i + 1, prices);
        return Err(MissingPrice(balance.asset));
      }
      assets := assets + [AssetOf(balance, prices)];
      AssetsForStep(prefix, prices);
      assert prefix[|prefix| - 1] == balance;
      assert AssetsFor(prefix, prices).value == assets;
      assert AssetsFor(prefix, prices) == Ok(assets);
      i := i + 1;
    }
    assert balances[..i] == balances;
    r := Ok(assets);
  }

  /** One more balance with a price adds one asset at the end. */
  lemma AssetsForStep(balances: seq<Balance>, prices: map<string, real>)
    requires balances != [] && AssetsFor(balances[..|balances| - 1], prices).Ok?
    requires balances[|balances| - 1].asset in prices
    ensures AssetsFor(balances, prices).Ok?
    ensures AssetsFor(balances, prices).value
      == AssetsFor(balances[..|balances| - 1], prices).value + [AssetOf(balances[|balances| - 1], prices)]
  {
  }

  /** An error among the first `k` balances is the error of the whole list. */
  lemma {:induction false} AssetsForErrorIsFinal(balances: seq<Balance>, k: nat, prices: map<string, real>)
    requires k <= |balances| && AssetsFor(balances[..k], prices).Err?
    ensures AssetsFor(balances, prices) == AssetsFor(balances[..k], prices)
    decreases |balances| - k
  {
    if k < |balances| {
      var init := balances[..|balances| - 1];
      assert init[..k] == balances[..k];
      AssetsForErrorIsFinal(init, k, prices);
    } else {
      assert balances[..k] == balances;
    }
  }

  /** With the predicted-price dictionary, assets are built for balances of allocation symbols
      and cash; cash is valued at face value (total * 100 cents), every other asset at its
      forecast price for its dollar market. */
  lemma CashValuedAtFaceValue(balances: seq<Balance>, symbols: seq<string>, forecast: string -> real)
    requires forall i :: 0 <= i < |balances| ==> balances[i].asset in symbols || balances[i].asset == USD_SYMBOL
    ensures AssetsFor(balances, PredictedPrices(symbols, forecast)).Ok?
    ensures var assets := AssetsFor(balances, PredictedPrices(symbols, forecast)).value;
      forall i :: 0 <= i < |balances| ==>
        assets[i].initialBalance == (if balances[i].asset == USD_SYMBOL then balances[i].total * 100.0
                                     else forecast(balances[i].asset + USD_SYMBOL) * balances[i].total * 100.0)
  {
  }
}

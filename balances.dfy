/**
 * `get_cash_investment_amount` and `get_account_balances`: the account's balances as
 * share totals, where the cash balance is replaced by the amount of cash to invest.
 */
module Balances {
  import opened Constants

  /** One entry of the exchange's account balance list. */
  datatype RawBalance = RawBalance(asset: string, free: real, locked: real)

  /** A balance entry after `get_account_balances` has added its total. */
  datatype Balance = Balance(asset: string, free: real, locked: real, total: real)

  /** Dollars always left in the account. */
  const CASH_RESERVE: real := 10.0

  /** The cash to use for buy orders: the chosen investment amount, but never more than
      the available dollars minus the reserve. */
  function CashInvestmentAmount(usdBalance: real, investmentAmount: real): (r: real)
    ensures r <= investmentAmount && r <= usdBalance - CASH_RESERVE
    ensures r == investmentAmount || r == usdBalance - CASH_RESERVE
  {
    if usdBalance - CASH_RESERVE < investmentAmount then usdBalance - CASH_RESERVE else investmentAmount
  }

  function Total(b: RawBalance, investmentAmount: real): real
  {
    var shares := b.free + b.locked;
    if b.asset == USD_SYMBOL then CashInvestmentAmount(shares, investmentAmount) else shares
  }

  function WithTotal(b: RawBalance, investmentAmount: real): Balance
  {
    Balance(b.asset, b.free, b.locked, Total(b, investmentAmount))
  }

  /** What `get_account_balances` returns for the balance list `raw`. */
  function KeptBalances(raw: seq<RawBalance>, investmentAmount: real): (kept: seq<Balance>)
    ensures |kept| <= |raw|
    ensures forall k :: 0 <= k < |kept| ==> kept[k].total > 0.0
  {
    if raw == [] then []
    else
      var last := raw[|raw| - 1];
      KeptBalances(raw[..|raw| - 1], investmentAmount)
        + (if Total(last, investmentAmount) > 0.0 then [WithTotal(last, investmentAmount)] else [])
  }

  /** The positions in `raw` of the entries KeptBalances keeps. */
  ghost function KeptIndices(raw: seq<RawBalance>, investmentAmount: real): seq<int>
  {
    if raw == [] then []
    else
      KeptIndices(raw[..|raw| - 1], investmentAmount)
        + (if Total(raw[|raw| - 1], investmentAmount) > 0.0 then [|raw| - 1] else [])
  }

  /** The kept entries are exactly the entries with a positive total, in input order, each
      with its total: free plus locked shares, or for the cash asset the capped cash amount. */
  lemma {:induction false} KeptBalancesArePositiveEntries(raw: seq<RawBalance>, investmentAmount: real)
    ensures var kept, idx := KeptBalances(raw, investmentAmount), KeptIndices(raw, investmentAmount);
      && |idx| == |kept|
      && (forall k :: 0 <= k < |idx| ==> 0 <= idx[k] < |raw| && kept[k] == WithTotal(raw[idx[k]], investmentAmount))
      && (forall k, l :: 0 <= k < l < |idx| ==> idx[k] < idx[l])
      && (forall i :: 0 <= i < |raw| ==> (i in idx <==> Total(raw[i], investmentAmount) > 0.0))
  {
    if raw != [] {
      var init := raw[..|raw| - 1];
      KeptBalancesArePositiveEntries(init, investmentAmount);
      var idx0 := KeptIndices(init, investmentAmount);
      assert forall k :: 0 <= k < |idx0| ==> init[idx0[k]] == raw[idx0[k]];
      assert forall i :: 0 <= i < |init| ==> init[i] == raw[i];
    }
  }

  /** `get_account_balances`, on the list the exchange returned. */
  method GetAccountBalances(raw: seq<RawBalance>, investmentAmount: real) returns (kept: seq<Balance>)
    ensures kept == KeptBalances(raw, investmentAmount)
  {
    kept := [];
    var i := 0;
    while i < |raw|
      invariant 0 <= i <= |raw|
      invariant kept == KeptBalances(raw[..i], investmentAmount)
    {
      var balance := raw[i];
      var total := balance.free + balance.locked;
      if balance.asset == USD_SYMBOL {
        total := CashInvestmentAmount(total, investmentAmount);
      }
      if total > 0.0 {
        kept := kept + [Balance(balance.asset, balance.free, balance.locked, total)];
      }
      assert raw[..i + 1][..i] == raw[..i];
      i := i + 1;
    }
    assert raw[..|raw|] == raw;
  }
}

/**
 * The declared target allocation `ALLOCATION` of the trading script: three categories
 * of crypto assets with their target weights. The allocation library that builds and
 * checks it is not part of this model; what is proved here is about the constant.
 */
module Allocation {

  datatype Holding = Holding(symbol: string, weight: real)

  datatype Category = Category(name: string, holdings: seq<Holding>)

  const ALLOCATION: seq<Category> := [
    Category("Large Cap", [Holding("ETH", 0.23), Holding("BTC", 0.18), Holding("ADA", 0.14), Holding("SOL", 0.05)]),
    Category("Mid Cap", [Holding("LINK", 0.13), Holding("MATIC", 0.13), Holding("UNI", 0.09), Holding("DOT", 0.05)]),
    Category("Other", [Holding("BNB", 0.0)])
  ]

  /** The symbols of a list of holdings, in order. */
  function HoldingSymbols(hs: seq<Holding>): (r: seq<string>)
    ensures |r| == |hs|
    ensures forall i :: 0 <= i < |hs| ==> r[i] == hs[i].symbol
  {
    if hs == [] then [] else [hs[0].symbol] + HoldingSymbols(hs[1..])
  }

  /** The symbols of all categories, category by category (the order `SYMBOLS` is taken in). */
  function Symbols(cats: seq<Category>): seq<string>
  {
    if cats == [] then [] else HoldingSymbols(cats[0].holdings) + Symbols(cats[1..])
  }

  /** The symbol list names every holding of every category, and nothing else. */
  lemma {:induction false} SymbolsListsEveryHolding(cats: seq<Category>)
    ensures forall c, h :: 0 <= c < |cats| && 0 <= h < |cats[c].holdings| ==> cats[c].holdings[h].symbol in Symbols(cats)
    ensures forall s :: s in Symbols(cats) ==>
      exists c, h :: 0 <= c < |cats| && 0 <= h < |cats[c].holdings| && cats[c].holdings[h].symbol == s
  {
    if cats != [] {
      SymbolsListsEveryHolding(cats[1..]);
      assert forall c :: 1 <= c < |cats| ==> cats[1..][c - 1] == cats[c];
      forall s | s in Symbols(cats)
        ensures exists c, h :: 0 <= c < |cats| && 0 <= h < |cats[c].holdings| && cats[c].holdings[h].symbol == s
      {
        if s in HoldingSymbols(cats[0].holdings) {
          var h :| 0 <= h < |cats[0].holdings| && HoldingSymbols(cats[0].holdings)[h] == s;
          assert cats[0].holdings[h].symbol == s;
        } else {
          assert s in Symbols(cats[1..]);
          var c, h :| 0 <= c < |cats[1..]| && 0 <= h < |cats[1..][c].holdings| && cats[1..][c].holdings[h].symbol == s;
          assert cats[c + 1].holdings[h].symbol == s;
        }
      }
    }
  }

  function HoldingsWeight(hs: seq<Holding>): real
  {
    if hs == [] then 0.0 else hs[0].weight + HoldingsWeight(hs[1..])
  }

  /** The sum of all weights across all categories. */
  function TotalWeight(cats: seq<Category>): real
  {
    if cats == [] then 0.0 else HoldingsWeight(cats[0].holdings) + TotalWeight(cats[1..])
  }

  predicate Distinct(s: seq<string>)
  {
    forall i, j :: 0 <= i < j < |s| ==> s[i] != s[j]
  }

  /** The symbols of the declared allocation, category by category. */
  lemma AllocationSymbols()
    ensures Symbols(ALLOCATION) == ["ETH", "BTC", "ADA", "SOL", "LINK", "MATIC", "UNI", "DOT", "BNB"]
  {
    assert HoldingSymbols(ALLOCATION[0].holdings) == ["ETH", "BTC", "ADA", "SOL"];
    assert HoldingSymbols(ALLOCATION[1].holdings) == ["LINK", "MATIC", "UNI", "DOT"];
    assert HoldingSymbols(ALLOCATION[2].holdings) == ["BNB"];
    assert Symbols(ALLOCATION[3..]) == [];
  }

  /** No asset of the declared allocation appears twice. */
  lemma AllocationSymbolsDistinct()
    ensures Distinct(Symbols(ALLOCATION))
  {
    AllocationSymbols();
  }

  /** The weights of the declared allocation are non-negative and add up to exactly 1. */
  lemma AllocationWeights()
    ensures forall c, h :: 0 <= c < |ALLOCATION| && 0 <= h < |ALLOCATION[c].holdings| ==> 0.0 <= ALLOCATION[c].holdings[h].weight
    ensures TotalWeight(ALLOCATION) == 1.0
  {
    assert HoldingsWeight(ALLOCATION[0].holdings) == 0.60;
    assert HoldingsWeight(ALLOCATION[1].holdings) == 0.40;
    assert HoldingsWeight(ALLOCATION[2].holdings) == 0.0;
    assert TotalWeight(ALLOCATION[3..]) == 0.0;
  }
}

/** The part of the FarmI production configuration that CropYieldI changes:
    the production quantity of each producible product, in product order. */
module FarmConfig {

  /** The CropYieldI effect: every product's quantity goes up by one and the
      list of products stays the same length. */
  function RaiseProduction(quantities: seq<int>): (r: seq<int>)
    ensures |r| == |quantities|
    ensures forall i :: 0 <= i < |quantities| ==> r[i] == quantities[i] + 1
  {
    if quantities == [] then []
    else [quantities[0] + 1] + RaiseProduction(quantities[1..])
  }

  /** Total quantity over all products. */
  function Total(quantities: seq<int>): int
  {
    if quantities == [] then 0 else quantities[0] + Total(quantities[1..])
  }

  /** Raising production adds exactly one unit per product to the total. */
  lemma {:induction false} RaiseProductionTotal(quantities: seq<int>)
    ensures Total(RaiseProduction(quantities)) == Total(quantities) + |quantities|
    decreases |quantities|
  {
    if quantities != [] {
      var r := RaiseProduction(quantities);
      assert r[1..] == RaiseProduction(quantities[1..]);
      RaiseProductionTotal(quantities[1..]);
    }
  }

  /** The outputs listed in CropYieldI's specifications (Opium 2 to 3,
      Vegetables 14 to 15, Coffee 6 to 7) are exactly what the effect gives. */
  lemma SpecifiedOutputs()
    ensures RaiseProduction([2, 14, 6]) == [3, 15, 7]
  {
  }
}

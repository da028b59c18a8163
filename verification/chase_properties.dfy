/**
 Properties of the chase script, stated over the functional model `Simulate`
 (which the imperative `ChaseLoop.SimulateChase` computes exactly).
 */
module ChaseProperties {
  import opened Wrappers
  import opened Chase

  /** The loop runs max(0, fair value - start) times; it leaves the algo buy at
      the fair value exactly when it started at or below it, and untouched
      otherwise. */
  lemma LoopCount(p: Params)
    ensures |Simulate(p).steps| == (if p.algoBuyStart < p.fairValue then p.fairValue - p.algoBuyStart else 0) + 1
    ensures Simulate(p).algoBuy == p.fairValue <==> p.algoBuyStart <= p.fairValue
    ensures p.algoBuyStart > p.fairValue ==> Simulate(p).algoBuy == p.algoBuyStart
  {
  }

  /** Each raise keeps the two quotes summing to 100, so after at least one
      raise the final algo sell is 100 - fair value; with no raise it keeps its
      opening value. */
  lemma FinalAlgoSell(p: Params)
    ensures RaiseCount(p) > 0 ==> Simulate(p).algoSell == SpreadTotal - p.fairValue
    ensures RaiseCount(p) > 0 ==> Simulate(p).algoBuy + Simulate(p).algoSell == SpreadTotal
    ensures RaiseCount(p) == 0 ==> Simulate(p).algoSell == p.algoSellStart
  {
  }

  /** The recorded steps are 1, 2, ..., n from the loop followed by n + 1 from
      the closing event. */
  lemma StepsConsecutive(p: Params)
    ensures var r := Simulate(p);
      && |r.steps| == RaiseCount(p) + 1
      && (forall i :: 0 <= i < |r.steps| ==> r.steps[i] == i + 1)
      && r.steps[|r.steps| - 1] == RaiseCount(p) + 1
  {
  }

  /** The seeded price series stay one entry ahead of the step list after the
      closing appends too. */
  lemma LengthRelation(p: Params)
    ensures var r := Simulate(p);
      |r.algoPrices| == |r.humanPrices| == |r.steps| + 1
  {
  }

  /** The algo price series starts at the opening buy, rises by one per step,
      and ends with the fair value. */
  lemma AlgoPricesContents(p: Params)
    ensures var r := Simulate(p);
      && |r.algoPrices| == RaiseCount(p) + 2
      && (forall i :: 0 <= i <= RaiseCount(p) ==> r.algoPrices[i] == p.algoBuyStart + i)
      && r.algoPrices[RaiseCount(p) + 1] == p.fairValue
  {
  }

  /** The algo price series is non-decreasing exactly when the opening buy is
      at or below the fair value; in that case no price exceeds the fair value. */
  lemma AlgoPricesMonotone(p: Params)
    ensures var ap := Simulate(p).algoPrices;
      (forall i, j :: 0 <= i <= j < |ap| ==> ap[i] <= ap[j]) <==> p.algoBuyStart <= p.fairValue
    ensures p.algoBuyStart <= p.fairValue ==>
      forall i :: 0 <= i < |Simulate(p).algoPrices| ==> Simulate(p).algoPrices[i] <= p.fairValue
  {
    var ap := Simulate(p).algoPrices;
    if p.algoBuyStart > p.fairValue {
      assert ap[0] == p.algoBuyStart && ap[1] == p.fairValue;
    }
  }

  /** The human series starts with no action, holds the human's order price at
      every raise, and ends with the chase price. */
  lemma HumanPricesContents(p: Params)
    ensures var r := Simulate(p);
      && |r.humanPrices| == RaiseCount(p) + 2
      && r.humanPrices[0] == None
      && (forall i :: 1 <= i <= RaiseCount(p) ==> r.humanPrices[i] == Some(p.humanOrderPrice))
      && r.humanPrices[RaiseCount(p) + 1] == Some(r.humanBuyPrice)
  {
  }

  /** The human buys at 20% above fair value, the algo sells at that price, and
      the human's loss is the overpayment, one fifth of the fair value. */
  lemma FinalEvent(p: Params)
    ensures var r := Simulate(p);
      && r.humanBuyPrice == p.fairValue as real * ChaseMarkup
      && r.algoSellPrice == r.humanBuyPrice
      && r.humanLoss == r.humanBuyPrice - p.fairValue as real
      && r.humanLoss == p.fairValue as real / 5.0
      && (r.humanLoss > 0.0 <==> p.fairValue > 0)
  {
  }

  /** The script's own constants: 20 raises from 20 to 40, the human buys at
      48 and loses 8. */
  lemma ConcreteInstance()
    ensures var r := Simulate(Params(40, 20, 80, 21.0));
      && RaiseCount(Params(40, 20, 80, 21.0)) == 20
      && r.steps == Upward(1, 21)
      && r.algoBuy == 40
      && r.algoSell == 60
      && r.algoPrices[0] == 20 && r.algoPrices[20] == 40 && r.algoPrices[21] == 40
      && r.humanBuyPrice == 48.0
      && r.algoSellPrice == 48.0
      && r.humanLoss == 8.0
  {
  }
}

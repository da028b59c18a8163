/**
 The script's statements in their own imperative shape: one `while` loop over
 integer counters appending to three sequences, then the closing event. The
 loop invariants keep the lock-step lengths and the arithmetic progressions,
 and the method computes exactly the run the functional model describes.
 */
module ChaseLoop {
  import opened Wrappers
  import opened Chase

  method SimulateChase(p: Params) returns (r: ChaseRun)
    ensures r == Simulate(p)
    ensures |r.algoPrices| == |r.humanPrices| == |r.steps| + 1
  {
    var algoBuy := p.algoBuyStart;
    var algoSell := p.algoSellStart;
    var algoPrices := [algoBuy];
    var humanPrices: seq<Option<real>> := [None];
    var steps: seq<int> := [];

    var step := 0;
    while algoBuy < p.fairValue
      invariant 0 <= step <= RaiseCount(p)
      invariant algoBuy == p.algoBuyStart + step
      invariant algoSell == if step > 0 then SpreadTotal - algoBuy else p.algoSellStart
      invariant |algoPrices| == |humanPrices| == |steps| + 1
      invariant steps == Upward(1, step)
      invariant algoPrices == Upward(p.algoBuyStart, step + 1)
      invariant humanPrices == [None] + Repeat(Some(p.humanOrderPrice), step)
      decreases p.fairValue - algoBuy
    {
      step := step + 1;
      algoBuy := algoBuy + 1;
      algoSell := SpreadTotal - algoBuy;
      steps := steps + [step];
      algoPrices := algoPrices + [algoBuy];
      humanPrices := humanPrices + [Some(p.humanOrderPrice)];
    }

    var humanBuyPrice := p.fairValue as real * ChaseMarkup;
    step := step + 1;
    steps := steps + [step];
    algoPrices := algoPrices + [p.fairValue];
    humanPrices := humanPrices + [Some(humanBuyPrice)];

    var algoSellPrice := humanBuyPrice;
    var humanLoss := humanBuyPrice - p.fairValue as real;
    r := ChaseRun(steps, algoPrices, humanPrices, algoBuy, algoSell,
                  humanBuyPrice, algoSellPrice, humanLoss);
  }
}

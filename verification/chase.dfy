/**
 The deterministic "algo chases up, human overpays" script, as pure functions.

 The script raises an integer algo buy quote by one per step until it reaches
 the fair value, recording every step, and then records a single closing event
 in which the human buys at 20% above fair value. The module-level constants of
 the script become the fields of `Params`; the mutable globals the loop updates
 become a `LoopState`; the values the script ends with become a `ChaseRun`.
 */
module Chase {
  import opened Wrappers

  /** The script's four constants: fair value, the algo's opening buy and sell
      quotes, and the price the human keeps ordering at during the raise. */
  datatype Params = Params(
    fairValue: int,
    algoBuyStart: int,
    algoSellStart: int,
    humanOrderPrice: real)

  /** The globals the raise loop reads and writes. `humanPrices` holds `None`
      where the script stores Python's `None`. */
  datatype LoopState = LoopState(
    step: int,
    algoBuy: int,
    algoSell: int,
    steps: seq<int>,
    algoPrices: seq<int>,
    humanPrices: seq<Option<real>>)

  /** Everything the script has computed once the closing event is recorded. */
  datatype ChaseRun = ChaseRun(
    steps: seq<int>,
    algoPrices: seq<int>,
    humanPrices: seq<Option<real>>,
    algoBuy: int,
    algoSell: int,
    humanBuyPrice: real,
    algoSellPrice: real,
    humanLoss: real)

  /** The algo keeps its buy and sell quotes summing to this total. */
  const SpreadTotal: int := 100

  /** The factor 1.2 by which the human overpays, as an exact rational. */
  const ChaseMarkup: real := 6.0 / 5.0

  /** The consecutive integers a, a + 1, ..., a + n - 1. */
  function Upward(a: int, n: nat): seq<int>
  {
    seq(n, i => a + i)
  }

  /** n copies of x. */
  function Repeat<T>(x: T, n: nat): seq<T>
  {
    seq(n, _ => x)
  }

  /** How many single-unit raises take `from` up to `to`; none if it is
      already there or above. */
  function Gap(from: int, to: int): nat
  {
    if from < to then to - from else 0
  }

  /** The number of times the script's raise loop runs. */
  function RaiseCount(p: Params): nat
  {
    Gap(p.algoBuyStart, p.fairValue)
  }

  /** `b` is `a` with exactly one more element at the end. */
  predicate AppendsOne<T(==)>(a: seq<T>, b: seq<T>)
  {
    |b| == |a| + 1 && b[..|a|] == a
  }

  /** The three series always hold one more price than steps. */
  predicate LockStep(s: LoopState)
  {
    |s.algoPrices| == |s.humanPrices| == |s.steps| + 1
  }

  /** The globals as the script sets them before the loop: both price series
      are seeded with one entry, the step list is empty. */
  function Initial(p: Params): (s: LoopState)
    ensures LockStep(s)
    ensures s.steps == [] && s.algoPrices == [p.algoBuyStart] && s.humanPrices == [None]
    ensures s.step == 0 && s.algoBuy == p.algoBuyStart && s.algoSell == p.algoSellStart
  {
    LoopState(0, p.algoBuyStart, p.algoSellStart, [], [p.algoBuyStart], [None])
  }

  /** One pass of the raise loop body. It keeps the lock-step shape, keeps the
      two quotes summing to `SpreadTotal`, advances the step and the buy by one,
      and only appends to the series. */
  function RaiseStep(s: LoopState, humanOrderPrice: real): (r: LoopState)
    ensures LockStep(r) <==> LockStep(s)
    ensures r.step == s.step + 1 && r.algoBuy == s.algoBuy + 1
    ensures r.algoBuy + r.algoSell == SpreadTotal
    ensures AppendsOne(s.steps, r.steps) && r.steps[|s.steps|] == r.step
    ensures AppendsOne(s.algoPrices, r.algoPrices) && r.algoPrices[|s.algoPrices|] == r.algoBuy
    ensures AppendsOne(s.humanPrices, r.humanPrices)
    ensures r.humanPrices[|s.humanPrices|] == Some(humanOrderPrice)
  {
    var step := s.step + 1;
    var buy := s.algoBuy + 1;
    LoopState(
      step,
      buy,
      SpreadTotal - buy,
      s.steps + [step],
      s.algoPrices + [buy],
      s.humanPrices + [Some(humanOrderPrice)])
  }

  /** The raise loop: repeat `RaiseStep` while the algo buy is below the fair
      value. It runs `Gap(s.algoBuy, fairValue)` times, ends with the buy at
      the fair value (or unchanged if it started above), and appends exactly the
      arithmetic progressions the steps produce. */
  function RaiseLoop(s: LoopState, fairValue: int, humanOrderPrice: real): (r: LoopState)
    decreases fairValue - s.algoBuy
    ensures r.algoBuy == if s.algoBuy < fairValue then fairValue else s.algoBuy
    ensures r.step == s.step + Gap(s.algoBuy, fairValue)
    ensures r.algoSell == if s.algoBuy < fairValue then SpreadTotal - fairValue else s.algoSell
    ensures r.steps == s.steps + Upward(s.step + 1, Gap(s.algoBuy, fairValue))
    ensures r.algoPrices == s.algoPrices + Upward(s.algoBuy + 1, Gap(s.algoBuy, fairValue))
    ensures r.humanPrices == s.humanPrices + Repeat(Some(humanOrderPrice), Gap(s.algoBuy, fairValue))
  {
    if s.algoBuy < fairValue then
      RaiseLoop(RaiseStep(s, humanOrderPrice), fairValue, humanOrderPrice)
    else
      s
  }

  /** The closing event: one more step in which the human buys at 20% above
      fair value, the algo sells at that price, and the human's loss is one
      fifth of the fair value. */
  function ChaseEvent(s: LoopState, fairValue: int): (r: ChaseRun)
    ensures r.steps == s.steps + [s.step + 1]
    ensures r.algoPrices == s.algoPrices + [fairValue]
    ensures r.humanPrices == s.humanPrices + [Some(r.humanBuyPrice)]
    ensures r.algoBuy == s.algoBuy && r.algoSell == s.algoSell
    ensures r.algoSellPrice == r.humanBuyPrice
    ensures r.humanBuyPrice == fairValue as real * ChaseMarkup
    ensures r.humanLoss == fairValue as real / 5.0
  {
    var humanBuyPrice := fairValue as real * ChaseMarkup;
    var step := s.step + 1;
    ChaseRun(
      s.steps + [step],
      s.algoPrices + [fairValue],
      s.humanPrices + [Some(humanBuyPrice)],
      s.algoBuy,
      s.algoSell,
      humanBuyPrice,
      humanBuyPrice,
      humanBuyPrice - fairValue as real)
  }

  /** The whole script: the raise loop from the initial globals, then the
      closing event. The contract gives every output in closed form. */
  function Simulate(p: Params): (r: ChaseRun)
    ensures r.steps == Upward(1, RaiseCount(p) + 1)
    ensures r.algoPrices == Upward(p.algoBuyStart, RaiseCount(p) + 1) + [p.fairValue]
    ensures r.humanPrices
         == [None] + Repeat(Some(p.humanOrderPrice), RaiseCount(p)) + [Some(r.humanBuyPrice)]
    ensures r.algoBuy == if p.algoBuyStart < p.fairValue then p.fairValue else p.algoBuyStart
    ensures r.algoSell == if RaiseCount(p) > 0 then SpreadTotal - p.fairValue else p.algoSellStart
    ensures r.humanBuyPrice == p.fairValue as real * ChaseMarkup
    ensures r.algoSellPrice == r.humanBuyPrice
    ensures r.humanLoss == p.fairValue as real / 5.0
  {
    var raised := RaiseLoop(Initial(p), p.fairValue, p.humanOrderPrice);
    ChaseEvent(raised, p.fairValue)
  }
}

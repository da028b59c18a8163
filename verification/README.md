# Chase simulation model

A Dafny model of the deterministic "algo chases up, human overpays" script
(`last.py`). An algorithmic market maker holds a buy quote below the fair value
of an illiquid option and raises it by one unit per reaction step until it
reaches the fair value, keeping its buy and sell quotes summing to 100. Each
step is recorded in three parallel series: the step numbers, the algo's buy
prices and the human's order prices. Then a single closing event is recorded
in which the human, chasing, buys at 20% above fair value from the algo, and
the human's loss against fair value is computed.

The script's constants (fair value 40, opening algo buy 20, opening algo sell
80, human order price 21) are parameters (`Chase.Params`). The model has three
layers:

- `Chase` (chase.dfy): the script as pure functions. `Initial` sets the globals,
  `RaiseStep` is one pass of the loop body, `RaiseLoop` is the `while` loop,
  `ChaseEvent` is the closing event, `Simulate` is the whole script. Their
  contracts give every output in closed form.
- `ChaseLoop` (chase_loop.dfy): the same statements as one imperative `while`
  loop with loop invariants, proved to compute exactly `Chase.Simulate`.
- `ChaseProperties` (chase_properties.dfy): the properties of the run. These
  cover the loop count, step numbering, lock-step lengths, price series
  contents and monotonicity, the closing event, and the script's own instance.

Where the script stores Python's `None` as the first human price, the model
uses `Wrappers.Option` (wrappers.dfy). The seeding quirk is kept as written.
Both price series start with one entry but the step list starts empty. So the
price series always hold one more entry than the step list.

The script also tracks a final algo sell quote and a human order price
during the raise, and both are modelled. Its step list has n + 1 entries for n
raises, because the closing event appends one more step number.

## Model

| member | source | states |
|---|---|---|
| Chase.Initial | last.py:4-13 | before the loop the three series are in lock-step: both price series hold exactly one seed entry (the opening buy and no human action), the step list is empty, the step counter is 0 and the quotes are the opening ones |
| Chase.RaiseStep | last.py:15-20 | one loop pass keeps the lock-step shape (in both directions), advances the step counter and the buy by exactly one, keeps buy + sell at 100, and only appends: the new step number, the new buy and the human's order price |
| Chase.RaiseLoop | last.py:14-20 | the loop runs max(0, fair - buy) times, ends with the buy at the fair value (or unchanged if it started above), sets the sell to 100 - fair only if it ran, and appends exactly the progressions step+1.., buy+1.. and repeated human order prices |
| Chase.ChaseEvent | last.py:22-31 | the closing event appends step n + 1, the fair value and the chase price; the human buys at 6/5 of fair value, the algo sells at that price, and the loss is fair / 5 |
| Chase.Simulate | last.py:4-31 | the whole run in closed form: steps 1..n+1, algo prices start..start+n then the fair value, human prices None, n copies of the order price, then the chase price; final quotes and loss as above |
| ChaseLoop.SimulateChase | last.py:4-31 | the imperative loop computes exactly the run `Chase.Simulate` describes, with the price series one entry longer than the step list |
| ChaseProperties.LoopCount | last.py:14-25 | the step list has max(0, fair - start) + 1 entries (one per loop run plus the closing event); the final buy equals the fair value exactly when the start is at or below it, and is the start otherwise |
| ChaseProperties.FinalAlgoSell | last.py:14-17 | after at least one raise the final sell is 100 - fair value and buy + sell is 100; with no raise the sell keeps its opening value |
| ChaseProperties.StepsConsecutive | last.py:13-25 | the step list is 1, 2, ..., n followed by n + 1 from the closing event |
| ChaseProperties.LengthRelation | last.py:8-27 | after the closing appends both price series are still exactly one entry longer than the step list |
| ChaseProperties.AlgoPricesContents | last.py:8-26 | the algo price at index i is start + i for i in 0..n, and the last entry is the fair value |
| ChaseProperties.AlgoPricesMonotone | last.py:14-26 | the algo price series is non-decreasing if and only if the start is at or below the fair value, and then no entry exceeds the fair value |
| ChaseProperties.HumanPricesContents | last.py:9-27 | the human series is no action, then the order price at each of the n raises, then the chase price |
| ChaseProperties.FinalEvent | last.py:23-31 | the human pays 1.2 times fair value, the algo sells at that price, and the loss is the overpayment, fair / 5, positive exactly when the fair value is |
| ChaseProperties.ConcreteInstance | last.py:4-31 | with fair 40, buy 20, sell 80 and order price 21 the loop runs 20 times, the steps are 1..21, the final quotes are 40/60, the human buys at 48 and loses 8 |

## Left out

- Plotting (last.py:1, last.py:35-47) is display only. As written, the calls on lines 37 and 38 pass x and y series of unequal length. That length relation is proved (`ChaseProperties.LengthRelation`), but the plotting call is not modelled.
- The console summary (last.py:33) is output only.
- Binary floating point: `fair_value * 1.2` (last.py:23) is modelled as the exact rational 6/5 over `real`. IEEE-754 rounding of 1.2 is not reproduced, nor is the `OverflowError` Python raises when a fair value too large for a float (above about 1.8e308) is multiplied by 1.2; the model returns the exact rational result for every integer fair value.
- Python's dynamic typing: the integer and float entries of the human price series are all modelled as `real`, and the order price parameter is a `real`.
- The randomized order-book and market-maker simulation in `new options.py` is not part of this model. It is a separate script driven by a random generator and an interactive form.

# Elasticity quiz: session model

This project models the game logic of an economics quiz page. The page shows a good, such as oil. The player guesses its price elasticity of demand and then its price elasticity of supply. The page then scores three things against the dataset: both guesses, and the share of a tax that buyers bear, which comes from the two elasticities. A session lasts ten questions.

The model has four modules:

- `Scoring` (`scoring.dfy`): the goods, the question results, and the scoring arithmetic.
  - The exponential-decay point award `calculatePoints`, with Math.round modelled exactly.
  - The buyer's share `s / (|d| + s)`.
  - The scoring of one question: 2000 + 2000 + 1000 points at most.
- `Ledger` (`ledger.dfy`): the session statistics, made of the running total, the count of completed questions and the append-only history. Its invariant ties the three together.
- `Selector` (`selector.dfy`): `selectRandomGood`.
  - It filters out used names.
  - When every name is used, it clears the used set and draws from the whole list.
  - Math.random is a parameter `rand` in [0, 1), used as in `Math.floor(rand * n)`.
  - `NextDraw` is what `nextQuestion` does to the used set and the current good.
- `Session` (`session.dfy`): the page component as a class `Quiz`.
  - Its fields are the component's state variables.
  - It has one method per event handler: `handleDemandSubmit`, `handleSupplySubmit`, `nextQuestion` and `startNewSession`.
  - A further method models `selectRandomGood`, the helper those handlers call.
  - Two further methods model typing into the two input fields.
  - `Valid()` is the invariant. The ledger stays consistent, no session runs past ten questions, and a question can be open only while fewer than ten are completed.

The model follows the code as written in one place where it behaves unexpectedly. `nextQuestion` queues the name of the good just shown into the used set. It then draws the next good against the used set as it was before that update, because the state update has not happened yet. So the good just shown can be drawn again immediately, even while other goods have never been shown (`Selector.ShownGoodCanRepeat`). If that draw finds every name used, the queued update is overwritten and the used set ends up empty.

## Model

| member | source | states |
|---|---|---|
| `Scoring.CalculatePoints` | app/page.tsx:144-147 | for a difference ≥ 0 the award lies in [0, maxPoints], and an exact guess (difference 0) earns exactly maxPoints |
| `Scoring.CalculatePointsAntitone` | app/page.tsx:144-147 | a larger difference never earns more points: the award is non-increasing in the difference |
| `Scoring.Round` | app/page.tsx:146 | Math.round gives the integer n with v - 0.5 < n ≤ v + 0.5 (nearest, halves upward) |
| `Scoring.Decay` | app/page.tsx:146 | the decay factor standing in for exp(-x) lies in (0, 1] for x ≥ 0 and is 1 exactly at x = 0 |
| `Scoring.BuyerShare` | app/page.tsx:224-226 | the buyer's share times (\|d\| + s) gives back s; it lies in [0, 1] when s ≥ 0; it is 0 when supply is perfectly inelastic and 1 when demand is |
| `Scoring.BuyersBearMoreIffSupplyMoreElastic` | app/page.tsx:113-119 | with s ≥ 0, buyers bear more than half of the tax exactly when supply is more elastic than demand, and exactly half exactly when the two are equally elastic |
| `Scoring.ScoreQuestion` | app/page.tsx:212-232 | the result records the question number, the good's name, both guesses and both actual values; demand and supply points lie in [0, 2000] and incidence points in [0, 1000]; the total is their sum and lies in [0, 5000]; the incidence guess and actual are the buyer's shares of the guessed and actual elasticities |
| `Scoring.ExactGuessScoresMaximum` | app/page.tsx:217-232 | guessing both elasticities exactly gives 2000 + 2000 + 1000 = 5000 points, because the incidence difference is then 0 |
| `Scoring.CloserDemandGuessScoresNoLess` | app/page.tsx:218-221 | a demand guess at least as close to the actual value never earns fewer demand points |
| `Scoring.CloserSupplyGuessScoresNoLess` | app/page.tsx:219-222 | a supply guess at least as close to the actual value never earns fewer supply points |
| `Ledger.ZeroStats` | app/page.tsx:158-162 | the fresh ledger (total 0, no questions, empty history) satisfies the ledger invariant |
| `Ledger.Record` | app/page.tsx:257-261 | the ledger update of a successful supply submit keeps the ledger invariant when it records the next-numbered, in-range result; its exact effect on count, history and total is stated by `RecordPreservesValid` |
| `Ledger.RecordPreservesValid` | app/page.tsx:257-261 | recording the next-numbered result keeps the ledger invariant (count = history length, total = sum of the history, results numbered 1, 2, … in range); the count grows by one, the old history is an unchanged prefix, the new last entry is the result, and the total grows by exactly its points |
| `Ledger.SumTotalsBounded` | app/page.tsx:257-261 | a history of in-range results sums to between 0 and 5000 times its length |
| `Ledger.TotalPointsBounded` | app/page.tsx:257-261 | in a valid ledger, 0 ≤ totalPoints ≤ 5000 × questionsCompleted |
| `Selector.Available` | app/page.tsx:187 | a good is available exactly when it is in the list and its name is not in the used set; with an empty used set the whole list, in order, is available |
| `Selector.AvailableEmptyIffExhausted` | app/page.tsx:187-189 | nothing is available exactly when every name of the list is in the used set |
| `Selector.RandomIndex` | app/page.tsx:195 | Math.floor(rand × n) for rand in [0, 1) is a valid index below n |
| `Selector.RandomIndexReaches` | app/page.tsx:195 | every index i < n is produced by the random number i / n, so every index is reachable |
| `Selector.Select` | app/page.tsx:186-197 | the pick is always a good of the list; the used set is cleared exactly when every name is used; unless it was cleared, the pick's name is not in the used set |
| `Selector.SelectFromFreshPoolKeepsUsedSet` | app/page.tsx:186-197 | drawing against an empty used set never clears it, so the first draw and the draw after a reset do not recurse |
| `Selector.EveryCandidateCanBeDrawn` | app/page.tsx:186-197 | every unused good, or every good once all are used, is the pick for some random number |
| `Selector.NextDraw` | app/page.tsx:270-276 | the new good comes from the list; if every name was already used the used set ends empty; otherwise the used set gains the shown good's name and the new good's name was not used before |
| `Selector.ShownGoodCanRepeat` | app/page.tsx:271-276 | for two goods a and b with a just shown and nothing used, the next draw can be a again while b is still unused, because the draw reads the used set from before a was added |
| `Session.Quiz.constructor` | app/page.tsx:150-178 | after loading: the Demand stage, blank guesses, the zero ledger, an empty used set, zero question points and a first good drawn from the whole list |
| `Session.Quiz.SelectRandomGood` | app/page.tsx:186-197 | the current good becomes the selector's pick, and the used set is cleared exactly when the selector clears it and is otherwise untouched |
| `Session.Quiz.SetDemandGuess` | app/page.tsx:521-526 | editing the demand field (shown in the Demand stage) sets that guess and nothing else |
| `Session.Quiz.SetSupplyGuess` | app/page.tsx:575-580 | editing the supply field (shown in the Supply stage) sets that guess and nothing else |
| `Session.Quiz.HandleDemandSubmit` | app/page.tsx:199-204 | a no-op unless the demand guess is non-empty and the stage is Demand; then the stage becomes Supply; only the stage may change, so the ledger is untouched |
| `Session.Quiz.HandleSupplySubmit` | app/page.tsx:206-262 | a no-op unless the supply guess is non-empty and the stage is Supply. Otherwise the stage becomes Result, the ledger records exactly the scored result numbered old count + 1, the count grows by one, the old history stays a prefix, the total grows by that result's points, and the shown points are its breakdown |
| `Session.Quiz.NextQuestion` | app/page.tsx:264-277 | with 10 or more completed, only the stage changes, to SessionComplete. Otherwise the stage is Demand, both guesses are blank, and the used set and current good are those of `NextDraw`, drawn against the stale used set |
| `Session.Quiz.StartNewSession` | app/page.tsx:279-290 | the zero ledger, an empty used set, the Demand stage, blank guesses and a good drawn from the whole list |
| `Session.SupplySubmitTwiceCountsOnce` | app/page.tsx:206-210 | two supply submits in a row keep the state valid and record the question exactly once: the ledger is the old ledger with the one scored result recorded (so the total grows by its points only once) when the first submit is accepted, and unchanged otherwise |
| `Session.SessionTotalBounded` | app/page.tsx:364-366 | in any reachable state the session total lies in [0, 10 × 5000] |
| `Session.ExactAnswerScenario` | app/page.tsx:199-261 | the one-good dataset Oil (demand −0.4, supply 0.15), answered exactly, leaves a session total of 5000 |

## Left out

- `Scoring.Decay`: Math.exp(-x) is replaced by the rational 1 / (1 + x + x²/2). It shares the properties the contracts state: it equals 1 at 0, lies in (0, 1] and is non-increasing. Its values differ from exp, though. At a demand difference of 0.5 the page awards 736 points, but the model awards 800. Real exponentials cannot be computed in this model.
- `Scoring.CalculatePoints`: the contract states the range, the value at difference 0 and monotonicity. It does not claim a strict decrease, which the rounding does not give anyway. Floating-point effects of Math.exp and Math.round are not modelled.
- Parsing: a guess is either blank or an already-parsed real. Non-numeric text, which parseFloat turns into NaN, is not modelled.
- Zero denominator: the page does not guard `|d| + s = 0`. When both elasticities are 0, the buyer's share is NaN and so are the incidence points and the total. When s is negative with `|d| = -s` (guesses of −1 and −1, say), the share is ±Infinity, the difference is Infinity and the page records an ordinary result with 0 incidence points. The model excludes both cases: it requires a non-zero denominator for the guesses and for the good being scored.
- Dataset loading: the fetch of the dataset, the loading flag and the error logging are left out. The constructor is the state after a successful load. So the current good is never null, and the `if (currentGood)` test in `nextQuestion` always holds.
- Empty dataset: an empty goods list makes `selectRandomGood` recurse forever, so the model requires a non-empty list.
- Randomness: Math.random is a parameter in [0, 1). `Selector.EveryCandidateCanBeDrawn` shows that this reaches every candidate.
- React state updates: each handler is modelled as one atomic step. Reads inside a handler see the state from before the handler, as in the page, which is exactly what produces the stale used set in `nextQuestion`.
- Presentation: the explanation modal and its Escape key listener, the animation, the styling and the markup are left out. So is the display-only arithmetic: percentage accuracy, average score, the last three results and the narrative thresholds for the buyer's share.
- Other scoring modes: binary correct/incorrect scoring with streaks belongs to other page variants. Those files are not part of this model.

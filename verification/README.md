# Investment checker: decision layer

A model, over exact reals, of the part of the Investment_checker web application
(`app.py`) that turns a project's cash flows and a target rate into an
investment decision and a list of guidance messages:

- `calculate_arr`, the accounting rate of return (`Arr.CalculateArr`), with its two
  divisions by zero as the errors `NoPeriods` and `ZeroInitialCost`;
- the conjunctive accept/reject rule of the request handler (`Advice.Decide`):
  "Good to invest" only if NPV > 0, IRR > rate and ARR > rate;
- `generate_dynamic_recommendations` (`Advice.GenerateRecommendations`), which appends
  one message per failing criterion to a list, or the affirmative message alone
  when none fails. Each message is a constructor carrying the amount the source
  formats into its text: `NpvShortfall(|npv|)`, `IrrIncrease(rate - irr + 0.01)`,
  `ArrIncrease((rate - arr + 0.01) * (initial_cost / 2))`, `Affirmative`;
- the request handler's evaluation (`App.Evaluate`): the full series
  `[-initial_cost] + cashflows`, the ARR, the decision and the guidance.

The method `GenerateRecommendations` builds its list by successive appends, as the
source does, and is proved equal to `Advice.Recommendations`, an independent
definition that filters the three rules (`Advice.Rules`) by whether they fire. The
properties of the guidance are lemmas about that definition.

NPV and IRR come from the `numpy_financial` library; the model takes them as
real-valued inputs.

The code averages the flows after period 0 net of the whole `abs(initial_cost)`,
which is the accounting profit after straight-line depreciation of the initial
cost to zero, and ignores the flow of period 0. `Arr.ArrIsAccountingReturn` proves
that this is the mean of those yearly accounting profits divided by the average
investment.
The ARR guidance amount scales by the signed `initial_cost`, while
`calculate_arr` uses its absolute value; `App.ArrAdviceReachesTarget` shows that
the quoted amount is enough for a positive cost and falls short for a negative one.

Files: `Results.dfy` (the `Result` type), `Arr.dfy`, `Advice.dfy`, `App.dfy`.

## Model

| member | source | states |
|---|---|---|
| `Arr.CalculateArr` | app.py:16-19 | The ARR is defined exactly when there are at least two flows and the initial cost is non-zero; with fewer than two flows the first division fails (`NoPeriods`), otherwise a zero cost makes the second fail (`ZeroInitialCost`). |
| `Arr.ArrIgnoresPeriodZero` | app.py:17 | Replacing the flow of period 0 by any value leaves the ARR (or its error) unchanged. |
| `Arr.ArrAboveRate` | app.py:17-19 | The ARR exceeds a rate exactly when the average profit exceeds that rate times the average investment `abs(initial_cost) / 2`. |
| `Arr.ArrPositive` | app.py:17-19 | The ARR is positive exactly when the flows after period 0 sum to more than `abs(initial_cost)`. |
| `Arr.SumNetOf` | app.py:17 | Charging a fixed amount against each of n flows lowers their sum by n times that amount. |
| `Arr.ArrIsAccountingReturn` | app.py:17-18 | The ARR equals the mean of the yearly profits after straight-line depreciation of `abs(initial_cost)` over the periods, divided by the average investment. |
| `Advice.Decide` | app.py:64 | A project is rejected when NPV <= 0, when IRR <= rate or when ARR <= rate, and accepted otherwise. |
| `Advice.Message` | app.py:25-39 | Each rule yields its own kind of message (NPV, IRR, ARR in that rank), never the affirmative one. |
| `Advice.GenerateRecommendations` | app.py:22-45 | The list built by the three guarded appends and the final fallback is exactly the filter of the three rules, with the affirmative message when none fires; `cashflows` and `years` do not influence it. |
| `Advice.RecommendationsLength` | app.py:23-45 | The guidance list is never empty and has at most three entries. |
| `Advice.RecommendationsOrdered` | app.py:25-39 | Messages appear in strictly increasing rank: NPV before IRR before ARR, each at most once. |
| `Advice.RuleMessageIffFires` | app.py:25-39 | A rule's message, with the amount the source computes, is in the list exactly when that rule's criterion fails (NPV <= 0, IRR <= rate, ARR <= rate), and no other message of that rule is. |
| `Advice.AffirmativeIffNoRuleFires` | app.py:41-43 | The affirmative message appears exactly when no criterion fails, and it is then the only entry. |
| `Advice.DecisionMatchesRecommendations` | app.py:64 | The decision is "Good to invest" exactly when the guidance is the affirmative message alone. |
| `Advice.NpvShortfallNonNegative` | app.py:26-28 | The NPV shortfall quoted is never negative. |
| `Advice.IrrIncreasePositive` | app.py:31-33 | The IRR increase quoted is strictly positive, and adding it to the IRR passes the target. |
| `Advice.ArrIncreaseSign` | app.py:36-39 | The ARR amount quoted is positive when the initial cost is positive and negative when it is negative. |
| `App.ArrOfFullSeries` | app.py:56-61 | The ARR of `[-initial_cost] + cashflows` is defined exactly when at least one yearly flow is given and the cost is non-zero, and equals the formula over the yearly flows alone. |
| `App.ArrAdviceReachesTarget` | app.py:36-39 | Adding the quoted ARR amount to the average yearly profit lifts the ARR to the target plus one point when the cost is positive, and leaves it below the target when the cost is negative. |
| `App.ProfitableSeriesArr` | app.py:56-67 | A cost of 1000 with five flows of 300 gives an ARR of 0.2; with a positive NPV and an IRR above an 8% target the decision is "Good to invest" and the guidance is the affirmative message alone. |
| `App.UnprofitableSeriesAdvice` | app.py:56-67 | A cost of 1000 with five flows of 100 gives an ARR of -0.2; with a negative NPV and an IRR under a 10% target the guidance is the NPV shortfall, an IRR increase of `0.11 - irr` and an ARR increase of 155. |
| `App.Evaluate` | app.py:56-67 | The handler's evaluation fails exactly on the ARR's zero divisions; otherwise it reports the given NPV and IRR, the ARR of the yearly flows, the guidance of `generate_dynamic_recommendations`, and a decision that is "Good to invest" exactly when all three criteria pass and exactly when the guidance is the affirmative message alone. |

## Left out

- `calculate_npv` and `calculate_irr` (app.py:8-13): thin wrappers over `numpy_financial`, which is not part of this model; NPV and IRR are real-valued inputs.
- The NaN that `nf.irr` returns for a series without a sign change: reals cannot express it. For NaN, `irr <= rate` is false (no IRR message) while the decision still rejects, so the match between decision and guidance holds only for real-valued IRR.
- IEEE-754 floating-point arithmetic: all arithmetic is exact over reals.
- `round(..., 2)`, the multiplication of the IRR increase by 100 for display, and the f-string texts of the messages and of the result record: presentation only; messages are constructors carrying the unrounded amounts.
- The Flask application, routing, form parsing (`float`, `int`, `split`) and `render_template` (app.py:1-5, 47-54, 79): web I/O. The result record of lines 70-77 is `App.Evaluation`, unrounded. A `ZeroDivisionError` in `calculate_arr` is returned as an error value rather than ending the request.

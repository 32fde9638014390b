/**
 The evaluation that app.py's `index` handler performs on a submitted form
 (lines 56-67), without the web layer: build the full cash-flow series, compute
 the ARR, take the decision and generate the guidance. NPV and IRR come from
 `numpy_financial`, which is not part of this model: the caller supplies them.
 */
module App {
  import opened Results
  import opened Arr
  import opened Advice

  /** `cashflows_full`: the initial cost as a period-0 outflow, then the yearly flows. */
  function FullSeries(initialCost: real, cashflows: seq<real>): seq<real>
  {
    [-initialCost] + cashflows
  }

  /** The result record the handler hands to its template, before rounding. */
  datatype Evaluation = Evaluation(
    npv: real,
    irr: real,
    arr: real,
    decision: Decision,
    rate: real,
    recommendations: seq<Recommendation>)

  /**
   The ARR of the full series depends only on the yearly flows and the cost: it is
   defined exactly when at least one yearly flow was entered and the cost is not zero,
   and the period-0 outflow built from the cost plays no part in it.
   */
  lemma ArrOfFullSeries(initialCost: real, cashflows: seq<real>)
    ensures CalculateArr(initialCost, FullSeries(initialCost, cashflows)).Ok?
        <==> |cashflows| >= 1 && initialCost != 0.0
    ensures CalculateArr(initialCost, FullSeries(initialCost, cashflows)).Ok? ==>
              CalculateArr(initialCost, FullSeries(initialCost, cashflows)).value
              == ((Sum(cashflows) - Abs(initialCost)) / (|cashflows| as real)) / (Abs(initialCost) / 2.0)
  {
  }

  /**
   Raising the average yearly profit by the quoted ARR amount lifts the ARR to one
   point above the target when the initial cost is positive. When it is negative the
   amount is negative and the ARR it leads to stays below the target.
   */
  lemma ArrAdviceReachesTarget(initialCost: real, cashflows: seq<real>, m: Metrics, rate: real)
    requires CalculateArr(initialCost, cashflows).Ok?
    requires m.arr == CalculateArr(initialCost, cashflows).value && m.arr <= rate
    ensures var lifted := (AverageProfit(initialCost, cashflows) + Message(ArrRule, initialCost, m, rate).amount)
                          / AverageInvestment(initialCost);
            (initialCost > 0.0 ==> lifted == rate + Buffer > rate)
            && (initialCost < 0.0 ==> lifted < rate)
  {
  }

  /**
   A cost of 1000 recovered at 300 a year for five years: an ARR of 20%. Against an
   8% target, with a positive NPV and an IRR above the target, the project is accepted
   and the guidance is the affirmative message alone.
   */
  lemma ProfitableSeriesArr(npv: real, irr: real)
    requires npv > 0.0 && irr > 0.08
    ensures CalculateArr(1000.0, FullSeries(1000.0, [300.0, 300.0, 300.0, 300.0, 300.0])) == Ok(0.2)
    ensures Decide(Metrics(npv, irr, 0.2), 0.08) == GoodToInvest
    ensures Recommendations(1000.0, Metrics(npv, irr, 0.2), 0.08) == [Affirmative]
  {
    DecisionMatchesRecommendations(1000.0, Metrics(npv, irr, 0.2), 0.08);
  }

  /**
   A cost of 1000 returning 100 a year for five years, against a 10% target: the ARR
   is -20%, and with a negative NPV and an IRR below the target all three messages
   are due, the ARR one asking for 155 more average yearly profit.
   */
  lemma UnprofitableSeriesAdvice(npv: real, irr: real)
    requires npv < 0.0 && irr < 0.1
    ensures CalculateArr(1000.0, FullSeries(1000.0, [100.0, 100.0, 100.0, 100.0, 100.0])) == Ok(-0.2)
    ensures Recommendations(1000.0, Metrics(npv, irr, -0.2), 0.1)
         == [NpvShortfall(-npv), IrrIncrease(0.11 - irr), ArrIncrease(155.0)]
  {
    ArrOfFullSeries(1000.0, [100.0, 100.0, 100.0, 100.0, 100.0]);
    assert Rules == [NpvRule] + ([IrrRule] + [ArrRule]);
    FiredAppend([NpvRule], [IrrRule] + [ArrRule], 1000.0, Metrics(npv, irr, -0.2), 0.1);
    FiredAppend([IrrRule], [ArrRule], 1000.0, Metrics(npv, irr, -0.2), 0.1);
  }

  /**
   Lines 56-67 of the `index` handler for one submitted form. `npv` and `irr` are the
   values `nf.npv(rate, cashflows_full)` and `nf.irr(cashflows_full)` return. A zero
   division in `calculate_arr` ends the request with that error.
   */
  method Evaluate(initialCost: real, cashflows: seq<real>, years: int, rate: real, npv: real, irr: real)
    returns (result: Result<Evaluation, ArrError>)
    ensures result.Ok? <==> |cashflows| >= 1 && initialCost != 0.0
    ensures cashflows == [] ==> result == Err(NoPeriods)
    ensures cashflows != [] && initialCost == 0.0 ==> result == Err(ZeroInitialCost)
    ensures result.Ok? ==>
              var e := result.value;
              && e.npv == npv && e.irr == irr && e.rate == rate
              && e.arr == ((Sum(cashflows) - Abs(initialCost)) / (|cashflows| as real)) / (Abs(initialCost) / 2.0)
              && e.recommendations == Recommendations(initialCost, Metrics(npv, irr, e.arr), rate)
              && (e.decision == GoodToInvest <==> e.recommendations == [Affirmative])
              && (e.decision == GoodToInvest <==> npv > 0.0 && irr > rate && e.arr > rate)
  {
    var cashflowsFull := FullSeries(initialCost, cashflows);
    ArrOfFullSeries(initialCost, cashflows);
    var arr := CalculateArr(initialCost, cashflowsFull);
    if arr.Err? {
      return Err(arr.error);
    }
    var decision := Decide(Metrics(npv, irr, arr.value), rate);
    var recommendations := GenerateRecommendations(initialCost, cashflowsFull, rate, npv, irr, arr.value, years);
    DecisionMatchesRecommendations(initialCost, Metrics(npv, irr, arr.value), rate);
    result := Ok(Evaluation(npv, irr, arr.value, decision, rate, recommendations));
  }

}

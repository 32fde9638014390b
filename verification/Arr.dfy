/**
 The accounting rate of return (ARR) of app.py's `calculate_arr`, over exact reals.

 `calculate_arr(initial_cost, cashflows)` averages the flows after period 0,
 net of `abs(initial_cost)`, over the number of those periods, and divides that
 average profit by the average investment `abs(initial_cost) / 2`. Both divisions
 raise Python's ZeroDivisionError when their divisor is zero; the model returns
 the matching `ArrError` instead.
 */
module Arr {
  import opened Results

  /** Python's `sum` over a list of numbers. */
  function Sum(s: seq<real>): real
  {
    if s == [] then 0.0 else s[0] + Sum(s[1..])
  }

  /** Python's `abs` on a number. */
  function Abs(x: real): (r: real)
    ensures r >= 0.0 && (r == x || r == -x)
  {
    if x < 0.0 then -x else x
  }

  /** Python's slice `s[1:]`: everything after period 0, and `[]` for an empty list. */
  function Tail(s: seq<real>): (t: seq<real>)
    ensures |t| == if s == [] then 0 else |s| - 1
    ensures forall i :: 0 <= i < |t| ==> t[i] == s[i + 1]
  {
    if s == [] then [] else s[1..]
  }

  /** Which of the two divisions of `calculate_arr` divides by zero. */
  datatype ArrError =
    | NoPeriods        // `len(cashflows[1:]) == 0`: fewer than two flows
    | ZeroInitialCost  // `abs(initial_cost) / 2 == 0`

  /** `avg_profit`: the flows after period 0, net of the whole initial cost, per period. */
  function AverageProfit(initialCost: real, cashflows: seq<real>): real
    requires |cashflows| >= 2
  {
    (Sum(Tail(cashflows)) - Abs(initialCost)) / (|Tail(cashflows)| as real)
  }

  /** `avg_investment`: half the initial cost, straight-line depreciation to zero salvage value. */
  function AverageInvestment(initialCost: real): real
  {
    Abs(initialCost) / 2.0
  }

  /** `calculate_arr`, as a fraction (0.1 for 10%), with its two divisions by zero as errors. */
  function CalculateArr(initialCost: real, cashflows: seq<real>): (r: Result<real, ArrError>)
    ensures r.Ok? <==> |cashflows| >= 2 && initialCost != 0.0
    ensures |cashflows| < 2 ==> r == Err(NoPeriods)
    ensures |cashflows| >= 2 && initialCost == 0.0 ==> r == Err(ZeroInitialCost)
  {
    if |Tail(cashflows)| == 0 then Err(NoPeriods)
    else if AverageInvestment(initialCost) == 0.0 then Err(ZeroInitialCost)
    else Ok(AverageProfit(initialCost, cashflows) / AverageInvestment(initialCost))
  }

  /** The flow of period 0 never enters the ARR: only the periods after it and the initial cost do. */
  lemma ArrIgnoresPeriodZero(initialCost: real, cashflows: seq<real>, x: real)
    requires |cashflows| >= 1
    ensures CalculateArr(initialCost, [x] + cashflows[1..]) == CalculateArr(initialCost, cashflows)
  {
  }

  /**
   The ARR exceeds a target rate exactly when the average yearly profit exceeds that
   rate applied to the average investment.
   */
  lemma ArrAboveRate(initialCost: real, cashflows: seq<real>, rate: real)
    requires CalculateArr(initialCost, cashflows).Ok?
    ensures CalculateArr(initialCost, cashflows).value > rate
        <==> AverageProfit(initialCost, cashflows) > rate * AverageInvestment(initialCost)
  {
  }

  /** The ARR is positive exactly when the flows after period 0 add up to more than the initial cost. */
  lemma ArrPositive(initialCost: real, cashflows: seq<real>)
    requires CalculateArr(initialCost, cashflows).Ok?
    ensures CalculateArr(initialCost, cashflows).value > 0.0 <==> Sum(cashflows[1..]) > Abs(initialCost)
  {
  }

  /** Each flow less a fixed yearly depreciation charge: the accounting profit of each period. */
  function NetOf(flows: seq<real>, depreciation: real): (p: seq<real>)
    ensures |p| == |flows|
    ensures forall i :: 0 <= i < |p| ==> p[i] == flows[i] - depreciation
  {
    if flows == [] then [] else [flows[0] - depreciation] + NetOf(flows[1..], depreciation)
  }

  lemma {:induction false} SumNetOf(flows: seq<real>, depreciation: real)
    ensures Sum(NetOf(flows, depreciation)) == Sum(flows) - (|flows| as real) * depreciation
  {
    if flows != [] {
      SumNetOf(flows[1..], depreciation);
      assert NetOf(flows, depreciation)[1..] == NetOf(flows[1..], depreciation);
    }
  }

  /**
   Subtracting the whole initial cost from the summed flows is the textbook accounting
   profit: each period after period 0 is charged straight-line depreciation of
   `abs(initial_cost) / N` over the N periods, and the ARR is the mean of those
   yearly profits over the average investment.
   */
  lemma ArrIsAccountingReturn(initialCost: real, cashflows: seq<real>)
    requires CalculateArr(initialCost, cashflows).Ok?
    ensures var n := (|cashflows| - 1) as real;
            CalculateArr(initialCost, cashflows).value
            == (Sum(NetOf(cashflows[1..], Abs(initialCost) / n)) / n) / (Abs(initialCost) / 2.0)
  {
    var n := (|cashflows| - 1) as real;
    var tail := cashflows[1..];
    assert Tail(cashflows) == tail;
    SumNetOf(tail, Abs(initialCost) / n);
    assert n * (Abs(initialCost) / n) == Abs(initialCost);
    assert Sum(NetOf(tail, Abs(initialCost) / n)) == Sum(tail) - Abs(initialCost);
  }

}

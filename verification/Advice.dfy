/**
 The accept/reject rule of app.py (line 64) and `generate_dynamic_recommendations`
 (lines 22-45). NPV, IRR and ARR arrive as already computed reals; each guidance
 message is a constructor carrying the unrounded amount the source formats into it.
 */
module Advice {
  import opened Arr

  /** The safety margin (one percentage point) added to the IRR and ARR gaps. */
  const Buffer: real := 0.01

  /** The three metrics the decision and the guidance are drawn from. */
  datatype Metrics = Metrics(npv: real, irr: real, arr: real)

  datatype Decision = GoodToInvest | NotGoodToInvest

  /** The conjunctive rule of line 64: one failing criterion is enough to reject. */
  function Decide(m: Metrics, rate: real): (d: Decision)
    ensures m.npv <= 0.0 ==> d == NotGoodToInvest
    ensures m.irr <= rate ==> d == NotGoodToInvest
    ensures m.arr <= rate ==> d == NotGoodToInvest
    ensures d == NotGoodToInvest ==> m.npv <= 0.0 || m.irr <= rate || m.arr <= rate
  {
    if m.npv > 0.0 && m.irr > rate && m.arr > rate then GoodToInvest else NotGoodToInvest
  }

  /** One guidance message, with the amount it quotes. */
  datatype Recommendation =
    | NpvShortfall(shortfall: real)  // raise inflows or cut the initial cost by this much
    | IrrIncrease(increase: real)    // raise the IRR by this fraction
    | ArrIncrease(amount: real)      // raise the average yearly profit by this much
    | Affirmative                    // "Project looks profitable"

  /** The three rules, in the order the source tests them. */
  datatype Rule = NpvRule | IrrRule | ArrRule

  const Rules: seq<Rule> := [NpvRule, IrrRule, ArrRule]

  function RuleRank(rule: Rule): nat
  {
    match rule
    case NpvRule => 0
    case IrrRule => 1
    case ArrRule => 2
  }

  /** Position of a message in the list: rule messages by their rule, the affirmative one last. */
  function Rank(rec: Recommendation): nat
  {
    match rec
    case NpvShortfall(_) => 0
    case IrrIncrease(_) => 1
    case ArrIncrease(_) => 2
    case Affirmative => 3
  }

  /** When a rule's criterion fails, so that its message is due. */
  predicate Fires(rule: Rule, m: Metrics, rate: real)
  {
    match rule
    case NpvRule => m.npv <= 0.0
    case IrrRule => m.irr <= rate
    case ArrRule => m.arr <= rate
  }

  /** The message a firing rule contributes. The ARR amount scales by the signed initial cost. */
  function Message(rule: Rule, initialCost: real, m: Metrics, rate: real): (rec: Recommendation)
    ensures Rank(rec) == RuleRank(rule) && !rec.Affirmative?
  {
    match rule
    case NpvRule => NpvShortfall(Abs(m.npv))
    case IrrRule => IrrIncrease(rate - m.irr + Buffer)
    case ArrRule => ArrIncrease((rate - m.arr + Buffer) * (initialCost / 2.0))
  }

  /** The messages of the rules that fire, in the order of `rules`. */
  function Fired(rules: seq<Rule>, initialCost: real, m: Metrics, rate: real): seq<Recommendation>
  {
    if rules == [] then []
    else
      (if Fires(rules[0], m, rate) then [Message(rules[0], initialCost, m, rate)] else [])
      + Fired(rules[1..], initialCost, m, rate)
  }

  /** The guidance list: every firing rule's message, or else the affirmative message alone. */
  function Recommendations(initialCost: real, m: Metrics, rate: real): seq<Recommendation>
  {
    var fired := Fired(Rules, initialCost, m, rate);
    if fired == [] then [Affirmative] else fired
  }

  /** `generate_dynamic_recommendations`: build the list by appending under each rule's guard. */
  method GenerateRecommendations(initialCost: real, cashflows: seq<real>, rate: real,
                                 npv: real, irr: real, arr: real, years: int)
    returns (recommendations: seq<Recommendation>)
    ensures recommendations == Recommendations(initialCost, Metrics(npv, irr, arr), rate)
  {
    ghost var m := Metrics(npv, irr, arr);
    recommendations := [];

    if npv <= 0.0 {
      var shortfall := Abs(npv);
      recommendations := recommendations + [NpvShortfall(shortfall)];
    }
    assert recommendations == Fired([NpvRule], initialCost, m, rate);

    if irr <= rate {
      var requiredIrrIncrease := rate - irr + Buffer;
      recommendations := recommendations + [IrrIncrease(requiredIrrIncrease)];
    }
    assert recommendations == Fired([NpvRule, IrrRule], initialCost, m, rate) by {
      FiredAppend([NpvRule], [IrrRule], initialCost, m, rate);
    }

    ghost var before := recommendations;
    if arr <= rate {
      var requiredArrIncrease := rate - arr + Buffer;
      var increaseAmount := requiredArrIncrease * (initialCost / 2.0);
      assert ArrIncrease(increaseAmount) == Message(ArrRule, initialCost, m, rate) by {
        assert requiredArrIncrease == rate - m.arr + Buffer;
      }
      recommendations := recommendations + [ArrIncrease(increaseAmount)];
    }
    assert recommendations == before + Fired([ArrRule], initialCost, m, rate) by {
      assert Fired([ArrRule], initialCost, m, rate)
          == (if arr <= rate then [Message(ArrRule, initialCost, m, rate)] else []) + Fired([], initialCost, m, rate);
    }
    assert recommendations == Fired(Rules, initialCost, m, rate) by {
      assert Rules == [NpvRule, IrrRule] + [ArrRule];
      FiredAppend([NpvRule, IrrRule], [ArrRule], initialCost, m, rate);
    }

    if recommendations == [] {
      recommendations := recommendations + [Affirmative];
    }
  }

  // Properties of the rule filter, for any list of rules

  /** Messages in strictly increasing rank: in rule order, and no rule twice. */
  predicate Ranked(recs: seq<Recommendation>)
  {
    forall i, j :: 0 <= i < j < |recs| ==> Rank(recs[i]) < Rank(recs[j])
  }

  lemma {:induction false} FiredAppend(a: seq<Rule>, b: seq<Rule>, initialCost: real, m: Metrics, rate: real)
    ensures Fired(a + b, initialCost, m, rate) == Fired(a, initialCost, m, rate) + Fired(b, initialCost, m, rate)
  {
    if a != [] {
      assert (a + b)[1..] == a[1..] + b;
      FiredAppend(a[1..], b, initialCost, m, rate);
    } else {
      assert a + b == b;
    }
  }

  /** A message is in the filtered list exactly when some listed rule fires and yields it. */
  lemma {:induction false} FiredMember(rules: seq<Rule>, initialCost: real, m: Metrics, rate: real, rec: Recommendation)
    ensures rec in Fired(rules, initialCost, m, rate)
        <==> exists rule :: rule in rules && Fires(rule, m, rate) && rec == Message(rule, initialCost, m, rate)
  {
    if rules != [] {
      FiredMember(rules[1..], initialCost, m, rate, rec);
      assert forall rule :: rule in rules <==> rule == rules[0] || rule in rules[1..];
    }
  }

  lemma {:induction false} FiredLength(rules: seq<Rule>, initialCost: real, m: Metrics, rate: real)
    ensures |Fired(rules, initialCost, m, rate)| <= |rules|
    ensures |Fired(rules, initialCost, m, rate)| == 0 <==> forall rule :: rule in rules ==> !Fires(rule, m, rate)
  {
    if rules != [] {
      FiredLength(rules[1..], initialCost, m, rate);
      assert forall rule :: rule in rules <==> rule == rules[0] || rule in rules[1..];
    }
  }

  /** Rules listed in strictly increasing rank yield messages in strictly increasing rank. */
  lemma {:induction false} FiredOrdered(rules: seq<Rule>, initialCost: real, m: Metrics, rate: real)
    requires forall i, j :: 0 <= i < j < |rules| ==> RuleRank(rules[i]) < RuleRank(rules[j])
    ensures Ranked(Fired(rules, initialCost, m, rate))
  {
    if rules != [] {
      var rest := Fired(rules[1..], initialCost, m, rate);
      FiredOrdered(rules[1..], initialCost, m, rate);
      forall k | 0 <= k < |rest|
        ensures RuleRank(rules[0]) < Rank(rest[k])
      {
        FiredMember(rules[1..], initialCost, m, rate, rest[k]);
        var rule :| rule in rules[1..] && Fires(rule, m, rate) && rest[k] == Message(rule, initialCost, m, rate);
      }
    }
  }

  // Properties of the guidance list

  /** The list is never empty and holds at most one message per rule. */
  lemma RecommendationsLength(initialCost: real, m: Metrics, rate: real)
    ensures 1 <= |Recommendations(initialCost, m, rate)| <= 3
  {
    FiredLength(Rules, initialCost, m, rate);
  }

  /** Messages appear in the order NPV, IRR, ARR, each at most once. */
  lemma RecommendationsOrdered(initialCost: real, m: Metrics, rate: real)
    ensures Ranked(Recommendations(initialCost, m, rate))
  {
    FiredOrdered(Rules, initialCost, m, rate);
  }

  /**
   A rule's message, with exactly the amount the source computes, is in the list
   exactly when the rule's criterion fails; no other message of that rule is.
   */
  lemma RuleMessageIffFires(initialCost: real, m: Metrics, rate: real, rule: Rule)
    ensures var recs := Recommendations(initialCost, m, rate);
            Message(rule, initialCost, m, rate) in recs <==> Fires(rule, m, rate)
    ensures forall rec :: rec in Recommendations(initialCost, m, rate) && Rank(rec) == RuleRank(rule)
              ==> rec == Message(rule, initialCost, m, rate)
  {
    var recs := Recommendations(initialCost, m, rate);
    assert rule in Rules;
    FiredMember(Rules, initialCost, m, rate, Message(rule, initialCost, m, rate));
    forall rec | rec in recs && Rank(rec) == RuleRank(rule)
      ensures rec == Message(rule, initialCost, m, rate)
    {
      FiredMember(Rules, initialCost, m, rate, rec);
    }
  }

  /** The affirmative message appears exactly when no rule fires, and then it is the only entry. */
  lemma AffirmativeIffNoRuleFires(initialCost: real, m: Metrics, rate: real)
    ensures var recs := Recommendations(initialCost, m, rate);
            Affirmative in recs <==> !(m.npv <= 0.0 || m.irr <= rate || m.arr <= rate)
    ensures Affirmative in Recommendations(initialCost, m, rate) ==> Recommendations(initialCost, m, rate) == [Affirmative]
  {
    FiredLength(Rules, initialCost, m, rate);
    FiredMember(Rules, initialCost, m, rate, Affirmative);
    assert NpvRule in Rules && IrrRule in Rules && ArrRule in Rules;
  }

  /** The decision of line 64 is "Good to invest" exactly when the guidance is the affirmative message alone. */
  lemma DecisionMatchesRecommendations(initialCost: real, m: Metrics, rate: real)
    ensures Decide(m, rate) == GoodToInvest <==> Recommendations(initialCost, m, rate) == [Affirmative]
  {
    AffirmativeIffNoRuleFires(initialCost, m, rate);
  }

  /** The NPV shortfall quoted is never negative. */
  lemma NpvShortfallNonNegative(initialCost: real, m: Metrics, rate: real)
    ensures forall rec :: rec in Recommendations(initialCost, m, rate) && rec.NpvShortfall? ==> rec.shortfall >= 0.0
  {
    forall rec | rec in Recommendations(initialCost, m, rate) && rec.NpvShortfall?
      ensures rec.shortfall >= 0.0
    {
      RuleMessageIffFires(initialCost, m, rate, NpvRule);
    }
  }

  /** The IRR increase quoted is strictly positive, and adding it lifts the IRR above the target. */
  lemma IrrIncreasePositive(initialCost: real, m: Metrics, rate: real)
    ensures forall rec :: rec in Recommendations(initialCost, m, rate) && rec.IrrIncrease? ==>
              rec.increase > 0.0 && m.irr + rec.increase > rate
  {
    forall rec | rec in Recommendations(initialCost, m, rate) && rec.IrrIncrease?
      ensures rec.increase > 0.0 && m.irr + rec.increase > rate
    {
      RuleMessageIffFires(initialCost, m, rate, IrrRule);
    }
  }

  /** The ARR amount quoted has the sign of the initial cost; it is positive for a positive cost. */
  lemma ArrIncreaseSign(initialCost: real, m: Metrics, rate: real)
    ensures forall rec :: rec in Recommendations(initialCost, m, rate) && rec.ArrIncrease? ==>
              (initialCost > 0.0 ==> rec.amount > 0.0) && (initialCost < 0.0 ==> rec.amount < 0.0)
  {
    forall rec | rec in Recommendations(initialCost, m, rate) && rec.ArrIncrease?
      ensures (initialCost > 0.0 ==> rec.amount > 0.0) && (initialCost < 0.0 ==> rec.amount < 0.0)
    {
      RuleMessageIffFires(initialCost, m, rate, ArrRule);
      assert m.arr <= rate;
      assert rate - m.arr + Buffer > 0.0;
      MulSign(rate - m.arr + Buffer, initialCost / 2.0);
    }
  }

  /** A positive factor keeps the sign of the other factor. */
  lemma MulSign(a: real, b: real)
    requires a > 0.0
    ensures b > 0.0 ==> a * b > 0.0
    ensures b < 0.0 ==> a * b < 0.0
  {
  }

}

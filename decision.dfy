/** The decision step that follows inference: the churn probability is cut
    into a risk tier, and the tier picks the retention action. */
module Decision {

  /** The three risk tiers, ordered by `Rank`. */
  datatype RiskTier = Low | Medium | High {

    /** The string the application stores and compares. */
    function Name(): string {
      match this
      case Low => "Low"
      case Medium => "Medium"
      case High => "High"
    }

    /** Position in the order Low < Medium < High. */
    function Rank(): nat {
      match this
      case Low => 0
      case Medium => 1
      case High => 2
    }
  }

  /** The lower bound of the Medium band (0.4, exactly 2/5). */
  const MediumFrom: real := 0.4
  /** The lower bound of the High band (0.7, exactly 7/10). */
  const HighFrom: real := 0.7

  /** `"Low" if prob < 0.4 else "Medium" if prob < 0.7 else "High"`: each tier
      is a half-open band whose lower bound belongs to it. */
  function Tier(prob: real): (t: RiskTier)
    ensures t == Low <==> prob < MediumFrom
    ensures t == Medium <==> MediumFrom <= prob < HighFrom
    ensures t == High <==> HighFrom <= prob
  {
    if prob < MediumFrom then Low else if prob < HighFrom then Medium else High
  }

  /** The retention action for a tier. The choice compares the tier's name
      with "Low" and "Medium", as the application does, and gives the High
      action to every other name. */
  function Recommendation(tier: RiskTier): (rec: seq<string>)
    ensures |rec| == 1
  {
    if tier.Name() == "Low" then ["✅ Send monthly loyalty points"]
    else if tier.Name() == "Medium" then ["🎁 Offer $5 cashback for next renewal"]
    else ["📞 Immediate support call + plan upgrade offer"]
  }
}

/** Properties of the tiering and of the recommendation choice. */
module DecisionFacts {
  import opened Decision

  /** Distinct tiers have distinct names, so comparing names compares tiers. */
  lemma NameInjective(a: RiskTier, b: RiskTier)
    ensures a.Name() == b.Name() <==> a == b
  {
  }

  /** The boundaries belong to the higher tier; points just below stay in the lower one. */
  lemma TierBoundaries()
    ensures Tier(0.4) == Medium && Tier(0.7) == High
    ensures Tier(0.399999) == Low && Tier(0.699999) == Medium
    ensures Tier(0.0) == Low && Tier(1.0) == High
  {
  }

  /** A higher probability never gives a lower tier. */
  lemma TierMonotone(p: real, q: real)
    requires p <= q
    ensures Tier(p).Rank() <= Tier(q).Rank()
  {
  }

  /** Every tier is reached by some probability in [0, 1]. */
  lemma TierOnto(t: RiskTier)
    ensures exists p: real :: 0.0 <= p <= 1.0 && Tier(p) == t
  {
    var p := match t case Low => 0.0 case Medium => MediumFrom case High => HighFrom;
    assert Tier(p) == t;
  }

  /** The action shown for a probability, band by band. */
  lemma ActionOfProbability(p: real)
    ensures Recommendation(Tier(p)) == ["✅ Send monthly loyalty points"] <==> p < 0.4
    ensures Recommendation(Tier(p)) == ["🎁 Offer $5 cashback for next renewal"] <==> 0.4 <= p < 0.7
    ensures Recommendation(Tier(p)) == ["📞 Immediate support call + plan upgrade offer"] <==> 0.7 <= p
  {
  }

  /** The three tiers get three different actions, so the action tells the tier. */
  lemma RecommendationInjective(a: RiskTier, b: RiskTier)
    ensures Recommendation(a) == Recommendation(b) <==> a == b
  {
  }

  /** The High action is reached by the High tier only, even though it sits
      in the final `else`. */
  lemma HighActionOnlyForHigh(t: RiskTier)
    ensures Recommendation(t) == ["📞 Immediate support call + plan upgrade offer"] <==> t == High
  {
  }
}

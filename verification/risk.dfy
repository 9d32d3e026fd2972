/** The risk-tier decision table `get_risk_level` (main.py:77-90): a predicted
    label and an optional confidence become one of five fixed
    (tier, message) pairs. */
module RiskLevel {
  import opened Wrappers

  /** The five tiers, from the most to the least severe. */
  datatype Tier = VeryHigh | High | Moderate | LowModerate | Low {

    /** The tier's display name, as returned in `risk_level`. */
    function Name(): string {
      match this
      case VeryHigh => "Çok Yüksek Risk"
      case High => "Yüksek Risk"
      case Moderate => "Orta Risk"
      case LowModerate => "Düşük-Orta Risk"
      case Low => "Düşük Risk"
    }

    /** The advisory text that always accompanies the tier. */
    function Message(): string {
      match this
      case VeryHigh => "Acil pediatrik immünoloji konsültasyonu gereklidir!"
      case High => "Pediatrik immünoloji konsültasyonu önerilir."
      case Moderate => "Takip ve ek testler önerilir."
      case LowModerate => "Rutin takip ve gerekirse kontrol önerilir."
      case Low => "Rutin takip önerilir."
    }

    function Pair(): (string, string) {
      (Name(), Message())
    }

    /** Severity, 4 for the most severe tier and 0 for the least. */
    function Severity(): nat {
      match this
      case VeryHigh => 4
      case High => 3
      case Moderate => 2
      case LowModerate => 1
      case Low => 0
    }

    /** The three tiers reserved for a positive prediction. */
    predicate Positive() {
      VeryHigh? || High? || Moderate?
    }
  }

  /** Python truthiness of an `Optional[float]`: `None` and `0.0` are false. */
  predicate Truthy(p: Option<real>) {
    p.Some? && p.value != 0.0
  }

  /** The decision table as five disjoint regions of (label, confidence),
      written independently of the cascade of guards in the source. */
  predicate InRegion(t: Tier, prediction: int, probability: Option<real>) {
    match t
    case VeryHigh => prediction == 1 && Truthy(probability) && probability.value >= 0.8
    case High => prediction == 1 && Truthy(probability) && 0.6 <= probability.value < 0.8
    case Moderate => prediction == 1 && (!Truthy(probability) || probability.value < 0.6)
    case Low => prediction != 1 && Truthy(probability) && probability.value <= 0.2
    case LowModerate => prediction != 1 && (!Truthy(probability) || probability.value > 0.2)
  }

  /** `get_risk_level`: the pair for the one tier whose region holds. */
  function GetRiskLevel(prediction: int, probability: Option<real>): (r: (string, string))
    ensures exists t: Tier :: r == t.Pair() && InRegion(t, prediction, probability)
  {
    if prediction == 1 then
      if Truthy(probability) && probability.value >= 0.8 then VeryHigh.Pair()
      else if Truthy(probability) && probability.value >= 0.6 then High.Pair()
      else Moderate.Pair()
    else
      if Truthy(probability) && probability.value <= 0.2 then Low.Pair()
      else LowModerate.Pair()
  }

  /** Distinct tiers have distinct names, so a name identifies its tier and
      with it the message. */
  lemma NamesDistinct(t: Tier, u: Tier)
    ensures t.Name() == u.Name() <==> t == u
  {
  }

  /** The regions partition every input: exactly one tier applies. */
  lemma RegionsPartition(prediction: int, probability: Option<real>)
    ensures exists t: Tier :: InRegion(t, prediction, probability)
    ensures forall t: Tier, u: Tier ::
      InRegion(t, prediction, probability) && InRegion(u, prediction, probability) ==> t == u
  {
    var truthy := Truthy(probability);
    if prediction == 1 {
      if truthy && probability.value >= 0.8 {
        assert InRegion(VeryHigh, prediction, probability);
      } else if truthy && probability.value >= 0.6 {
        assert InRegion(High, prediction, probability);
      } else {
        assert InRegion(Moderate, prediction, probability);
      }
    } else if truthy && probability.value <= 0.2 {
      assert InRegion(Low, prediction, probability);
    } else {
      assert InRegion(LowModerate, prediction, probability);
    }
  }

  /** Both directions: the result is a tier's pair exactly when the input lies
      in that tier's region. */
  lemma GetRiskLevelCharacterised(prediction: int, probability: Option<real>, t: Tier)
    ensures GetRiskLevel(prediction, probability) == t.Pair() <==> InRegion(t, prediction, probability)
  {
  }

  /** The label alone decides whether one of the three positive tiers is
      chosen: a tier name tells whether the classifier said `1`. */
  lemma PositiveTierIffLabelOne(prediction: int, probability: Option<real>, t: Tier)
    requires GetRiskLevel(prediction, probability) == t.Pair()
    ensures t.Positive() <==> prediction == 1
  {
  }

  /** An absent confidence and a confidence of exactly `0.0` are treated alike,
      and neither reaches the two most severe tiers nor the low tier. */
  lemma FalsyConfidenceIsCoarse(prediction: int, probability: Option<real>)
    requires !Truthy(probability)
    ensures GetRiskLevel(prediction, probability) == GetRiskLevel(prediction, None)
    ensures GetRiskLevel(prediction, None) == GetRiskLevel(prediction, Some(0.0))
    ensures prediction == 1 ==> GetRiskLevel(prediction, probability) == Moderate.Pair()
    ensures prediction != 1 ==> GetRiskLevel(prediction, probability) == LowModerate.Pair()
  {
  }

  /** Every label other than `1` (not only `0`) takes the negative branch. */
  lemma OtherLabelsActAsZero(prediction: int, probability: Option<real>)
    requires prediction != 1
    ensures GetRiskLevel(prediction, probability) == GetRiskLevel(0, probability)
  {
  }

  /** The severity of the chosen tier never falls as a present, nonzero
      confidence rises, for either label. */
  lemma SeverityMonotone(prediction: int, p: real, q: real, t: Tier, u: Tier)
    requires p != 0.0 && q != 0.0 && p <= q
    requires GetRiskLevel(prediction, Some(p)) == t.Pair()
    requires GetRiskLevel(prediction, Some(q)) == u.Pair()
    ensures t.Severity() <= u.Severity()
  {
  }
}

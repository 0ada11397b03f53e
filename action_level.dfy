/** The three action levels `calculate_ergonomic_risk` reports for an
    overall score. */
module ActionLevels {
  datatype ActionLevel = Acceptable | FurtherInvestigation | InvestigateAndImplementChange {
    /** The string the source returns for the level. */
    function Label(): string {
      match this
      case Acceptable => "Acceptable"
      case FurtherInvestigation => "Further investigation and change soon"
      case InvestigateAndImplementChange => "Investigate and implement change"
    }

    /** Urgency of the level, from 0 (no action) to 2. */
    function Rank(): nat {
      match this
      case Acceptable => 0
      case FurtherInvestigation => 1
      case InvestigateAndImplementChange => 2
    }
  }

  /** The `if`/`elif`/`else` chain on the overall score: 7 and above asks
      for change, 5 and 6 for further investigation, the rest is acceptable. */
  function ActionLevelFor(score: int): (level: ActionLevel)
    ensures level == InvestigateAndImplementChange <==> 7 <= score
    ensures level == FurtherInvestigation <==> 5 <= score < 7
    ensures level == Acceptable <==> score < 5
  {
    if score >= 7 then InvestigateAndImplementChange
    else if score >= 5 then FurtherInvestigation
    else Acceptable
  }

  /** A higher score never yields a less urgent level. */
  lemma ActionLevelMonotone(s1: int, s2: int)
    requires s1 <= s2
    ensures ActionLevelFor(s1).Rank() <= ActionLevelFor(s2).Rank()
  {
  }

  /** Distinct levels carry distinct labels, so the returned string
      identifies the level. */
  lemma LabelInjective(a: ActionLevel, b: ActionLevel)
    requires a.Label() == b.Label()
    ensures a == b
  {
    assert |"Acceptable"| != |"Further investigation and change soon"|;
    assert |"Acceptable"| != |"Investigate and implement change"|;
    assert |"Further investigation and change soon"| != |"Investigate and implement change"|;
  }
}

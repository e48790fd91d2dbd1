/** `getRiskLevel` of frontend/src/utils/utils.js. */
module Utils {
  import opened Wrappers
  import opened RiskBands

  datatype RiskLabel = RiskLabel(level: string, color: string)

  /** The level text and colour class of a score. */
  function GetRiskLevel(score: real): (r: RiskLabel)
    ensures LevelOfName(r.level) == Some(Band(score))
    ensures r.color == TextColor(Band(score))
  {
    if score >= 81.0 then RiskLabel("Critical", "text-red-600")
    else if score >= 61.0 then RiskLabel("High", "text-orange-600")
    else if score >= 31.0 then RiskLabel("Medium", "text-yellow-600")
    else RiskLabel("Low", "text-green-600")
  }

  /** The level shown never drops as the score rises. */
  lemma GetRiskLevelMonotone(s1: real, s2: real)
    requires s1 <= s2
    ensures Rank(LevelOfName(GetRiskLevel(s1).level).value) <= Rank(LevelOfName(GetRiskLevel(s2).level).value)
  {
    BandMonotone(s1, s2);
  }
}

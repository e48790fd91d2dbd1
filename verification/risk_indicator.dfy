/** The score bar of frontend/src/components/RiskIndicator.jsx: a gradient
    colour and a level label, both from the score (0 when not given). */
module RiskIndicator {
  import opened Wrappers
  import opened RiskBands
  import Utils

  /** The score used when the `score` prop is not given. */
  const DefaultScore: real := 0.0

  /** `getRiskColor`: the bar's gradient class. */
  function GetRiskColor(score: real): (c: string)
    ensures LevelOfGradient(c) == Some(Band(score))
  {
    if score >= 81.0 then "bg-gradient-to-r from-red-500 to-red-600"
    else if score >= 61.0 then "bg-gradient-to-r from-orange-500 to-orange-600"
    else if score >= 31.0 then "bg-gradient-to-r from-yellow-500 to-yellow-600"
    else "bg-gradient-to-r from-green-500 to-green-600"
  }

  /** The level a bar gradient stands for. */
  function LevelOfGradient(c: string): Option<Level>
  {
    if c == "bg-gradient-to-r from-red-500 to-red-600" then Some(Critical)
    else if c == "bg-gradient-to-r from-orange-500 to-orange-600" then Some(High)
    else if c == "bg-gradient-to-r from-yellow-500 to-yellow-600" then Some(Medium)
    else if c == "bg-gradient-to-r from-green-500 to-green-600" then Some(Low)
    else None
  }

  datatype RiskLabel = RiskLabel(level: string, color: string)

  /** `getRiskLevel`: the label text and its colour class. */
  function GetRiskLevel(score: real): (r: RiskLabel)
    ensures LevelOfName(r.level) == Some(Band(score))
    ensures r.color == TextColor(Band(score))
  {
    if score >= 81.0 then RiskLabel("Critical", "text-red-600")
    else if score >= 61.0 then RiskLabel("High", "text-orange-600")
    else if score >= 31.0 then RiskLabel("Medium", "text-yellow-600")
    else RiskLabel("Low", "text-green-600")
  }

  datatype IndicatorView = IndicatorView(barColor: string, width: real, risk: RiskLabel)

  /** What the indicator draws for the `score` prop (`None` when absent). */
  function Indicator(score: Option<real>): (v: IndicatorView)
    ensures LevelOfName(v.risk.level) == Some(Band(score.GetOr(DefaultScore)))
    ensures LevelOfGradient(v.barColor) == Some(Band(score.GetOr(DefaultScore)))
    ensures v.risk.color == TextColor(Band(score.GetOr(DefaultScore)))
    ensures v.width == score.GetOr(DefaultScore)
  {
    var s := score.GetOr(DefaultScore);
    ShowsBand(s);
    IndicatorView(GetRiskColor(s), s, GetRiskLevel(s))
  }

  /** The gradient, the label text and its colour all name the band of the score. */
  lemma ShowsBand(s: real)
    ensures LevelOfGradient(GetRiskColor(s)) == Some(Band(s))
    ensures LevelOfName(GetRiskLevel(s).level) == Some(Band(s))
    ensures GetRiskLevel(s).color == TextColor(Band(s))
  {
    var l := Band(s);
    assert GetRiskLevel(s) == RiskLabel(LevelName(l), TextColor(l));
    assert LevelOfName(LevelName(l)) == Some(l);
  }

  /** Without a score the indicator shows an empty, Low bar. */
  lemma DefaultIsLow()
    ensures Indicator(None).risk.level == "Low"
    ensures Indicator(None).width == 0.0
  {
  }

  /** The level text agrees with the shared band and with utils.js. */
  lemma AgreesWithUtils(score: real)
    ensures GetRiskLevel(score).level == LevelName(Band(score))
    ensures GetRiskLevel(score).level == Utils.GetRiskLevel(score).level
    ensures GetRiskLevel(score).color == Utils.GetRiskLevel(score).color
  {
  }

  /** The bar colour and the label always name the same band, and that
      band never drops as the score rises. */
  lemma ColorMatchesLevelMonotone(s1: real, s2: real)
    requires s1 <= s2
    ensures LevelOfGradient(GetRiskColor(s1)) == LevelOfName(GetRiskLevel(s1).level)
    ensures Rank(LevelOfGradient(GetRiskColor(s1)).value) <= Rank(LevelOfGradient(GetRiskColor(s2)).value)
  {
    ShowsBand(s1);
    ShowsBand(s2);
    BandMonotone(s1, s2);
  }
}

/** The risk band that three components compute from an anomaly score,
    each with its own copy of the same if-chain (frontend/src/utils/utils.js,
    frontend/src/components/AnomalyList.jsx,
    frontend/src/components/RiskIndicator.jsx). It is defined once here;
    each copy is modelled in its own module and proved to agree with it. */
module RiskBands {
  import opened Wrappers

  datatype Level = Low | Medium | High | Critical

  /** The order of the levels, lowest first. */
  function Rank(l: Level): nat
  {
    match l
    case Low => 0
    case Medium => 1
    case High => 2
    case Critical => 3
  }

  /** The band of a score: 81, 61 and 31 are inclusive lower bounds. */
  function Band(score: real): (l: Level)
    ensures l == Critical <==> score >= 81.0
    ensures l == High <==> 61.0 <= score < 81.0
    ensures l == Medium <==> 31.0 <= score < 61.0
    ensures l == Low <==> score < 31.0
  {
    if score >= 81.0 then Critical
    else if score >= 61.0 then High
    else if score >= 31.0 then Medium
    else Low
  }

  /** The `level` text every copy shows. */
  function LevelName(l: Level): string
  {
    match l
    case Critical => "Critical"
    case High => "High"
    case Medium => "Medium"
    case Low => "Low"
  }

  /** The level a shown text stands for. */
  function LevelOfName(name: string): (r: Option<Level>)
    ensures forall l :: r == Some(l) <==> LevelName(l) == name
  {
    if name == "Critical" then Some(Critical)
    else if name == "High" then Some(High)
    else if name == "Medium" then Some(Medium)
    else if name == "Low" then Some(Low)
    else None
  }

  /** A higher score never gets a lower level. */
  lemma BandMonotone(s1: real, s2: real)
    requires s1 <= s2
    ensures Rank(Band(s1)) <= Rank(Band(s2))
  {
  }

  /** The text colour class that goes with a level in every copy. */
  function TextColor(l: Level): string
  {
    match l
    case Critical => "text-red-600"
    case High => "text-orange-600"
    case Medium => "text-yellow-600"
    case Low => "text-green-600"
  }
}

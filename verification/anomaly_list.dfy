/** The anomaly cards of frontend/src/components/AnomalyList.jsx: the risk
    classification of each card, its score bar, the selection test and the
    status change that is sent to the server. */
module AnomalyList {
  import opened Wrappers
  import opened Seqs
  import opened RiskBands
  import Utils

  /** An anomaly record as the backend delivers it. `detectionMethod` is
      `None` when the field is missing. */
  datatype Anomaly = Anomaly(
    id: int,
    transactionId: string,
    fromAccount: string,
    toAccount: string,
    amount: real,
    anomalyScore: real,
    status: string,
    detectionMethod: Option<string>)

  datatype RiskStyle = RiskStyle(level: string, color: string, bgColor: string, borderColor: string)

  /** `getRiskLevel` of the card: the level text and three colour classes. */
  function GetRiskLevel(score: real): (r: RiskStyle)
    ensures LevelOfName(r.level) == Some(Band(score))
    ensures r.color == TextColor(Band(score))
  {
    if score >= 81.0 then RiskStyle("Critical", "text-red-600", "bg-red-50", "border-red-200")
    else if score >= 61.0 then RiskStyle("High", "text-orange-600", "bg-orange-50", "border-orange-200")
    else if score >= 31.0 then RiskStyle("Medium", "text-yellow-600", "bg-yellow-50", "border-yellow-200")
    else RiskStyle("Low", "text-green-600", "bg-green-50", "border-green-200")
  }

  /** The card's level is the shared band, in the same text and colour as
      utils.js, and it never drops as the score rises. */
  lemma GetRiskLevelAgrees(s1: real, s2: real)
    requires s1 <= s2
    ensures LevelOfName(GetRiskLevel(s1).level) == Some(Band(s1))
    ensures GetRiskLevel(s1).level == Utils.GetRiskLevel(s1).level
    ensures GetRiskLevel(s1).color == Utils.GetRiskLevel(s1).color
    ensures Rank(LevelOfName(GetRiskLevel(s1).level).value) <= Rank(LevelOfName(GetRiskLevel(s2).level).value)
  {
    BandMonotone(s1, s2);
  }

  /** The gradient of the score bar. */
  function ScoreBarGradient(score: real): (g: string)
    ensures LevelOfBarGradient(g) == Some(Band(score))
  {
    if score >= 81.0 then "linear-gradient(90deg, #ef4444, #dc2626)"
    else if score >= 61.0 then "linear-gradient(90deg, #f59e0b, #d97706)"
    else if score >= 31.0 then "linear-gradient(90deg, #eab308, #ca8a04)"
    else "linear-gradient(90deg, #10b981, #059669)"
  }

  /** The level a score-bar gradient stands for. */
  function LevelOfBarGradient(g: string): Option<Level>
  {
    if g == "linear-gradient(90deg, #ef4444, #dc2626)" then Some(Critical)
    else if g == "linear-gradient(90deg, #f59e0b, #d97706)" then Some(High)
    else if g == "linear-gradient(90deg, #eab308, #ca8a04)" then Some(Medium)
    else if g == "linear-gradient(90deg, #10b981, #059669)" then Some(Low)
    else None
  }

  /** The bar gradient and the level text always name the same band. */
  lemma BarMatchesLevel(score: real)
    ensures LevelOfBarGradient(ScoreBarGradient(score)) == Some(Band(score))
    ensures LevelOfBarGradient(ScoreBarGradient(score)) == LevelOfName(GetRiskLevel(score).level)
  {
  }

  /** `selectedAnomaly?.id === anomaly.id`. */
  predicate IsSelected(selected: Option<Anomaly>, a: Anomaly)
  {
    selected.Some? && selected.value.id == a.id
  }

  predicate DistinctIds(list: seq<Anomaly>)
  {
    forall i, j :: 0 <= i < j < |list| ==> list[i].id != list[j].id
  }

  /** Nothing is highlighted without a selection; with distinct ids and a
      selection taken from the list, exactly that entry is highlighted. */
  lemma SelectionHighlightsOne(list: seq<Anomaly>, selected: Option<Anomaly>, k: nat)
    requires DistinctIds(list) && k < |list| && selected == Some(list[k])
    ensures forall i :: 0 <= i < |list| ==> (IsSelected(selected, list[i]) <==> i == k)
    ensures forall a :: !IsSelected(None, a)
  {
  }

  /** `anomalies.map((a) => a.id === id ? { ...a, status } : a)`. */
  function SetStatusById(list: seq<Anomaly>, id: int, status: string): (r: seq<Anomaly>)
    ensures |r| == |list|
    ensures forall i :: 0 <= i < |list| ==> list[i].id == id ==> r[i].status == status
    ensures forall i :: 0 <= i < |list| ==> list[i].id != id ==> r[i] == list[i]
    ensures forall i :: 0 <= i < |list| ==> r[i].(status := list[i].status) == list[i]
  {
    seq(|list|, i requires 0 <= i < |list| => if list[i].id == id then list[i].(status := status) else list[i])
  }

  /** A second identical change does nothing, and changes for different
      ids commute. */
  lemma SetStatusByIdIdempotentCommutes(list: seq<Anomaly>, id1: int, s1: string, id2: int, s2: string)
    ensures SetStatusById(SetStatusById(list, id1, s1), id1, s1) == SetStatusById(list, id1, s1)
    ensures id1 != id2 ==>
      SetStatusById(SetStatusById(list, id1, s1), id2, s2) == SetStatusById(SetStatusById(list, id2, s2), id1, s1)
  {
  }

  /** `handleStatusChange`: the list after the change request for `anomaly`
      settles. The list is replaced only when the server accepts the change
      and the owner passed a `setAnomalies`; otherwise the error (the
      rejection, or the call of the missing setter) is caught and logged. */
  function AfterStatusChange(list: seq<Anomaly>, anomaly: Anomaly, newStatus: string,
                             accepted: bool, hasSetter: bool): (r: seq<Anomaly>)
    ensures r != list ==> accepted && hasSetter
    ensures accepted && hasSetter ==> r == SetStatusById(list, anomaly.id, newStatus)
    ensures |r| == |list|
  {
    if accepted && hasSetter then SetStatusById(list, anomaly.id, newStatus) else list
  }
}

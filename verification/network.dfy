/** The view model of frontend/src/components/NetworkVisualization.jsx:
    statistics over the raw response, the node and edge lists it draws
    (normalisation, search, category filter, final checks, colours), the
    connection analysis of a selected node, and the zoom state. */
module NetworkVisualization {
  import opened Wrappers
  import opened Seqs
  import opened Text
  import opened Js

  // ---------------------------------------------------------------------
  // Raw data

  /** An element of a `nodes` or `edges` array: an object, or something
      without properties (`null`, a number, a string). */
  datatype Item<T> = NotObject | Obj(fields: T)

  /** The properties of a node object that the view reads; `title` is the
      `label` property and `kind` the `type` property. The same record
      holds normalised nodes. */
  datatype NodeRecord = NodeRecord(
    id: JsValue, title: JsValue, kind: JsValue,
    balance: JsValue, riskScore: JsValue, isSuspicious: JsValue)

  /** The properties of an edge object that the view reads. */
  datatype EdgeRecord = EdgeRecord(
    source: JsValue, sourceId: JsValue, from: JsValue,
    target: JsValue, targetId: JsValue, to: JsValue,
    width: JsValue, isAnomaly: JsValue, anomalyScore: JsValue,
    transactionType: JsValue, amount: JsValue)

  /** The decoded response; a field that is not an array is `None`. */
  datatype NetworkData = NetworkData(nodes: Option<seq<Item<NodeRecord>>>, edges: Option<seq<Item<EdgeRecord>>>)

  /** `Array.isArray(a) ? a : []`. */
  function ArrayOrEmpty<T>(a: Option<seq<T>>): seq<T>
  {
    if a.Some? then a.value else []
  }

  // ---------------------------------------------------------------------
  // Statistics

  datatype NetworkStats = NetworkStats(
    totalNodes: nat, totalEdges: nat, suspiciousNodes: nat, anomalousEdges: nat,
    highRiskNodes: Option<nat>)

  /** `node?.is_suspicious`. */
  predicate ItemSuspicious(i: Item<NodeRecord>) { i.Obj? && Truthy(i.fields.isSuspicious) }

  /** `(node?.risk_score || 0) > 80`. */
  predicate ItemHighRisk(i: Item<NodeRecord>) { i.Obj? && GreaterThan(Or(i.fields.riskScore, Num(0.0)), 80.0) }

  /** `edge?.is_anomaly`. */
  predicate ItemAnomalous(i: Item<EdgeRecord>) { i.Obj? && Truthy(i.fields.isAnomaly) }

  /** `networkStats`: all zero without a response (and no high-risk count);
      otherwise counts over the arrays, a non-array counting as empty. */
  function Stats(data: Option<NetworkData>): (s: NetworkStats)
    ensures data.None? ==> s == NetworkStats(0, 0, 0, 0, None)
    ensures data.Some? ==> (s.highRiskNodes.Some?
      && s.totalNodes == |ArrayOrEmpty(data.value.nodes)|
      && s.totalEdges == |ArrayOrEmpty(data.value.edges)|)
    ensures s.suspiciousNodes <= s.totalNodes && s.anomalousEdges <= s.totalEdges
    ensures s.highRiskNodes.Some? ==> s.highRiskNodes.value <= s.totalNodes
  {
    if data.None? then NetworkStats(0, 0, 0, 0, None)
    else
      var nodes := ArrayOrEmpty(data.value.nodes);
      var edges := ArrayOrEmpty(data.value.edges);
      NetworkStats(|nodes|, |edges|,
        |Filter(nodes, ItemSuspicious)|, |Filter(edges, ItemAnomalous)|,
        Some(|Filter(nodes, ItemHighRisk)|))
  }

  /** The legend's "Normal" count as written: total minus suspicious minus
      high-risk, which subtracts twice a node that is both. */
  function LegendNormalAsWritten(s: NetworkStats): (r: int)
    requires s.highRiskNodes.Some?
    ensures r <= s.totalNodes
    ensures r < 0 <==> s.suspiciousNodes + s.highRiskNodes.value > s.totalNodes
  {
    s.totalNodes - s.suspiciousNodes - s.highRiskNodes.value
  }

  predicate ItemNormal(i: Item<NodeRecord>) { !ItemSuspicious(i) && !ItemHighRisk(i) }

  predicate ItemBoth(i: Item<NodeRecord>) { ItemSuspicious(i) && ItemHighRisk(i) }

  /** The number of nodes that are neither suspicious nor high-risk. */
  function LegendNormal(data: NetworkData): nat
  {
    |Filter(ArrayOrEmpty(data.nodes), ItemNormal)|
  }

  lemma {:induction false} InclusionExclusion(nodes: seq<Item<NodeRecord>>)
    ensures |Filter(nodes, ItemNormal)| + |Filter(nodes, ItemSuspicious)| + |Filter(nodes, ItemHighRisk)|
      == |nodes| + |Filter(nodes, ItemBoth)|
    decreases |nodes|
  {
    if nodes != [] {
      InclusionExclusion(nodes[1..]);
    }
  }

  /** The written count is the normal count less the nodes that are both
      suspicious and high-risk: the two agree exactly when there are none,
      and the normal count is never negative. */
  lemma LegendNormalCorrected(data: NetworkData)
    ensures LegendNormalAsWritten(Stats(Some(data)))
      == LegendNormal(data) - |Filter(ArrayOrEmpty(data.nodes), ItemBoth)|
    ensures LegendNormal(data) <= Stats(Some(data)).totalNodes
  {
    InclusionExclusion(ArrayOrEmpty(data.nodes));
  }

  /** One node that is suspicious with risk 90 makes the written count -1. */
  lemma LegendNormalNegative()
    ensures var data := NetworkData(Some([Obj(NodeRecord(Str("a"), Undefined, Undefined, Undefined, Num(90.0), Bool(true)))]), Some([]));
      LegendNormalAsWritten(Stats(Some(data))) == -1 && LegendNormal(data) == 0
  {
    var n: Item<NodeRecord> := Obj(NodeRecord(Str("a"), Undefined, Undefined, Undefined, Num(90.0), Bool(true)));
    assert Filter([n], ItemSuspicious) == [n];
    assert Filter([n], ItemHighRisk) == [n];
    assert Filter([n], ItemNormal) == [];
  }

  // ---------------------------------------------------------------------
  // graphData and filteredData

  datatype Graph = Graph(nodes: seq<NodeRecord>, edges: seq<EdgeRecord>)

  /** `node && typeof node === "object" && node.id`. */
  predicate NodeUsable(i: Item<NodeRecord>) { i.Obj? && Truthy(i.fields.id) }

  /** `(edge.source || edge.from) && (edge.target || edge.to)`. */
  predicate EndpointsPresent(e: EdgeRecord) { Truthy(Or(e.source, e.from)) && Truthy(Or(e.target, e.to)) }

  predicate EdgeUsable(i: Item<EdgeRecord>) { i.Obj? && EndpointsPresent(i.fields) }

  /** The usable node objects of an array, in order: element by element
      the fields of the usable items, and every usable item's fields. */
  function UsableNodes(items: seq<Item<NodeRecord>>): (r: seq<NodeRecord>)
    ensures |r| == |Filter(items, NodeUsable)| <= |items|
    ensures forall i :: 0 <= i < |r| ==> Obj(r[i]) == Filter(items, NodeUsable)[i]
    ensures forall n :: n in r ==> Truthy(n.id) && Obj(n) in items
    ensures forall i :: 0 <= i < |items| && NodeUsable(items[i]) ==> items[i].fields in r
    decreases |items|
  {
    if items == [] then []
    else
      assert forall i :: 1 <= i < |items| ==> items[i] == items[1..][i - 1];
      if NodeUsable(items[0]) then [items[0].fields] + UsableNodes(items[1..])
      else UsableNodes(items[1..])
  }

  /** The usable edge objects of an array, in order, likewise. */
  function UsableEdges(items: seq<Item<EdgeRecord>>): (r: seq<EdgeRecord>)
    ensures |r| == |Filter(items, EdgeUsable)| <= |items|
    ensures forall i :: 0 <= i < |r| ==> Obj(r[i]) == Filter(items, EdgeUsable)[i]
    ensures forall e :: e in r ==> EndpointsPresent(e) && Obj(e) in items
    ensures forall i :: 0 <= i < |items| && EdgeUsable(items[i]) ==> items[i].fields in r
    decreases |items|
  {
    if items == [] then []
    else
      assert forall i :: 1 <= i < |items| ==> items[i] == items[1..][i - 1];
      if EdgeUsable(items[0]) then [items[0].fields] + UsableEdges(items[1..])
      else UsableEdges(items[1..])
  }

  /** `graphData`: no response gives an empty graph; otherwise the usable
      objects of each array. */
  function GraphData(data: Option<NetworkData>): (g: Graph)
    ensures data.None? ==> g == Graph([], [])
    ensures forall n :: n in g.nodes ==> Truthy(n.id)
    ensures forall e :: e in g.edges ==> EndpointsPresent(e)
    ensures data.Some? ==> var items := ArrayOrEmpty(data.value.nodes);
      |g.nodes| == |Filter(items, NodeUsable)| &&
      (forall i :: 0 <= i < |g.nodes| ==> Obj(g.nodes[i]) == Filter(items, NodeUsable)[i]) &&
      (forall i :: 0 <= i < |items| && NodeUsable(items[i]) ==> items[i].fields in g.nodes)
    ensures data.Some? ==> var items := ArrayOrEmpty(data.value.edges);
      |g.edges| == |Filter(items, EdgeUsable)| &&
      (forall i :: 0 <= i < |g.edges| ==> Obj(g.edges[i]) == Filter(items, EdgeUsable)[i]) &&
      (forall i :: 0 <= i < |items| && EdgeUsable(items[i]) ==> items[i].fields in g.edges)
  {
    if data.None? then Graph([], [])
    else Graph(UsableNodes(ArrayOrEmpty(data.value.nodes)), UsableEdges(ArrayOrEmpty(data.value.edges)))
  }

  predicate HasId(n: NodeRecord) { Truthy(n.id) }

  /** The node object built in `filteredData`: computed defaults, then the
      raw properties spread over them. A computed default survives only
      where the raw property is absent, which is when `Number(...) || d`
      yields `d`. */
  function NormalizeNode(n: NodeRecord): (r: NodeRecord)
    ensures n.id != Undefined ==> r.id == n.id
    ensures n.title != Undefined ==> r.title == n.title
    ensures n.kind != Undefined ==> r.kind == n.kind
    ensures n.balance != Undefined ==> r.balance == n.balance
    ensures n.riskScore != Undefined ==> r.riskScore == n.riskScore
    ensures n.isSuspicious != Undefined ==> r.isSuspicious == n.isSuspicious
  {
    NodeRecord(
      Spread(Str(ToJsString(n.id)), n.id),
      Spread(Str(ToJsString(Or(Or(n.title, n.id), Str("Unknown")))), n.title),
      Spread(Str(ToJsString(Or(n.kind, Str("account")))), n.kind),
      Spread(Num(0.0), n.balance),
      Spread(Num(0.0), n.riskScore),
      Spread(Bool(Truthy(n.isSuspicious)), n.isSuspicious))
  }

  /** The edge object built in `filteredData`, likewise. */
  function NormalizeEdge(e: EdgeRecord): (r: EdgeRecord)
    ensures e.source != Undefined ==> r.source == e.source
    ensures e.target != Undefined ==> r.target == e.target
    ensures e.isAnomaly != Undefined ==> r.isAnomaly == e.isAnomaly
    ensures e.anomalyScore != Undefined ==> r.anomalyScore == e.anomalyScore
    ensures r.from == e.from && r.to == e.to
  {
    EdgeRecord(
      Spread(Str(ToJsString(Or(Or(Or(e.source, e.sourceId), e.from), Str("")))), e.source),
      e.sourceId, e.from,
      Spread(Str(ToJsString(Or(Or(Or(e.target, e.targetId), e.to), Str("")))), e.target),
      e.targetId, e.to,
      Spread(Num(1.0), e.width),
      Spread(Bool(Truthy(e.isAnomaly)), e.isAnomaly),
      Spread(Num(0.0), e.anomalyScore),
      Spread(Str(ToJsString(Or(e.transactionType, Str("unknown")))), e.transactionType),
      Spread(Num(0.0), e.amount))
  }

  function MapNodes(ns: seq<NodeRecord>): (r: seq<NodeRecord>)
    ensures |r| == |ns| && forall i :: 0 <= i < |ns| ==> r[i] == NormalizeNode(ns[i])
  {
    seq(|ns|, i requires 0 <= i < |ns| => NormalizeNode(ns[i]))
  }

  function MapEdges(es: seq<EdgeRecord>): (r: seq<EdgeRecord>)
    ensures |r| == |es| && forall i :: 0 <= i < |es| ==> r[i] == NormalizeEdge(es[i])
  {
    seq(|es|, i requires 0 <= i < |es| => NormalizeEdge(es[i]))
  }

  predicate EndpointsTruthy(e: EdgeRecord) { Truthy(e.source) && Truthy(e.target) }

  /** `validNodes`. */
  function ValidNodes(g: Graph): (r: seq<NodeRecord>)
    ensures |r| <= |g.nodes|
    ensures forall n :: n in r ==> Truthy(n.id)
  {
    MapNodes(Filter(g.nodes, HasId))
  }

  /** `validEdges`. */
  function ValidEdges(g: Graph): (r: seq<EdgeRecord>)
    ensures |r| <= |g.edges|
    ensures forall e :: e in r ==> EndpointsTruthy(e)
  {
    Filter(MapEdges(Filter(g.edges, EndpointsPresent)), EndpointsTruthy)
  }

  /** A node is valid iff it is the normalisation of a graph node with an id. */
  lemma ValidNodesExactly(g: Graph, n: NodeRecord)
    ensures n in ValidNodes(g) <==> exists m :: m in g.nodes && HasId(m) && n == NormalizeNode(m)
  {
    var f := Filter(g.nodes, HasId);
    if n in ValidNodes(g) {
      var i :| 0 <= i < |f| && ValidNodes(g)[i] == n;
      FilterMembers(g.nodes, HasId, f[i]);
    }
    if m :| m in g.nodes && HasId(m) && n == NormalizeNode(m) {
      FilterKeeps(g.nodes, HasId, m);
      var i :| 0 <= i < |f| && f[i] == m;
      assert ValidNodes(g)[i] == n;
    }
  }

  /** An edge is valid iff it is the normalisation of a graph edge with
      both endpoints present and its normalised endpoints are truthy. */
  lemma ValidEdgesExactly(g: Graph, e: EdgeRecord)
    ensures e in ValidEdges(g) <==>
      EndpointsTruthy(e) && exists raw :: raw in g.edges && EndpointsPresent(raw) && e == NormalizeEdge(raw)
  {
    var f := Filter(g.edges, EndpointsPresent);
    var mapped := MapEdges(f);
    FilterMembers(mapped, EndpointsTruthy, e);
    if e in mapped {
      var i :| 0 <= i < |f| && mapped[i] == e;
      FilterMembers(g.edges, EndpointsPresent, f[i]);
    }
    if raw :| raw in g.edges && EndpointsPresent(raw) && e == NormalizeEdge(raw) {
      FilterKeeps(g.edges, EndpointsPresent, raw);
      var i :| 0 <= i < |f| && f[i] == raw;
      assert mapped[i] == e;
    }
  }

  /** `(f || "").toLowerCase().includes(term)`; `None` when `f` is truthy
      but not a string, which has no `toLowerCase` (a TypeError). */
  function FieldMatches(f: JsValue, term: string): (r: Option<bool>)
    ensures r.None? <==> Truthy(f) && !f.Str?
  {
    if !Truthy(f) then Some(Contains("", term))
    else if f.Str? then Some(Contains(LowerStr(f.s), term))
    else None
  }

  /** The search test of one node: label, then id, then type, stopping at
      the first match; `None` when an evaluated field throws. */
  function NodeMatches(n: NodeRecord, term: string): (r: Option<bool>)
    ensures r.None? ==> (Truthy(n.title) && !n.title.Str?) || (Truthy(n.id) && !n.id.Str?) || (Truthy(n.kind) && !n.kind.Str?)
    ensures n.title.Str? && n.id.Str? && n.kind.Str? ==>
      (r == Some(true) <==> Contains(LowerStr(n.title.s), term) || Contains(LowerStr(n.id.s), term) || Contains(LowerStr(n.kind.s), term))
  {
    match FieldMatches(n.title, term)
    case None => None
    case Some(true) => Some(true)
    case Some(false) =>
      match FieldMatches(n.id, term)
      case None => None
      case Some(true) => Some(true)
      case Some(false) => FieldMatches(n.kind, term)
  }

  /** A node whose three fields are strings or falsy never throws. */
  lemma StringFieldsNeverThrow(n: NodeRecord, term: string)
    requires forall f :: f in [n.title, n.id, n.kind] ==> (f.Str? || !Truthy(f))
    ensures NodeMatches(n, term).Some?
  {
    assert n.title in [n.title, n.id, n.kind];
    assert n.id in [n.title, n.id, n.kind];
    assert n.kind in [n.title, n.id, n.kind];
  }

  /** `nodes.filter(search test)`: the matching nodes in order, or `None`
      when the test throws on some node. */
  function SearchNodes(nodes: seq<NodeRecord>, term: string): (r: Option<seq<NodeRecord>>)
    ensures r.None? <==> exists i :: 0 <= i < |nodes| && NodeMatches(nodes[i], term).None?
    ensures r.Some? ==> |r.value| <= |nodes|
    ensures r.Some? ==> forall n :: n in r.value ==> n in nodes && NodeMatches(n, term) == Some(true)
    decreases |nodes|
  {
    if nodes == [] then Some([])
    else
      var rest := SearchNodes(nodes[1..], term);
      assert forall i :: 1 <= i < |nodes| ==> nodes[i] == nodes[1..][i - 1];
      match NodeMatches(nodes[0], term)
      case None => None
      case Some(keep) =>
        if rest.None? then None
        else if keep then Some([nodes[0]] + rest.value)
        else rest
  }

  /** Every node that matches is kept by a search that does not throw. */
  lemma {:induction false} SearchKeepsMatches(nodes: seq<NodeRecord>, term: string, n: NodeRecord)
    requires SearchNodes(nodes, term).Some? && n in nodes && NodeMatches(n, term) == Some(true)
    ensures n in SearchNodes(nodes, term).value
    decreases |nodes|
  {
    if nodes[0] != n {
      SearchKeepsMatches(nodes[1..], term, n);
    }
  }

  /** A search that does not throw keeps its nodes in input order. */
  lemma {:induction false} SearchIsSubsequence(nodes: seq<NodeRecord>, term: string)
    requires SearchNodes(nodes, term).Some?
    ensures SubsequenceOf(SearchNodes(nodes, term).value, nodes)
    decreases |nodes|
  {
    if nodes != [] {
      SearchIsSubsequence(nodes[1..], term);
      if NodeMatches(nodes[0], term) == Some(false) {
        SkipHead(SearchNodes(nodes, term).value, nodes);
      }
    }
  }

  predicate SuspiciousExactly(n: NodeRecord) { n.isSuspicious == Bool(true) }

  predicate RiskOver80(n: NodeRecord) { GreaterThan(Or(n.riskScore, Num(0.0)), 80.0) }

  predicate HighValue(n: NodeRecord) { GreaterThan(Or(n.balance, Num(0.0)), 100000.0) }

  predicate AnomalyExactly(e: EdgeRecord) { e.isAnomaly == Bool(true) }

  /** The test the category filter applies to a node; filters other than
      the three named ones keep every node. */
  predicate InCategory(n: NodeRecord, filter: string)
  {
    if filter == "suspicious" then SuspiciousExactly(n)
    else if filter == "anomalies" then RiskOver80(n)
    else if filter == "high-value" then HighValue(n)
    else true
  }

  /** The test the category filter applies to an edge. */
  predicate EdgeInCategory(e: EdgeRecord, filter: string)
  {
    (filter == "suspicious" || filter == "anomalies") ==> AnomalyExactly(e)
  }

  /** The category filter on nodes. */
  function CategoryNodes(nodes: seq<NodeRecord>, filter: string): (r: seq<NodeRecord>)
    ensures |r| <= |nodes|
    ensures forall i :: 0 <= i < |r| ==> InCategory(r[i], filter)
  {
    if filter == "suspicious" then Filter(nodes, SuspiciousExactly)
    else if filter == "anomalies" then Filter(nodes, RiskOver80)
    else if filter == "high-value" then Filter(nodes, HighValue)
    else nodes
  }

  /** The category filter on edges: only "suspicious" and "anomalies"
      narrow them. */
  function CategoryEdges(edges: seq<EdgeRecord>, filter: string): (r: seq<EdgeRecord>)
    ensures |r| <= |edges|
    ensures forall i :: 0 <= i < |r| ==> EdgeInCategory(r[i], filter)
  {
    if filter == "suspicious" || filter == "anomalies" then Filter(edges, AnomalyExactly)
    else edges
  }

  /** `typeof node.id === "string" && node.id.trim() !== ""`. */
  predicate FinalNode(n: NodeRecord) { IsNonBlankString(n.id) }

  predicate FinalEdge(e: EdgeRecord) { IsNonBlankString(e.source) && IsNonBlankString(e.target) }

  /** `filteredData`: search (only for a term that is not blank after
      trimming, with the untrimmed lower-cased term), then the category
      filter, then the final string checks. `None` when the search throws. */
  function FilteredData(g: Graph, filter: string, searchTerm: string): (r: Option<Graph>)
    ensures r.None? ==> Trim(searchTerm) != ""
    ensures r.Some? ==> forall n :: n in r.value.nodes ==> n.id.Str? && Trim(n.id.s) != ""
    ensures r.Some? ==> forall e :: e in r.value.edges ==> e.source.Str? && e.target.Str?
  {
    var searched := if Trim(searchTerm) != "" then SearchNodes(ValidNodes(g), LowerStr(searchTerm)) else Some(ValidNodes(g));
    if searched.None? then None
    else
      var nodes := Filter(CategoryNodes(searched.value, filter), FinalNode);
      var edges := Filter(CategoryEdges(ValidEdges(g), filter), FinalEdge);
      assert forall n :: n in nodes ==> FinalNode(n);
      assert forall e :: e in edges ==> FinalEdge(e);
      Some(Graph(nodes, edges))
  }

  /** A blank search term changes nothing: the result is the one for "". */
  lemma BlankSearchKeepsAll(g: Graph, filter: string, searchTerm: string)
    requires Trim(searchTerm) == ""
    ensures FilteredData(g, filter, searchTerm) == FilteredData(g, filter, "")
    ensures FilteredData(g, filter, searchTerm).Some?
  {
    assert Trim("") == "";
  }

  /** Search never removes edges: edges depend on the category only. */
  lemma SearchKeepsEdges(g: Graph, filter: string, t1: string, t2: string)
    requires FilteredData(g, filter, t1).Some? && FilteredData(g, filter, t2).Some?
    ensures FilteredData(g, filter, t1).value.edges == FilteredData(g, filter, t2).value.edges
  {
  }

  /** With a term that is not blank, a node is shown iff it is valid, passes
      the category and final checks, and its label, id or type contains the
      lower-cased term. */
  lemma SearchShowsExactlyMatches(g: Graph, filter: string, searchTerm: string, n: NodeRecord)
    requires Trim(searchTerm) != "" && FilteredData(g, filter, searchTerm).Some?
    requires filter !in {"suspicious", "anomalies", "high-value"}
    ensures n in FilteredData(g, filter, searchTerm).value.nodes <==>
      n in ValidNodes(g) && FinalNode(n) && NodeMatches(n, LowerStr(searchTerm)) == Some(true)
  {
    var searched := SearchNodes(ValidNodes(g), LowerStr(searchTerm)).value;
    FilterMembers(searched, FinalNode, n);
    if n in ValidNodes(g) && NodeMatches(n, LowerStr(searchTerm)) == Some(true) {
      SearchKeepsMatches(ValidNodes(g), LowerStr(searchTerm), n);
    }
  }

  /** The category filters narrow as named, keeping input order. */
  lemma CategoriesNarrow(g: Graph, filter: string, searchTerm: string)
    requires FilteredData(g, filter, searchTerm).Some?
    ensures var r := FilteredData(g, filter, searchTerm).value;
      (filter == "suspicious" ==> forall n :: n in r.nodes ==> n.isSuspicious == Bool(true)) &&
      (filter == "anomalies" ==> forall n :: n in r.nodes ==> RiskOver80(n)) &&
      (filter == "high-value" ==> forall n :: n in r.nodes ==> HighValue(n)) &&
      (filter in {"suspicious", "anomalies"} ==> forall e :: e in r.edges ==> e.isAnomaly == Bool(true)) &&
      (filter !in {"suspicious", "anomalies"} ==> r.edges == Filter(ValidEdges(g), FinalEdge)) &&
      SubsequenceOf(r.edges, ValidEdges(g))
  {
    var searched := if Trim(searchTerm) != "" then SearchNodes(ValidNodes(g), LowerStr(searchTerm)) else Some(ValidNodes(g));
    var cn := CategoryNodes(searched.value, filter);
    var ce := CategoryEdges(ValidEdges(g), filter);
    forall n | n in Filter(cn, FinalNode) ensures n in cn {
      FilterMembers(cn, FinalNode, n);
    }
    forall e | e in Filter(ce, FinalEdge) ensures e in ce {
      FilterMembers(ce, FinalEdge, e);
    }
    if filter == "suspicious" || filter == "anomalies" {
      forall e | e in ce ensures AnomalyExactly(e) {
        FilterMembers(ValidEdges(g), AnomalyExactly, e);
      }
    }
    if filter == "suspicious" {
      forall n | n in cn ensures SuspiciousExactly(n) {
        FilterMembers(searched.value, SuspiciousExactly, n);
      }
    } else if filter == "anomalies" {
      forall n | n in cn ensures RiskOver80(n) {
        FilterMembers(searched.value, RiskOver80, n);
      }
    } else if filter == "high-value" {
      forall n | n in cn ensures HighValue(n) {
        FilterMembers(searched.value, HighValue, n);
      }
    }
    FilterIsSubsequence(ce, FinalEdge);
    if filter == "suspicious" || filter == "anomalies" {
      FilterIsSubsequence(ValidEdges(g), AnomalyExactly);
      SubsequenceTrans(Filter(ce, FinalEdge), ce, ValidEdges(g));
    }
  }

  /** A list is a sub-list of itself. */
  lemma {:induction false} SubsequenceRefl<T>(s: seq<T>)
    ensures SubsequenceOf(s, s)
    decreases |s|
  {
    if s != [] {
      SubsequenceRefl(s[1..]);
    }
  }

  /** The category filter keeps nodes in order. */
  lemma CategoryNodesInOrder(nodes: seq<NodeRecord>, filter: string)
    ensures SubsequenceOf(CategoryNodes(nodes, filter), nodes)
  {
    if filter == "suspicious" {
      FilterIsSubsequence(nodes, SuspiciousExactly);
    } else if filter == "anomalies" {
      FilterIsSubsequence(nodes, RiskOver80);
    } else if filter == "high-value" {
      FilterIsSubsequence(nodes, HighValue);
    } else {
      SubsequenceRefl(nodes);
    }
  }

  /** The nodes the search step hands on keep the order of the valid nodes. */
  lemma SearchedInOrder(g: Graph, searchTerm: string)
    requires Trim(searchTerm) != "" ==> SearchNodes(ValidNodes(g), LowerStr(searchTerm)).Some?
    ensures var searched := if Trim(searchTerm) != "" then SearchNodes(ValidNodes(g), LowerStr(searchTerm)) else Some(ValidNodes(g));
      searched.Some? && SubsequenceOf(searched.value, ValidNodes(g))
  {
    if Trim(searchTerm) != "" {
      SearchIsSubsequence(ValidNodes(g), LowerStr(searchTerm));
    } else {
      SubsequenceRefl(ValidNodes(g));
    }
  }

  /** The shown nodes keep the order of the valid nodes. */
  lemma ShownNodesInOrder(g: Graph, filter: string, searchTerm: string)
    requires FilteredData(g, filter, searchTerm).Some?
    ensures SubsequenceOf(FilteredData(g, filter, searchTerm).value.nodes, ValidNodes(g))
  {
    var searched := if Trim(searchTerm) != "" then SearchNodes(ValidNodes(g), LowerStr(searchTerm)) else Some(ValidNodes(g));
    var cn := CategoryNodes(searched.value, filter);
    SearchedInOrder(g, searchTerm);
    CategoryNodesInOrder(searched.value, filter);
    FilterIsSubsequence(cn, FinalNode);
    SubsequenceTrans(Filter(cn, FinalNode), cn, searched.value);
    SubsequenceTrans(Filter(cn, FinalNode), searched.value, ValidNodes(g));
  }

  /** A node is shown iff it is valid, matches a search term that is not
      blank, passes its category's test and has a non-blank string id. */
  lemma ShownNodesExactly(g: Graph, filter: string, searchTerm: string, n: NodeRecord)
    requires FilteredData(g, filter, searchTerm).Some?
    ensures n in FilteredData(g, filter, searchTerm).value.nodes <==>
      n in ValidNodes(g) && FinalNode(n) && InCategory(n, filter) &&
      (Trim(searchTerm) != "" ==> NodeMatches(n, LowerStr(searchTerm)) == Some(true))
  {
    var searched := if Trim(searchTerm) != "" then SearchNodes(ValidNodes(g), LowerStr(searchTerm)) else Some(ValidNodes(g));
    var cn := CategoryNodes(searched.value, filter);
    FilterMembers(cn, FinalNode, n);
    if filter == "suspicious" {
      FilterMembers(searched.value, SuspiciousExactly, n);
    } else if filter == "anomalies" {
      FilterMembers(searched.value, RiskOver80, n);
    } else if filter == "high-value" {
      FilterMembers(searched.value, HighValue, n);
    }
    if Trim(searchTerm) != "" && n in ValidNodes(g) && NodeMatches(n, LowerStr(searchTerm)) == Some(true) {
      SearchKeepsMatches(ValidNodes(g), LowerStr(searchTerm), n);
    }
  }

  /** An edge is shown iff it is valid, passes its category's test and has
      string endpoints that are not blank; the search term plays no part. */
  lemma ShownEdgesExactly(g: Graph, filter: string, searchTerm: string, e: EdgeRecord)
    requires FilteredData(g, filter, searchTerm).Some?
    ensures e in FilteredData(g, filter, searchTerm).value.edges <==>
      e in ValidEdges(g) && FinalEdge(e) && EdgeInCategory(e, filter)
  {
    var ce := CategoryEdges(ValidEdges(g), filter);
    FilterMembers(ce, FinalEdge, e);
    if filter == "suspicious" || filter == "anomalies" {
      FilterMembers(ValidEdges(g), AnomalyExactly, e);
    }
  }

  /** A sub-list of a sub-list is a sub-list. */
  lemma {:induction false} SubsequenceTrans<T>(a: seq<T>, b: seq<T>, c: seq<T>)
    requires SubsequenceOf(a, b) && SubsequenceOf(b, c)
    ensures SubsequenceOf(a, c)
    decreases |c|
  {
    if a != [] && b != [] && c != [] {
      if b[0] == c[0] {
        if a[0] == b[0] {
          SubsequenceTrans(a[1..], b[1..], c[1..]);
        } else {
          SubsequenceTrans(a, b[1..], c[1..]);
          SkipHead(a, c);
        }
      } else {
        SubsequenceTrans(a, b, c[1..]);
        SkipHead(a, c);
      }
    }
  }

  /** A raw node whose id is a number survives normalisation with that id
      and is then never shown. */
  lemma NumericIdDropped(g: Graph, filter: string, searchTerm: string, n: NodeRecord)
    requires n.id.Num? && n.id.n != 0.0
    requires FilteredData(g, filter, searchTerm).Some?
    ensures NormalizeNode(n).id == n.id
    ensures NormalizeNode(n) !in FilteredData(g, filter, searchTerm).value.nodes
  {
  }

  // ---------------------------------------------------------------------
  // safeGraphData: colours and the drawn lists

  /** Node colour: suspicious, then risk above 80, then above 50. */
  function NodeColor(n: NodeRecord): (c: string)
    ensures c == "#ef4444" <==> Truthy(n.isSuspicious)
    ensures c == "#f59e0b" <==> !Truthy(n.isSuspicious) && GreaterThan(n.riskScore, 80.0)
    ensures c == "#10b981" <==> !Truthy(n.isSuspicious) && !GreaterThan(n.riskScore, 80.0) && GreaterThan(n.riskScore, 50.0)
  {
    if Truthy(n.isSuspicious) then "#ef4444"
    else if GreaterThan(n.riskScore, 80.0) then "#f59e0b"
    else if GreaterThan(n.riskScore, 50.0) then "#10b981"
    else "#6366f1"
  }

  /** Edge colour: anomalous edges are green, the same green as an edge
      with a score in (0.4, 0.7]. */
  function EdgeColor(e: EdgeRecord): (c: string)
    ensures c == "#10b981" <==> Truthy(e.isAnomaly) || (GreaterThan(e.anomalyScore, 0.4) && !GreaterThan(e.anomalyScore, 0.7))
    ensures c == "#f59e0b" <==> !Truthy(e.isAnomaly) && GreaterThan(e.anomalyScore, 0.7)
    ensures c == "#6366f1" <==> !Truthy(e.isAnomaly) && !GreaterThan(e.anomalyScore, 0.4)
  {
    if Truthy(e.isAnomaly) then "#10b981"
    else if GreaterThan(e.anomalyScore, 0.7) then "#f59e0b"
    else if GreaterThan(e.anomalyScore, 0.4) then "#10b981"
    else "#6366f1"
  }

  /** A drawn node and a drawn edge. */
  datatype ViewNode = ViewNode(id: string, title: string, kind: string, isSuspicious: bool, color: string)
  datatype ViewEdge = ViewEdge(source: string, target: string, isAnomaly: bool, color: string)
  datatype ViewGraph = ViewGraph(nodes: seq<ViewNode>, edges: seq<ViewEdge>)

  function ViewOfNode(n: NodeRecord): ViewNode
    requires n.id.Str?
  {
    ViewNode(Trim(n.id.s), Trim(ToJsString(Or(Or(n.title, n.id), Str("Unknown")))),
      Trim(ToJsString(Or(n.kind, Str("account")))), Truthy(n.isSuspicious), NodeColor(n))
  }

  function ViewOfEdge(e: EdgeRecord): ViewEdge
    requires e.source.Str? && e.target.Str?
  {
    ViewEdge(Trim(e.source.s), Trim(e.target.s), Truthy(e.isAnomaly), EdgeColor(e))
  }

  /** The drawn nodes, one for one. */
  function DrawNodes(ns: seq<NodeRecord>): (r: seq<ViewNode>)
    requires forall n :: n in ns ==> n.id.Str?
    ensures |r| == |ns|
    ensures forall i :: 0 <= i < |ns| ==> r[i].id == Trim(ns[i].id.s) && r[i].color == NodeColor(ns[i])
  {
    seq(|ns|, i requires 0 <= i < |ns| => ViewOfNode(ns[i]))
  }

  /** The drawn edges, one for one. */
  function DrawEdges(es: seq<EdgeRecord>): (r: seq<ViewEdge>)
    requires forall e :: e in es ==> e.source.Str? && e.target.Str?
    ensures |r| == |es|
    ensures forall i :: 0 <= i < |es| ==>
      r[i].source == Trim(es[i].source.s) && r[i].target == Trim(es[i].target.s)
    ensures forall i :: 0 <= i < |es| ==> r[i].isAnomaly == Truthy(es[i].isAnomaly) && r[i].color == EdgeColor(es[i])
  {
    seq(|es|, i requires 0 <= i < |es| => ViewOfEdge(es[i]))
  }

  /** The drawn lists for shown nodes and edges, one for one. */
  function Draw(g: Graph): (v: ViewGraph)
    requires forall n :: n in g.nodes ==> n.id.Str?
    requires forall e :: e in g.edges ==> e.source.Str? && e.target.Str?
    ensures |v.nodes| == |g.nodes| && |v.edges| == |g.edges|
    ensures forall i :: 0 <= i < |g.nodes| ==> v.nodes[i].color == NodeColor(g.nodes[i])
    ensures forall i :: 0 <= i < |g.nodes| ==> v.nodes[i].id == Trim(g.nodes[i].id.s)
    ensures forall i :: 0 <= i < |g.edges| ==> v.edges[i].isAnomaly == Truthy(g.edges[i].isAnomaly)
    ensures forall i :: 0 <= i < |g.edges| ==> v.edges[i].color == EdgeColor(g.edges[i])
    ensures forall i :: 0 <= i < |g.edges| ==>
      v.edges[i].source == Trim(g.edges[i].source.s) && v.edges[i].target == Trim(g.edges[i].target.s)
  {
    ViewGraph(DrawNodes(g.nodes), DrawEdges(g.edges))
  }

  /** `searchTerm && node.label.toLowerCase()`: with a non-empty term, a
      label that is not a string throws inside the `try`. */
  predicate LabelThrows(n: NodeRecord, searchTerm: string) { searchTerm != "" && !n.title.Str? }

  /** `safeGraphData` as written: when the pinning test throws on any node,
      the `catch` returns an empty graph. */
  function SafeGraphDataAsWritten(g: Graph, searchTerm: string): (v: ViewGraph)
    requires forall n :: n in g.nodes ==> n.id.Str?
    requires forall e :: e in g.edges ==> e.source.Str? && e.target.Str?
    ensures v == SafeGraphData(g, searchTerm) || v == ViewGraph([], [])
    ensures v != SafeGraphData(g, searchTerm) <==> exists n :: n in g.nodes && LabelThrows(n, searchTerm)
  {
    if exists n :: n in g.nodes && LabelThrows(n, searchTerm) then ViewGraph([], [])
    else Draw(g)
  }

  /** `safeGraphData` with a pinning test that cannot throw, such as one
      on `String(node.label || "")`: every shown node and edge is drawn,
      whatever the search term. (`(node.label || "")` alone is not enough:
      a truthy label that is not a string, such as 5, still throws.) */
  function SafeGraphData(g: Graph, searchTerm: string): (v: ViewGraph)
    requires forall n :: n in g.nodes ==> n.id.Str?
    requires forall e :: e in g.edges ==> e.source.Str? && e.target.Str?
    ensures |v.nodes| == |g.nodes| && |v.edges| == |g.edges|
  {
    Draw(g)
  }

  /** The node of the example below: id "a", label `null`. */
  const NullLabelNode: NodeRecord := NodeRecord(Str("a"), Null, Undefined, Undefined, Undefined, Undefined)

  lemma NullLabelNodeSearched()
    ensures ValidNodes(Graph([NullLabelNode], [])) == [NormalizeNode(NullLabelNode)]
    ensures SearchNodes([NormalizeNode(NullLabelNode)], "a") == Some([NormalizeNode(NullLabelNode)])
  {
    var m := NormalizeNode(NullLabelNode);
    assert Filter([NullLabelNode], HasId) == [NullLabelNode];
    assert m.title == Null && m.id == Str("a");
    assert Contains("a", "a");
    assert NodeMatches(m, "a") == Some(true);
    assert [m][1..] == [];
    assert SearchNodes([], "a") == Some([]);
    assert [m][0] == m;
    assert [m] + [] == [m];
  }

  /** Under the "all" filter a search that does not throw is followed only
      by the final string checks. */
  lemma SearchUnderAll(g: Graph, searchTerm: string, found: seq<NodeRecord>)
    requires Trim(searchTerm) != ""
    requires SearchNodes(ValidNodes(g), LowerStr(searchTerm)) == Some(found)
    ensures FilteredData(g, "all", searchTerm)
      == Some(Graph(Filter(found, FinalNode), Filter(ValidEdges(g), FinalEdge)))
  {
  }

  /** The search term of the example is its own trimmed, lower-cased form. */
  lemma SearchTermA()
    ensures LowerStr("a") == "a" && Trim("a") == "a"
  {
    assert !IsSpace('a');
    assert TrimStart("a") == "a";
    assert TrimEnd("a") == "a";
    assert LowerStr("a")[0] == 'a';
  }

  lemma NullLabelNodeFinal()
    ensures Filter([NormalizeNode(NullLabelNode)], FinalNode) == [NormalizeNode(NullLabelNode)]
  {
    var m := NormalizeNode(NullLabelNode);
    assert m.id == Str("a");
    SearchTermA();
    assert FinalNode(m);
    assert Filter([m][1..], FinalNode) == [] by {
      assert [m][1..] == [];
    }
  }

  /** The node with a null label survives every filter when searched by its id. */
  lemma NullLabelNodeFiltered()
    ensures FilteredData(Graph([NullLabelNode], []), "all", "a")
      == Some(Graph(ValidNodes(Graph([NullLabelNode], [])), []))
  {
    var g := Graph([NullLabelNode], []);
    NullLabelNodeSearched();
    SearchTermA();
    SearchUnderAll(g, "a", [NormalizeNode(NullLabelNode)]);
    NullLabelNodeFinal();
    assert Filter(ValidEdges(g), FinalEdge) == [];
  }

  /** A node with a `null` label, found by its id, empties the whole drawn
      graph as written; the corrected view draws it. */
  lemma NullLabelEmptiesGraph()
    ensures var g := Graph(ValidNodes(Graph([NullLabelNode], [])), []);
      FilteredData(Graph([NullLabelNode], []), "all", "a") == Some(g) &&
      SafeGraphDataAsWritten(g, "a") == ViewGraph([], []) &&
      |SafeGraphData(g, "a").nodes| == 1
  {
    var m := NormalizeNode(NullLabelNode);
    NullLabelNodeFiltered();
    NullLabelNodeSearched();
    assert m in [m] && LabelThrows(m, "a");
  }

  /** With a blank search term the written and the corrected view agree. */
  lemma AsWrittenAgreesWithoutSearch(g: Graph)
    requires forall n :: n in g.nodes ==> n.id.Str?
    requires forall e :: e in g.edges ==> e.source.Str? && e.target.Str?
    ensures SafeGraphDataAsWritten(g, "") == SafeGraphData(g, "")
  {
  }

  // ---------------------------------------------------------------------
  // Connection analysis of the selected node

  predicate Touches(e: ViewEdge, id: string) { e.source == id || e.target == id }

  /** The selected node's edges, in order: a sub-list of the edges that
      holds every edge touching the node and no other. */
  function Incident(edges: seq<ViewEdge>, id: string): (r: seq<ViewEdge>)
    ensures |r| <= |edges| && forall e :: e in r ==> e in edges && Touches(e, id)
    ensures forall e :: e in edges && Touches(e, id) ==> e in r
    ensures SubsequenceOf(r, edges)
    decreases |edges|
  {
    if edges == [] then []
    else if Touches(edges[0], id) then [edges[0]] + Incident(edges[1..], id)
    else
      SkipHead(Incident(edges[1..], id), edges);
      Incident(edges[1..], id)
  }

  /** The incident edges that are anomalous, in order. */
  function AnomalousLinks(edges: seq<ViewEdge>, id: string): (r: seq<ViewEdge>)
    ensures forall e :: e in r <==> e in edges && Touches(e, id) && e.isAnomaly
    ensures SubsequenceOf(r, edges)
  {
    var p := (e: ViewEdge) => e.isAnomaly;
    forall e ensures e in Filter(Incident(edges, id), p) <==> e in Incident(edges, id) && e.isAnomaly {
      FilterMembers(Incident(edges, id), p, e);
    }
    FilterIsSubsequence(Incident(edges, id), p);
    SubsequenceTrans(Filter(Incident(edges, id), p), Incident(edges, id), edges);
    Filter(Incident(edges, id), p)
  }

  /** The end of an edge that is not the selected node. */
  function OtherEnd(e: ViewEdge, id: string): string
  {
    if e.source == id then e.target else e.source
  }

  /** The other end of each incident edge, as a set: exactly the other
      ends of the edges touching the node. */
  function Neighbours(edges: seq<ViewEdge>, id: string): (r: set<string>)
    ensures forall e :: e in edges && Touches(e, id) ==> OtherEnd(e, id) in r
    ensures forall x :: x in r ==> exists e :: e in edges && Touches(e, id) && x == OtherEnd(e, id)
    decreases |edges|
  {
    if edges == [] then {}
    else
      var e := edges[0];
      var rest := Neighbours(edges[1..], id);
      assert forall f :: f in edges[1..] ==> f in edges;
      assert forall f :: f in edges ==> f == e || f in edges[1..];
      if Touches(e, id) then {OtherEnd(e, id)} + rest else rest
  }

  /** "Recent Transactions": the first five incident edges, or all of them
      when there are fewer. */
  function Recent(edges: seq<ViewEdge>, id: string): (r: seq<ViewEdge>)
    ensures r <= Incident(edges, id)
    ensures |r| == if |Incident(edges, id)| < 5 then |Incident(edges, id)| else 5
  {
    Take(Incident(edges, id), 5)
  }

  /** Anomalous links and distinct neighbours never outnumber the
      incident edges, and a node has a neighbour iff it has an edge. */
  lemma {:induction false} ConnectionCounts(edges: seq<ViewEdge>, id: string)
    ensures |AnomalousLinks(edges, id)| <= |Incident(edges, id)|
    ensures |Neighbours(edges, id)| <= |Incident(edges, id)|
    ensures Neighbours(edges, id) == {} <==> Incident(edges, id) == []
    decreases |edges|
  {
    if edges != [] {
      ConnectionCounts(edges[1..], id);
    }
  }

  // ---------------------------------------------------------------------
  // Zoom and the view's state

  const MinZoom: real := 0.3
  const MaxZoom: real := 3.0
  const ZoomStep: real := 0.2

  /** `Math.min(zoom + 0.2, 3)`. */
  function ZoomedIn(z: real): (r: real)
    ensures r <= MaxZoom && (z + ZoomStep <= MaxZoom ==> r == z + ZoomStep)
    ensures z <= MaxZoom ==> r >= z
  {
    if z + ZoomStep < MaxZoom then z + ZoomStep else MaxZoom
  }

  /** `Math.max(zoom - 0.2, 0.3)`. */
  function ZoomedOut(z: real): (r: real)
    ensures r >= MinZoom && (z - ZoomStep >= MinZoom ==> r == z - ZoomStep)
    ensures z >= MinZoom ==> r <= z
  {
    if z - ZoomStep > MinZoom then z - ZoomStep else MinZoom
  }

  /** Away from the bounds, zooming out undoes zooming in and back. */
  lemma ZoomRoundTrip(z: real)
    ensures MinZoom + ZoomStep <= z <= MaxZoom - ZoomStep ==> ZoomedOut(ZoomedIn(z)) == z
    ensures MinZoom + ZoomStep <= z <= MaxZoom ==> ZoomedIn(ZoomedOut(z)) == z
  {
  }

  class GraphView {
    var zoom: real
    var filter: string
    var searchTerm: string
    var selected: Option<ViewNode>
    /** The zoom last sent to the graph widget; `None` after a fit to its
        contents, whose scale the widget chooses. */
    var graphZoom: Option<real>
    /** Whether the graph widget is mounted (`fgRef.current`). */
    var hasHandle: bool

    ghost predicate Valid()
      reads this
    {
      MinZoom <= zoom <= MaxZoom
    }

    constructor (mounted: bool)
      ensures Valid()
      ensures zoom == 1.0 && filter == "all" && searchTerm == "" && selected == None
      ensures graphZoom == None && hasHandle == mounted
    {
      zoom := 1.0;
      filter := "all";
      searchTerm := "";
      selected := None;
      graphZoom := None;
      hasHandle := mounted;
    }

    method ZoomIn()
      requires Valid()
      modifies this
      ensures Valid()
      ensures hasHandle == old(hasHandle) && filter == old(filter)
      ensures searchTerm == old(searchTerm) && selected == old(selected)
      ensures hasHandle ==> zoom == ZoomedIn(old(zoom)) && graphZoom == Some(zoom)
      ensures !hasHandle ==> zoom == old(zoom) && graphZoom == old(graphZoom)
    {
      if hasHandle {
        zoom := ZoomedIn(zoom);
        graphZoom := Some(zoom);
      }
    }

    method ZoomOut()
      requires Valid()
      modifies this
      ensures Valid()
      ensures hasHandle == old(hasHandle) && filter == old(filter)
      ensures searchTerm == old(searchTerm) && selected == old(selected)
      ensures hasHandle ==> zoom == ZoomedOut(old(zoom)) && graphZoom == Some(zoom)
      ensures !hasHandle ==> zoom == old(zoom) && graphZoom == old(graphZoom)
    {
      if hasHandle {
        zoom := ZoomedOut(zoom);
        graphZoom := Some(zoom);
      }
    }

    /** Back to zoom 1, all categories, no search, no selection, and a fit
        of the graph to its contents; nothing without the widget. */
    method Reset()
      requires Valid()
      modifies this
      ensures Valid() && hasHandle == old(hasHandle)
      ensures hasHandle ==> zoom == 1.0 && filter == "all" && searchTerm == "" && selected == None && graphZoom == None
      ensures !hasHandle ==> (zoom == old(zoom) && filter == old(filter) && searchTerm == old(searchTerm)
        && selected == old(selected) && graphZoom == old(graphZoom))
    {
      if hasHandle {
        zoom := 1.0;
        filter := "all";
        searchTerm := "";
        selected := None;
        graphZoom := None;
      }
    }

    /** Selecting a node zooms the widget to `max(zoom * 1.2, 2)` without
        recording that zoom in the state. */
    method NodeClick(node: ViewNode)
      requires Valid()
      modifies this
      ensures Valid() && selected == Some(node) && zoom == old(zoom)
      ensures hasHandle == old(hasHandle) && filter == old(filter) && searchTerm == old(searchTerm)
      ensures hasHandle ==> graphZoom == Some(if old(zoom) * 1.2 > 2.0 then old(zoom) * 1.2 else 2.0)
      ensures !hasHandle ==> graphZoom == old(graphZoom)
    {
      selected := Some(node);
      if hasHandle {
        graphZoom := Some(if zoom * 1.2 > 2.0 then zoom * 1.2 else 2.0);
      }
    }

    method SetFilter(f: string)
      modifies this
      ensures filter == f && zoom == old(zoom) && searchTerm == old(searchTerm)
      ensures selected == old(selected) && graphZoom == old(graphZoom) && hasHandle == old(hasHandle)
    {
      filter := f;
    }

    method SetSearchTerm(t: string)
      modifies this
      ensures searchTerm == t && zoom == old(zoom) && filter == old(filter)
      ensures selected == old(selected) && graphZoom == old(graphZoom) && hasHandle == old(hasHandle)
    {
      searchTerm := t;
    }

    /** The nodes and edges the view shows for a response. */
    function Shown(data: Option<NetworkData>): (r: Option<Graph>)
      reads this
      ensures data.None? ==> r == Some(Graph([], []))
      ensures r.None? ==> Trim(searchTerm) != ""
    {
      FilteredData(GraphData(data), filter, searchTerm)
    }
  }

  /** After a node click at zoom 1 the widget sits at zoom 2; "zoom in"
      then sends 1.2, a zoom out. */
  method ZoomInAfterNodeClick(node: ViewNode)
  {
    var v := new GraphView(true);
    v.NodeClick(node);
    assert v.graphZoom == Some(2.0);
    v.ZoomIn();
    assert v.graphZoom == Some(1.2);
  }
}

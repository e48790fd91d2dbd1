/** The data preparation of frontend/src/components/AnomalyDashboard.jsx:
    fallbacks for missing responses, the loading/error gate, the grouping of
    anomalies by detection method and the account-status buckets. */
module AnomalyDashboard {
  import opened Wrappers
  import opened Seqs
  import opened Text
  import opened AnomalyList
  import DetectionMethodChart
  import AccountStatusChart

  // ---------------------------------------------------------------------
  // Fallbacks

  /** The keys of the all-zero metrics record used without a response. */
  const MetricKeys: set<string> := {
    "total_anomalies", "total_transactions", "avg_risk_score", "detection_rate",
    "avg_response_time", "precision", "recall", "f1_score", "false_positive_rate",
    "avg_detection_time", "statistical_latency", "ml_latency", "network_latency"
  }

  /** `dashboardMetrics || { ...all zero }`. */
  function AnalyticsData(metrics: Option<map<string, real>>): (r: map<string, real>)
    ensures metrics.Some? ==> r == metrics.value
    ensures metrics.None? ==> r.Keys == MetricKeys && forall k :: k in r ==> r[k] == 0.0
  {
    match metrics
    case Some(m) => m
    case None => map k | k in MetricKeys :: 0.0
  }

  /** A metric as shown, `analyticsData[metric] || 0`. */
  function MetricValue(data: map<string, real>, key: string): (r: real)
    ensures key in data ==> r == data[key]
    ensures r != 0.0 ==> key in data
  {
    if key in data then data[key] else 0.0
  }

  /** Without a metrics response every metric reads 0; with one, each
      metric reads the response's value, or 0 when it has none. */
  lemma MetricsFallback(metrics: Option<map<string, real>>, key: string)
    ensures metrics.None? ==> MetricValue(AnalyticsData(metrics), key) == 0.0
    ensures metrics.Some? && key in metrics.value ==>
      MetricValue(AnalyticsData(metrics), key) == metrics.value[key]
  {
  }

  /** `response?.field || []`: a list from a response, empty when the
      response or its field is missing (an array, even empty, is truthy). */
  function ListOrEmpty<T>(field: Option<Option<seq<T>>>): (r: seq<T>)
    ensures field.Some? && field.value.Some? ==> r == field.value.value
    ensures field.None? || field.value.None? ==> r == []
  {
    if field.Some? && field.value.Some? then field.value.value else []
  }

  // ---------------------------------------------------------------------
  // Loading and error gate

  /** The state of one of the four fetches. */
  datatype FetchState = FetchState(loading: bool, failed: bool)

  datatype DashboardView = LoadingView | ErrorView | ContentView

  /** Loading wins when any fetch is loading; otherwise one failed fetch
      shows the error view. */
  function View(metrics: FetchState, anomalies: FetchState, transactions: FetchState, network: FetchState): (v: DashboardView)
    ensures v == LoadingView <==> metrics.loading || anomalies.loading || transactions.loading || network.loading
    ensures v == ErrorView <==>
      !(metrics.loading || anomalies.loading || transactions.loading || network.loading) &&
      (metrics.failed || anomalies.failed || transactions.failed || network.failed)
  {
    if metrics.loading || anomalies.loading || transactions.loading || network.loading then LoadingView
    else if metrics.failed || anomalies.failed || transactions.failed || network.failed then ErrorView
    else ContentView
  }

  // ---------------------------------------------------------------------
  // Detection methods

  const Palette: seq<string> := ["#6366f1", "#10b981", "#f59e0b", "#ef4444", "#8b5cf6"]

  const UnknownMethod: string := "unknown"

  /** `anomaly.detection_method || "unknown"`. */
  function MethodKey(a: Anomaly): (k: string)
    ensures k != []
    ensures k == UnknownMethod <==> a.detectionMethod.None? || a.detectionMethod.value in {[], UnknownMethod}
  {
    match a.detectionMethod
    case Some(m) => if m == [] then UnknownMethod else m
    case None => UnknownMethod
  }

  /** The grouping key of each anomaly, in list order. */
  function Methods(anomalies: seq<Anomaly>): (ms: seq<string>)
    ensures |ms| == |anomalies|
    ensures forall i :: 0 <= i < |anomalies| ==> ms[i] == MethodKey(anomalies[i])
  {
    seq(|anomalies|, i requires 0 <= i < |anomalies| => MethodKey(anomalies[i]))
  }

  /** How often `x` occurs in `s`. */
  function Occurrences(s: seq<string>, x: string): nat
  {
    if s == [] then 0
    else Occurrences(s[..|s| - 1], x) + (if s[|s| - 1] == x then 1 else 0)
  }

  /** The distinct elements of `s` in order of first occurrence: the order
      in which keys enter the counting object. */
  function FirstOccurrences(s: seq<string>): (r: seq<string>)
    ensures |r| <= |s|
  {
    if s == [] then []
    else
      var p := FirstOccurrences(s[..|s| - 1]);
      var x := s[|s| - 1];
      if x in p then p else p + [x]
  }

  /** Every element appears among the keys, exactly once. */
  lemma {:induction false} FirstOccurrencesKeys(s: seq<string>)
    ensures forall x :: x in FirstOccurrences(s) <==> x in s
    ensures forall i, j :: 0 <= i < j < |FirstOccurrences(s)| ==> FirstOccurrences(s)[i] != FirstOccurrences(s)[j]
    decreases |s|
  {
    if s != [] {
      var p, x := s[..|s| - 1], s[|s| - 1];
      assert s == p + [x];
      FirstOccurrencesKeys(p);
    }
  }

  /** `method.charAt(0).toUpperCase() + method.slice(1)`. */
  function Capitalize(s: string): (r: string)
    ensures |r| == |s|
    ensures s != [] ==> r[0] == Upper(s[0]) && r[1..] == s[1..]
  {
    if s == [] then [] else [Upper(s[0])] + s[1..]
  }

  /** The chart entries for `keys`, the first at palette position `start`. */
  function Entries(keys: seq<string>, methods: seq<string>, start: nat): (r: seq<DetectionMethodChart.MethodEntry>)
    ensures |r| == |keys|
    ensures forall i :: 0 <= i < |r| ==> r[i].count == Occurrences(methods, keys[i]) && r[i].color in Palette
    ensures forall i :: 0 <= i < |r| ==> r[i].name == Capitalize(keys[i]) && r[i].color == Palette[(start + i) % 5]
  {
    seq(|keys|, i requires 0 <= i < |keys| =>
      DetectionMethodChart.MethodEntry(Capitalize(keys[i]), Occurrences(methods, keys[i]), Palette[(start + i) % 5]))
  }

  /** What `detectionMethods` evaluates to. */
  function DetectionMethodRows(anomalies: seq<Anomaly>): (r: seq<DetectionMethodChart.MethodEntry>)
    ensures r == [] <==> anomalies == []
    ensures |r| <= |anomalies|
  {
    if anomalies == [] then []
    else
      FirstOccurrencesKeys(Methods(anomalies));
      assert Methods(anomalies)[0] in FirstOccurrences(Methods(anomalies));
      Entries(FirstOccurrences(Methods(anomalies)), Methods(anomalies), 0)
  }

  /** The counting object after counting `s` in order: each key maps to
      the number of its occurrences. */
  function CountMap(s: seq<string>): (r: map<string, nat>)
    ensures forall x :: x in r ==> 1 <= r[x] <= |s|
  {
    if s == [] then map[]
    else
      var c := CountMap(s[..|s| - 1]);
      var x := s[|s| - 1];
      c[x := (if x in c then c[x] else 0) + 1]
  }

  /** The keys of the counting object are the counted elements. */
  lemma {:induction false} CountMapKeys(s: seq<string>, x: string)
    ensures x in CountMap(s) <==> x in s
    decreases |s|
  {
    if s != [] {
      var p := s[..|s| - 1];
      assert s == p + [s[|s| - 1]];
      CountMapKeys(p, x);
    }
  }

  /** The count under each key is its number of occurrences. */
  lemma {:induction false} CountMapCounts(s: seq<string>, x: string)
    requires x in s
    ensures x in CountMap(s) && CountMap(s)[x] == Occurrences(s, x)
    decreases |s|
  {
    var p := s[..|s| - 1];
    assert s == p + [s[|s| - 1]];
    CountMapKeys(s, x);
    CountMapKeys(p, x);
    if x in p {
      CountMapCounts(p, x);
    } else {
      OccurrencesAbsent(p, x);
    }
  }

  /** The names a plain object inherits from `Object.prototype`. */
  const Inherited: set<string> := {"constructor", "hasOwnProperty", "isPrototypeOf",
    "propertyIsEnumerable", "toLocaleString", "toString", "valueOf", "__proto__",
    "__defineGetter__", "__defineSetter__", "__lookupGetter__", "__lookupSetter__"}

  /** How a JavaScript engine prints an inherited method when it is
      converted to a string; `constructor` is the `Object` function. */
  function NativeSource(name: string): string
  {
    "function " + (if name == "constructor" then "Object" else name) + "() { [native code] }"
  }

  /** What `methodCounts[key]` holds as an own property after counting. */
  datatype CountValue = NoProperty | Number(n: nat) | Concatenated(s: string)

  /** `methodCounts[method] = (methodCounts[method] || 0) + 1` as written,
      for the one key `key`. An ordinary key counts up from 0. An inherited
      method name first reads the inherited function, which is truthy, and
      `function + 1` concatenates its source text with "1". Assigning to
      `__proto__` goes to the prototype setter, which ignores a string, so
      that key never becomes an own property. */
  function CountAsWritten(ms: seq<string>, key: string): (r: CountValue)
    ensures key == "__proto__" ==> r == NoProperty
    ensures r.Concatenated? ==> key in Inherited
    decreases |ms|
  {
    if ms == [] then NoProperty
    else
      var c := CountAsWritten(ms[..|ms| - 1], key);
      if ms[|ms| - 1] != key || key == "__proto__" then c
      else match c
        case NoProperty => if key in Inherited then Concatenated(NativeSource(key) + "1") else Number(1)
        case Number(n) => Number(n + 1)
        case Concatenated(t) => Concatenated(t + "1")
  }

  /** Off the inherited names, the written count is the number of
      occurrences, as `CountMap` has it. */
  lemma {:induction false} CountAsWrittenOrdinary(ms: seq<string>, key: string)
    requires key !in Inherited
    ensures CountAsWritten(ms, key) == if key in ms then Number(Occurrences(ms, key)) else NoProperty
    ensures key in ms ==> key in CountMap(ms) && CountAsWritten(ms, key) == Number(CountMap(ms)[key])
    decreases |ms|
  {
    if ms != [] {
      var p := ms[..|ms| - 1];
      assert ms == p + [ms[|ms| - 1]];
      CountAsWrittenOrdinary(p, key);
      if key !in p {
        OccurrencesAbsent(p, key);
      }
      if key in ms {
        CountMapCounts(ms, key);
      }
    }
  }

  /** An anomaly with detection method "toString" gets the count
      "function toString() { [native code] }1", and two of them append
      another "1"; a "__proto__" method gets no property, hence no row. */
  lemma ToStringMethodCountIsText()
    ensures CountAsWritten(["toString"], "toString")
      == Concatenated("function toString() { [native code] }1")
    ensures CountAsWritten(["toString", "toString"], "toString")
      == Concatenated("function toString() { [native code] }11")
    ensures CountAsWritten(["__proto__"], "__proto__") == NoProperty
    ensures CountMap(["toString"])["toString"] == 1
  {
    assert ["toString", "toString"][..1] == ["toString"];
    assert ["toString"][..0] == [];
  }

  /** Counting one more element adds it to the key order when it is new
      and adds one to its count. */
  lemma CountSnoc(ms: seq<string>, k: nat, keys: seq<string>, counts: map<string, nat>,
                  keys': seq<string>, counts': map<string, nat>)
    requires k < |ms|
    requires keys == FirstOccurrences(ms[..k]) && counts == CountMap(ms[..k])
    requires keys' == if ms[k] in counts then keys else keys + [ms[k]]
    requires counts' == counts[ms[k] := (if ms[k] in counts then counts[ms[k]] else 0) + 1]
    ensures keys' == FirstOccurrences(ms[..k + 1]) && counts' == CountMap(ms[..k + 1])
  {
    var s := ms[..k + 1];
    assert |s| == k + 1 && s[..|s| - 1] == ms[..k] && s[|s| - 1] == ms[k];
    CountMapKeys(ms[..k], ms[k]);
    FirstOccurrencesKeys(ms[..k]);
  }

  /** The counting pass of `detectionMethods`: keys in order of first
      occurrence and the count under each. */
  method CountMethods(anomalies: seq<Anomaly>) returns (keys: seq<string>, counts: map<string, nat>)
    ensures keys == FirstOccurrences(Methods(anomalies))
    ensures counts == CountMap(Methods(anomalies))
  {
    ghost var ms := Methods(anomalies);
    keys := [];
    counts := map[];
    var k := 0;
    while k < |anomalies|
      invariant 0 <= k <= |anomalies|
      invariant keys == FirstOccurrences(ms[..k])
      invariant counts == CountMap(ms[..k])
    {
      var m := MethodKey(anomalies[k]);
      ghost var keys0, counts0 := keys, counts;
      if m !in counts {
        // a new property of the object joins the end of its key order
        keys := keys + [m];
      }
      counts := counts[m := (if m in counts then counts[m] else 0) + 1];
      assert m == ms[k];
      CountSnoc(ms, k, keys0, counts0, keys, counts);
      k := k + 1;
    }
    assert ms[..k] == ms;
  }

  /** `detectionMethods`: counts the anomalies per method key in an object
      filled in list order, then lists its entries with capitalised labels
      and cycling colours. */
  method DetectionMethods(anomalies: seq<Anomaly>) returns (rows: seq<DetectionMethodChart.MethodEntry>)
    ensures rows == DetectionMethodRows(anomalies)
  {
    if |anomalies| == 0 {
      return [];
    }
    var keys, counts := CountMethods(anomalies);
    ghost var ms := Methods(anomalies);
    FirstOccurrencesKeys(ms);
    rows := [];
    var i := 0;
    while i < |keys|
      invariant 0 <= i <= |keys|
      invariant |rows| == i
      invariant forall j :: 0 <= j < i ==> rows[j] == Entries(keys, ms, 0)[j]
    {
      assert keys[i] in ms;
      CountMapKeys(ms, keys[i]);
      CountMapCounts(ms, keys[i]);
      rows := rows + [DetectionMethodChart.MethodEntry(Capitalize(keys[i]), counts[keys[i]], Palette[i % 5])];
      i := i + 1;
    }
    assert rows == Entries(keys, ms, 0);
  }

  /** Occurrences of distinct keys, summed. */
  function SumOccurrences(keys: seq<string>, s: seq<string>): nat
  {
    if keys == [] then 0 else Occurrences(s, keys[0]) + SumOccurrences(keys[1..], s)
  }

  lemma {:induction false} OccurrencesAbsent(s: seq<string>, x: string)
    requires x !in s
    ensures Occurrences(s, x) == 0
  {
    if s != [] {
      assert x !in s[..|s| - 1] by {
        assert forall y :: y in s[..|s| - 1] ==> y in s;
      }
      OccurrencesAbsent(s[..|s| - 1], x);
    }
  }

  /** One more element adds one to the sum exactly when it is one of the keys. */
  lemma {:induction false} SumOccurrencesSnoc(keys: seq<string>, s: seq<string>, x: string)
    requires forall i, j :: 0 <= i < j < |keys| ==> keys[i] != keys[j]
    ensures SumOccurrences(keys, s + [x]) == SumOccurrences(keys, s) + (if x in keys then 1 else 0)
    decreases |keys|
  {
    if keys != [] {
      assert (s + [x])[..|s + [x]| - 1] == s;
      SumOccurrencesSnoc(keys[1..], s, x);
      assert x in keys <==> x == keys[0] || x in keys[1..];
      if x == keys[0] {
        assert x !in keys[1..];
      }
    }
  }

  lemma {:induction false} SumOccurrencesAppend(keys: seq<string>, y: string, s: seq<string>)
    ensures SumOccurrences(keys + [y], s) == SumOccurrences(keys, s) + Occurrences(s, y)
    decreases |keys|
  {
    if keys != [] {
      assert (keys + [y])[1..] == keys[1..] + [y];
      SumOccurrencesAppend(keys[1..], y, s);
    }
  }

  /** Every element is counted under exactly one of the distinct keys. */
  lemma {:induction false} CountsCoverAll(s: seq<string>)
    ensures SumOccurrences(FirstOccurrences(s), s) == |s|
    decreases |s|
  {
    if s != [] {
      var s' := s[..|s| - 1];
      var x := s[|s| - 1];
      var p := FirstOccurrences(s');
      assert s == s' + [x];
      FirstOccurrencesKeys(s');
      CountsCoverAll(s');
      SumOccurrencesSnoc(p, s', x);
      if x !in p {
        SumOccurrencesAppend(p, x, s);
        OccurrencesAbsent(s', x);
        assert (s' + [x])[..|s| - 1] == s';
      }
    }
  }

  lemma {:induction false} EntriesSum(keys: seq<string>, methods: seq<string>, start: nat)
    ensures Sum(Entries(keys, methods, start), DetectionMethodChart.CountOf) == SumOccurrences(keys, methods)
    decreases |keys|
  {
    if keys != [] {
      EntriesSum(keys[1..], methods, start + 1);
      assert Entries(keys, methods, start)[1..] == Entries(keys[1..], methods, start + 1);
    }
  }

  /** Each anomaly is counted exactly once: the counts add up to the number
      of anomalies, and no input gives no rows. */
  lemma DetectionMethodsCountEachOnce(anomalies: seq<Anomaly>)
    ensures Sum(DetectionMethodRows(anomalies), DetectionMethodChart.CountOf) == |anomalies|
    ensures anomalies == [] <==> DetectionMethodRows(anomalies) == []
  {
    if anomalies != [] {
      var ms := Methods(anomalies);
      FirstOccurrencesKeys(ms);
      EntriesSum(FirstOccurrences(ms), ms, 0);
      CountsCoverAll(ms);
      assert ms[0] in ms;
    }
  }

  /** Every anomaly's method has a row, labelled with the capitalised key
      and counting at least that anomaly. */
  lemma EveryMethodHasRow(anomalies: seq<Anomaly>, j: nat)
    requires j < |anomalies|
    ensures exists i :: (0 <= i < |DetectionMethodRows(anomalies)| &&
      (DetectionMethodRows(anomalies)[i].name == Capitalize(MethodKey(anomalies[j])) &&
       DetectionMethodRows(anomalies)[i].count >= 1))
  {
    var ms := Methods(anomalies);
    var keys := FirstOccurrences(ms);
    FirstOccurrencesKeys(ms);
    assert ms[j] in ms;
    var i :| 0 <= i < |keys| && keys[i] == ms[j];
    OccurrencesPresent(ms, keys[i]);
    assert DetectionMethodRows(anomalies)[i].name == Capitalize(MethodKey(anomalies[j]));
  }

  lemma {:induction false} OccurrencesPresent(s: seq<string>, x: string)
    requires x in s
    ensures Occurrences(s, x) >= 1
  {
    if s[|s| - 1] != x {
      assert s == s[..|s| - 1] + [s[|s| - 1]];
      OccurrencesPresent(s[..|s| - 1], x);
    }
  }

  // ---------------------------------------------------------------------
  // Account buckets

  /** A network node as the account chart reads it; `riskScore` is `None`
      when missing (read as 0). */
  datatype AccountNode = AccountNode(isSuspicious: bool, riskScore: Option<real>)

  function RiskOrZero(a: AccountNode): real { a.riskScore.GetOr(0.0) }

  predicate IsNormal(a: AccountNode) { !a.isSuspicious && RiskOrZero(a) <= 80.0 }

  predicate IsSuspiciousOnly(a: AccountNode) { a.isSuspicious && RiskOrZero(a) <= 80.0 }

  predicate IsHighRisk(a: AccountNode) { RiskOrZero(a) > 80.0 }

  /** The slices handed to the account chart, or `None` for the "No account
      data available" placeholder when there are no accounts: the normal,
      suspicious-only and high-risk counts under their names, in that order,
      adding up to the number of accounts (the chart's tooltip divides by
      the account count). */
  function AccountSlices(accounts: seq<AccountNode>): (r: Option<seq<AccountStatusChart.Slice>>)
    ensures r.None? <==> accounts == []
    ensures r.Some? ==> (
      && |r.value| == 3
      && r.value[0] == AccountStatusChart.Slice("Normal Accounts", |Filter(accounts, IsNormal)|)
      && r.value[1] == AccountStatusChart.Slice("Suspicious Accounts", |Filter(accounts, IsSuspiciousOnly)|)
      && r.value[2] == AccountStatusChart.Slice("High Risk / Anomalies", |Filter(accounts, IsHighRisk)|)
      && Sum(r.value, AccountStatusChart.ValueOf) == |accounts|)
  {
    if |accounts| == 0 then None
    else
      var slices := [
        AccountStatusChart.Slice("Normal Accounts", |Filter(accounts, IsNormal)|),
        AccountStatusChart.Slice("Suspicious Accounts", |Filter(accounts, IsSuspiciousOnly)|),
        AccountStatusChart.Slice("High Risk / Anomalies", |Filter(accounts, IsHighRisk)|)];
      BucketSizes(accounts);
      assert slices[1..][1..][1..] == [];
      assert Sum(slices[1..][1..], AccountStatusChart.ValueOf) == slices[2].value;
      assert Sum(slices[1..], AccountStatusChart.ValueOf) == slices[1].value + slices[2].value;
      Some(slices)
  }

  /** Every account falls in exactly one bucket. */
  lemma BucketsDisjoint(a: AccountNode)
    ensures (IsNormal(a) || IsSuspiciousOnly(a) || IsHighRisk(a))
    ensures !(IsNormal(a) && IsSuspiciousOnly(a))
    ensures !(IsNormal(a) && IsHighRisk(a))
    ensures !(IsSuspiciousOnly(a) && IsHighRisk(a))
  {
  }

  lemma {:induction false} BucketSizes(accounts: seq<AccountNode>)
    ensures |Filter(accounts, IsNormal)| + |Filter(accounts, IsSuspiciousOnly)| + |Filter(accounts, IsHighRisk)|
      == |accounts|
    decreases |accounts|
  {
    if accounts != [] {
      BucketSizes(accounts[1..]);
    }
  }

  // ---------------------------------------------------------------------
  // Status filter and selection

  /** The filter buttons, in order. */
  const FilterStatuses: seq<string> := ["all", "pending", "investigating", "confirmed", "false_positive"]

  class Dashboard {
    var statusFilter: string
    var selected: Option<Anomaly>

    constructor ()
      ensures statusFilter == "all" && selected == None
    {
      statusFilter := "all";
      selected := None;
    }

    /** A filter button only records its status; `ListedAnomalies` takes
        no filter. */
    method SetStatusFilter(status: string)
      modifies this
      ensures statusFilter == status && selected == old(selected)
    {
      statusFilter := status;
    }

    method Select(a: Anomaly)
      modifies this
      ensures selected == Some(a) && statusFilter == old(statusFilter)
    {
      selected := Some(a);
    }
  }

  /** The list handed to the anomaly cards: the fetched anomalies, or none
      without a response. It takes no status filter, so the filter buttons
      never narrow it. */
  function ListedAnomalies(anomaliesData: Option<Option<seq<Anomaly>>>): (r: seq<Anomaly>)
    ensures anomaliesData.Some? && anomaliesData.value.Some? ==> r == anomaliesData.value.value
    ensures anomaliesData.None? || anomaliesData.value.None? ==> r == []
  {
    ListOrEmpty(anomaliesData)
  }

  /** The filter never narrows the list, and since the dashboard passes no
      `setAnomalies`, a status change on its cards leaves the list as it was
      even when the server accepts it. */
  lemma FilterAndStatusChangeKeepList(anomaliesData: Option<Option<seq<Anomaly>>>, anomaly: Anomaly, newStatus: string, accepted: bool)
    ensures AfterStatusChange(ListedAnomalies(anomaliesData), anomaly, newStatus, accepted, false) == ListedAnomalies(anomaliesData)
  {
  }
}

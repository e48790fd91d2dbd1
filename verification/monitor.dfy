/** The live-stream view model of the monitor page
    (frontend/src/components/TransactionMonitor.jsx): a socket whose decoded
    messages feed two newest-first lists, a `monitoring` flag that starts and
    stops the socket, and statistics derived from the transaction list. */
module TransactionMonitor {
  import opened Wrappers
  import opened Seqs

  /** A streamed transaction. `amount` is `None` when the property is
      missing or falsy; `isAnomaly` is the truthiness of `is_anomaly`. */
  datatype Transaction = Transaction(
    id: string, fromAccount: string, toAccount: string,
    amount: Option<real>, timestamp: string, isAnomaly: bool)

  datatype Alert = Alert(id: string, message: string, severity: string, timestamp: string)

  /** A socket frame after `JSON.parse`. `Malformed` is a frame whose parse
      (or whose first property access) throws. In `Parsed`, each field is
      `None` when the property is absent or falsy; an empty `transactions`
      array is truthy and so is `Some([])`. */
  datatype Message =
    | Malformed
    | Parsed(latestTransaction: Option<Transaction>,
             newAlert: Option<Alert>,
             transactions: Option<seq<Transaction>>)

  /** The socket owned by the monitoring effect. */
  datatype Socket = NoSocket | Connecting | Open

  /** How many previous entries survive a prepend, and the snapshot cut. */
  const TransactionKeep: nat := 40
  const AlertKeep: nat := 9
  const SnapshotKeep: nat := 40

  /** The largest lists the two paths can produce. */
  const MaxTransactions: nat := TransactionKeep + 1
  const MaxAlerts: nat := AlertKeep + 1

  /** The frame sent when the socket opens. */
  const SubscribeFrame: string := "{\"action\":\"subscribe\"}"

  /** `[x, ...prev.slice(0, keep)]`: `x` becomes element 0, followed by the
      first `keep` previous entries in their order. */
  function Prepend<T>(x: T, prev: seq<T>, keep: nat): (r: seq<T>)
    ensures |r| == 1 + (if |prev| < keep then |prev| else keep)
    ensures |r| <= keep + 1
    ensures r[0] == x
    ensures forall i :: 1 <= i < |r| ==> r[i] == prev[i - 1]
  {
    [x] + Take(prev, keep)
  }

  /** A prepend is a bounded push: the newest `keep + 1` of `[x] + prev`. */
  lemma PrependIsBoundedPush<T>(x: T, prev: seq<T>, keep: nat)
    ensures Prepend(x, prev, keep) == Take([x] + prev, keep + 1)
  {
    var r, t := Prepend(x, prev, keep), Take([x] + prev, keep + 1);
    assert |r| == |t|;
    forall i | 0 <= i < |r| ensures r[i] == t[i] {
      if i > 0 {
        assert t[i] == ([x] + prev)[i] == prev[i - 1];
      }
    }
  }

  /** `s` in reverse order. */
  function Reverse<T>(s: seq<T>): (r: seq<T>)
    ensures |r| == |s|
  {
    if s == [] then [] else Reverse(s[1..]) + [s[0]]
  }

  /** The list after prepending each of `xs` in arrival order. */
  function Feed<T>(s: seq<T>, xs: seq<T>, keep: nat): seq<T>
    decreases |xs|
  {
    if xs == [] then s else Feed(Prepend(xs[0], s, keep), xs[1..], keep)
  }

  /** Cutting the tail before the final cut changes nothing. */
  lemma TakeOfAppendTake<T>(a: seq<T>, b: seq<T>, n: nat)
    ensures Take(a + Take(b, n), n) == Take(a + b, n)
  {
    var l, r := Take(a + Take(b, n), n), Take(a + b, n);
    assert |l| == |r|;
    forall i | 0 <= i < |l| ensures l[i] == r[i] {
      if i >= |a| {
        assert (a + Take(b, n))[i] == Take(b, n)[i - |a|] == b[i - |a|];
      }
    }
  }

  /** After any run of prepends, the list holds the newest `keep + 1`
      entries, newest first: the arrivals in reverse order, then what was
      there before. */
  lemma {:induction false} FeedKeepsNewest<T>(s: seq<T>, xs: seq<T>, keep: nat)
    requires |s| <= keep + 1
    ensures Feed(s, xs, keep) == Take(Reverse(xs) + s, keep + 1)
    decreases |xs|
  {
    if xs == [] {
    } else {
      var x, rest := xs[0], xs[1..];
      var s' := Prepend(x, s, keep);
      assert Feed(s, xs, keep) == Feed(s', rest, keep);
      FeedKeepsNewest(s', rest, keep);
      PrependIsBoundedPush(x, s, keep);
      TakeOfAppendTake(Reverse(rest), [x] + s, keep + 1);
      assert Reverse(xs) == Reverse(rest) + [x];
      assert Reverse(xs) + s == Reverse(rest) + ([x] + s);
    }
  }

  /** The amount counted in the volume: `t.amount || 0`. */
  function AmountOrZero(t: Transaction): real
  {
    match t.amount
    case Some(a) => a
    case None => 0.0
  }

  /** `transactions.reduce((sum, t) => sum + (t.amount || 0), 0)`. */
  function Volume(ts: seq<Transaction>): (r: real)
    ensures (forall i :: 0 <= i < |ts| ==> AmountOrZero(ts[i]) >= 0.0) ==> r >= 0.0
    decreases |ts|
  {
    if ts == [] then 0.0
    else
      assert forall i :: 1 <= i < |ts| ==> ts[1..][i - 1] == ts[i];
      AmountOrZero(ts[0]) + Volume(ts[1..])
  }

  /** The volume of a concatenation is the sum of the volumes. */
  lemma {:induction false} VolumeConcat(a: seq<Transaction>, b: seq<Transaction>)
    ensures Volume(a + b) == Volume(a) + Volume(b)
    decreases |a|
  {
    if a == [] {
      assert a + b == b;
    } else {
      VolumeConcat(a[1..], b);
      assert (a + b)[0] == a[0];
      assert (a + b)[1..] == a[1..] + b;
    }
  }

  predicate IsAnomalous(t: Transaction) { t.isAnomaly }

  datatype MonitorStats = MonitorStats(activeTransactions: nat, anomaliesDetected: nat, totalVolume: real)

  /** The `stats` object computed on every render. */
  function Stats(ts: seq<Transaction>): (st: MonitorStats)
    ensures st.activeTransactions == |ts|
    ensures st.anomaliesDetected <= st.activeTransactions
    ensures st.anomaliesDetected == |Filter(ts, IsAnomalous)|
    ensures st.totalVolume == Volume(ts)
  {
    MonitorStats(|ts|, |Filter(ts, IsAnomalous)|, Volume(ts))
  }

  /** A prepended transaction adds one to the count, its amount to the
      volume and, when anomalous, one to the anomaly count; the entries cut
      from the tail leave the statistics. */
  lemma StatsAfterPrepend(t: Transaction, prev: seq<Transaction>)
    requires |prev| <= TransactionKeep
    ensures Stats(Prepend(t, prev, TransactionKeep)).activeTransactions == |prev| + 1
    ensures Stats(Prepend(t, prev, TransactionKeep)).anomaliesDetected
         == Stats(prev).anomaliesDetected + (if t.isAnomaly then 1 else 0)
    ensures Stats(Prepend(t, prev, TransactionKeep)).totalVolume
         == AmountOrZero(t) + Stats(prev).totalVolume
  {
    var r := Prepend(t, prev, TransactionKeep);
    assert r == [t] + prev;
    assert r[1..] == prev;
  }

  class Monitor {
    /** `isMonitoring`. */
    var monitoring: bool
    /** The socket the effect holds while monitoring. */
    var socket: Socket
    /** `transactions`, newest first. */
    var transactions: seq<Transaction>
    /** `alerts`, newest first. */
    var alerts: seq<Alert>
    /** Frames written to the socket. */
    var sent: seq<string>

    /** Both lists stay bounded, and a socket exists only while monitoring. */
    ghost predicate Valid()
      reads this
    {
      && |transactions| <= MaxTransactions
      && |alerts| <= MaxAlerts
      && (socket != NoSocket ==> monitoring)
    }

    /** The component's initial state. */
    constructor ()
      ensures Valid()
      ensures !monitoring && socket == NoSocket
      ensures transactions == [] && alerts == [] && sent == []
    {
      monitoring := false;
      socket := NoSocket;
      transactions := [];
      alerts := [];
      sent := [];
    }

    /** The start/stop button: flips `isMonitoring`. Starting makes the
        effect open a new socket; stopping runs the effect's cleanup, which
        closes the socket. Neither list is cleared. */
    method Toggle()
      requires Valid()
      modifies this
      ensures Valid()
      ensures monitoring == !old(monitoring)
      ensures socket == (if monitoring then Connecting else NoSocket)
      ensures transactions == old(transactions) && alerts == old(alerts) && sent == old(sent)
    {
      monitoring := !monitoring;
      socket := if monitoring then Connecting else NoSocket;
    }

    /** The socket's open event: one subscribe frame is sent. */
    method OnOpen()
      requires Valid()
      modifies this
      ensures Valid()
      ensures socket == (if old(socket) == Connecting then Open else old(socket))
      ensures sent == if old(socket) == Connecting then old(sent) + [SubscribeFrame] else old(sent)
      ensures monitoring == old(monitoring)
      ensures transactions == old(transactions) && alerts == old(alerts)
    {
      if socket == Connecting {
        socket := Open;
        sent := sent + [SubscribeFrame];
      }
    }

    /** The socket's message event. The three properties are checked by
        independent `if`s in order, so a snapshot in the same frame as a
        new transaction wins. A frame reaches the handler only while the
        socket is open. */
    method OnMessage(msg: Message)
      requires Valid()
      modifies this
      ensures Valid()
      ensures monitoring == old(monitoring) && socket == old(socket) && sent == old(sent)
      ensures old(socket) != Open || msg.Malformed? ==>
                transactions == old(transactions) && alerts == old(alerts)
      ensures old(socket) == Open && msg.Parsed? ==>
                transactions == (match (msg.transactions, msg.latestTransaction)
                                 case (Some(snapshot), _) => Take(snapshot, SnapshotKeep)
                                 case (None, Some(t)) => Prepend(t, old(transactions), TransactionKeep)
                                 case (None, None) => old(transactions))
      ensures old(socket) == Open && msg.Parsed? ==>
                alerts == (match msg.newAlert
                           case Some(a) => Prepend(a, old(alerts), AlertKeep)
                           case None => old(alerts))
    {
      if socket != Open {
        return;
      }
      match msg
      case Malformed =>
      case Parsed(latest, alert, snapshot) =>
        if latest.Some? {
          transactions := Prepend(latest.value, transactions, TransactionKeep);
        }
        if alert.Some? {
          alerts := Prepend(alert.value, alerts, AlertKeep);
        }
        if snapshot.Some? {
          transactions := Take(snapshot.value, SnapshotKeep);
        }
    }

    /** The socket's error event: monitoring stops, and the effect's
        cleanup closes the socket. Both lists are kept. */
    method OnError()
      requires Valid()
      modifies this
      ensures Valid()
      ensures !monitoring && socket == NoSocket
      ensures transactions == old(transactions) && alerts == old(alerts) && sent == old(sent)
    {
      monitoring := false;
      socket := NoSocket;
    }

    /** The socket's close event; it has the same effect as an error. */
    method OnClose()
      requires Valid()
      modifies this
      ensures Valid()
      ensures !monitoring && socket == NoSocket
      ensures transactions == old(transactions) && alerts == old(alerts) && sent == old(sent)
    {
      monitoring := false;
      socket := NoSocket;
    }

    /** The statistics shown for the current list. */
    function CurrentStats(): (st: MonitorStats)
      reads this
      ensures st.activeTransactions == |transactions|
      ensures st.anomaliesDetected <= st.activeTransactions
      ensures st.anomaliesDetected == |Filter(transactions, IsAnomalous)|
      ensures st.totalVolume == Volume(transactions)
      ensures st == Stats(transactions)
    {
      Stats(transactions)
    }
  }

  /** Two streamed transactions, the second anomalous: the list is newest
      first and the statistics count one anomaly and the summed volume. */
  method TwoTransactionScenario()
  {
    var m := new Monitor();
    m.Toggle();
    m.OnOpen();
    var t1 := Transaction("t1", "a", "b", Some(100.0), "", false);
    var t2 := Transaction("t2", "b", "c", Some(9000.0), "", true);
    m.OnMessage(Parsed(Some(t1), None, None));
    m.OnMessage(Parsed(Some(t2), None, None));
    assert m.transactions == [t2, t1];
    var st := m.CurrentStats();
    assert [t2, t1][1..] == [t1] && [t1][1..] == [];
    assert Filter([t2, t1], IsAnomalous) == [t2];
    assert Volume([t2, t1]) == 9000.0 + Volume([t1]);
    assert st.anomaliesDetected == 1;
    assert st.totalVolume == 9100.0;
    m.OnClose();
    m.OnMessage(Parsed(Some(t1), None, None));
    assert m.transactions == [t2, t1];
  }
}

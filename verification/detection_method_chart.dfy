/** The per-method share bars of
    frontend/src/components/DetectionMethodChart.jsx. */
module DetectionMethodChart {
  import opened Seqs

  /** An input entry; `name` is the entry's `method` text. */
  datatype MethodEntry = MethodEntry(name: string, count: int, color: string)

  /** One rendered row: the share shown as a rounded percentage and the bar
      width as the unrounded one. */
  datatype ChartRow = ChartRow(name: string, count: int, color: string, percent: int, width: real)

  function CountOf(e: MethodEntry): int { e.count }

  /** `data.reduce((sum, item) => sum + item.count, 0) || 1`: a zero sum is
      replaced by 1, so the divisor is never zero. */
  function Total(data: seq<MethodEntry>): (t: int)
    ensures t != 0
    ensures t == Sum(data, CountOf) || (Sum(data, CountOf) == 0 && t == 1)
  {
    var s := Sum(data, CountOf);
    if s == 0 then 1 else s
  }

  /** `Math.round(x)`: the nearest integer, halves rounded up. */
  function Round(x: real): (r: int)
    ensures x - 0.5 < r as real <= x + 0.5
  {
    (x + 0.5).Floor
  }

  /** `(count / total) * 100`. */
  function Share(count: int, total: int): (r: real)
    requires total != 0
    ensures r * total as real == count as real * 100.0
  {
    (count as real / total as real) * 100.0
  }

  /** One row: the entry's name, count and colour, its share of `total`
      as the width, and that share rounded as the percentage. */
  function Row(e: MethodEntry, total: int): (r: ChartRow)
    requires total != 0
    ensures r.name == e.name && r.count == e.count && r.color == e.color
    ensures r.width * total as real == e.count as real * 100.0
    ensures r.width - 0.5 < r.percent as real <= r.width + 0.5
  {
    ChartRow(e.name, e.count, e.color, Round(Share(e.count, total)), Share(e.count, total))
  }

  /** `data.map(...)`: one row per entry, in input order, all against the
      same divisor. */
  function Rows(data: seq<MethodEntry>): (r: seq<ChartRow>)
    ensures |r| == |data|
    ensures forall i :: 0 <= i < |data| ==>
      r[i].name == data[i].name && r[i].count == data[i].count && r[i].color == data[i].color
    ensures forall i :: 0 <= i < |data| ==>
      r[i].width * Total(data) as real == data[i].count as real * 100.0
    ensures forall i :: 0 <= i < |data| ==>
      r[i].width - 0.5 < r[i].percent as real <= r[i].width + 0.5
  {
    var t := Total(data);
    seq(|data|, i requires 0 <= i < |data| => Row(data[i], t))
  }

  predicate NonNegativeCounts(data: seq<MethodEntry>)
  {
    forall i :: 0 <= i < |data| ==> data[i].count >= 0
  }

  /** A share of a part of a positive whole lies between 0 and 100. */
  lemma ShareBounds(count: int, total: int)
    requires 0 <= count <= total && total > 0
    ensures 0.0 <= Share(count, total) <= 100.0
  {
    assert count as real / total as real <= 1.0 by {
      assert count as real <= total as real;
    }
  }

  /** With non-negative counts every bar width and every shown percentage
      lies in 0..100. */
  lemma {:induction false} RowsInRange(data: seq<MethodEntry>)
    requires NonNegativeCounts(data)
    ensures forall i :: 0 <= i < |data| ==>
      0.0 <= Rows(data)[i].width <= 100.0 && 0 <= Rows(data)[i].percent <= 100
  {
    var t := Total(data);
    var r := Rows(data);
    forall i | 0 <= i < |data|
      ensures 0.0 <= r[i].width <= 100.0 && 0 <= r[i].percent <= 100
    {
      TermAtMostSum(data, CountOf, i);
      ShareBounds(data[i].count, t);
    }
  }

  /** The sum of the bar widths of a sequence of entries. */
  function SumWidths(rows: seq<ChartRow>): real
  {
    if rows == [] then 0.0 else rows[0].width + SumWidths(rows[1..])
  }

  /** Shares against a common divisor add up like the counts. */
  lemma {:induction false} SharesAdd(data: seq<MethodEntry>, total: int)
    requires total != 0
    ensures SumWidths(seq(|data|, i requires 0 <= i < |data| => Row(data[i], total)))
      == Share(Sum(data, CountOf), total)
    decreases |data|
  {
    var rows := seq(|data|, i requires 0 <= i < |data| => Row(data[i], total));
    if data != [] {
      var tail := seq(|data[1..]|, i requires 0 <= i < |data[1..]| => Row(data[1..][i], total));
      assert rows[1..] == tail;
      SharesAdd(data[1..], total);
      var c, s := data[0].count as real, Sum(data[1..], CountOf) as real;
      assert (c / total as real) * 100.0 + (s / total as real) * 100.0
          == ((c + s) / total as real) * 100.0;
    }
  }

  /** When some method has a count, the bar widths add up to 100. */
  lemma WidthsAddToHundred(data: seq<MethodEntry>)
    requires Sum(data, CountOf) != 0
    ensures SumWidths(Rows(data)) == 100.0
  {
    var t := Total(data);
    SharesAdd(data, t);
    assert t == Sum(data, CountOf);
    assert (t as real) / (t as real) == 1.0;
  }

  /** With no counts at all every row shows 0% and an empty bar. */
  lemma AllZeroShowsZero(data: seq<MethodEntry>)
    requires forall i :: 0 <= i < |data| ==> data[i].count == 0
    ensures forall i :: 0 <= i < |data| ==> Rows(data)[i].percent == 0 && Rows(data)[i].width == 0.0
  {
  }
}

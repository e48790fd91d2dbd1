/** The account-status pie of frontend/src/components/AccountStatusChart.jsx:
    the plotted slices, their colours and the tooltip percentage. */
module AccountStatusChart {
  import opened Wrappers
  import opened Seqs

  datatype Slice = Slice(name: string, value: int)

  /** `COLORS`: green, yellow, red. */
  const Colors: seq<string> := ["#10b981", "#f59e0b", "#ef4444"]

  predicate Positive(s: Slice) { s.value > 0 }

  function ValueOf(s: Slice): int { s.value }

  /** `data.filter((item) => item.value > 0)`. */
  function Plotted(data: seq<Slice>): (r: seq<Slice>)
    ensures |r| <= |data|
    ensures forall i :: 0 <= i < |r| ==> r[i].value > 0
  {
    Filter(data, Positive)
  }

  /** The plotted slices are exactly the positive ones, in input order. */
  lemma PlottedExactly(data: seq<Slice>)
    ensures SubsequenceOf(Plotted(data), data)
    ensures forall s :: s in Plotted(data) <==> s in data && s.value > 0
  {
    FilterIsSubsequence(data, Positive);
    forall s ensures s in Plotted(data) <==> s in data && s.value > 0 {
      FilterMembers(data, Positive, s);
    }
  }

  /** One pie cell: the plotted slice and its fill colour. */
  datatype Cell = Cell(slice: Slice, fill: string)

  /** `filteredData.map((entry, index) => <Cell fill={COLORS[index % 3]}/>)`:
      the colour goes by position among the plotted slices. */
  function Cells(data: seq<Slice>): (r: seq<Cell>)
    ensures |r| == |Plotted(data)|
    ensures forall i :: 0 <= i < |r| ==> r[i].slice == Plotted(data)[i] && r[i].slice.value > 0
    ensures forall i :: 0 <= i < |r| ==> r[i].fill in Colors
    ensures forall i :: 0 <= i < |r| ==> r[i].fill == Colors[i % 3]
  {
    var p := Plotted(data);
    seq(|p|, i requires 0 <= i < |p| => Cell(p[i], Colors[i % 3]))
  }

  /** Colours repeat with period three along the plotted slices. */
  lemma ColorsCycle(data: seq<Slice>, i: nat)
    requires i + 3 < |Cells(data)|
    ensures Cells(data)[i].fill == Cells(data)[i + 3].fill
  {
    assert (i + 3) % 3 == i % 3;
  }

  /** When nothing is zero, every category keeps the colour of its input
      position. */
  lemma ColorsByInputPosition(data: seq<Slice>)
    requires forall i :: 0 <= i < |data| ==> data[i].value > 0
    ensures |Cells(data)| == |data|
    ensures forall i :: 0 <= i < |data| ==> Cells(data)[i] == Cell(data[i], Colors[i % 3])
  {
    FilterAll(data, Positive);
  }

  /** A zero-valued first category shifts the colours of the later ones:
      the second category is drawn green, not yellow. */
  lemma ZeroCategoryShiftsColors(a: string, b: string, c: string)
    ensures Cells([Slice(a, 0), Slice(b, 5), Slice(c, 3)])
      == [Cell(Slice(b, 5), Colors[0]), Cell(Slice(c, 3), Colors[1])]
  {
    var data := [Slice(a, 0), Slice(b, 5), Slice(c, 3)];
    assert data[1..][1..][1..] == [];
    assert Filter(data[1..][1..], Positive) == [Slice(c, 3)];
    assert Filter(data[1..], Positive) == [Slice(b, 5), Slice(c, 3)];
  }

  /** The tooltip contents for the hovered slice. */
  datatype TooltipView = TooltipView(name: string, count: int, percentage: Option<real>)

  /** `(value / data.reduce(sum of values)) * 100` over the unfiltered data;
      a zero sum makes the ratio non-finite (`None`). */
  function Percentage(value: int, data: seq<Slice>): (r: Option<real>)
    ensures r.None? <==> Sum(data, ValueOf) == 0
    ensures r.Some? ==> r.value * Sum(data, ValueOf) as real == value as real * 100.0
  {
    var total := Sum(data, ValueOf);
    if total == 0 then None else Some((value as real / total as real) * 100.0)
  }

  /** `CustomTooltip`: nothing unless active with a non-empty payload, and
      then the first payload entry. */
  function Tooltip(active: bool, payload: Option<seq<Slice>>, data: seq<Slice>): (r: Option<TooltipView>)
    ensures r.Some? <==> active && payload.Some? && |payload.value| > 0
    ensures r.Some? ==> r.value.name == payload.value[0].name && r.value.count == payload.value[0].value
    ensures r.Some? ==> r.value.percentage == Percentage(payload.value[0].value, data)
  {
    if active && payload.Some? && |payload.value| > 0 then
      var hovered := payload.value[0];
      Some(TooltipView(hovered.name, hovered.value, Percentage(hovered.value, data)))
    else
      None
  }

  /** Hovering a plotted slice of non-negative data shows a percentage in
      (0, 100]: the unfiltered sum includes the slice. */
  lemma {:induction false} HoveredPercentageInRange(data: seq<Slice>, k: nat, rest: seq<Slice>)
    requires forall i :: 0 <= i < |data| ==> data[i].value >= 0
    requires k < |Plotted(data)|
    ensures Tooltip(true, Some([Plotted(data)[k]] + rest), data).Some?
    ensures var p := Tooltip(true, Some([Plotted(data)[k]] + rest), data).value.percentage;
      p.Some? && 0.0 < p.value <= 100.0
  {
    var s := Plotted(data)[k];
    PlottedExactly(data);
    assert s in Plotted(data);
    var i :| 0 <= i < |data| && data[i] == s;
    TermAtMostSum(data, ValueOf, i);
    var total := Sum(data, ValueOf);
    RatioBounds(s.value, total);
  }

  /** A positive part of a whole is a share in (0, 100]. */
  lemma RatioBounds(part: int, whole: int)
    requires 0 < part <= whole
    ensures 0.0 < (part as real / whole as real) * 100.0 <= 100.0
  {
    assert part as real / whole as real <= 1.0 by {
      assert part as real <= whole as real;
    }
  }
}

/**
 * The process list of updateProcesses: five synthetic rows, each drawn
 * from three Math.random() values, then sorted by CPU usage, highest first.
 *
 * The source keeps `cpu` and `memory` as the strings toFixed(1) and
 * toFixed(0) produce and sorts with `b.cpu - a.cpu`, which converts them
 * back to numbers; here cpu is held as an integer count of tenths of a
 * percent and memory as whole megabytes, which orders the rows the same way.
 */
module Processes {

  /** processNames: the pool a row's name is drawn from. */
  const ProcessNames: seq<string> :=
    ["System", "Chrome", "VSCode", "Slack", "Terminal",
     "Spotify", "Docker", "Node", "Python", "Firefox"]

  /** The number of rows the loop generates. */
  const RowCount: nat := 5

  datatype ProcessRow = ProcessRow(name: string, cpuTenths: int, memoryMb: int)

  /** The three Math.random() draws one loop iteration makes, in order. */
  datatype RowDraw = RowDraw(nameU: real, cpuU: real, memoryU: real)

  predicate IsDraw(u: real) { 0.0 <= u < 1.0 }

  predicate ValidDraw(d: RowDraw) {
    IsDraw(d.nameU) && IsDraw(d.cpuU) && IsDraw(d.memoryU)
  }

  /**
   * toFixed on an exact value: the nearest integer, halves rounded up.
   * `r` is the integer within half a unit of `x`.
   */
  function RoundHalfUp(x: real): (r: int)
    ensures (r as real) - 0.5 <= x < (r as real) + 0.5
  {
    (x + 0.5).Floor
  }

  /** Math.floor(Math.random() * processNames.length): always a valid index. */
  function NameIndex(u: real): (k: int)
    ensures IsDraw(u) ==> 0 <= k < |ProcessNames|
  {
    assert IsDraw(u) ==> 0.0 <= u * 10.0 < 10.0;
    (u * (|ProcessNames| as real)).Floor
  }

  /**
   * One generated row: a name from the pool, cpu in [0, 25] percent (in
   * tenths: [0, 250]) and memory in [200, 1000] MB.
   */
  function MakeRow(d: RowDraw): (row: ProcessRow)
    requires ValidDraw(d)
    ensures row.name in ProcessNames
    ensures 0 <= row.cpuTenths <= 250
    ensures 200 <= row.memoryMb <= 1000
  {
    ProcessRow(
      ProcessNames[NameIndex(d.nameU)],
      RoundHalfUp(d.cpuU * 25.0 * 10.0),
      RoundHalfUp(d.memoryU * 800.0 + 200.0))
  }

  /** Non-increasing by cpu: what the comparator `b.cpu - a.cpu` asks for. */
  predicate DescendingByCpu(s: seq<ProcessRow>) {
    forall i, j :: 0 <= i < j < |s| ==> s[i].cpuTenths >= s[j].cpuTenths
  }

  /** Exchanges the rows at j - 1 and j, leaving every other row in place. */
  method SwapWithPrevious(a: array<ProcessRow>, j: int)
    requires 0 < j < a.Length
    modifies a
    ensures a[..] == old(a[..])[j - 1 := old(a[j])][j := old(a[j - 1])]
    ensures multiset(a[..]) == multiset(old(a[..]))
  {
    a[j - 1], a[j] := a[j], a[j - 1];
  }

  /**
   * One insertion step: the row at index i moves left past every row with
   * a smaller cpu, so that the prefix a[..i + 1] is sorted; rows beyond i
   * are not touched.
   */
  method SinkRow(a: array<ProcessRow>, i: int)
    requires 0 < i < a.Length
    requires DescendingByCpu(a[..i])
    modifies a
    ensures DescendingByCpu(a[..i + 1])
    ensures multiset(a[..]) == multiset(old(a[..]))
    ensures a[i + 1..] == old(a[i + 1..])
  {
    var j := i;
    while j > 0 && a[j - 1].cpuTenths < a[j].cpuTenths
      invariant 0 <= j <= i
      invariant multiset(a[..]) == multiset(old(a[..]))
      invariant a[i + 1..] == old(a[i + 1..])
      invariant forall p, q :: 0 <= p < q <= i && p != j && q != j ==> a[p].cpuTenths >= a[q].cpuTenths
      invariant forall q :: j < q <= i ==> a[j].cpuTenths > a[q].cpuTenths
      invariant 0 < j < i ==> a[j - 1].cpuTenths >= a[j + 1].cpuTenths
    {
      SwapWithPrevious(a, j);
      j := j - 1;
    }
  }

  /** processes.sort((a, b) => b.cpu - a.cpu), done in place by insertion. */
  method SortByCpuDescending(a: array<ProcessRow>)
    modifies a
    ensures DescendingByCpu(a[..])
    ensures multiset(a[..]) == multiset(old(a[..]))
  {
    if a.Length == 0 {
      return;
    }
    var i := 1;
    while i < a.Length
      invariant 1 <= i <= a.Length
      invariant DescendingByCpu(a[..i])
      invariant multiset(a[..]) == multiset(old(a[..]))
    {
      SinkRow(a, i);
      i := i + 1;
    }
    assert a[..a.Length] == a[..];
  }

  /**
   * updateProcesses without the DOM: exactly RowCount rows, one per draw,
   * sorted by cpu, highest first, and a permutation of the generated rows.
   */
  method UpdateProcesses(draws: seq<RowDraw>) returns (rows: seq<ProcessRow>)
    requires |draws| == RowCount
    requires forall k :: 0 <= k < |draws| ==> ValidDraw(draws[k])
    ensures |rows| == RowCount
    ensures DescendingByCpu(rows)
    ensures multiset(rows) == multiset(seq(RowCount, k requires 0 <= k < RowCount => MakeRow(draws[k])))
    ensures forall k :: 0 <= k < |rows| ==>
      rows[k].name in ProcessNames && 0 <= rows[k].cpuTenths <= 250 && 200 <= rows[k].memoryMb <= 1000
  {
    var processes := new ProcessRow[RowCount];
    for i := 0 to RowCount
      invariant forall k :: 0 <= k < i ==> processes[k] == MakeRow(draws[k])
    {
      processes[i] := MakeRow(draws[i]);
    }
    ghost var generated := processes[..];
    assert generated == seq(RowCount, k requires 0 <= k < RowCount => MakeRow(draws[k]));
    SortByCpuDescending(processes);
    rows := processes[..];
    forall k | 0 <= k < |rows|
      ensures rows[k].name in ProcessNames && 0 <= rows[k].cpuTenths <= 250 && 200 <= rows[k].memoryMb <= 1000
    {
      assert rows[k] in multiset(generated);
      var m :| 0 <= m < |generated| && generated[m] == rows[k];
      assert generated[m] == MakeRow(draws[m]);
    }
  }
}

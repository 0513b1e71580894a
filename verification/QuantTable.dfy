/** Repairing the quantitative table: rows that the writer joined onto one line are put back
    one per line under a header separator. The model works on the lines of the section. */
module QuantTable {
  import opened TextUtil

  const PIPE: set<char> := {'|'}

  /** The raw cells of a line: what lies between its pipes. */
  function RawCells(line: string): seq<string> {
    Split(Trim(Strip(line), PIPE), '|')
  }

  predicate AllDashes(s: string) {
    forall c :: c in s ==> c == '-'
  }

  /** `:?-{2,}:?` */
  predicate IsSeparatorCell(c: string) {
    var a := if c != "" && c[0] == ':' then c[1..] else c;
    var b := if a != "" && a[|a| - 1] == ':' then a[..|a| - 1] else a;
    |b| >= 2 && AllDashes(b)
  }

  predicate AllSeparators(raw: seq<string>) {
    raw == [] || (IsSeparatorCell(Strip(raw[0])) && AllSeparators(raw[1..]))
  }

  predicate IsSeparatorRow(line: string) {
    AllSeparators(RawCells(line))
  }

  /** Cells of the first logical row: up to the first blank cell. */
  function LeadingCells(raw: seq<string>): nat {
    if raw == [] || Strip(raw[0]) == "" then 0 else 1 + LeadingCells(raw[1..])
  }

  function FirstRowCellCount(line: string): nat {
    LeadingCells(RawCells(line))
  }

  predicate IsTableLine(line: string) {
    Strip(line) != "" && Strip(line)[0] == '|'
  }

  function TableLines(lines: seq<string>): seq<string> {
    if lines == [] then []
    else if IsTableLine(lines[0]) then [lines[0]] + TableLines(lines[1..])
    else TableLines(lines[1..])
  }

  function ProseLines(lines: seq<string>): seq<string> {
    if lines == [] then []
    else if IsTableLine(lines[0]) then ProseLines(lines[1..])
    else [lines[0]] + ProseLines(lines[1..])
  }

  /** Stripped cells, blank ones dropped. */
  function FullCells(raw: seq<string>): seq<string> {
    if raw == [] then []
    else if Strip(raw[0]) == "" then FullCells(raw[1..])
    else [Strip(raw[0])] + FullCells(raw[1..])
  }

  function AllCells(table: seq<string>): seq<string> {
    if table == [] then []
    else if IsSeparatorRow(table[0]) then AllCells(table[1..])
    else FullCells(RawCells(table[0])) + AllCells(table[1..])
  }

  type Cells = seq<string>

  /** Cut the cells into rows of `n`. */
  function Chunks(cells: seq<string>, n: nat): seq<Cells>
    requires n > 0
    decreases |cells|
  {
    if |cells| < n then [] else [cells[..n]] + Chunks(cells[n..], n)
  }

  function RowLine(cells: Cells): string {
    "| " + Join(cells, " | ") + " |"
  }

  function Repeat(s: string, n: nat): string {
    if n == 0 then "" else s + Repeat(s, n - 1)
  }

  function SeparatorLine(n: nat): string {
    "|" + Repeat("---|", n)
  }

  function RowLines(rows: seq<Cells>): seq<string> {
    if rows == [] then [] else [RowLine(rows[0])] + RowLines(rows[1..])
  }

  /** Header, separator, and one line per data row. */
  function Rebuilt(rows: seq<Cells>, n: nat): seq<string>
    requires rows != []
  {
    [RowLine(rows[0]), SeparatorLine(n)] + RowLines(rows[1..])
  }

  /** Put `table` where the first table line stood and drop the other table lines. */
  function Replace(lines: seq<string>, table: seq<string>, inserted: bool): seq<string> {
    if lines == [] then []
    else if !IsTableLine(lines[0]) then [lines[0]] + Replace(lines[1..], table, inserted)
    else if inserted then Replace(lines[1..], table, true)
    else table + Replace(lines[1..], table, true)
  }

  function Columns(lines: seq<string>): nat {
    var table := TableLines(lines);
    if table == [] then 0 else FirstRowCellCount(table[0])
  }

  /** The guards under which the cells regroup cleanly into a header and data rows. */
  predicate Regroups(lines: seq<string>) {
    var n, cells := Columns(lines), AllCells(TableLines(lines));
    n >= 2 && |cells| > n && |cells| % n == 0
  }

  function Rows(lines: seq<string>): seq<Cells>
    requires Regroups(lines)
  {
    Chunks(AllCells(TableLines(lines)), Columns(lines))
  }

  function Repair(lines: seq<string>): seq<string> {
    if !Regroups(lines) then lines
    else
      ChunksShape(AllCells(TableLines(lines)), Columns(lines));
      var rebuilt := Rebuilt(Rows(lines), Columns(lines));
      if rebuilt == TableLines(lines) then lines else Replace(lines, rebuilt, false)
  }

  /* ------------------------------------------------------------------ what counts as a separator */

  function DashRun(n: nat): string {
    seq(n, _ => '-')
  }

  /** A rule of `n` dashes with an alignment colon on either side or none. */
  function AlignedRule(n: nat, left: bool, right: bool): string {
    (if left then ":" else "") + DashRun(n) + (if right then ":" else "")
  }

  /** The separator cells are exactly the rules of two dashes or more, aligned or not. */
  lemma {:induction false} SeparatorCellIff(c: string)
    ensures IsSeparatorCell(c) <==> exists n, left, right :: n >= 2 && c == AlignedRule(n, left, right)
  {
    if IsSeparatorCell(c) {
      SeparatorIsRule(c);
    } else {
      forall n, left, right | n >= 2 ensures c != AlignedRule(n, left, right) {
        RuleIsSeparator(n, left, right);
      }
    }
  }

  lemma {:induction false} SeparatorIsRule(c: string)
    requires IsSeparatorCell(c)
    ensures exists n, left, right :: n >= 2 && c == AlignedRule(n, left, right)
  {
    var left := c[0] == ':';
    var a := if left then c[1..] else c;
    var right := a[|a| - 1] == ':';
    var b := if right then a[..|a| - 1] else a;
    forall i | 0 <= i < |b| ensures b[i] == '-' {
      assert b[i] in b;
    }
    assert b == DashRun(|b|);
    assert c == AlignedRule(|b|, left, right);
  }

  lemma {:induction false} RuleIsSeparator(n: nat, left: bool, right: bool)
    requires n >= 2
    ensures IsSeparatorCell(AlignedRule(n, left, right))
  {
    var c, tail := AlignedRule(n, left, right), if right then ":" else "";
    assert c == (if left then ":" else "") + (DashRun(n) + tail);
    assert c[0] == if left then ':' else '-';
    var a := if left then c[1..] else c;
    assert a == DashRun(n) + tail;
    assert (DashRun(n) + tail)[..n] == DashRun(n);
  }

  /* ------------------------------------------------------------------ cutting into rows */

  function Flatten(rows: seq<Cells>): seq<string> {
    if rows == [] then [] else rows[0] + Flatten(rows[1..])
  }

  /** All rows have `n` cells. */
  predicate Even(rows: seq<Cells>, n: nat) {
    rows == [] || (|rows[0]| == n && Even(rows[1..], n))
  }

  lemma {:induction false} ChunksShape(cells: seq<string>, n: nat)
    requires n > 0
    ensures Even(Chunks(cells, n), n)
    ensures |cells| >= n ==> Chunks(cells, n) != []
    ensures |cells| % n == 0 ==> Flatten(Chunks(cells, n)) == cells
    decreases |cells|
  {
    if |cells| < n {
      if |cells| % n == 0 {
        RemainderZero(|cells|, n);
      }
    } else {
      RemainderStep(|cells|, n);
      ChunksShape(cells[n..], n);
      assert cells[..n] + cells[n..] == cells;
    }
  }

  lemma {:induction false} RemainderZero(x: nat, n: nat)
    requires x < n && x % n == 0
    ensures x == 0
  {
  }

  lemma {:induction false} RemainderStep(x: nat, n: nat)
    requires 0 < n <= x
    ensures (x - n) % n == x % n
  {
    var q, r := (x - n) / n, (x - n) % n;
    assert x == n * q + n + r;
    assert n * q + n == n * (q + 1);
    RemainderUnique(x, n, q + 1, r);
  }

  lemma {:induction false} RemainderUnique(x: nat, n: nat, q: nat, r: nat)
    requires 0 < n && r < n && x == n * q + r
    ensures x % n == r
  {
    var q', r' := x / n, x % n;
    assert x == n * q' + r';
    if q < q' {
      MulGap(n, q, q');
    } else if q' < q {
      MulGap(n, q', q);
    }
  }

  lemma {:induction false} MulGap(n: nat, a: nat, b: nat)
    requires a < b
    ensures n * a + n <= n * b
  {
    var m := b - a - 1;
    assert n * (a + 1 + m) == n * a + n + n * m;
  }

  lemma {:induction false} FlattenSize(rows: seq<Cells>, n: nat)
    requires Even(rows, n)
    ensures |Flatten(rows)| == n * |rows|
  {
    if rows == [] {
    } else {
      FlattenSize(rows[1..], n);
      assert n * |rows| == n * (|rows| - 1) + n;
    }
  }

  lemma {:induction false} ChunksOfRows(rows: seq<Cells>, n: nat)
    requires n > 0 && Even(rows, n)
    ensures Chunks(Flatten(rows), n) == rows
    ensures |Flatten(rows)| % n == 0
    ensures |rows| >= 2 <==> |Flatten(rows)| > n
  {
    FlattenSize(rows, n);
    RemainderUnique(n * |rows|, n, |rows|, 0);
    if |rows| >= 2 {
      MulGap(n, 1, |rows|);
    }
    ChunksFlatten(rows, n);
  }

  lemma {:induction false} ChunksFlatten(rows: seq<Cells>, n: nat)
    requires n > 0 && Even(rows, n)
    ensures Chunks(Flatten(rows), n) == rows
  {
    if rows == [] {
    } else {
      ChunksFlatten(rows[1..], n);
      assert Flatten(rows)[..n] == rows[0];
      assert Flatten(rows)[n..] == Flatten(rows[1..]);
    }
  }

  /* ------------------------------------------------------------------ the loops of the program */

  method CountFirstRow(line: string) returns (count: nat)
    ensures count == FirstRowCellCount(line)
  {
    var raw := RawCells(line);
    count := 0;
    while count < |raw| && Strip(raw[count]) != ""
      invariant count <= |raw|
      invariant count + LeadingCells(raw[count..]) == LeadingCells(raw)
    {
      assert raw[count..][1..] == raw[count + 1..];
      count := count + 1;
    }
  }

  method PickTableLines(lines: seq<string>) returns (table: seq<string>)
    ensures table == TableLines(lines)
  {
    table := [];
    for i := 0 to |lines|
      invariant table + TableLines(lines[i..]) == TableLines(lines)
    {
      assert lines[i..][1..] == lines[i + 1..];
      if IsTableLine(lines[i]) {
        table := table + [lines[i]];
      }
    }
  }

  method AddCells(line: string, before: seq<string>) returns (cells: seq<string>)
    ensures cells == before + FullCells(RawCells(line))
  {
    var raw := RawCells(line);
    cells := before;
    for i := 0 to |raw|
      invariant cells + FullCells(raw[i..]) == before + FullCells(raw)
    {
      assert raw[i..][1..] == raw[i + 1..];
      if Strip(raw[i]) != "" {
        cells := cells + [Strip(raw[i])];
      }
    }
  }

  method CollectCells(table: seq<string>) returns (cells: seq<string>)
    ensures cells == AllCells(table)
  {
    cells := [];
    for i := 0 to |table|
      invariant cells + AllCells(table[i..]) == AllCells(table)
    {
      assert table[i..][1..] == table[i + 1..];
      if !IsSeparatorRow(table[i]) {
        cells := AddCells(table[i], cells);
      }
    }
  }

  /** What one round of the replacement puts out. */
  function Put(line: string, table: seq<string>, inserted: bool): seq<string> {
    if !IsTableLine(line) then [line] else if inserted then [] else table
  }

  lemma {:induction false} PutStep(out: seq<string>, lines: seq<string>, table: seq<string>, inserted: bool)
    requires lines != []
    ensures out + Replace(lines, table, inserted) ==
            (out + Put(lines[0], table, inserted)) + Replace(lines[1..], table, inserted || IsTableLine(lines[0]))
  {
  }

  method PutTable(lines: seq<string>, table: seq<string>) returns (out: seq<string>)
    ensures out == Replace(lines, table, false)
  {
    out := [];
    var inserted := false;
    for i := 0 to |lines|
      invariant out + Replace(lines[i..], table, inserted) == Replace(lines, table, false)
    {
      assert lines[i..][1..] == lines[i + 1..];
      PutStep(out, lines[i..], table, inserted);
      if IsTableLine(lines[i]) {
        if !inserted {
          out := out + table;
          inserted := true;
        }
        continue;
      }
      out := out + [lines[i]];
    }
  }

  method RepairQuantitativeTable(lines: seq<string>) returns (out: seq<string>)
    ensures out == Repair(lines)
  {
    var table := PickTableLines(lines);
    if table == [] {
      return lines;
    }
    var columns := CountFirstRow(table[0]);
    if columns < 2 {
      return lines;
    }
    var cells := CollectCells(table);
    if cells == [] || |cells| % columns != 0 || |cells| <= columns {
      return lines;
    }
    ChunksShape(cells, columns);
    var rebuilt := Rebuilt(Chunks(cells, columns), columns);
    if rebuilt == table {
      return lines;
    }
    out := PutTable(lines, rebuilt);
  }
}

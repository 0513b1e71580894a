/** What the repair of the quantitative table achieves: joined tables come back whole, and
    exactly when a second repair changes nothing. */
module QuantRepair {
  import opened TextUtil
  import opened QuantTable

  /** A cell as it stands between pipes once stripped. */
  predicate Clean(c: string) {
    c != "" && Firm(c, SPACES) && '|' !in c
  }

  predicate CleanCells(cells: Cells) {
    cells == [] || (Clean(cells[0]) && CleanCells(cells[1..]))
  }

  predicate CleanRow(cells: Cells) {
    cells != [] && CleanCells(cells)
  }

  predicate AllSeparatorCells(cells: Cells) {
    cells == [] || (IsSeparatorCell(cells[0]) && AllSeparatorCells(cells[1..]))
  }

  /* ------------------------------------------------------------------ one line, several rows */

  /** A cell as written between pipes: something, with blanks of any length on either side. */
  predicate Laid(c: string) {
    Strip(c) != "" && '|' !in c
  }

  predicate LaidCells(raw: seq<string>) {
    raw == [] || (Laid(raw[0]) && LaidCells(raw[1..]))
  }

  predicate LaidRows(rows: seq<seq<string>>) {
    rows == [] || (rows[0] != [] && LaidCells(rows[0]) && LaidRows(rows[1..]))
  }

  function StripCells(raw: seq<string>): Cells {
    if raw == [] then [] else [Strip(raw[0])] + StripCells(raw[1..])
  }

  function StripRows(rows: seq<seq<string>>): seq<Cells> {
    if rows == [] then [] else [StripCells(rows[0])] + StripRows(rows[1..])
  }

  function Body(raw: seq<string>): string {
    Join(raw, "|")
  }

  /** Rows joined onto one line, with a blank cell `gap` at every row boundary. */
  function JoinedBody(rows: seq<seq<string>>, gap: string): string {
    if rows == [] then ""
    else if |rows| == 1 then Body(rows[0])
    else Body(rows[0]) + "|" + gap + "|" + JoinedBody(rows[1..], gap)
  }

  function JoinedLine(rows: seq<seq<string>>, gap: string): string {
    "|" + JoinedBody(rows, gap) + "|"
  }

  predicate Blank(s: string) {
    forall c :: c in s ==> c in SPACES
  }

  function JoinedRaw(rows: seq<seq<string>>, gap: string): seq<string> {
    if rows == [] then []
    else if |rows| == 1 then rows[0]
    else rows[0] + [gap] + JoinedRaw(rows[1..], gap)
  }

  lemma {:induction false} BlankStrip(s: string)
    requires Blank(s)
    ensures Strip(s) == ""
  {
    TrimBlank(s, SPACES);
  }

  lemma {:induction false} SplitBody(raw: seq<string>)
    requires raw != [] && LaidCells(raw)
    ensures Split(Body(raw), '|') == raw
  {
    if |raw| == 1 {
      SplitNone(raw[0], '|');
      assert raw == [raw[0]];
    } else {
      assert Body(raw) == raw[0] + ['|'] + Body(raw[1..]);
      SplitAt(raw[0], '|', Body(raw[1..]));
      SplitBody(raw[1..]);
    }
  }

  lemma {:induction false} SplitJoined(rows: seq<seq<string>>, gap: string)
    requires rows != [] && LaidRows(rows) && Blank(gap)
    ensures Split(JoinedBody(rows, gap), '|') == JoinedRaw(rows, gap)
  {
    SplitBody(rows[0]);
    if |rows| > 1 {
      var rest := JoinedBody(rows[1..], gap);
      assert JoinedBody(rows, gap) == Body(rows[0]) + ['|'] + (gap + ['|'] + rest);
      SplitConcat(Body(rows[0]), '|', gap + ['|'] + rest);
      SplitAt(gap, '|', rest);
      SplitJoined(rows[1..], gap);
      assert rows[0] + ([gap] + JoinedRaw(rows[1..], gap)) == JoinedRaw(rows, gap);
    }
  }

  /** No pipe at either end. */
  predicate Unpiped(s: string) {
    s != "" && s[0] != '|' && s[|s| - 1] != '|'
  }

  lemma {:induction false} LaidUnpiped(c: string)
    requires Laid(c)
    ensures Unpiped(c)
  {
    FirmTrim("", SPACES);
    assert c[0] in c && c[|c| - 1] in c;
  }

  lemma {:induction false} BodyUnpiped(raw: seq<string>)
    requires raw != [] && LaidCells(raw)
    ensures Unpiped(Body(raw))
  {
    LaidUnpiped(raw[0]);
    if |raw| > 1 {
      BodyUnpiped(raw[1..]);
    }
  }

  lemma {:induction false} JoinedUnpiped(rows: seq<seq<string>>, gap: string)
    requires rows != [] && LaidRows(rows)
    ensures Unpiped(JoinedBody(rows, gap))
  {
    BodyUnpiped(rows[0]);
    if |rows| > 1 {
      JoinedUnpiped(rows[1..], gap);
    }
  }

  /** A line that starts and ends with a pipe around a body that does not. */
  lemma {:induction false} PipedLine(body: string)
    requires Unpiped(body)
    ensures var line := "|" + body + "|";
            Strip(line) == line && IsTableLine(line) && RawCells(line) == Split(body, '|')
  {
    var line := "|" + body + "|";
    FirmTrim(line, SPACES);
    TrimPadded("|", body, "|", PIPE);
  }

  lemma {:induction false} FullCellsConcat(a: seq<string>, b: seq<string>)
    ensures FullCells(a + b) == FullCells(a) + FullCells(b)
  {
    if a == [] {
      assert a + b == b;
    } else {
      assert (a + b)[1..] == a[1..] + b;
      FullCellsConcat(a[1..], b);
    }
  }

  lemma {:induction false} LaidFull(raw: seq<string>)
    requires LaidCells(raw)
    ensures FullCells(raw) == StripCells(raw) && |StripCells(raw)| == |raw|
  {
    if raw == [] {
    } else {
      LaidFull(raw[1..]);
    }
  }

  lemma {:induction false} LeadingHead(cell: string, rest: seq<string>)
    ensures LeadingCells([cell] + rest) == if Strip(cell) == "" then 0 else 1 + LeadingCells(rest)
    ensures AllSeparators([cell] + rest) <==> IsSeparatorCell(Strip(cell)) && AllSeparators(rest)
  {
    assert ([cell] + rest)[1..] == rest;
  }

  lemma {:induction false} LaidLeading(raw: seq<string>, rest: seq<string>)
    requires LaidCells(raw)
    ensures LeadingCells(raw + rest) == |raw| + LeadingCells(rest)
    ensures AllSeparators(raw + rest) <==> AllSeparatorCells(StripCells(raw)) && AllSeparators(rest)
  {
    if raw == [] {
      assert raw + rest == rest;
    } else {
      LaidLeading(raw[1..], rest);
      assert raw + rest == [raw[0]] + (raw[1..] + rest);
      LeadingHead(raw[0], raw[1..] + rest);
    }
  }

  lemma {:induction false} JoinedHead(rows: seq<seq<string>>, gap: string)
    requires |rows| > 1
    ensures JoinedRaw(rows, gap) == rows[0] + ([gap] + JoinedRaw(rows[1..], gap))
  {
  }

  lemma {:induction false} JoinedFull(rows: seq<seq<string>>, gap: string)
    requires rows != [] && LaidRows(rows) && Blank(gap)
    ensures FullCells(JoinedRaw(rows, gap)) == Flatten(StripRows(rows))
  {
    LaidFull(rows[0]);
    assert StripRows(rows)[1..] == StripRows(rows[1..]);
    if |rows| == 1 {
      assert Flatten(StripRows(rows[1..])) == [] && StripCells(rows[0]) + [] == StripCells(rows[0]);
    } else {
      var rest := [gap] + JoinedRaw(rows[1..], gap);
      BlankStrip(gap);
      JoinedHead(rows, gap);
      JoinedFull(rows[1..], gap);
      FullCellsConcat(rows[0], rest);
      assert rest[1..] == JoinedRaw(rows[1..], gap);
    }
  }

  /** The column count of a joined line, and when it reads as a separator. */
  lemma {:induction false} JoinedLeading(rows: seq<seq<string>>, gap: string)
    requires rows != [] && LaidRows(rows) && Blank(gap)
    ensures LeadingCells(JoinedRaw(rows, gap)) == |rows[0]|
    ensures AllSeparators(JoinedRaw(rows, gap)) <==> |rows| == 1 && AllSeparatorCells(StripCells(rows[0]))
  {
    if |rows| == 1 {
      LaidLeading(rows[0], []);
      assert rows[0] + [] == rows[0];
    } else {
      BlankStrip(gap);
      JoinedHead(rows, gap);
      LaidLeading(rows[0], [gap] + JoinedRaw(rows[1..], gap));
    }
  }

  /** However its cells are padded, a joined line reads back as the cells of its rows, and its first row
      gives the number of columns. */
  lemma {:induction false} JoinedLineFacts(rows: seq<seq<string>>, gap: string)
    requires rows != [] && LaidRows(rows) && Blank(gap)
    ensures
      var line := JoinedLine(rows, gap);
      && IsTableLine(line)
      && FullCells(RawCells(line)) == Flatten(StripRows(rows))
      && FirstRowCellCount(line) == |rows[0]|
      && (IsSeparatorRow(line) <==> |rows| == 1 && AllSeparatorCells(StripCells(rows[0])))
  {
    JoinedUnpiped(rows, gap);
    PipedLine(JoinedBody(rows, gap));
    SplitJoined(rows, gap);
    JoinedFull(rows, gap);
    JoinedLeading(rows, gap);
  }

  /* ------------------------------------------------------------------ one row, one line */

  function Pad(c: string): string {
    " " + c + " "
  }

  function Padded(cells: Cells): seq<string> {
    if cells == [] then [] else [Pad(cells[0])] + Padded(cells[1..])
  }

  predicate CleanRows(rows: seq<Cells>) {
    rows == [] || (CleanRow(rows[0]) && CleanRows(rows[1..]))
  }

  lemma {:induction false} StripPad(c: string)
    requires Clean(c)
    ensures Strip(Pad(c)) == c
  {
    TrimPadded(" ", c, " ", SPACES);
  }

  lemma {:induction false} PaddedLaid(cells: Cells)
    requires CleanCells(cells)
    ensures LaidCells(Padded(cells)) && StripCells(Padded(cells)) == cells && |Padded(cells)| == |cells|
  {
    if cells == [] {
    } else {
      StripPad(cells[0]);
      PaddedLaid(cells[1..]);
      assert Padded(cells)[1..] == Padded(cells[1..]);
    }
  }

  lemma {:induction false} PaddedBody(cells: Cells)
    requires cells != []
    ensures Body(Padded(cells)) == " " + Join(cells, " | ") + " "
  {
    var padded := Padded(cells);
    assert padded[0] == Pad(cells[0]) && padded[1..] == Padded(cells[1..]);
    if |cells| == 1 {
      assert cells[1..] == [];
    } else {
      PaddedBody(cells[1..]);
      assert Body(padded) == Pad(cells[0]) + "|" + Body(padded[1..]);
    }
  }

  /** A line of the rebuilt table. */
  lemma {:induction false} RowLineRaw(cells: Cells)
    requires CleanRow(cells)
    ensures
      var line := RowLine(cells);
      Strip(line) == line && IsTableLine(line) && RawCells(line) == Padded(cells)
      && |line| >= 3 && line[|line| - 1] == '|'
  {
    PaddedBody(cells);
    PaddedLaid(cells);
    BodyUnpiped(Padded(cells));
    assert RowLine(cells) == "|" + Body(Padded(cells)) + "|";
    PipedLine(Body(Padded(cells)));
    SplitBody(Padded(cells));
  }

  lemma {:induction false} RowLineFacts(cells: Cells)
    requires CleanRow(cells)
    ensures
      var line := RowLine(cells);
      && IsTableLine(line)
      && FullCells(RawCells(line)) == cells
      && FirstRowCellCount(line) == |cells|
      && (IsSeparatorRow(line) <==> AllSeparatorCells(cells))
  {
    RowLineRaw(cells);
    PaddedLaid(cells);
    LaidFull(Padded(cells));
    LaidLeading(Padded(cells), []);
    assert Padded(cells) + [] == Padded(cells);
  }

  /* ------------------------------------------------------------------ the separator line */

  function Dashes(n: nat): string
    requires n > 0
  {
    if n == 1 then "---" else "---|" + Dashes(n - 1)
  }

  lemma {:induction false} DashesEnds(n: nat)
    requires n > 0
    ensures Repeat("---|", n) == Dashes(n) + "|"
    ensures |Dashes(n)| >= 1 && Dashes(n)[0] == '-' && Dashes(n)[|Dashes(n)| - 1] == '-'
  {
    if n == 1 {
      assert Repeat("---|", 1) == "---|" + Repeat("---|", 0);
    } else {
      DashesEnds(n - 1);
    }
  }

  lemma {:induction false} ThreeDashes()
    ensures IsSeparatorCell(Strip("---"))
  {
    FirmTrim("---", SPACES);
  }

  lemma {:induction false} DashesSeparate(n: nat)
    requires n > 0
    ensures AllSeparators(Split(Dashes(n), '|'))
  {
    ThreeDashes();
    if n == 1 {
      SplitNone("---", '|');
      assert ["---"] == ["---"] + [];
      LeadingHead("---", []);
    } else {
      DashesSeparate(n - 1);
      assert Dashes(n) == "---" + ['|'] + Dashes(n - 1);
      SplitAt("---", '|', Dashes(n - 1));
      LeadingHead("---", Split(Dashes(n - 1), '|'));
    }
  }

  lemma {:induction false} SeparatorLineFacts(n: nat)
    requires n > 0
    ensures IsTableLine(SeparatorLine(n)) && IsSeparatorRow(SeparatorLine(n))
  {
    DashesEnds(n);
    DashesSeparate(n);
    assert SeparatorLine(n) == "|" + Dashes(n) + "|";
    PipedLine(Dashes(n));
  }

  /* ------------------------------------------------------------------ replacing the table */

  predicate AllTable(lines: seq<string>) {
    lines == [] || (IsTableLine(lines[0]) && AllTable(lines[1..]))
  }

  lemma {:induction false} TableConcat(a: seq<string>, b: seq<string>)
    ensures TableLines(a + b) == TableLines(a) + TableLines(b)
  {
    if a == [] {
      assert a + b == b;
    } else {
      assert (a + b)[1..] == a[1..] + b;
      TableConcat(a[1..], b);
    }
  }

  lemma {:induction false} ProseConcat(a: seq<string>, b: seq<string>)
    ensures ProseLines(a + b) == ProseLines(a) + ProseLines(b)
  {
    if a == [] {
      assert a + b == b;
    } else {
      assert (a + b)[1..] == a[1..] + b;
      ProseConcat(a[1..], b);
    }
  }

  lemma {:induction false} AllTableFilters(table: seq<string>)
    requires AllTable(table)
    ensures TableLines(table) == table && ProseLines(table) == []
  {
    if table == [] {
    } else {
      AllTableFilters(table[1..]);
    }
  }

  lemma {:induction false} FilterHead(line: string, rest: seq<string>)
    ensures TableLines([line] + rest) == if IsTableLine(line) then [line] + TableLines(rest) else TableLines(rest)
    ensures ProseLines([line] + rest) == if IsTableLine(line) then ProseLines(rest) else [line] + ProseLines(rest)
  {
    assert ([line] + rest)[1..] == rest;
  }

  /** Replacing puts in exactly the new table lines and keeps every other line. */
  lemma {:induction false} ReplaceTable(lines: seq<string>, table: seq<string>, inserted: bool)
    requires AllTable(table)
    ensures TableLines(Replace(lines, table, inserted)) ==
            if inserted || TableLines(lines) == [] then [] else table
  {
    if lines == [] {
    } else if IsTableLine(lines[0]) {
      ReplaceTable(lines[1..], table, true);
      TableConcat(table, Replace(lines[1..], table, true));
      AllTableFilters(table);
    } else {
      ReplaceTable(lines[1..], table, inserted);
      FilterHead(lines[0], Replace(lines[1..], table, inserted));
    }
  }

  lemma {:induction false} ReplaceProse(lines: seq<string>, table: seq<string>, inserted: bool)
    requires AllTable(table)
    ensures ProseLines(Replace(lines, table, inserted)) == ProseLines(lines)
  {
    if lines == [] {
    } else if IsTableLine(lines[0]) {
      ReplaceProse(lines[1..], table, true);
      ProseConcat(table, Replace(lines[1..], table, true));
      AllTableFilters(table);
    } else {
      ReplaceProse(lines[1..], table, inserted);
      FilterHead(lines[0], Replace(lines[1..], table, inserted));
    }
  }

  /* ------------------------------------------------------------------ a rebuilt table */

  /** The rows that do not read as separators. */
  function RealRows(rows: seq<Cells>): seq<Cells> {
    if rows == [] then []
    else if AllSeparatorCells(rows[0]) then RealRows(rows[1..])
    else [rows[0]] + RealRows(rows[1..])
  }

  lemma {:induction false} RowLinesTable(rows: seq<Cells>)
    requires CleanRows(rows)
    ensures AllTable(RowLines(rows)) && |RowLines(rows)| == |rows|
  {
    if rows == [] {
    } else {
      RowLineFacts(rows[0]);
      RowLinesTable(rows[1..]);
      assert RowLines(rows)[1..] == RowLines(rows[1..]);
    }
  }

  lemma {:induction false} CellsHead(line: string, rest: seq<string>)
    ensures AllCells([line] + rest) ==
            if IsSeparatorRow(line) then AllCells(rest) else FullCells(RawCells(line)) + AllCells(rest)
  {
    assert ([line] + rest)[1..] == rest;
  }

  lemma {:induction false} RowCells(cells: Cells, rest: seq<string>)
    requires CleanRow(cells)
    ensures AllCells([RowLine(cells)] + rest) ==
            if AllSeparatorCells(cells) then AllCells(rest) else cells + AllCells(rest)
  {
    RowLineFacts(cells);
    CellsHead(RowLine(cells), rest);
  }

  lemma {:induction false} RealRowsHead(rows: seq<Cells>)
    requires rows != []
    ensures Flatten(RealRows(rows)) ==
            if AllSeparatorCells(rows[0]) then Flatten(RealRows(rows[1..]))
            else rows[0] + Flatten(RealRows(rows[1..]))
  {
    if !AllSeparatorCells(rows[0]) {
      assert RealRows(rows)[1..] == RealRows(rows[1..]);
    }
  }

  lemma {:induction false} RowLinesCells(rows: seq<Cells>)
    requires CleanRows(rows)
    ensures AllCells(RowLines(rows)) == Flatten(RealRows(rows))
  {
    if rows == [] {
    } else {
      RowLinesCells(rows[1..]);
      RowCells(rows[0], RowLines(rows[1..]));
      RealRowsHead(rows);
    }
  }

  lemma {:induction false} AllTableHead(line: string, rest: seq<string>)
    requires IsTableLine(line) && AllTable(rest)
    ensures AllTable([line] + rest) && |[line] + rest| == 1 + |rest|
  {
    assert ([line] + rest)[1..] == rest;
  }

  lemma {:induction false} RebuiltTable(rows: seq<Cells>, n: nat)
    requires rows != [] && CleanRows(rows) && n > 0
    ensures AllTable(Rebuilt(rows, n)) && |Rebuilt(rows, n)| == |rows| + 1
    ensures FirstRowCellCount(Rebuilt(rows, n)[0]) == |rows[0]|
  {
    RowLineFacts(rows[0]);
    SeparatorLineFacts(n);
    RowLinesTable(rows[1..]);
    var first, second, rest := RowLine(rows[0]), SeparatorLine(n), RowLines(rows[1..]);
    AllTableHead(second, rest);
    AllTableHead(first, [second] + rest);
    assert Rebuilt(rows, n) == [first] + ([second] + rest);
  }

  lemma {:induction false} RebuiltParts(rows: seq<Cells>, n: nat)
    requires rows != [] && n > 0
    ensures Rebuilt(rows, n) == [RowLine(rows[0])] + ([SeparatorLine(n)] + RowLines(rows[1..]))
  {
  }

  /** A separator line adds no cells. */
  lemma {:induction false} SeparatorCells(n: nat, rest: seq<string>)
    requires n > 0
    ensures AllCells([SeparatorLine(n)] + rest) == AllCells(rest)
  {
    SeparatorLineFacts(n);
    CellsHead(SeparatorLine(n), rest);
  }

  lemma {:induction false} RebuiltCells(rows: seq<Cells>, n: nat)
    requires rows != [] && CleanRows(rows) && n > 0
    ensures AllCells(Rebuilt(rows, n)) == Flatten(RealRows(rows))
  {
    var rest := RowLines(rows[1..]);
    RebuiltParts(rows, n);
    RowLinesCells(rows[1..]);
    SeparatorCells(n, rest);
    RowCells(rows[0], [SeparatorLine(n)] + rest);
    RealRowsHead(rows);
  }

  /* ------------------------------------------------------------------ cells of any section are clean */

  predicate PipeFree(raw: seq<string>) {
    raw == [] || ('|' !in raw[0] && PipeFree(raw[1..]))
  }

  lemma {:induction false} SplitPipeFree(s: string)
    ensures PipeFree(Split(s, '|'))
  {
    if s == "" {
    } else {
      SplitPipeFree(s[1..]);
      var rest, all := Split(s[1..], '|'), Split(s, '|');
      assert all[1..] == if s[0] == '|' then rest else rest[1..];
    }
  }

  lemma {:induction false} FullCellsClean(raw: seq<string>)
    requires PipeFree(raw)
    ensures CleanCells(FullCells(raw))
  {
    if raw == [] {
    } else {
      FullCellsClean(raw[1..]);
      TrimFirm(raw[0], SPACES);
      if Strip(raw[0]) != "" {
        assert FullCells(raw)[1..] == FullCells(raw[1..]);
      }
    }
  }

  lemma {:induction false} CleanConcat(a: Cells, b: Cells)
    requires CleanCells(a) && CleanCells(b)
    ensures CleanCells(a + b)
  {
    if a == [] {
      assert a + b == b;
    } else {
      CleanConcat(a[1..], b);
      assert (a + b)[1..] == a[1..] + b;
    }
  }

  lemma {:induction false} AllCellsClean(table: seq<string>)
    ensures CleanCells(AllCells(table))
  {
    if table == [] {
    } else {
      AllCellsClean(table[1..]);
      SplitPipeFree(Trim(Strip(table[0]), PIPE));
      FullCellsClean(RawCells(table[0]));
      CleanConcat(FullCells(RawCells(table[0])), AllCells(table[1..]));
    }
  }

  lemma {:induction false} CleanCut(cells: Cells, n: nat)
    requires CleanCells(cells) && n <= |cells|
    ensures CleanCells(cells[..n]) && CleanCells(cells[n..])
  {
    if n == 0 {
      assert cells[n..] == cells;
    } else {
      CleanCut(cells[1..], n - 1);
      assert cells[..n][1..] == cells[1..][..n - 1] && cells[n..] == cells[1..][n - 1..];
    }
  }

  lemma {:induction false} ChunksClean(cells: seq<string>, n: nat)
    requires n > 0 && CleanCells(cells)
    ensures CleanRows(Chunks(cells, n))
    decreases |cells|
  {
    if |cells| >= n {
      CleanCut(cells, n);
      ChunksClean(cells[n..], n);
    }
  }

  /** The rows of a section that regroups: clean, of one width, at least two. */
  lemma {:induction false} RowsFacts(lines: seq<string>)
    requires Regroups(lines)
    ensures
      var rows := Rows(lines);
      CleanRows(rows) && Even(rows, Columns(lines)) && |rows| >= 2
  {
    var cells, n := AllCells(TableLines(lines)), Columns(lines);
    AllCellsClean(TableLines(lines));
    ChunksClean(cells, n);
    ChunksShape(cells, n);
    ChunksOfRows(Chunks(cells, n), n);
  }

  /* ------------------------------------------------------------------ round trip */

  /** What a section may hold: prose, rows joined onto one line with cells padded at will, or a separator
      line. */
  datatype Piece = Prose(text: string) | Joined(rows: seq<seq<string>>, gap: string) | Rule(text: string)

  function Render(pieces: seq<Piece>): seq<string> {
    if pieces == [] then []
    else
      [match pieces[0]
         case Prose(text) => text
         case Joined(rows, gap) => JoinedLine(rows, gap)
         case Rule(text) => text] + Render(pieces[1..])
  }

  function RowsOf(pieces: seq<Piece>): seq<Cells> {
    if pieces == [] then []
    else if pieces[0].Joined? then StripRows(pieces[0].rows) + RowsOf(pieces[1..])
    else RowsOf(pieces[1..])
  }

  predicate Wide(rows: seq<seq<string>>, n: nat) {
    rows == [] || (|rows[0]| == n && Wide(rows[1..], n))
  }

  /** Rows of `n` cells; a line of its own must not read as a separator. */
  predicate WellLaid(p: Piece, n: nat) {
    match p
    case Prose(text) => !IsTableLine(text)
    case Rule(text) => IsTableLine(text) && IsSeparatorRow(text)
    case Joined(rows, gap) =>
      rows != [] && LaidRows(rows) && Wide(rows, n) && Blank(gap)
      && !(|rows| == 1 && AllSeparatorCells(StripCells(rows[0])))
  }

  predicate AllWellLaid(pieces: seq<Piece>, n: nat) {
    pieces == [] || (WellLaid(pieces[0], n) && AllWellLaid(pieces[1..], n))
  }

  /** The first table line is one that holds rows. */
  predicate OpensWithRows(pieces: seq<Piece>) {
    pieces != [] && (pieces[0].Joined? || (pieces[0].Prose? && OpensWithRows(pieces[1..])))
  }

  lemma {:induction false} CleanRowsConcat(a: seq<Cells>, b: seq<Cells>)
    requires CleanRows(a) && CleanRows(b)
    ensures CleanRows(a + b)
  {
    if a == [] {
      assert a + b == b;
    } else {
      CleanRowsConcat(a[1..], b);
      assert (a + b)[1..] == a[1..] + b;
    }
  }

  lemma {:induction false} EvenConcat(a: seq<Cells>, b: seq<Cells>, n: nat)
    requires Even(a, n) && Even(b, n)
    ensures Even(a + b, n)
  {
    if a == [] {
      assert a + b == b;
    } else {
      EvenConcat(a[1..], b, n);
      assert (a + b)[1..] == a[1..] + b;
    }
  }

  lemma {:induction false} FlattenHead(row: Cells, rest: seq<Cells>)
    ensures Flatten([row] + rest) == row + Flatten(rest)
  {
    assert ([row] + rest)[1..] == rest;
  }

  lemma {:induction false} FlattenConcat(a: seq<Cells>, b: seq<Cells>)
    ensures Flatten(a + b) == Flatten(a) + Flatten(b)
  {
    if a == [] {
      assert a + b == b;
    } else {
      assert a + b == [a[0]] + (a[1..] + b);
      FlattenHead(a[0], a[1..] + b);
      FlattenConcat(a[1..], b);
    }
  }

  lemma {:induction false} StripClean(raw: seq<string>)
    requires LaidCells(raw)
    ensures CleanCells(StripCells(raw)) && |StripCells(raw)| == |raw|
  {
    if raw == [] {
    } else {
      TrimFirm(raw[0], SPACES);
      StripClean(raw[1..]);
      assert StripCells(raw)[1..] == StripCells(raw[1..]);
    }
  }

  lemma {:induction false} StripRowsClean(rows: seq<seq<string>>, n: nat)
    requires LaidRows(rows) && Wide(rows, n)
    ensures CleanRows(StripRows(rows)) && Even(StripRows(rows), n)
  {
    if rows == [] {
    } else {
      StripClean(rows[0]);
      StripRowsClean(rows[1..], n);
      assert StripRows(rows)[1..] == StripRows(rows[1..]);
    }
  }

  lemma {:induction false} CellsOfPieces(pieces: seq<Piece>, n: nat)
    requires AllWellLaid(pieces, n)
    ensures CleanRows(RowsOf(pieces)) && Even(RowsOf(pieces), n)
    ensures AllCells(TableLines(Render(pieces))) == Flatten(RowsOf(pieces))
  {
    if pieces == [] {
    } else {
      CellsOfPieces(pieces[1..], n);
      var line, rest := Render(pieces)[0], Render(pieces[1..]);
      FilterHead(line, rest);
      CellsHead(line, TableLines(rest));
      if pieces[0].Joined? {
        var rows := StripRows(pieces[0].rows);
        JoinedLineFacts(pieces[0].rows, pieces[0].gap);
        StripRowsClean(pieces[0].rows, n);
        CleanRowsConcat(rows, RowsOf(pieces[1..]));
        EvenConcat(rows, RowsOf(pieces[1..]), n);
        FlattenConcat(rows, RowsOf(pieces[1..]));
      }
    }
  }

  lemma {:induction false} LaidColumns(pieces: seq<Piece>, n: nat)
    requires AllWellLaid(pieces, n) && OpensWithRows(pieces)
    ensures Columns(Render(pieces)) == n
  {
    var line, rest := Render(pieces)[0], Render(pieces[1..]);
    FilterHead(line, rest);
    if pieces[0].Joined? {
      JoinedLineFacts(pieces[0].rows, pieces[0].gap);
    } else {
      LaidColumns(pieces[1..], n);
    }
  }

  /** What a repair leaves when the cells regroup. */
  lemma {:induction false} RepairedShape(lines: seq<string>)
    requires Regroups(lines)
    ensures Rows(lines) != []
    ensures TableLines(Repair(lines)) == Rebuilt(Rows(lines), Columns(lines))
    ensures ProseLines(Repair(lines)) == ProseLines(lines)
  {
    RowsFacts(lines);
    var rebuilt := Rebuilt(Rows(lines), Columns(lines));
    RebuiltTable(Rows(lines), Columns(lines));
    ReplaceTable(lines, rebuilt, false);
    ReplaceProse(lines, rebuilt, false);
  }

  /** However the rows were joined onto lines and their cells padded, repair gives back header, separator
      and the same rows. */
  lemma {:induction false} RepairRoundTrip(pieces: seq<Piece>, n: nat)
    requires n >= 2 && AllWellLaid(pieces, n) && OpensWithRows(pieces) && |RowsOf(pieces)| >= 2
    ensures TableLines(Repair(Render(pieces))) == Rebuilt(RowsOf(pieces), n)
    ensures ProseLines(Repair(Render(pieces))) == ProseLines(Render(pieces))
  {
    CellsOfPieces(pieces, n);
    LaidColumns(pieces, n);
    ChunksOfRows(RowsOf(pieces), n);
    RepairedShape(Render(pieces));
  }

  /* ------------------------------------------------------------------ repairing twice */

  lemma {:induction false} RealRowsFacts(rows: seq<Cells>, n: nat)
    requires CleanRows(rows) && Even(rows, n)
    ensures CleanRows(RealRows(rows)) && Even(RealRows(rows), n) && |RealRows(rows)| <= |rows|
    ensures |RealRows(rows)| == |rows| ==> RealRows(rows) == rows
  {
    if rows == [] {
    } else {
      RealRowsFacts(rows[1..], n);
      if !AllSeparatorCells(rows[0]) {
        assert RealRows(rows)[1..] == RealRows(rows[1..]);
      }
    }
  }

  /** What a second repair sees: the same columns, and the rows that are not separators. */
  lemma {:induction false} SecondLook(lines: seq<string>)
    requires Regroups(lines)
    ensures
      var y, kept := Repair(lines), RealRows(Rows(lines));
      && Columns(y) == Columns(lines)
      && AllCells(TableLines(y)) == Flatten(kept)
      && (Regroups(y) <==> |kept| >= 2)
      && (|kept| >= 2 ==> Rows(y) == kept)
  {
    var rows, n := Rows(lines), Columns(lines);
    RowsFacts(lines);
    RepairedShape(lines);
    RebuiltTable(rows, n);
    RebuiltCells(rows, n);
    RealRowsFacts(rows, n);
    ChunksOfRows(RealRows(rows), n);
  }

  /** A second repair changes nothing exactly when the cells do not regroup, or no regrouped row
      reads as a separator, or at most one does not. */
  lemma {:induction false} RepairIdempotentIff(lines: seq<string>)
    ensures Repair(Repair(lines)) == Repair(lines) <==>
            (Regroups(lines) ==> RealRows(Rows(lines)) == Rows(lines) || |RealRows(Rows(lines))| <= 1)
  {
    if Regroups(lines) {
      var y, rows, n := Repair(lines), Rows(lines), Columns(lines);
      RowsFacts(lines);
      RepairedShape(lines);
      SecondLook(lines);
      RealRowsFacts(rows, n);
      if |RealRows(rows)| >= 2 {
        RepairedShape(y);
        RebuiltTable(rows, n);
        RebuiltTable(RealRows(rows), n);
      }
    }
  }

  lemma {:induction false} OneMoreRow(row: Cells, rows: seq<Cells>, n: nat)
    requires CleanRow(row) && |row| == n && CleanRows(rows) && Even(rows, n)
    ensures CleanRows([row] + rows) && Even([row] + rows, n)
    ensures RealRows([row] + rows) == if AllSeparatorCells(row) then RealRows(rows) else [row] + RealRows(rows)
  {
    assert ([row] + rows)[1..] == rows;
  }

  /** The rows joined onto one line, with one blank on each side of every cell. */
  function Joint(rows: seq<Cells>): seq<seq<string>> {
    if rows == [] then [] else [Padded(rows[0])] + Joint(rows[1..])
  }

  lemma {:induction false} JointFacts(rows: seq<Cells>, n: nat)
    requires CleanRows(rows) && Even(rows, n)
    ensures LaidRows(Joint(rows)) && Wide(Joint(rows), n) && StripRows(Joint(rows)) == rows
    ensures |Joint(rows)| == |rows|
  {
    if rows == [] {
    } else {
      PaddedLaid(rows[0]);
      JointFacts(rows[1..], n);
      assert Joint(rows)[1..] == Joint(rows[1..]);
    }
  }

  lemma {:induction false} DashedSample(top: Cells, dashed: Cells, bottom: Cells)
    requires CleanRow(top) && CleanRow(dashed) && CleanRow(bottom)
    requires |top| == |dashed| == |bottom| >= 2
    requires AllSeparatorCells(dashed) && !AllSeparatorCells(top) && !AllSeparatorCells(bottom)
    ensures
      var line := JoinedLine(Joint([top, dashed, bottom]), "");
      Repair(Repair([line])) != Repair([line])
  {
    var rows, n := [top, dashed, bottom], |top|;
    OneMoreRow(bottom, [], n);
    OneMoreRow(dashed, [bottom] + [], n);
    OneMoreRow(top, [dashed] + ([bottom] + []), n);
    assert rows == [top] + ([dashed] + ([bottom] + []));
    JointFacts(rows, n);
    var pieces := [Joined(Joint(rows), "")];
    assert pieces[1..] == [] && RowsOf(pieces) == rows;
    assert Render(pieces) == [JoinedLine(Joint(rows), "")];
    SampleRepair(pieces, n);
  }

  lemma {:induction false} SampleRepair(pieces: seq<Piece>, n: nat)
    requires n >= 2 && AllWellLaid(pieces, n) && OpensWithRows(pieces)
    requires 2 <= |RealRows(RowsOf(pieces))| < |RowsOf(pieces)|
    ensures Repair(Repair(Render(pieces))) != Repair(Render(pieces))
  {
    CellsOfPieces(pieces, n);
    LaidColumns(pieces, n);
    ChunksOfRows(RowsOf(pieces), n);
    RepairIdempotentIff(Render(pieces));
  }

  /** A joined table whose second row is written in dashes loses that row to the second repair. */
  lemma {:induction false} SecondRepairDropsARow()
    ensures
      var line := JoinedLine(Joint([["a", "b"], ["--", "--"], ["c", "d"]]), "");
      Repair(Repair([line])) != Repair([line])
  {
    assert IsSeparatorCell("--") && !IsSeparatorCell("a") && !IsSeparatorCell("c");
    DashedSample(["a", "b"], ["--", "--"], ["c", "d"]);
  }
}

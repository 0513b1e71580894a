/** Sanitising the quantitative table against an auditor: rows whose figures cannot be traced are
    dropped, and the audit reports every row it still reads as ungrounded. */
module QuantAudit {
  import opened TextUtil
  import opened QuantTable
  import opened QuantRepair

  /** The verdicts on one line of the table: its figures are all found in the cited source, it has
      no usable figure, it names columns. How each verdict is reached is left open. */
  datatype Judge = Judge(verified: string -> bool, filler: string -> bool, headerish: string -> bool)

  /** Stands for the sentence that replaces a table of which no row is left. What matters of it is that it
      is neither a row nor a table line. */
  const NOTE := "No figure could be verified."

  /** `^\|(.+)\|$` on the stripped line */
  predicate IsRow(line: string) {
    var s := Strip(line);
    |s| >= 3 && s[0] == '|' && s[|s| - 1] == '|'
  }

  predicate DashCell(s: string) {
    forall c :: c in s ==> c == '-' || c == ' '
  }

  predicate DashCells(raw: seq<string>) {
    raw == [] || (DashCell(Strip(raw[0])) && DashCells(raw[1..]))
  }

  predicate IsDash(line: string) {
    DashCells(RawCells(line))
  }

  function TableRows(lines: seq<string>): seq<string> {
    if lines == [] then []
    else if IsRow(lines[0]) then [lines[0]] + TableRows(lines[1..])
    else TableRows(lines[1..])
  }

  function NonDash(rows: seq<string>): seq<string> {
    if rows == [] then []
    else if IsDash(rows[0]) then NonDash(rows[1..])
    else [rows[0]] + NonDash(rows[1..])
  }

  /** Rows before this one are header and separator. */
  function DataStart(j: Judge, rows: seq<string>): (d: nat)
    ensures d <= 2 && d <= |rows|
  {
    if rows == [] then 0
    else if |rows| >= 2 && IsDash(rows[1]) then 2
    else if j.headerish(rows[0]) then 1 else 0
  }

  function Parsed(j: Judge, lines: seq<string>): seq<string> {
    var rows := TableRows(lines);
    NonDash(rows[DataStart(j, rows)..])
  }

  predicate Good(j: Judge, row: string) {
    !j.filler(row) && j.verified(row)
  }

  function Goods(j: Judge, rows: seq<string>): seq<string> {
    if rows == [] then []
    else if Good(j, rows[0]) then [rows[0]] + Goods(j, rows[1..])
    else Goods(j, rows[1..])
  }

  function Bads(j: Judge, rows: seq<string>): seq<string> {
    if rows == [] then []
    else if Good(j, rows[0]) then Bads(j, rows[1..])
    else [rows[0]] + Bads(j, rows[1..])
  }

  /** The rows an audit complains about. */
  function Unverified(j: Judge, rows: seq<string>): seq<string> {
    if rows == [] then []
    else if j.verified(rows[0]) then Unverified(j, rows[1..])
    else [rows[0]] + Unverified(j, rows[1..])
  }

  function Audit(j: Judge, lines: seq<string>): seq<string> {
    Unverified(j, Parsed(j, lines))
  }

  /** Until a row that is not dashes has gone by, every row stays; later, dashes and kept rows do. */
  predicate Stays(line: string, kept: seq<string>, headerDone: bool) {
    !IsRow(line) || !headerDone || IsDash(line) || line in kept
  }

  predicate HeaderSeen(line: string, headerDone: bool) {
    headerDone || (IsRow(line) && !IsDash(line))
  }

  function Sift(lines: seq<string>, kept: seq<string>, headerDone: bool): seq<string> {
    if lines == [] then []
    else if Stays(lines[0], kept, headerDone) then
      [lines[0]] + Sift(lines[1..], kept, HeaderSeen(lines[0], headerDone))
    else Sift(lines[1..], kept, HeaderSeen(lines[0], headerDone))
  }

  datatype Sanitized = Sanitized(lines: seq<string>, removed: seq<string>, kept: seq<string>)

  function Screen(j: Judge, lines: seq<string>): Sanitized {
    var parsed := Parsed(j, lines);
    var kept, removed := Goods(j, parsed), Bads(j, parsed);
    Sanitized(if removed == [] then lines
              else if kept != [] then Sift(lines, kept, false)
              else ProseLines(Sift(lines, kept, false)) + ["", NOTE],
              removed, kept)
  }

  function Sanitize(j: Judge, lines: seq<string>): Sanitized {
    Screen(j, Repair(lines))
  }

  /* ------------------------------------------------------------------ the loops of the program */

  method PickRows(lines: seq<string>) returns (rows: seq<string>)
    ensures rows == TableRows(lines)
  {
    rows := [];
    for i := 0 to |lines|
      invariant rows + TableRows(lines[i..]) == TableRows(lines)
    {
      assert lines[i..][1..] == lines[i + 1..];
      if IsRow(lines[i]) {
        rows := rows + [lines[i]];
      }
    }
  }

  method ParseRows(j: Judge, lines: seq<string>) returns (parsed: seq<string>)
    ensures parsed == Parsed(j, lines)
  {
    var rows := PickRows(lines);
    var data := rows[DataStart(j, rows)..];
    parsed := [];
    for i := 0 to |data|
      invariant parsed + NonDash(data[i..]) == NonDash(data)
    {
      assert data[i..][1..] == data[i + 1..];
      if !IsDash(data[i]) {
        parsed := parsed + [data[i]];
      }
    }
  }

  method JudgeRows(j: Judge, parsed: seq<string>) returns (kept: seq<string>, removed: seq<string>)
    ensures kept == Goods(j, parsed) && removed == Bads(j, parsed)
  {
    kept, removed := [], [];
    for i := 0 to |parsed|
      invariant kept + Goods(j, parsed[i..]) == Goods(j, parsed)
      invariant removed + Bads(j, parsed[i..]) == Bads(j, parsed)
    {
      assert parsed[i..][1..] == parsed[i + 1..];
      if j.filler(parsed[i]) || !j.verified(parsed[i]) {
        removed := removed + [parsed[i]];
      } else {
        kept := kept + [parsed[i]];
      }
    }
  }

  lemma {:induction false} SiftStep(out: seq<string>, lines: seq<string>, i: nat, kept: seq<string>, done: bool)
    requires i < |lines|
    ensures out + Sift(lines[i..], kept, done) ==
            (if Stays(lines[i], kept, done) then out + [lines[i]] else out)
            + Sift(lines[i + 1..], kept, HeaderSeen(lines[i], done))
  {
    assert lines[i..][1..] == lines[i + 1..];
  }

  method SiftLines(lines: seq<string>, kept: seq<string>) returns (out: seq<string>)
    ensures out == Sift(lines, kept, false)
  {
    out := [];
    var headerDone := false;
    for i := 0 to |lines|
      invariant out + Sift(lines[i..], kept, headerDone) == Sift(lines, kept, false)
    {
      SiftStep(out, lines, i, kept, headerDone);
      var row, dash := IsRow(lines[i]), IsDash(lines[i]);
      if !row {
        out := out + [lines[i]];
      } else if !headerDone {
        out := out + [lines[i]];
        headerDone := !dash;
      } else if dash || lines[i] in kept {
        out := out + [lines[i]];
      }
    }
  }

  method SanitizeQuantitativeTable(j: Judge, section: seq<string>) returns (out: seq<string>, removed: nat, kept: nat)
    ensures var s := Sanitize(j, section); out == s.lines && removed == |s.removed| && kept == |s.kept|
  {
    out := RepairQuantitativeTable(section);
    var parsed := ParseRows(j, out);
    var keptLines, dropped := JudgeRows(j, parsed);
    removed, kept := |dropped|, |keptLines|;
    if dropped != [] {
      out := SiftLines(out, keptLines);
      if keptLines == [] {
        out := ProseLines(out) + ["", NOTE];
      }
    }
  }

  method AuditQuantitativeTable(j: Judge, lines: seq<string>) returns (issues: seq<string>)
    ensures issues == Audit(j, lines)
  {
    var parsed := ParseRows(j, lines);
    issues := [];
    for i := 0 to |parsed|
      invariant issues + Unverified(j, parsed[i..]) == Unverified(j, parsed)
    {
      assert parsed[i..][1..] == parsed[i + 1..];
      if !j.verified(parsed[i]) {
        issues := issues + [parsed[i]];
      }
    }
  }

  /* ------------------------------------------------------------------ sifting by the rows themselves */

  /** Until a row that is not dashes has gone by, every row lasts; later, dashes and good rows do. */
  predicate Lasts(j: Judge, line: string, done: bool) {
    !IsRow(line) || !done || IsDash(line) || Good(j, line)
  }

  /** What the sift leaves, read off the lines alone. */
  function Weed(j: Judge, lines: seq<string>, done: bool): seq<string> {
    if lines == [] then []
    else if Lasts(j, lines[0], done) then [lines[0]] + Weed(j, lines[1..], HeaderSeen(lines[0], done))
    else Weed(j, lines[1..], HeaderSeen(lines[0], done))
  }

  predicate OnlyRows(rows: seq<string>) {
    rows == [] || (IsRow(rows[0]) && OnlyRows(rows[1..]))
  }

  lemma {:induction false} TableRowsFacts(lines: seq<string>)
    ensures OnlyRows(TableRows(lines))
  {
    if lines == [] {
    } else {
      TableRowsFacts(lines[1..]);
      if IsRow(lines[0]) {
        assert TableRows(lines)[1..] == TableRows(lines[1..]);
      }
    }
  }

  lemma {:induction false} RowsHead(line: string, rest: seq<string>)
    ensures TableRows([line] + rest) == if IsRow(line) then [line] + TableRows(rest) else TableRows(rest)
  {
    assert ([line] + rest)[1..] == rest;
  }

  lemma {:induction false} NonDashHead(line: string, rest: seq<string>)
    ensures NonDash([line] + rest) == if IsDash(line) then NonDash(rest) else [line] + NonDash(rest)
  {
    assert ([line] + rest)[1..] == rest;
  }

  lemma {:induction false} WeedHead(j: Judge, line: string, rest: seq<string>, done: bool)
    ensures Weed(j, [line] + rest, done) ==
            if Lasts(j, line, done) then [line] + Weed(j, rest, HeaderSeen(line, done))
            else Weed(j, rest, HeaderSeen(line, done))
  {
    assert ([line] + rest)[1..] == rest;
  }

  predicate AllIn(rows: seq<string>, kept: seq<string>) {
    rows == [] || (rows[0] in kept && AllIn(rows[1..], kept))
  }

  lemma {:induction false} AllInSelf(before: seq<string>, rows: seq<string>)
    ensures AllIn(rows, before + rows)
    decreases |rows|
  {
    if rows == [] {
    } else {
      assert before + rows == (before + [rows[0]]) + rows[1..];
      AllInSelf(before + [rows[0]], rows[1..]);
    }
  }

  lemma {:induction false} GoodsGood(j: Judge, rows: seq<string>, row: string)
    requires row in Goods(j, rows)
    ensures Good(j, row)
  {
    if !(Good(j, rows[0]) && row == rows[0]) {
      GoodsGood(j, rows[1..], row);
    }
  }

  lemma {:induction false} GoodsIn(j: Judge, rows: seq<string>, row: string)
    requires row in rows && Good(j, row)
    ensures row in Goods(j, rows)
  {
    if rows[0] != row {
      GoodsIn(j, rows[1..], row);
    }
  }

  lemma {:induction false} VetLine(j: Judge, line: string, all: seq<string>)
    requires line in all
    ensures line in Goods(j, all) <==> Good(j, line)
  {
    if Good(j, line) {
      GoodsIn(j, all, line);
    } else if line in Goods(j, all) {
      GoodsGood(j, all, line);
    }
  }

  /** The rows that a sift judges: all but dashes and the first other row. */
  function Later(rows: seq<string>, done: bool): seq<string> {
    if done then NonDash(rows) else if NonDash(rows) == [] then [] else NonDash(rows)[1..]
  }

  /** What follows the first row, whether or not it starts with dashes. */
  lemma {:induction false} LaterRows(first: string, rest: seq<string>)
    ensures Later([first] + rest, false) ==
            if !IsDash(first) then NonDash(rest) else Later(rest, false)
    ensures rest != [] && IsDash(rest[0]) ==> NonDash(rest) == NonDash(rest[1..])
  {
    NonDashHead(first, rest);
    if rest != [] {
      assert rest == [rest[0]] + rest[1..];
      NonDashHead(rest[0], rest[1..]);
    }
  }

  lemma {:induction false} LaterIsTail(rows: seq<string>)
    ensures Later(rows, false) == NonDash(rows) || (NonDash(rows) != [] && Later(rows, false) == NonDash(rows)[1..])
  {
  }

  /** The parse reads every row that the sift judges. */
  lemma {:induction false} ParseReadsLater(j: Judge, rows: seq<string>)
    ensures
      var parsed := NonDash(rows[DataStart(j, rows)..]);
      Later(rows, false) == parsed || (parsed != [] && Later(rows, false) == parsed[1..])
  {
    var d := DataStart(j, rows);
    if d == 0 {
      assert rows[0..] == rows;
      LaterIsTail(rows);
    } else {
      var first, rest := rows[0], rows[1..];
      assert rows == [first] + rest;
      LaterRows(first, rest);
      LaterIsTail(rest);
      if d == 2 {
        assert rest[0] == rows[1] && rest[1..] == rows[2..];
      }
    }
  }

  lemma {:induction false} LaterIn(j: Judge, lines: seq<string>)
    ensures AllIn(Later(TableRows(lines), false), Parsed(j, lines))
    ensures Bads(j, Parsed(j, lines)) == [] ==> Bads(j, Later(TableRows(lines), false)) == []
  {
    var parsed := Parsed(j, lines);
    ParseReadsLater(j, TableRows(lines));
    AllInSelf([], parsed);
    assert [] + parsed == parsed;
  }

  lemma {:induction false} LaterHead(line: string, rest: seq<string>, done: bool)
    ensures Later(TableRows([line] + rest), done) ==
            if IsRow(line) && !IsDash(line) && done then [line] + Later(TableRows(rest), true)
            else Later(TableRows(rest), HeaderSeen(line, done))
  {
    RowsHead(line, rest);
    NonDashHead(line, TableRows(rest));
  }

  /** A sift by the good rows of a list that holds all judged rows keeps exactly what lasts. */
  lemma {:induction false} SiftIsWeed(j: Judge, lines: seq<string>, all: seq<string>, done: bool)
    requires AllIn(Later(TableRows(lines), done), all)
    ensures Sift(lines, Goods(j, all), done) == Weed(j, lines, done)
  {
    if lines == [] {
    } else {
      var line, rest := lines[0], lines[1..];
      assert lines == [line] + rest;
      LaterHead(line, rest, done);
      if IsRow(line) && !IsDash(line) && done {
        assert ([line] + Later(TableRows(rest), true))[1..] == Later(TableRows(rest), true);
        VetLine(j, line, all);
      }
      SiftIsWeed(j, rest, all, HeaderSeen(line, done));
    }
  }

  lemma {:induction false} BadsHead(j: Judge, line: string, rest: seq<string>)
    ensures Bads(j, [line] + rest) == if Good(j, line) then Bads(j, rest) else [line] + Bads(j, rest)
  {
    assert ([line] + rest)[1..] == rest;
  }

  /** Where no judged row is bad, everything lasts. */
  lemma {:induction false} NothingWeeded(j: Judge, lines: seq<string>, done: bool)
    requires Bads(j, Later(TableRows(lines), done)) == []
    ensures Weed(j, lines, done) == lines
  {
    if lines == [] {
    } else {
      var line, rest := lines[0], lines[1..];
      assert lines == [line] + rest;
      LaterHead(line, rest, done);
      if IsRow(line) && !IsDash(line) && done {
        BadsHead(j, line, Later(TableRows(rest), true));
      }
      NothingWeeded(j, rest, HeaderSeen(line, done));
    }
  }

  /** Rows were removed and none could be kept. */
  predicate NothingLeft(j: Judge, lines: seq<string>) {
    Bads(j, Parsed(j, lines)) != [] && Goods(j, Parsed(j, lines)) == []
  }

  /** What sanitising leaves: the repaired section weeded, or its prose and a note. */
  lemma {:induction false} SanitizedIs(j: Judge, section: seq<string>)
    ensures
      var lines := Repair(section);
      Sanitize(j, section).lines ==
      if NothingLeft(j, lines) then ProseLines(Weed(j, lines, false)) + ["", NOTE] else Weed(j, lines, false)
  {
    var lines := Repair(section);
    LaterIn(j, lines);
    SiftIsWeed(j, lines, Parsed(j, lines), false);
    if Bads(j, Parsed(j, lines)) == [] {
      NothingWeeded(j, lines, false);
    }
  }

  /* ------------------------------------------------------------------ what sifting leaves */

  lemma {:induction false} WeedRows(j: Judge, lines: seq<string>, done: bool)
    ensures TableRows(Weed(j, lines, done)) == Weed(j, TableRows(lines), done)
  {
    if lines == [] {
    } else {
      var line, seen := lines[0], HeaderSeen(lines[0], done);
      WeedRows(j, lines[1..], seen);
      RowsHead(line, Weed(j, lines[1..], seen));
      WeedHead(j, line, TableRows(lines[1..]), done);
    }
  }

  lemma {:induction false} WeedTables(j: Judge, lines: seq<string>, done: bool)
    ensures TableLines(Weed(j, lines, done)) == Weed(j, TableLines(lines), done)
  {
    if lines == [] {
    } else {
      var line, seen := lines[0], HeaderSeen(lines[0], done);
      WeedTables(j, lines[1..], seen);
      FilterHead(line, Weed(j, lines[1..], seen));
      WeedHead(j, line, TableLines(lines[1..]), done);
    }
  }

  /** Below the header only dashes and good rows survive. */
  lemma {:induction false} WeededBelow(j: Judge, rows: seq<string>)
    requires OnlyRows(rows)
    ensures Bads(j, NonDash(Weed(j, rows, true))) == []
  {
    if rows == [] {
    } else {
      WeededBelow(j, rows[1..]);
      var rest := Weed(j, rows[1..], true);
      NonDashHead(rows[0], rest);
      BadsHead(j, rows[0], NonDash(rest));
    }
  }

  lemma {:induction false} NoBads(j: Judge, rows: seq<string>)
    requires Bads(j, rows) == []
    ensures Unverified(j, rows) == []
  {
    if rows == [] {
    } else {
      NoBads(j, rows[1..]);
    }
  }

  lemma {:induction false} ProseHasNoRows(lines: seq<string>)
    ensures TableRows(ProseLines(lines) + ["", NOTE]) == []
    ensures TableLines(ProseLines(lines) + ["", NOTE]) == []
  {
    if lines == [] {
      NoteIsProseLines();
    } else {
      ProseHasNoRows(lines[1..]);
      if !IsTableLine(lines[0]) {
        var rest := ProseLines(lines[1..]) + ["", NOTE];
        assert ProseLines(lines) + ["", NOTE] == [lines[0]] + rest;
        assert ([lines[0]] + rest)[1..] == rest;
      }
    }
  }

  lemma {:induction false} NoteIsProseLines()
    ensures var tail := [] + ["", NOTE]; TableRows(tail) == [] && TableLines(tail) == []
  {
    FirmTrim(NOTE, SPACES);
    FirmTrim("", SPACES);
    assert [] + ["", NOTE] == [""] + ([NOTE] + []);
    RowsHead(NOTE, []);
    RowsHead("", [NOTE] + []);
    FilterHead(NOTE, []);
    FilterHead("", [NOTE] + []);
  }

  /* ------------------------------------------------------------------ what is read again */

  /** The first row that is not dashes: sifting always keeps it, whatever its figures. */
  function FirstFigure(rows: seq<string>): string {
    if rows == [] then "" else if IsDash(rows[0]) then FirstFigure(rows[1..]) else rows[0]
  }

  /** The first of the rows that is dashes or good is dashes. */
  predicate RuleFirst(j: Judge, rows: seq<string>) {
    rows != [] && (IsDash(rows[0]) || (!Good(j, rows[0]) && RuleFirst(j, rows[1..])))
  }

  /** The first row is taken for a header even when it is read again: it names columns, or a separator
      comes before any good row. */
  predicate Spared(j: Judge, rows: seq<string>) {
    rows != [] && !IsDash(rows[0]) && (j.headerish(rows[0]) || RuleFirst(j, rows[1..]))
  }

  lemma {:induction false} RuleFirstLeft(j: Judge, rows: seq<string>)
    requires OnlyRows(rows)
    ensures RuleFirst(j, rows) <==> Weed(j, rows, true) != [] && IsDash(Weed(j, rows, true)[0])
  {
    if rows == [] {
    } else {
      RuleFirstLeft(j, rows[1..]);
    }
  }

  lemma {:induction false} UnverifiedHead(j: Judge, line: string, rest: seq<string>)
    ensures Unverified(j, [line] + rest) ==
            if j.verified(line) then Unverified(j, rest) else [line] + Unverified(j, rest)
  {
    assert ([line] + rest)[1..] == rest;
  }

  /** What is read once a header row leads: the rows below it, and the header unless spared. */
  lemma {:induction false} ReadBelowHeader(j: Judge, header: string, below: seq<string>)
    requires !IsDash(header)
    ensures
      var rows := [header] + below;
      var spared := j.headerish(header) || (below != [] && IsDash(below[0]));
      NonDash(rows[DataStart(j, rows)..]) == if spared then NonDash(below) else [header] + NonDash(below)
  {
    var rows := [header] + below;
    NonDashHead(header, below);
    assert rows[1..] == below && rows[0..] == rows;
    if below != [] {
      assert rows[2..] == below[1..];
      assert rows[1] == below[0];
    }
  }

  /** Rows that open with dashes are all read. */
  lemma {:induction false} ReadAfterDashes(j: Judge, rows: seq<string>)
    requires rows != [] && IsDash(rows[0])
    ensures NonDash(rows[DataStart(j, rows)..]) == NonDash(rows)
  {
    assert rows[0..] == rows;
    if |rows| >= 2 && IsDash(rows[1]) {
      assert rows[2..] == rows[1..][1..];
    }
  }

  /** Sifted rows hold the first figure and then good rows only. */
  lemma {:induction false} WeededFigures(j: Judge, rows: seq<string>) returns (below: seq<string>)
    requires OnlyRows(rows) && NonDash(rows) != []
    ensures NonDash(Weed(j, rows, false)) == [FirstFigure(rows)] + below
    ensures Bads(j, below) == []
  {
    if IsDash(rows[0]) {
      below := WeededFigures(j, rows[1..]);
      NonDashHead(rows[0], Weed(j, rows[1..], false));
    } else {
      WeededBelow(j, rows[1..]);
      below := NonDash(Weed(j, rows[1..], true));
      NonDashHead(rows[0], Weed(j, rows[1..], true));
    }
  }

  /** What a parse of the sifted rows reads: good rows, after the first figure unless it is spared. */
  lemma {:induction false} ReadWeeded(j: Judge, rows: seq<string>) returns (below: seq<string>)
    requires OnlyRows(rows) && NonDash(rows) != []
    ensures
      var left := Weed(j, rows, false);
      NonDash(left[DataStart(j, left)..]) == if Spared(j, rows) then below else [FirstFigure(rows)] + below
    ensures Bads(j, below) == []
  {
    if IsDash(rows[0]) {
      below := WeededFigures(j, rows);
      ReadAfterDashes(j, Weed(j, rows, false));
    } else {
      var rest := Weed(j, rows[1..], true);
      below := NonDash(rest);
      WeededBelow(j, rows[1..]);
      RuleFirstLeft(j, rows[1..]);
      ReadBelowHeader(j, rows[0], rest);
    }
  }

  lemma {:induction false} NonDashTail(rows: seq<string>, d: nat)
    requires d <= |rows| && NonDash(rows[d..]) != []
    ensures NonDash(rows) != []
  {
    if d == 0 {
      assert rows[0..] == rows;
    } else {
      assert rows[1..][d - 1..] == rows[d..];
      NonDashTail(rows[1..], d - 1);
    }
  }

  /** The rows read again in what is left of a section with both bad and good rows. */
  lemma {:induction false} ReadAgain(j: Judge, lines: seq<string>)
    requires Bads(j, Parsed(j, lines)) != []
    ensures
      var rows, again := TableRows(lines), Parsed(j, Weed(j, lines, false));
      && (Bads(j, again) == [] <==> Spared(j, rows) || Good(j, FirstFigure(rows)))
      && (Unverified(j, again) == [] <==> Spared(j, rows) || j.verified(FirstFigure(rows)))
  {
    var rows := TableRows(lines);
    NonDashTail(rows, DataStart(j, rows));
    TableRowsFacts(lines);
    WeedRows(j, lines, false);
    var below := ReadWeeded(j, rows);
    NoBads(j, below);
    BadsHead(j, FirstFigure(rows), below);
    UnverifiedHead(j, FirstFigure(rows), below);
  }

  /* ------------------------------------------------------------------ the auditor agrees */

  /** The audit of a sanitised section is silent exactly when no row of the repaired section is bad, or
      none is good, or its first row is taken for a header, or its first figure is verified. */
  lemma {:induction false} SanitizeMeetsAuditIff(j: Judge, section: seq<string>)
    ensures
      var lines := Repair(section);
      var parsed, rows := Parsed(j, lines), TableRows(lines);
      Audit(j, Sanitize(j, section).lines) == [] <==>
      Bads(j, parsed) == [] || Goods(j, parsed) == [] || Spared(j, rows) || j.verified(FirstFigure(rows))
  {
    var lines := Repair(section);
    SanitizedIs(j, section);
    if Bads(j, Parsed(j, lines)) == [] {
      NoBads(j, Parsed(j, lines));
    } else if Goods(j, Parsed(j, lines)) == [] {
      ProseHasNoRows(Weed(j, lines, false));
    } else {
      ReadAgain(j, lines);
    }
  }

  /** Header, then a row of dashes. */
  predicate Ruled(rows: seq<string>) {
    |rows| >= 2 && !IsDash(rows[0]) && IsDash(rows[1])
  }

  /** A table with a separator under its header passes the audit once sanitised. */
  lemma {:induction false} RuledTableAuditsClean(j: Judge, section: seq<string>)
    requires Ruled(TableRows(Repair(section)))
    ensures Audit(j, Sanitize(j, section).lines) == []
  {
    SanitizeMeetsAuditIff(j, section);
  }

  /* ------------------------------------------------------------------ a table laid out by repair */

  predicate AllDashed(cells: Cells) {
    cells == [] || (DashCell(cells[0]) && AllDashed(cells[1..]))
  }

  lemma {:induction false} PaddedDashes(cells: Cells)
    requires CleanCells(cells)
    ensures DashCells(Padded(cells)) <==> AllDashed(cells)
  {
    if cells == [] {
    } else {
      StripPad(cells[0]);
      PaddedDashes(cells[1..]);
      assert Padded(cells)[1..] == Padded(cells[1..]);
    }
  }

  lemma {:induction false} RowLineDashes(cells: Cells)
    requires CleanRow(cells)
    ensures IsRow(RowLine(cells))
    ensures IsDash(RowLine(cells)) <==> AllDashed(cells)
  {
    RowLineRaw(cells);
    PaddedDashes(cells);
  }

  lemma {:induction false} DashesAreDashes(n: nat)
    requires n > 0
    ensures DashCells(Split(Dashes(n), '|'))
  {
    FirmTrim("---", SPACES);
    if n == 1 {
      SplitNone("---", '|');
      assert DashCells(["---"][1..]);
    } else {
      DashesAreDashes(n - 1);
      var rest := Dashes(n - 1);
      assert Dashes(n) == "---" + ['|'] + rest;
      SplitAt("---", '|', rest);
      assert (["---"] + Split(rest, '|'))[1..] == Split(rest, '|');
    }
  }

  lemma {:induction false} SeparatorIsDash(n: nat)
    requires n > 0
    ensures IsRow(SeparatorLine(n)) && IsDash(SeparatorLine(n))
  {
    DashesEnds(n);
    DashesAreDashes(n);
    assert SeparatorLine(n) == "|" + Dashes(n) + "|";
    PipedLine(Dashes(n));
  }

  lemma {:induction false} RowLinesAreRows(rows: seq<Cells>)
    requires CleanRows(rows)
    ensures TableRows(RowLines(rows)) == RowLines(rows)
  {
    if rows == [] {
    } else {
      RowLineDashes(rows[0]);
      RowLinesAreRows(rows[1..]);
      RowsHead(RowLine(rows[0]), RowLines(rows[1..]));
    }
  }

  lemma {:induction false} TableRowsOfTable(lines: seq<string>)
    ensures TableRows(TableLines(lines)) == TableRows(lines)
  {
    if lines == [] {
    } else {
      TableRowsOfTable(lines[1..]);
      RowsHead(lines[0], TableLines(lines[1..]));
    }
  }

  lemma {:induction false} RebuiltRows(rows: seq<Cells>, n: nat)
    requires rows != [] && CleanRows(rows) && n > 0
    ensures TableRows(Rebuilt(rows, n)) == Rebuilt(rows, n)
    ensures IsDash(Rebuilt(rows, n)[1]) && Rebuilt(rows, n)[2..] == RowLines(rows[1..])
    ensures !AllDashed(rows[0]) ==> Ruled(Rebuilt(rows, n))
  {
    var first, second, rest := RowLine(rows[0]), SeparatorLine(n), RowLines(rows[1..]);
    RowLineDashes(rows[0]);
    SeparatorIsDash(n);
    RowLinesAreRows(rows[1..]);
    RowsHead(second, rest);
    RowsHead(first, [second] + rest);
    assert Rebuilt(rows, n) == [first] + ([second] + rest);
  }

  /** The rows whose figures hold are good lines; rows of dashes are not judged. */
  predicate Passes(j: Judge, rows: seq<Cells>) {
    rows == [] || ((AllDashed(rows[0]) || Good(j, RowLine(rows[0]))) && Passes(j, rows[1..]))
  }

  lemma {:induction false} PassesIff(j: Judge, rows: seq<Cells>)
    requires CleanRows(rows)
    ensures Bads(j, NonDash(RowLines(rows))) == [] <==> Passes(j, rows)
  {
    if rows == [] {
    } else {
      var line, rest := RowLine(rows[0]), RowLines(rows[1..]);
      RowLineDashes(rows[0]);
      NonDashHead(line, rest);
      BadsHead(j, line, NonDash(rest));
      PassesIff(j, rows[1..]);
    }
  }

  /** Of a table laid out by repair, the rows below the separator are read. */
  lemma {:induction false} ReadRebuilt(j: Judge, lines: seq<string>, rows: seq<Cells>, n: nat)
    requires rows != [] && CleanRows(rows) && n > 0 && TableLines(lines) == Rebuilt(rows, n)
    ensures Parsed(j, lines) == NonDash(RowLines(rows[1..]))
  {
    RebuiltRows(rows, n);
    TableRowsOfTable(lines);
  }

  /* ------------------------------------------------------------------ sanitising twice */

  lemma {:induction false} TableLinesTwice(lines: seq<string>)
    ensures TableLines(TableLines(lines)) == TableLines(lines)
  {
    if lines == [] {
    } else {
      TableLinesTwice(lines[1..]);
      FilterHead(lines[0], TableLines(lines[1..]));
    }
  }

  /** The table that a first pass leaves, as long as it leaves one. */
  function LeftTable(j: Judge, section: seq<string>): seq<string> {
    Weed(j, TableLines(Repair(section)), false)
  }

  lemma {:induction false} LeftTableIs(j: Judge, section: seq<string>)
    ensures
      var out, left := Sanitize(j, section).lines, LeftTable(j, section);
      && TableLines(left) == left
      && TableLines(out) == if NothingLeft(j, Repair(section)) then [] else left
  {
    var lines := Repair(section);
    SanitizedIs(j, section);
    WeedTables(j, lines, false);
    TableLinesTwice(Weed(j, lines, false));
    if NothingLeft(j, lines) {
      ProseHasNoRows(Weed(j, lines, false));
    }
  }

  /** A section that regroups loses rows exactly when one of its data rows does not pass. */
  lemma {:induction false} RegroupedRemoves(j: Judge, section: seq<string>)
    requires Regroups(section)
    ensures Rows(section) != []
    ensures Sanitize(j, section).removed == [] <==> Passes(j, Rows(section)[1..])
  {
    RowsFacts(section);
    RepairedShape(section);
    ReadRebuilt(j, Repair(section), Rows(section), Columns(section));
    PassesIff(j, Rows(section)[1..]);
  }

  /** When a second pass removes nothing: the first one left no table; or the table it leaves regroups
      into rows that pass; or it does not regroup, and the first pass removed nothing either, or the first
      row is taken for a header again, or the first figure is good. */
  predicate Settles(j: Judge, section: seq<string>) {
    var lines, left := Repair(section), LeftTable(j, section);
    || NothingLeft(j, lines)
    || if Regroups(left) then Rows(left) != [] && Passes(j, Rows(left)[1..])
       else Bads(j, Parsed(j, lines)) == [] || Spared(j, TableRows(lines)) || Good(j, FirstFigure(TableRows(lines)))
  }

  /** Repair leaves this table alone. */
  predicate LaidOut(table: seq<string>) {
    Regroups(table) ==> Rows(table) != [] && Rebuilt(Rows(table), Columns(table)) == table
  }

  lemma {:induction false} RepairStaysIff(lines: seq<string>)
    ensures Repair(lines) == lines <==> LaidOut(TableLines(lines))
  {
    TableLinesTwice(lines);
    if Regroups(lines) {
      RepairedShape(lines);
    }
  }

  lemma {:induction false} NoTableRemovesNothing(j: Judge, lines: seq<string>)
    requires TableLines(lines) == []
    ensures Sanitize(j, lines).lines == lines && Sanitize(j, lines).removed == [] && Repair(lines) == lines
  {
    TableRowsOfTable(lines);
  }

  lemma {:induction false} UnrepairedAgain(j: Judge, section: seq<string>)
    requires !NothingLeft(j, Repair(section)) && !Regroups(Sanitize(j, section).lines)
    ensures
      var lines := Repair(section);
      Sanitize(j, Sanitize(j, section).lines).removed == [] <==>
      Bads(j, Parsed(j, lines)) == [] || Spared(j, TableRows(lines)) || Good(j, FirstFigure(TableRows(lines)))
  {
    SanitizedIs(j, section);
    if Bads(j, Parsed(j, Repair(section))) != [] {
      ReadAgain(j, Repair(section));
    }
  }

  /** Exactly when a second pass removes nothing, and then when it changes no line either. */
  lemma {:induction false} SecondSanitizeIff(j: Judge, section: seq<string>)
    ensures
      var out := Sanitize(j, section).lines;
      && (Sanitize(j, out).removed == [] <==> Settles(j, section))
      && (Settles(j, section) ==>
            (Sanitize(j, out).lines == out <==> NothingLeft(j, Repair(section)) || LaidOut(LeftTable(j, section))))
  {
    var out, left := Sanitize(j, section).lines, LeftTable(j, section);
    LeftTableIs(j, section);
    RepairStaysIff(out);
    if NothingLeft(j, Repair(section)) {
      NoTableRemovesNothing(j, out);
    } else {
      assert Regroups(out) == Regroups(left);
      if Regroups(out) {
        RegroupedRemoves(j, out);
      } else {
        UnrepairedAgain(j, section);
      }
    }
  }

  /** With a separator under the header, a second pass over an output that needs no repair finds
      nothing to remove. */
  lemma {:induction false} SecondSanitizeRemovesNothing(j: Judge, section: seq<string>)
    requires Ruled(TableRows(Repair(section)))
    requires var out := Sanitize(j, section).lines; Repair(out) == out
    ensures var out := Sanitize(j, section).lines; Sanitize(j, out).lines == out && Sanitize(j, out).removed == []
  {
    var lines := Repair(section);
    SanitizedIs(j, section);
    if NothingLeft(j, lines) {
      ProseHasNoRows(Weed(j, lines, false));
    } else if Bads(j, Parsed(j, lines)) != [] {
      ReadAgain(j, lines);
    }
  }

  /* ------------------------------------------------------------------ a section that regroups */

  /** The rows of dashes and the rows whose figures hold. */
  function Vetted(j: Judge, rows: seq<Cells>): seq<Cells> {
    if rows == [] then []
    else if AllDashed(rows[0]) || Good(j, RowLine(rows[0])) then [rows[0]] + Vetted(j, rows[1..])
    else Vetted(j, rows[1..])
  }

  /** Weeding a rebuilt table keeps exactly the vetted rows. */
  lemma {:induction false} WeedVetted(j: Judge, rows: seq<Cells>)
    requires CleanRows(rows)
    ensures Weed(j, RowLines(rows), true) == RowLines(Vetted(j, rows))
  {
    if rows == [] {
    } else {
      var line, rest := RowLine(rows[0]), RowLines(rows[1..]);
      RowLineDashes(rows[0]);
      WeedHead(j, line, rest, true);
      WeedVetted(j, rows[1..]);
      assert Vetted(j, rows) == Vetted(j, rows[1..]) || Vetted(j, rows)[1..] == Vetted(j, rows[1..]);
    }
  }

  lemma {:induction false} WeedBelowRule(j: Judge, header: string, rule: string, below: seq<string>)
    requires IsRow(header) && !IsDash(header) && IsDash(rule)
    ensures Weed(j, [header] + ([rule] + below), false) == [header] + ([rule] + Weed(j, below, true))
  {
    WeedHead(j, rule, below, true);
    WeedHead(j, header, [rule] + below, false);
  }

  lemma {:induction false} WeedRebuilt(j: Judge, rows: seq<Cells>, n: nat)
    requires rows != [] && CleanRows(rows) && !AllDashed(rows[0]) && n > 0
    ensures Weed(j, Rebuilt(rows, n), false) == Rebuilt([rows[0]] + Vetted(j, rows[1..]), n)
  {
    var left := [rows[0]] + Vetted(j, rows[1..]);
    RowLineDashes(rows[0]);
    SeparatorIsDash(n);
    WeedVetted(j, rows[1..]);
    WeedBelowRule(j, RowLine(rows[0]), SeparatorLine(n), RowLines(rows[1..]));
    RebuiltParts(rows, n);
    RebuiltParts(left, n);
    assert left[1..] == Vetted(j, rows[1..]);
  }

  /** What sanitising leaves of a section that regroups: no table at all when rows were removed and none
      could be kept, otherwise the header and the vetted rows, freshly laid out. */
  lemma {:induction false} RegroupedTable(j: Judge, section: seq<string>)
    requires Regroups(section) && Rows(section) != [] && !AllDashed(Rows(section)[0])
    ensures
      var s, rows := Sanitize(j, section), Rows(section);
      TableLines(s.lines) ==
      if s.removed != [] && s.kept == [] then []
      else Rebuilt([rows[0]] + Vetted(j, rows[1..]), Columns(section))
    ensures Ruled(TableRows(Repair(section)))
  {
    var rows, n := Rows(section), Columns(section);
    RowsFacts(section);
    RepairedShape(section);
    RebuiltRows(rows, n);
    TableRowsOfTable(Repair(section));
    WeedRebuilt(j, rows, n);
    LeftTableIs(j, section);
  }

  predicate NoSeparators(rows: seq<Cells>) {
    rows == [] || (!AllSeparatorCells(rows[0]) && NoSeparators(rows[1..]))
  }

  lemma {:induction false} NoSeparatorsReal(rows: seq<Cells>, n: nat)
    requires CleanRows(rows) && Even(rows, n)
    ensures NoSeparators(rows) <==> RealRows(rows) == rows
  {
    if rows == [] {
    } else {
      NoSeparatorsReal(rows[1..], n);
      RealRowsFacts(rows[1..], n);
      if !AllSeparatorCells(rows[0]) {
        assert RealRows(rows)[1..] == RealRows(rows[1..]);
      }
    }
  }

  lemma {:induction false} VettedShape(j: Judge, rows: seq<Cells>, n: nat)
    requires CleanRows(rows) && Even(rows, n) && NoSeparators(rows)
    ensures CleanRows(Vetted(j, rows)) && Even(Vetted(j, rows), n) && NoSeparators(Vetted(j, rows))
  {
    if rows == [] {
    } else {
      VettedShape(j, rows[1..], n);
      var rest := Vetted(j, rows[1..]);
      assert ([rows[0]] + rest)[1..] == rest;
    }
  }

  /** A table already laid out, one row per line, is left alone by repair. */
  lemma {:induction false} LaidOutStays(lines: seq<string>, rows: seq<Cells>, n: nat)
    requires n >= 2 && rows != [] && CleanRows(rows) && Even(rows, n) && NoSeparators(rows)
    requires TableLines(lines) == Rebuilt(rows, n)
    ensures Repair(lines) == lines
  {
    RebuiltTable(rows, n);
    RebuiltCells(rows, n);
    NoSeparatorsReal(rows, n);
    ChunksOfRows(rows, n);
  }

  /** Sanitising a section that regroups, whose header is not dashes and whose rows do not read as
      separators: the audit is silent, and a second pass changes nothing. */
  lemma {:induction false} RegroupedSanitize(j: Judge, section: seq<string>)
    requires Regroups(section) && Rows(section) != [] && !AllDashed(Rows(section)[0])
    requires RealRows(Rows(section)) == Rows(section)
    ensures
      var out := Sanitize(j, section).lines;
      Audit(j, out) == [] && Sanitize(j, out).lines == out && Sanitize(j, out).removed == []
  {
    var out, rows, n := Sanitize(j, section).lines, Rows(section), Columns(section);
    RowsFacts(section);
    RegroupedTable(j, section);
    RuledTableAuditsClean(j, section);
    if TableLines(out) != [] {
      var left := [rows[0]] + Vetted(j, rows[1..]);
      NoSeparatorsReal(rows, n);
      VettedShape(j, rows[1..], n);
      assert left[1..] == Vetted(j, rows[1..]);
      LaidOutStays(out, left, n);
    }
    SecondSanitizeRemovesNothing(j, section);
  }

  /* ------------------------------------------------------------------ two tables it fails on */

  /** A cell that is neither dashes nor padded. */
  predicate Plain(c: string) {
    Clean(c) && !DashCell(c) && !IsSeparatorCell(c)
  }

  lemma {:induction false} Letter(c: string)
    requires |c| == 1 && 'a' <= c[0] <= 'z'
    ensures Plain(c)
  {
    assert c == [c[0]] && c[0] in c;
  }

  lemma {:induction false} PlainRow(cells: Cells)
    requires cells != [] && forall k :: 0 <= k < |cells| ==> Plain(cells[k])
    ensures CleanRow(cells) && !AllDashed(cells) && !AllSeparatorCells(cells)
  {
    if |cells| > 1 {
      PlainRow(cells[1..]);
    } else {
      assert cells[1..] == [];
    }
  }

  lemma {:induction false} RowAndRest(cells: Cells, rest: seq<string>)
    requires CleanRow(cells) && !AllDashed(cells) && !AllSeparatorCells(cells)
    ensures var line := RowLine(cells);
            && IsRow(line) && !IsDash(line)
            && TableRows([line] + rest) == [line] + TableRows(rest)
            && TableLines([line] + rest) == [line] + TableLines(rest)
            && NonDash([line] + rest) == [line] + NonDash(rest)
            && AllCells([line] + rest) == cells + AllCells(rest)
  {
    RowLineDashes(cells);
    RowLineRaw(cells);
    RowsHead(RowLine(cells), rest);
    FilterHead(RowLine(cells), rest);
    NonDashHead(RowLine(cells), rest);
    RowCells(cells, rest);
  }

  /** Two one-cell rows: the first one does not name columns and is not grounded, the second one is. */
  lemma {:induction false} UngroundedSample(j: Judge, top: Cells, bottom: Cells)
    requires CleanRow(top) && !AllDashed(top) && !AllSeparatorCells(top) && |top| == 1
    requires CleanRow(bottom) && !AllDashed(bottom) && !AllSeparatorCells(bottom)
    requires !j.headerish(RowLine(top)) && !j.verified(RowLine(top)) && Good(j, RowLine(bottom))
    ensures
      var section := [RowLine(top), RowLine(bottom)];
      var s := Sanitize(j, section);
      s.removed == [RowLine(top)] && s.kept != [] && s.lines == section && Audit(j, s.lines) != []
  {
    var tail := [RowLine(bottom)] + [];
    var section := [RowLine(top)] + tail;
    assert section == [RowLine(top), RowLine(bottom)] && section[0..] == section;
    RowAndRest(top, tail);
    RowAndRest(bottom, []);
    RowLineFacts(top);
    BadsHead(j, RowLine(top), tail);
    BadsHead(j, RowLine(bottom), []);
    assert Parsed(j, section) == section;
    GoodsIn(j, section, RowLine(bottom));
    SanitizedIs(j, section);
    WeedHead(j, RowLine(top), tail, false);
    WeedHead(j, RowLine(bottom), [], true);
    SanitizeMeetsAuditIff(j, section);
  }

  /** Without a separator and without column names, an ungrounded first row outlives the pass that
      keeps the grounded row below it, and the audit still reports it. */
  lemma {:induction false} UngroundedHeaderStays()
    ensures
      var section := [RowLine(["x"]), RowLine(["y"])];
      var j := Judge(line => line == section[1], _ => false, _ => false);
      var s := Sanitize(j, section);
      s.removed == [section[0]] && s.lines == section && Audit(j, s.lines) != []
  {
    var section := [RowLine(["x"]), RowLine(["y"])];
    var j := Judge(line => line == section[1], _ => false, _ => false);
    assert section[0][2] == 'x' && section[1][2] == 'y';
    Letter("x");
    Letter("y");
    PlainRow(["x"]);
    PlainRow(["y"]);
    UngroundedSample(j, ["x"], ["y"]);
  }

  lemma {:induction false} RuleAndRest(n: nat, rest: seq<string>)
    requires n > 0
    ensures var line := SeparatorLine(n);
            && IsRow(line) && IsDash(line)
            && TableRows([line] + rest) == [line] + TableRows(rest)
            && TableLines([line] + rest) == [line] + TableLines(rest)
            && NonDash([line] + rest) == NonDash(rest)
            && AllCells([line] + rest) == AllCells(rest)
  {
    SeparatorIsDash(n);
    SeparatorLineFacts(n);
    RowsHead(SeparatorLine(n), rest);
    FilterHead(SeparatorLine(n), rest);
    NonDashHead(SeparatorLine(n), rest);
    SeparatorCells(n, rest);
  }

  /* A header of two columns, a separator, and rows of 1, 3 and 1 cells. */
  const HEADER := RowLine(["m", "n"])
  const RULE := SeparatorLine(2)
  const SHORT := RowLine(["g"])
  const LONG := RowLine(["t", "x", "y"])
  const STRAY := RowLine(["b"])
  const RAGGED := [HEADER] + ([RULE] + ([SHORT] + ([LONG] + ([STRAY] + []))))
  const KEPT := [HEADER] + ([RULE] + ([SHORT] + ([LONG] + [])))

  lemma {:induction false} RaggedLines(tail: seq<string>)
    ensures
      var data := [SHORT] + ([LONG] + tail);
      var all := [HEADER] + ([RULE] + data);
      && TableRows(all) == [HEADER] + ([RULE] + ([SHORT] + ([LONG] + TableRows(tail))))
      && TableLines(all) == [HEADER] + ([RULE] + ([SHORT] + ([LONG] + TableLines(tail))))
      && NonDash(data) == [SHORT] + ([LONG] + NonDash(tail))
      && AllCells(all) == ["m", "n"] + (["g"] + (["t", "x", "y"] + AllCells(tail)))
    ensures IsRow(HEADER) && !IsDash(HEADER) && IsDash(RULE)
    ensures IsRow(SHORT) && !IsDash(SHORT) && IsRow(LONG) && !IsDash(LONG)
  {
    Letter("m");
    Letter("n");
    Letter("g");
    Letter("t");
    Letter("x");
    Letter("y");
    PlainRow(["m", "n"]);
    PlainRow(["g"]);
    PlainRow(["t", "x", "y"]);
    RowAndRest(["t", "x", "y"], tail);
    RowAndRest(["g"], [LONG] + tail);
    RuleAndRest(2, [SHORT] + ([LONG] + tail));
    RowAndRest(["m", "n"], [RULE] + ([SHORT] + ([LONG] + tail)));
  }

  lemma {:induction false} StrayLine()
    ensures TableRows([STRAY] + []) == TableLines([STRAY] + []) == NonDash([STRAY] + []) == [STRAY] + []
    ensures AllCells([STRAY] + []) == ["b"] + [] && IsRow(STRAY) && !IsDash(STRAY)
  {
    Letter("b");
    PlainRow(["b"]);
    RowAndRest(["b"], []);
  }

  lemma {:induction false} HeaderColumns()
    ensures FirstRowCellCount(HEADER) == 2
  {
    Letter("m");
    Letter("n");
    PlainRow(["m", "n"]);
    RowLineFacts(["m", "n"]);
  }

  lemma {:induction false} SevenCells(cells: seq<string>)
    requires cells == ["m", "n"] + (["g"] + (["t", "x", "y"] + (["b"] + [])))
    ensures |cells| % 2 != 0
  {
  }

  /** Seven cells do not make rows of two. */
  lemma {:induction false} RaggedStays()
    ensures Repair(RAGGED) == RAGGED && TableLines(RAGGED) == TableRows(RAGGED) == RAGGED
  {
    StrayLine();
    RaggedLines([STRAY] + []);
    HeaderColumns();
    SevenCells(AllCells(RAGGED));
  }

  lemma {:induction false} ThreePairs(a: Cells, b: Cells, c: Cells)
    requires |a| == |b| == |c| == 2
    ensures Chunks(a + (b + (c + [])), 2) == [a] + ([b] + ([c] + []))
  {
    var rows := [a] + ([b] + ([c] + []));
    FlattenHead(c, []);
    FlattenHead(b, [c] + []);
    FlattenHead(a, [b] + ([c] + []));
    assert ([c] + [])[1..] == [] && ([b] + ([c] + []))[1..] == [c] + [] && rows[1..] == [b] + ([c] + []);
    assert Even([c] + [], 2) && Even([b] + ([c] + []), 2);
    ChunksFlatten(rows, 2);
  }

  lemma {:induction false} SixCells()
    ensures ["m", "n"] + (["g"] + (["t", "x", "y"] + [])) == ["m", "n"] + (["g", "t"] + (["x", "y"] + []))
  {
  }

  lemma {:induction false} KeptCells()
    ensures AllCells(TableLines(KEPT)) == ["m", "n"] + (["g", "t"] + (["x", "y"] + [])) && Columns(KEPT) == 2
  {
    RaggedLines([]);
    HeaderColumns();
    SixCells();
    assert TableLines(KEPT) == KEPT;
  }

  lemma {:induction false} PairFails(j: Judge, a: Cells, b: Cells, c: Cells)
    requires !AllDashed(c) && !Good(j, RowLine(c))
    ensures !Passes(j, ([a] + ([b] + ([c] + [])))[1..])
  {
    var below := [b] + ([c] + []);
    assert ([a] + below)[1..] == below && below[1..] == [c] + [];
  }

  lemma {:induction false} PairsRegroup(lines: seq<string>, a: Cells, b: Cells, c: Cells)
    requires |a| == |b| == |c| == 2
    requires AllCells(TableLines(lines)) == a + (b + (c + [])) && Columns(lines) == 2
    ensures Regroups(lines) && Rows(lines) == [a] + ([b] + ([c] + []))
  {
    ThreePairs(a, b, c);
  }

  /** The six cells left do, in other rows than before. */
  lemma {:induction false} KeptRegroups()
    ensures Regroups(KEPT) && Rows(KEPT) == [["m", "n"]] + ([["g", "t"]] + ([["x", "y"]] + []))
  {
    KeptCells();
    PairsRegroup(KEPT, ["m", "n"], ["g", "t"], ["x", "y"]);
  }

  lemma {:induction false} KeptFails(j: Judge)
    requires !Good(j, RowLine(["x", "y"]))
    ensures Regroups(KEPT) && (Rows(KEPT) != [] ==> !Passes(j, Rows(KEPT)[1..]))
  {
    KeptRegroups();
    Letter("x");
    Letter("y");
    PlainRow(["x", "y"]);
    PairFails(j, ["m", "n"], ["g", "t"], ["x", "y"]);
  }

  lemma {:induction false} Unsettled(j: Judge, section: seq<string>, left: seq<string>)
    requires LeftTable(j, section) == left && !NothingLeft(j, Repair(section)) && Regroups(left)
    requires Rows(left) != [] ==> !Passes(j, Rows(left)[1..])
    ensures !Settles(j, section) && Sanitize(j, Sanitize(j, section).lines).removed != []
  {
    SecondSanitizeIff(j, section);
  }

  lemma {:induction false} RaggedWeeded(j: Judge)
    requires Good(j, SHORT) && Good(j, LONG) && !Good(j, STRAY)
    ensures !NothingLeft(j, RAGGED) && LeftTable(j, RAGGED) == KEPT && Ruled(TableRows(RAGGED))
    ensures Bads(j, Parsed(j, RAGGED)) == [STRAY]
  {
    var data := [SHORT] + ([LONG] + ([STRAY] + []));
    StrayLine();
    RaggedLines([STRAY] + []);
    RaggedStays();
    assert RAGGED[1] == RULE && RAGGED[2..] == data;
    BadsHead(j, SHORT, [LONG] + ([STRAY] + []));
    BadsHead(j, LONG, [STRAY] + []);
    BadsHead(j, STRAY, []);
    GoodsIn(j, data, SHORT);
    WeedHead(j, STRAY, [], true);
    WeedHead(j, LONG, [STRAY] + [], true);
    WeedHead(j, SHORT, [LONG] + ([STRAY] + []), true);
    WeedBelowRule(j, HEADER, RULE, data);
  }

  /** A ruled table that a first pass leaves one ragged row short regroups into other rows, one of which
      the second pass removes: here `x` and `y` end up in a row of their own. */
  lemma {:induction false} RaggedSecondPassRemoves(j: Judge)
    requires Good(j, SHORT) && Good(j, LONG) && !Good(j, STRAY) && !Good(j, RowLine(["x", "y"]))
    ensures Ruled(TableRows(Repair(RAGGED))) && Sanitize(j, RAGGED).removed == [STRAY]
    ensures Sanitize(j, Sanitize(j, RAGGED).lines).removed != []
  {
    RaggedStays();
    RaggedWeeded(j);
    KeptFails(j);
    Unsettled(j, RAGGED, KEPT);
  }

  /* ------------------------------------------------------------------ rows and rules, character by character */

  /** A row is a pair of pipes with something between them. */
  lemma {:induction false} IsRowIff(line: string)
    ensures IsRow(line) <==> exists m: string :: m != "" && Strip(line) == "|" + m + "|"
  {
    var s := Strip(line);
    if IsRow(line) {
      var m := s[1..|s| - 1];
      assert m != "" && s == "|" + m + "|";
    }
  }

  /** The sanitiser and the repair disagree on some rules: the repair takes an aligned one for a separator and
      the sanitiser does not, and the sanitiser passes blanks, a single dash and dashes with blanks between. */
  lemma {:induction false} RulesDiffer(c: string)
    ensures IsSeparatorCell(c) && !DashCell(c) <==>
            exists n, left, right :: n >= 2 && (left || right) && c == AlignedRule(n, left, right)
    ensures DashCell(c) && !IsSeparatorCell(c) <==>
            (forall x :: x in c ==> x in {'-', ' '}) && (c == "" || c == "-" || ' ' in c)
  {
    SeparatorCellIff(c);
    forall n, left, right | n >= 2 && c == AlignedRule(n, left, right) ensures DashCell(c) <==> !left && !right {
      RuleDashes(n, left, right);
    }
    if DashCell(c) && ' ' !in c {
      forall i | 0 <= i < |c| ensures c[i] == '-' {
        assert c[i] in c;
      }
      assert c == DashRun(|c|);
      assert c == AlignedRule(|c|, false, false);
    }
    if IsSeparatorCell(c) && ' ' in c {
      var n, left, right :| n >= 2 && c == AlignedRule(n, left, right);
    }
  }

  lemma {:induction false} RuleDashes(n: nat, left: bool, right: bool)
    ensures DashCell(AlignedRule(n, left, right)) <==> !left && !right
  {
    var c := AlignedRule(n, left, right);
    if left {
      assert c[0] == ':' && c[0] in c;
    }
    if right {
      assert c[|c| - 1] == ':' && c[|c| - 1] in c;
    }
  }

  /* ------------------------------------------------------------------ only the first row escapes */

  /** A row with figures: neither prose nor dashes. */
  predicate IsFigures(line: string) {
    IsRow(line) && !IsDash(line)
  }

  /** Of the rows with figures only the first may be filler or unverified, and none if `done`. */
  predicate Cleared(j: Judge, lines: seq<string>, done: bool) {
    lines == [] ||
    (&& (done && IsFigures(lines[0]) ==> j.verified(lines[0]) && !j.filler(lines[0]))
     && Cleared(j, lines[1..], done || IsFigures(lines[0])))
  }

  lemma {:induction false} ClearedHead(j: Judge, line: string, rest: seq<string>, done: bool)
    requires done && IsFigures(line) ==> j.verified(line) && !j.filler(line)
    requires Cleared(j, rest, done || IsFigures(line))
    ensures Cleared(j, [line] + rest, done)
  {
    assert ([line] + rest)[1..] == rest;
  }

  lemma {:induction false} WeedCleared(j: Judge, lines: seq<string>, done: bool)
    ensures Cleared(j, Weed(j, lines, done), done)
  {
    if lines == [] {
    } else {
      var seen := HeaderSeen(lines[0], done);
      WeedCleared(j, lines[1..], seen);
      if Lasts(j, lines[0], done) {
        ClearedHead(j, lines[0], Weed(j, lines[1..], seen), done);
      }
    }
  }

  lemma {:induction false} ProseCleared(j: Judge, lines: seq<string>, done: bool)
    requires TableRows(lines) == []
    ensures Cleared(j, lines, done)
  {
    if lines == [] {
    } else {
      ProseCleared(j, lines[1..], done);
    }
  }

  /** Whatever the section: of the rows with figures left in it, only the first may be filler or hold a figure
      that is not verified. */
  lemma {:induction false} OnlyFirstRowEscapes(j: Judge, section: seq<string>)
    ensures Cleared(j, Sanitize(j, section).lines, false)
  {
    var lines := Repair(section);
    SanitizedIs(j, section);
    WeedCleared(j, lines, false);
    if NothingLeft(j, lines) {
      ProseHasNoRows(Weed(j, lines, false));
      ProseCleared(j, Sanitize(j, section).lines, false);
    }
  }
}

/** The quote-state machine of `parseCsv` and its round trip with the format of
    section 2 of RFC 4180. */
module CsvParser {
  import opened Strings

  type Row = seq<string>

  const LF := '\n'
  const CR := '\r'
  const QUOTE := '"'
  const COMMA := ','

  // ----- line ends -----

  /** Every CR LF pair becomes one LF. */
  function ReplaceCrLf(s: string): string {
    if s == [] then []
    else if |s| >= 2 && s[0] == CR && s[1] == LF then [LF] + ReplaceCrLf(s[2..])
    else [s[0]] + ReplaceCrLf(s[1..])
  }

  /** Every CR left over becomes an LF. */
  function ReplaceCr(s: string): string {
    if s == [] then [] else [if s[0] == CR then LF else s[0]] + ReplaceCr(s[1..])
  }

  function NormaliseNewlines(s: string): string { ReplaceCr(ReplaceCrLf(s)) }

  predicate CrFree(s: string) { CR !in s }

  // ----- the scanner -----

  datatype Scanner = Scanner(rows: seq<Row>, row: Row, field: string, inQuotes: bool)

  const START := Scanner([], [], "", false)

  /** What the scanner becomes by reading all of `s`: inside quotes a doubled quote is
      one quote and a single one closes; outside, quote, comma and LF are the marks. */
  function Scan(s: string, st: Scanner): Scanner
    decreases |s|
  {
    if s == [] then st
    else if st.inQuotes then
      if s[0] != QUOTE then Scan(s[1..], st.(field := st.field + [s[0]]))
      else if |s| >= 2 && s[1] == QUOTE then Scan(s[2..], st.(field := st.field + [QUOTE]))
      else Scan(s[1..], st.(inQuotes := false))
    else if s[0] == QUOTE then Scan(s[1..], st.(inQuotes := true))
    else if s[0] == COMMA then Scan(s[1..], st.(row := st.row + [st.field], field := ""))
    else if s[0] == LF then
      Scan(s[1..], st.(rows := st.rows + [st.row + [st.field]], row := [], field := ""))
    else Scan(s[1..], st.(field := st.field + [s[0]]))
  }

  /** A last record without a line end is closed, unless nothing of it was seen. */
  function Finish(st: Scanner): seq<Row> {
    if |st.field| > 0 || |st.row| > 0 then st.rows + [st.row + [st.field]] else st.rows
  }

  predicate IsBlankRow(r: Row) { |r| == 1 && AllBlank(r[0]) }

  function DropBlankRows(rows: seq<Row>): seq<Row> {
    if rows == [] then []
    else (if IsBlankRow(rows[0]) then [] else [rows[0]]) + DropBlankRows(rows[1..])
  }

  function Parse(text: string): seq<Row> {
    DropBlankRows(Finish(Scan(NormaliseNewlines(text), START)))
  }

  method ParseCsv(text: string) returns (rows: seq<Row>)
    ensures rows == Parse(text)
  {
    rows := [];
    var row: Row := [];
    var field := "";
    var inQuotes := false;
    var normalized := NormaliseNewlines(text);
    var i := 0;
    while i < |normalized|
      invariant 0 <= i <= |normalized|
      invariant Scan(normalized[i..], Scanner(rows, row, field, inQuotes)) == Scan(normalized, START)
    {
      var c := normalized[i];
      var rest := normalized[i..];
      assert rest[0] == c && rest[1..] == normalized[i + 1..];
      assert i + 1 < |normalized| ==> rest[1] == normalized[i + 1] && rest[2..] == normalized[i + 2..];
      if inQuotes {
        if c == QUOTE {
          if i + 1 < |normalized| && normalized[i + 1] == QUOTE {
            field := field + [QUOTE];
            i := i + 1;
          } else {
            inQuotes := false;
          }
        } else {
          field := field + [c];
        }
      } else if c == QUOTE {
        inQuotes := true;
      } else if c == COMMA {
        row := row + [field];
        field := "";
      } else if c == LF {
        row := row + [field];
        rows := rows + [row];
        row := [];
        field := "";
      } else {
        field := field + [c];
      }
      i := i + 1;
    }
    if |field| > 0 || |row| > 0 {
      row := row + [field];
      rows := rows + [row];
    }
    rows := DropBlankRows(rows);
  }

  // ----- the format -----

  /** A field with the writer's choice to quote it although nothing forces that. */
  datatype Cell = Cell(text: string, quoted: bool)

  datatype Eol = Lf | CrLf | Cr

  function EolText(eol: Eol): string {
    match eol case Lf => [LF] case CrLf => [CR, LF] case Cr => [CR]
  }

  predicate NeedsQuotes(f: string) { QUOTE in f || COMMA in f || CR in f || LF in f }

  function Escape(f: string): string {
    if f == [] then [] else (if f[0] == QUOTE then [QUOTE, QUOTE] else [f[0]]) + Escape(f[1..])
  }

  function PrintCell(c: Cell): string {
    if c.quoted || NeedsQuotes(c.text) then [QUOTE] + (Escape(c.text) + [QUOTE]) else c.text
  }

  function PrintRow(cells: seq<Cell>): string {
    if cells == [] then []
    else if |cells| == 1 then PrintCell(cells[0])
    else PrintCell(cells[0]) + ([COMMA] + PrintRow(cells[1..]))
  }

  function PrintTable(t: seq<seq<Cell>>, eol: Eol, finalEol: bool): string {
    if t == [] then []
    else if |t| == 1 then PrintRow(t[0]) + (if finalEol then EolText(eol) else [])
    else PrintRow(t[0]) + (EolText(eol) + PrintTable(t[1..], eol, finalEol))
  }

  function RowValues(cells: seq<Cell>): Row {
    if cells == [] then [] else [cells[0].text] + RowValues(cells[1..])
  }

  function Values(t: seq<seq<Cell>>): seq<Row> {
    if t == [] then [] else [RowValues(t[0])] + Values(t[1..])
  }

  function NormaliseRow(r: Row): Row {
    if r == [] then [] else [NormaliseNewlines(r[0])] + NormaliseRow(r[1..])
  }

  /** The rows the format can carry: not empty, and not a single blank field. */
  function Carried(rows: seq<Row>): seq<Row> {
    if rows == [] then []
    else (if rows[0] == [] || IsBlankRow(rows[0]) then [] else [NormaliseRow(rows[0])]) + Carried(rows[1..])
  }

  // ----- reading back what was printed with LF -----

  lemma {:induction false} ScanPlain(f: string, rest: string, st: Scanner)
    requires !NeedsQuotes(f) && !st.inQuotes
    ensures Scan(f + rest, st) == Scan(rest, st.(field := st.field + f))
    decreases |f|
  {
    if f == [] {
      assert f + rest == rest && st.field + f == st.field;
    } else {
      assert f[0] in f;
      assert (f + rest)[1..] == f[1..] + rest;
      var next := st.(field := st.field + [f[0]]);
      ScanPlain(f[1..], rest, next);
      assert next.field + f[1..] == st.field + f;
    }
  }

  lemma {:induction false} ScanQuoted(f: string, rest: string, st: Scanner)
    requires st.inQuotes
    requires rest == [] || rest[0] != QUOTE
    ensures Scan(Escape(f) + ([QUOTE] + rest), st) == Scan(rest, st.(field := st.field + f, inQuotes := false))
    decreases |f|
  {
    var s := Escape(f) + ([QUOTE] + rest);
    if f == [] {
      assert s == [QUOTE] + rest && s[1..] == rest && st.field + f == st.field;
      if |s| >= 2 { assert s[1] == rest[0]; }
    } else {
      var next := st.(field := st.field + [f[0]]);
      ScanQuoted(f[1..], rest, next);
      assert next.field + f[1..] == st.field + f;
      if f[0] == QUOTE {
        assert s[2..] == Escape(f[1..]) + ([QUOTE] + rest);
      } else {
        assert s[1..] == Escape(f[1..]) + ([QUOTE] + rest);
      }
    }
  }

  lemma {:induction false} ScanCell(c: Cell, rest: string, rows: seq<Row>, row: Row)
    requires rest == [] || rest[0] != QUOTE
    ensures Scan(PrintCell(c) + rest, Scanner(rows, row, "", false)) == Scan(rest, Scanner(rows, row, c.text, false))
  {
    var st := Scanner(rows, row, "", false);
    assert "" + c.text == c.text;
    if c.quoted || NeedsQuotes(c.text) {
      var s := PrintCell(c) + rest;
      assert s[1..] == Escape(c.text) + ([QUOTE] + rest);
      ScanQuoted(c.text, rest, st.(inQuotes := true));
    } else {
      ScanPlain(c.text, rest, st);
    }
  }

  /** An empty record reads as one empty field. */
  function Shape(r: Row): Row { if r == [] then [""] else r }

  lemma ScanMark(rest: string, rows: seq<Row>, row: Row, field: string)
    ensures Scan([COMMA] + rest, Scanner(rows, row, field, false)) == Scan(rest, Scanner(rows, row + [field], "", false))
    ensures Scan([LF] + rest, Scanner(rows, row, field, false))
            == Scan(rest, Scanner(rows + [row + [field]], [], "", false))
  {
    assert ([COMMA] + rest)[1..] == rest && ([LF] + rest)[1..] == rest;
  }

  /** The scanner with the fields of `all` read, the last one still open. */
  function AtRowEnd(rows: seq<Row>, all: Row): Scanner
    requires all != []
  {
    Scanner(rows, all[..|all| - 1], all[|all| - 1], false)
  }

  lemma {:induction false} ScanRow(cells: seq<Cell>, rest: string, rows: seq<Row>, row: Row)
    requires rest == [] || rest[0] == LF
    ensures Scan(PrintRow(cells) + rest, Scanner(rows, row, "", false))
            == Scan(rest, AtRowEnd(rows, row + Shape(RowValues(cells))))
    decreases |cells|
  {
    if cells == [] {
      assert PrintRow(cells) + rest == rest;
      assert AtRowEnd(rows, row + [""]) == Scanner(rows, row, "", false);
    } else if |cells| == 1 {
      ScanCell(cells[0], rest, rows, row);
      assert AtRowEnd(rows, row + [cells[0].text]) == Scanner(rows, row, cells[0].text, false);
    } else {
      ScanMoreCells(cells, rest, rows, row);
    }
  }

  lemma {:induction false} ScanMoreCells(cells: seq<Cell>, rest: string, rows: seq<Row>, row: Row)
    requires |cells| > 1
    requires rest == [] || rest[0] == LF
    ensures Scan(PrintRow(cells) + rest, Scanner(rows, row, "", false))
            == Scan(rest, AtRowEnd(rows, row + Shape(RowValues(cells))))
    decreases |cells|, 0
  {
    var first, others := cells[0], cells[1..];
    var tail := PrintRow(others) + rest;
    calc {
      Scan(PrintRow(cells) + rest, Scanner(rows, row, "", false));
      { assert PrintRow(cells) + rest == PrintCell(first) + ([COMMA] + tail); }
      Scan(PrintCell(first) + ([COMMA] + tail), Scanner(rows, row, "", false));
      { ScanCell(first, [COMMA] + tail, rows, row); }
      Scan([COMMA] + tail, Scanner(rows, row, first.text, false));
      { ScanMark(tail, rows, row, first.text); }
      Scan(tail, Scanner(rows, row + [first.text], "", false));
      { ScanRow(others, rest, rows, row + [first.text]); }
      Scan(rest, AtRowEnd(rows, row + [first.text] + Shape(RowValues(others))));
      { assert row + [first.text] + Shape(RowValues(others)) == row + Shape(RowValues(cells)); }
      Scan(rest, AtRowEnd(rows, row + Shape(RowValues(cells))));
    }
  }

  lemma {:induction false} DropBlankAppend(rows: seq<Row>, r: Row)
    ensures DropBlankRows(rows + [r]) == DropBlankRows(rows) + (if IsBlankRow(r) then [] else [r])
    decreases |rows|
  {
    if rows == [] {
    } else {
      assert (rows + [r])[1..] == rows[1..] + [r];
      DropBlankAppend(rows[1..], r);
    }
  }

  function Visible(rows: seq<Row>): seq<Row> {
    if rows == [] then []
    else (if rows[0] == [] || IsBlankRow(rows[0]) then [] else [rows[0]]) + Visible(rows[1..])
  }

  lemma {:induction false} ScanTable(t: seq<seq<Cell>>, finalEol: bool, rows: seq<Row>)
    ensures DropBlankRows(Finish(Scan(PrintTable(t, Lf, finalEol), Scanner(rows, [], "", false))))
            == DropBlankRows(rows) + Visible(Values(t))
    decreases |t|
  {
    if t == [] {
    } else if |t| == 1 && !finalEol {
      assert PrintTable(t, Lf, finalEol) == PrintRow(t[0]);
      assert Values(t) == [RowValues(t[0])];
      ScanOpenRow(t[0], rows);
      LastVisible(rows, RowValues(t[0]));
    } else {
      var rest := PrintTable(t[1..], Lf, finalEol);
      assert |t| == 1 ==> rest == [];
      assert PrintTable(t, Lf, finalEol) == PrintRow(t[0]) + ([LF] + rest);
      ScanClosedRow(t[0], rest, rows);
      ScanTable(t[1..], finalEol, rows + [Shape(RowValues(t[0]))]);
      FirstVisible(rows, RowValues(t[0]), Values(t[1..]));
      assert Values(t) == [RowValues(t[0])] + Values(t[1..]);
    }
  }

  lemma LastVisible(rows: seq<Row>, r: Row)
    ensures DropBlankRows(if Shape(r) == [""] then rows else rows + [Shape(r)]) == DropBlankRows(rows) + Visible([r])
  {
    DropBlankAppend(rows, Shape(r));
    if Shape(r) == [""] { assert IsBlankRow(Shape(r)); }
  }

  lemma FirstVisible(rows: seq<Row>, r: Row, others: seq<Row>)
    ensures DropBlankRows(rows + [Shape(r)]) + Visible(others) == DropBlankRows(rows) + Visible([r] + others)
  {
    DropBlankAppend(rows, Shape(r));
    assert ([r] + others)[1..] == others;
  }

  lemma ScanClosedRow(cells: seq<Cell>, rest: string, rows: seq<Row>)
    ensures Scan(PrintRow(cells) + ([LF] + rest), Scanner(rows, [], "", false))
            == Scan(rest, Scanner(rows + [Shape(RowValues(cells))], [], "", false))
  {
    var r := Shape(RowValues(cells));
    ScanRow(cells, [LF] + rest, rows, []);
    ScanMark(rest, rows, r[..|r| - 1], r[|r| - 1]);
    assert [] + r == r && r[..|r| - 1] + [r[|r| - 1]] == r;
  }

  lemma FinishRow(rows: seq<Row>, r: Row)
    requires r != []
    ensures Finish(AtRowEnd(rows, r)) == if r == [""] then rows else rows + [r]
  {
    assert r[..|r| - 1] + [r[|r| - 1]] == r;
  }

  lemma ScanOpenRow(cells: seq<Cell>, rows: seq<Row>)
    ensures Finish(Scan(PrintRow(cells), Scanner(rows, [], "", false)))
            == var r := Shape(RowValues(cells)); if r == [""] then rows else rows + [r]
  {
    var r := Shape(RowValues(cells));
    assert PrintRow(cells) + [] == PrintRow(cells) && [] + r == r;
    ScanRow(cells, [], rows, []);
    FinishRow(rows, r);
  }

  // ----- line ends commute with printing -----

  lemma {:induction false} ReplaceCrAppend(a: string, b: string)
    ensures ReplaceCr(a + b) == ReplaceCr(a) + ReplaceCr(b)
    decreases |a|
  {
    if a == [] {
      assert a + b == b;
    } else {
      assert (a + b)[1..] == a[1..] + b;
      ReplaceCrAppend(a[1..], b);
    }
  }

  lemma {:induction false} ReplaceCrLfAppend(a: string, b: string)
    requires a == [] || b == [] || a[|a| - 1] != CR || b[0] != LF
    ensures ReplaceCrLf(a + b) == ReplaceCrLf(a) + ReplaceCrLf(b)
    decreases |a|
  {
    var all := a + b;
    if a == [] {
      assert all == b;
    } else if |a| >= 2 && a[0] == CR && a[1] == LF {
      assert all[2..] == a[2..] + b && all[0] == CR && all[1] == LF;
      ReplaceCrLfAppend(a[2..], b);
    } else {
      assert all[1..] == a[1..] + b && all[0] == a[0];
      assert !(|all| >= 2 && all[0] == CR && all[1] == LF);
      ReplaceCrLfAppend(a[1..], b);
    }
  }

  lemma NormaliseAppend(a: string, b: string)
    requires a == [] || b == [] || a[|a| - 1] != CR || b[0] != LF
    ensures NormaliseNewlines(a + b) == NormaliseNewlines(a) + NormaliseNewlines(b)
  {
    ReplaceCrLfAppend(a, b);
    ReplaceCrAppend(ReplaceCrLf(a), ReplaceCrLf(b));
  }

  /** Text without CR is left alone, and nothing else is. */
  lemma {:induction false} NormaliseFixes(s: string)
    ensures CrFree(NormaliseNewlines(s))
    ensures CrFree(s) ==> NormaliseNewlines(s) == s
    decreases |s|
  {
    if s != [] {
      if |s| >= 2 && s[0] == CR && s[1] == LF {
        NormaliseFixes(s[2..]);
        ReplaceCrAppend([LF], ReplaceCrLf(s[2..]));
        assert CR in s;
      } else {
        NormaliseFixes(s[1..]);
        ReplaceCrAppend([s[0]], ReplaceCrLf(s[1..]));
        assert s == [s[0]] + s[1..];
      }
    }
  }

  /** Folding line ends loses no mark and keeps blank fields blank. */
  lemma {:induction false} NormaliseKeepsMarks(s: string, c: char)
    requires c != CR && c != LF
    ensures c in NormaliseNewlines(s) <==> c in s
    ensures LF in NormaliseNewlines(s) <==> LF in s || CR in s
    ensures AllBlank(NormaliseNewlines(s)) <==> AllBlank(s)
    decreases |s|
  {
    if s == [] {
    } else {
      var n := if |s| >= 2 && s[0] == CR && s[1] == LF then 2 else 1;
      var head, tail := s[..n], s[n..];
      assert s == head + tail;
      NormaliseKeepsMarks(tail, c);
      NormaliseAppend(head, tail);
      HeadMarks(head, c);
      BlankAppend(head, tail);
      BlankAppend(NormaliseNewlines(head), NormaliseNewlines(tail));
    }
  }

  lemma HeadMarks(head: string, c: char)
    requires c != CR && c != LF
    requires |head| == 1 || head == [CR, LF]
    ensures c in NormaliseNewlines(head) <==> c in head
    ensures LF in NormaliseNewlines(head) <==> LF in head || CR in head
    ensures AllBlank(NormaliseNewlines(head)) <==> AllBlank(head)
    ensures NormaliseNewlines(head) == if CR in head then [LF] else head
  {
    var mid := ReplaceCrLf(head);
    if |head| == 2 {
      assert head[2..] == [] && mid == [LF] + ReplaceCrLf(head[2..]);
    } else {
      assert head[1..] == [] && mid == [head[0]] + ReplaceCrLf(head[1..]);
    }
    assert mid[1..] == [];
    assert ReplaceCr(mid) == [if mid[0] == CR then LF else mid[0]];
    assert |head| == 1 ==> head == [head[0]];
  }

  lemma BlankAppend(a: string, b: string)
    ensures AllBlank(a + b) <==> AllBlank(a) && AllBlank(b)
  {
    if AllBlank(a + b) {
      forall i | 0 <= i < |a| ensures IsBlank(a[i]) { assert (a + b)[i] == a[i]; }
      forall i | 0 <= i < |b| ensures IsBlank(b[i]) { assert (a + b)[|a| + i] == b[i]; }
    }
  }

  lemma {:induction false} NormaliseEscape(f: string)
    ensures NormaliseNewlines(Escape(f)) == Escape(NormaliseNewlines(f))
    decreases |f|
  {
    if f == [] {
    } else {
      var n := if |f| >= 2 && f[0] == CR && f[1] == LF then 2 else 1;
      var head, tail := f[..n], f[n..];
      assert f == head + tail;
      NormaliseEscape(tail);
      EscapeAppend(head, tail);
      EscapeAppend(NormaliseNewlines(head), NormaliseNewlines(tail));
      EscapeHead(head);
      NormaliseAppend(head, tail);
      assert Escape(tail) != [] && Escape(tail)[0] == LF ==> tail != [] && tail[0] == LF;
      NormaliseAppend(Escape(head), Escape(tail));
    }
  }

  lemma {:induction false} EscapeAppend(a: string, b: string)
    ensures Escape(a + b) == Escape(a) + Escape(b)
    decreases |a|
  {
    if a == [] {
      assert a + b == b;
    } else {
      assert (a + b)[1..] == a[1..] + b;
      EscapeAppend(a[1..], b);
    }
  }

  lemma EscapeHead(head: string)
    requires |head| == 1 || head == [CR, LF]
    ensures NormaliseNewlines(Escape(head)) == Escape(NormaliseNewlines(head))
    ensures Escape(head) != [] && (Escape(head)[|Escape(head)| - 1] == CR ==> head == [CR])
  {
    HeadMarks(head, QUOTE);
    assert head[1..] == if |head| == 1 then [] else [LF];
    assert [LF][1..] == [];
    if head == [QUOTE] {
      HeadMarks([QUOTE], COMMA);
      NormaliseAppend([QUOTE], [QUOTE]);
      assert Escape(head) == [QUOTE] + [QUOTE];
    } else {
      assert Escape(head) == head;
      assert CR in head ==> NormaliseNewlines(head) == [LF] && Escape([LF]) == [LF] by { assert [LF][1..] == []; }
    }
  }

  function NormaliseCell(c: Cell): Cell { Cell(NormaliseNewlines(c.text), c.quoted) }

  function NormaliseCells(cells: seq<Cell>): seq<Cell> {
    if cells == [] then [] else [NormaliseCell(cells[0])] + NormaliseCells(cells[1..])
  }

  function NormaliseTable(t: seq<seq<Cell>>): seq<seq<Cell>> {
    if t == [] then [] else [NormaliseCells(t[0])] + NormaliseTable(t[1..])
  }

  /** Printed text neither starts with LF nor ends with CR, so no line end can fuse with it. */
  predicate Fenced(s: string) { s == [] || (s[0] != LF && s[|s| - 1] != CR) }

  lemma NormalisePrintCell(c: Cell)
    ensures NormaliseNewlines(PrintCell(c)) == PrintCell(NormaliseCell(c))
    ensures Fenced(PrintCell(c))
  {
    var f := c.text;
    NormaliseKeepsMarks(f, QUOTE);
    NormaliseKeepsMarks(f, COMMA);
    NormaliseFixes(f);
    if c.quoted || NeedsQuotes(f) {
      NormaliseEscape(f);
      HeadMarks([QUOTE], QUOTE);
      NormaliseAppend(Escape(f), [QUOTE]);
      NormaliseAppend([QUOTE], Escape(f) + [QUOTE]);
    } else if f != [] {
      assert f[0] in f && f[|f| - 1] in f;
    }
  }

  lemma {:induction false} NormalisePrintRow(cells: seq<Cell>)
    ensures NormaliseNewlines(PrintRow(cells)) == PrintRow(NormaliseCells(cells))
    ensures Fenced(PrintRow(cells))
    decreases |cells|
  {
    if cells == [] {
    } else {
      NormalisePrintCell(cells[0]);
      NormalisePrintRow(cells[1..]);
      if |cells| > 1 {
        HeadMarks([COMMA], COMMA);
        NormaliseAppend([COMMA], PrintRow(cells[1..]));
        NormaliseAppend(PrintCell(cells[0]), [COMMA] + PrintRow(cells[1..]));
      } else {
        assert NormaliseCells(cells) == [NormaliseCell(cells[0])];
      }
    }
  }

  lemma NormaliseEol(eol: Eol)
    ensures NormaliseNewlines(EolText(eol)) == [LF]
  {
    HeadMarks(EolText(eol), QUOTE);
  }

  /** A printed row, its line end and what follows are normalised one by one. */
  lemma NormaliseLine(line: string, eol: Eol, rest: string)
    requires Fenced(line) && (eol != Lf ==> rest == [] || rest[0] != LF)
    ensures NormaliseNewlines(line + (EolText(eol) + rest)) == NormaliseNewlines(line) + ([LF] + NormaliseNewlines(rest))
    ensures eol != Lf ==> (line + (EolText(eol) + rest))[0] != LF
  {
    NormaliseEol(eol);
    NormaliseAppend(EolText(eol), rest);
    NormaliseAppend(line, EolText(eol) + rest);
  }

  lemma {:induction false} NormalisePrintTable(t: seq<seq<Cell>>, eol: Eol, finalEol: bool)
    ensures NormaliseNewlines(PrintTable(t, eol, finalEol)) == PrintTable(NormaliseTable(t), Lf, finalEol)
    ensures var s := PrintTable(t, eol, finalEol); eol != Lf ==> s == [] || s[0] != LF
    decreases |t|
  {
    if t == [] {
    } else {
      NormalisePrintRow(t[0]);
      if |t| == 1 {
        assert NormaliseTable(t) == [NormaliseCells(t[0])];
        if finalEol {
          NormaliseLine(PrintRow(t[0]), eol, []);
          assert EolText(eol) + [] == EolText(eol) && [LF] + NormaliseNewlines([]) == [LF];
        } else {
          assert PrintTable(t, eol, finalEol) == PrintRow(t[0]);
        }
      } else {
        NormalisePrintTable(t[1..], eol, finalEol);
        NormaliseLine(PrintRow(t[0]), eol, PrintTable(t[1..], eol, finalEol));
      }
    }
  }

  lemma {:induction false} NormalisedRowValues(cells: seq<Cell>)
    ensures RowValues(NormaliseCells(cells)) == NormaliseRow(RowValues(cells))
    decreases |cells|
  {
    if cells != [] { NormalisedRowValues(cells[1..]); }
  }

  lemma {:induction false} VisibleIsCarried(t: seq<seq<Cell>>)
    ensures Visible(Values(NormaliseTable(t))) == Carried(Values(t))
    decreases |t|
  {
    if t != [] {
      VisibleIsCarried(t[1..]);
      NormalisedRowValues(t[0]);
      var r := RowValues(t[0]);
      if |r| == 1 { NormaliseKeepsMarks(r[0], QUOTE); }
      assert Values(t)[1..] == Values(t[1..]) && Values(NormaliseTable(t))[1..] == Values(NormaliseTable(t[1..]));
    }
  }

  /** Reading what was written, for every table, every choice of quoting, every kind of
      line end and with or without a last one: the rows come back in order, with the
      line ends inside fields folded to LF, and only rows that are empty or a single
      blank field are gone. */
  lemma ParsePrint(t: seq<seq<Cell>>, eol: Eol, finalEol: bool)
    ensures Parse(PrintTable(t, eol, finalEol)) == Carried(Values(t))
  {
    NormalisePrintTable(t, eol, finalEol);
    ScanTable(NormaliseTable(t), finalEol, []);
    VisibleIsCarried(t);
  }

  // ----- exactly when nothing changes -----

  predicate RowSurvives(r: Row) { r != [] && !IsBlankRow(r) && forall f :: f in r ==> CrFree(f) }

  predicate Survives(rows: seq<Row>) { forall r :: r in rows ==> RowSurvives(r) }

  lemma {:induction false} NormaliseRowFixes(r: Row)
    ensures forall f :: f in NormaliseRow(r) ==> CrFree(f)
    ensures (forall f :: f in r ==> CrFree(f)) ==> NormaliseRow(r) == r
    ensures |NormaliseRow(r)| == |r|
    decreases |r|
  {
    if r != [] {
      NormaliseFixes(r[0]);
      NormaliseRowFixes(r[1..]);
      assert r == [r[0]] + r[1..];
    }
  }

  lemma {:induction false} CarriedFixes(rows: seq<Row>)
    ensures Survives(Carried(rows))
    ensures Survives(rows) ==> Carried(rows) == rows
    decreases |rows|
  {
    if rows != [] {
      CarriedFixes(rows[1..]);
      NormaliseRowFixes(rows[0]);
      assert rows[0] in rows;
      assert Survives(rows) ==> Survives(rows[1..]);
      if |rows[0]| == 1 {
        NormaliseKeepsMarks(rows[0][0], QUOTE);
      }
      assert rows == [rows[0]] + rows[1..];
    }
  }

  /** The table itself comes back exactly when no row is empty or a single blank field
      and no field holds a CR. */
  lemma RoundTripExactly(t: seq<seq<Cell>>, eol: Eol, finalEol: bool)
    ensures Parse(PrintTable(t, eol, finalEol)) == Values(t) <==> Survives(Values(t))
  {
    ParsePrint(t, eol, finalEol);
    CarriedFixes(Values(t));
  }

  // ----- any text at all -----

  predicate Clean(st: Scanner) {
    && (forall r :: r in st.rows ==> r != [] && forall f :: f in r ==> CrFree(f))
    && (forall f :: f in st.row ==> CrFree(f))
    && CrFree(st.field)
  }

  lemma {:induction false} ScanStaysClean(s: string, st: Scanner)
    requires CrFree(s) && Clean(st)
    ensures Clean(Scan(s, st))
    decreases |s|
  {
    if s != [] {
      assert s[0] in s;
      if st.inQuotes && s[0] == QUOTE && |s| >= 2 && s[1] == QUOTE {
        ScanStaysClean(s[2..], st.(field := st.field + [QUOTE]));
      } else if st.inQuotes && s[0] == QUOTE {
        ScanStaysClean(s[1..], st.(inQuotes := false));
      } else if st.inQuotes || (s[0] != QUOTE && s[0] != COMMA && s[0] != LF) {
        ScanStaysClean(s[1..], st.(field := st.field + [s[0]]));
      } else if s[0] == QUOTE {
        ScanStaysClean(s[1..], st.(inQuotes := true));
      } else if s[0] == COMMA {
        ScanStaysClean(s[1..], st.(row := st.row + [st.field], field := ""));
      } else {
        ScanStaysClean(s[1..], st.(rows := st.rows + [st.row + [st.field]], row := [], field := ""));
      }
    }
  }

  lemma {:induction false} DropBlankKeeps(rows: seq<Row>)
    ensures forall r :: r in DropBlankRows(rows) <==> r in rows && !IsBlankRow(r)
    decreases |rows|
  {
    if rows != [] {
      DropBlankKeeps(rows[1..]);
      assert rows == [rows[0]] + rows[1..];
    }
  }

  /** Well-formed or not, whatever is read is a table the format carries unchanged. */
  lemma ParseSurvives(text: string)
    ensures Survives(Parse(text))
  {
    NormaliseFixes(text);
    ScanStaysClean(NormaliseNewlines(text), START);
    DropBlankKeeps(Finish(Scan(NormaliseNewlines(text), START)));
  }

  /** So reading, writing in any style and reading again gives the first reading. */
  lemma ReadWriteRead(text: string, t: seq<seq<Cell>>, eol: Eol, finalEol: bool)
    requires Values(t) == Parse(text)
    ensures Parse(PrintTable(t, eol, finalEol)) == Parse(text)
  {
    ParseSurvives(text);
    RoundTripExactly(t, eol, finalEol);
  }
}

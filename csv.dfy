/**
 * The CSV text `exportarParaExcel` (script.js) assembles: a title line, the KPI section
 * (`title,value` lines, written unquoted) and the detail table, whose every cell is quoted
 * with embedded quotes doubled (section 2, item 7 of RFC 4180), cells joined by `,` and
 * each row ended by a line feed.
 *
 * A reader for the quoted rows is given alongside, so that the encoding can be shown to
 * lose nothing.
 */
module Csv {
  import opened Wrappers

  /** `text.replace(/"/g, '""')`. */
  function Escape(s: string): (r: string)
    ensures |r| >= |s|
  {
    if s == [] then []
    else (if s[0] == '"' then "\"\"" else [s[0]]) + Escape(s[1..])
  }

  /** One table cell: the escaped text between double quotes. */
  function EncodeCell(s: string): (r: string)
    ensures |r| >= |s| + 2 && r[0] == '"' && r[|r| - 1] == '"'
  {
    "\"" + Escape(s) + "\""
  }

  /** `celulas.join(',')`. */
  function Join(parts: seq<string>, sep: string): string
  {
    if parts == [] then []
    else if |parts| == 1 then parts[0]
    else parts[0] + sep + Join(parts[1..], sep)
  }

  /** `celulas.join(',') + '\n'` with every cell encoded. */
  function EncodeRow(cells: seq<string>): (r: string)
    ensures r != [] && r[|r| - 1] == '\n'
  {
    Join(EncodeCells(cells), ",") + "\n"
  }

  /** The rows of the detail table, in order. */
  function EncodeRows(rows: seq<seq<string>>): string
  {
    if rows == [] then [] else EncodeRows(rows[..|rows| - 1]) + EncodeRow(rows[|rows| - 1])
  }

  /**
   * Reads the text of a quoted cell after its opening quote, up to and including the
   * closing quote: a doubled quote stands for one quote. Returns the text and what follows.
   */
  function ReadQuoted(s: string): (r: Option<(string, string)>)
    ensures r.Some? ==> |r.value.1| < |s|
  {
    if s == [] then None
    else if s[0] == '"' then
      if |s| >= 2 && s[1] == '"' then
        match ReadQuoted(s[2..])
        case None => None
        case Some((t, rest)) => Some(("\"" + t, rest))
      else Some(([], s[1..]))
    else
      match ReadQuoted(s[1..])
      case None => None
      case Some((t, rest)) => Some(([s[0]] + t, rest))
  }

  /** Reads quoted cells separated by `,` up to the line feed that ends the row. */
  function ReadCells(s: string): (r: Option<(seq<string>, string)>)
    ensures r.Some? ==> |r.value.1| < |s|
    decreases |s|
  {
    if s == [] || s[0] != '"' then None
    else
      match ReadQuoted(s[1..])
      case None => None
      case Some((cell, rest)) =>
        if rest != [] && rest[0] == ',' then
          match ReadCells(rest[1..])
          case None => None
          case Some((cells, after)) => Some(([cell] + cells, after))
        else if rest != [] && rest[0] == '\n' then Some(([cell], rest[1..]))
        else None
  }

  /** Reads one row: an empty row is a bare line feed. */
  function ReadRow(s: string): (r: Option<(seq<string>, string)>)
    ensures r.Some? ==> |r.value.1| < |s|
  {
    if s != [] && s[0] == '\n' then Some(([], s[1..])) else ReadCells(s)
  }

  /** Reads rows until the text is used up. */
  function ReadRows(s: string): Option<seq<seq<string>>>
    decreases |s|
  {
    if s == [] then Some([])
    else
      match ReadRow(s)
      case None => None
      case Some((row, rest)) =>
        match ReadRows(rest)
        case None => None
        case Some(rows) => Some([row] + rows)
  }

  /** Escaping then reading back, up to the closing quote, yields the original text. */
  lemma {:induction false} ReadEscaped(x: string, rest: string)
    requires rest == [] || rest[0] != '"'
    ensures ReadQuoted(Escape(x) + "\"" + rest) == Some((x, rest))
  {
    if x != [] {
      ReadEscaped(x[1..], rest);
      var tail := Escape(x[1..]) + "\"" + rest;
      if x[0] == '"' {
        assert Escape(x) + "\"" + rest == "\"\"" + tail;
        assert ("\"\"" + tail)[2..] == tail;
      } else {
        assert Escape(x) + "\"" + rest == [x[0]] + tail;
        assert ([x[0]] + tail)[1..] == tail;
      }
      assert [x[0]] + x[1..] == x;
    } else {
      assert Escape(x) + "\"" + rest == "\"" + rest;
    }
  }

  /** Cell round trip: an encoded cell followed by a separator reads back as the original text. */
  lemma CellRoundTrip(x: string, rest: string)
    requires rest == [] || rest[0] != '"'
    ensures var s := EncodeCell(x) + rest;
      s[0] == '"' && ReadQuoted(s[1..]) == Some((x, rest))
  {
    ReadEscaped(x, rest);
    assert (EncodeCell(x) + rest)[1..] == Escape(x) + "\"" + rest;
  }

  /** The encoded cells of a row, in order. */
  function EncodeCells(cells: seq<string>): (r: seq<string>)
    ensures |r| == |cells|
  {
    seq(|cells|, k requires 0 <= k < |cells| => EncodeCell(cells[k]))
  }

  lemma {:induction false} ReadJoined(cells: seq<string>, rest: string)
    requires cells != []
    ensures ReadCells(Join(EncodeCells(cells), ",") + "\n" + rest) == Some((cells, rest))
    decreases |cells|
  {
    if |cells| == 1 {
      ReadLastCell(cells, rest);
    } else {
      ReadJoined(cells[1..], rest);
      ReadNextCell(cells, rest);
    }
  }

  /** A row of one cell reads back as that cell. */
  lemma ReadLastCell(cells: seq<string>, rest: string)
    requires |cells| == 1
    ensures ReadCells(Join(EncodeCells(cells), ",") + "\n" + rest) == Some((cells, rest))
  {
    assert Join(EncodeCells(cells), ",") + "\n" + rest == EncodeCell(cells[0]) + ("\n" + rest);
    CellRoundTrip(cells[0], "\n" + rest);
    assert ("\n" + rest)[1..] == rest;
    assert [cells[0]] == cells;
  }

  /** If the later cells read back, so does the row: the first cell and its `,` come first. */
  lemma ReadNextCell(cells: seq<string>, rest: string)
    requires |cells| >= 2
    requires ReadCells(Join(EncodeCells(cells[1..]), ",") + "\n" + rest) == Some((cells[1..], rest))
    ensures ReadCells(Join(EncodeCells(cells), ",") + "\n" + rest) == Some((cells, rest))
  {
    assert EncodeCells(cells)[1..] == EncodeCells(cells[1..]);
    var after := Join(EncodeCells(cells[1..]), ",") + "\n" + rest;
    assert Join(EncodeCells(cells), ",") + "\n" + rest == EncodeCell(cells[0]) + ("," + after);
    CellRoundTrip(cells[0], "," + after);
    assert ("," + after)[1..] == after;
    assert [cells[0]] + cells[1..] == cells;
  }

  /** Row round trip: an encoded row reads back as its cells, whatever text follows. */
  lemma RowRoundTrip(cells: seq<string>, rest: string)
    ensures ReadRow(EncodeRow(cells) + rest) == Some((cells, rest))
  {
    if cells == [] {
      assert EncodeRow(cells) + rest == "\n" + rest;
      assert ("\n" + rest)[1..] == rest;
    } else {
      ReadJoined(cells, rest);
      var s := EncodeRow(cells) + rest;
      assert s == Join(EncodeCells(cells), ",") + "\n" + rest;
      assert s[0] == '"' by {
        var enc := EncodeCells(cells);
        JoinStartsWith(enc, ",");
        assert enc[0] == EncodeCell(cells[0]);
      }
    }
  }

  lemma JoinStartsWith(parts: seq<string>, sep: string)
    requires parts != [] && parts[0] != []
    ensures Join(parts, sep) != [] && Join(parts, sep)[0] == parts[0][0]
  {
  }

  /** The rows, written one after another, can be split back into the first row and the rest. */
  lemma {:induction false} EncodeRowsFront(rows: seq<seq<string>>)
    requires rows != []
    ensures EncodeRows(rows) == EncodeRow(rows[0]) + EncodeRows(rows[1..])
    decreases |rows|
  {
    if |rows| > 1 {
      var init := rows[..|rows| - 1];
      var last := EncodeRow(rows[|rows| - 1]);
      EncodeRowsFront(init);
      assert init[1..] == rows[1..][..|rows[1..]| - 1];
      assert init[0] == rows[0];
      assert EncodeRows(rows[1..]) == EncodeRows(init[1..]) + last;
      assert EncodeRows(rows) == EncodeRow(rows[0]) + EncodeRows(init[1..]) + last;
    } else {
      assert rows[..0] == [];
    }
  }

  /** Table round trip: the detail section reads back as exactly the rows of the table. */
  lemma {:induction false} TableRoundTrip(rows: seq<seq<string>>)
    ensures ReadRows(EncodeRows(rows)) == Some(rows)
    decreases |rows|
  {
    if rows != [] {
      EncodeRowsFront(rows);
      RowRoundTrip(rows[0], EncodeRows(rows[1..]));
      TableRoundTrip(rows[1..]);
      assert [rows[0]] + rows[1..] == rows;
    }
  }

  /** The KPI section: one unquoted `title,value` line per card. */
  function KpiLines(kpis: seq<(string, string)>): string
  {
    if kpis == [] then [] else KpiLines(kpis[..|kpis| - 1]) + kpis[|kpis| - 1].0 + "," + kpis[|kpis| - 1].1 + "\n"
  }

  /** The whole document after its title line. */
  function Document(title: string, kpis: seq<(string, string)>, rows: seq<seq<string>>): string
  {
    title + "\n\n" + "KPIs:\n" + KpiLines(kpis) + "\nDetalhamento:\n" + EncodeRows(rows)
  }

  /** The document ends with the detail table, so that table can be read back from its tail. */
  lemma DocumentEndsWithTable(title: string, kpis: seq<(string, string)>, rows: seq<seq<string>>)
    ensures var doc := Document(title, kpis, rows);
      var table := EncodeRows(rows);
      |doc| >= |table| && ReadRows(doc[|doc| - |table|..]) == Some(rows)
  {
    var doc := Document(title, kpis, rows);
    var table := EncodeRows(rows);
    var head := title + "\n\n" + "KPIs:\n" + KpiLines(kpis) + "\nDetalhamento:\n";
    assert doc == head + table;
    assert doc[|doc| - |table|..] == table;
    TableRoundTrip(rows);
  }
}

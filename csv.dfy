/**
 * Append-mode CSV files as the core uses them: every writer opens its file
 * with O_APPEND, and writes a header row first only when the file is empty.
 * A file is the sequence of its rows; CSV quoting is not modelled.
 */
module Csv {
  import Seqs

  type Row = seq<string>
  type File = seq<Row>

  /** One header-if-empty write of `row` to `file`. */
  function AppendRow(file: File, header: Row, row: Row): (r: File)
    ensures |r| == |file| + (if file == [] then 2 else 1)
    ensures r[..|file|] == file
    ensures r[0] == (if file == [] then header else file[0])
    ensures r[|r| - 1] == row
  {
    if file == [] then [header, row] else file + [row]
  }

  /** The arguments of one call to a header-if-empty writer. */
  datatype Write = Write(header: Row, row: Row)

  /** The data rows of a sequence of writes. */
  function RowsOf(ws: seq<Write>): (r: seq<Row>)
    ensures |r| == |ws|
    ensures forall i :: 0 <= i < |ws| ==> r[i] == ws[i].row
  {
    if ws == [] then [] else RowsOf(ws[..|ws| - 1]) + [ws[|ws| - 1].row]
  }

  /** The file after the writes `ws`, in order, starting from `file`. */
  function AppendAll(file: File, ws: seq<Write>): File {
    if ws == [] then file
    else
      var last := ws[|ws| - 1];
      AppendRow(AppendAll(file, ws[..|ws| - 1]), last.header, last.row)
  }

  /** The writes `ws` followed by `w` are the writes `ws`, then one more write. */
  lemma AppendAllSnoc(file: File, ws: seq<Write>, w: Write)
    ensures AppendAll(file, ws + [w]) == AppendRow(AppendAll(file, ws), w.header, w.row)
  {
    assert (ws + [w])[..|ws|] == ws;
  }

  /** Writing `a` and then `b` is writing `a + b`. */
  lemma {:induction false} AppendAllConcat(file: File, a: seq<Write>, b: seq<Write>)
    ensures AppendAll(AppendAll(file, a), b) == AppendAll(file, a + b)
    decreases |b|
  {
    if b == [] {
      assert a + b == a;
    } else {
      var p := b[..|b| - 1];
      AppendAllConcat(file, a, p);
      assert b == p + [b[|b| - 1]];
      Seqs.ConcatAssoc(a, p, [b[|b| - 1]]);
      AppendAllSnoc(file, a + p, b[|b| - 1]);
    }
  }

  /**
   * Across any number of writes the header appears once, at index 0, and
   * is the header offered by the first write to the empty file; a file
   * that already has rows only receives the new data rows.
   */
  lemma {:induction false} AppendAllShape(file: File, ws: seq<Write>)
    ensures file == [] && ws != [] ==> AppendAll(file, ws) == [ws[0].header] + RowsOf(ws)
    ensures file != [] || ws == [] ==> AppendAll(file, ws) == file + RowsOf(ws)
    decreases |ws|
  {
    if ws != [] {
      var p := ws[..|ws| - 1];
      AppendAllShape(file, p);
      assert RowsOf(ws) == RowsOf(p) + [ws[|ws| - 1].row];
      if file == [] && p != [] {
        assert p[0] == ws[0];
        Seqs.ConcatAssoc([ws[0].header], RowsOf(p), [ws[|ws| - 1].row]);
      } else if file != [] {
        Seqs.ConcatAssoc(file, RowsOf(p), [ws[|ws| - 1].row]);
      }
    }
  }

  /**
   * When every header and data row has width `w`, so does every row of a
   * file written from empty: the columns never shift.
   */
  lemma UniformWidth(ws: seq<Write>, w: nat)
    requires forall i :: 0 <= i < |ws| ==> |ws[i].header| == w && |ws[i].row| == w
    ensures forall k :: 0 <= k < |AppendAll([], ws)| ==> |AppendAll([], ws)[k]| == w
  {
    AppendAllShape([], ws);
  }
}

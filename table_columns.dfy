/**
 * Column widths as the overview pages compute them: the widest of the
 * column's title and its cells, each cell measured after its styling is
 * stripped and surrounding white space trimmed. Styling removal is a
 * parameter (the style package's pattern replacement).
 */
module TableColumns {
  import opened Text

  /** A table column as the widget takes it: the row-data key it shows, its title and its width. */
  datatype Column = Column(key: string, title: string, width: int)

  /** What the model keeps of a table widget: its columns, its rows and how many rows a page shows. */
  datatype Table<R> = Table(columns: seq<Column>, rows: seq<R>, pageSize: int)

  /** The width a cell takes once styling is stripped and white space trimmed. */
  function CellWidth(cell: string, strip: string -> string): nat {
    |TrimSpace(strip(cell))|
  }

  /** The largest of `start` and the numbers in `ls`. */
  function MaxFrom(start: nat, ls: seq<nat>): (w: nat)
    ensures w >= start && forall i :: 0 <= i < |ls| ==> w >= ls[i]
    ensures w == start || exists i :: 0 <= i < |ls| && w == ls[i]
  {
    if ls == [] then start
    else
      var w := MaxFrom(start, ls[..|ls| - 1]);
      assert forall i :: 0 <= i < |ls| - 1 ==> ls[..|ls| - 1][i] == ls[i];
      if ls[|ls| - 1] > w then ls[|ls| - 1] else w
  }

  function CellWidths(cells: seq<string>, strip: string -> string): (ws: seq<nat>)
    ensures |ws| == |cells| && forall i :: 0 <= i < |cells| ==> ws[i] == CellWidth(cells[i], strip)
  {
    seq(|cells|, i requires 0 <= i < |cells| => CellWidth(cells[i], strip))
  }

  /** The widest of a title and the given cells. */
  function ContentWidth(title: string, cells: seq<string>, strip: string -> string): (w: nat)
    ensures w >= |title| && forall i :: 0 <= i < |cells| ==> w >= CellWidth(cells[i], strip)
    ensures w == |title| || exists i :: 0 <= i < |cells| && w == CellWidth(cells[i], strip)
  {
    MaxFrom(|title|, CellWidths(cells, strip))
  }

  /** The inner loop of the width computation: one pass over a column's cells. */
  method MaxWidth(title: string, cells: seq<string>, strip: string -> string) returns (width: nat)
    ensures width == ContentWidth(title, cells, strip)
  {
    width := |title|;
    ghost var ws := CellWidths(cells, strip);
    for n := 0 to |cells|
      invariant width == MaxFrom(|title|, ws[..n])
    {
      assert ws[..n + 1][..n] == ws[..n];
      var cellContent := TrimSpace(strip(cells[n]));
      if |cellContent| > width {
        width := |cellContent|;
      }
    }
    assert ws[..|cells|] == ws;
  }

  /** Cell `k` of every row, "" where a row is too short (a missing map entry). */
  function ColumnCells(rows: seq<seq<string>>, k: nat): (cells: seq<string>)
    ensures |cells| == |rows|
    ensures forall i :: 0 <= i < |rows| ==> cells[i] == if k < |rows[i]| then rows[i][k] else ""
  {
    seq(|rows|, i requires 0 <= i < |rows| => if k < |rows[i]| then rows[i][k] else "")
  }
}

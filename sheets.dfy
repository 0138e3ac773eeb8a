/**
 * The spreadsheet as the scripts see it: `get_all_values()` gives a list of
 * rows of cell texts, the header is the first row, a column is found with
 * `header.index(name)`, and `update_cell(row, col, value)` addresses a cell
 * from 1.
 */
module Sheets {
  import opened Values

  type Grid = seq<seq<string>>

  /** `header.index(name)`: the first column holding `name`; None where
      Python raises `ValueError`. */
  function ColumnOf(header: seq<string>, name: string): (r: Option<nat>)
    ensures r.Some? ==> r.value < |header| && header[r.value] == name
    ensures r.Some? ==> forall j :: 0 <= j < r.value ==> header[j] != name
    ensures r.None? <==> name !in header
    decreases |header|
  {
    if header == [] then None
    else if header[0] == name then Some(0)
    else
      match ColumnOf(header[1..], name)
      case None => None
      case Some(j) => Some(j + 1)
  }

  /** The text of the cell at 1-based (`r`, `c`); empty outside the values. */
  function CellAt(g: Grid, r: int, c: int): string {
    if 1 <= r <= |g| && 1 <= c <= |g[r - 1]| then g[r - 1][c - 1] else ""
  }

  function Pad(row: seq<string>, n: nat): (r: seq<string>)
    ensures |r| == if |row| < n then n else |row|
    ensures r[..|row|] == row
    ensures forall k :: |row| <= k < |r| ==> r[k] == ""
  {
    if |row| < n then row + seq(n - |row|, _ => "") else row
  }

  /** `update_cell(r, c, v)`: the cell takes the value `v`; the values grow
      with empty cells when the cell lies beyond them. */
  function SetCell(g: Grid, r: nat, c: nat, v: string): (g': Grid)
    requires r >= 1 && c >= 1
    ensures forall r', c' :: CellAt(g', r', c') == if r' == r && c' == c then v else CellAt(g, r', c')
    ensures |g'| == if |g| < r then r else |g|
    ensures forall i :: 0 <= i < |g| && i != r - 1 ==> g'[i] == g[i]
    ensures r <= |g| && c <= |g[r - 1]| ==> |g'[r - 1]| == |g[r - 1]|
  {
    var rows := if |g| < r then g + seq(r - |g|, _ => []) else g;
    var row := Pad(rows[r - 1], c);
    var g' := rows[r - 1 := row[c - 1 := v]];
    assert forall r', c' :: CellAt(g', r', c') == if r' == r && c' == c then v else CellAt(g, r', c') by {
      forall r', c' ensures CellAt(g', r', c') == if r' == r && c' == c then v else CellAt(g, r', c') {
        if r' == r && c' != c && 1 <= c' <= |g'[r - 1]| {
          if c' <= |rows[r - 1]| {
            assert row[c' - 1] == rows[r - 1][c' - 1];
          }
        }
      }
    }
    g'
  }

  /** Writing a cell inside the values changes that one cell of that one
      row and nothing else. */
  lemma SetCellInside(g: Grid, r: nat, c: nat, v: string)
    requires 1 <= r <= |g| && 1 <= c <= |g[r - 1]|
    ensures |SetCell(g, r, c, v)| == |g|
    ensures forall i :: 0 <= i < |g| && i != r - 1 ==> SetCell(g, r, c, v)[i] == g[i]
    ensures |SetCell(g, r, c, v)[r - 1]| == |g[r - 1]|
    ensures SetCell(g, r, c, v)[r - 1] == g[r - 1][c - 1 := v]
  {
    var g' := SetCell(g, r, c, v);
    assert CellAt(g', r, c) == g'[r - 1][c - 1];
    var row, row' := g[r - 1], g'[r - 1];
    forall m | 0 <= m < |row| ensures row'[m] == row[c - 1 := v][m] {
      assert CellAt(g', r, m + 1) == row'[m];
      assert CellAt(g, r, m + 1) == row[m];
    }
  }
}

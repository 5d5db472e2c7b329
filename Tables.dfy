/** pandas tables as the pipeline uses them. A `Frame` keeps its rows in
    order with their index labels, duplicates allowed, as `concat` produces
    them; an unset cell (NaN) is a column missing from the row's map. A
    `Series` is a single column with its index. */
module Tables {
  import opened Values

  type Row = map<string, Cell>

  datatype Frame<K> = Frame(cols: seq<string>, rows: seq<(K, Row)>)

  type Series<K> = seq<(K, Cell)>

  /** The value a row holds in column `c`, NaN when unset. */
  function CellAt(row: Row, c: string): Cell {
    if c in row then row[c] else CNone
  }

  /** `df[c]`: KeyError when the frame has no such column. */
  function Column<K>(f: Frame<K>, c: string): (r: Result<Series<K>>)
    ensures r.Ok? <==> c in f.cols
  {
    if c in f.cols then
      Ok(seq(|f.rows|, i requires 0 <= i < |f.rows| => (f.rows[i].0, CellAt(f.rows[i].1, c))))
    else Err("KeyError")
  }

  /** A column holds the row's value for every row, in row order. */
  lemma ColumnValues<K>(f: Frame<K>, c: string)
    requires c in f.cols
    ensures |Column(f, c).value| == |f.rows|
    ensures forall i :: 0 <= i < |f.rows| ==> Column(f, c).value[i] == (f.rows[i].0, CellAt(f.rows[i].1, c))
  {
  }

  /** The columns of `b` that `a` does not have, in `b`'s order. */
  function NewCols(a: seq<string>, b: seq<string>): seq<string>
    decreases |b|
  {
    if b == [] then []
    else (if b[0] in a then [] else [b[0]]) + NewCols(a, b[1..])
  }

  lemma {:induction false} NewColsMembers(a: seq<string>, b: seq<string>)
    ensures forall c :: c in NewCols(a, b) <==> c in b && c !in a
    decreases |b|
  {
    if b != [] {
      NewColsMembers(a, b[1..]);
      assert forall c :: c in b <==> c == b[0] || c in b[1..] by {
        assert b == [b[0]] + b[1..];
      }
    }
  }

  /** `concat([a, b])`: the rows of `a` then those of `b`; the columns are
      those of `a` followed by the ones only `b` has. */
  function Concat<K>(a: Frame<K>, b: Frame<K>): (r: Frame<K>)
    ensures r.rows == a.rows + b.rows
  {
    Frame(a.cols + NewCols(a.cols, b.cols), a.rows + b.rows)
  }

  /** A column of the concatenation is a column of either table. */
  lemma ConcatCols<K>(a: Frame<K>, b: Frame<K>)
    ensures forall c :: c in Concat(a, b).cols <==> c in a.cols || c in b.cols
  {
    NewColsMembers(a.cols, b.cols);
  }

  /** `df[cols]`: KeyError unless every listed column exists. */
  function Select<K>(f: Frame<K>, cols: seq<string>): (r: Result<Frame<K>>)
    ensures r.Ok? <==> forall c :: c in cols ==> c in f.cols
    ensures r.Ok? ==> r.value.cols == cols && |r.value.rows| == |f.rows|
  {
    if forall c :: c in cols ==> c in f.cols then
      Ok(Frame(cols, seq(|f.rows|, i requires 0 <= i < |f.rows| =>
        (f.rows[i].0, map c | c in f.rows[i].1 && c in cols :: f.rows[i].1[c]))))
    else Err("KeyError")
  }

  /** The selected table keeps every row, with its index label and its
      values in the selected columns. */
  lemma SelectValues<K>(f: Frame<K>, cols: seq<string>)
    requires Select(f, cols).Ok?
    ensures forall i :: 0 <= i < |f.rows| ==>
      Select(f, cols).value.rows[i].0 == f.rows[i].0 &&
      forall c :: c in cols ==> CellAt(Select(f, cols).value.rows[i].1, c) == CellAt(f.rows[i].1, c)
  {
  }

  /** `df.map(fn)`: every cell of every column, unset cells included. */
  function MapCells<K>(f: Frame<K>, fn: Cell -> Cell): (r: Frame<K>)
    ensures r.cols == f.cols && |r.rows| == |f.rows|
  {
    Frame(f.cols, seq(|f.rows|, i requires 0 <= i < |f.rows| =>
      (f.rows[i].0, map c | c in f.cols :: fn(CellAt(f.rows[i].1, c)))))
  }

  /** Each cell of the mapped table is `fn` of the cell it came from. */
  lemma MapCellsValues<K>(f: Frame<K>, fn: Cell -> Cell)
    ensures forall i :: 0 <= i < |f.rows| ==>
      MapCells(f, fn).rows[i].0 == f.rows[i].0 &&
      forall c :: c in f.cols ==> CellAt(MapCells(f, fn).rows[i].1, c) == fn(CellAt(f.rows[i].1, c))
  {
  }

  /** The index labels of a frame, in row order. */
  function IndexOfRows<K>(f: Frame<K>): (r: seq<K>)
    ensures |r| == |f.rows| && forall i :: 0 <= i < |f.rows| ==> r[i] == f.rows[i].0
  {
    seq(|f.rows|, i requires 0 <= i < |f.rows| => f.rows[i].0)
  }
}

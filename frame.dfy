/** The output frame of one tick (`ChromaState` over the keyboard custom-key
    effect builder): a map from keyboard grid cells to colours in which the
    last write to a cell wins. The keyboard grid is MAX_ROW x MAX_COLUMN. */
module Frame {
  import opened Primitives

  const MAX_ROW: nat := 6
  const MAX_COLUMN: nat := 22

  datatype Cell = Cell(row: uint8, column: uint8)

  datatype Write = Write(cell: Cell, color: Rgb)

  /** The frame after writing `ws` into `cells`, in order. */
  function Apply(cells: map<Cell, Rgb>, ws: seq<Write>): map<Cell, Rgb>
  {
    if ws == [] then cells
    else Apply(cells, ws[..|ws| - 1])[ws[|ws| - 1].cell := ws[|ws| - 1].color]
  }

  function Written(ws: seq<Write>): set<Cell>
  {
    set w | w in ws :: w.cell
  }

  /** Writing adds exactly the written cells to the frame. */
  lemma {:induction false} ApplyKeys(cells: map<Cell, Rgb>, ws: seq<Write>)
    ensures Apply(cells, ws).Keys == cells.Keys + Written(ws)
  {
    if ws != [] {
      var n := |ws| - 1;
      ApplyKeys(cells, ws[..n]);
      assert ws == ws[..n] + [ws[n]];
      assert Written(ws) == Written(ws[..n]) + {ws[n].cell};
    }
  }

  lemma {:induction false} ApplyConcat(cells: map<Cell, Rgb>, xs: seq<Write>, ys: seq<Write>)
    ensures Apply(cells, xs + ys) == Apply(Apply(cells, xs), ys)
    decreases |ys|
  {
    if ys != [] {
      var n := |ys| - 1;
      assert (xs + ys)[..|xs + ys| - 1] == xs + ys[..n];
      assert (xs + ys)[|xs + ys| - 1] == ys[n];
      ApplyConcat(cells, xs, ys[..n]);
    } else {
      assert xs + ys == xs;
    }
  }

  /** Last write wins: the colour of a written cell is the colour of the
      last write to it. */
  lemma {:induction false} ApplyLastWriteWins(cells: map<Cell, Rgb>, ws: seq<Write>, k: nat)
    requires k < |ws|
    requires forall j :: k < j < |ws| ==> ws[j].cell != ws[k].cell
    ensures ws[k].cell in Apply(cells, ws) && Apply(cells, ws)[ws[k].cell] == ws[k].color
  {
    if k < |ws| - 1 {
      ApplyLastWriteWins(cells, ws[..|ws| - 1], k);
    }
  }

  /** A cell no write touches keeps its old colour. */
  lemma {:induction false} ApplyUntouched(cells: map<Cell, Rgb>, ws: seq<Write>, c: Cell)
    requires c in cells
    requires forall j :: 0 <= j < |ws| ==> ws[j].cell != c
    ensures c in Apply(cells, ws) && Apply(cells, ws)[c] == cells[c]
  {
    if ws != [] {
      ApplyUntouched(cells, ws[..|ws| - 1], c);
    }
  }

  /** `ChromaState`: the frame being assembled during one tick. */
  class ChromaState {
    var cells: map<Cell, Rgb>

    constructor ()
      ensures cells == map[]
    {
      cells := map[];
    }

    method SetPosition(row: uint8, column: uint8, color: Rgb)
      modifies this
      ensures cells == old(cells)[Cell(row, column) := color]
    {
      cells := cells[Cell(row, column) := color];
    }
  }
}

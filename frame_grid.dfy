/** The grid layout of `ModelDrawer::DrawFrame` (src/Modeler/ModelDrawer.cc:367-402):
    the frames of the batch are shown in a two-column grid of 512 x 512 cells, frame `i`
    in column `i % 2` and row `i / 2`. All operands are non-negative, so C++'s truncating
    `/` and `%` coincide with Dafny's. */
module FrameGrid {
  import TextureSelection

  const Cols: nat := 2
  const TextureWidth: nat := 512
  const TextureHeight: nat := 512

  /** The pixel origin of one cell of the grid (`xPos`, `yPos`). */
  datatype Cell = Cell(xPos: nat, yPos: nat)

  /** `rows = (numKFs + cols - 1) / cols`: the least number of rows of `Cols` cells
      that holds `numKFs` frames. */
  function Rows(numKFs: nat): (rows: nat)
    ensures Cols * rows >= numKFs
    ensures Cols * rows < numKFs + Cols
  {
    (numKFs + Cols - 1) / Cols
  }

  /** The origin of the cell of frame `i`. */
  function CellOf(i: nat): (c: Cell)
    ensures c.xPos == 0 || c.xPos == TextureWidth
    ensures c.yPos % TextureHeight == 0
  {
    Cell((i % Cols) * TextureWidth, (i / Cols) * TextureHeight)
  }

  /** The frame index a cell origin belongs to: row-major numbering of the grid. */
  function IndexOf(c: Cell): nat {
    (c.yPos / TextureHeight) * Cols + c.xPos / TextureWidth
  }

  /** `IndexOf` inverts `CellOf`. */
  lemma IndexOfCellOf(i: nat)
    ensures IndexOf(CellOf(i)) == i
  {
    var c := CellOf(i);
    assert c.xPos / TextureWidth == i % Cols;
    assert c.yPos / TextureHeight == i / Cols;
  }

  /** Distinct frames get distinct cells. */
  lemma CellsDistinct(i: nat, j: nat)
    requires i != j
    ensures CellOf(i) != CellOf(j)
  {
    IndexOfCellOf(i);
    IndexOfCellOf(j);
  }

  /** Every cell of a batch of `numKFs` frames lies inside the `Cols x Rows(numKFs)` grid. */
  lemma CellInsideGrid(numKFs: nat, i: nat)
    requires i < numKFs
    ensures CellOf(i).xPos + TextureWidth <= Cols * TextureWidth
    ensures CellOf(i).yPos + TextureHeight <= Rows(numKFs) * TextureHeight
  {
    var rows := Rows(numKFs);
    assert i / Cols < rows;
    assert (i / Cols + 1) * TextureHeight <= rows * TextureHeight;
  }

  /** The layout loop of `DrawFrame`: one cell per frame, in batch order. */
  method DrawFrame(frames: seq<TextureSelection.FrameView>) returns (rows: nat, cells: seq<Cell>)
    ensures rows == Rows(|frames|) && Cols * rows >= |frames|
    ensures |cells| == |frames|
    ensures forall i :: 0 <= i < |cells| ==> cells[i] == CellOf(i)
    ensures forall i :: 0 <= i < |cells| ==>
              (cells[i].xPos == 0 || cells[i].xPos == TextureWidth) &&
              cells[i].yPos + TextureHeight <= rows * TextureHeight
    ensures forall i, j :: 0 <= i < j < |cells| ==> cells[i] != cells[j]
  {
    var numKFs := |frames|;
    rows := (numKFs + Cols - 1) / Cols;
    cells := [];
    for i := 0 to numKFs
      invariant |cells| == i
      invariant forall k :: 0 <= k < i ==> cells[k] == CellOf(k)
    {
      var xPos := (i % Cols) * TextureWidth;
      var yPos := (i / Cols) * TextureHeight;
      cells := cells + [Cell(xPos, yPos)];
    }
    forall i | 0 <= i < |cells|
      ensures cells[i].yPos + TextureHeight <= rows * TextureHeight
    {
      CellInsideGrid(numKFs, i);
    }
    forall i, j | 0 <= i < j < |cells|
      ensures cells[i] != cells[j]
    {
      CellsDistinct(i, j);
    }
  }
}

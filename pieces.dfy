/** The falling piece ("tetrimino") and the cells it covers when drawn.
    Only the L shape is drawn; the six other shapes stop the program with a
    failed assertion, and any other type tag draws nothing. */
module Pieces {

  /** The falling piece: anchor position, rotation angle (0 to 3) and type tag. */
  datatype Tetrimino = Tetrimino(x: int, y: int, angle: int, kind: char)

  /** A board cell as (column, row); rows grow downwards. */
  type Cell = (int, int)

  /** What drawing a piece does: it paints some cells, or it hits the
      "not done yet" assertion of an unimplemented shape. */
  datatype Shape = Drawn(cells: seq<Cell>) | NotDoneYet

  /** The seven type tags the drawing code knows about. */
  predicate IsPieceKind(c: char) {
    c == 'I' || c == 'O' || c == 'T' || c == 'L' || c == 'J' || c == 'Z' || c == 'S'
  }

  /** The offsets of the L piece from its anchor: a stem of three cells going
      down from the anchor and a foot to the right of the bottom cell. */
  const LOffsets: seq<Cell> := [(0, 0), (0, 1), (0, 2), (1, 2)]

  /** The anchor plus every offset, in order. */
  function Translate(offsets: seq<Cell>, x: int, y: int): (r: seq<Cell>)
    ensures |r| == |offsets|
    ensures forall i :: 0 <= i < |offsets| ==> r[i] == (x + offsets[i].0, y + offsets[i].1)
  {
    if offsets == [] then [] else [(x + offsets[0].0, y + offsets[0].1)] + Translate(offsets[1..], x, y)
  }

  /** The cells painted for a piece, in drawing order. */
  function PieceCells(t: Tetrimino): (r: Shape)
    ensures r.NotDoneYet? <==> IsPieceKind(t.kind) && t.kind != 'L'
    ensures t.kind == 'L' ==> r.Drawn? && |r.cells| == 4
    ensures !IsPieceKind(t.kind) ==> r == Drawn([])
  {
    match t.kind
    case 'L' => Drawn([(t.x, t.y), (t.x, t.y + 1), (t.x, t.y + 2), (t.x + 1, t.y + 2)])
    case 'I' => NotDoneYet
    case 'O' => NotDoneYet
    case 'T' => NotDoneYet
    case 'J' => NotDoneYet
    case 'Z' => NotDoneYet
    case 'S' => NotDoneYet
    case _ => Drawn([])
  }

  /** The L piece anchored at (x, y) covers exactly (x, y), (x, y+1), (x, y+2)
      and (x+1, y+2): four distinct cells. */
  lemma LPieceCells(t: Tetrimino)
    requires t.kind == 'L'
    ensures PieceCells(t).Drawn?
    ensures var cs := PieceCells(t).cells;
      |cs| == 4 &&
      (forall c :: c in cs <==> c == (t.x, t.y) || c == (t.x, t.y + 1) || c == (t.x, t.y + 2) || c == (t.x + 1, t.y + 2)) &&
      (forall i, j :: 0 <= i < j < |cs| ==> cs[i] != cs[j])
  {
  }

  /** The L piece is its anchor translated by the shape's offsets, whatever its
      angle: the drawing code ignores the rotation angle. */
  lemma LPieceIsTranslatedShape(t: Tetrimino, a: int)
    requires t.kind == 'L'
    ensures PieceCells(t) == Drawn(Translate(LOffsets, t.x, t.y))
    ensures PieceCells(t.(angle := a)) == PieceCells(t)
  {
  }

  /** Moving the anchor of an L piece by (dx, dy) moves every cell by (dx, dy). */
  lemma LPieceMoves(t: Tetrimino, dx: int, dy: int)
    requires t.kind == 'L'
    ensures var moved := PieceCells(t.(x := t.x + dx, y := t.y + dy)).cells;
      var cs := PieceCells(t).cells;
      |moved| == |cs| &&
      forall i :: 0 <= i < |cs| ==> moved[i] == (cs[i].0 + dx, cs[i].1 + dy)
  {
  }

  /** With its anchor inside columns [0, width] and rows [0, height], the L piece
      stays within columns [0, width + 1] and rows [0, height + 2]; at the
      extremes (x = width, y = height) it does reach that far. */
  lemma LPieceExtent(t: Tetrimino, width: int, height: int)
    requires t.kind == 'L'
    requires 0 <= t.x <= width && 0 <= t.y <= height
    ensures forall c :: c in PieceCells(t).cells ==> 0 <= c.0 <= width + 1 && 0 <= c.1 <= height + 2
    ensures t.x == width && t.y == height ==> (width + 1, height + 2) in PieceCells(t).cells
  {
  }
}

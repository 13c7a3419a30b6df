/** The next-piece preview panel: it keeps the text of the piece the board
    announced next, split into lines, and paints one square for every block
    character of it on a five-by-five grid scaled to the panel's width. I and
    O pieces start half a block further left than the other pieces. */
module PiecePreview {

  import opened JavaText
  import opened Events

  /** The panel holds five blocks across and five down. */
  const BlocksPerColAndRow: nat := 5

  /** The short padding is a tenth of the panel's width. */
  const ShorterPaddingRatio: nat := 10

  /** The default block colour, the second of the panel's four colours. */
  const DefaultBlockColor: Color := Color(26, 49, 18, 200)

  /** Characters of the piece text that are blocks: anything but a space, a
      wall `|` or a floor `-`. */
  predicate IsBlock(c: char)
  {
    c != ' ' && c != '|' && c != '-'
  }

  /** The pieces whose first column starts at the short padding rather than a
      whole block in from the left. */
  predicate StartsAtPadding(c: char)
  {
    c == 'I' || c == 'O'
  }

  /** A painted square: the line and character it comes from, its top-left
      corner, its side and the roundness of its corners. */
  datatype Square = Square(row: int, col: int, x: int, y: int, size: int, roundness: int)

  /** The left edge of a block of kind `c` in column `col`. */
  function SquareX(c: char, col: int, blockSize: int, padding: int): int
  {
    (if StartsAtPadding(c) then padding else blockSize) + col * blockSize
  }

  /** The top edge of a block in row `row`. */
  function SquareY(row: int, blockSize: int, padding: int): int
  {
    padding + row * blockSize
  }

  /** Whether `drawNextPiece` paints square `s` for the lines `piece`: it stands
      on a block character, at that character's place. */
  predicate Painted(piece: seq<string>, s: Square, blockSize: int, padding: int, roundness: int)
  {
    0 <= s.row < |piece| && 0 <= s.col < |piece[s.row]| && IsBlock(piece[s.row][s.col])
    && s.x == SquareX(piece[s.row][s.col], s.col, blockSize, padding)
    && s.y == SquareY(s.row, blockSize, padding)
    && s.size == blockSize && s.roundness == roundness
  }

  /** Row-major order, the order in which `drawNextPiece` visits characters. */
  predicate Before(a: Square, b: Square)
  {
    a.row < b.row || (a.row == b.row && a.col < b.col)
  }

  /** The nested loops of `drawNextPiece`: one square per block character, in
      row-major order, placed by the character's kind, row and column. */
  method DrawNextPiece(piece: seq<string>, blockSize: int, padding: int, roundness: int)
    returns (squares: seq<Square>)
    ensures forall s :: s in squares <==> Painted(piece, s, blockSize, padding, roundness)
    ensures forall a, b :: 0 <= a < b < |squares| ==> Before(squares[a], squares[b])
  {
    squares := [];
    var i := 0;
    while i < |piece|
      invariant 0 <= i <= |piece|
      invariant forall s :: s in squares <==>
                  Painted(piece, s, blockSize, padding, roundness) && s.row < i
      invariant forall a, b :: 0 <= a < b < |squares| ==> Before(squares[a], squares[b])
    {
      var j := 0;
      while j < |piece[i]|
        invariant 0 <= j <= |piece[i]|
        invariant forall s :: s in squares <==>
                    Painted(piece, s, blockSize, padding, roundness)
                    && (s.row < i || (s.row == i && s.col < j))
        invariant forall a, b :: 0 <= a < b < |squares| ==> Before(squares[a], squares[b])
      {
        var c := piece[i][j];
        if c != ' ' && c != '|' && c != '-' {
          var x := if c == 'I' || c == 'O' then padding + j * blockSize
                   else blockSize + j * blockSize;
          squares := squares + [Square(i, j, x, padding + i * blockSize, blockSize, roundness)];
        }
        j := j + 1;
      }
      i := i + 1;
    }
  }

  /** An I or O piece starts left of the others by the short padding, or by
      one pixel more when the width's rounding calls for it; on a width that is
      a multiple of ten that is exactly half a block. */
  lemma PaddingOffset(width: nat, c: char, d: char, col: int)
    requires StartsAtPadding(c) && IsBlock(d) && !StartsAtPadding(d)
    ensures var bs, lp := width / BlocksPerColAndRow, width / ShorterPaddingRatio;
            lp <= SquareX(d, col, bs, lp) - SquareX(c, col, bs, lp) <= lp + 1
    ensures width % ShorterPaddingRatio == 0 ==>
              var bs, lp := width / BlocksPerColAndRow, width / ShorterPaddingRatio;
              SquareX(d, col, bs, lp) - SquareX(c, col, bs, lp) == lp && bs == 2 * lp
  {
    var q := width / ShorterPaddingRatio;
    var r := width % ShorterPaddingRatio;
    assert width == 10 * q + r;
    assert width / BlocksPerColAndRow == 2 * q + r / 5;
  }

  /** A piece within the first four rows and columns fits the panel: every
      square it paints lies between 0 and the panel's width, both across and
      down (the panel is square). */
  lemma SquaresFitPanel(width: nat, c: char, row: int, col: int)
    requires IsBlock(c) && 0 <= row <= 3 && 0 <= col <= 3
    ensures var bs, lp := width / BlocksPerColAndRow, width / ShorterPaddingRatio;
            0 <= SquareX(c, col, bs, lp) && SquareX(c, col, bs, lp) + bs <= width
            && 0 <= SquareY(row, bs, lp) && SquareY(row, bs, lp) + bs <= width
  {
    var bs, lp := width / BlocksPerColAndRow, width / ShorterPaddingRatio;
    assert 5 * bs <= width;
    assert lp <= bs;
    assert 0 <= col * bs <= 3 * bs && 0 <= row * bs <= 3 * bs;
  }

  /** Two different block characters of a piece never share a square when
      blocks have a size: their corners differ. Characters of the same kind
      class sit exactly `col` and `row` block sizes apart. */
  lemma SquaresDistinct(piece: seq<string>, a: Square, b: Square, width: nat, roundness: int)
    requires width >= BlocksPerColAndRow
    requires var bs, lp := width / BlocksPerColAndRow, width / ShorterPaddingRatio;
             Painted(piece, a, bs, lp, roundness) && Painted(piece, b, bs, lp, roundness)
    requires StartsAtPadding(piece[a.row][a.col]) == StartsAtPadding(piece[b.row][b.col])
    requires a.row != b.row || a.col != b.col
    ensures a.x != b.x || a.y != b.y
  {
    var bs := width / BlocksPerColAndRow;
    assert bs >= 1;
    if a.row != b.row {
      assert a.y - b.y == (a.row - b.row) * bs;
    } else {
      assert a.x - b.x == (a.col - b.col) * bs;
    }
  }

  // ---------------------------------------------------------------------
  // The panel

  class NextPiecePreviewPanel {
    var nextPiece: Option<seq<string>>
    var isCircleSelected: bool
    var isSpecialColor: bool
    var blockColor: Color

    constructor ()
      ensures nextPiece == None && !isCircleSelected && !isSpecialColor
      ensures blockColor == DefaultBlockColor
    {
      nextPiece := None;
      isCircleSelected, isSpecialColor := false, false;
      blockColor := DefaultBlockColor;
    }

    /** "color" with a colour selects it and leaves the random-colour mode, a
        null colour enters that mode; "circle" sets the block shape; every
        other property is ignored. */
    method PropertyChange(p: PropertyChange)
      modifies this
      ensures p.ColorChanged? && p.color.Some? ==> blockColor == p.color.value && !isSpecialColor
      ensures p.ColorChanged? && p.color.None? ==> blockColor == old(blockColor) && isSpecialColor
      ensures !p.ColorChanged? ==>
                blockColor == old(blockColor) && isSpecialColor == old(isSpecialColor)
      ensures isCircleSelected == (if p.CircleChanged? then p.circle else old(isCircleSelected))
      ensures nextPiece == old(nextPiece)
    {
      match p
      case ColorChanged(color) =>
        if color.Some? {
          blockColor := color.value;
          isSpecialColor := false;
        } else {
          isSpecialColor := true;
        }
      case CircleChanged(circle) =>
        isCircleSelected := circle;
      case _ =>
    }

    /** Only a next-piece notification replaces the kept lines: its text split
        at every line feed, with or without a carriage return before it. */
    method Update(n: Notification)
      modifies this
      ensures nextPiece == (if n.NextPiece? then Some(SplitLinesCrLf(n.text)) else old(nextPiece))
      ensures isCircleSelected == old(isCircleSelected)
      ensures isSpecialColor == old(isSpecialColor) && blockColor == old(blockColor)
    {
      if n.NextPiece? {
        nextPiece := Some(SplitLinesCrLf(n.text));
      }
    }

    /** `paintComponent` on a panel `width` pixels wide: nothing before a piece
        has arrived; afterwards the piece's block characters, each a fifth of
        the width wide, placed from a padding of a tenth of the width, with
        corners rounded by the block size in circle mode and square otherwise. */
    method Paint(width: nat) returns (squares: seq<Square>)
      ensures nextPiece.None? ==> squares == []
      ensures nextPiece.Some? ==>
                forall s :: s in squares <==>
                  Painted(nextPiece.value, s, width / BlocksPerColAndRow,
                          width / ShorterPaddingRatio,
                          if isCircleSelected then width / BlocksPerColAndRow else 0)
    {
      squares := [];
      if nextPiece.Some? {
        var blockSize := width / BlocksPerColAndRow;
        var padding := width / ShorterPaddingRatio;
        var roundness := 0;
        if isCircleSelected {
          roundness := blockSize;
        }
        squares := DrawNextPiece(nextPiece.value, blockSize, padding, roundness);
      }
    }
  }
}

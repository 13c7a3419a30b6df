/** The main game panel: it keeps the board snapshot the board last sent,
    without its first five lines, and paints one square for every occupied
    cell between the walls, or a "Paused" message instead; a "Game Over"
    message goes on top once the game is over. */
module BoardView {

  import opened JavaText
  import opened Events

  /** Lines at the top of a board snapshot the panel does not draw. */
  const UnusedBoardLines: nat := 5

  /** The default block colour, the second of the panel's four colours. */
  const DefaultBlockColor: Color := Color(26, 49, 18, 200)

  /** A drawn square: the row from the top, the column from the left wall. */
  datatype Cell = Cell(row: int, col: int)

  /** `update` splits a snapshot into lines and keeps those after the first
      five; a snapshot of fewer than five lines has none to keep. */
  function BoardLines(text: string): (kept: Option<seq<string>>)
    ensures kept.Some? <==> |JavaSplit(text, "\n")| >= UnusedBoardLines
    ensures kept.Some? ==>
              JavaSplit(text, "\n") == JavaSplit(text, "\n")[..UnusedBoardLines] + kept.value
  {
    var lines := JavaSplit(text, "\n");
    if |lines| < UnusedBoardLines then None
    else
      assert lines == lines[..UnusedBoardLines] + lines[UnusedBoardLines..];
      Some(lines[UnusedBoardLines..])
  }

  /** Whether `drawGame` fills the square of `c`: the line's character just
      right of the left wall is not a space; the last line (the floor) and the
      first and last character of every line (the walls) are never drawn. */
  predicate Occupied(game: seq<string>, c: Cell)
  {
    0 <= c.row < |game| - 1 && 0 <= c.col && c.col + 1 < |game[c.row]| - 1
    && game[c.row][c.col + 1] != ' '
  }

  /** Row-major order, the order in which `drawGame` visits the cells. */
  predicate Before(a: Cell, b: Cell)
  {
    a.row < b.row || (a.row == b.row && a.col < b.col)
  }

  /** Drawn squares lie within the board the snapshot shows: rows 0 to the
      number of lines less 2, columns 0 to the line's length less 3. */
  lemma OccupiedWithinWalls(game: seq<string>, c: Cell)
    requires Occupied(game, c)
    ensures 0 <= c.row <= |game| - 2 && 0 <= c.col <= |game[c.row]| - 3
  {
  }

  /** The nested loops of `drawGame`: every occupied cell once, in row-major
      order. */
  method DrawGame(game: seq<string>) returns (drawn: seq<Cell>)
    ensures forall c :: c in drawn <==> Occupied(game, c)
    ensures forall a, b :: 0 <= a < b < |drawn| ==> Before(drawn[a], drawn[b])
  {
    drawn := [];
    var i := 0;
    while i < |game| - 1
      invariant 0 <= i && (|game| >= 1 ==> i <= |game| - 1)
      invariant forall c :: c in drawn <==> Occupied(game, c) && c.row < i
      invariant forall a, b :: 0 <= a < b < |drawn| ==> Before(drawn[a], drawn[b])
    {
      var j := 1;
      while j < |game[i]| - 1
        invariant 1 <= j && (|game[i]| >= 2 ==> j <= |game[i]| - 1)
        invariant forall c :: c in drawn <==>
                    Occupied(game, c) && (c.row < i || (c.row == i && c.col < j - 1))
        invariant forall a, b :: 0 <= a < b < |drawn| ==> Before(drawn[a], drawn[b])
      {
        if game[i][j] != ' ' {
          drawn := drawn + [Cell(i, j - 1)];
        }
        j := j + 1;
      }
      i := i + 1;
    }
  }

  // ---------------------------------------------------------------------
  // Snapshots of a known grid

  /** A row of cells between two walls, an occupied cell shown as `block` and
      an empty one as a space. */
  function FramedRow(row: seq<bool>, block: char): (line: string)
    ensures |line| == |row| + 2
  {
    "|" + seq(|row|, j requires 0 <= j < |row| => if row[j] then block else ' ') + "|"
  }

  function FramedRows(grid: seq<seq<bool>>, block: char): (lines: seq<string>)
    ensures |lines| == |grid|
  {
    seq(|grid|, i requires 0 <= i < |grid| => FramedRow(grid[i], block))
  }

  /** A snapshot laid out the way the panel reads it: five lines it skips, the
      rows of the grid between walls, and a floor line. */
  function SnapshotText(header: seq<string>, grid: seq<seq<bool>>, floor: string, block: char): string
  {
    Join(header + FramedRows(grid, block) + [floor], "\n")
  }

  /** Decoding recovers the grid: the panel keeps the framed rows and the floor
      and draws exactly the occupied cells. */
  lemma SnapshotRoundTrip(header: seq<string>, grid: seq<seq<bool>>, floor: string, block: char)
    requires |header| == UnusedBoardLines
    requires forall k :: 0 <= k < |header| ==> '\n' !in header[k]
    requires '\n' !in floor && floor != ""
    requires block != ' ' && block != '\n'
    ensures BoardLines(SnapshotText(header, grid, floor, block)) == Some(FramedRows(grid, block) + [floor])
    ensures forall c :: Occupied(FramedRows(grid, block) + [floor], c) <==>
              0 <= c.row < |grid| && 0 <= c.col < |grid[c.row]| && grid[c.row][c.col]
  {
    var rows := FramedRows(grid, block);
    var lines := header + rows + [floor];
    forall k | 0 <= k < |lines| ensures '\n' !in lines[k] {
      if UnusedBoardLines <= k < |lines| - 1 {
        assert lines[k] == FramedRow(grid[k - UnusedBoardLines], block);
      }
    }
    JavaSplitJoin(lines, "\n");
    assert lines[UnusedBoardLines..] == rows + [floor];
    var game := rows + [floor];
    forall c | Occupied(game, c)
      ensures 0 <= c.row < |grid| && 0 <= c.col < |grid[c.row]| && grid[c.row][c.col]
    {
      assert game[c.row] == FramedRow(grid[c.row], block);
    }
    forall c: Cell | 0 <= c.row < |grid| && 0 <= c.col < |grid[c.row]| && grid[c.row][c.col]
      ensures Occupied(game, c)
    {
      assert game[c.row] == FramedRow(grid[c.row], block);
    }
  }

  // ---------------------------------------------------------------------
  // The panel

  /** `myHeightToWidthRatio`, fixed when the panel is built. */
  function HeightToWidthRatio(width: int, height: int): (ratio: int)
    ensures ratio == 1 <==> height == width
    ensures ratio == 1 || ratio == 2
  {
    if height == width then 1 else 2
  }

  /** What one `paintComponent` shows, beyond the background: the "Paused"
      message, the squares of the board, and the "Game Over" message. */
  datatype Frame = Frame(pausedMessage: bool, cells: seq<Cell>, gameOverMessage: bool)

  class GamePanel {
    var board: Board
    var heightToWidthRatio: int
    var currentGame: Option<seq<string>>
    var gameOver: bool
    var isPaused: bool
    var isSpecialColor: bool
    var blockColor: Color
    var isCircleSelected: bool
    var isGridEnabled: bool

    constructor (board: Board)
      ensures this.board == board
      ensures heightToWidthRatio == HeightToWidthRatio(board.width, board.height)
      ensures currentGame == None && !gameOver && !isPaused
      ensures !isSpecialColor && blockColor == DefaultBlockColor
      ensures !isCircleSelected && !isGridEnabled
    {
      this.board := board;
      if board.height == board.width {
        heightToWidthRatio := 1;
      } else {
        heightToWidthRatio := 2;
      }
      currentGame := None;
      gameOver, isPaused := false, false;
      isSpecialColor, blockColor := false, DefaultBlockColor;
      isCircleSelected, isGridEnabled := false, false;
    }

    /** "paused" sets only the paused flag; "endGame" sets the game-over flag
        and always clears the paused one; "color" with a colour selects it and
        leaves the random-colour mode, while a null colour enters that mode;
        "grid", "circle" and "size" set their own field. A new board does not
        change the height-to-width ratio. */
    method PropertyChange(p: PropertyChange)
      modifies this
      ensures p.PausedChanged? ==> isPaused == p.paused && gameOver == old(gameOver)
      ensures p.EndGameChanged? ==> gameOver == p.ended && !isPaused
      ensures !p.PausedChanged? && !p.EndGameChanged? ==>
                isPaused == old(isPaused) && gameOver == old(gameOver)
      ensures p.ColorChanged? && p.color.Some? ==> blockColor == p.color.value && !isSpecialColor
      ensures p.ColorChanged? && p.color.None? ==> blockColor == old(blockColor) && isSpecialColor
      ensures !p.ColorChanged? ==>
                blockColor == old(blockColor) && isSpecialColor == old(isSpecialColor)
      ensures isGridEnabled == (if p.GridChanged? then p.shown else old(isGridEnabled))
      ensures isCircleSelected == (if p.CircleChanged? then p.circle else old(isCircleSelected))
      ensures board == (if p.SizeChanged? then p.board else old(board))
      ensures heightToWidthRatio == old(heightToWidthRatio) && currentGame == old(currentGame)
    {
      match p
      case PausedChanged(paused) =>
        isPaused := paused;
      case EndGameChanged(ended) =>
        gameOver := ended;
        isPaused := false;
      case ColorChanged(color) =>
        if color.Some? {
          blockColor := color.value;
          isSpecialColor := false;
        } else {
          isSpecialColor := true;
        }
      case GridChanged(shown) =>
        isGridEnabled := shown;
      case CircleChanged(circle) =>
        isCircleSelected := circle;
      case SizeChanged(newBoard) =>
        board := newBoard;
    }

    /** A snapshot replaces the kept lines; when it has fewer than five lines
        `copyOfRange` throws (`completed` is false) after the untrimmed lines
        were already stored. A game-over notification sets the flag to the value
        it carries. Nothing else changes. */
    method Update(n: Notification) returns (completed: bool)
      modifies this
      ensures n.Snapshot? ==>
                completed == BoardLines(n.text).Some?
                && currentGame == Some(if completed then BoardLines(n.text).value
                                       else JavaSplit(n.text, "\n"))
      ensures !n.Snapshot? ==> completed && currentGame == old(currentGame)
      ensures gameOver == (if n.GameOverFlag? then n.over else old(gameOver))
      ensures isPaused == old(isPaused) && board == old(board)
      ensures blockColor == old(blockColor) && isSpecialColor == old(isSpecialColor)
      ensures isCircleSelected == old(isCircleSelected) && isGridEnabled == old(isGridEnabled)
      ensures heightToWidthRatio == old(heightToWidthRatio)
    {
      completed := true;
      if n.Snapshot? {
        var lines := JavaSplit(n.text, "\n");
        currentGame := Some(lines);
        if |lines| < UnusedBoardLines {
          completed := false;
        } else {
          currentGame := Some(lines[UnusedBoardLines..]);
        }
      } else if n.GameOverFlag? {
        gameOver := n.over;
      }
    }

    /** While paused the board stays hidden behind the "Paused" message;
        otherwise its occupied cells are drawn once a snapshot has arrived. The
        "Game Over" message shows whenever the game is over. */
    method Paint() returns (frame: Frame)
      ensures frame.pausedMessage == isPaused && frame.gameOverMessage == gameOver
      ensures isPaused || currentGame.None? ==> frame.cells == []
      ensures !isPaused && currentGame.Some? ==>
                forall c :: c in frame.cells <==> Occupied(currentGame.value, c)
    {
      var cells := [];
      if !isPaused && currentGame.Some? {
        cells := DrawGame(currentGame.value);
      }
      frame := Frame(isPaused, cells, gameOver);
    }
  }
}

/** The collaborators the view layer talks to but does not own: the Tetris
    board engine (whose rules are not part of this model), the Swing timer
    that drives gravity, and the two kinds of messages the views receive —
    the board's observer notifications and the GUI's property changes. */
module Events {

  import opened JavaText

  /** The operations the GUI asks of the board. */
  datatype BoardOp = NewGame | Left | Right | Down | Rotate | Drop

  /** The board engine, seen from outside: its dimensions and the operations
      it has been asked to perform, in order. How it moves, rotates, locks and
      clears is not part of this model. */
  class Board {
    const width: int
    const height: int
    var received: seq<BoardOp>

    constructor (width: int, height: int)
      ensures this.width == width && this.height == height && received == []
    {
      this.width := width;
      this.height := height;
      received := [];
    }

    method Perform(op: BoardOp)
      modifies this
      ensures received == old(received) + [op]
    {
      received := received + [op];
    }
  }

  /** What the board tells its observers; the classes are those the views test
      for with `instanceof`: the board rendered as text (`String`), the rows a
      lock cleared (`Integer[]`), the game-over flag (`Boolean`) and the next
      piece, rendered as text (`MovableTetrisPiece`). */
  datatype Notification =
    | Snapshot(text: string)
    | ClearedRows(rows: seq<int>)
    | GameOverFlag(over: bool)
    | NextPiece(text: string)

  /** An RGBA colour. */
  datatype Color = Color(red: int, green: int, blue: int, alpha: int)

  /** A property change fired by the GUI window or a colour menu action, named
      by its property: "endGame", "paused", "color" (a colour, or null for the
      random-colour mode), "grid", "circle" and "size" (a new board). */
  datatype PropertyChange =
    | EndGameChanged(ended: bool)
    | PausedChanged(paused: bool)
    | ColorChanged(color: Option<Color>)
    | GridChanged(shown: bool)
    | CircleChanged(circle: bool)
    | SizeChanged(board: Board)

  /** The gravity timer: its delay in milliseconds and whether it is running.
      Its ticks call the board's `down`; the thread behind them is not modelled. */
  class Timer {
    var delay: int
    var running: bool

    constructor (delay: int)
      ensures this.delay == delay && !running
    {
      this.delay := delay;
      running := false;
    }

    method Start()
      modifies this
      ensures running && delay == old(delay)
    {
      running := true;
    }

    method Stop()
      modifies this
      ensures !running && delay == old(delay)
    {
      running := false;
    }

    /** `setDelay` refuses a negative delay with an IllegalArgumentException
        (`accepted` is false) and leaves the timer as it was. */
    method SetDelay(delay: int) returns (accepted: bool)
      modifies this
      ensures accepted == (delay >= 0)
      ensures this.delay == (if accepted then delay else old(this.delay))
      ensures running == old(running)
    {
      accepted := delay >= 0;
      if accepted {
        this.delay := delay;
      }
    }
  }
}

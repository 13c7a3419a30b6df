/** The game window: it starts and ends games, pauses and resumes the
    gravity timer (by key or when the window loses and regains focus),
    enables the File menu items that fit the session, turns key presses into
    board operations, and builds a new board from a "W x H" size menu label. */
module Gui {

  import opened JavaText
  import opened Events

  const DefaultInitialDelay: int := 1000
  const SizeSeparator: string := " x "

  /** The AWT key codes the window listens for. */
  const KeyEnter: int := 10
  const KeySpace: int := 32
  const KeyLeft: int := 37
  const KeyRight: int := 39
  const KeyDown: int := 40
  const KeyP: int := 80

  /** What the window keeps about the session: whether the game is over, the
      gravity timer's running flag and delay, and the enabled flags of the
      "End Game" and "New Game" items and of the size menu. */
  datatype Session = Session(
    gameOver: bool,
    running: bool,
    delay: int,
    endGameEnabled: bool,
    newGameEnabled: bool,
    sizeMenuEnabled: bool)

  /** The menus fit the session: a game can be ended only while it runs, and a
      new game or size can be chosen only once it is over. */
  predicate MenusAgree(s: Session)
  {
    s.endGameEnabled == !s.gameOver && s.newGameEnabled == s.gameOver
    && s.sizeMenuEnabled == s.gameOver
  }

  /** `switchFileMenuButtonsState`. */
  function SwitchMenus(s: Session): (r: Session)
    ensures MenusAgree(r)
    ensures r.endGameEnabled != r.newGameEnabled
    ensures r.(endGameEnabled := s.endGameEnabled, newGameEnabled := s.newGameEnabled,
               sizeMenuEnabled := s.sizeMenuEnabled) == s
  {
    s.(endGameEnabled := !s.gameOver, newGameEnabled := s.gameOver, sizeMenuEnabled := s.gameOver)
  }

  /** After `startGame`: the game runs, with the timer started at the initial delay. */
  function AfterStartGame(s: Session): (r: Session)
    ensures !r.gameOver && r.running && r.delay == DefaultInitialDelay
    ensures MenusAgree(r) && r.endGameEnabled && !r.newGameEnabled
  {
    SwitchMenus(s.(delay := DefaultInitialDelay, running := true, gameOver := false))
  }

  /** After `endGame`: the game is over and the timer stopped; the delay is kept. */
  function AfterEndGame(s: Session): (r: Session)
    ensures r.gameOver && !r.running && r.delay == s.delay
    ensures MenusAgree(r) && !r.endGameEnabled && r.newGameEnabled
  {
    SwitchMenus(s.(gameOver := true, running := false))
  }

  /** After `pauseOrResumeGame`: stop a running game's timer, otherwise start it. */
  function AfterPauseOrResume(s: Session): (r: Session)
    ensures r == s.(running := r.running)
    ensures !s.gameOver ==> r.running == !s.running
    ensures s.gameOver ==> r.running
  {
    if s.running && !s.gameOver then s.(running := false) else s.(running := true)
  }

  /** After `focusGained`: restart the timer of a game that is not over. */
  function AfterFocusGained(s: Session): (r: Session)
    ensures r == s.(running := r.running)
    ensures r.running <==> s.running || !s.gameOver
  {
    if !s.running && !s.gameOver then s.(running := true) else s
  }

  /** After `focusLost`: stop the timer of a running game. */
  function AfterFocusLost(s: Session): (r: Session)
    ensures r == s.(running := r.running)
    ensures r.running <==> s.running && s.gameOver
  {
    if s.running && !s.gameOver then s.(running := false) else s
  }

  /** The board operation bound to a key, if any. */
  function KeyOp(key: int): (op: Option<BoardOp>)
    ensures op.Some? <==> key in {KeyLeft, KeyRight, KeyDown, KeySpace, KeyEnter}
    ensures op.Some? ==> key != KeyP
    ensures op != Some(NewGame)
  {
    if key == KeyLeft then Some(Left)
    else if key == KeyRight then Some(Right)
    else if key == KeyDown then Some(Down)
    else if key == KeySpace then Some(Rotate)
    else if key == KeyEnter then Some(Drop)
    else None
  }

  /** The session after a key press: only P, during a game, changes it. */
  function AfterKey(s: Session, key: int): (r: Session)
    ensures r == s.(running := r.running)
    ensures r.running != s.running ==> key == KeyP && !s.gameOver
  {
    if !s.gameOver && key == KeyP then AfterPauseOrResume(s) else s
  }

  /** The board operations a key press asks for: the key's operation, during a
      game whose timer runs once P has been handled. */
  function KeyOps(s: Session, key: int): (ops: seq<BoardOp>)
    ensures |ops| <= 1
    ensures ops != [] ==> !s.gameOver && s.running && NewGame !in ops
  {
    if s.gameOver then []
    else if AfterKey(s, key).running && KeyOp(key).Some? then [KeyOp(key).value]
    else []
  }

  /** During a game, P flips the timer and twice restores the session; the
      paused flag it reports is the stopped timer. */
  lemma PauseTwiceRestores(s: Session)
    requires !s.gameOver
    ensures AfterPauseOrResume(s).running == !s.running
    ensures AfterPauseOrResume(AfterPauseOrResume(s)) == s
  {
  }

  /** Losing and regaining focus resumes a running game as it was, and regaining
      focus also resumes a game paused with P. */
  lemma FocusRoundTrip(s: Session)
    requires !s.gameOver && s.running
    ensures AfterFocusLost(s).running == false
    ensures AfterFocusGained(AfterFocusLost(s)) == s
    ensures AfterFocusGained(AfterPauseOrResume(s)) == s
  {
  }

  /** Once the game is over, focus changes and key presses change nothing and
      ask nothing of the board. */
  lemma GameOverIgnoresInput(s: Session, key: int)
    requires s.gameOver
    ensures AfterFocusGained(s) == s && AfterFocusLost(s) == s
    ensures AfterKey(s, key) == s && KeyOps(s, key) == []
  {
  }

  /** A key press asks at most one operation of the board: a movement key asks
      for its own operation exactly while a game runs, and P asks for none. */
  lemma KeyDispatch(s: Session, key: int)
    ensures |KeyOps(s, key)| <= 1
    ensures KeyOp(key).Some? ==>
              (KeyOps(s, key) == [KeyOp(key).value] <==> !s.gameOver && s.running)
    ensures KeyOp(key).None? ==> KeyOps(s, key) == []
    ensures key == KeyLeft ==> KeyOp(key) == Some(Left)
    ensures key == KeyRight ==> KeyOp(key) == Some(Right)
    ensures key == KeyDown ==> KeyOp(key) == Some(Down)
    ensures key == KeySpace ==> KeyOp(key) == Some(Rotate)
    ensures key == KeyEnter ==> KeyOp(key) == Some(Drop)
  {
  }

  // ---------------------------------------------------------------------
  // Size menu labels

  /** What becomes of a size menu label: the two dimensions, or the exception
      the menu action throws before anything changes. */
  datatype SizeLabel =
    | Dimensions(width: int, height: int)
    | MissingDimension   // ArrayIndexOutOfBoundsException
    | NotANumber         // NumberFormatException

  /** The label split on " x ", its first piece parsed as the width and its
      second as the height, in that order. */
  function ParseSizeLabel(text: string): (r: SizeLabel)
    ensures r.Dimensions? ==> Find(text, SizeSeparator).Some?
    ensures r.Dimensions? ==> MinInt <= r.width <= MaxInt && MinInt <= r.height <= MaxInt
    ensures text == "" ==> r == NotANumber
  {
    var dimension := JavaSplit(text, SizeSeparator);
    if |dimension| < 1 then MissingDimension
    else if ParseInt(dimension[0]).None? then NotANumber
    else if |dimension| < 2 then MissingDimension
    else if ParseInt(dimension[1]).None? then NotANumber
    else Dimensions(ParseInt(dimension[0]).value, ParseInt(dimension[1]).value)
  }

  /** A label written as "W x H" gives width W and height H. */
  lemma SizeLabelRoundTrip(width: nat, height: nat)
    requires width <= MaxInt && height <= MaxInt
    ensures ParseSizeLabel(ShowNat(width) + SizeSeparator + ShowNat(height))
            == Dimensions(width, height)
  {
    var parts := [ShowNat(width), ShowNat(height)];
    assert parts[1..] == [ShowNat(height)];
    assert Join(parts, SizeSeparator) == ShowNat(width) + SizeSeparator + ShowNat(height);
    forall k | 0 <= k < 2 ensures SizeSeparator[0] !in parts[k] {
      assert AllDigits(parts[k]);
    }
    JavaSplitJoin(parts, SizeSeparator);
    ParseShowNat(width);
    ParseShowNat(height);
  }

  /** The three sizes the menu offers. */
  lemma MenuSizes()
    ensures ParseSizeLabel("10 x 20") == Dimensions(10, 20)
    ensures ParseSizeLabel("15 x 15") == Dimensions(15, 15)
    ensures ParseSizeLabel("15 x 30") == Dimensions(15, 30)
  {
    ShownMenuNumbers();
    SizeLabelRoundTrip(10, 20);
    SizeLabelRoundTrip(15, 15);
    SizeLabelRoundTrip(15, 30);
  }

  lemma ShownMenuNumbers()
    ensures ShowNat(10) + SizeSeparator + ShowNat(20) == "10 x 20"
    ensures ShowNat(15) + SizeSeparator + ShowNat(15) == "15 x 15"
    ensures ShowNat(15) + SizeSeparator + ShowNat(30) == "15 x 30"
  {
    ShownTwoDigits(1, 0);
    ShownTwoDigits(1, 5);
    ShownTwoDigits(2, 0);
    ShownTwoDigits(3, 0);
  }

  /** The numeral of a two-digit number is its two digits. */
  lemma ShownTwoDigits(tens: nat, units: nat)
    requires 1 <= tens <= 9 && units <= 9
    ensures ShowNat(10 * tens + units)
            == [('0' as int + tens) as char, ('0' as int + units) as char]
  {
    var n := 10 * tens + units;
    assert n / 10 == tens && n % 10 == units;
    assert ShowNat(tens) == [('0' as int + tens) as char];
  }

  // ---------------------------------------------------------------------
  // Whole sessions

  /** Everything that reaches the window: the File menu items, a size menu
      item, a key press, focus changes and board notifications. */
  datatype GuiEvent =
    | NewGameChosen
    | EndGameChosen
    | SizeChosen(text: string)
    | KeyPressed(key: int)
    | FocusGain
    | FocusLoss
    | BoardNotified(n: Notification)

  /** The window's session after one event. A cleared-rows notification
      leaves the session as it is: the timer's delay the statistics panel sets
      then is not tracked here, so `delay` in a `Run` is the one the window
      itself last set. */
  function Next(s: Session, e: GuiEvent): Session
  {
    match e
    case NewGameChosen => AfterStartGame(s)
    case EndGameChosen => AfterEndGame(s)
    case SizeChosen(text) => if ParseSizeLabel(text).Dimensions? then AfterStartGame(s) else s
    case KeyPressed(key) => AfterKey(s, key)
    case FocusGain => AfterFocusGained(s)
    case FocusLoss => AfterFocusLost(s)
    case BoardNotified(n) => if n.GameOverFlag? then AfterEndGame(s) else s
  }

  function Run(s: Session, es: seq<GuiEvent>): Session
    decreases |es|
  {
    if |es| == 0 then s else Run(Next(s, es[0]), es[1..])
  }

  /** The menus fit the session and a finished game's timer is stopped. */
  predicate Consistent(s: Session)
  {
    MenusAgree(s) && (s.gameOver ==> !s.running)
  }

  /** The window as `start()` shows it: no game yet, the timer stopped at its
      initial delay, the menus switched to fit. */
  function Launched(): (s: Session)
    ensures Consistent(s) && s.gameOver && s.newGameEnabled && !s.endGameEnabled
  {
    SwitchMenus(Session(true, false, DefaultInitialDelay, true, true, true))
  }

  /** Every event keeps the session consistent, so from launch on exactly one of
      "End Game" and "New Game" is enabled, and no timer runs once a game is over. */
  lemma {:induction false} RunKeepsConsistent(s: Session, es: seq<GuiEvent>)
    requires Consistent(s)
    ensures Consistent(Run(s, es))
    decreases |es|
  {
    if |es| > 0 {
      var t := Next(s, es[0]);
      assert Consistent(t);
      RunKeepsConsistent(t, es[1..]);
    }
  }

  // ---------------------------------------------------------------------
  // The window

  class TetrisGui {
    var board: Board
    const timer: Timer
    var isGameOver: bool
    var endGameEnabled: bool
    var newGameEnabled: bool
    var sizeMenuEnabled: bool

    function State(): Session
      reads this, timer
    {
      Session(isGameOver, timer.running, timer.delay, endGameEnabled, newGameEnabled, sizeMenuEnabled)
    }

    /** A new window: no game yet, the timer stopped, and every menu item
        enabled until `Start` switches them. */
    constructor (board: Board)
      ensures this.board == board && fresh(timer)
      ensures State() == Session(true, false, DefaultInitialDelay, true, true, true)
    {
      this.board := board;
      timer := new Timer(DefaultInitialDelay);
      isGameOver := true;
      endGameEnabled, newGameEnabled, sizeMenuEnabled := true, true, true;
    }

    /** `start`: shows the window with the menus switched to fit. */
    method Start()
      modifies this
      ensures State() == SwitchMenus(old(State())) && board == old(board)
    {
      SwitchFileMenuButtonsState();
    }

    method SwitchFileMenuButtonsState()
      modifies this
      ensures State() == SwitchMenus(old(State())) && board == old(board)
    {
      endGameEnabled := !isGameOver;
      newGameEnabled := isGameOver;
      sizeMenuEnabled := newGameEnabled;
    }

    method StartGame() returns (fired: seq<PropertyChange>)
      modifies this, timer, board
      ensures State() == AfterStartGame(old(State())) && board == old(board)
      ensures board.received == old(board.received) + [NewGame]
      ensures fired == [EndGameChanged(false)]
    {
      board.Perform(NewGame);
      var accepted := timer.SetDelay(DefaultInitialDelay);
      timer.Start();
      isGameOver := false;
      SwitchFileMenuButtonsState();
      fired := [EndGameChanged(false)];
    }

    method EndGame() returns (fired: seq<PropertyChange>)
      modifies this, timer
      ensures State() == AfterEndGame(old(State())) && board == old(board)
      ensures fired == [EndGameChanged(true)]
    {
      isGameOver := true;
      timer.Stop();
      SwitchFileMenuButtonsState();
      fired := [EndGameChanged(true)];
    }

    /** Reports the new paused flag: whether the timer is now stopped. */
    method PauseOrResumeGame() returns (fired: seq<PropertyChange>)
      modifies timer
      ensures State() == AfterPauseOrResume(old(State()))
      ensures fired == [PausedChanged(!timer.running)]
    {
      if timer.running && !isGameOver {
        timer.Stop();
      } else {
        timer.Start();
      }
      fired := [PausedChanged(!timer.running)];
    }

    /** A game-over notification ends the game, whatever flag it carries. */
    method Update(n: Notification) returns (fired: seq<PropertyChange>)
      modifies this, timer
      ensures State() == (if n.GameOverFlag? then AfterEndGame(old(State())) else old(State()))
      ensures board == old(board)
      ensures fired == (if n.GameOverFlag? then [EndGameChanged(true)] else [])
    {
      fired := [];
      if n.GameOverFlag? {
        fired := EndGame();
      }
    }

    method FocusGained() returns (fired: seq<PropertyChange>)
      modifies timer
      ensures State() == AfterFocusGained(old(State()))
      ensures fired == (if State() != old(State()) then [PausedChanged(false)] else [])
    {
      fired := [];
      if !timer.running && !isGameOver {
        timer.Start();
        fired := [PausedChanged(false)];
      }
    }

    method FocusLost() returns (fired: seq<PropertyChange>)
      modifies timer
      ensures State() == AfterFocusLost(old(State()))
      ensures fired == (if State() != old(State()) then [PausedChanged(true)] else [])
    {
      fired := [];
      if timer.running && !isGameOver {
        timer.Stop();
        fired := [PausedChanged(true)];
      }
    }

    /** A tick of the gravity timer moves the piece down; a stopped timer
        does not tick. */
    method TimerTick()
      modifies board
      ensures board.received == old(board.received) + (if timer.running then [Down] else [])
    {
      if timer.running {
        board.Perform(Down);
      }
    }

    /** `GameKeyListener.keyPressed`. */
    method KeyPressed(key: int) returns (fired: seq<PropertyChange>)
      modifies timer, board
      ensures State() == AfterKey(old(State()), key)
      ensures board.received == old(board.received) + KeyOps(old(State()), key)
      ensures fired == (if !isGameOver && key == KeyP then [PausedChanged(!timer.running)] else [])
    {
      fired := [];
      if !isGameOver {
        if key == KeyP {
          fired := PauseOrResumeGame();
        }
        if timer.running {
          if key == KeyLeft {
            board.Perform(Left);
          } else if key == KeyRight {
            board.Perform(Right);
          } else if key == KeyDown {
            board.Perform(Down);
          } else if key == KeySpace {
            board.Perform(Rotate);
          } else if key == KeyEnter {
            board.Perform(Drop);
          }
        }
      }
    }

    /** A size menu item: a new board of the label's width and height, announced
        as a "size" change, then a new game on it. A label that does not parse
        throws before anything changes. */
    method SelectSize(text: string) returns (parsed: SizeLabel, fired: seq<PropertyChange>)
      modifies this, timer
      ensures parsed == ParseSizeLabel(text)
      ensures parsed.Dimensions? ==>
                fresh(board) && board.width == parsed.width && board.height == parsed.height
                && board.received == [NewGame]
                && State() == AfterStartGame(old(State()))
                && fired == [SizeChanged(board), EndGameChanged(false)]
      ensures !parsed.Dimensions? ==>
                board == old(board) && State() == old(State()) && fired == []
    {
      parsed := ParseSizeLabel(text);
      fired := [];
      if parsed.Dimensions? {
        board := new Board(parsed.width, parsed.height);
        var started := StartGame();
        fired := [SizeChanged(board)] + started;
      }
    }
  }
}

/** The statistics panel: it counts the lines the board reports cleared,
    scores them, derives the difficulty level and sets the gravity timer's
    delay from it, and keeps the five message lines it paints. */
module GameStats {

  import opened Events

  const FourLinesClearedScore: nat := 800
  const OneLineClearedScore: nat := 100
  const LinesClearedForBonus: nat := 4
  const LinesPerLevel: nat := 5
  const InitialDelay: int := 1000
  const DelayStepPerLevel: int := 75

  /** `getLevel`: level 1 to begin with, one more for every five lines cleared. */
  function Level(lines: nat): (level: nat)
    ensures level >= 1
    ensures level * LinesPerLevel <= lines + LinesPerLevel < (level + 1) * LinesPerLevel
  {
    1 + lines / LinesPerLevel
  }

  /** The points one notification of `rows` cleared rows is worth. */
  function ScoreGain(rows: nat): (points: nat)
    ensures points == 0 <==> rows == 0
    ensures OneLineClearedScore * rows <= points <= 2 * OneLineClearedScore * rows
    ensures rows > 0 ==> (points == 2 * OneLineClearedScore * rows <==> rows == LinesClearedForBonus)
  {
    if rows == LinesClearedForBonus then FourLinesClearedScore else OneLineClearedScore * rows
  }

  /** The delay the timer is given once `lines` lines are cleared in all. */
  function DelayFor(lines: nat): (delay: int)
    ensures delay <= InitialDelay
    ensures (InitialDelay - delay) % DelayStepPerLevel == 0
    ensures lines < LinesPerLevel <==> delay == InitialDelay
  {
    InitialDelay - lines / LinesPerLevel * DelayStepPerLevel
  }

  /** The "Lines until next level" message: that many more lines, and not one
      fewer, raise the level. */
  function LinesUntilNextLevel(lines: nat): (count: nat)
    ensures 1 <= count <= LinesPerLevel
    ensures Level(lines + count) == Level(lines) + 1
    ensures forall m :: lines <= m < lines + count ==> Level(m) == Level(lines)
  {
    LinesPerLevel - lines % LinesPerLevel
  }

  /** Adding `rows` lines raises the level exactly when they reach the count
      the panel shows as "Lines until next level". */
  lemma LevelUpIff(lines: nat, rows: nat)
    ensures Level(lines + rows) > Level(lines) <==> rows >= LinesUntilNextLevel(lines)
  {
    var count := LinesUntilNextLevel(lines);
    if rows >= count {
      LevelMonotone(lines + count, lines + rows);
    }
  }

  /** The level never decreases as lines accumulate. */
  lemma LevelMonotone(a: nat, b: nat)
    requires a <= b
    ensures Level(a) <= Level(b)
  {
    var qa, qb := a / LinesPerLevel, b / LinesPerLevel;
    assert qa * LinesPerLevel <= a;
    assert b < (qb + 1) * LinesPerLevel;
  }

  /** Five more lines are exactly one more level. */
  lemma LevelStep(lines: nat)
    ensures Level(lines + LinesPerLevel) == Level(lines) + 1
  {
  }

  /** The delay is the initial one less one step per level above the first. */
  lemma DelayFollowsLevel(lines: nat)
    ensures DelayFor(lines) == InitialDelay - (Level(lines) - 1) * DelayStepPerLevel
  {
  }

  /** More lines never lengthen the delay. */
  lemma DelayNonIncreasing(a: nat, b: nat)
    requires a <= b
    ensures DelayFor(b) <= DelayFor(a)
  {
    LevelMonotone(a, b);
    DelayFollowsLevel(a);
    DelayFollowsLevel(b);
  }

  /** No floor is applied: the delay stays positive up to 69 lines and turns
      negative from 70 lines on. */
  lemma DelayNegativeFrom70(lines: nat)
    ensures DelayFor(lines) < 0 <==> lines >= 70
    ensures lines < 70 ==> DelayFor(lines) >= 25
  {
    DelayFollowsLevel(lines);
    if lines >= 70 {
      LevelMonotone(70, lines);
    } else {
      LevelMonotone(lines, 69);
    }
  }

  /** The scoring rules: 800 for four rows at once, otherwise 100 per row, so
      four rows at once are worth twice as much as four single rows. */
  lemma ScoringRules(rows: nat)
    ensures rows == 0 ==> ScoreGain(rows) == 0
    ensures 1 <= rows <= 3 ==> ScoreGain(rows) == 100 * rows
    ensures rows == 4 ==> ScoreGain(rows) == 2 * (4 * ScoreGain(1))
    ensures rows != 4 ==> ScoreGain(rows) == rows * ScoreGain(1)
  {
  }

  /** The sounds the panel plays: the level-up sound, then either the bonus
      sound or the line-cleared sound. */
  datatype Sound = LevelUpSound | BonusPointsSound | OneLineClearedSound

  /** The sounds for `rows` rows cleared after `lines` lines. */
  function SoundsFor(lines: nat, rows: nat): (sounds: seq<Sound>)
    ensures LevelUpSound in sounds <==> rows >= LinesUntilNextLevel(lines)
    ensures (BonusPointsSound in sounds) == (rows == LinesClearedForBonus) != (OneLineClearedSound in sounds)
  {
    LevelUpIff(lines, rows);
    (if Level(lines + rows) > Level(lines) then [LevelUpSound] else [])
      + (if rows == LinesClearedForBonus then [BonusPointsSound] else [OneLineClearedSound])
  }

  /** The counters the panel keeps for the current game. */
  datatype Stats = Stats(score: nat, lines: nat)

  /** One board notification: only a cleared-rows notification counts, adding
      its length to the lines and its points to the score. */
  function Receive(s: Stats, n: Notification): (r: Stats)
    ensures r.lines >= s.lines && r.score >= s.score
    ensures !n.ClearedRows? ==> r == s
    ensures n.ClearedRows? ==> r.lines - s.lines == |n.rows|
  {
    match n
    case ClearedRows(rows) => Stats(s.score + ScoreGain(|rows|), s.lines + |rows|)
    case _ => s
  }

  /** Notifications received one after the other. */
  function ReceiveAll(s: Stats, ns: seq<Notification>): Stats
    decreases |ns|
  {
    if |ns| == 0 then s else ReceiveAll(Receive(s, ns[0]), ns[1..])
  }

  /** The rows of all cleared-rows notifications in `ns`. */
  function RowsIn(ns: seq<Notification>): nat
    decreases |ns|
  {
    if |ns| == 0 then 0
    else (if ns[0].ClearedRows? then |ns[0].rows| else 0) + RowsIn(ns[1..])
  }

  /** The points of all cleared-rows notifications in `ns`. */
  function PointsIn(ns: seq<Notification>): nat
    decreases |ns|
  {
    if |ns| == 0 then 0
    else (if ns[0].ClearedRows? then ScoreGain(|ns[0].rows|) else 0) + PointsIn(ns[1..])
  }

  /** Over a game the lines cleared are the rows reported and the score is the
      points earned, so neither counter ever decreases. */
  lemma {:induction false} ReceiveAllTotals(s: Stats, ns: seq<Notification>)
    ensures ReceiveAll(s, ns).lines == s.lines + RowsIn(ns)
    ensures ReceiveAll(s, ns).score == s.score + PointsIn(ns)
    decreases |ns|
  {
    if |ns| > 0 {
      ReceiveAllTotals(Receive(s, ns[0]), ns[1..]);
    }
  }

  /** One painted message: a caption followed by a decimal value. */
  datatype StatLine = StatLine(caption: string, value: int)

  /** The five messages, in the order they are painted. */
  function StatMessages(score: nat, lines: nat, delay: int): (m: seq<StatLine>)
    ensures |m| == 5
    ensures m[0].value == score && m[1].value == lines && m[4].value == delay
    ensures 1 <= m[2].value <= LinesPerLevel && m[3].value >= 1
  {
    [ StatLine("Current Score:                 ", score),
      StatLine("Lines Cleared:                 ", lines),
      StatLine("Lines until next level:     ", LinesUntilNextLevel(lines)),
      StatLine("Current Level:                ", Level(lines)),
      StatLine("Current timer delay:       ", delay) ]
  }

  class GameStatsPanel {
    var score: nat
    var linesCleared: nat
    var messages: seq<StatLine>
    const timer: Timer

    function State(): Stats
      reads this
    {
      Stats(score, linesCleared)
    }

    constructor (timer: Timer)
      ensures this.timer == timer && score == 0 && linesCleared == 0
      ensures messages == StatMessages(0, 0, timer.delay)
    {
      this.timer := timer;
      score := 0;
      linesCleared := 0;
      new;
      UpdateStatMessageList();
    }

    /** Refill the message list from the counters and the timer's delay. */
    method UpdateStatMessageList()
      modifies this
      ensures messages == StatMessages(score, linesCleared, timer.delay)
      ensures score == old(score) && linesCleared == old(linesCleared)
    {
      messages := [];
      messages := messages + [StatLine("Current Score:                 ", score)];
      messages := messages + [StatLine("Lines Cleared:                 ", linesCleared)];
      messages := messages + [StatLine("Lines until next level:     ",
                                       LinesPerLevel - linesCleared % LinesPerLevel)];
      messages := messages + [StatLine("Current Level:                ", Level(linesCleared))];
      messages := messages + [StatLine("Current timer delay:       ", timer.delay)];
    }

    /** An "endGame" change to true zeroes the counters but keeps the old
        messages, so the final score stays on screen; every other change
        refreshes the messages. */
    method PropertyChange(p: PropertyChange)
      modifies this
      ensures p == EndGameChanged(true) ==>
                score == 0 && linesCleared == 0 && messages == old(messages)
      ensures p != EndGameChanged(true) ==>
                State() == old(State()) && messages == StatMessages(score, linesCleared, timer.delay)
    {
      if p.EndGameChanged? {
        if p.ended {
          linesCleared := 0;
          score := 0;
        } else {
          UpdateStatMessageList();
        }
      } else {
        UpdateStatMessageList();
      }
    }

    /** A cleared-rows notification adds its rows and points, plays its
        sounds, sets the timer's delay from the new line count and refreshes
        the messages; any other notification changes nothing. From 70 lines on
        the new delay is negative: the timer refuses it with an exception
        (`completed` is false), so the delay and the messages stay as they
        were while the counters and sounds have already changed. */
    method Update(n: Notification) returns (sounds: seq<Sound>, completed: bool)
      modifies this, timer
      ensures State() == Receive(old(State()), n)
      ensures timer.running == old(timer.running)
      ensures n.ClearedRows? ==>
                sounds == SoundsFor(old(linesCleared), |n.rows|)
                && (completed <==> linesCleared < 70)
      ensures n.ClearedRows? && completed ==>
                timer.delay == DelayFor(linesCleared)
                && messages == StatMessages(score, linesCleared, timer.delay)
      ensures n.ClearedRows? && !completed ==>
                timer.delay == old(timer.delay) && messages == old(messages)
      ensures !n.ClearedRows? ==>
                completed && timer.delay == old(timer.delay) && messages == old(messages)
                && sounds == []
    {
      sounds := [];
      completed := true;
      if n.ClearedRows? {
        var rows := |n.rows|;
        var oldLevel := Level(linesCleared);
        linesCleared := linesCleared + rows;
        if Level(linesCleared) > oldLevel {
          sounds := sounds + [LevelUpSound];
        }
        if rows == LinesClearedForBonus {
          score := score + FourLinesClearedScore;
          sounds := sounds + [BonusPointsSound];
        } else {
          score := score + OneLineClearedScore * rows;
          sounds := sounds + [OneLineClearedSound];
        }
        completed := timer.SetDelay(InitialDelay - linesCleared / LinesPerLevel * DelayStepPerLevel);
        DelayNegativeFrom70(linesCleared);
        if completed {
          UpdateStatMessageList();
        }
      }
    }
  }
}

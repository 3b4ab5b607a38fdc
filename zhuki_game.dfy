/**
 * The round engine of the Zhuki variant (zhuki/ui/screens/GameScreen.kt).
 * The composable keeps its round in the state variables `bugs`, `score`,
 * `timeLeft`, `gameOver` and `scoreSaved`; each effect or event handler that
 * reassigns them is one method of `Round`. Bug motion and hit-testing are
 * the pure functions below. Random numbers are parameters (`Roll`).
 */
module ZhukiGame {
  import opened Wrappers
  import opened ZhukiSettings
  import opened Numeric

  /** Side of a bug's square in pixels, the `sizePx` default. */
  const BugSize: real := 144.0

  datatype Bug = Bug(x: real, y: real, vx: real, vy: real, sizePx: real)

  /** Two `Random.nextFloat()` draws, for the x and y of a new bug. */
  datatype Roll = Roll(rx: real, ry: real)

  predicate UnitRoll(r: Roll) { 0.0 <= r.rx < 1.0 && 0.0 <= r.ry < 1.0 }

  /** The area is at least one bug wide and high, so the clamp of the step is defined. */
  predicate Fits(b: Bug, width: real, height: real) { b.sizePx <= width && b.sizePx <= height }

  /** The bug's square lies wholly inside the area. */
  predicate InArea(b: Bug, width: real, height: real)
  {
    0.0 <= b.x <= width - b.sizePx && 0.0 <= b.y <= height - b.sizePx
  }

  predicate LeavesX(b: Bug, width: real) { b.x + b.vx < 0.0 || b.x + b.vx > width - b.sizePx }
  predicate LeavesY(b: Bug, height: real) { b.y + b.vy < 0.0 || b.y + b.vy > height - b.sizePx }

  /**
   * One tick of one bug: move by the velocity; on an axis where the tentative
   * coordinate leaves the area the velocity flips, and the bug is put on the
   * wall it crossed.
   */
  function MoveBug(b: Bug, width: real, height: real): (r: Bug)
    requires Fits(b, width, height)
    ensures InArea(r, width, height) && r.sizePx == b.sizePx
    ensures LeavesX(b, width) ==> r.vx == -b.vx && r.x == (if b.x + b.vx < 0.0 then 0.0 else width - b.sizePx)
    ensures !LeavesX(b, width) ==> r.vx == b.vx && r.x == b.x + b.vx
    ensures LeavesY(b, height) ==> r.vy == -b.vy && r.y == (if b.y + b.vy < 0.0 then 0.0 else height - b.sizePx)
    ensures !LeavesY(b, height) ==> r.vy == b.vy && r.y == b.y + b.vy
  {
    var newX, newY := b.x + b.vx, b.y + b.vy;
    var newVx := if newX < 0.0 || newX > width - b.sizePx then -b.vx else b.vx;
    var newVy := if newY < 0.0 || newY > height - b.sizePx then -b.vy else b.vy;
    b.(x := Clamp(newX, 0.0, width - b.sizePx), y := Clamp(newY, 0.0, height - b.sizePx), vx := newVx, vy := newVy)
  }

  predicate AllFit(bugs: seq<Bug>, width: real, height: real)
  {
    forall i :: 0 <= i < |bugs| ==> Fits(bugs[i], width, height)
  }

  predicate AllInArea(bugs: seq<Bug>, width: real, height: real)
  {
    forall i :: 0 <= i < |bugs| ==> InArea(bugs[i], width, height)
  }

  /** The tick of the motion loop: every bug moves once; count, order and sizes are kept. */
  function StepBugs(bugs: seq<Bug>, width: real, height: real): (r: seq<Bug>)
    requires AllFit(bugs, width, height)
    ensures |r| == |bugs| && AllInArea(r, width, height) && AllFit(r, width, height)
    ensures forall i :: 0 <= i < |r| ==> r[i] == MoveBug(bugs[i], width, height)
  {
    seq(|bugs|, i requires 0 <= i < |bugs| => MoveBug(bugs[i], width, height))
  }

  /** `n` ticks of the motion loop in a row. */
  function StepBugsTimes(bugs: seq<Bug>, width: real, height: real, n: nat): seq<Bug>
    requires AllFit(bugs, width, height)
    decreases n
  {
    if n == 0 then bugs else StepBugsTimes(StepBugs(bugs, width, height), width, height, n - 1)
  }

  /** No bug ever escapes: after any positive number of ticks all bugs are inside the area, wherever they started. */
  lemma {:induction false} NoBugEscapes(bugs: seq<Bug>, width: real, height: real, n: nat)
    requires AllFit(bugs, width, height) && n > 0
    ensures |StepBugsTimes(bugs, width, height, n)| == |bugs|
    ensures AllInArea(StepBugsTimes(bugs, width, height, n), width, height)
    decreases n
  {
    var next := StepBugs(bugs, width, height);
    if n > 1 {
      NoBugEscapes(next, width, height, n - 1);
    }
  }

  /** The closed square of the bug contains the tap. */
  predicate Covers(b: Bug, px: real, py: real)
  {
    b.x <= px <= b.x + b.sizePx && b.y <= py <= b.y + b.sizePx
  }

  /** `indexOfFirst` of the tap handler: the first bug whose square holds the tap, or -1. */
  function FirstHit(bugs: seq<Bug>, px: real, py: real): (i: int)
    ensures -1 <= i < |bugs|
    ensures i == -1 <==> forall j :: 0 <= j < |bugs| ==> !Covers(bugs[j], px, py)
    ensures 0 <= i ==> Covers(bugs[i], px, py) && forall j :: 0 <= j < i ==> !Covers(bugs[j], px, py)
  {
    if bugs == [] then -1
    else if Covers(bugs[0], px, py) then 0
    else var k := FirstHit(bugs[1..], px, py); if k == -1 then -1 else k + 1
  }

  /** `randomVelocity`: despite its name, always five times the game speed. */
  function RandomVelocity(speed: real): real
  {
    5.0 * speed
  }

  /** `randomBug`: a full-size bug at a random point of the area, moving diagonally at the round's speed. */
  function RandomBug(width: real, height: real, speed: real, roll: Roll): (b: Bug)
    ensures b.sizePx == BugSize && b.vx == b.vy == RandomVelocity(speed)
    ensures UnitRoll(roll) && width >= BugSize && height >= BugSize ==> InArea(b, width, height)
  {
    var spanX, spanY := width - BugSize, height - BugSize;
    ScaledFraction(roll.rx, spanX);
    ScaledFraction(roll.ry, spanY);
    Bug(roll.rx * spanX, roll.ry * spanY, RandomVelocity(speed), RandomVelocity(speed), BugSize)
  }

  /** `List(n) { randomBug(...) }`, one roll per bug. */
  function NewBugs(width: real, height: real, speed: real, rolls: seq<Roll>): (r: seq<Bug>)
    ensures |r| == |rolls|
    ensures forall i :: 0 <= i < |r| ==> r[i] == RandomBug(width, height, speed, rolls[i])
    ensures (forall i :: 0 <= i < |rolls| ==> UnitRoll(rolls[i])) && width >= BugSize && height >= BugSize ==>
      AllInArea(r, width, height)
  {
    seq(|rolls|, i requires 0 <= i < |rolls| => RandomBug(width, height, speed, rolls[i]))
  }

  /** The player of the Zhuki variant, as far as a saved score needs it. */
  datatype Player = Player(fullName: string, gender: string, course: string, difficultyLevel: int, zodiacSign: string)

  /** A row of `score_records`; `id` 0 asks the database to assign one. */
  datatype ScoreRecord = ScoreRecord(id: int, playerName: string, score: int, difficultyLevel: int,
                                     date: int, course: string, zodiacSign: string)

  /** The state of one `GameScreen` composition: the settings it was given and its state variables. */
  class Round {
    var settings: GameSettings
    var bugs: seq<Bug>
    var score: int
    var timeLeft: int
    var gameOver: bool
    var scoreSaved: bool

    /** The score never goes negative; the bug count is a valid list size. */
    ghost predicate Valid()
      reads this
    {
      score >= 0 && settings.maxCockroaches >= 0
    }

    /** Entering composition: no bugs yet, score 0, the full round ahead. */
    constructor (settings: GameSettings)
      requires settings.maxCockroaches >= 0
      ensures Valid()
      ensures this.settings == settings && bugs == [] && score == 0
      ensures timeLeft == settings.roundDuration && !gameOver && !scoreSaved
    {
      this.settings := settings;
      bugs := [];
      score := 0;
      timeLeft := settings.roundDuration;
      gameOver := false;
      scoreSaved := false;
    }

    /** The effect keyed on the area size: the first time the area is known, populate it with `maxCockroaches` bugs. */
    method OnAreaMeasured(width: real, height: real, rolls: seq<Roll>)
      requires Valid() && |rolls| == settings.maxCockroaches
      modifies this`bugs
      ensures Valid()
      ensures old(bugs) == [] && width > 0.0 && height > 0.0 ==> bugs == NewBugs(width, height, settings.gameSpeed, rolls)
      ensures !(old(bugs) == [] && width > 0.0 && height > 0.0) ==> bugs == old(bugs)
    {
      if bugs == [] && width > 0.0 && height > 0.0 {
        bugs := NewBugs(width, height, settings.gameSpeed, rolls);
      }
    }

    /**
     * The effect keyed on the settings. A new round duration re-creates
     * `timeLeft` at that duration (the `remember` key), then the time left is
     * capped by it; the bug list is cut to `maxCockroaches` or, when the area
     * is known, topped up to it; and every bug gets the velocity of the new speed.
     */
    method OnSettingsChanged(newSettings: GameSettings, width: real, height: real, rolls: seq<Roll>)
      requires Valid() && newSettings.maxCockroaches >= 0
      requires |rolls| == Max(0, newSettings.maxCockroaches - |bugs|)
      modifies this`settings, this`timeLeft, this`bugs
      ensures Valid() && settings == newSettings
      ensures timeLeft == Min(if old(settings.roundDuration) != newSettings.roundDuration then newSettings.roundDuration else old(timeLeft),
                              newSettings.roundDuration)
      ensures timeLeft <= settings.roundDuration
      ensures old(|bugs|) > newSettings.maxCockroaches ==> |bugs| == newSettings.maxCockroaches
      ensures old(|bugs|) < newSettings.maxCockroaches ==>
        |bugs| == (if width > 0.0 && height > 0.0 then newSettings.maxCockroaches else old(|bugs|))
      ensures old(|bugs|) == newSettings.maxCockroaches ==> |bugs| == old(|bugs|)
      ensures forall i :: 0 <= i < |bugs| ==> bugs[i].vx == bugs[i].vy == RandomVelocity(newSettings.gameSpeed)
      ensures forall i :: 0 <= i < |bugs| && i < old(|bugs|) ==>
        bugs[i] == old(bugs)[i].(vx := RandomVelocity(newSettings.gameSpeed), vy := RandomVelocity(newSettings.gameSpeed))
      ensures forall i :: old(|bugs|) <= i < |bugs| ==>
        bugs[i] == RandomBug(width, height, newSettings.gameSpeed, rolls[i - old(|bugs|)])
    {
      if newSettings.roundDuration != settings.roundDuration {
        timeLeft := newSettings.roundDuration;
      }
      settings := newSettings;
      timeLeft := Min(timeLeft, settings.roundDuration);
      var diff := settings.maxCockroaches - |bugs|;
      if diff > 0 && width > 0.0 && height > 0.0 {
        bugs := bugs + NewBugs(width, height, settings.gameSpeed, rolls);
      } else if diff < 0 {
        bugs := bugs[..settings.maxCockroaches];
      }
      var v, resized := RandomVelocity(settings.gameSpeed), bugs;
      assert forall i :: 0 <= i < |resized| && i < old(|bugs|) ==> resized[i] == old(bugs)[i];
      bugs := seq(|resized|, i requires 0 <= i < |resized| => resized[i].(vx := v, vy := v));
    }

    /** One pass of the motion loop: while the round runs, every bug takes one step. */
    method Tick(width: real, height: real)
      requires Valid() && AllFit(bugs, width, height)
      modifies this`bugs
      ensures Valid()
      ensures !old(gameOver) ==> bugs == StepBugs(old(bugs), width, height) && AllInArea(bugs, width, height)
      ensures old(gameOver) ==> bugs == old(bugs)
    {
      if !gameOver {
        bugs := StepBugs(bugs, width, height);
      }
    }

    /** The countdown effect: one second off while time is left; at zero the game is over; a finished game stays put. */
    method CountdownTick()
      requires Valid()
      modifies this`timeLeft, this`gameOver
      ensures Valid()
      ensures old(gameOver) ==> gameOver && timeLeft == old(timeLeft)
      ensures !old(gameOver) && old(timeLeft) > 0 ==> timeLeft == old(timeLeft) - 1 && !gameOver
      ensures !old(gameOver) && old(timeLeft) <= 0 ==> gameOver && timeLeft == old(timeLeft)
    {
      if !gameOver {
        if timeLeft > 0 {
          timeLeft := timeLeft - 1;
        } else {
          gameOver := true;
        }
      }
    }

    /**
     * The tap handler, present only while the game is not over: the first bug
     * under the tap is replaced by a fresh one and scores a point; a tap on no
     * bug costs a point, but never below zero.
     */
    method OnTap(px: real, py: real, width: real, height: real, roll: Roll)
      requires Valid()
      modifies this`score, this`bugs
      ensures Valid()
      ensures old(gameOver) ==> score == old(score) && bugs == old(bugs)
      ensures !old(gameOver) && FirstHit(old(bugs), px, py) >= 0 ==>
        var i := FirstHit(old(bugs), px, py);
        score == old(score) + 1 &&
        bugs == old(bugs)[i := RandomBug(width, height, settings.gameSpeed, roll)]
      ensures !old(gameOver) && FirstHit(old(bugs), px, py) == -1 ==>
        score == Max(0, old(score) - 1) && bugs == old(bugs)
    {
      if !gameOver {
        var clicked := FirstHit(bugs, px, py);
        if clicked != -1 {
          score := score + 1;
          bugs := bugs[clicked := RandomBug(width, height, settings.gameSpeed, roll)];
        } else {
          score := Max(0, score - 1);
        }
      }
    }

    /** The "play again" button of the game-over screen: a fresh round with exactly `maxCockroaches` new bugs. */
    method PlayAgain(width: real, height: real, rolls: seq<Roll>)
      requires Valid() && |rolls| == settings.maxCockroaches
      modifies this`bugs, this`score, this`timeLeft, this`gameOver, this`scoreSaved
      ensures Valid()
      ensures old(gameOver) ==>
        bugs == NewBugs(width, height, settings.gameSpeed, rolls) && |bugs| == settings.maxCockroaches &&
        score == 0 && timeLeft == settings.roundDuration && !gameOver && !scoreSaved
      ensures !old(gameOver) ==>
        bugs == old(bugs) && score == old(score) && timeLeft == old(timeLeft) && !gameOver && scoreSaved == old(scoreSaved)
    {
      if gameOver {
        bugs := NewBugs(width, height, settings.gameSpeed, rolls);
        score := 0;
        timeLeft := settings.roundDuration;
        gameOver := false;
        scoreSaved := false;
      }
    }

    /**
     * The effect keyed on `gameOver`: once per finished game of a registered
     * player, the score is written; `inserted` is whether the insert succeeded
     * (a failure is swallowed and leaves `scoreSaved` false).
     */
    method SaveScore(player: Player, now: int, inserted: bool) returns (record: Option<ScoreRecord>)
      requires Valid()
      modifies this`scoreSaved
      ensures Valid()
      ensures old(gameOver && !scoreSaved) && |player.fullName| > 0 ==>
        record == Some(ScoreRecord(0, player.fullName, score, player.difficultyLevel, now, player.course, player.zodiacSign)) &&
        scoreSaved == inserted
      ensures !(old(gameOver && !scoreSaved) && |player.fullName| > 0) ==> record == None && scoreSaved == old(scoreSaved)
    {
      record := None;
      if gameOver && !scoreSaved && |player.fullName| > 0 {
        record := Some(ScoreRecord(0, player.fullName, score, player.difficultyLevel, now, player.course, player.zodiacSign));
        if inserted {
          scoreSaved := true;
        }
      }
    }
  }
}

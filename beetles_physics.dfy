/**
 * Beetle motion of the Beetles variant, one frame of `updateGame`
 * (beetles/viewmodel/GameViewModel.kt:260-323) and the placement of a new
 * beetle (`spawnBeetle`, 325-344), as functions on beetle values. The view
 * model applies them to its beetle list in `BeetlesGame`.
 *
 * Random angles enter as the cosine and sine of the drawn angle, and every
 * `Random.nextFloat()` as a parameter in [0, 1).
 */
module BeetlesPhysics {
  import opened Numeric

  const BeetleSize: real := 80.0
  const TopBarHeight: real := 80.0
  const BottomBarHeight: real := 80.0
  /** Bound of a gravity speed in bonus mode. */
  const GravityLimit: real := 20.0
  /** Share of the gravity speed kept, reversed, by a bounce (written out in the bounce itself). */
  const BounceFactor: real := 0.7
  /** Share of the gravity speed kept per frame outside bonus mode. */
  const GravityDecay: real := 0.9
  /** Share of the tilt added to the gravity speed per frame in bonus mode. */
  const TiltGain: real := 0.1
  /** Seconds taken off the heading timer per frame. */
  const FrameSeconds: real := 0.016
  /** Distance from the walls inside which a beetle does not change heading. */
  const EdgeMargin: real := 20.0
  /** Beetle speed per unit of game speed. */
  const SpeedFactor: real := 2.5

  /** A beetle. Its `rotation` and `lifeTime` only feed the drawing and are not modelled. */
  datatype Beetle = Beetle(id: int, x: real, y: real, speedX: real, speedY: real,
                           gravitySpeedX: real, gravitySpeedY: real, directionChangeTimer: real, isAlive: bool)

  /**
   * What a frame reads from the view model: the screen, whether bonus mode is
   * on and the tilt, the tier's heading interval and the round's game speed.
   */
  datatype Frame = Frame(width: real, height: real, bonusMode: bool, gravityX: real, gravityY: real,
                         interval: real, gameSpeed: real)

  /** The draws of a heading change: cosine and sine of the new angle, and the timer's `nextFloat()`. */
  datatype Turn = Turn(cosA: real, sinA: real, roll: real)

  /** The draws of a spawn: a heading, and the `nextFloat()` for each coordinate. */
  datatype SpawnRoll = SpawnRoll(heading: Turn, rx: real, ry: real)

  predicate UnitRoll(r: real) { 0.0 <= r < 1.0 }

  /** The screen holds a beetle between the bars; exactly then the clamps of a bounce are defined. */
  predicate AreaFits(width: real, height: real)
  {
    BeetleSize <= width && TopBarHeight + BeetleSize + BottomBarHeight <= height
  }

  function MaxX(width: real): real { width - BeetleSize }
  function MaxY(height: real): real { height - BottomBarHeight - BeetleSize }

  /** The beetle's top-left corner is in [0, W−80]×[80, H−160]. */
  predicate InPlayfield(b: Beetle, width: real, height: real)
  {
    0.0 <= b.x <= MaxX(width) && TopBarHeight <= b.y <= MaxY(height)
  }

  predicate GravityBounded(b: Beetle)
  {
    -GravityLimit <= b.gravitySpeedX <= GravityLimit && -GravityLimit <= b.gravitySpeedY <= GravityLimit
  }

  /** Far enough from every wall for a heading change. */
  predicate AwayFromWalls(b: Beetle, width: real, height: real)
  {
    EdgeMargin < b.x < MaxX(width) - EdgeMargin && TopBarHeight + EdgeMargin < b.y < MaxY(height) - EdgeMargin
  }

  /** Outside bonus mode, the heading changes when the timer has run out away from the walls. */
  predicate Turns(b: Beetle, f: Frame)
  {
    !f.bonusMode && b.directionChangeTimer - FrameSeconds <= 0.0 && AwayFromWalls(b, f.width, f.height)
  }

  /**
   * The first half of a frame (266-290): in bonus mode the tilt feeds the
   * gravity speeds, bounded by ±20, and the heading timer is held at the
   * interval; otherwise the gravity speeds decay and the timer runs down,
   * and a timer run out away from the walls draws a new heading.
   */
  function Steer(b: Beetle, f: Frame, t: Turn): (r: Beetle)
    ensures r.id == b.id && r.x == b.x && r.y == b.y && r.isAlive == b.isAlive
    ensures f.bonusMode ==>
      r.gravitySpeedX == Clamp(b.gravitySpeedX + f.gravityX * TiltGain, -GravityLimit, GravityLimit) &&
      r.gravitySpeedY == Clamp(b.gravitySpeedY - f.gravityY * TiltGain, -GravityLimit, GravityLimit) &&
      r.directionChangeTimer == f.interval && r.speedX == b.speedX && r.speedY == b.speedY
    ensures !f.bonusMode ==>
      r.gravitySpeedX == GravityDecay * b.gravitySpeedX && r.gravitySpeedY == GravityDecay * b.gravitySpeedY
    ensures Turns(b, f) ==>
      r.speedX == t.cosA * (f.gameSpeed * SpeedFactor) && r.speedY == t.sinA * (f.gameSpeed * SpeedFactor) &&
      r.directionChangeTimer == t.roll * 2.0 + f.interval
    ensures !f.bonusMode && !Turns(b, f) ==>
      r.speedX == b.speedX && r.speedY == b.speedY && r.directionChangeTimer == b.directionChangeTimer - FrameSeconds
    ensures f.bonusMode || GravityBounded(b) ==> GravityBounded(r)
  {
    if f.bonusMode then
      b.(gravitySpeedX := Clamp(b.gravitySpeedX + f.gravityX * TiltGain, -GravityLimit, GravityLimit),
         gravitySpeedY := Clamp(b.gravitySpeedY + -f.gravityY * TiltGain, -GravityLimit, GravityLimit),
         directionChangeTimer := f.interval)
    else
      var decayed := b.(gravitySpeedX := b.gravitySpeedX * GravityDecay, gravitySpeedY := b.gravitySpeedY * GravityDecay,
                        directionChangeTimer := b.directionChangeTimer - FrameSeconds);
      if decayed.directionChangeTimer <= 0.0 && AwayFromWalls(decayed, f.width, f.height) then
        var speed := f.gameSpeed * SpeedFactor;
        decayed.(speedX := t.cosA * speed, speedY := t.sinA * speed, directionChangeTimer := t.roll * 2.0 + f.interval)
      else decayed
  }

  /** A drawn heading on the unit circle gives the round's pace, whatever the angle. */
  lemma TurnKeepsPace(b: Beetle, f: Frame, t: Turn)
    requires Turns(b, f) && t.cosA * t.cosA + t.sinA * t.sinA == 1.0
    ensures var r := Steer(b, f, t);
      r.speedX * r.speedX + r.speedY * r.speedY == (f.gameSpeed * SpeedFactor) * (f.gameSpeed * SpeedFactor)
  {
    var s := f.gameSpeed * SpeedFactor;
    calc {
      (t.cosA * s) * (t.cosA * s) + (t.sinA * s) * (t.sinA * s);
      (t.cosA * t.cosA + t.sinA * t.sinA) * (s * s);
      s * s;
    }
  }

  /** The tentative coordinates leave the playfield on the x or the y axis. */
  predicate LeavesX(b: Beetle, width: real)
  {
    var nextX := b.x + (b.speedX + b.gravitySpeedX); nextX < 0.0 || nextX > MaxX(width)
  }

  predicate LeavesY(b: Beetle, height: real)
  {
    var nextY := b.y + (b.speedY + b.gravitySpeedY); nextY < TopBarHeight || nextY > MaxY(height)
  }

  /**
   * The second half of a frame (292-315): move by base plus gravity speed;
   * on an axis where the tentative coordinate leaves the playfield, reverse
   * the base speed, reverse and damp the gravity speed by 0.7, and clamp the
   * OLD coordinate into the playfield. The computed wall damage is not used.
   */
  function Collide(b: Beetle, width: real, height: real): (r: Beetle)
    requires AreaFits(width, height)
    ensures InPlayfield(r, width, height)
    ensures r.id == b.id && r.isAlive == b.isAlive && r.directionChangeTimer == b.directionChangeTimer
    ensures LeavesX(b, width) ==>
      r.speedX == -b.speedX && r.gravitySpeedX == -b.gravitySpeedX * BounceFactor && r.x == Clamp(b.x, 0.0, MaxX(width))
    ensures !LeavesX(b, width) ==>
      r.x == b.x + (b.speedX + b.gravitySpeedX) && r.speedX == b.speedX && r.gravitySpeedX == b.gravitySpeedX
    ensures LeavesY(b, height) ==>
      r.speedY == -b.speedY && r.gravitySpeedY == -b.gravitySpeedY * BounceFactor &&
      r.y == Clamp(b.y, TopBarHeight, MaxY(height))
    ensures !LeavesY(b, height) ==>
      r.y == b.y + (b.speedY + b.gravitySpeedY) && r.speedY == b.speedY && r.gravitySpeedY == b.gravitySpeedY
    ensures GravityBounded(b) ==> GravityBounded(r)
  {
    var nextX := b.x + (b.speedX + b.gravitySpeedX);
    var nextY := b.y + (b.speedY + b.gravitySpeedY);
    var afterX :=
      if nextX < 0.0 || nextX > MaxX(width) then
        b.(speedX := -b.speedX, gravitySpeedX := -b.gravitySpeedX * 0.7, x := Clamp(b.x, 0.0, MaxX(width)))
      else b.(x := nextX);
    if nextY < TopBarHeight || nextY > MaxY(height) then
      afterX.(speedY := -b.speedY, gravitySpeedY := -b.gravitySpeedY * 0.7, y := Clamp(b.y, TopBarHeight, MaxY(height)))
    else afterX.(y := nextY)
  }

  /**
   * Because the old coordinate is clamped, a beetle that starts in the
   * playfield does not move at all along an axis on which it bounces.
   */
  lemma BounceStaysPut(b: Beetle, width: real, height: real)
    requires AreaFits(width, height) && InPlayfield(b, width, height)
    ensures LeavesX(b, width) ==> Collide(b, width, height).x == b.x
    ensures LeavesY(b, height) ==> Collide(b, width, height).y == b.y
  {
  }

  /** One frame of one beetle (263-320): dead beetles are skipped. */
  function StepBeetle(b: Beetle, f: Frame, t: Turn): (r: Beetle)
    requires b.isAlive ==> AreaFits(f.width, f.height)
    ensures !b.isAlive ==> r == b
    ensures b.isAlive ==> r == Collide(Steer(b, f, t), f.width, f.height)
    ensures r.id == b.id && r.isAlive == b.isAlive
    ensures r.isAlive ==> InPlayfield(r, f.width, f.height)
    ensures GravityBounded(b) ==> GravityBounded(r)
  {
    if !b.isAlive then b else Collide(Steer(b, f, t), f.width, f.height)
  }

  /** The frame cannot fail: either nothing is alive or the screen fits a beetle. */
  predicate FrameDefined(bs: seq<Beetle>, f: Frame)
  {
    (exists i :: 0 <= i < |bs| && bs[i].isAlive) ==> AreaFits(f.width, f.height)
  }

  /** The `forEach` of a frame: every beetle stepped in place, with its own draws. */
  function StepAll(bs: seq<Beetle>, f: Frame, turns: seq<Turn>): (r: seq<Beetle>)
    requires |turns| == |bs| && FrameDefined(bs, f)
    ensures |r| == |bs|
    ensures forall i :: 0 <= i < |bs| ==> r[i] == StepBeetle(bs[i], f, turns[i])
  {
    seq(|bs|, i requires 0 <= i < |bs| && FrameDefined(bs, f) && |turns| == |bs| => StepBeetle(bs[i], f, turns[i]))
  }

  function LiveCount(bs: seq<Beetle>): (n: nat)
    ensures n <= |bs|
  {
    if bs == [] then 0 else (if bs[0].isAlive then 1 else 0) + LiveCount(bs[1..])
  }

  /** `removeAll { !it.isAlive }`: the live beetles, in their order. */
  function LiveOnly(bs: seq<Beetle>): (r: seq<Beetle>)
    ensures |r| == LiveCount(bs)
    ensures forall b :: b in r <==> b in bs && b.isAlive
  {
    if bs == [] then [] else (if bs[0].isAlive then [bs[0]] else []) + LiveOnly(bs[1..])
  }

  predicate IdsIncreasing(bs: seq<Beetle>)
  {
    forall i, j :: 0 <= i < j < |bs| ==> bs[i].id < bs[j].id
  }

  /** Compaction keeps the relative order of the live beetles. */
  lemma {:induction false} LiveOnlyKeepsOrder(bs: seq<Beetle>)
    requires IdsIncreasing(bs)
    ensures IdsIncreasing(LiveOnly(bs))
  {
    if bs != [] {
      LiveOnlyKeepsOrder(bs[1..]);
      var rest := LiveOnly(bs[1..]);
      forall b | b in rest ensures bs[0].id < b.id {
        var k :| 0 <= k < |bs[1..]| && bs[1..][k] == b;
      }
    }
  }

  /** The ids of the live beetles. */
  function LiveIds(bs: seq<Beetle>): set<int>
  {
    set b | b in bs && b.isAlive :: b.id
  }

  predicate AllGravityBounded(bs: seq<Beetle>)
  {
    forall i :: 0 <= i < |bs| ==> GravityBounded(bs[i])
  }

  /**
   * After a frame and its compaction: only live beetles remain, each inside
   * the playfield; ids keep their order and gravity speeds stay within ±20.
   */
  lemma {:induction false} FrameInvariant(bs: seq<Beetle>, f: Frame, turns: seq<Turn>)
    requires |turns| == |bs| && FrameDefined(bs, f)
    requires IdsIncreasing(bs) && AllGravityBounded(bs)
    ensures var r := LiveOnly(StepAll(bs, f, turns));
      IdsIncreasing(r) && AllGravityBounded(r) &&
      (forall i :: 0 <= i < |r| ==> r[i].isAlive && InPlayfield(r[i], f.width, f.height)) &&
      (forall i :: 0 <= i < |r| ==> r[i].id in LiveIds(bs))
  {
    var stepped := StepAll(bs, f, turns);
    LiveOnlyKeepsOrder(stepped);
    var r := LiveOnly(stepped);
    forall i | 0 <= i < |r|
      ensures r[i].isAlive && InPlayfield(r[i], f.width, f.height) && GravityBounded(r[i])
      ensures r[i].id in LiveIds(bs)
    {
      assert r[i] in stepped;
      var j :| 0 <= j < |stepped| && stepped[j] == r[i];
      assert stepped[j] == StepBeetle(bs[j], f, turns[j]);
      assert bs[j] in bs && bs[j].isAlive && r[i].id == bs[j].id;
    }
  }

  /** A spawn's x (334): a random point of [0, W−80]. */
  function SpawnX(width: real, rx: real): (x: real)
    ensures UnitRoll(rx) && BeetleSize <= width ==> 0.0 <= x <= MaxX(width)
  {
    var span := width - BeetleSize;
    ScaledFraction(rx, span);
    rx * span
  }

  /** A spawn's y (335): a random point of [80, H−160]. */
  function SpawnY(height: real, ry: real): (y: real)
    ensures UnitRoll(ry) && TopBarHeight + BeetleSize + BottomBarHeight <= height ==> TopBarHeight <= y <= MaxY(height)
  {
    var span := height - TopBarHeight - BottomBarHeight - BeetleSize;
    ScaledFraction(ry, span);
    ry * span + TopBarHeight
  }

  /**
   * `spawnBeetle`'s new beetle (327-341): a random heading at the round's
   * pace, a random point of the playfield, a heading timer of at least the
   * interval, no gravity speed, alive.
   */
  function NewBeetle(id: int, width: real, height: real, gameSpeed: real, interval: real, s: SpawnRoll): (b: Beetle)
    ensures b.id == id && b.isAlive && b.gravitySpeedX == 0.0 && b.gravitySpeedY == 0.0
    ensures b.speedX == s.heading.cosA * (gameSpeed * SpeedFactor) && b.speedY == s.heading.sinA * (gameSpeed * SpeedFactor)
    ensures UnitRoll(s.heading.roll) ==> interval <= b.directionChangeTimer < interval + 2.0
    ensures UnitRoll(s.rx) && UnitRoll(s.ry) && AreaFits(width, height) ==> InPlayfield(b, width, height)
  {
    var speed := gameSpeed * SpeedFactor;
    Beetle(id, SpawnX(width, s.rx), SpawnY(height, s.ry), s.heading.cosA * speed, s.heading.sinA * speed,
           0.0, 0.0, s.heading.roll * 2.0 + interval, true)
  }
}

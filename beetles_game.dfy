/**
 * The round engine of the Beetles variant (beetles/viewmodel/GameViewModel.kt).
 * `GameViewModel` keeps the published `GameState`, the beetle list and its
 * own bookkeeping fields; each event handler, and the body of each coroutine
 * loop, is one method that runs atomically. The guards of the loops
 * (`!isGameOver && isGameStarted`) are `Running()`; cancelling a job is not
 * modelled, since every loop body starts by checking that guard.
 */
module BeetlesGame {
  import opened Wrappers
  import opened Numeric
  import opened BeetlesData
  import opened BeetlesRepository
  import opened BeetlesPhysics

  const BonusSize: real := 60.0
  /** Factor from an accelerometer reading to a tilt. */
  const GravityStrength: real := 15.0
  const BeetlePoints: int := 10
  const MissPenalty: int := 5
  const BonusPoints: int := 20
  /** Seconds a claimed bonus lasts. */
  const BonusSeconds: int := 10
  const CountdownFrom: int := 3
  /** Round length and difficulty written into a record when no settings were loaded. */
  const FallbackRoundDuration: int := 60
  const FallbackDifficulty: int := 1

  /** The published round state. */
  datatype GameState = GameState(score: int, timeLeft: int, maxBeetles: int, gameSpeed: real,
                                 isGameStarted: bool, isGameOver: bool, countdown: int,
                                 showBonus: bool, bonusX: real, bonusY: real,
                                 isBonusActive: bool, bonusTimeLeft: int)

  /** `GameState()`: nothing started, every number zero. */
  const InitialState := GameState(0, 0, 0, 0.0, false, false, 0, false, 0.0, 0.0, false, 0)

  /** The stored game settings. */
  datatype SettingsData = SettingsData(gameSpeed: real, maxBeetles: int, roundDuration: int)

  /** The difficulty parameters derived from the game speed. */
  datatype Tier = Tier(spawnDelayMs: int, directionChangeInterval: real, wallDamage: real)

  function TierFor(gameSpeed: real): Tier
  {
    if gameSpeed <= 3.0 then Tier(2500, 1.2, 0.5)
    else if gameSpeed <= 7.0 then Tier(1500, 2.0, 0.3)
    else Tier(800, 3.5, 0.15)
  }

  /**
   * A faster game spawns at least as often, keeps each heading at least as
   * long and has no more wall damage.
   */
  lemma TiersMonotone(slow: real, fast: real)
    requires slow <= fast
    ensures TierFor(fast).spawnDelayMs <= TierFor(slow).spawnDelayMs
    ensures TierFor(slow).directionChangeInterval <= TierFor(fast).directionChangeInterval
    ensures TierFor(fast).wallDamage <= TierFor(slow).wallDamage
  {
  }

  /** A bonus offer's x (183): a random point of [0, W−60]. */
  function BonusSpotX(width: real, rx: real): (x: real)
    ensures UnitRoll(rx) && BonusSize <= width ==> 0.0 <= x <= width - BonusSize
  {
    var span := width - BonusSize;
    ScaledFraction(rx, span);
    rx * span
  }

  /** A bonus offer's y (184): a random point of [80, H−140]. */
  function BonusSpotY(height: real, ry: real): (y: real)
    ensures UnitRoll(ry) && TopBarHeight + BottomBarHeight + BonusSize <= height ==>
      TopBarHeight <= y <= height - BottomBarHeight - BonusSize
  {
    var span := height - TopBarHeight - BottomBarHeight - BonusSize;
    ScaledFraction(ry, span);
    ry * span + TopBarHeight
  }

  /** `beetles.find { it.id == beetleId && it.isAlive }`: the first such index, or -1. */
  function FindLive(bs: seq<Beetle>, beetleId: int): (i: int)
    ensures -1 <= i < |bs|
    ensures i >= 0 ==> bs[i].id == beetleId && bs[i].isAlive
    ensures i >= 0 ==> forall k :: 0 <= k < i ==> !(bs[k].id == beetleId && bs[k].isAlive)
    ensures i == -1 <==> forall k :: 0 <= k < |bs| ==> !(bs[k].id == beetleId && bs[k].isAlive)
  {
    if bs == [] then -1
    else if bs[0].id == beetleId && bs[0].isAlive then 0
    else var k := FindLive(bs[1..], beetleId); if k == -1 then -1 else k + 1
  }

  /** With distinct ids, the live beetle found for an id is the one carrying it. */
  lemma FindLiveUnique(bs: seq<Beetle>, i: int)
    requires IdsIncreasing(bs) && 0 <= i < |bs| && bs[i].isAlive
    ensures FindLive(bs, bs[i].id) == i
  {
  }

  class GameViewModel {
    const playerRepository: PlayerRepository
    var state: GameState
    var beetles: seq<Beetle>
    var gravityX: real
    var gravityY: real
    var isBonusModeActive: bool
    var currentPlayerId: Option<int>
    var nextBeetleId: int
    var screenWidth: real
    var screenHeight: real
    var settingsCache: Option<SettingsData>
    var spawnDelayMs: int
    var directionChangeInterval: real
    var wallDamage: real
    var isInitialized: bool

    /**
     * Beetle ids are handed out in increasing order and never reused, every
     * gravity speed stays within ±20, and a claimed bonus has between one
     * and ten seconds left.
     */
    ghost predicate Valid()
      reads this, playerRepository.dao
    {
      RosterValid() && (state.isBonusActive ==> 0 < state.bonusTimeLeft <= BonusSeconds)
    }

    /** The part of `Valid` about the beetle list and the players table. */
    ghost predicate RosterValid()
      reads this, playerRepository.dao
    {
      0 <= nextBeetleId && IdsIncreasing(beetles) &&
      (forall i :: 0 <= i < |beetles| ==> 0 <= beetles[i].id < nextBeetleId) &&
      AllGravityBounded(beetles) && playerRepository.dao.Valid()
    }

    constructor (playerRepository: PlayerRepository)
      requires playerRepository.dao.Valid()
      ensures Valid() && this.playerRepository == playerRepository
      ensures state == InitialState && beetles == [] && nextBeetleId == 0
      ensures gravityX == 0.0 && gravityY == 0.0 && !isBonusModeActive && currentPlayerId == None
      ensures screenWidth == 0.0 && screenHeight == 0.0 && settingsCache == None && !isInitialized
      ensures spawnDelayMs == 1000 && directionChangeInterval == 2.0 && wallDamage == 0.3
    {
      this.playerRepository := playerRepository;
      state := InitialState;
      beetles := [];
      gravityX, gravityY := 0.0, 0.0;
      isBonusModeActive := false;
      currentPlayerId := None;
      nextBeetleId := 0;
      screenWidth, screenHeight := 0.0, 0.0;
      settingsCache := None;
      spawnDelayMs, directionChangeInterval, wallDamage := 1000, 2.0, 0.3;
      isInitialized := false;
    }

    /** The guard of the game loop, the timer, the spawner and the bonus spawner. */
    function Running(): bool
      reads this
    {
      !state.isGameOver && state.isGameStarted
    }

    /** What a frame of the game loop reads. */
    function CurrentFrame(): Frame
      reads this
    {
      Frame(screenWidth, screenHeight, isBonusModeActive, gravityX, gravityY, directionChangeInterval, state.gameSpeed)
    }

    method SetCurrentPlayer(playerId: int)
      modifies this`currentPlayerId
      ensures currentPlayerId == Some(playerId)
    {
      currentPlayerId := Some(playerId);
    }

    /** The three-tier table of `calculateDifficultyParameters`; nothing else changes. */
    method CalculateDifficultyParameters(gameSpeed: real)
      modifies this`spawnDelayMs, this`directionChangeInterval, this`wallDamage
      ensures Tier(spawnDelayMs, directionChangeInterval, wallDamage) == TierFor(gameSpeed)
      ensures gameSpeed <= 3.0 ==> spawnDelayMs == 2500 && directionChangeInterval == 1.2 && wallDamage == 0.5
      ensures 3.0 < gameSpeed <= 7.0 ==> spawnDelayMs == 1500 && directionChangeInterval == 2.0 && wallDamage == 0.3
      ensures 7.0 < gameSpeed ==> spawnDelayMs == 800 && directionChangeInterval == 3.5 && wallDamage == 0.15
    {
      if gameSpeed <= 3.0 {
        spawnDelayMs, directionChangeInterval, wallDamage := 2500, 1.2, 0.5;
      } else if gameSpeed <= 7.0 {
        spawnDelayMs, directionChangeInterval, wallDamage := 1500, 2.0, 0.3;
      } else {
        spawnDelayMs, directionChangeInterval, wallDamage := 800, 3.5, 0.15;
      }
    }

    /**
     * `initGame`, with the settings the store would deliver as `stored`: a
     * no-op once initialized; otherwise it records the screen, takes the
     * cached settings (caching `stored` when there are none), sets the tier
     * and publishes a fresh state with the countdown at 3.
     */
    method InitGame(width: real, height: real, stored: SettingsData)
      requires Valid()
      modifies this`isInitialized, this`screenWidth, this`screenHeight, this`settingsCache, this`state,
               this`spawnDelayMs, this`directionChangeInterval, this`wallDamage
      ensures Valid()
      ensures old(isInitialized) ==> unchanged(this)
      ensures !old(isInitialized) ==>
        var settings := if old(settingsCache).Some? then old(settingsCache).value else stored;
        isInitialized && screenWidth == width && screenHeight == height && settingsCache == Some(settings) &&
        Tier(spawnDelayMs, directionChangeInterval, wallDamage) == TierFor(settings.gameSpeed) &&
        state == InitialState.(maxBeetles := settings.maxBeetles, gameSpeed := settings.gameSpeed,
                               timeLeft := settings.roundDuration, isGameStarted := false, countdown := CountdownFrom)
    {
      if isInitialized {
        return;
      }
      isInitialized := true;
      screenWidth := width;
      screenHeight := height;
      var settings := if settingsCache.Some? then settingsCache.value else stored;
      settingsCache := Some(settings);
      CalculateDifficultyParameters(settings.gameSpeed);
      state := InitialState.(maxBeetles := settings.maxBeetles, gameSpeed := settings.gameSpeed,
                             timeLeft := settings.roundDuration, isGameStarted := false, countdown := CountdownFrom);
    }

    /** The countdown coroutine of `startGame`: shows 3, 2, 1, then starts the round. */
    method RunCountdown()
      requires Valid()
      modifies this`state
      ensures Valid()
      ensures state == old(state).(isGameStarted := true, countdown := 0)
    {
      var i := CountdownFrom;
      while i >= 1
        invariant 0 <= i <= CountdownFrom
        invariant i == CountdownFrom ==> state == old(state)
        invariant i < CountdownFrom ==> state == old(state).(countdown := i + 1)
      {
        state := state.(countdown := i);
        i := i - 1;
      }
      state := state.(isGameStarted := true, countdown := 0);
    }

    method UpdateScreenSize(width: real, height: real)
      modifies this`screenWidth, this`screenHeight
      ensures screenWidth == width && screenHeight == height
    {
      if screenWidth != width || screenHeight != height {
        screenWidth := width;
        screenHeight := height;
      }
    }

    /**
     * `updateGame`: every beetle is stepped in place, with `turns[i]` as the
     * draws of beetle `i`, and the dead ones are then removed. Afterwards
     * every beetle is alive and inside the playfield, and the ids keep their
     * order.
     */
    method UpdateGame(turns: seq<Turn>)
      requires Valid() && |turns| == |beetles| && FrameDefined(beetles, CurrentFrame())
      modifies this`beetles
      ensures Valid()
      ensures beetles == LiveOnly(StepAll(old(beetles), CurrentFrame(), turns))
      ensures forall i :: 0 <= i < |beetles| ==> beetles[i].isAlive && InPlayfield(beetles[i], screenWidth, screenHeight)
    {
      var f := CurrentFrame();
      ghost var before := beetles;
      var i := 0;
      while i < |beetles|
        invariant 0 <= i <= |beetles| == |before|
        invariant forall k :: 0 <= k < i ==> beetles[k] == StepBeetle(before[k], f, turns[k])
        invariant forall k :: i <= k < |beetles| ==> beetles[k] == before[k]
      {
        assert before[i] in before;
        beetles := beetles[i := StepBeetle(beetles[i], f, turns[i])];
        i := i + 1;
      }
      assert beetles == StepAll(before, f, turns);
      FrameInvariant(before, f, turns);
      beetles := LiveOnly(beetles);
      forall i | 0 <= i < |beetles| ensures 0 <= beetles[i].id < nextBeetleId {
        assert beetles[i].id in LiveIds(before);
      }
    }

    /** One pass of the game loop (146-149). */
    method GameLoopTick(turns: seq<Turn>)
      requires Valid() && |turns| == |beetles| && (Running() ==> FrameDefined(beetles, CurrentFrame()))
      modifies this`beetles
      ensures Valid()
      ensures old(Running()) ==> beetles == LiveOnly(StepAll(old(beetles), CurrentFrame(), turns))
      ensures !old(Running()) ==> beetles == old(beetles)
    {
      if Running() {
        UpdateGame(turns);
      }
    }

    /** `beetles.count { it.isAlive }`. */
    function LiveBeetles(): nat
      reads this
    {
      LiveCount(beetles)
    }

    /** `spawnBeetle`: appends a new beetle with the next id. */
    method SpawnBeetle(s: SpawnRoll)
      requires Valid()
      modifies this`beetles, this`nextBeetleId
      ensures Valid()
      ensures beetles == old(beetles) + [NewBeetle(old(nextBeetleId), screenWidth, screenHeight, state.gameSpeed,
                                                   directionChangeInterval, s)]
      ensures nextBeetleId == old(nextBeetleId) + 1
    {
      var b := NewBeetle(nextBeetleId, screenWidth, screenHeight, state.gameSpeed, directionChangeInterval, s);
      nextBeetleId := nextBeetleId + 1;
      beetles := beetles + [b];
    }

    /** One pass of the spawner (166-174): a beetle only while fewer than `maxBeetles` are alive. */
    method SpawnStep(s: SpawnRoll)
      requires Valid()
      modifies this`beetles, this`nextBeetleId
      ensures Valid()
      ensures old(Running()) && old(LiveBeetles()) < state.maxBeetles ==>
        beetles == old(beetles) + [NewBeetle(old(nextBeetleId), screenWidth, screenHeight, state.gameSpeed,
                                             directionChangeInterval, s)] &&
        nextBeetleId == old(nextBeetleId) + 1 && LiveBeetles() == old(LiveBeetles()) + 1
      ensures !(old(Running()) && old(LiveBeetles()) < state.maxBeetles) ==>
        beetles == old(beetles) && nextBeetleId == old(nextBeetleId)
      ensures old(LiveBeetles()) < state.maxBeetles ==> LiveBeetles() <= state.maxBeetles
      ensures old(LiveBeetles()) >= state.maxBeetles ==> LiveBeetles() == old(LiveBeetles())
    {
      if Running() && LiveBeetles() < state.maxBeetles {
        SpawnBeetle(s);
        LiveCountAppend(old(beetles), beetles[|beetles| - 1]);
      }
    }

    /**
     * One pass of the round timer (154-161): a second off the clock, and the
     * round ends once it reaches zero. `now` is the wall-clock time a record
     * of the round would carry.
     */
    method TimerTick(now: int) returns (record: Option<GameRecord>)
      requires Valid()
      modifies this`state, this`isBonusModeActive, this`beetles, playerRepository.dao
      ensures Valid()
      ensures !old(Running()) ==> unchanged(this) && unchanged(playerRepository.dao) && record == None
      ensures old(Running()) ==> state.timeLeft == old(state.timeLeft) - 1
      ensures old(Running()) ==> (state.isGameOver <==> old(state.timeLeft) <= 1)
      ensures old(Running()) && old(state.timeLeft) > 1 ==>
        state == old(state).(timeLeft := old(state.timeLeft) - 1) && beetles == old(beetles) &&
        isBonusModeActive == old(isBonusModeActive) && unchanged(playerRepository.dao) && record == None
      ensures old(Running()) && old(state.timeLeft) <= 1 ==>
        state == old(state).(timeLeft := old(state.timeLeft) - 1, isGameOver := true, isBonusActive := false,
                             bonusTimeLeft := 0) &&
        !isBonusModeActive && beetles == Grounded(old(beetles)) &&
        (record.Some? <==> currentPlayerId.Some?)
      ensures old(Running()) && record.Some? ==>
        record.value == GameRecord(0, currentPlayerId.value, state.score, RecordDifficulty(), state.gameSpeed,
                                   state.maxBeetles, RecordRoundDuration(), now)
      ensures record.Some? && currentPlayerId.value in old(playerRepository.dao.rows) ==>
        playerRepository.dao.rows ==
          old(playerRepository.dao.rows)[currentPlayerId.value :=
                                         AfterGame(old(playerRepository.dao.rows)[currentPlayerId.value], state.score)]
      ensures record.None? || currentPlayerId.value !in old(playerRepository.dao.rows) ==>
        playerRepository.dao.rows == old(playerRepository.dao.rows)
    {
      record := None;
      if !Running() {
        return;
      }
      var newTime := state.timeLeft - 1;
      state := state.(timeLeft := newTime);
      if newTime <= 0 {
        record := EndGame(now);
      }
    }

    /** One pass of the bonus spawner (183-190): a bonus box at a random point between the bars. */
    method BonusOffer(rx: real, ry: real)
      requires Valid()
      modifies this`state
      ensures Valid()
      ensures old(Running()) ==>
        state == old(state).(showBonus := true, bonusX := BonusSpotX(screenWidth, rx), bonusY := BonusSpotY(screenHeight, ry))
      ensures !old(Running()) ==> state == old(state)
    {
      if Running() {
        state := state.(showBonus := true, bonusX := BonusSpotX(screenWidth, rx), bonusY := BonusSpotY(screenHeight, ry));
      }
    }

    /**
     * The offer's timeout (193-196): an unclaimed bonus disappears. It is a
     * child of the bonus job, so it is cancelled with it when the round ends,
     * and a box still shown then stays.
     */
    method BonusTimeout()
      requires Valid()
      modifies this`state
      ensures Valid()
      ensures old(Running()) ==> state == old(state).(showBonus := false)
      ensures !old(Running()) ==> state == old(state)
    {
      if Running() && state.showBonus {
        state := state.(showBonus := false);
      }
    }

    /**
     * `onBonusClicked`: nothing unless a bonus is shown; otherwise it is
     * claimed for 20 points and bonus mode starts for ten seconds.
     */
    method OnBonusClicked()
      requires Valid()
      modifies this`state, this`isBonusModeActive
      ensures Valid()
      ensures !old(state.showBonus) ==> state == old(state) && isBonusModeActive == old(isBonusModeActive)
      ensures old(state.showBonus) ==> (isBonusModeActive &&
        state == old(state).(showBonus := false, isBonusActive := true, bonusTimeLeft := BonusSeconds,
                             score := old(state.score) + BonusPoints))
    {
      if !state.showBonus {
        return;
      }
      state := state.(showBonus := false, isBonusActive := true, bonusTimeLeft := BonusSeconds,
                      score := state.score + BonusPoints);
      isBonusModeActive := true;
    }

    /**
     * One second of the bonus job (226-231). The job runs while the bonus is
     * active and its remaining repeats equal `bonusTimeLeft`, so the job ends
     * and deactivates the bonus when that reaches zero.
     */
    method BonusSecond()
      requires Valid()
      modifies this`state, this`isBonusModeActive, this`beetles
      ensures Valid()
      ensures !old(state.isBonusActive) ==> unchanged(this)
      ensures old(state.isBonusActive) && old(state.bonusTimeLeft) > 1 ==>
        state == old(state).(bonusTimeLeft := old(state.bonusTimeLeft) - 1) && beetles == old(beetles) &&
        isBonusModeActive == old(isBonusModeActive)
      ensures old(state.isBonusActive) && old(state.bonusTimeLeft) == 1 ==>
        state == old(state).(isBonusActive := false, bonusTimeLeft := 0) && !isBonusModeActive &&
        beetles == Grounded(old(beetles))
    {
      if !state.isBonusActive {
        return;
      }
      state := state.(bonusTimeLeft := state.bonusTimeLeft - 1);
      if state.bonusTimeLeft == 0 {
        DeactivateBonus();
      }
    }

    /** `deactivateBonus`: bonus over, and every beetle loses its gravity speed. */
    method DeactivateBonus()
      requires RosterValid()
      modifies this`state, this`isBonusModeActive, this`beetles
      ensures Valid()
      ensures !isBonusModeActive && state == old(state).(isBonusActive := false, bonusTimeLeft := 0)
      ensures beetles == Grounded(old(beetles))
    {
      isBonusModeActive := false;
      state := state.(isBonusActive := false, bonusTimeLeft := 0);
      ghost var before := beetles;
      var i := 0;
      while i < |beetles|
        modifies this`beetles
        invariant 0 <= i <= |beetles| == |before|
        invariant forall k :: 0 <= k < i ==> beetles[k] == before[k].(gravitySpeedX := 0.0, gravitySpeedY := 0.0)
        invariant forall k :: i <= k < |beetles| ==> beetles[k] == before[k]
      {
        beetles := beetles[i := beetles[i].(gravitySpeedX := 0.0, gravitySpeedY := 0.0)];
        i := i + 1;
      }
    }

    /** `onSensorChanged`: accelerometer readings become the tilt, only in bonus mode. */
    method OnSensorChanged(isAccelerometer: bool, ax: real, ay: real)
      modifies this`gravityX, this`gravityY
      ensures isAccelerometer && isBonusModeActive ==> gravityX == ax * GravityStrength && gravityY == ay * GravityStrength
      ensures !(isAccelerometer && isBonusModeActive) ==> gravityX == old(gravityX) && gravityY == old(gravityY)
    {
      if isAccelerometer && isBonusModeActive {
        gravityX := ax * GravityStrength;
        gravityY := ay * GravityStrength;
      }
    }

    /**
     * `onBeetleClicked`: the live beetle with that id dies and the score
     * rises by 10; with no such beetle nothing changes. Afterwards no live
     * beetle carries the id.
     */
    method OnBeetleClicked(beetleId: int)
      requires Valid()
      modifies this`beetles, this`state
      ensures Valid()
      ensures var i := FindLive(old(beetles), beetleId);
        if i == -1 then beetles == old(beetles) && state == old(state)
        else beetles == old(beetles)[i := old(beetles)[i].(isAlive := false)] &&
             state == old(state).(score := old(state.score) + BeetlePoints)
      ensures forall k :: 0 <= k < |beetles| && beetles[k].id == beetleId ==> !beetles[k].isAlive
    {
      var i := FindLive(beetles, beetleId);
      if i != -1 {
        beetles := beetles[i := beetles[i].(isAlive := false)];
        state := state.(score := state.score + BeetlePoints);
      }
    }

    /** `onMissClick`: five points off, but only once the round has started. */
    method OnMissClick()
      modifies this`state
      ensures old(state.isGameStarted) ==> state == old(state).(score := old(state.score) - MissPenalty)
      ensures !old(state.isGameStarted) ==> state == old(state)
    {
      if !state.isGameStarted {
        return;
      }
      state := state.(score := state.score - MissPenalty);
    }

    /** The difficulty a record carries: the cached speed rounded toward zero, else 1. */
    function RecordDifficulty(): int
      reads this
    {
      if settingsCache.Some? then Truncate(settingsCache.value.gameSpeed) else FallbackDifficulty
    }

    /** The round length a record carries: the cached one, else 60. */
    function RecordRoundDuration(): int
      reads this
    {
      if settingsCache.Some? then settingsCache.value.roundDuration else FallbackRoundDuration
    }

    /**
     * `endGame`: the round is over and the bonus ends. A round that had
     * started, with a player set, produces the record to insert and books the
     * score on the player's row; otherwise no record and the table is
     * untouched.
     */
    method EndGame(now: int) returns (record: Option<GameRecord>)
      requires Valid()
      modifies this`state, this`isBonusModeActive, this`beetles, playerRepository.dao
      ensures Valid()
      ensures state == old(state).(isGameOver := true, isBonusActive := false, bonusTimeLeft := 0)
      ensures !isBonusModeActive && beetles == Grounded(old(beetles))
      ensures record.Some? <==> old(state.isGameStarted) && currentPlayerId.Some?
      ensures record.Some? ==>
        record.value == GameRecord(0, currentPlayerId.value, state.score, RecordDifficulty(), state.gameSpeed,
                                   state.maxBeetles, RecordRoundDuration(), now)
      ensures record.Some? && currentPlayerId.value in old(playerRepository.dao.rows) ==>
        playerRepository.dao.rows ==
          old(playerRepository.dao.rows)[currentPlayerId.value :=
                                         AfterGame(old(playerRepository.dao.rows)[currentPlayerId.value], state.score)]
      ensures record.None? || currentPlayerId.value !in old(playerRepository.dao.rows) ==>
        playerRepository.dao.rows == old(playerRepository.dao.rows)
    {
      var wasGameStarted := state.isGameStarted;
      state := state.(isGameOver := true);
      DeactivateBonus();
      record := None;
      if !wasGameStarted {
        return;
      }
      if currentPlayerId.Some? {
        var playerId := currentPlayerId.value;
        record := Some(GameRecord(0, playerId, state.score, RecordDifficulty(), state.gameSpeed,
                                  state.maxBeetles, RecordRoundDuration(), now));
        playerRepository.UpdateGameResult(playerId, state.score);
      }
    }

    /** The state `resetGame` leaves behind. */
    ghost predicate IsReset()
      reads this
    {
      state == InitialState && beetles == [] && nextBeetleId == 0 && !isBonusModeActive &&
      !isInitialized && settingsCache == None && currentPlayerId == None &&
      screenWidth == 0.0 && screenHeight == 0.0
    }

    /**
     * `resetGame`: back to a fresh round. Tilt and difficulty fields are
     * kept, so a second reset changes nothing.
     */
    method ResetGame()
      requires Valid()
      modifies this`state, this`isBonusModeActive, this`beetles, this`nextBeetleId, this`isInitialized,
               this`settingsCache, this`currentPlayerId, this`screenWidth, this`screenHeight
      ensures Valid() && IsReset()
      ensures gravityX == old(gravityX) && gravityY == old(gravityY)
      ensures spawnDelayMs == old(spawnDelayMs) && directionChangeInterval == old(directionChangeInterval) &&
              wallDamage == old(wallDamage)
      ensures old(IsReset()) ==> state == old(state) && beetles == old(beetles) && settingsCache == old(settingsCache)
    {
      DeactivateBonus();
      beetles := [];
      nextBeetleId := 0;
      isInitialized := false;
      settingsCache := None;
      currentPlayerId := None;
      state := InitialState;
      screenWidth := 0.0;
      screenHeight := 0.0;
    }
  }

  /** Every beetle with its gravity speeds zeroed. */
  function Grounded(bs: seq<Beetle>): (r: seq<Beetle>)
    ensures |r| == |bs|
    ensures forall k :: 0 <= k < |bs| ==> r[k] == bs[k].(gravitySpeedX := 0.0, gravitySpeedY := 0.0)
  {
    seq(|bs|, k requires 0 <= k < |bs| => bs[k].(gravitySpeedX := 0.0, gravitySpeedY := 0.0))
  }

  /** Appending a live beetle adds one to the live count. */
  lemma {:induction false} LiveCountAppend(bs: seq<Beetle>, b: Beetle)
    ensures LiveCount(bs + [b]) == LiveCount(bs) + (if b.isAlive then 1 else 0)
  {
    if bs != [] {
      assert (bs + [b])[1..] == bs[1..] + [b];
      LiveCountAppend(bs[1..], b);
    } else {
      assert [b][1..] == [];
    }
  }
}

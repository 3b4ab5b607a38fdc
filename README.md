# Beetle-tapping games: a verified model of the round engines

The repository holds two variants of an Android tap game with the same idea:
insects crawl over the screen, tapping one scores, tapping empty ground costs.
This project models the parts of both that decide what happens in a round.

**Beetles** (`beetles/`)
- **Round engine** (`GameViewModel`). This is the class `BeetlesGame.GameViewModel`.
  - It holds the published `GameState`, the beetle list and its own bookkeeping fields.
  - Every event handler is one method, and so is the body of every coroutine loop: the game loop, the round timer, the spawner, the bonus spawner and its timeout, and the bonus countdown. Each method runs the whole body in a single step.
- **Frame physics** (`BeetlesPhysics`). These are functions on beetle values:
  - steering, with the gravity speeds fed by the tilt in bonus mode;
  - wall collision;
  - compaction of the dead beetles;
  - placement of a new beetle.
- **Tap router** (`BeetlesScreen`). This models the game screen's tap handler.
- **Players table and repository** (`BeetlesData` and `BeetlesRepository`).
  - The table is a map from key to row.
  - The two UPDATE statements are methods.
  - The three SELECT statements are (ghost) functions with their ordering stated.
- **Records view model** (`BeetlesRecords`). It joins the top records with their players.

**Zhuki** (`zhuki/`)
- **Round** (`ZhukiGame.Round`). The state variables of `GameScreen` become fields, and each effect or handler is a method.
- **Bug motion and hit-testing** are pure functions.
- **Settings** (`ZhukiSettings`): the difficulty presets and the value/position mapping of the sliders.
- **Zodiac lookup** (`Zodiac`).

Modelling choices:
- **Randomness** is passed in as parameters:
  - `Roll` and `SpawnRoll` stand for the `Random.nextFloat()` draws;
  - `Turn` carries the cosine and sine of a drawn angle.
- **The wall clock** is the `now` parameter.
- **Coordinates** are exact reals.
- **Kotlin's `coerceIn`** throws when its bounds are crossed. It is `Numeric.Clamp` with `requires lo <= hi`. So a step that clamps must be given an area that fits the entity.


## Model

| member | source | states |
|---|---|---|
| Numeric.Clamp | app/src/main/java/com/example/beetles/viewmodel/GameViewModel.kt:270-271 | `coerceIn`: the result lies in [lo, hi], equals v inside the range and the nearer bound outside it |
| Numeric.Truncate | app/src/main/java/com/example/beetles/viewmodel/GameViewModel.kt:378 | `Float.toInt` rounds toward zero: the result is the integer part, on both sides of zero |
| BeetlesData.PlayerTable.constructor | app/src/main/java/com/example/beetles/data/PlayerDao.kt:18-31 | an empty players table satisfies the key invariant |
| BeetlesData.PlayerTable.GetPlayerById | app/src/main/java/com/example/beetles/data/PlayerDao.kt:21-22 | a row is returned exactly when the key exists; it is that row, and it carries the requested id |
| BeetlesData.MaxId | app/src/main/java/com/example/beetles/data/PlayerDao.kt:18 | the largest key of a non-empty key set is a member and bounds every key |
| BeetlesData.IdsDescending | app/src/main/java/com/example/beetles/data/PlayerDao.kt:18 | `ORDER BY id DESC` over a key set: only keys of the set, every key present, strictly descending |
| BeetlesData.PlayerTable.GetAllPlayers | app/src/main/java/com/example/beetles/data/PlayerDao.kt:18-19 | every listed row is a row of the table, every table row is listed, ids strictly descending |
| BeetlesData.Leader | app/src/main/java/com/example/beetles/data/PlayerDao.kt:24 | the first row of `ORDER BY bestScore DESC`: no other row scores more, and it precedes every other key |
| BeetlesData.TopIds | app/src/main/java/com/example/beetles/data/PlayerDao.kt:24 | `ORDER BY bestScore DESC LIMIT n`: min(n, rows) distinct keys, scores non-increasing, no key left out outscores a listed one |
| BeetlesData.PlayerTable.GetTopPlayers | app/src/main/java/com/example/beetles/data/PlayerDao.kt:24-25 | the top ten (or all) distinct rows of the table, best first; a row left out scores no more than any row listed |
| BeetlesData.PlayerTable.UpdateBestScoreIfHigher | app/src/main/java/com/example/beetles/data/PlayerDao.kt:27-28 | one row changes, getting the new best score and one more game, exactly when the player exists with a lower best; it returns the count of changed rows, otherwise the table is unchanged |
| BeetlesData.PlayerTable.IncrementTotalGames | app/src/main/java/com/example/beetles/data/PlayerDao.kt:30-31 | an existing player's game count rises by one and nothing else changes; an unknown id changes nothing |
| BeetlesRepository.AfterGame | app/src/main/java/com/example/beetles/repository/PlayerRepository.kt:29-34 | booking a game counts it exactly once; the best score becomes the larger of the stored best and the new score; the other fields are untouched |
| BeetlesRepository.NoRecordOnlyCounts | app/src/main/java/com/example/beetles/repository/PlayerRepository.kt:31-33 | a score that does not beat the best only increments the game count |
| BeetlesRepository.PlayerRepository.constructor | app/src/main/java/com/example/beetles/repository/PlayerRepository.kt:25-34 | the repository wraps the given table |
| BeetlesRepository.PlayerRepository.GetPlayerById | app/src/main/java/com/example/beetles/repository/PlayerRepository.kt:25-27 | delegates to the table: some player exactly when the key exists, and then that key's row |
| BeetlesRepository.PlayerRepository.UpdateGameResult | app/src/main/java/com/example/beetles/repository/PlayerRepository.kt:29-34 | a known player's row becomes `AfterGame` of it; an unknown id leaves the table unchanged; the key invariant is kept |
| BeetlesRecords.Joined | app/src/main/java/com/example/beetles/viewmodel/RecordsViewModel.kt:47-63 | the join is never longer than the records; it keeps all of them when every player exists and none when no player does |
| BeetlesRecords.Kept | app/src/main/java/com/example/beetles/viewmodel/RecordsViewModel.kt:49-51 | the positions of records whose player exists: in range, strictly increasing, and complete |
| BeetlesRecords.JoinedIsKeptImage | app/src/main/java/com/example/beetles/viewmodel/RecordsViewModel.kt:44-67 | the joined list is exactly the kept records in input order, each carrying its player's name and the record's own id, score, difficulty, speed and date |
| BeetlesRecords.RecordsViewModel.constructor | app/src/main/java/com/example/beetles/viewmodel/RecordsViewModel.kt:29-42 | both published lists start empty |
| BeetlesRecords.RecordsViewModel.OnTopRecords | app/src/main/java/com/example/beetles/viewmodel/RecordsViewModel.kt:44-67 | the looped lookups publish exactly the join of the records with the players table |
| BeetlesRecords.RecordsViewModel.OnTopPlayers | app/src/main/java/com/example/beetles/viewmodel/RecordsViewModel.kt:70-75 | the top-players query result is published unchanged and holds at most ten rows |
| BeetlesPhysics.Steer | app/src/main/java/com/example/beetles/viewmodel/GameViewModel.kt:266-290 | bonus mode: tilt fed into the gravity speeds, bounded by ±20, timer held at the interval. Otherwise: gravity decays by 0.9 and the timer runs down 0.016 s; a timer run out away from the walls draws a heading at the round's pace and a timer of the interval plus twice the draw. Position is untouched and gravity stays bounded |
| BeetlesPhysics.TurnKeepsPace | app/src/main/java/com/example/beetles/viewmodel/GameViewModel.kt:283-286 | a new heading always has speed gameSpeed × 2.5, whatever angle is drawn |
| BeetlesPhysics.Collide | app/src/main/java/com/example/beetles/viewmodel/GameViewModel.kt:292-315 | the beetle ends in the playfield [0, W−80]×[80, H−160]; on an axis it would leave, the base speed reverses and the gravity speed reverses at 0.7; otherwise it moves by base plus gravity speed |
| BeetlesPhysics.BounceStaysPut | app/src/main/java/com/example/beetles/viewmodel/GameViewModel.kt:299-311 | because the old coordinate is clamped, a beetle in the playfield does not move along an axis on which it bounces |
| BeetlesPhysics.StepBeetle | app/src/main/java/com/example/beetles/viewmodel/GameViewModel.kt:263-320 | a dead beetle is skipped; a live one steers then collides, keeps id and life, ends in the playfield, and stays gravity-bounded |
| BeetlesPhysics.StepAll | app/src/main/java/com/example/beetles/viewmodel/GameViewModel.kt:263 | every beetle is stepped with its own draws; the count is kept |
| BeetlesPhysics.LiveCount | app/src/main/java/com/example/beetles/viewmodel/GameViewModel.kt:168 | the number of live beetles never exceeds the list length |
| BeetlesPhysics.LiveOnly | app/src/main/java/com/example/beetles/viewmodel/GameViewModel.kt:322 | `removeAll { !it.isAlive }`: a beetle remains exactly when it was in the list and alive; the length is the live count |
| BeetlesPhysics.LiveOnlyKeepsOrder | app/src/main/java/com/example/beetles/viewmodel/GameViewModel.kt:322 | compaction keeps the remaining beetles' order of ids |
| BeetlesPhysics.FrameInvariant | app/src/main/java/com/example/beetles/viewmodel/GameViewModel.kt:260-323 | after a frame: only live beetles remain, each in the playfield. Their ids are ids of beetles alive before, still increasing, and the gravity speeds stay within ±20 |
| BeetlesPhysics.SpawnX | app/src/main/java/com/example/beetles/viewmodel/GameViewModel.kt:334 | a spawn's x lies in [0, W−80] |
| BeetlesPhysics.SpawnY | app/src/main/java/com/example/beetles/viewmodel/GameViewModel.kt:335 | a spawn's y lies in [80, H−160] |
| BeetlesPhysics.NewBeetle | app/src/main/java/com/example/beetles/viewmodel/GameViewModel.kt:325-341 | a new beetle is alive and carries the given id. It has no gravity speed, heads at the round's pace and starts in the playfield, with a heading timer in [interval, interval+2) |
| BeetlesGame.TiersMonotone | app/src/main/java/com/example/beetles/viewmodel/GameViewModel.kt:103-121 | a faster game spawns at least as often and changes heading no more often, with no more wall damage |
| BeetlesGame.BonusSpotX | app/src/main/java/com/example/beetles/viewmodel/GameViewModel.kt:183 | a bonus box's x lies in [0, W−60] |
| BeetlesGame.BonusSpotY | app/src/main/java/com/example/beetles/viewmodel/GameViewModel.kt:184 | a bonus box's y lies in [80, H−140], between the bars |
| BeetlesGame.FindLive | app/src/main/java/com/example/beetles/viewmodel/GameViewModel.kt:347 | `find { it.id == beetleId && it.isAlive }`: the first live beetle with that id, or −1 exactly when there is none |
| BeetlesGame.FindLiveUnique | app/src/main/java/com/example/beetles/viewmodel/GameViewModel.kt:347 | with increasing ids, the beetle found for a live beetle's id is that beetle |
| BeetlesGame.Grounded | app/src/main/java/com/example/beetles/viewmodel/GameViewModel.kt:245-248 | every beetle keeps everything but its gravity speeds, which become zero |
| BeetlesGame.LiveCountAppend | app/src/main/java/com/example/beetles/viewmodel/GameViewModel.kt:343 | appending a beetle raises the live count by one exactly when it is alive |
| BeetlesGame.GameViewModel.constructor | app/src/main/java/com/example/beetles/viewmodel/GameViewModel.kt:41-75 | the fields start at their declared initial values, and the round invariant holds |
| BeetlesGame.GameViewModel.SetCurrentPlayer | app/src/main/java/com/example/beetles/viewmodel/GameViewModel.kt:48-50 | the current player becomes the given id |
| BeetlesGame.GameViewModel.CalculateDifficultyParameters | app/src/main/java/com/example/beetles/viewmodel/GameViewModel.kt:103-121 | the three tiers: up to 3 gives 2500 ms, 1.2 s, 0.5; up to 7 gives 1500 ms, 2.0 s, 0.3; above that 800 ms, 3.5 s, 0.15 |
| BeetlesGame.GameViewModel.InitGame | app/src/main/java/com/example/beetles/viewmodel/GameViewModel.kt:77-101 | a second call changes nothing. The first records the screen, caches the settings (cached ones win) and sets the tier of their speed. It publishes a fresh state holding the settings, the countdown at 3 and the round not started |
| BeetlesGame.GameViewModel.RunCountdown | app/src/main/java/com/example/beetles/viewmodel/GameViewModel.kt:126-134 | after showing 3, 2, 1 the round is started with the countdown at 0; nothing else in the state changes |
| BeetlesGame.GameViewModel.UpdateScreenSize | app/src/main/java/com/example/beetles/viewmodel/GameViewModel.kt:137-142 | the screen size becomes the given one |
| BeetlesGame.GameViewModel.UpdateGame | app/src/main/java/com/example/beetles/viewmodel/GameViewModel.kt:260-323 | the list becomes the compaction of every beetle stepped in place; afterwards every beetle is alive and in the playfield, and the round invariant holds |
| BeetlesGame.GameViewModel.GameLoopTick | app/src/main/java/com/example/beetles/viewmodel/GameViewModel.kt:145-150 | a frame is run exactly while the round runs; otherwise the beetles are unchanged |
| BeetlesGame.GameViewModel.SpawnBeetle | app/src/main/java/com/example/beetles/viewmodel/GameViewModel.kt:325-344 | appends the new beetle with the next id and advances the id counter, keeping ids increasing and unused |
| BeetlesGame.GameViewModel.SpawnStep | app/src/main/java/com/example/beetles/viewmodel/GameViewModel.kt:165-175 | while running and below the cap, one live beetle is added; otherwise nothing. The spawner never pushes the live count over `maxBeetles` |
| BeetlesGame.GameViewModel.TimerTick | app/src/main/java/com/example/beetles/viewmodel/GameViewModel.kt:152-163 | while running, a second comes off the clock and the round ends exactly when the clock reaches zero. The last tick does what `endGame` does: the bonus ends, the beetles are grounded, a record exists exactly when a player is set, and that player's row gets AfterGame. Before the last tick, only the clock changes. When not running, nothing changes |
| BeetlesGame.GameViewModel.BonusOffer | app/src/main/java/com/example/beetles/viewmodel/GameViewModel.kt:179-191 | while running, a bonus box is shown at a random spot between the bars; otherwise nothing changes |
| BeetlesGame.GameViewModel.BonusTimeout | app/src/main/java/com/example/beetles/viewmodel/GameViewModel.kt:192-197 | while the round runs, an unclaimed bonus box disappears. After the round ends the timeout is cancelled along with the bonus job, so nothing changes. Nothing else ever changes |
| BeetlesGame.GameViewModel.OnBonusClicked | app/src/main/java/com/example/beetles/viewmodel/GameViewModel.kt:202-213 | no shown bonus: nothing. Otherwise: hidden, +20 points, bonus mode on with ten seconds left |
| BeetlesGame.GameViewModel.BonusSecond | app/src/main/java/com/example/beetles/viewmodel/GameViewModel.kt:224-232 | an active bonus loses one second; at the last one it ends and grounds every beetle; with no active bonus nothing changes |
| BeetlesGame.GameViewModel.DeactivateBonus | app/src/main/java/com/example/beetles/viewmodel/GameViewModel.kt:235-249 | bonus mode off, no bonus time left, every beetle grounded, nothing else in the state changes |
| BeetlesGame.GameViewModel.OnSensorChanged | app/src/main/java/com/example/beetles/viewmodel/GameViewModel.kt:251-256 | an accelerometer reading in bonus mode sets the tilt to 15× the reading; every other reading is ignored |
| BeetlesGame.GameViewModel.OnBeetleClicked | app/src/main/java/com/example/beetles/viewmodel/GameViewModel.kt:346-353 | the first live beetle with the id dies and the score rises by 10; with none nothing changes; afterwards no live beetle has that id |
| BeetlesGame.GameViewModel.OnMissClick | app/src/main/java/com/example/beetles/viewmodel/GameViewModel.kt:355-359 | a miss costs 5 points once the round has started and nothing before |
| BeetlesGame.GameViewModel.EndGame | app/src/main/java/com/example/beetles/viewmodel/GameViewModel.kt:361-391 | the round is over and the bonus ends. A record is produced exactly when the round had started and a player is set; it carries the final score, the fallbacks 1 and 60 when no settings were cached, and `now`. The player's row is booked by `AfterGame`, otherwise the table is untouched |
| BeetlesGame.GameViewModel.ResetGame | app/src/main/java/com/example/beetles/viewmodel/GameViewModel.kt:402-413 | leaves a fresh view model (`IsReset`) with tilt and tier kept; resetting twice is the same as once |
| BeetlesScreen.CornerIsHit | app/src/main/java/com/example/beetles/ui/screens/GameScreen.kt:101-102 | the hit box is closed: a tap on a beetle's corner hits it |
| BeetlesScreen.Swat | app/src/main/java/com/example/beetles/ui/screens/GameScreen.kt:94-107 | every live beetle under the tap dies; every other field and every other beetle is unchanged |
| BeetlesScreen.HitCount | app/src/main/java/com/example/beetles/ui/screens/GameScreen.kt:94-107 | the number of beetles swatted never exceeds the list length |
| BeetlesScreen.NoHitsMeansNoneUnder | app/src/main/java/com/example/beetles/ui/screens/GameScreen.kt:94-107 | no beetle is swatted exactly when no live beetle lies under the tap |
| BeetlesScreen.SwatPointwise | app/src/main/java/com/example/beetles/ui/screens/GameScreen.kt:94-107 | a list swatted beetle by beetle is the swat of the list |
| BeetlesScreen.HitCountExtend | app/src/main/java/com/example/beetles/ui/screens/GameScreen.kt:94-107 | testing one more beetle adds one hit exactly when it is swatted |
| BeetlesScreen.ClickIfUnder | app/src/main/java/com/example/beetles/ui/screens/GameScreen.kt:95-106 | a beetle that is alive and under the tap is clicked: it dies and scores 10; otherwise nothing changes |
| BeetlesScreen.SwatNext | app/src/main/java/com/example/beetles/ui/screens/GameScreen.kt:94-107 | one turn of the `forEach`: the swatted and scored prefix grows by beetle `i`, which counts as a hit exactly when it is under the tap and alive |
| BeetlesScreen.SwatAll | app/src/main/java/com/example/beetles/ui/screens/GameScreen.kt:93-108 | every live beetle under the tap dies, 10 points each, and the tap counts as a hit exactly when at least one did |
| BeetlesScreen.OnTap | app/src/main/java/com/example/beetles/ui/screens/GameScreen.kt:75-113 | a shown bonus under the tap is claimed and no beetle is considered. Otherwise the beetles under it are swatted. A miss is exactly a tap that hits neither and costs 5 once the round has started |
| ZhukiSettings.GetByDifficulty | app/src/main/java/com/example/zhuki/model/GameSettings.kt:10-31 | levels 1-3 give the presets the settings screen describes (bugs, bonus seconds, minutes) at speeds 1.0/1.5/2.0; any other level gives the defaults |
| ZhukiSettings.PresetsGrowHarder | app/src/main/java/com/example/zhuki/model/GameSettings.kt:10-31 | each harder preset is faster and more crowded, with rarer bonuses and a shorter round |
| ZhukiSettings.SliderListsAreEvenSteps | app/src/main/java/com/example/zhuki/ui/screens/SettingsScreen.kt:75-126 | the slider lists run 5..50 by 5, 5..40 by 5 and 30..240 by 30 |
| ZhukiSettings.IndexOf | app/src/main/java/com/example/zhuki/ui/screens/SettingsScreen.kt:76 | `indexOf`: −1 exactly when absent, otherwise the first index holding the value |
| ZhukiSettings.SliderPosition | app/src/main/java/com/example/zhuki/ui/screens/SettingsScreen.kt:76 | a listed value is shown at its own whole-number index; an unlisted one at 0 |
| ZhukiSettings.RoundToInt | app/src/main/java/com/example/zhuki/ui/screens/SettingsScreen.kt:81 | `roundToInt`: the nearest integer, halves rounded up |
| ZhukiSettings.ValueAt | app/src/main/java/com/example/zhuki/ui/screens/SettingsScreen.kt:81 | a slider position always selects a listed value: the one at the nearest index, or the first or last entry below or beyond the list |
| ZhukiSettings.SliderRoundTrip | app/src/main/java/com/example/zhuki/ui/screens/SettingsScreen.kt:76-81 | selecting at the position shown for a listed value gives the value back |
| ZhukiSettings.OnCockroachSlider | app/src/main/java/com/example/zhuki/ui/screens/SettingsScreen.kt:75-82 | the bug count becomes a listed value; no other setting changes |
| ZhukiSettings.OnBonusSlider | app/src/main/java/com/example/zhuki/ui/screens/SettingsScreen.kt:97-104 | the bonus interval becomes a listed value; no other setting changes |
| ZhukiSettings.OnDurationSlider | app/src/main/java/com/example/zhuki/ui/screens/SettingsScreen.kt:119-126 | the round duration becomes a listed value; no other setting changes |
| ZhukiSettings.OnSpeedSlider | app/src/main/java/com/example/zhuki/ui/screens/SettingsScreen.kt:66 | the speed becomes the slider's value; no other setting changes |
| ZhukiSettings.OnPresetSelected | app/src/main/java/com/example/zhuki/ui/screens/SettingsScreen.kt:140-143 | a preset button replaces all current settings by the preset, whatever they were |
| ZhukiSettings.PresetsSitOnSliders | app/src/main/java/com/example/zhuki/ui/screens/SettingsScreen.kt:75-126 | every preset, the defaults included, lies on all three sliders, and re-selecting its shown positions leaves it unchanged |
| Zodiac.GetZodiacSign | app/src/main/java/com/example/zhuki/utils/ZodiakUtils.kt:7-23 | month m (0-based) gives its own sign from its cusp day on and the previous month's sign before it; a known sign exactly for months 0-11, "Неизвестно" otherwise |
| Zodiac.GetZodiacDrawableResource | app/src/main/java/com/example/zhuki/utils/ZodiakUtils.kt:25-41 | the i-th sign maps to the i-th picture; anything else to "unknown" |
| Zodiac.SignsContinueAcrossMonths | app/src/main/java/com/example/zhuki/utils/ZodiakUtils.kt:7-23 | the sign at the end of a month is the sign at the start of the next, December to January included |
| Zodiac.SignHasPicture | app/src/main/java/com/example/zhuki/utils/ZodiakUtils.kt:25-41 | the i-th sign maps to the i-th picture, which is not "unknown" |
| Zodiac.DrawablesDistinct | app/src/main/java/com/example/zhuki/utils/ZodiakUtils.kt:25-41 | the twelve signs have twelve different pictures, none "unknown" |
| Zodiac.KnownMonthHasPicture | app/src/main/java/com/example/zhuki/utils/ZodiakUtils.kt:7-41 | any real month and day lead to a real picture |
| ZhukiGame.MoveBug | app/src/main/java/com/example/zhuki/ui/screens/GameScreen.kt:84-97 | a bug ends inside the area. On an axis where it would leave, its velocity flips and it is put on the wall it crossed; otherwise it moves by its velocity |
| ZhukiGame.StepBugs | app/src/main/java/com/example/zhuki/ui/screens/GameScreen.kt:84-97 | every bug moves once; the count and order are kept and all bugs end inside the area |
| ZhukiGame.NoBugEscapes | app/src/main/java/com/example/zhuki/ui/screens/GameScreen.kt:80-98 | after any positive number of ticks every bug is inside the area, wherever it started |
| ZhukiGame.FirstHit | app/src/main/java/com/example/zhuki/ui/screens/GameScreen.kt:180-185 | `indexOfFirst`: the first bug whose closed square holds the tap, or −1 exactly when none does |
| ZhukiGame.RandomBug | app/src/main/java/com/example/zhuki/ui/screens/GameScreen.kt:244-255 | a full-size bug moving diagonally at five times the speed, placed inside the area when the area holds a bug |
| ZhukiGame.NewBugs | app/src/main/java/com/example/zhuki/ui/screens/GameScreen.kt:65 | one random bug per draw, all inside the area when it holds a bug |
| ZhukiGame.Round.constructor | app/src/main/java/com/example/zhuki/ui/screens/GameScreen.kt:48-52 | a round starts with no bugs, score 0, the full duration and nothing saved |
| ZhukiGame.Round.OnAreaMeasured | app/src/main/java/com/example/zhuki/ui/screens/GameScreen.kt:63-67 | the first time a positive area is known and no bugs exist, exactly `maxCockroaches` random bugs are created; otherwise nothing changes |
| ZhukiGame.Round.OnSettingsChanged | app/src/main/java/com/example/zhuki/ui/screens/GameScreen.kt:69-78 | a new duration restarts the clock; the time left never exceeds the duration. The bug list is cut to the new count, or topped up with random bugs when the area is known. Every bug takes the new speed and keeps its place |
| ZhukiGame.Round.Tick | app/src/main/java/com/example/zhuki/ui/screens/GameScreen.kt:80-98 | while the game is not over every bug takes one step and all end inside the area; a finished game stays frozen |
| ZhukiGame.Round.CountdownTick | app/src/main/java/com/example/zhuki/ui/screens/GameScreen.kt:101-110 | one second comes off while time is left; at zero the game is over; a finished game stays as it is |
| ZhukiGame.Round.OnTap | app/src/main/java/com/example/zhuki/ui/screens/GameScreen.kt:171-196 | during a game the first bug under the tap is replaced by a fresh one for one point; a tap on nothing costs a point but never goes below zero; after the game taps do nothing |
| ZhukiGame.Round.PlayAgain | app/src/main/java/com/example/zhuki/ui/screens/GameScreen.kt:157-162 | from the game-over screen: exactly `maxCockroaches` new bugs, score 0, the full duration, nothing saved |
| ZhukiGame.Round.SaveScore | app/src/main/java/com/example/zhuki/ui/screens/GameScreen.kt:112-130 | a finished, unsaved game of a named player yields the record to insert, with its score, level, course and sign; it is marked saved exactly when the insert succeeds. Otherwise nothing is produced |

## Left out

- Coroutine scheduling, delays and job cancellation are not modelled. Each loop body is one atomic method guarded as the loop is, so interleavings inside a body are not captured. The same goes for the spawner's 200 ms polling and the per-frame `delay`.
- BeetlesGame.GameViewModel.BonusSecond: the bonus job is modelled as running while `isBonusActive` holds, with its remaining repeats equal to `bonusTimeLeft`. The job restarted by a second claim and the job cancelled by `endGame`/`resetGame` are both captured only through that guard.
- BeetlesPhysics.StepBeetle, BeetlesGame.GameViewModel.UpdateGame, ZhukiGame.MoveBug, ZhukiGame.StepBugs and ZhukiGame.Round.Tick require an area at least as large as the beetle or bug. Kotlin's `coerceIn` throws on a smaller area, and that failure is not modelled.
- BeetlesGame.GameViewModel.RunCountdown: the countdown coroutine is not cancelled by `endGame` or `resetGame` in the model; it runs as one step.
- Sensor registration, `onAccuracyChanged` and the sound manager are not modelled; they have no effect on the round state.
- Trigonometry and random draws are parameters. `TurnKeepsPace` requires that the cosine and sine given satisfy cos² + sin² = 1.
- IEEE float rounding and Int wrap-around are not modelled: coordinates are reals and the score and `nextBeetleId` are unbounded integers.
- Room plumbing is not modelled: player insert, update and delete, the settings store, the game-records table and its DAO queries. `EndGame` returns the record it would insert. `OnTopRecords` takes the records the records query delivers.
- Persistence failures are not modelled in the Beetles variant: a failed record insert would skip the player update and be swallowed. In Zhuki the insert's success is the `inserted` parameter.
- BeetlesData.IdsDescending does not state that the list length equals the number of keys; distinctness follows from strict descent.
- BeetlesData.PlayerTable.GetTopPlayers: SQL leaves the order of equal best scores open; the model puts the smaller id first.
- `InitialState`: the default values of `GameState` are taken as all zero and false, and those of `Beetle` as no gravity speed and alive; the declarations are not part of this model. The beetle's `rotation` and `lifeTime` only feed the drawing and are left out.
- The beetle list holds values: a `Beetle` object updated in place is modelled as replacing the list element, so object sharing is not captured.
- The Zhuki tap handler is installed again each round, when the play area returns after game over. Within a round it sees the settings and area size of the moment that round's play area was composed. The model uses the current ones.
- After a Beetles round ends, `isGameStarted` stays true and the beetles stay in the list, so taps still score and misses still cost points. The model follows this.
- The Beetles direction-change interval grows with game speed (1.2, 2.0, 3.5 s), so faster games change heading less often; the model follows the code. The computed `wallDamage` is never used; the bounce damping is the constant 0.7 and the old coordinate is clamped, as the code has them.
- The Beetles tap handler clicks every live beetle under the tap, not only the first one; the model follows the code.
- The gold-rate XML parsing and its network access, the player view model, the player form, the records and rules screens and all layout code are not part of this model.


/**
 * Settings of the Zhuki variant: the `GameSettings` record with its
 * difficulty presets (zhuki/model/GameSettings.kt) and the slider logic of
 * the settings screen (zhuki/ui/screens/SettingsScreen.kt), which maps a
 * setting's value to a slider position and a chosen position back to a
 * value drawn from a fixed list.
 */
module ZhukiSettings {

  datatype GameSettings = GameSettings(gameSpeed: real, maxCockroaches: int, bonusInterval: int, roundDuration: int)

  /** `GameSettings()` with every parameter at its default. */
  const Defaults: GameSettings := GameSettings(1.0, 5, 30, 60)

  /** What the preset description on the settings screen promises: bugs, seconds between bonuses, round length in minutes. */
  datatype PresetText = PresetText(bugs: int, bonusSeconds: int, roundMinutes: real)

  function RulesText(difficulty: int): PresetText
    requires 1 <= difficulty <= 3
  {
    [PresetText(10, 15, 2.0), PresetText(20, 25, 1.5), PresetText(35, 35, 1.0)][difficulty - 1]
  }

  /** getByDifficulty: levels 1-3 are the presets the settings screen describes; any other level gives the defaults. */
  function GetByDifficulty(difficulty: int): (s: GameSettings)
    ensures 1 <= difficulty <= 3 ==>
      s.maxCockroaches == RulesText(difficulty).bugs &&
      s.bonusInterval == RulesText(difficulty).bonusSeconds &&
      s.roundDuration as real == RulesText(difficulty).roundMinutes * 60.0
    ensures difficulty == 1 ==> s.gameSpeed == 1.0
    ensures difficulty == 2 ==> s.gameSpeed == 1.5
    ensures difficulty == 3 ==> s.gameSpeed == 2.0
    ensures !(1 <= difficulty <= 3) ==> s == Defaults
  {
    match difficulty
    case 1 => GameSettings(1.0, 10, 15, 120)
    case 2 => GameSettings(1.5, 20, 25, 90)
    case 3 => GameSettings(2.0, 35, 35, 60)
    case _ => Defaults
  }

  /** Harder presets are faster, more crowded, with rarer bonuses and shorter rounds. */
  lemma PresetsGrowHarder(d: int)
    requires d == 1 || d == 2
    ensures GetByDifficulty(d).gameSpeed < GetByDifficulty(d + 1).gameSpeed
    ensures GetByDifficulty(d).maxCockroaches < GetByDifficulty(d + 1).maxCockroaches
    ensures GetByDifficulty(d).bonusInterval < GetByDifficulty(d + 1).bonusInterval
    ensures GetByDifficulty(d).roundDuration > GetByDifficulty(d + 1).roundDuration
  {
  }

  // ---------------------------------------------------------------------
  // Sliders
  // ---------------------------------------------------------------------

  const CockroachValues: seq<int> := [5, 10, 15, 20, 25, 30, 35, 40, 45, 50]
  const BonusValues: seq<int> := [5, 10, 15, 20, 25, 30, 35, 40]
  const DurationValues: seq<int> := [30, 60, 90, 120, 150, 180, 210, 240]

  /** The three lists run in equal steps: 5..50 by 5, 5..40 by 5, 30..240 by 30. */
  lemma SliderListsAreEvenSteps()
    ensures |CockroachValues| == 10 && forall i :: 0 <= i < 10 ==> CockroachValues[i] == 5 + 5 * i
    ensures |BonusValues| == 8 && forall i :: 0 <= i < 8 ==> BonusValues[i] == 5 + 5 * i
    ensures |DurationValues| == 8 && forall i :: 0 <= i < 8 ==> DurationValues[i] == 30 + 30 * i
  {
  }

  /** Kotlin's `List.indexOf`: the first index holding `v`, or -1. */
  function IndexOf(values: seq<int>, v: int): (i: int)
    ensures -1 <= i < |values|
    ensures i == -1 <==> v !in values
    ensures 0 <= i ==> values[i] == v && forall j :: 0 <= j < i ==> values[j] != v
  {
    if values == [] then -1
    else if values[0] == v then 0
    else var k := IndexOf(values[1..], v); if k == -1 then -1 else k + 1
  }

  /** The slider position shown for a value: its index in the list, or 0 when it is not listed. */
  function SliderPosition(values: seq<int>, v: int): (pos: real)
    ensures v !in values ==> pos == 0.0
    ensures v in values ==> 0.0 <= pos < |values| as real && values[pos.Floor] == v && pos == pos.Floor as real
  {
    var i := IndexOf(values, v);
    (if i < 0 then 0 else i) as real
  }

  /** Kotlin's `Float.roundToInt`: the nearest integer, halves rounded up. */
  function RoundToInt(x: real): (n: int)
    ensures n as real - 0.5 <= x < n as real + 0.5
  {
    (x + 0.5).Floor
  }

  /** The value chosen at a slider position: the list entry at the nearest index, clamped to the list. */
  function ValueAt(values: seq<int>, position: real): (v: int)
    requires |values| > 0
    ensures v in values
    ensures forall k :: 0 <= k < |values| && k as real - 0.5 <= position < k as real + 0.5 ==> v == values[k]
    ensures position < 0.5 ==> v == values[0]
    ensures position >= |values| as real - 1.5 ==> v == values[|values| - 1]
  {
    var n := RoundToInt(position);
    values[if n < 0 then 0 else if n > |values| - 1 then |values| - 1 else n]
  }

  /** Selecting at the position shown for a listed value gives that value back. */
  lemma SliderRoundTrip(values: seq<int>, v: int)
    requires v in values
    ensures ValueAt(values, SliderPosition(values, v)) == v
  {
    var pos := SliderPosition(values, v);
    var k := pos.Floor;
    assert k as real - 0.5 <= pos < k as real + 0.5;
  }

  /** The cockroach slider: the new count is a listed value; nothing else changes. */
  function OnCockroachSlider(s: GameSettings, position: real): (r: GameSettings)
    ensures r.maxCockroaches in CockroachValues
    ensures r.(maxCockroaches := s.maxCockroaches) == s
  {
    s.(maxCockroaches := ValueAt(CockroachValues, position))
  }

  /** The bonus-interval slider: the new interval is a listed value; nothing else changes. */
  function OnBonusSlider(s: GameSettings, position: real): (r: GameSettings)
    ensures r.bonusInterval in BonusValues
    ensures r.(bonusInterval := s.bonusInterval) == s
  {
    s.(bonusInterval := ValueAt(BonusValues, position))
  }

  /** The round-duration slider: the new duration is a listed value; nothing else changes. */
  function OnDurationSlider(s: GameSettings, position: real): (r: GameSettings)
    ensures r.roundDuration in DurationValues
    ensures r.(roundDuration := s.roundDuration) == s
  {
    s.(roundDuration := ValueAt(DurationValues, position))
  }

  /** The speed slider hands its value over unchanged; nothing else changes. */
  function OnSpeedSlider(s: GameSettings, value: real): (r: GameSettings)
    ensures r.gameSpeed == value && r.(gameSpeed := s.gameSpeed) == s
  {
    s.(gameSpeed := value)
  }

  /** A preset button drops the current settings entirely in favour of the preset. */
  function OnPresetSelected(current: GameSettings, difficulty: int): (r: GameSettings)
    ensures r == GetByDifficulty(difficulty)
  {
    GetByDifficulty(difficulty)
  }

  /**
   * Every preset, defaults included, sits exactly on the three sliders:
   * the screen shows its true position and re-selecting a position gives it back.
   */
  lemma PresetsSitOnSliders(difficulty: int)
    ensures GetByDifficulty(difficulty).maxCockroaches in CockroachValues
    ensures GetByDifficulty(difficulty).bonusInterval in BonusValues
    ensures GetByDifficulty(difficulty).roundDuration in DurationValues
    ensures var s := GetByDifficulty(difficulty);
      OnCockroachSlider(s, SliderPosition(CockroachValues, s.maxCockroaches)) == s &&
      OnBonusSlider(s, SliderPosition(BonusValues, s.bonusInterval)) == s &&
      OnDurationSlider(s, SliderPosition(DurationValues, s.roundDuration)) == s
  {
    var s := GetByDifficulty(difficulty);
    assert s.maxCockroaches in CockroachValues by {
      if 1 <= difficulty <= 3 { assert s.maxCockroaches == CockroachValues[[1, 3, 6][difficulty - 1]]; }
      else { assert s.maxCockroaches == CockroachValues[0]; }
    }
    assert s.bonusInterval in BonusValues by {
      if 1 <= difficulty <= 3 { assert s.bonusInterval == BonusValues[[2, 4, 6][difficulty - 1]]; }
      else { assert s.bonusInterval == BonusValues[5]; }
    }
    assert s.roundDuration in DurationValues by {
      if 1 <= difficulty <= 3 { assert s.roundDuration == DurationValues[[3, 2, 1][difficulty - 1]]; }
      else { assert s.roundDuration == DurationValues[1]; }
    }
    SliderRoundTrip(CockroachValues, s.maxCockroaches);
    SliderRoundTrip(BonusValues, s.bonusInterval);
    SliderRoundTrip(DurationValues, s.roundDuration);
  }
}

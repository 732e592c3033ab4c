/** Tunable data of the game: the default hour length, the default settings,
    the two antagonist paths and the aggression table per night. */
module Constants {
  import opened Types

  /** Real-time milliseconds per in-game hour (8 s per hour, a 48 s night). */
  const HOUR_DURATION_MS: int := 8000

  /** Night 1 with its aggression, full power and the default hour length. */
  const DEFAULT_SETTINGS: GameSettings := GameSettings(1, 2, 1, 100, 8000)

  /** Location codes: 0 is the stage, 7 is the door. */
  const STAGE: int := 0
  const DOOR: int := 7

  const BLUE_PATH: seq<int> := [0, 1, 3, 5, 7]
  const RED_PATH: seq<int> := [0, 2, 4, 6, 7]

  function PathOf(k: AnimatronicName): seq<int> {
    if k == Blue then BLUE_PATH else RED_PATH
  }

  /** Each antagonist walks its own path and stands somewhere on it. */
  predicate OnPaths(s: AnimatronicsState) {
    && s.blue.path == BLUE_PATH && s.blue.location in BLUE_PATH
    && s.red.path == RED_PATH && s.red.location in RED_PATH
  }

  /** Both antagonists standing on the stage at the start of a shift. */
  function InitialAnimatronics(): (r: AnimatronicsState)
    ensures OnPaths(r)
    ensures r.blue.location == STAGE && r.red.location == STAGE
  {
    PerAnimatronic(
      Animatronic(0, BLUE_PATH, "Unit-01"),
      Animatronic(0, RED_PATH, "Unit-02"))
  }

  /** The aggression pair a standard night uses. */
  datatype Aggression = Aggression(blue: int, red: int)

  /** Night index to aggression; every index outside 1..5 is the maximum. */
  function GetAggression(night: int): (r: Aggression)
    ensures 0 <= r.red <= r.blue <= 20
    ensures (night < 1 || night > 5) ==> r == Aggression(20, 20)
  {
    match night
    case 1 => Aggression(2, 1)
    case 2 => Aggression(6, 4)
    case 3 => Aggression(8, 8)
    case 4 => Aggression(12, 10)
    case 5 => Aggression(16, 15)
    case _ => Aggression(20, 20)
  }

  /** The hand-tuned rows of the table. */
  lemma AggressionTable()
    ensures GetAggression(1) == Aggression(2, 1)
    ensures GetAggression(2) == Aggression(6, 4)
    ensures GetAggression(3) == Aggression(8, 8)
    ensures GetAggression(4) == Aggression(12, 10)
    ensures GetAggression(5) == Aggression(16, 15)
    ensures GetAggression(0) == Aggression(20, 20)
    ensures GetAggression(6) == Aggression(20, 20)
  {
  }

  /** From night 1 on, a later night is never less aggressive. */
  lemma AggressionMonotone(n: int, m: int)
    requires 1 <= n <= m
    ensures GetAggression(n).blue <= GetAggression(m).blue
    ensures GetAggression(n).red <= GetAggression(m).red
  {
  }

  /** The default settings are exactly night 1 of the table with the default
      hour length. */
  lemma DefaultSettingsAreNightOne()
    ensures ValidSettings(DEFAULT_SETTINGS)
    ensures GetAggression(DEFAULT_SETTINGS.night)
         == Aggression(DEFAULT_SETTINGS.blueAI, DEFAULT_SETTINGS.redAI)
    ensures DEFAULT_SETTINGS.hourLengthMs == HOUR_DURATION_MS
  {
  }

  /** Both paths run from the stage to the door through distinct locations
      in 0..7 and share no location but these two ends. */
  lemma PathsShape(k: AnimatronicName)
    ensures |PathOf(k)| == 5
    ensures PathOf(k)[0] == STAGE && PathOf(k)[|PathOf(k)| - 1] == DOOR
    ensures forall i :: 0 <= i < |PathOf(k)| ==> 0 <= PathOf(k)[i] <= 7
    ensures forall i, j :: 0 <= i < j < |PathOf(k)| ==> PathOf(k)[i] != PathOf(k)[j]
    ensures forall x :: x in BLUE_PATH && x in RED_PATH ==> x == STAGE || x == DOOR
  {
  }
}

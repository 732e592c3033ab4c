/** The value types of the night simulation: views, antagonist identities,
    antagonist records and the per-run configuration. */
module Types {

  /** The phases of a session. `Gameover` is declared but never entered. */
  datatype ViewType =
    | Start
    | CustomSetup
    | NightIntro
    | Game
    | Jumpscare
    | Win
    | Gameover
    | Ending

  /** The two antagonists. */
  datatype AnimatronicName = Blue | Red

  /** The side of the office a door or light belongs to. */
  datatype Side = Left | Right

  datatype Option<T> = None | Some(value: T)

  /** The antagonist other than `k`. */
  function Other(k: AnimatronicName): (r: AnimatronicName)
    ensures r != k
  {
    if k == Blue then Red else Blue
  }

  /** Exactly one value per antagonist: the shape of the record keyed by
      `blue` and `red`. */
  datatype PerAnimatronic<T> = PerAnimatronic(blue: T, red: T) {

    function Get(k: AnimatronicName): T {
      if k == Blue then blue else red
    }

    /** Replaces the value of `k` and keeps the other antagonist's value. */
    function Set(k: AnimatronicName, v: T): (r: PerAnimatronic<T>)
      ensures r.Get(k) == v
      ensures r.Get(Other(k)) == Get(Other(k))
    {
      if k == Blue then this.(blue := v) else this.(red := v)
    }
  }

  /** An antagonist: where it is, the fixed path it walks and its label. */
  datatype Animatronic = Animatronic(location: int, path: seq<int>, name: string)

  type AnimatronicsState = PerAnimatronic<Animatronic>

  /** The configuration of one run. */
  datatype GameSettings = GameSettings(
    night: int,
    blueAI: int,
    redAI: int,
    startingPower: int,
    hourLengthMs: int)

  /** What every caller of the session supplies: a night index of at least 1
      (standard nights count from 1, the custom night is 6), a non-negative
      starting power and a positive hour length. */
  predicate ValidSettings(s: GameSettings) {
    s.night >= 1 && s.startingPower >= 0 && s.hourLengthMs > 0
  }

  /** Both antagonist names are covered, and nothing else. */
  lemma AnimatronicNamesAreTwo(k: AnimatronicName)
    ensures k == Blue || k == Red
    ensures {Blue, Red} == {k, Other(k)}
  {
  }
}

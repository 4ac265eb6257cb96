/** The fixed music-theory tables the analyser reads: the twelve note names,
    the seven roman numerals, and for each diatonic mode its scale-degree
    intervals, the 7th-chord quality on each degree and the offset to its
    relative Ionian tonic.  The repository keeps these in constants.py, which
    is not part of this model; the values below are the standard diatonic
    tables, chosen to agree with every chord the test suite pins. */
module Tables {

  /** A pitch class: 0 is C, 11 is B. */
  type PitchClass = x: int | 0 <= x < 12

  /** The chord quality tags of the analyser: "M", "m", "7", "maj7", "m7",
      "m7b5", "dim7" and "d" (diminished triad). */
  datatype Quality =
    | MajorTriad      // "M"
    | MinorTriad      // "m"
    | Dominant7       // "7"
    | Major7          // "maj7"
    | Minor7          // "m7"
    | HalfDiminished7 // "m7b5"
    | Diminished7     // "dim7"
    | DiminishedTriad // "d"

  /** The seven diatonic modes, in the order the detector enumerates them. */
  datatype Mode = Ionian | Dorian | Phrygian | Lydian | Mixolydian | Aeolian | Locrian

  /** The value CORE_QUALITIES gives each quality tag. */
  datatype Category = Major | Minor | Dominant | Diminished

  /** NOTES: sharp-spelled names of the twelve pitch classes. */
  const Notes: seq<string> := ["C", "C#", "D", "D#", "E", "F", "F#", "G", "G#", "A", "A#", "B"]

  /** ROMAN_DEGREES: upper-case numerals of degrees 1..7. */
  const RomanDegrees: seq<string> := ["I", "II", "III", "IV", "V", "VI", "VII"]

  /** The enumeration order of the modes (also the iteration order of MODES_DATA). */
  const ModeOrder: seq<Mode> := [Ionian, Dorian, Phrygian, Lydian, Mixolydian, Aeolian, Locrian]

  function ModeIndex(m: Mode): (k: nat)
    ensures k < 7 && ModeOrder[k] == m
  {
    match m
    case Ionian => 0
    case Dorian => 1
    case Phrygian => 2
    case Lydian => 3
    case Mixolydian => 4
    case Aeolian => 5
    case Locrian => 6
  }

  function ModeName(m: Mode): string
  {
    match m
    case Ionian => "Ionian"
    case Dorian => "Dorian"
    case Phrygian => "Phrygian"
    case Lydian => "Lydian"
    case Mixolydian => "Mixolydian"
    case Aeolian => "Aeolian"
    case Locrian => "Locrian"
  }

  /** MODES_DATA[mode][0]: semitone offsets of the seven degrees from the tonic. */
  function Intervals(m: Mode): (r: seq<int>)
    ensures |r| == 7
  {
    match m
    case Ionian => [0, 2, 4, 5, 7, 9, 11]
    case Dorian => [0, 2, 3, 5, 7, 9, 10]
    case Phrygian => [0, 1, 3, 5, 7, 8, 10]
    case Lydian => [0, 2, 4, 6, 7, 9, 11]
    case Mixolydian => [0, 2, 4, 5, 7, 9, 10]
    case Aeolian => [0, 2, 3, 5, 7, 8, 10]
    case Locrian => [0, 1, 3, 5, 6, 8, 10]
  }

  /** MODES_DATA[mode][1]: the diatonic 7th-chord quality on each degree. */
  function Qualities(m: Mode): (r: seq<Quality>)
    ensures |r| == 7
  {
    match m
    case Ionian => [Major7, Minor7, Minor7, Major7, Dominant7, Minor7, HalfDiminished7]
    case Dorian => [Minor7, Minor7, Major7, Dominant7, Minor7, HalfDiminished7, Major7]
    case Phrygian => [Minor7, Major7, Dominant7, Minor7, HalfDiminished7, Major7, Minor7]
    case Lydian => [Major7, Dominant7, Minor7, HalfDiminished7, Major7, Minor7, Minor7]
    case Mixolydian => [Dominant7, Minor7, HalfDiminished7, Major7, Minor7, Minor7, Major7]
    case Aeolian => [Minor7, HalfDiminished7, Major7, Minor7, Minor7, Major7, Dominant7]
    case Locrian => [HalfDiminished7, Major7, Minor7, Minor7, Major7, Dominant7, Minor7]
  }

  /** MODES_DATA[mode][2]: semitones from the mode's tonic to the tonic of the
      Ionian scale with the same notes (D Dorian -> C: -2). */
  function RelativeOffset(m: Mode): int
  {
    match m
    case Ionian => 0
    case Dorian => -2
    case Phrygian => -4
    case Lydian => -5
    case Mixolydian => -7
    case Aeolian => -9
    case Locrian => -11
  }

  /** CORE_QUALITIES. */
  function CoreQuality(q: Quality): Category
  {
    match q
    case MajorTriad => Major
    case Major7 => Major
    case Dominant7 => Dominant
    case MinorTriad => Minor
    case Minor7 => Minor
    case HalfDiminished7 => Diminished
    case Diminished7 => Diminished
    case DiminishedTriad => Diminished
  }

  /** The assumptions the analyser relies on: seven distinct intervals per
      mode, ascending from 0 and inside one octave, one quality per degree,
      and twelve distinct note names. */
  lemma TablesWellFormed(m: Mode)
    ensures |Intervals(m)| == 7 && |Qualities(m)| == 7
    ensures Intervals(m)[0] == 0
    ensures forall i, j :: 0 <= i < j < 7 ==> 0 <= Intervals(m)[i] < Intervals(m)[j] < 12
    ensures |Notes| == 12 && forall i, j :: 0 <= i < j < 12 ==> Notes[i] != Notes[j]
    ensures -11 <= RelativeOffset(m) <= 0
  {
  }
}

# Modal chord analyser, modelled in Dafny

This project models the core of a small command-line tool that reads a chord
progression (for example `Dm7 - G7 - Cmaj7`), guesses the key and diatonic mode
it is written in, and prints a table that re-harmonises the progression in each
of the other six modes by borrowing chords from their relative major scales.

The model covers three parts of the program:

- the chord helpers of `utils.py`:
  - `get_note_index` reads the root of a chord name, with flats, `♭` and the
    enharmonic rewrites;
  - `get_note_from_index` gives a pitch class its note name;
  - `parse_chord` reads a chord's root and quality tag;
  - `get_roman_numeral` writes the numeral of a chord in a key;
  - `get_diatonic_7th_chord` builds the seventh chord on a degree;
  - `is_chord_compatible` decides whether a chord fits the quality a degree
    expects;
  - `format_chords_for_table` lays chords out in fixed-width columns.

  These are in `Chords.dfy` (module `Chords`), with their properties in module
  `ChordFacts`. The Python string operations they use (`upper`, `replace`,
  `split(...)[0]`, `strip`, `in`, `join`, `split`, `ljust`) are in `Text.dfy`.
- `detect_intelligent_mode` (`Detector.dfy`):
  - A pair of a tonic and a mode is tried for every tonic and every mode, in
    the program's order.
  - A pair survives when every chord is diatonic to it with a compatible
    quality.
  - Survivors are scored by nine additive criteria.
  - The answer is the first survivor on the hinted tonic. Without one, it is
    the first survivor with the highest score.

  The module has the specification functions and the program's imperative
  loops as methods. Each method is proved equal to its specification. The
  properties of the choice are proved about the specification.
- `create_substitution_table` without its printing (`Substitution.dfy`). It
  builds the header and the rows of the table:
  - the chords to substitute and their roman numerals;
  - the degrees to borrow;
  - for each other mode, the borrowed chords and the rebuilt progression.

`Tables.dfy` holds the constant tables the program imports from `constants.py`:
note names, roman numerals, mode intervals and qualities, relative-major
offsets and core qualities. `constants.py` is not part of this model. The values
are the standard diatonic tables. They agree with the chords that
`test_analyzer.py:10-43` expects.

`Examples.dfy` follows one progression, `C - Cmaj7 - G`, through the detector
and the table. It shows the misalignment listed under Findings.

Python exceptions are modelled as results, not as preconditions:

- A chord or hint whose root cannot be read, where `NOTES.index` raises, gives
  `None` or `InvalidName`.
- The `exit(1)` when no mode fits gives `NoModeFound`.
- Any exception in the table code gives `Raised`.
- A progression of fewer than two chords gives `TooShort`.

## Model

| member | source | states |
|---|---|---|
| Tables.ModeIndex | modal_analyzer.py:27-35 | every mode has a position below 7 in the enumeration order, and that position holds it |
| Tables.Intervals | modal_analyzer.py:36 | every mode has seven degree intervals |
| Tables.Qualities | modal_analyzer.py:36 | every mode has seven degree qualities, one per interval |
| Tables.TablesWellFormed | modal_analyzer.py:41-46 | the intervals start at 0, strictly increase and stay inside an octave, so `intervals.index` names the unique degree; the twelve note names are distinct; relative offsets lie in -11..0 |
| Chords.GetNoteIndex | utils.py:4-30 | `get_note_index`: specification function, read through ChordFacts.NaturalSpelling, FlatSpelling, SharpSpelling, NoteIndexOfSpelling and NoteNameRoundTrip; None wherever the original raises |
| Chords.GetNoteFromIndex | utils.py:33-34 | `get_note_from_index`: specification function; ChordFacts.NoteNameRoundTrip proves that reading its name back gives `i mod 12` |
| Chords.ParseChord | utils.py:37-54 | `parse_chord`: specification function; ChordFacts.ParseSpelledChord proves that every note name with every canonical suffix parses back to that root and quality, and the QualityOf lemmas fix each marker's tag |
| Chords.GetRomanNumeral | utils.py:57-69 | `get_roman_numeral`: specification function; Substitution.NumeralOfParsed, WrittenNumeralDegree, NumeralInMode and NumeralOutsideMode state what it writes and which degree it reads back as |
| Chords.NumeralOf | utils.py:59-69 | the numeral of a parsed chord: specification function; Substitution.NumeralDegreeIn proves that it cleans back to the interval's position plus one, or to no degree outside the mode |
| Chords.GetDiatonic7thChord | utils.py:72-83 | `get_diatonic_7th_chord`: specification function; ChordFacts.DiatonicChordParses, the ChordTests lemmas and Substitution.RelativeMajorSharesChord state its results |
| Chords.IsChordCompatible | utils.py:86-99 | `is_chord_compatible`: specification function; ChordFacts.CompatibleIffSameOrWithoutSeventh states both directions of its rule |
| Chords.FormatChordsForTable | utils.py:102-108 | `format_chords_for_table` on a list: specification function; Text.PadRightShape gives each cell's shape |
| Chords.FormatChordString | utils.py:102-108 | `format_chords_for_table` on a string: specification function; ChordFacts.FormatOfJoined proves that it agrees with the list form on a `" - "`-joined list |
| Chords.FirstIndexFrom | utils.py:61-62 | Python's `list.index` from a position: the result holds the value and no earlier position does; None exactly when the value is absent |
| Chords.NoteIndex | utils.py:29-30 | `NOTES.index`: the result names the given note; None exactly when the name is not a note |
| ChordFacts.NoteIndexOfSpelling | utils.py:4-30 | a note name followed by a suffix that does not start with `#` or `b` after cleaning reads back as that note |
| ChordFacts.NoteNameRoundTrip | utils.py:33-34 | reading the name `get_note_from_index(i)` gives back `i mod 12`, for every integer `i` |
| ChordFacts.FlatSpelling | utils.py:5-29 | a letter followed by `b` or `♭` is the pitch one semitone below the letter, including `Cb`, `Fb` and `Bb` |
| ChordFacts.SharpSpelling | utils.py:12-30 | a letter followed by `#` is one semitone above the letter; `B#` is C; `E#` cannot be read |
| ChordFacts.NaturalSpelling | utils.py:14-30 | a single letter, upper or lower case, is its natural pitch |
| ChordFacts.NotesDistinct | utils.py:29-30 | two pitch classes with the same name are equal, so `NOTES.index` inverts `NOTES[...]` |
| ChordFacts.CleanNoteAfterRoot | utils.py:14-23 | the clean-up chain leaves a root spelling in front untouched |
| ChordFacts.SuffixKeepsRoot | utils.py:14-30 | each quality suffix the parser knows leaves the root reading unchanged |
| ChordFacts.QualityAfterRoot | utils.py:40-54 | no root spelling triggers a quality test, so the quality depends on the suffix alone |
| ChordFacts.QualityOfPlain | utils.py:54 | no marker gives the major triad |
| ChordFacts.QualityOfMinor | utils.py:52-53 | `m` gives the minor triad |
| ChordFacts.QualityOfDominant | utils.py:48-49 | `7` gives the dominant seventh |
| ChordFacts.QualityOfMajor7 | utils.py:40-41 | `maj7` gives the major seventh |
| ChordFacts.QualityOfMinor7 | utils.py:46-47 | `m7` gives the minor seventh |
| ChordFacts.QualityOfHalfDiminished | utils.py:42-43 | `m7b5` gives the half-diminished seventh |
| ChordFacts.QualityOfDiminished7 | utils.py:44-45 | `dim7` gives the diminished seventh |
| ChordFacts.QualityOfDiminished | utils.py:50-51 | `dim` gives the diminished triad |
| ChordFacts.QualityOfCapitalM7 | utils.py:40-41 | `M7` gives the major seventh |
| ChordFacts.QualityOfSlashedO | utils.py:42-43 | `ø` gives the half-diminished seventh |
| ChordFacts.QualityOfDegree7 | utils.py:44-45 | `°7` gives the diminished seventh |
| ChordFacts.QualityOfDegree | utils.py:50-51 | `°` gives the diminished triad |
| ChordFacts.QualityOfSuffix | utils.py:40-54 | the canonical suffix of every quality tag reads back as that tag |
| ChordFacts.ParseSpelled | utils.py:37-54 | a note name followed by a suffix parses to that root and the suffix's quality |
| ChordFacts.ParseSpelledChord | utils.py:37-54 | round trip: every note name with every canonical quality suffix parses back to that root and quality |
| ChordFacts.ParseCapitalMajor7 | utils.py:40-41 | `XM7` parses as the major seventh on X, for every note name X |
| ChordFacts.ParseSlashedHalfDiminished | utils.py:42-43 | `Xø` parses as the half-diminished seventh on X |
| ChordFacts.ParseDegreeDiminished7 | utils.py:44-45 | `X°7` parses as the diminished seventh on X |
| ChordFacts.ParseDegreeDiminished | utils.py:50-51 | `X°` parses as the diminished triad on X |
| ChordFacts.DiatonicChordParses | utils.py:72-83 | the chord built on degree d of a mode parses back to root `tonic + interval[d-1]` (mod 12) with the mode's quality on that degree |
| ChordFacts.CompatibleIffSameOrWithoutSeventh | utils.py:86-99 | a chord fits an expected quality exactly when the qualities are equal or the chord is the expected seventh's triad (`M` for `maj7` and `7`, `m` for `m7`, `d` for `m7b5`) |
| ChordFacts.FormatOfJoined | utils.py:102-108 | formatting the `" - "`-joined string gives the same cells as formatting the list, for chord names without spaces |
| Text.StartsWithIsPrefix | utils.py:40 | the character-by-character match under the substring tests (`in`, `replace`) is the sequence-prefix relation |
| Text.FindFrom | utils.py:40 | substring search finds the first occurrence at or after a position, and None means none exists |
| Text.Split | utils.py:104 | `str.split` always gives at least one piece |
| Text.SplitJoin | modal_analyzer.py:218-223 | splitting a `" - "`-join of names that do not contain the separator's first character gives back the names |
| Text.RemoveAllAfterPrefix | modal_analyzer.py:165-172 | `replace(pat, "")` leaves a prefix alone when that prefix cannot start the pattern |
| Text.UpperAppend | modal_analyzer.py:166 | `upper` distributes over concatenation |
| Text.PadRightShape | utils.py:107 | `ljust`: the cell keeps the text, is as wide as the width or the text, and pads with spaces |
| Detector.TonicStart | modal_analyzer.py:55-57 | criterion 1 (+3, doubled to 6): specification function; Detector.TonicStartIffRootIsTonic and Detector.ScoreCandidate are about it |
| Detector.Cadences | modal_analyzer.py:59-62 | criterion 2: specification function; Detector.CadenceCountIsPairs counts its cadences |
| Detector.TonicEnd | modal_analyzer.py:64-66 | criterion 3: specification function, summed by Detector.ScoreCandidate |
| Detector.DominantPresent | modal_analyzer.py:68-70 | criterion 4 (+0.5, doubled to 1): specification function, summed by Detector.ScoreCandidate |
| Detector.RootIsTonic | modal_analyzer.py:72-74 | criterion 5: specification function; Detector.TonicStartIffRootIsTonic ties it to criterion 1 |
| Detector.TwoFiveOne | modal_analyzer.py:76-83 | criterion 6: specification function, summed by Detector.ScoreCandidate |
| Detector.MixolydianSignature | modal_analyzer.py:85-93 | criterion 7: specification function, summed by Detector.ScoreCandidate |
| Detector.TonicSeventh | modal_analyzer.py:95-97 | criterion 8: specification function, summed by Detector.ScoreCandidate |
| Detector.Anatole | modal_analyzer.py:99-101 | criterion 9: specification function, summed by Detector.ScoreCandidate |
| Detector.Score | modal_analyzer.py:53-101 | the doubled score: specification function; Detector.ScoreCandidate proves that the program's increments sum to it, and Regressions.PhrygianScore, AeolianScore, LocrianScore and OffTonicScore evaluate it |
| Detector.Select | modal_analyzer.py:106-123 | the choice among the matches: specification function; Detector.SelectBest, SelectHinted and SelectedIsListed state what it picks |
| Detector.Decide | modal_analyzer.py:23-123 | the detector once the names are read: specification function; Detector.DecideUnhinted and DecideHinted state its answer in terms of survival and score |
| Detector.Detect | modal_analyzer.py:15-123 | `detect_intelligent_mode`: specification function; Detector.DetectIntelligentMode is proved to return it, and Detector.DetectInvalid, DetectedSurvives, DefaultTonicIsC and Regressions.UnhintedPhrygian state its answers |
| Detector.MapAll | modal_analyzer.py:23 | the list comprehension over a partial operation: all results in order, or None exactly when some element fails |
| Detector.DegreePath | modal_analyzer.py:40-50 | every chord's degree lies inside the mode, has the chord's interval from the tonic, and has a compatible quality |
| Detector.ChordDegrees | modal_analyzer.py:37-50 | the inner loop with its `break` reports a match exactly when the degree path exists, and then returns that path |
| Detector.BrokenPrefix | modal_analyzer.py:42-49 | once a prefix fails to fit, the whole progression fails, which justifies the `break` |
| Detector.ChordDegreeFits | modal_analyzer.py:41-49 | a chord has a degree in a mode exactly when its interval is in the mode and its quality is compatible there |
| Detector.SurvivesIff | modal_analyzer.py:37-52 | a pair survives exactly when every chord fits it |
| Detector.ScoreCandidate | modal_analyzer.py:53-101 | the nine scoring criteria, run as the program's sequence of increments, add up to the score function |
| Detector.CadenceCountIsPairs | modal_analyzer.py:59-62 | the cadence loop counts exactly the positions where degree V is followed by degree I |
| Detector.TonicStartIffRootIsTonic | modal_analyzer.py:55-74 | for a survivor, criterion 1 (first chord on degree I) fires exactly when criterion 5 (first root is the tonic) fires |
| Detector.VerdictOfPath | modal_analyzer.py:36-105 | a pair is scored exactly when its degree path exists, and its score is that path's score |
| Detector.PathLength | modal_analyzer.py:40-50 | the degree path of a pair has one degree per chord |
| Detector.TryPair | modal_analyzer.py:36-105 | one pass of the outer loops appends the candidate exactly when the pair survives |
| Detector.CollectModes | modal_analyzer.py:27-105 | the loop over the seven modes of one tonic extends the matches by exactly that tonic's survivors, in order |
| Detector.CollectMatches | modal_analyzer.py:24-105 | the two nested loops build exactly the list of all scored pairs in enumeration order |
| Detector.ListedBefore | modal_analyzer.py:26-105 | a candidate is in the list built so far exactly when its pair comes earlier in the enumeration and carries that pair's score |
| Detector.OrderedBefore | modal_analyzer.py:26-35 | the list is in strict enumeration order: tonic first, then mode |
| Detector.MatchesComplete | modal_analyzer.py:26-105 | a candidate is listed exactly when its pair survives and it carries the pair's score |
| Detector.ScorerMeansSurvival | modal_analyzer.py:52-105 | a pair has a score exactly when it survives, and the score is the criteria's sum for it |
| Detector.ScoredIffSurvives | modal_analyzer.py:52-105 | the same, for all pairs at once |
| Detector.MatchesListExactly | modal_analyzer.py:26-105 | the list holds every scored pair once, with its score, and nothing else |
| Detector.ListedWhenScored | modal_analyzer.py:103-105 | every scored pair is listed |
| Detector.ListedIsScored | modal_analyzer.py:103-105 | every listed candidate is a scored pair |
| Detector.FirstOnTonic | modal_analyzer.py:109-111 | the hint search finds the first listed candidate on the hinted tonic, and None means there is none |
| Detector.FindOnTonic | modal_analyzer.py:107-111 | the hint loop returns what the search function finds |
| Detector.BestIndex | modal_analyzer.py:122 | the head of a stable sort by descending score: its score is maximal and strictly above every earlier candidate's |
| Detector.BestOfOrderedList | modal_analyzer.py:122 | in an enumeration-ordered list, the chosen candidate beats every earlier pair strictly and every later pair weakly |
| Detector.BestPairUnique | modal_analyzer.py:122 | at most one pair is the best: maximal score, strictly above every earlier pair |
| Detector.NoneOnlyWhenNothingScores | modal_analyzer.py:117-119 | without a hinted match, the choice is "no mode" exactly when no pair scores |
| Detector.BestChoice | modal_analyzer.py:121-123 | from a non-empty exact list, the choice is the best pair |
| Detector.HintChoice | modal_analyzer.py:107-111 | the hint search succeeds exactly when some mode scores on the hinted tonic, and it finds that tonic's first such mode |
| Detector.SelectBest | modal_analyzer.py:107-123 | when the hinted tonic has no survivor, the answer is "no mode" exactly when nothing scores, and otherwise the best pair |
| Detector.SelectHinted | modal_analyzer.py:107-111 | when the hinted tonic has a survivor, the answer is on that tonic, in its first surviving mode |
| Detector.SelectBestOfMatches | modal_analyzer.py:107-123 | the unhinted choice over the program's own match list: "no mode" exactly when nothing scores, and otherwise the best pair |
| Detector.SelectHintedOfMatches | modal_analyzer.py:107-111 | the hinted choice over the program's own match list |
| Detector.NoScoreWithoutSurvivor | modal_analyzer.py:107-111 | a tonic with no surviving mode has no scored mode |
| Detector.NothingScoredIffNothingSurvives | modal_analyzer.py:117-119 | the program exits exactly when no pair of tonic and mode fits every chord |
| Detector.DecideUnhinted | modal_analyzer.py:106-123 | without a usable hint: "no mode" exactly when nothing survives, and otherwise the best-scoring pair, first in enumeration order among equals |
| Detector.DecideHinted | modal_analyzer.py:107-111 | with a hinted tonic that has a survivor: the answer is that tonic in its first surviving mode |
| Detector.SelectedIsListed | modal_analyzer.py:109-123 | every answer is a listed candidate |
| Detector.DetectInvalid | modal_analyzer.py:20-108 | the detector fails on a name exactly when the progression is non-empty and a chord, or a given hint, cannot be read |
| Detector.DetectedSurvives | modal_analyzer.py:15-123 | every detected pair of a non-empty progression fits every chord of it |
| Detector.DefaultTonicIsC | modal_analyzer.py:20-21 | the empty progression's answer is C Ionian |
| Detector.ModeIndexOfOrder | modal_analyzer.py:27-35 | the enumeration order lists each mode once |
| Detector.DetectIntelligentMode | modal_analyzer.py:15-123 | the imperative detector returns the specified outcome |
| Substitution.KeptHint | modal_analyzer.py:127-131 | the hint passed on to the detector, None when it is not a chord of the progression: specification function, used by Substitution.SubstitutionTable and Examples.ExampleHint |
| Substitution.TonicChord | modal_analyzer.py:145-148 | `next(...)`: the first chord whose root is the tonic, or the tonic's name when there is none; None exactly when reading a root before that point fails |
| Substitution.KeptPositions | modal_analyzer.py:154 | the positions a list comprehension with a condition keeps: in range, accepted, strictly increasing, and every accepted position is listed |
| Substitution.Without | modal_analyzer.py:154 | the filter keeps exactly the chords that differ from the given one, in order and with repeats: its k-th chord is the chord at the k-th kept position |
| Substitution.OffTonic | modal_analyzer.py:212-217 | the chords the rebuild loop replaces are no more than the chords of the progression |
| Substitution.OffTonicInOrder | modal_analyzer.py:212-217 | the replaced chords are the off-tonic chords in order, repeats included: the k-th is the chord at the k-th position whose root is not the tonic |
| Substitution.OffTonicMembers | modal_analyzer.py:212-217 | a chord is replaced exactly when it is in the progression and its root is not the tonic |
| Substitution.OffTonicAppend | modal_analyzer.py:212-217 | the replaced chords of a concatenation are the concatenation of the replaced chords |
| Substitution.OffTonicAt | modal_analyzer.py:212-217 | the replaced chord at position i is the k-th replaced chord, where k counts the replaced chords before i |
| Substitution.ChordsToSubstituteAsWritten | modal_analyzer.py:154-156 | as written: the chords whose text differs from the tonic chord, in order and with repeats (the k-th is the chord at the k-th such position), or all but the first when there are none |
| Substitution.ChordsToSubstitute | modal_analyzer.py:154-156 | corrected: exactly the chords whose root is not the tonic, the same list the rebuild loop replaces, or all but the first when every root is the tonic |
| Substitution.ChordsToSubstituteInOrder | modal_analyzer.py:154-156 | corrected: when some root is off the tonic, the k-th chord to substitute is the chord at the k-th off-tonic position, repeats included |
| Substitution.DegreeOfNumeral | modal_analyzer.py:163-175 | a degree found in a numeral is in 1..7 |
| Substitution.DegreeOfNumeralMeaning | modal_analyzer.py:163-175 | a degree is found exactly when the cleaned numeral is one of the roman numerals, and it is that numeral's position plus one |
| Substitution.WrittenNumeralDegree | modal_analyzer.py:163-173 | the numeral `get_roman_numeral` writes for degree d, in either case and with any suffix, cleans back to degree d+1 |
| Substitution.WrittenNumeralCleans | modal_analyzer.py:165-172 | the clean-up strips every suffix `get_roman_numeral` writes |
| Substitution.ParenthesisedNoDegree | modal_analyzer.py:174-175 | a parenthesised non-diatonic chord gives no degree |
| Substitution.NumeralDegree | modal_analyzer.py:158-173 | the degree read back from a chord's numeral is its interval's position in the mode plus one, and None when the interval is not in the mode |
| Substitution.NumeralDegreeIn | modal_analyzer.py:158-173 | the same, for any interval and quality tables no longer than the numerals |
| Substitution.NumeralInMode | modal_analyzer.py:158-173 | a chord on degree d of the mode reads back as degree d+1 |
| Substitution.NumeralOutsideMode | modal_analyzer.py:158-175 | a chord outside the mode gives no degree |
| Substitution.NumeralOfParsed | utils.py:57-68 | `get_roman_numeral` of a chord that parses is the numeral of its parsed root and quality |
| Substitution.IntervalListed | modal_analyzer.py:158-175 | a chord whose interval is listed in the mode always gives a degree |
| Substitution.FittingChordResolves | modal_analyzer.py:158-175 | a chord that fits the detected mode always gives a degree |
| Substitution.Resolved | modal_analyzer.py:177-181 | the kept degrees are at most as many as the numerals, and each is in 1..7 |
| Substitution.ResolvedAll | modal_analyzer.py:173-181 | when every numeral gives a degree, none is dropped and the k-th degree is the k-th numeral's |
| Substitution.BorrowDegrees | modal_analyzer.py:162-181 | the degree loop with its `try`/`except` and the later filter computes the kept degrees |
| Substitution.NoDegreeDropped | modal_analyzer.py:158-181 | with the corrected chords to substitute, every numeral of a detected mode gives a degree, so the warning never fires |
| Substitution.CleanNumeral | modal_analyzer.py:165-172 | the upper-casing and the five `replace` calls: specification function; Substitution.WrittenNumeralCleans, StripsMajorSeventh, StripsMinorSeventh, StripsHalfDiminished, StripsDiminished and StripKeepsParenthesis state what it removes |
| Substitution.RelativeTonic | modal_analyzer.py:191-192 | the relative major's tonic: specification function; Substitution.RelativeMajorSharesPitch and RelativeMajorSharesChord state what it means |
| Substitution.ModeIsRotation | modal_analyzer.py:191-209 | every mode is a rotation of the major scale: its degree i+1, shifted by the offset to its relative major, is the major scale's degree i+ModeIndex+1 (mod 7) |
| Substitution.QualitiesRotate | modal_analyzer.py:191-209 | the qualities of a mode are the major scale's qualities rotated by the mode's position |
| Substitution.RelativeMajorSharesPitch | modal_analyzer.py:205-209 | degree i+1 of a mode on t is the same pitch class as degree i+ModeIndex+1 (mod 7) of the major scale on the relative tonic |
| Substitution.RelativeMajorSharesChord | modal_analyzer.py:205-209 | the seventh chord on degree i+1 of a mode is the relative major's seventh chord on degree i+ModeIndex+1 (mod 7), so the borrowed chords are the mode's own |
| Substitution.Borrowed | modal_analyzer.py:206-209 | one borrowed chord per kept degree |
| Substitution.BorrowedOnDegree | modal_analyzer.py:206-209 | the k-th borrowed chord is the Ionian seventh chord of the relative major on the k-th numeral's degree |
| Substitution.Rebuild | modal_analyzer.py:210-217 | a rebuilt progression has the length of the original |
| Substitution.RebuildProgression | modal_analyzer.py:210-217 | the rebuild loop returns the specified rebuild, or None where it raises |
| Substitution.RebuildBroken | modal_analyzer.py:210-217 | once a prefix raises, the whole rebuild raises |
| Substitution.RebuildPositions | modal_analyzer.py:210-217 | in a rebuilt progression, a chord on the tonic stays, and every other chord becomes the next unused borrowed chord |
| Substitution.RebuildSucceeds | modal_analyzer.py:210-217 | the rebuild raises exactly when a root cannot be read or there are fewer borrowed chords than off-tonic chords |
| Substitution.SubstitutedNumeral | modal_analyzer.py:154-161 | with the corrected list, the numeral at the k-th off-tonic position is the numeral of that very chord |
| Substitution.SubstitutionAligned | modal_analyzer.py:206-217 | with the corrected list, every off-tonic chord is replaced by the relative major's chord on its own degree |
| Substitution.RowsBefore | modal_analyzer.py:202-225 | the rows the mode loop has built after its first k modes: specification function; Substitution.RowsInTableOrder and RowsSucceed state its length, order and failure |
| Substitution.RowsInTableOrder | modal_analyzer.py:202-225 | after k modes there are k rows, or k-1 once the detected mode is passed, and the j-th row is the mode at ModeOrder position j, or j+1 past the detected mode |
| Substitution.ModeRowSucceeds | modal_analyzer.py:205-217 | a mode's row is built exactly when every root can be read and there are no more off-tonic chords than borrowed degrees |
| Substitution.RowsSucceed | modal_analyzer.py:202-225 | the loop raises exactly when one row raises, which is the same condition for every mode |
| Substitution.RowsBuilt | modal_analyzer.py:202-225 | the six mode rows are built exactly when every root can be read and there are enough borrowed degrees |
| Substitution.TableFor | modal_analyzer.py:158-225 | the table for a detected pair: specification function; Substitution.TableRaises and TableRows state when it raises and its rows |
| Substitution.TableRaises | modal_analyzer.py:158-225 | the table never is "too short", and it raises exactly when a chord to substitute cannot be parsed, a root cannot be read, or fewer degrees are kept than off-tonic chords |
| Substitution.TableRows | modal_analyzer.py:184-225 | a built table has seven rows: the original mode's row first, then the six other modes in ModeOrder |
| Substitution.SubstitutionTable | modal_analyzer.py:126-225 | `create_substitution_table` with the corrected chords to substitute: specification function; Substitution.TableRaises, TableRows, NoDegreeDropped and SubstitutionAligned state its table |
| Substitution.SubstitutionTableAsWritten | modal_analyzer.py:126-225 | `create_substitution_table` as written: specification function; Substitution.CreateSubstitutionTable is proved to return it, and Examples.AsWrittenDorianRebuild shows its misalignment |
| Substitution.MakeRow | modal_analyzer.py:203-225 | one pass of the mode loop builds the specified row, or None where the rebuild raises |
| Substitution.BuildRows | modal_analyzer.py:202-225 | the mode loop builds the specified rows; when it does not raise there are exactly six, one per mode other than the detected one, in ModeOrder |
| Substitution.CreateSubstitutionTable | modal_analyzer.py:126-227 | the imperative table builder, with the filter of lines 154-156 as written, returns Substitution.SubstitutionTableAsWritten |
| Examples.ExampleRoots | utils.py:4-30 | `C`, `Cmaj7` and `G` have roots C, C and G |
| Examples.ExampleParse | utils.py:37-54 | `C - Cmaj7 - G` parses to the C major triad, C major seventh and G major triad |
| Examples.ExampleSurvives | modal_analyzer.py:37-52 | C Ionian survives for these chords |
| Examples.ExampleHint | modal_analyzer.py:127-131 | the hint `C` is kept and reads as C |
| Examples.ExampleDetect | modal_analyzer.py:15-123 | with the hint `C`, the detector answers C Ionian |
| Examples.ExampleSubstitutes | modal_analyzer.py:145-156 | the tonic chord is `C`; the chords to substitute are `Cmaj7, G` as written and `G` when corrected |
| Examples.AsWrittenDegrees | modal_analyzer.py:158-181 | the numerals of `Cmaj7, G` in C Ionian give degrees 1 and 5 |
| Examples.CorrectedDegrees | modal_analyzer.py:158-181 | the numeral of `G` in C Ionian gives degree 5 |
| Examples.ExampleBorrowed | modal_analyzer.py:205-209 | the Dorian row's relative major is A#; degrees 1, 5 borrow `A#maj7, F7`; degree 5 borrows `F7` |
| Examples.ExampleRebuild | modal_analyzer.py:210-217 | only `G` is off the tonic, so the rebuild keeps `C, Cmaj7` and puts the first borrowed chord in third place |
| Examples.AsWrittenDegreesOfExample | modal_analyzer.py:138-181 | as written, the table for `C - Cmaj7 - G` with the hint `C` borrows degrees 1 and 5 |
| Examples.CorrectedDegreesOfExample | modal_analyzer.py:138-181 | corrected, the same table borrows degree 5 only |
| Examples.AsWrittenDorianRebuild | modal_analyzer.py:202-218 | as written, the Dorian row replaces `G` (degree V) with `A#maj7`, the chord of degree I |
| Examples.CorrectedDorianRebuild | modal_analyzer.py:202-218 | corrected, the Dorian row replaces `G` with `F7`, the chord of degree V |
| ChordTests.TonicC | test_analyzer.py:14 | `get_note_index("C")` is 0 |
| ChordTests.TonicD | test_analyzer.py:25 | `get_note_index("D")` is 2 |
| ChordTests.TonicG | test_analyzer.py:31 | `get_note_index("G")` is 7 |
| ChordTests.TonicA | test_analyzer.py:37 | `get_note_index("A")` is 9 |
| ChordTests.IonianSevenths | test_analyzer.py:13-23 | C Ionian degrees 1, 4, 5, 1 give `Cmaj7, Fmaj7, G7, Cmaj7` |
| ChordTests.DorianSevenths | test_analyzer.py:24-29 | D Dorian degrees 1, 4, 7, 1 give `Dm7, G7, Cmaj7, Dm7` |
| ChordTests.MixolydianSevenths | test_analyzer.py:30-35 | G Mixolydian degrees 2, 5, 6, 1 give `Am7, Dm7, Em7, G7` |
| ChordTests.AeolianSevenths | test_analyzer.py:36-41 | A Aeolian degrees 1, 2, 3, 7 give `Am7, Bm7b5, Cmaj7, G7` |
| Regressions.PhrygianParse | utils.py:37-54 | `Em7, Bm7b5, Am7` parse to E minor seventh, B half-diminished seventh and A minor seventh |
| Regressions.HalfDiminishedPinsScale | modal_analyzer.py:40-49 | a pair that a B half-diminished chord fits is a mode of C major: its relative tonic is C |
| Regressions.PhrygianScore | modal_analyzer.py:53-101 | E Phrygian's path I, v, iv on `Em7` scores 7.5 (doubled 15): criteria 1, 4, 5 and 8 |
| Regressions.AeolianScore | modal_analyzer.py:53-101 | A Aeolian's path v, ii, i scores 1.5 (doubled 3): criteria 3 and 4 |
| Regressions.LocrianScore | modal_analyzer.py:53-101 | B Locrian's path iv, i, vii scores 0 |
| Regressions.OffTonicScore | modal_analyzer.py:53-101 | a three-chord path with no degree I and a first root off the tonic scores only criterion 4 |
| Regressions.ScoreOfPath | modal_analyzer.py:36-101 | a pair with a known degree path survives, and its score is that path's score |
| Regressions.IonianPair | modal_analyzer.py:36-105 | C Ionian survives `Em7, Bm7b5, Am7` with score 0 |
| Regressions.DorianPair | modal_analyzer.py:36-105 | D Dorian survives with score 0.5 |
| Regressions.PhrygianPair | modal_analyzer.py:36-105 | E Phrygian survives with score 7.5 |
| Regressions.LydianPair | modal_analyzer.py:36-105 | F Lydian survives with score 0 |
| Regressions.MixolydianPair | modal_analyzer.py:36-105 | G Mixolydian survives with score 0 |
| Regressions.AeolianPair | modal_analyzer.py:36-105 | A Aeolian survives with score 1.5 |
| Regressions.LocrianPair | modal_analyzer.py:36-105 | B Locrian survives with score 0 |
| Regressions.SurvivorScore | modal_analyzer.py:36-105 | every survivor scores at most 7.5, and every survivor before E Phrygian in the enumeration scores less |
| Regressions.PhrygianIsBest | modal_analyzer.py:121-123 | E Phrygian is the best pair: highest score, strictly above every earlier pair |
| Regressions.UnhintedPhrygian | test_analyzer.py:86 | without a hint, `Em7 - Bm7b5 - Am7` (E Phrygian i - v - iv, as `test_02` builds it) is detected as E Phrygian |

## Left out

- Printing is not modelled: the `print` calls, `tabulate`'s grid, and the warning messages. The table is returned as headers and rows of strings.
- `main.py` is not part of this model. It calls `create_substitution_table` on three fixed progressions.
- `constants.py` is not part of this model. Its tables are written out in `Tables.dfy` as the standard diatonic values.
- `exit(1)` when no mode fits is the outcome `NoModeFound` (`Raised` inside the table), not a process exit.
- Exceptions are results, not Python exception types: a `ValueError` from `NOTES.index` or `ROMAN_DEGREES.index`, and an `IndexError` from `borrowed_chords[...]` or from `base_progression[0]` in the warning for an empty progression with a hint.
- Scores are doubled integers, because criterion 4 adds 0.5. Comparisons and order are unchanged; floating point is not modelled.
- `Text.Upper` maps only `a`-`z` and `ø`. Python's full Unicode case mapping is not modelled; the analyser's own markers need no more.
- Strings are sequences of code points, with no Unicode normalisation.
- Substitution.OffTonic: its own contract bounds the length only. The members, their order and repeats are in Substitution.OffTonicMembers and Substitution.OffTonicInOrder.
- Substitution.ChordsToSubstitute: its own contract states membership and equality with the rebuild's list. Order and repeats are in Substitution.ChordsToSubstituteInOrder.
- Substitution.Rebuild, Substitution.ChordsToSubstitute and Substitution.TonicChord take the root reader as a parameter, and several lemmas are stated for any reader. The table functions always pass `get_note_index`.
- Substitution.DegreeOfNumeral and Substitution.Resolved state bounds in their own contracts. The exact meaning is in Substitution.DegreeOfNumeralMeaning and Substitution.ResolvedAll.

## Findings

| source | as written | input that shows it | evidently intended | confidence | as-written member | corrected member |
|---|---|---|---|---|---|---|
| modal_analyzer.py:154-156 | the chords to substitute are the chords whose text differs from the first tonic chord, while the rebuild at lines 210-218 replaces the chords whose root differs from the tonic, so the two lists can disagree | `["C", "Cmaj7", "G"]` with tonic `C`: `Cmaj7` is numbered (degree I) but kept by the rebuild, so in the Dorian row `G` becomes `A#maj7` (degree I) instead of `F7` (degree V) | the chords to substitute are the chords the rebuild replaces (root not on the tonic), so each replaced chord gets the borrowed chord on its own degree | not executed | Substitution.SubstitutionTableAsWritten, Examples.AsWrittenDegreesOfExample, Examples.AsWrittenDorianRebuild | Substitution.ChordsToSubstitute, Substitution.SubstitutionAligned, Examples.CorrectedDegreesOfExample, Examples.CorrectedDorianRebuild |

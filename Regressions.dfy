/** The seventh chords the test suite pins for four modes
    (test_analyzer.py, test_01), and the tonics it reads by name. */
module ChordTests {
  import opened Wrappers
  import opened Tables
  import opened Chords
  import ChordFacts

  /** The tonics of the four cases, read by get_note_index: C, D, G, A. */
  lemma TonicC(tonic: string)
    requires tonic == "C"
    ensures GetNoteIndex(tonic) == Some(0)
  {
    assert tonic == ['C'] && 'C' in "CDEFGABcdefgab";
    ChordFacts.NaturalSpelling('C');
    assert ChordFacts.NaturalPitch('C') == 0;
  }

  lemma TonicD(tonic: string)
    requires tonic == "D"
    ensures GetNoteIndex(tonic) == Some(2)
  {
    assert tonic == ['D'] && 'D' in "CDEFGABcdefgab";
    ChordFacts.NaturalSpelling('D');
    assert ChordFacts.NaturalPitch('D') == 2;
  }

  lemma TonicG(tonic: string)
    requires tonic == "G"
    ensures GetNoteIndex(tonic) == Some(7)
  {
    assert tonic == ['G'] && 'G' in "CDEFGABcdefgab";
    ChordFacts.NaturalSpelling('G');
    assert ChordFacts.NaturalPitch('G') == 7;
  }

  lemma TonicA(tonic: string)
    requires tonic == "A"
    ensures GetNoteIndex(tonic) == Some(9)
  {
    assert tonic == ['A'] && 'A' in "CDEFGABcdefgab";
    ChordFacts.NaturalSpelling('A');
    assert ChordFacts.NaturalPitch('A') == 9;
  }

  /** C Ionian, degrees I IV V I: Cmaj7, Fmaj7, G7, Cmaj7. */
  lemma IonianSevenths(degrees: seq<nat>)
    requires degrees == [1, 4, 5, 1]
    ensures GetDiatonic7thChord(degrees[0], 0, Ionian) == "Cmaj7"
    ensures GetDiatonic7thChord(degrees[1], 0, Ionian) == "Fmaj7"
    ensures GetDiatonic7thChord(degrees[2], 0, Ionian) == "G7"
    ensures GetDiatonic7thChord(degrees[3], 0, Ionian) == "Cmaj7"
  {
    assert degrees[0] == 1 && degrees[1] == 4 && degrees[2] == 5 && degrees[3] == 1;
    assert Intervals(Ionian)[0] == 0 && Intervals(Ionian)[3] == 5 && Intervals(Ionian)[4] == 7;
    assert Qualities(Ionian)[0] == Major7 && Qualities(Ionian)[3] == Major7 && Qualities(Ionian)[4] == Dominant7;
    assert GetNoteFromIndex(0) == "C" && GetNoteFromIndex(5) == "F" && GetNoteFromIndex(7) == "G";
    assert ChordSuffix(Major7) == "maj7" && ChordSuffix(Dominant7) == "7";
  }

  /** D Dorian, degrees I IV VII I: Dm7, G7, Cmaj7, Dm7. */
  lemma DorianSevenths(degrees: seq<nat>)
    requires degrees == [1, 4, 7, 1]
    ensures GetDiatonic7thChord(degrees[0], 2, Dorian) == "Dm7"
    ensures GetDiatonic7thChord(degrees[1], 2, Dorian) == "G7"
    ensures GetDiatonic7thChord(degrees[2], 2, Dorian) == "Cmaj7"
    ensures GetDiatonic7thChord(degrees[3], 2, Dorian) == "Dm7"
  {
    assert degrees[0] == 1 && degrees[1] == 4 && degrees[2] == 7 && degrees[3] == 1;
    assert Intervals(Dorian)[0] == 0 && Intervals(Dorian)[3] == 5 && Intervals(Dorian)[6] == 10;
    assert Qualities(Dorian)[0] == Minor7 && Qualities(Dorian)[3] == Dominant7 && Qualities(Dorian)[6] == Major7;
    assert GetNoteFromIndex(2) == "D" && GetNoteFromIndex(7) == "G" && GetNoteFromIndex(12) == "C";
    assert ChordSuffix(Minor7) == "m7" && ChordSuffix(Dominant7) == "7" && ChordSuffix(Major7) == "maj7";
  }

  /** G Mixolydian, degrees II V VI I: Am7, Dm7, Em7, G7. */
  lemma MixolydianSevenths(degrees: seq<nat>)
    requires degrees == [2, 5, 6, 1]
    ensures GetDiatonic7thChord(degrees[0], 7, Mixolydian) == "Am7"
    ensures GetDiatonic7thChord(degrees[1], 7, Mixolydian) == "Dm7"
    ensures GetDiatonic7thChord(degrees[2], 7, Mixolydian) == "Em7"
    ensures GetDiatonic7thChord(degrees[3], 7, Mixolydian) == "G7"
  {
    assert degrees[0] == 2 && degrees[1] == 5 && degrees[2] == 6 && degrees[3] == 1;
    assert Intervals(Mixolydian)[1] == 2 && Intervals(Mixolydian)[4] == 7 && Intervals(Mixolydian)[5] == 9;
    assert Intervals(Mixolydian)[0] == 0;
    assert Qualities(Mixolydian)[1] == Minor7 && Qualities(Mixolydian)[4] == Minor7 && Qualities(Mixolydian)[5] == Minor7;
    assert Qualities(Mixolydian)[0] == Dominant7;
    assert GetNoteFromIndex(9) == "A" && GetNoteFromIndex(14) == "D" && GetNoteFromIndex(16) == "E";
    assert GetNoteFromIndex(7) == "G";
    assert ChordSuffix(Minor7) == "m7" && ChordSuffix(Dominant7) == "7";
  }

  /** A Aeolian, degrees I II III VII: Am7, Bm7b5, Cmaj7, G7. */
  lemma AeolianSevenths(degrees: seq<nat>)
    requires degrees == [1, 2, 3, 7]
    ensures GetDiatonic7thChord(degrees[0], 9, Aeolian) == "Am7"
    ensures GetDiatonic7thChord(degrees[1], 9, Aeolian) == "Bm7b5"
    ensures GetDiatonic7thChord(degrees[2], 9, Aeolian) == "Cmaj7"
    ensures GetDiatonic7thChord(degrees[3], 9, Aeolian) == "G7"
  {
    assert degrees[0] == 1 && degrees[1] == 2 && degrees[2] == 3 && degrees[3] == 7;
    assert Intervals(Aeolian)[0] == 0 && Intervals(Aeolian)[1] == 2 && Intervals(Aeolian)[2] == 3;
    assert Intervals(Aeolian)[6] == 10;
    assert Qualities(Aeolian)[0] == Minor7 && Qualities(Aeolian)[1] == HalfDiminished7 && Qualities(Aeolian)[2] == Major7;
    assert Qualities(Aeolian)[6] == Dominant7;
    assert GetNoteFromIndex(9) == "A" && GetNoteFromIndex(11) == "B" && GetNoteFromIndex(12) == "C";
    assert GetNoteFromIndex(19) == "G";
    assert ChordSuffix(Minor7) == "m7" && ChordSuffix(HalfDiminished7) == "m7b5";
    assert ChordSuffix(Major7) == "maj7" && ChordSuffix(Dominant7) == "7";
  }
}

/** The unhinted detection of Em7 - Bm7b5 - Am7 as E Phrygian. As in
    Examples, the progression is a parameter fixed by a precondition and
    the chord names are read through their spellings `Notes[k] + suffix`. */
module Regressions {
  import opened Wrappers
  import opened Tables
  import opened Chords
  import opened Detector
  import ChordFacts
  import Examples
  import Substitution

  // ---------------------------------------------------------------------
  // Em7 - Bm7b5 - Am7 without a hint

  predicate IsPhrygianExample(base: seq<string>)
  {
    base == ["Em7", "Bm7b5", "Am7"]
  }

  /** The names parse as E minor seventh, B half-diminished and A minor
      seventh. */
  lemma PhrygianParse(base: seq<string>)
    requires IsPhrygianExample(base)
    ensures ParseAll(base) == Some([Chord(4, Minor7), Chord(11, HalfDiminished7), Chord(9, Minor7)])
  {
    assert base[0] == Notes[4] + ChordFacts.QualitySuffix(Minor7);
    assert base[1] == Notes[11] + ChordFacts.QualitySuffix(HalfDiminished7);
    assert base[2] == Notes[9] + ChordFacts.QualitySuffix(Minor7);
    ChordFacts.ParseSpelledChord(4, Minor7);
    ChordFacts.ParseSpelledChord(11, HalfDiminished7);
    ChordFacts.ParseSpelledChord(9, Minor7);
    Examples.MapAllOfThree(ParseChord, base, [Chord(4, Minor7), Chord(11, HalfDiminished7), Chord(9, Minor7)]);
  }

  /** Each mode has one half-diminished degree, so a B half-diminished chord
      fits a pair only when the pair is a mode of C major. */
  lemma HalfDiminishedPinsScale(t: PitchClass, m: Mode)
    requires Fits(Chord(11, HalfDiminished7), t, m)
    ensures t == -RelativeOffset(m)
    ensures Substitution.RelativeTonic(t, m) == 0
  {
    var d :| 0 <= d < 7 && Intervals(m)[d] == IntervalFrom(11, t)
             && IsChordCompatible(HalfDiminished7, Qualities(m)[d]);
    assert Qualities(m)[d] == HalfDiminished7;
    match m
    case Ionian => assert d == 6;
    case Dorian => assert d == 5;
    case Phrygian => assert d == 4;
    case Lydian => assert d == 3;
    case Mixolydian => assert d == 2;
    case Aeolian => assert d == 1;
    case Locrian => assert d == 0;
  }

  /** A path is the list of degrees whose intervals the chords sit on, with
      compatible qualities. */
  lemma PathOf(chords: seq<Chord>, t: PitchClass, m: Mode, p: seq<nat>)
    requires |p| == |chords|
    requires forall i :: 0 <= i < |p| ==>
               p[i] < 7 && Intervals(m)[p[i]] == IntervalFrom(chords[i].root, t)
               && IsChordCompatible(chords[i].quality, Qualities(m)[p[i]])
    ensures Path(chords, t, m) == Some(p)
  {
    forall i | 0 <= i < |chords|
      ensures Fits(chords[i], t, m)
    {
      assert Intervals(m)[p[i]] == IntervalFrom(chords[i].root, t);
    }
    SurvivesIff(chords, t, m);
    TablesWellFormed(m);
    var q := DegreePath(chords, t, Intervals(m), Qualities(m)).value;
    assert |q| == |p|;
    assert q == p;
  }

  /** Three chords sitting on the degrees d0, d1, d2 of (t, m). */
  lemma PathOfThree(chords: seq<Chord>, t: PitchClass, m: Mode, d0: nat, d1: nat, d2: nat)
    requires |chords| == 3 && d0 < 7 && d1 < 7 && d2 < 7
    requires Intervals(m)[d0] == IntervalFrom(chords[0].root, t) && IsChordCompatible(chords[0].quality, Qualities(m)[d0])
    requires Intervals(m)[d1] == IntervalFrom(chords[1].root, t) && IsChordCompatible(chords[1].quality, Qualities(m)[d1])
    requires Intervals(m)[d2] == IntervalFrom(chords[2].root, t) && IsChordCompatible(chords[2].quality, Qualities(m)[d2])
    ensures Path(chords, t, m) == Some([d0, d1, d2])
  {
    PathOf(chords, t, m, [d0, d1, d2]);
  }

  /** The degree paths of C Ionian, D Dorian and E Phrygian. */
  lemma PathsUpToPhrygian(chords: seq<Chord>)
    requires chords == [Chord(4, Minor7), Chord(11, HalfDiminished7), Chord(9, Minor7)]
    ensures Path(chords, 0, Ionian) == Some([2, 6, 5])
    ensures Path(chords, 2, Dorian) == Some([1, 5, 4])
    ensures Path(chords, 4, Phrygian) == Some([0, 4, 3])
  {
    PathOfThree(chords, 0, Ionian, 2, 6, 5);
    PathOfThree(chords, 2, Dorian, 1, 5, 4);
    PathOfThree(chords, 4, Phrygian, 0, 4, 3);
  }

  /** The degree paths of F Lydian and G Mixolydian. */
  lemma PathsLydianMixolydian(chords: seq<Chord>)
    requires chords == [Chord(4, Minor7), Chord(11, HalfDiminished7), Chord(9, Minor7)]
    ensures Path(chords, 5, Lydian) == Some([6, 3, 2])
    ensures Path(chords, 7, Mixolydian) == Some([5, 2, 1])
  {
    PathOfThree(chords, 5, Lydian, 6, 3, 2);
    PathOfThree(chords, 7, Mixolydian, 5, 2, 1);
  }

  /** The degree paths of A Aeolian and B Locrian. */
  lemma PathsAeolianLocrian(chords: seq<Chord>)
    requires chords == [Chord(4, Minor7), Chord(11, HalfDiminished7), Chord(9, Minor7)]
    ensures Path(chords, 9, Aeolian) == Some([4, 1, 0])
    ensures Path(chords, 11, Locrian) == Some([3, 0, 6])
  {
    PathOfThree(chords, 9, Aeolian, 4, 1, 0);
    PathOfThree(chords, 11, Locrian, 3, 0, 6);
  }

  /** E Phrygian: I first, on the tonic's own root and written "Em7" (3 + 2
      + 2 points), and degree V present (0.5): 7.5 points, doubled 15. */
  lemma PhrygianScore(path: seq<nat>, base: seq<string>)
    requires IsPhrygianExample(base) && path == [0, 4, 3]
    ensures Score(path, base, 4, 4) == 15
  {
    assert path[..|path| - 1] == [0, 4] && [0, 4][..1] == [0];
    assert CadenceCount(path) == 0;
    assert path[|path| - 3..] == path && path[..3] == path;
    assert base[0][|base[0]| - 1..] == "7";
  }

  /** A Aeolian: the last chord on I (1 point) and degree V present (0.5):
      doubled 3. */
  lemma AeolianScore(path: seq<nat>, base: seq<string>)
    requires IsPhrygianExample(base) && path == [4, 1, 0]
    ensures Score(path, base, 4, 9) == 3
  {
    assert path[..|path| - 1] == [4, 1] && [4, 1][..1] == [4];
    assert CadenceCount(path) == 0;
    assert path[|path| - 3..] == path && path[..3] == path;
  }

  /** A path of three degrees none of which is I, whose first root is not
      the tonic, scores only for a degree V in it. */
  lemma OffTonicScore(path: seq<nat>, base: seq<string>, firstRoot: PitchClass, t: PitchClass)
    requires |path| == |base| == 3 && 0 !in path && firstRoot != t
    ensures Score(path, base, firstRoot, t) == if 4 in path then 1 else 0
  {
    var front := path[..|path| - 1];
    assert |front[..|front| - 1]| == 1 && front[|front| - 1] == path[1] && path[1] != 0;
    assert CadenceCount(front) == 0;
    assert path[2] != 0;
    assert path[|path| - 3..] == path && path[..3] == path;
  }

  /** B Locrian: its one chord on I is in the middle, after a degree other
      than V: no points. */
  lemma LocrianScore(path: seq<nat>, base: seq<string>)
    requires IsPhrygianExample(base) && path == [3, 0, 6]
    ensures Score(path, base, 4, 11) == 0
  {
    assert path[..|path| - 1] == [3, 0] && [3, 0][..1] == [3];
    assert CadenceCount(path) == 0;
    assert path[|path| - 3..] == path && path[..3] == path;
  }

  /** C Ionian survives with the doubled score 0 (no chord on I and no V). */
  lemma IonianPair(chords: seq<Chord>, base: seq<string>)
    requires IsPhrygianExample(base)
    requires chords == [Chord(4, Minor7), Chord(11, HalfDiminished7), Chord(9, Minor7)]
    ensures Survives(chords, 0, Ionian) && ScoreOf(chords, base, 0, Ionian) == 0
  {
    PathsUpToPhrygian(chords);
    OffTonicScore(Path(chords, 0, Ionian).value, base, 4, 0);
    ScoreOfPath(chords, base, 0, Ionian, Path(chords, 0, Ionian).value);
  }

  /** D Dorian survives with the doubled score 1 (degree V present). */
  lemma DorianPair(chords: seq<Chord>, base: seq<string>)
    requires IsPhrygianExample(base)
    requires chords == [Chord(4, Minor7), Chord(11, HalfDiminished7), Chord(9, Minor7)]
    ensures Survives(chords, 2, Dorian) && ScoreOf(chords, base, 2, Dorian) == 1
  {
    PathsUpToPhrygian(chords);
    OffTonicScore(Path(chords, 2, Dorian).value, base, 4, 2);
    ScoreOfPath(chords, base, 2, Dorian, Path(chords, 2, Dorian).value);
  }

  /** E Phrygian survives with the doubled score 15 (see PhrygianScore). */
  lemma PhrygianPair(chords: seq<Chord>, base: seq<string>)
    requires IsPhrygianExample(base)
    requires chords == [Chord(4, Minor7), Chord(11, HalfDiminished7), Chord(9, Minor7)]
    ensures Survives(chords, 4, Phrygian) && ScoreOf(chords, base, 4, Phrygian) == 15
  {
    PathsUpToPhrygian(chords);
    PhrygianScore(Path(chords, 4, Phrygian).value, base);
    ScoreOfPath(chords, base, 4, Phrygian, Path(chords, 4, Phrygian).value);
  }

  /** F Lydian survives with the doubled score 0 (no chord on I and no V). */
  lemma LydianPair(chords: seq<Chord>, base: seq<string>)
    requires IsPhrygianExample(base)
    requires chords == [Chord(4, Minor7), Chord(11, HalfDiminished7), Chord(9, Minor7)]
    ensures Survives(chords, 5, Lydian) && ScoreOf(chords, base, 5, Lydian) == 0
  {
    PathsLydianMixolydian(chords);
    OffTonicScore(Path(chords, 5, Lydian).value, base, 4, 5);
    ScoreOfPath(chords, base, 5, Lydian, Path(chords, 5, Lydian).value);
  }

  /** G Mixolydian survives with the doubled score 0 (no chord on I and no V). */
  lemma MixolydianPair(chords: seq<Chord>, base: seq<string>)
    requires IsPhrygianExample(base)
    requires chords == [Chord(4, Minor7), Chord(11, HalfDiminished7), Chord(9, Minor7)]
    ensures Survives(chords, 7, Mixolydian) && ScoreOf(chords, base, 7, Mixolydian) == 0
  {
    PathsLydianMixolydian(chords);
    OffTonicScore(Path(chords, 7, Mixolydian).value, base, 4, 7);
    ScoreOfPath(chords, base, 7, Mixolydian, Path(chords, 7, Mixolydian).value);
  }

  /** A Aeolian survives with the doubled score 3 (see AeolianScore). */
  lemma AeolianPair(chords: seq<Chord>, base: seq<string>)
    requires IsPhrygianExample(base)
    requires chords == [Chord(4, Minor7), Chord(11, HalfDiminished7), Chord(9, Minor7)]
    ensures Survives(chords, 9, Aeolian) && ScoreOf(chords, base, 9, Aeolian) == 3
  {
    PathsAeolianLocrian(chords);
    AeolianScore(Path(chords, 9, Aeolian).value, base);
    ScoreOfPath(chords, base, 9, Aeolian, Path(chords, 9, Aeolian).value);
  }

  /** B Locrian survives with the doubled score 0 (see LocrianScore). */
  lemma LocrianPair(chords: seq<Chord>, base: seq<string>)
    requires IsPhrygianExample(base)
    requires chords == [Chord(4, Minor7), Chord(11, HalfDiminished7), Chord(9, Minor7)]
    ensures Survives(chords, 11, Locrian) && ScoreOf(chords, base, 11, Locrian) == 0
  {
    PathsAeolianLocrian(chords);
    LocrianScore(Path(chords, 11, Locrian).value, base);
    ScoreOfPath(chords, base, 11, Locrian, Path(chords, 11, Locrian).value);
  }

  /** The score of a surviving pair is the score of its path. */
  lemma ScoreOfPath(chords: seq<Chord>, base: seq<string>, t: PitchClass, m: Mode, path: seq<nat>)
    requires |chords| == |base| > 0 && Path(chords, t, m) == Some(path)
    ensures Survives(chords, t, m)
    ensures ScoreOf(chords, base, t, m) == Score(path, base, chords[0].root, t)
  {
    assert |path| == |chords| by {
      assert Path(chords, t, m) == DegreePath(chords, t, Intervals(m), Qualities(m));
    }
  }

  /** Every pair that survives is a mode of C major and scores at most
      E Phrygian's 15; the two enumerated before E Phrygian, C Ionian and
      D Dorian, score less. */
  lemma SurvivorScore(chords: seq<Chord>, base: seq<string>, t: PitchClass, m: Mode)
    requires IsPhrygianExample(base)
    requires chords == [Chord(4, Minor7), Chord(11, HalfDiminished7), Chord(9, Minor7)]
    requires Survives(chords, t, m)
    ensures ScoreOf(chords, base, t, m) <= 15
    ensures Key(t, m) < Key(4, Phrygian) ==> ScoreOf(chords, base, t, m) < 15
  {
    SurvivesIff(chords, t, m);
    assert Fits(chords[1], t, m);
    HalfDiminishedPinsScale(t, m);
    match m
    case Ionian => IonianPair(chords, base);
    case Dorian => DorianPair(chords, base);
    case Phrygian => PhrygianPair(chords, base);
    case Lydian => LydianPair(chords, base);
    case Mixolydian => MixolydianPair(chords, base);
    case Aeolian => AeolianPair(chords, base);
    case Locrian => LocrianPair(chords, base);
  }

  /** E Phrygian is the best pair. */
  lemma PhrygianIsBest(chords: seq<Chord>, base: seq<string>)
    requires IsPhrygianExample(base)
    requires chords == [Chord(4, Minor7), Chord(11, HalfDiminished7), Chord(9, Minor7)]
    ensures IsBestPair(Scorer(chords, base), 4, Phrygian)
  {
    var score := Scorer(chords, base);
    PhrygianPair(chords, base);
    ScorerMeansSurvival(chords, base, 4, Phrygian);
    forall t: PitchClass, m: Mode | score(t, m).Some?
      ensures score(t, m).value <= score(4, Phrygian).value
      ensures Key(t, m) < Key(4, Phrygian) ==> score(t, m).value < score(4, Phrygian).value
    {
      ScorerMeansSurvival(chords, base, t, m);
      SurvivorScore(chords, base, t, m);
    }
  }

  /** Without a hint, Em7 - Bm7b5 - Am7 is detected as E Phrygian. */
  lemma UnhintedPhrygian(base: seq<string>)
    requires IsPhrygianExample(base)
    ensures Detect(base, None) == Detected(4, Phrygian)
  {
    var chords := [Chord(4, Minor7), Chord(11, HalfDiminished7), Chord(9, Minor7)];
    PhrygianParse(base);
    PhrygianPair(chords, base);
    PhrygianIsBest(chords, base);
    DecideUnhinted(base, chords, None);
    var outcome := Decide(base, Some(chords), None);
    assert outcome.Detected?;
    BestPairUnique(Scorer(chords, base), outcome.tonic, outcome.mode, 4, Phrygian);
  }
}

/** The progression C - Cmaj7 - G analysed with the hint C: it is detected
    as C Ionian, and its Dorian row borrows from A# (B-flat) major. As
    written, the chords to substitute are Cmaj7 and G, so the degrees are
    I and V while the rebuild only replaces G, which then takes the
    borrowed I chord A#maj7. Taking the off-tonic chords instead gives the
    single degree V, and G takes the borrowed V chord F7.

    The names are kept in a parameter fixed by the precondition, and each
    one is read through its spelling `Notes[k] + suffix`, so that no
    lemma here asks the verifier to evaluate the parser on a literal. */
module Examples {
  import opened Wrappers
  import opened Tables
  import opened Chords
  import opened Detector
  import opened Substitution
  import ChordFacts

  predicate IsExample(base: seq<string>)
  {
    base == ["C", "Cmaj7", "G"]
  }

  /** The roots get_note_index reads from the three names. */
  lemma ExampleRoots(base: seq<string>)
    requires IsExample(base)
    ensures GetNoteIndex(base[0]) == Some(0)
    ensures GetNoteIndex(base[1]) == Some(0)
    ensures GetNoteIndex(base[2]) == Some(7)
  {
    assert base[0] == Notes[0] + "" && base[1] == Notes[0] + "maj7" && base[2] == Notes[7] + "";
    ChordFacts.SuffixKeepsRoot(0, "");
    ChordFacts.SuffixKeepsRoot(0, "maj7");
    ChordFacts.SuffixKeepsRoot(7, "");
  }

  /** The names parse as a C major triad, C major seventh and G major triad. */
  lemma ExampleParse(base: seq<string>)
    requires IsExample(base)
    ensures ParseAll(base) == Some([Chord(0, MajorTriad), Chord(0, Major7), Chord(7, MajorTriad)])
  {
    assert base[0] == Notes[0] + ChordFacts.QualitySuffix(MajorTriad);
    assert base[1] == Notes[0] + ChordFacts.QualitySuffix(Major7);
    assert base[2] == Notes[7] + ChordFacts.QualitySuffix(MajorTriad);
    ChordFacts.ParseSpelledChord(0, MajorTriad);
    ChordFacts.ParseSpelledChord(0, Major7);
    ChordFacts.ParseSpelledChord(7, MajorTriad);
    MapAllOfThree(ParseChord, base, [Chord(0, MajorTriad), Chord(0, Major7), Chord(7, MajorTriad)]);
  }

  /** Three names that each map to a value map to the three values. */
  lemma MapAllOfThree<A, B>(f: A -> Option<B>, xs: seq<A>, ys: seq<B>)
    requires |xs| == |ys| == 3
    requires f(xs[0]) == Some(ys[0]) && f(xs[1]) == Some(ys[1]) && f(xs[2]) == Some(ys[2])
    ensures MapAll(f, xs) == Some(ys)
  {
    assert forall i :: 0 <= i < |xs| ==> f(xs[i]) == Some(ys[i]);
    var r := MapAll(f, xs);
    assert r.Some?;
    assert r.value == ys;
  }

  /** Every chord of the progression fits C Ionian: C and Cmaj7 on degree I,
      G on degree V. */
  lemma ExampleSurvives(chords: seq<Chord>)
    requires chords == [Chord(0, MajorTriad), Chord(0, Major7), Chord(7, MajorTriad)]
    ensures Survives(chords, 0, Ionian)
  {
    assert Intervals(Ionian)[0] == IntervalFrom(0, 0) && Intervals(Ionian)[4] == IntervalFrom(7, 0);
    assert IsChordCompatible(MajorTriad, Qualities(Ionian)[0]);
    assert IsChordCompatible(Major7, Qualities(Ionian)[0]);
    assert IsChordCompatible(MajorTriad, Qualities(Ionian)[4]);
    assert Fits(chords[0], 0, Ionian) && Fits(chords[1], 0, Ionian) && Fits(chords[2], 0, Ionian);
    SurvivesIff(chords, 0, Ionian);
  }

  /** The hint C is a chord of the progression, so it is passed on, and it
      reads as the tonic C. */
  lemma ExampleHint(base: seq<string>, hint: Option<string>)
    requires IsExample(base) && hint == Some(base[0])
    ensures KeptHint(base, hint) == hint
    ensures HintLookup(hint) == Some(Some(0))
  {
    assert base[0] == Notes[0] + "" && base[0] != "";
    ChordFacts.SuffixKeepsRoot(0, "");
  }

  /** A hinted tonic on which Ionian survives is detected as Ionian: Ionian
      is the first mode the hinted choice tries. */
  lemma HintedIonian(progression: seq<string>, chords: seq<Chord>, h: PitchClass)
    requires |chords| == |progression| > 0 && Survives(chords, h, Ionian)
    ensures Decide(progression, Some(chords), Some(Some(h))) == Detected(h, Ionian)
  {
    DecideHinted(progression, chords, h, Ionian);
    ScorerMeansSurvival(chords, progression, h, Ionian);
    FirstModeOfHintPair(Scorer(chords, progression), h, Decide(progression, Some(chords), Some(Some(h))).mode);
  }

  /** A hint pair is on the first mode that scores, so it is Ionian when
      Ionian scores. */
  lemma FirstModeOfHintPair(score: (PitchClass, Mode) -> Option<int>, h: PitchClass, m: Mode)
    requires IsHintPair(score, h, m) && score(h, Ionian).Some?
    ensures m == Ionian
  {
  }

  /** With the hint C the detector settles on C Ionian. */
  lemma ExampleDetect(base: seq<string>, hint: Option<string>)
    requires IsExample(base) && hint == Some(base[0])
    ensures KeptHint(base, hint) == hint
    ensures Detect(base, hint) == Detected(0, Ionian)
  {
    var chords := [Chord(0, MajorTriad), Chord(0, Major7), Chord(7, MajorTriad)];
    ExampleSurvives(chords);
    HintedIonian(base, chords, 0);
    ExampleHint(base, hint);
    ExampleParse(base);
  }

  /** Dropping the first of three chords that differ from it. */
  lemma WithoutFirstOfThree(xs: seq<string>)
    requires |xs| == 3 && xs[1] != xs[0] && xs[2] != xs[0]
    ensures Without(xs, xs[0]) == xs[1..]
  {
    assert xs[..1][..0] == [] && xs[..2][..1] == xs[..1] && xs[..|xs| - 1] == xs[..2];
    assert Without(xs[..1], xs[0]) == [];
    assert Without(xs[..2], xs[0]) == [xs[1]];
    assert [xs[1]] + [xs[2]] == xs[1..];
  }

  /** The tonic chord is C; as written Cmaj7 and G are substituted, while
      the rebuild replaces only G. */
  lemma ExampleSubstitutes(base: seq<string>)
    requires IsExample(base)
    ensures TonicChord(GetNoteIndex, base, 0) == Some(base[0])
    ensures ChordsToSubstituteAsWritten(base, base[0]) == base[1..]
    ensures ChordsToSubstitute(GetNoteIndex, base, 0) == [base[2]]
  {
    assert |base[1]| != |base[0]| && |base[2]| == |base[0]| && base[2][0] != base[0][0];
    WithoutFirstOfThree(base);
    ExampleRoots(base);
    ExampleRebuild(GetNoteIndex, base);
  }

  /** A chord spelled on a degree of C Ionian is written with that degree's
      numeral, which the degree extraction reads back. */
  lemma SpelledDegree(name: string, k: PitchClass, q: Quality, t: PitchClass, d: nat)
    requires name == Notes[k] + ChordFacts.QualitySuffix(q)
    requires FirstIndex(Intervals(Ionian), (k - t + 12) % 12) == Some(d)
    ensures GetRomanNumeral(name, t, Ionian).Some?
    ensures DegreeOfNumeral(GetRomanNumeral(name, t, Ionian).value) == Some(d + 1)
  {
    var ch := Chord(k, q);
    assert FirstIndex(Intervals(Ionian), (ch.root - t + 12) % 12) == Some(d);
    NumeralInMode(name, ch, t, Intervals(Ionian), Qualities(Ionian), d);
    ChordFacts.ParseSpelledChord(k, q);
    NumeralOfParsed(name, ch, t, Ionian);
  }

  /** Two chords spelled on degrees of Ionian on the tonic `t` resolve to
      those two degrees. */
  lemma SpelledDegreesOfTwo(a: string, ka: PitchClass, qa: Quality, da: nat,
                            b: string, kb: PitchClass, qb: Quality, db: nat, t: PitchClass)
    requires a == Notes[ka] + ChordFacts.QualitySuffix(qa)
    requires b == Notes[kb] + ChordFacts.QualitySuffix(qb)
    requires FirstIndex(Intervals(Ionian), (ka - t + 12) % 12) == Some(da)
    requires FirstIndex(Intervals(Ionian), (kb - t + 12) % 12) == Some(db)
    ensures Numerals([a, b], t, Ionian).Some?
    ensures |Resolved(DegreeOfNumeral, Numerals([a, b], t, Ionian).value)| == 2
    ensures Resolved(DegreeOfNumeral, Numerals([a, b], t, Ionian).value)[0] == da + 1
    ensures Resolved(DegreeOfNumeral, Numerals([a, b], t, Ionian).value)[1] == db + 1
  {
    SpelledDegree(a, ka, qa, t, da);
    SpelledDegree(b, kb, qb, t, db);
    ResolvedOfTwo((c: string) => GetRomanNumeral(c, t, Ionian), DegreeOfNumeral, a, b, da + 1, db + 1);
  }

  lemma ResolvedOfTwo(numeral: string -> Option<string>, degree: string -> Option<nat>, a: string, b: string, da: nat, db: nat)
    requires forall c :: degree(c).Some? ==> 1 <= degree(c).value <= 7
    requires numeral(a).Some? && degree(numeral(a).value) == Some(da)
    requires numeral(b).Some? && degree(numeral(b).value) == Some(db)
    ensures MapAll(numeral, [a, b]).Some?
    ensures Resolved(degree, MapAll(numeral, [a, b]).value) == [da, db]
  {
    var ns := MapAll(numeral, [a, b]);
    assert ns.Some?;
    ResolvedAll(degree, ns.value);
  }

  /** The spellings of Cmaj7 and G, and the degrees of C Ionian their
      roots fall on. */
  lemma ExampleSpelling(base: seq<string>)
    requires IsExample(base)
    ensures base[1] == Notes[0] + ChordFacts.QualitySuffix(Major7)
    ensures base[2] == Notes[7] + ChordFacts.QualitySuffix(MajorTriad)
    ensures FirstIndex(Intervals(Ionian), (0 - 0 + 12) % 12) == Some(0)
    ensures FirstIndex(Intervals(Ionian), (7 - 0 + 12) % 12) == Some(4)
  {
  }

  /** Cmaj7 and G resolve to degrees 1 and 5 of C Ionian. */
  lemma AsWrittenDegrees(a: string, b: string)
    requires a == Notes[0] + ChordFacts.QualitySuffix(Major7)
    requires b == Notes[7] + ChordFacts.QualitySuffix(MajorTriad)
    ensures Numerals([a, b], 0, Ionian).Some?
    ensures |Resolved(DegreeOfNumeral, Numerals([a, b], 0, Ionian).value)| == 2
    ensures Resolved(DegreeOfNumeral, Numerals([a, b], 0, Ionian).value)[0] == 1
    ensures Resolved(DegreeOfNumeral, Numerals([a, b], 0, Ionian).value)[1] == 5
  {
    assert FirstIndex(Intervals(Ionian), (0 - 0 + 12) % 12) == Some(0);
    assert FirstIndex(Intervals(Ionian), (7 - 0 + 12) % 12) == Some(4);
    SpelledDegreesOfTwo(a, 0, Major7, 0, b, 7, MajorTriad, 4, 0);
  }

  /** G alone resolves to degree 5 of C Ionian. */
  lemma CorrectedDegrees(b: string)
    requires b == Notes[7] + ChordFacts.QualitySuffix(MajorTriad)
    ensures Numerals([b], 0, Ionian).Some?
    ensures |Resolved(DegreeOfNumeral, Numerals([b], 0, Ionian).value)| == 1
    ensures Resolved(DegreeOfNumeral, Numerals([b], 0, Ionian).value)[0] == 5
  {
    assert FirstIndex(Intervals(Ionian), (7 - 0 + 12) % 12) == Some(4);
    SpelledDegree(b, 7, MajorTriad, 0, 4);
    var ns := Numerals([b], 0, Ionian);
    assert ns.Some?;
    ResolvedAll(DegreeOfNumeral, ns.value);
  }

  /** The Dorian row borrows from A# major: its I is A#maj7, its V is F7. */
  lemma ExampleBorrowed(two: seq<nat>, one: seq<nat>)
    requires |two| == 2 && two[0] == 1 && two[1] == 5
    requires |one| == 1 && one[0] == 5
    ensures RelativeTonic(0, Dorian) == 10
    ensures Borrowed(two, 10) == ["A#maj7", "F7"]
    ensures Borrowed(one, 10) == ["F7"]
  {
    assert GetDiatonic7thChord(1, 10, Ionian) == "A#maj7";
    assert GetDiatonic7thChord(5, 10, Ionian) == "F7";
  }

  /** The rebuild keeps C and Cmaj7 and puts the first borrowed chord in
      place of G, for any root reading that agrees with get_note_index. */
  lemma ExampleRebuild(root: string -> Option<PitchClass>, base: seq<string>)
    requires IsExample(base)
    requires root(base[0]) == Some(0) && root(base[1]) == Some(0) && root(base[2]) == Some(7)
    ensures OffTonic(root, base, 0) == [base[2]]
    ensures forall borrowed :: |borrowed| > 0 ==> Rebuild(root, base, 0, borrowed) == Some(base[..2] + [borrowed[0]])
  {
    var one, two := base[..1], base[..2];
    assert one[..0] == [] && two[..1] == one && base[..|base| - 1] == two && base[|base| - 1] == base[2];
    assert OffTonic(root, one, 0) == [];
    assert OffTonic(root, two, 0) == [];
    forall borrowed | |borrowed| > 0
      ensures Rebuild(root, base, 0, borrowed) == Some(base[..2] + [borrowed[0]])
    {
      assert Rebuild(root, one[..0], 0, borrowed) == Some([]);
      assert one == [] + [base[0]];
      assert Rebuild(root, one, 0, borrowed) == Some(one);
      assert two == one + [base[1]];
      assert Rebuild(root, two, 0, borrowed) == Some(two);
    }
  }

  // ---------------------------------------------------------------------
  // The Dorian row, as written and corrected

  /** As written: the hint C gives C Ionian, the tonic chord is C and the
      chords to substitute are Cmaj7 and G, hence the degrees I and V. */
  lemma AsWrittenDegreesOfExample(base: seq<string>, hint: Option<string>)
    requires IsExample(base) && hint == Some(base[0])
    ensures Detect(base, KeptHint(base, hint)) == Detected(0, Ionian)
    ensures TonicChord(GetNoteIndex, base, 0) == Some(base[0])
    ensures ChordsToSubstituteAsWritten(base, base[0]) == base[1..]
    ensures Numerals(base[1..], 0, Ionian).Some?
    ensures var degrees := Resolved(DegreeOfNumeral, Numerals(base[1..], 0, Ionian).value);
            |degrees| == 2 && degrees[0] == 1 && degrees[1] == 5
  {
    ExampleDetect(base, hint);
    ExampleSubstitutes(base);
    ExampleSpelling(base);
    assert base[1..] == [base[1], base[2]];
    AsWrittenDegrees(base[1], base[2]);
  }

  /** Corrected: the chords to substitute are the off-tonic ones, here G
      alone, hence the degree V. */
  lemma CorrectedDegreesOfExample(base: seq<string>, hint: Option<string>)
    requires IsExample(base) && hint == Some(base[0])
    ensures Detect(base, KeptHint(base, hint)) == Detected(0, Ionian)
    ensures ChordsToSubstitute(GetNoteIndex, base, 0) == [base[2]]
    ensures Numerals([base[2]], 0, Ionian).Some?
    ensures var degrees := Resolved(DegreeOfNumeral, Numerals([base[2]], 0, Ionian).value);
            |degrees| == 1 && degrees[0] == 5
  {
    ExampleDetect(base, hint);
    ExampleSubstitutes(base);
    ExampleSpelling(base);
    CorrectedDegrees(base[2]);
  }

  /** The Dorian row as written: with the degrees I and V the rebuild only
      replaces G, and it takes the first borrowed chord, A#maj7, the chord
      of degree I, although G is on degree V. */
  lemma AsWrittenDorianRebuild(base: seq<string>, degrees: seq<nat>)
    requires IsExample(base)
    requires |degrees| == 2 && degrees[0] == 1 && degrees[1] == 5
    ensures var r := Rebuild(GetNoteIndex, base, 0, Borrowed(degrees, RelativeTonic(0, Dorian)));
            r.Some? && r.value[..2] == base[..2] && r.value[2] == "A#maj7"
  {
    ExampleBorrowed(degrees, [5]);
    ExampleRoots(base);
    ExampleRebuild(GetNoteIndex, base);
  }

  /** The Dorian row corrected: with the degree V alone, G takes the
      borrowed V chord, F7. */
  lemma CorrectedDorianRebuild(base: seq<string>, degrees: seq<nat>)
    requires IsExample(base)
    requires |degrees| == 1 && degrees[0] == 5
    ensures var r := Rebuild(GetNoteIndex, base, 0, Borrowed(degrees, RelativeTonic(0, Dorian)));
            r.Some? && r.value[..2] == base[..2] && r.value[2] == "F7"
  {
    ExampleBorrowed([1, 5], degrees);
    ExampleRoots(base);
    ExampleRebuild(GetNoteIndex, base);
  }
}

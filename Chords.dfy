/** The chord and note helpers of utils.py: note-name lookup, chord-name
    parsing, roman numerals, diatonic 7th chords, quality compatibility and
    the fixed-width table cell format. */
module Chords {
  import opened Wrappers
  import opened Text
  import opened Tables

  /** A parsed chord: root pitch class and quality tag. */
  datatype Chord = Chord(root: PitchClass, quality: Quality)

  /** `xs.index(x)`, or None where Python raises ValueError. */
  function FirstIndexFrom<T(==)>(xs: seq<T>, x: T, from: nat): (r: Option<nat>)
    requires from <= |xs|
    ensures r.Some? ==> from <= r.value < |xs| && xs[r.value] == x
    ensures r.Some? ==> forall j :: from <= j < r.value ==> xs[j] != x
    ensures r.None? ==> forall j :: from <= j < |xs| ==> xs[j] != x
    decreases |xs| - from
  {
    if from == |xs| then None
    else if xs[from] == x then Some(from)
    else FirstIndexFrom(xs, x, from + 1)
  }

  function FirstIndex<T(==)>(xs: seq<T>, x: T): Option<nat>
  {
    FirstIndexFrom(xs, x, 0)
  }

  /** `NOTES.index(n)`: the pitch class spelled `n`, None if NOTES lacks it. */
  function NoteIndex(n: string): (r: Option<PitchClass>)
    ensures r.Some? ==> Notes[r.value] == n
    ensures r.None? <==> n !in Notes
  {
    match FirstIndex(Notes, n)
    case None => None
    case Some(i) => Some(i)
  }

  /** The flat and theoretical spellings get_note_index rewrites. */
  const FlatToSharp: map<string, string> :=
    map["DB" := "C#", "EB" := "D#", "FB" := "E", "GB" := "F#", "AB" := "G#", "BB" := "A#", "B#" := "C"]

  /** The root spelling get_note_index cuts out of a name: upper-cased, '♭'
      read as 'B', everything from the first "M", "m", "°", "dim", "7" or
      "ø" on dropped (the "m", "dim" and "ø" cuts never fire after
      upper-casing, exactly as in the original). */
  function CleanNote(name: string): string
  {
    var u := ReplaceChar(Upper(name), '♭', 'B');
    BeforeFirst(BeforeFirst(BeforeFirst(BeforeFirst(BeforeFirst(BeforeFirst(u, "M"), "m"), "°"), "dim"), "7"), "ø")
  }

  /** get_note_index: the pitch class of a note or chord name; None where the
      original raises (an unknown spelling or an empty root). */
  function GetNoteIndex(name: string): Option<PitchClass>
  {
    RootIndex(CleanNote(name))
  }

  /** The lookup get_note_index makes on the cleaned root: "CB" is 11, a flat
      (or "B#") is rewritten to its sharp, and then the first two characters,
      when the second is '#' or 'B', or else the first one, must be a note of
      the table. */
  function RootIndex(c: string): Option<PitchClass>
  {
    if c == "CB" then Some(11)
    else
      var c' := if c in FlatToSharp then FlatToSharp[c] else c;
      if |c'| > 1 && (c'[1] == '#' || c'[1] == 'B') then NoteIndex(c'[..2])
      else if |c'| == 0 then None
      else NoteIndex(c'[..1])
  }

  /** get_note_from_index: the sharp spelling of any integer's pitch class. */
  function GetNoteFromIndex(i: int): string
  {
    Notes[i % 12]
  }

  /** The quality parse_chord reads from a (stripped) chord name, testing the
      markers from the most to the least specific. */
  function QualityOf(c: string): Quality
  {
    if Contains(c, "maj7") || Contains(c, "M7") then Major7
    else if Contains(c, "m7b5") || Contains(c, "ø") then HalfDiminished7
    else if Contains(c, "dim7") || Contains(c, "°7") then Diminished7
    else if Contains(c, "m7") then Minor7
    else if Contains(c, "7") then Dominant7
    else if Contains(c, "dim") || Contains(c, "°") then DiminishedTriad
    else if Contains(c, "m") then MinorTriad
    else MajorTriad
  }

  /** parse_chord: root and quality of a chord name; None where the root
      lookup raises. */
  function ParseChord(name: string): Option<Chord>
  {
    var c := Strip(name);
    match GetNoteIndex(c)
    case None => None
    case Some(r) => Some(Chord(r, QualityOf(c)))
  }

  /** The suffix get_roman_numeral appends for the chord's own quality. */
  function NumeralSuffix(q: Quality): string
  {
    match q
    case Major7 => "maj7"
    case Minor7 => "m7"
    case Dominant7 => "7"
    case HalfDiminished7 => "ø7"
    case Diminished7 => "°7"
    case _ => ""
  }

  /** get_roman_numeral: the numeral of the parsed chord, None where
      parsing raises. */
  function GetRomanNumeral(name: string, tonic: PitchClass, m: Mode): Option<string>
  {
    match ParseChord(name)
    case None => None
    case Some(ch) => Some(NumeralOf(name, ch, tonic, Intervals(m), Qualities(m)))
  }

  /** The numeral get_roman_numeral writes for the chord `ch` read from
      `name`, in the mode with these intervals and qualities: its degree,
      lower case on a minor or diminished degree, with the chord's own
      suffix; the name in parentheses when its interval is not in the mode. */
  function NumeralOf(name: string, ch: Chord, tonic: PitchClass, intervals: seq<int>, qualities: seq<Quality>): string
    requires |intervals| <= |qualities| <= |RomanDegrees|
  {
    var interval := (ch.root - tonic + 12) % 12;
    match FirstIndex(intervals, interval)
    case None => "(" + name + ")"
    case Some(d) =>
      var numeral := if CoreQuality(qualities[d]) in {Minor, Diminished}
                     then Lower(RomanDegrees[d]) else RomanDegrees[d];
      numeral + NumeralSuffix(ch.quality)
  }

  /** The suffix get_diatonic_7th_chord writes for a quality. */
  function ChordSuffix(q: Quality): string
  {
    match q
    case Major7 => "maj7"
    case Minor7 => "m7"
    case Dominant7 => "7"
    case HalfDiminished7 => "m7b5"
    case _ => ""
  }

  /** get_diatonic_7th_chord: the name of the 7th chord on a degree (1..7)
      of the mode built on `tonic`. */
  function GetDiatonic7thChord(degree: int, tonic: int, m: Mode): string
    requires 1 <= degree <= 7
  {
    GetNoteFromIndex(tonic + Intervals(m)[degree - 1]) + ChordSuffix(Qualities(m)[degree - 1])
  }

  /** is_chord_compatible: an actual quality fits an expected one when they
      are equal or when the actual chord is a triad the lead sheet wrote
      without the expected seventh. */
  function IsChordCompatible(actual: Quality, expected: Quality): bool
  {
    if actual == expected then true
    else if actual == MajorTriad && (expected == Major7 || expected == Dominant7) then true
    else if actual == MinorTriad && expected == Minor7 then true
    else if actual == DiminishedTriad && expected == HalfDiminished7 then true
    else false
  }

  /** The width format_chords_for_table pads every cell to. */
  const CellWidth: nat := 7

  /** format_chords_for_table on a list of chords. */
  function FormatChordsForTable(chords: seq<string>): string
  {
    Join(seq(|chords|, i requires 0 <= i < |chords| => PadRight(chords[i], CellWidth)), " ")
  }

  /** format_chords_for_table on a string, which it first splits on " - ". */
  function FormatChordString(chords: string): string
  {
    FormatChordsForTable(Split(chords, " - "))
  }
}

/** What the chord helpers promise: note names round-trip, quality suffixes
    never disturb the root, parsing inverts chord spelling, and the diatonic
    chords parse back to their root and quality. */
module ChordFacts {
  import opened Wrappers
  import opened Text
  import opened Tables
  import opened Chords

  /** Characters of a sharp-spelled root: upper-case A..G and '#'. */
  predicate IsRootSpelling(n: string)
  {
    |n| > 0 && forall k :: 0 <= k < |n| ==> ('A' <= n[k] <= 'G' || n[k] == '#')
  }

  lemma NotesAreRootSpellings(k: PitchClass)
    ensures IsRootSpelling(Notes[k])
    ensures |Notes[k]| == 1 || (|Notes[k]| == 2 && Notes[k][1] == '#' && Notes[k][0] != 'B')
  {
  }

  lemma NotesDistinct(i: PitchClass, j: PitchClass)
    requires Notes[i] == Notes[j]
    ensures i == j
  {
    TablesWellFormed(Ionian);
  }

  /** A sharp-spelled root passes through get_note_index's clean-up intact. */
  lemma CleanNoteAfterRoot(n: string, s: string)
    requires IsRootSpelling(n)
    ensures CleanNote(n + s) == n + CleanNote(s)
  {
    UpperAppend(n, s);
    assert Upper(n) == n;
    var u := ReplaceChar(Upper(s), '♭', 'B');
    assert ReplaceChar(Upper(n + s), '♭', 'B') == n + u;
    BeforeFirstAfterPrefix(n, u, "M");
    var u1 := BeforeFirst(u, "M");
    BeforeFirstAfterPrefix(n, u1, "m");
    var u2 := BeforeFirst(u1, "m");
    BeforeFirstAfterPrefix(n, u2, "°");
    var u3 := BeforeFirst(u2, "°");
    BeforeFirstAfterPrefix(n, u3, "dim");
    var u4 := BeforeFirst(u3, "dim");
    BeforeFirstAfterPrefix(n, u4, "7");
    var u5 := BeforeFirst(u4, "7");
    BeforeFirstAfterPrefix(n, u5, "ø");
  }

  /** The cleaned spellings that get_note_index neither special-cases nor
      rewrites through its flat-to-sharp table. */
  lemma NotRewritten(c: string)
    requires |c| != 2 || (c[1] != 'B' && (c[1] != '#' || c[0] != 'B'))
    ensures c !in FlatToSharp && c != "CB"
  {
  }

  /** get_note_index reads the note `Notes[k]` off any name that starts with
      it, provided what follows does not extend it with '#', 'B' or '♭'. */
  lemma NoteIndexOfSpelling(k: PitchClass, s: string)
    requires CleanNote(s) == [] || (CleanNote(s)[0] != '#' && CleanNote(s)[0] != 'B')
    ensures GetNoteIndex(Notes[k] + s) == Some(k)
  {
    var n := Notes[k];
    NotesAreRootSpellings(k);
    CleanNoteAfterRoot(n, s);
    var c := n + CleanNote(s);
    NotRewritten(c);
    if |n| == 2 {
      assert c[..2] == n;
    } else {
      assert c[..1] == n;
    }
    var r := NoteIndex(n).value;
    NotesDistinct(r, k);
  }

  /** get_note_from_index and get_note_index round-trip on every integer. */
  lemma NoteNameRoundTrip(i: int)
    ensures GetNoteIndex(GetNoteFromIndex(i)) == Some(i % 12)
  {
    assert CleanNote("") == "";
    NoteIndexOfSpelling(i % 12, "");
    assert Notes[i % 12] + "" == Notes[i % 12];
  }

  /** The pitch class of a natural note letter. */
  function NaturalPitch(l: char): PitchClass
    requires l in "CDEFGAB"
  {
    match l
    case 'C' => 0
    case 'D' => 2
    case 'E' => 4
    case 'F' => 5
    case 'G' => 7
    case 'A' => 9
    case 'B' => 11
  }

  /** Every flat spelling, with 'b' or '♭', lands one semitone below its
      letter: Db, Eb, Gb, Ab, Bb through the flat-to-sharp table, Fb on E,
      and Cb on 11 by its own rule. */
  lemma {:induction false} FlatSpelling(l: char, flat: char)
    requires l in "CDEFGAB" && flat in "b♭"
    ensures GetNoteIndex([l, flat]) == Some((NaturalPitch(l) + 11) % 12)
  {
    var key := [l, 'B'];
    assert ReplaceChar(Upper([l, flat]), '♭', 'B') == key;
    CleanUnmarked([l, flat], key);
    FlatRoot(l);
  }

  /** The lookup on a cleaned flat spelling: "CB" by its own rule, the rest
      through the flat-to-sharp table. */
  lemma FlatRoot(l: char)
    requires l in "CDEFGAB"
    ensures RootIndex([l, 'B']) == Some((NaturalPitch(l) + 11) % 12)
  {
    var key := [l, 'B'];
    if l != 'C' {
      var k := (NaturalPitch(l) + 11) % 12;
      assert key in FlatToSharp && FlatToSharp[key] == Notes[k];
      NotesAreRootSpellings(k);
      var n := Notes[k];
      if |n| == 2 {
        assert n[..2] == n;
      } else {
        assert n[..1] == n;
      }
      NotesDistinct(NoteIndex(n).value, k);
    }
  }

  /** A sharp spelling lands one semitone above its letter (B# on C through
      the flat-to-sharp table), except E#, whose lookup fails as in the
      original. */
  lemma {:induction false} SharpSpelling(l: char)
    requires l in "CDEFGAB"
    ensures GetNoteIndex([l, '#']) == if l == 'E' then None else Some((NaturalPitch(l) + 1) % 12)
  {
    var key := [l, '#'];
    assert ReplaceChar(Upper(key), '♭', 'B') == key;
    CleanUnmarked(key, key);
    SharpRoot(l);
  }

  /** The lookup on a cleaned sharp spelling. */
  lemma SharpRoot(l: char)
    requires l in "CDEFGAB"
    ensures RootIndex([l, '#']) == if l == 'E' then None else Some((NaturalPitch(l) + 1) % 12)
  {
    var key := [l, '#'];
    if l == 'B' {
      assert key in FlatToSharp && FlatToSharp[key] == "C";
      assert "C"[..1] == Notes[0];
      NotesDistinct(NoteIndex(Notes[0]).value, 0);
    } else {
      NotRewritten(key);
      assert key[..2] == key;
      if l == 'E' {
        NoESharp();
      } else {
        var k := (NaturalPitch(l) + 1) % 12;
        SharpName(l);
        NotesDistinct(NoteIndex(key).value, k);
      }
    }
  }

  /** A natural letter, in either case, is its own pitch class. */
  lemma {:induction false} NaturalSpelling(l: char)
    requires l in "CDEFGABcdefgab"
    ensures GetNoteIndex([l]) == Some(NaturalPitch(UpperChar(l)))
  {
    var u := [UpperChar(l)];
    assert ReplaceChar(Upper([l]), '♭', 'B') == u;
    CleanUnmarked([l], u);
    NaturalRoot(UpperChar(l));
  }

  /** The lookup on a cleaned natural letter. */
  lemma NaturalRoot(l: char)
    requires l in "CDEFGAB"
    ensures RootIndex([l]) == Some(NaturalPitch(l))
  {
    var u := [l];
    NotRewritten(u);
    assert u[..1] == u;
    NaturalName(l);
    NotesDistinct(NoteIndex(u).value, NaturalPitch(l));
  }

  /** The table spells each natural pitch class by its letter alone. */
  lemma NaturalName(l: char)
    requires l in "CDEFGAB"
    ensures Notes[NaturalPitch(l)] == [l]
  {
    match l
    case 'C' => assert Notes[0] == "C";
    case 'D' => assert Notes[2] == "D";
    case 'E' => assert Notes[4] == "E";
    case 'F' => assert Notes[5] == "F";
    case 'G' => assert Notes[7] == "G";
    case 'A' => assert Notes[9] == "A";
    case 'B' => assert Notes[11] == "B";
  }

  /** The table spells the black keys as sharps of C, D, F, G and A. */
  lemma SharpName(l: char)
    requires l in "CDFGA"
    ensures Notes[(NaturalPitch(l) + 1) % 12] == [l, '#']
  {
    match l
    case 'C' => assert Notes[1] == "C#";
    case 'D' => assert Notes[3] == "D#";
    case 'F' => assert Notes[6] == "F#";
    case 'G' => assert Notes[8] == "G#";
    case 'A' => assert Notes[10] == "A#";
  }

  /** E# is not a spelling of the table. */
  lemma NoESharp()
    ensures ['E', '#'] !in Notes
  {
    forall i | 0 <= i < 12 ensures Notes[i] != ['E', '#'] {
      assert Notes[i][0] != 'E' || |Notes[i]| == 1;
    }
  }

  /** A spelling with none of the cut markers is its own cleaned root. */
  lemma CleanUnmarked(s: string, u: string)
    requires ReplaceChar(Upper(s), '♭', 'B') == u
    requires forall k :: 0 <= k < |u| ==> u[k] != 'M' && u[k] != '°' && u[k] != '7'
    ensures CleanNote(s) == u
  {
    UpperHasNo(s, 'm');
    UpperHasNo(s, 'd');
    UpperHasNo(s, 'ø');
    NotFound(u, "M");
    NotFound(u, "m");
    NotFound(u, "°");
    NotFound(u, "dim");
    NotFound(u, "7");
    NotFound(u, "ø");
  }

  /** One cut of the clean-up keeps the first character or empties the name,
      and the cut at that very character empties it. */
  lemma CutStage(x: string, sep: string, h: char)
    requires |sep| > 0 && (x == [] || x[0] == h)
    ensures BeforeFirst(x, sep) == [] || BeforeFirst(x, sep)[0] == h
    ensures x == [] || sep == [h] ==> BeforeFirst(x, sep) == []
  {
    if x != [] && sep == [h] {
      assert IsAt(x, sep, 0);
    }
  }

  /** A suffix starting with a cut marker leaves nothing after the root. */
  lemma CleanOfMarkerSuffix(s: string)
    requires |s| > 0 && s[0] in {'m', 'M', '7', '°'}
    ensures CleanNote(s) == []
  {
    var u := ReplaceChar(Upper(s), '♭', 'B');
    var h := u[0];
    assert h == 'M' || h == '7' || h == '°';
    CutStage(u, "M", h);
    var u1 := BeforeFirst(u, "M");
    CutStage(u1, "m", h);
    var u2 := BeforeFirst(u1, "m");
    CutStage(u2, "°", h);
    var u3 := BeforeFirst(u2, "°");
    CutStage(u3, "dim", h);
    var u4 := BeforeFirst(u3, "dim");
    CutStage(u4, "7", h);
    var u5 := BeforeFirst(u4, "7");
    CutStage(u5, "ø", h);
  }

  lemma CleanOfDim(s: string)
    requires s == "dim" || s == "dim7"
    ensures CleanNote(s) == "DI"
  {
    var u := ReplaceChar(Upper(s), '♭', 'B');
    assert u[..3] == "DIM";
    assert IsAt(u, "M", 2);
    assert BeforeFirst(u, "M") == "DI";
    assert BeforeFirst("DI", "m") == "DI";
    assert BeforeFirst("DI", "°") == "DI";
    assert BeforeFirst("DI", "dim") == "DI";
    assert BeforeFirst("DI", "7") == "DI";
    assert BeforeFirst("DI", "ø") == "DI";
  }

  /** Every quality suffix of the chord grammar keeps the root. */
  lemma SuffixKeepsRoot(k: PitchClass, s: string)
    requires s in {"", "m", "7", "m7", "maj7", "M7", "m7b5", "°", "°7", "dim", "dim7"}
    ensures GetNoteIndex(Notes[k] + s) == GetNoteIndex(Notes[k]) == Some(k)
  {
    if s == "" {
    } else if s == "dim" || s == "dim7" {
      CleanOfDim(s);
    } else {
      CleanOfMarkerSuffix(s);
    }
    NoteIndexOfSpelling(k, s);
    assert CleanNote("") == "";
    NoteIndexOfSpelling(k, "");
    assert Notes[k] + "" == Notes[k];
  }

  /** The canonical spelling of each quality in the chord-name grammar. */
  function QualitySuffix(q: Quality): string
  {
    match q
    case MajorTriad => ""
    case MinorTriad => "m"
    case Dominant7 => "7"
    case Major7 => "maj7"
    case Minor7 => "m7"
    case HalfDiminished7 => "m7b5"
    case Diminished7 => "dim7"
    case DiminishedTriad => "dim"
  }

  /** A root in front of a text never creates or hides a quality marker. */
  lemma ContainsAfterRoot(n: string, s: string, marker: string)
    requires IsRootSpelling(n) && |marker| > 0 && marker[0] in {'m', 'M', 'ø', 'd', '°', '7'}
    ensures Contains(n + s, marker) == Contains(s, marker)
  {
    FindAfterPrefix(n, s, marker);
  }

  /** The quality markers never start with a root character, so the root in
      front of a suffix does not change the parsed quality. */
  lemma QualityAfterRoot(n: string, s: string)
    requires IsRootSpelling(n)
    ensures QualityOf(n + s) == QualityOf(s)
  {
    ContainsAfterRoot(n, s, "maj7");
    ContainsAfterRoot(n, s, "M7");
    ContainsAfterRoot(n, s, "m7b5");
    ContainsAfterRoot(n, s, "ø");
    ContainsAfterRoot(n, s, "dim7");
    ContainsAfterRoot(n, s, "°7");
    ContainsAfterRoot(n, s, "m7");
    ContainsAfterRoot(n, s, "7");
    ContainsAfterRoot(n, s, "dim");
    ContainsAfterRoot(n, s, "°");
    ContainsAfterRoot(n, s, "m");
  }

  /** Spelled chord names carry no surrounding white space. */
  lemma StripSpelled(n: string, s: string)
    requires IsRootSpelling(n) && (s == [] || !IsSpace(s[|s| - 1]))
    ensures Strip(n + s) == n + s
  {
    assert TrimStart(n + s) == n + s;
    assert (n + s)[|n + s| - 1] == if s == [] then n[|n| - 1] else s[|s| - 1];
  }

  // The marker tests of parse_chord on each suffix of the grammar.
  lemma QualityOfPlain() ensures QualityOf("") == MajorTriad {}
  lemma QualityOfMinor() ensures QualityOf("m") == MinorTriad {}
  lemma QualityOfDominant() ensures QualityOf("7") == Dominant7 {}
  lemma QualityOfMajor7() ensures QualityOf("maj7") == Major7 {}
  lemma QualityOfMinor7() ensures QualityOf("m7") == Minor7 {}
  lemma QualityOfHalfDiminished() ensures QualityOf("m7b5") == HalfDiminished7 {}
  lemma QualityOfDiminished7() ensures QualityOf("dim7") == Diminished7 {}
  lemma QualityOfDiminished() ensures QualityOf("dim") == DiminishedTriad {}
  lemma QualityOfCapitalM7() ensures QualityOf("M7") == Major7 {}
  lemma QualityOfSlashedO() ensures QualityOf("ø") == HalfDiminished7 {}
  lemma QualityOfDegree7() ensures QualityOf("°7") == Diminished7 {}
  lemma QualityOfDegree() ensures QualityOf("°") == DiminishedTriad {}

  lemma QualityOfSuffix(q: Quality)
    ensures QualityOf(QualitySuffix(q)) == q
  {
    match q
    case MajorTriad => QualityOfPlain();
    case MinorTriad => QualityOfMinor();
    case Dominant7 => QualityOfDominant();
    case Major7 => QualityOfMajor7();
    case Minor7 => QualityOfMinor7();
    case HalfDiminished7 => QualityOfHalfDiminished();
    case Diminished7 => QualityOfDiminished7();
    case DiminishedTriad => QualityOfDiminished();
  }

  /** A note name followed by a suffix that keeps the root parses to that
      note and the suffix's quality. */
  lemma ParseSpelled(k: PitchClass, s: string)
    requires CleanNote(s) == [] || (CleanNote(s)[0] != '#' && CleanNote(s)[0] != 'B')
    requires s == [] || !IsSpace(s[|s| - 1])
    ensures ParseChord(Notes[k] + s) == Some(Chord(k, QualityOf(s)))
  {
    NotesAreRootSpellings(k);
    StripSpelled(Notes[k], s);
    NoteIndexOfSpelling(k, s);
    QualityAfterRoot(Notes[k], s);
  }

  /** parse_chord inverts chord spelling: a note name followed by the
      canonical suffix of a quality parses to that note and quality. */
  lemma {:induction false} ParseSpelledChord(k: PitchClass, q: Quality)
    ensures ParseChord(Notes[k] + QualitySuffix(q)) == Some(Chord(k, q))
  {
    CanonicalSuffixKeepsRoot(q);
    CanonicalSuffixUnspaced(q);
    ParseSpelled(k, QualitySuffix(q));
    QualityOfSuffix(q);
  }

  /** A canonical suffix ends in no space. */
  lemma CanonicalSuffixUnspaced(q: Quality)
    ensures QualitySuffix(q) == [] || !IsSpace(QualitySuffix(q)[|QualitySuffix(q)| - 1])
  {
    match q
    case MajorTriad =>
    case MinorTriad => assert "m"[0] == 'm';
    case Dominant7 => assert "7"[0] == '7';
    case Major7 => assert "maj7"[3] == '7';
    case Minor7 => assert "m7"[1] == '7';
    case HalfDiminished7 => assert "m7b5"[3] == '5';
    case Diminished7 => assert "dim7"[3] == '7';
    case DiminishedTriad => assert "dim"[2] == 'm';
  }

  /** A canonical suffix cleans to nothing or to "DI", so it never extends
      the root in front of it. */
  lemma CanonicalSuffixKeepsRoot(q: Quality)
    ensures CleanNote(QualitySuffix(q)) == [] || (CleanNote(QualitySuffix(q))[0] != '#' && CleanNote(QualitySuffix(q))[0] != 'B')
  {
    match q
    case MajorTriad =>
    case MinorTriad => CleanOfMarkerSuffix("m");
    case Dominant7 => CleanOfMarkerSuffix("7");
    case Major7 => CleanOfMarkerSuffix("maj7");
    case Minor7 => CleanOfMarkerSuffix("m7");
    case HalfDiminished7 => CleanOfMarkerSuffix("m7b5");
    case Diminished7 => CleanOfDim("dim7");
    case DiminishedTriad => CleanOfDim("dim");
  }

  /** The alternative spelling "M7" of a major seventh. */
  lemma {:induction false} ParseCapitalMajor7(k: PitchClass)
    ensures ParseChord(Notes[k] + "M7") == Some(Chord(k, Major7))
  {
    CleanOfMarkerSuffix("M7");
    ParseSpelled(k, "M7");
    QualityOfCapitalM7();
  }

  /** The alternative spelling "ø" of a half-diminished seventh. */
  lemma {:induction false} ParseSlashedHalfDiminished(k: PitchClass)
    ensures ParseChord(Notes[k] + "ø") == Some(Chord(k, HalfDiminished7))
  {
    CleanOfSlashedO();
    ParseSpelled(k, "ø");
    QualityOfSlashedO();
  }

  /** The alternative spelling "°7" of a diminished seventh. */
  lemma {:induction false} ParseDegreeDiminished7(k: PitchClass)
    ensures ParseChord(Notes[k] + "°7") == Some(Chord(k, Diminished7))
  {
    CleanOfMarkerSuffix("°7");
    ParseSpelled(k, "°7");
    QualityOfDegree7();
  }

  /** The alternative spelling "°" of a diminished triad. */
  lemma {:induction false} ParseDegreeDiminished(k: PitchClass)
    ensures ParseChord(Notes[k] + "°") == Some(Chord(k, DiminishedTriad))
  {
    CleanOfMarkerSuffix("°");
    ParseSpelled(k, "°");
    QualityOfDegree();
  }

  /** 'ø' upper-cases to 'Ø', which no cut removes. */
  lemma CleanOfSlashedO()
    ensures CleanNote("ø") == "Ø"
  {
    var u := ReplaceChar(Upper("ø"), '♭', 'B');
    assert u == "Ø";
    NotFound(u, "M");
    NotFound(u, "m");
    NotFound(u, "°");
    NotFound(u, "dim");
    NotFound(u, "7");
    NotFound(u, "ø");
  }

  /** Every quality in the mode tables is a 7th chord. */
  predicate IsSeventh(q: Quality)
  {
    q in {Major7, Minor7, Dominant7, HalfDiminished7}
  }

  lemma ModeQualitiesAreSevenths(m: Mode, i: nat)
    requires i < 7
    ensures IsSeventh(Qualities(m)[i])
  {
  }

  /** get_diatonic_7th_chord then parse_chord recovers the degree's root
      `(tonic + interval) mod 12` and the mode's quality on that degree. */
  lemma {:induction false} DiatonicChordParses(degree: int, tonic: int, m: Mode)
    requires 1 <= degree <= 7
    ensures ParseChord(GetDiatonic7thChord(degree, tonic, m))
         == Some(Chord((tonic + Intervals(m)[degree - 1]) % 12, Qualities(m)[degree - 1]))
  {
    var q := Qualities(m)[degree - 1];
    ModeQualitiesAreSevenths(m, degree - 1);
    assert ChordSuffix(q) == QualitySuffix(q);
    ParseSpelledChord((tonic + Intervals(m)[degree - 1]) % 12, q);
  }

  /** The seventh a lead sheet may leave out of an expected chord. */
  function WithoutSeventh(q: Quality): Option<Quality>
  {
    match q
    case Major7 => Some(MajorTriad)
    case Dominant7 => Some(MajorTriad)
    case Minor7 => Some(MinorTriad)
    case HalfDiminished7 => Some(DiminishedTriad)
    case _ => None
  }

  /** is_chord_compatible holds exactly when the actual quality is the
      expected one, or the expected one with its seventh left out. */
  lemma CompatibleIffSameOrWithoutSeventh(actual: Quality, expected: Quality)
    ensures IsChordCompatible(actual, expected) <==> actual == expected || WithoutSeventh(expected) == Some(actual)
  {
  }

  /** format_chords_for_table given the " - "-joined form of a list of chords
      without spaces gives the same cells as given the list itself. */
  lemma FormatOfJoined(chords: seq<string>)
    requires |chords| >= 1
    requires forall c, k :: c in chords && 0 <= k < |c| ==> c[k] != ' '
    ensures FormatChordString(Join(chords, " - ")) == FormatChordsForTable(chords)
  {
    SplitJoin(chords, " - ");
  }
}

/** detect_intelligent_mode: the heuristic mode detector.  Every (tonic,
    mode) pair is tried in a fixed order; a pair survives when every chord is
    diatonic to it with a compatible quality; survivors are scored by nine
    additive criteria; the answer is the first survivor on the hinted tonic,
    or else the first survivor with the highest score. */
module Detector {
  import opened Wrappers
  import opened Text
  import opened Tables
  import opened Chords
  import ChordFacts

  /** What detect_intelligent_mode yields: a tonic and a mode; the abort when
      no pair survives (the original prints a message and exits); or the
      exception its note lookup raises on a chord or hint it cannot read. */
  datatype Outcome =
    | Detected(tonic: PitchClass, mode: Mode)
    | NoModeFound
    | InvalidName

  /** An entry of `perfect_matches`.  Scores are doubled so that the half
      point of criterion 4 stays an integer; the order is unchanged. */
  datatype Candidate = Candidate(tonic: PitchClass, mode: Mode, score: int)

  /** The pitch class get_note_index("C") gives the empty progression. */
  const DefaultTonic: PitchClass := 0

  // ---------------------------------------------------------------------
  // Parsing the progression

  /** Applies a partial operation to every element; None as soon as one fails. */
  function MapAll<A, B>(f: A -> Option<B>, xs: seq<A>): (r: Option<seq<B>>)
    ensures r.Some? ==> |r.value| == |xs|
    ensures r.Some? ==> forall i :: 0 <= i < |xs| ==> f(xs[i]) == Some(r.value[i])
    ensures r.None? ==> exists i :: 0 <= i < |xs| && f(xs[i]).None?
    decreases |xs|
  {
    if |xs| == 0 then Some([])
    else
      match MapAll(f, xs[..|xs| - 1])
      case None => None
      case Some(front) =>
        match f(xs[|xs| - 1])
        case None => None
        case Some(last) => Some(front + [last])
  }

  /** `[parse_chord(c) for c in progression]`; None if any lookup raises. */
  function ParseAll(progression: seq<string>): (r: Option<seq<Chord>>)
  {
    MapAll(ParseChord, progression)
  }

  // ---------------------------------------------------------------------
  // The diatonic filter

  /** Semitones from the tonic up to a root: `(c_idx - tonic_idx + 12) % 12`. */
  function IntervalFrom(root: PitchClass, tonic: PitchClass): int
  {
    (root - tonic + 12) % 12
  }

  /** The degree of one chord against a mode's interval and quality lists:
      the position of its interval, provided its quality is compatible there. */
  function ChordDegree(ch: Chord, tonic: PitchClass, intervals: seq<int>, qualities: seq<Quality>): Option<nat>
    requires |intervals| == |qualities|
  {
    match FirstIndex(intervals, IntervalFrom(ch.root, tonic))
    case None => None
    case Some(d) => if IsChordCompatible(ch.quality, qualities[d]) then Some(d) else None
  }

  /** One chord fits (tonic, mode): its interval is in the mode and its
      quality is compatible with the mode's quality on that degree. */
  predicate Fits(ch: Chord, tonic: PitchClass, m: Mode)
  {
    exists d :: 0 <= d < 7 && Intervals(m)[d] == IntervalFrom(ch.root, tonic)
                && IsChordCompatible(ch.quality, Qualities(m)[d])
  }

  /** `chord_degrees` against a mode's interval and quality lists; None when
      some chord breaks the match. */
  function DegreePath(chords: seq<Chord>, tonic: PitchClass, intervals: seq<int>, qualities: seq<Quality>): (r: Option<seq<nat>>)
    requires |intervals| == |qualities|
    ensures r.Some? ==> |r.value| == |chords|
    ensures r.Some? ==> forall i :: 0 <= i < |chords| ==>
              r.value[i] < |intervals| && intervals[r.value[i]] == IntervalFrom(chords[i].root, tonic)
              && IsChordCompatible(chords[i].quality, qualities[r.value[i]])
    decreases |chords|
  {
    if |chords| == 0 then Some([])
    else
      match DegreePath(chords[..|chords| - 1], tonic, intervals, qualities)
      case None => None
      case Some(front) =>
        match ChordDegree(chords[|chords| - 1], tonic, intervals, qualities)
        case None => None
        case Some(d) => Some(front + [d])
  }

  /** `chord_degrees` of (tonic, mode). */
  function Path(chords: seq<Chord>, tonic: PitchClass, m: Mode): Option<seq<nat>>
  {
    DegreePath(chords, tonic, Intervals(m), Qualities(m))
  }

  predicate Survives(chords: seq<Chord>, tonic: PitchClass, m: Mode)
  {
    Path(chords, tonic, m).Some?
  }

  // ---------------------------------------------------------------------
  // The nine scoring criteria (doubled)

  /** Number of adjacent (4, 0) pairs, i.e. V -> I cadences, in a degree path. */
  function CadenceCount(path: seq<nat>): nat
    decreases |path|
  {
    if |path| < 2 then 0
    else CadenceCount(path[..|path| - 1])
         + (if path[|path| - 2] == 4 && path[|path| - 1] == 0 then 1 else 0)
  }

  /** Criterion 1: the first chord is on degree I (+3). */
  function TonicStart(path: seq<nat>): int
    requires |path| > 0
  {
    if path[0] == 0 then 6 else 0
  }

  /** Criterion 2: +2 for every V -> I cadence. */
  function Cadences(path: seq<nat>): int
  {
    4 * CadenceCount(path)
  }

  /** Criterion 3: the last chord is on degree I (+1). */
  function TonicEnd(path: seq<nat>): int
    requires |path| > 0
  {
    if path[|path| - 1] == 0 then 2 else 0
  }

  /** Criterion 4: degree V appears somewhere (+0.5). */
  function DominantPresent(path: seq<nat>): int
  {
    if 4 in path then 1 else 0
  }

  /** Criterion 5: the first chord's root is the candidate tonic (+2). */
  function RootIsTonic(firstRoot: PitchClass, tonic: PitchClass): int
  {
    if firstRoot == tonic then 4 else 0
  }

  /** Criterion 6: the path ends ii - V - I (+5). */
  function TwoFiveOne(path: seq<nat>): int
  {
    if |path| >= 3 && path[|path| - 3..] == [1, 4, 0] then 10 else 0
  }

  /** Criterion 7: I7 - IVmaj7 - bVIImaj7 at the start, judged on the raw
      names' endings (+5). */
  function MixolydianSignature(path: seq<nat>, progression: seq<string>): int
    requires |path| == |progression|
  {
    if |progression| >= 3 && path[..3] == [0, 3, 6] && EndsWith(progression[0], "7")
       && EndsWith(progression[1], "maj7") && EndsWith(progression[2], "maj7")
    then 10 else 0
  }

  /** Criterion 8: degree I first and the raw first name ends in "7" (+2). */
  function TonicSeventh(path: seq<nat>, progression: seq<string>): int
    requires |path| == |progression| > 0
  {
    if path[0] == 0 && EndsWith(progression[0], "7") then 4 else 0
  }

  /** Criterion 9: the path starts I - vi - ii - V (+4). */
  function Anatole(path: seq<nat>): int
  {
    if |path| >= 4 && path[..4] == [0, 5, 1, 4] then 8 else 0
  }

  /** The doubled score of a survivor: the sum of the nine criteria. */
  function Score(path: seq<nat>, progression: seq<string>, firstRoot: PitchClass, tonic: PitchClass): int
    requires |path| == |progression| > 0
  {
    TonicStart(path) + Cadences(path) + TonicEnd(path) + DominantPresent(path)
    + RootIsTonic(firstRoot, tonic) + TwoFiveOne(path) + MixolydianSignature(path, progression)
    + TonicSeventh(path, progression) + Anatole(path)
  }

  /** The doubled score of a surviving pair. */
  function ScoreOf(chords: seq<Chord>, progression: seq<string>, tonic: PitchClass, m: Mode): int
    requires |chords| == |progression| > 0 && Survives(chords, tonic, m)
  {
    Score(Path(chords, tonic, m).value, progression, chords[0].root, tonic)
  }

  // ---------------------------------------------------------------------
  // Enumeration and selection

  /** Position of a pair in the enumeration: tonic-major, then mode order. */
  function Key(tonic: PitchClass, m: Mode): nat
  {
    7 * tonic + ModeIndex(m)
  }

  /** The verdict on one pair: its doubled score if it survives. */
  function PairScore(chords: seq<Chord>, progression: seq<string>, tonic: PitchClass, m: Mode): Option<int>
  {
    if |chords| == |progression| > 0 && Survives(chords, tonic, m)
    then Some(ScoreOf(chords, progression, tonic, m))
    else None
  }

  /** The verdicts on all pairs of one progression, as a function value. */
  function Scorer(chords: seq<Chord>, progression: seq<string>): (PitchClass, Mode) -> Option<int>
  {
    (t: PitchClass, m: Mode) => PairScore(chords, progression, t, m)
  }

  /** What trying (tonic, m) adds to `perfect_matches`: nothing, or the pair
      with its score. */
  function CandidateFor(score: (PitchClass, Mode) -> Option<int>, tonic: PitchClass, m: Mode): seq<Candidate>
  {
    match score(tonic, m)
    case None => []
    case Some(s) => [Candidate(tonic, m, s)]
  }

  /** `perfect_matches` once every tonic below `tonic`, and the first `mi`
      modes of `tonic`, have been tried. */
  function MatchesBefore(score: (PitchClass, Mode) -> Option<int>, tonic: nat, mi: nat): seq<Candidate>
    requires mi <= 7 && (tonic < 12 || (tonic == 12 && mi == 0))
    decreases tonic, mi
  {
    if mi == 0 then
      if tonic == 0 then [] else MatchesBefore(score, tonic - 1, 7)
    else MatchesBefore(score, tonic, mi - 1) + CandidateFor(score, tonic, ModeOrder[mi - 1])
  }

  /** `perfect_matches` after both loops. */
  function Matches(chords: seq<Chord>, progression: seq<string>): seq<Candidate>
  {
    MatchesBefore(Scorer(chords, progression), 12, 0)
  }

  /** The position of the first candidate on a tonic, if any. */
  function FirstOnTonic(ms: seq<Candidate>, tonic: PitchClass, from: nat): (r: Option<nat>)
    requires from <= |ms|
    ensures r.Some? ==> from <= r.value < |ms| && ms[r.value].tonic == tonic
    ensures r.Some? ==> forall j :: from <= j < r.value ==> ms[j].tonic != tonic
    ensures r.None? ==> forall j :: from <= j < |ms| ==> ms[j].tonic != tonic
    decreases |ms| - from
  {
    if from == |ms| then None
    else if ms[from].tonic == tonic then Some(from)
    else FirstOnTonic(ms, tonic, from + 1)
  }

  /** The head of a stable sort by descending score: the first candidate
      whose score no candidate exceeds. */
  function BestIndex(ms: seq<Candidate>): (b: nat)
    requires |ms| > 0
    ensures b < |ms|
    ensures forall j :: 0 <= j < |ms| ==> ms[j].score <= ms[b].score
    ensures forall j :: 0 <= j < b ==> ms[j].score < ms[b].score
    decreases |ms|
  {
    if |ms| == 1 then 0
    else
      var b := BestIndex(ms[..|ms| - 1]);
      if ms[|ms| - 1].score > ms[b].score then |ms| - 1 else b
  }

  /** `if tonic:` -- a hint that is present and not the empty string. */
  predicate HintGiven(hint: Option<string>)
  {
    hint.Some? && hint.value != ""
  }

  function Best(ms: seq<Candidate>): Outcome
  {
    if |ms| == 0 then NoModeFound
    else Detected(ms[BestIndex(ms)].tonic, ms[BestIndex(ms)].mode)
  }

  /** The result of detect_intelligent_mode(progression, hint). */
  function Detect(progression: seq<string>, hint: Option<string>): Outcome
  {
    if |progression| == 0 then Detected(DefaultTonic, Ionian)
    else Decide(progression, ParseAll(progression), HintLookup(hint))
  }

  /** The hint as the detector reads it: None when no hint is given, else
      the result of looking its root up. */
  function HintLookup(hint: Option<string>): Option<Option<PitchClass>>
  {
    if HintGiven(hint) then Some(GetNoteIndex(hint.value)) else None
  }

  /** The detector once the names have been read: a chord or a given hint
      that could not be read is an error, otherwise the choice among the
      matches. */
  function Decide(progression: seq<string>, parsed: Option<seq<Chord>>, hintTonic: Option<Option<PitchClass>>): Outcome
  {
    match parsed
    case None => InvalidName
    case Some(chords) =>
      match hintTonic
      case Some(None) => InvalidName
      case Some(Some(h)) => Select(Matches(chords, progression), Some(h))
      case None => Select(Matches(chords, progression), None)
  }

  /** The choice among the matches: the first on the hinted tonic if there
      is one, else the head of the stable sort by score. */
  function Select(ms: seq<Candidate>, hintTonic: Option<PitchClass>): Outcome
  {
    match hintTonic
    case Some(h) =>
      (match FirstOnTonic(ms, h, 0)
       case Some(i) => Detected(ms[i].tonic, ms[i].mode)
       case None => Best(ms))
    case None => Best(ms)
  }

  // ---------------------------------------------------------------------
  // The imperative detector

  /** The inner loop: walk the chords, stop at the first that does not fit. */
  method ChordDegrees(chords: seq<Chord>, tonic: PitchClass, intervals: seq<int>, qualities: seq<Quality>)
    returns (isMatch: bool, degrees: seq<nat>)
    requires |intervals| == |qualities|
    ensures isMatch == DegreePath(chords, tonic, intervals, qualities).Some?
    ensures isMatch ==> DegreePath(chords, tonic, intervals, qualities) == Some(degrees)
  {
    isMatch := true;
    degrees := [];
    for i := 0 to |chords|
      invariant DegreePath(chords[..i], tonic, intervals, qualities) == Some(degrees)
    {
      var interval := (chords[i].root - tonic + 12) % 12;
      var d := FirstIndex(intervals, interval);
      assert chords[..i + 1][..i] == chords[..i];
      if d.None? {
        isMatch := false;
        BrokenPrefix(chords, tonic, intervals, qualities, i + 1);
        break;
      }
      if !IsChordCompatible(chords[i].quality, qualities[d.value]) {
        isMatch := false;
        BrokenPrefix(chords, tonic, intervals, qualities, i + 1);
        break;
      }
      assert ChordDegree(chords[i], tonic, intervals, qualities) == d;
      degrees := degrees + [d.value];
    }
    if isMatch {
      assert chords[..|chords|] == chords;
    }
  }

  /** A chord that breaks the match of a prefix breaks the whole progression. */
  lemma {:induction false} BrokenPrefix(chords: seq<Chord>, tonic: PitchClass, intervals: seq<int>, qualities: seq<Quality>, k: nat)
    requires |intervals| == |qualities|
    requires k <= |chords| && DegreePath(chords[..k], tonic, intervals, qualities).None?
    ensures DegreePath(chords, tonic, intervals, qualities).None?
    decreases |chords| - k
  {
    if k < |chords| {
      assert chords[..k + 1][..k] == chords[..k];
      BrokenPrefix(chords, tonic, intervals, qualities, k + 1);
    } else {
      assert chords[..k] == chords;
    }
  }

  /** The `score +=` block of a surviving pair. */
  method ScoreCandidate(path: seq<nat>, progression: seq<string>, firstRoot: PitchClass, tonic: PitchClass)
    returns (score: int)
    requires |path| == |progression| > 0
    ensures score == Score(path, progression, firstRoot, tonic)
  {
    score := 0;
    if path[0] == 0 {
      score := score + 6;
    }
    for i := 0 to |path| - 1
      invariant score == TonicStart(path) + 4 * CadenceCount(path[..i + 1])
    {
      assert path[..i + 2][..i + 1] == path[..i + 1];
      if path[i] == 4 && path[i + 1] == 0 {
        score := score + 4;
      }
    }
    assert path[..|path|] == path;
    if path[|path| - 1] == 0 {
      score := score + 2;
    }
    if 4 in path {
      score := score + 1;
    }
    if firstRoot == tonic {
      score := score + 4;
    }
    if |path| >= 3 && path[|path| - 3] == 1 && path[|path| - 2] == 4 && path[|path| - 1] == 0 {
      assert path[|path| - 3..] == [1, 4, 0];
      score := score + 10;
    }
    if |progression| >= 3 && path[..3] == [0, 3, 6] && EndsWith(progression[0], "7")
       && EndsWith(progression[1], "maj7") && EndsWith(progression[2], "maj7") {
      score := score + 10;
    }
    if path[0] == 0 && EndsWith(progression[0], "7") {
      score := score + 4;
    }
    if |path| >= 4 && path[..4] == [0, 5, 1, 4] {
      score := score + 8;
    }
  }

  /** The outer loop over the twelve tonics that fills `perfect_matches`. */
  method CollectMatches(chords: seq<Chord>, progression: seq<string>) returns (matches: seq<Candidate>)
    requires |chords| == |progression| > 0
    ensures matches == Matches(chords, progression)
  {
    matches := [];
    for tonic := 0 to 12
      invariant matches == MatchesBefore(Scorer(chords, progression), tonic, 0)
    {
      matches := CollectModes(chords, progression, tonic, matches);
    }
  }

  /** The inner loop over the seven modes of one tonic. */
  method CollectModes(chords: seq<Chord>, progression: seq<string>, tonic: PitchClass, before: seq<Candidate>)
    returns (matches: seq<Candidate>)
    requires |chords| == |progression| > 0
    requires before == MatchesBefore(Scorer(chords, progression), tonic, 0)
    ensures matches == MatchesBefore(Scorer(chords, progression), tonic + 1, 0)
  {
    ghost var score := Scorer(chords, progression);
    matches := before;
    for mi := 0 to 7
      invariant matches == MatchesBefore(score, tonic, mi)
    {
      var found := TryPair(chords, progression, tonic, ModeOrder[mi]);
      assert MatchesBefore(score, tonic, mi + 1) == matches + found;
      matches := matches + found;
    }
    assert MatchesBefore(score, tonic + 1, 0) == MatchesBefore(score, tonic, 7);
  }

  /** One pass of the mode loop: the candidate (tonic, m) adds, if any. */
  method TryPair(chords: seq<Chord>, progression: seq<string>, tonic: PitchClass, m: Mode)
    returns (found: seq<Candidate>)
    requires |chords| == |progression| > 0
    ensures found == CandidateFor(Scorer(chords, progression), tonic, m)
  {
    var isMatch, degrees := ChordDegrees(chords, tonic, Intervals(m), Qualities(m));
    PathLength(chords, tonic, m);
    VerdictOfPath(chords, progression, tonic, m);
    found := [];
    if isMatch {
      var score := ScoreCandidate(degrees, progression, chords[0].root, tonic);
      found := [Candidate(tonic, m, score)];
    }
  }

  /** The verdict on a pair in terms of its degree path. */
  lemma VerdictOfPath(chords: seq<Chord>, progression: seq<string>, tonic: PitchClass, m: Mode)
    requires |chords| == |progression| > 0
    ensures Scorer(chords, progression)(tonic, m) ==
            if Path(chords, tonic, m).Some?
            then Some(Score(Path(chords, tonic, m).value, progression, chords[0].root, tonic))
            else None
  {
  }

  /** A degree path has one degree per chord. */
  lemma PathLength(chords: seq<Chord>, tonic: PitchClass, m: Mode)
    ensures Path(chords, tonic, m) == DegreePath(chords, tonic, Intervals(m), Qualities(m))
    ensures Path(chords, tonic, m).Some? ==> |Path(chords, tonic, m).value| == |chords|
  {
  }

  /** The hint loop: the first match whose tonic is the hinted one. */
  method FindOnTonic(matches: seq<Candidate>, tonic: PitchClass) returns (found: Option<nat>)
    ensures found == FirstOnTonic(matches, tonic, 0)
  {
    for i := 0 to |matches|
      invariant forall j :: 0 <= j < i ==> matches[j].tonic != tonic
    {
      if matches[i].tonic == tonic {
        return Some(i);
      }
    }
    return None;
  }

  /** detect_intelligent_mode. */
  method DetectIntelligentMode(progression: seq<string>, hint: Option<string>) returns (outcome: Outcome)
    ensures outcome == Detect(progression, hint)
  {
    if |progression| == 0 {
      return Detected(DefaultTonic, Ionian);
    }
    var parsed := ParseAll(progression);
    if parsed.None? {
      return InvalidName;
    }
    var matches := CollectMatches(parsed.value, progression);
    if HintGiven(hint) {
      var h := GetNoteIndex(hint.value);
      if h.None? {
        return InvalidName;
      }
      var found := FindOnTonic(matches, h.value);
      if found.Some? {
        return Detected(matches[found.value].tonic, matches[found.value].mode);
      }
    }
    if |matches| == 0 {
      return NoModeFound;
    }
    var best := matches[BestIndex(matches)];
    return Detected(best.tonic, best.mode);
  }

  // ---------------------------------------------------------------------
  // What the detector promises

  /** The empty progression's default tonic is the pitch class of "C". */
  lemma DefaultTonicIsC()
    ensures GetNoteIndex("C") == Some(DefaultTonic)
  {
    ChordFacts.NaturalSpelling('C');
    assert "C" == ['C'];
  }

  lemma ModeIndexOfOrder(k: nat)
    requires k < 7
    ensures ModeIndex(ModeOrder[k]) == k
  {
  }

  /** A mode's interval list has no repeats, so `intervals.index` finds the
      only degree with that interval. */
  lemma ChordDegreeFits(ch: Chord, tonic: PitchClass, m: Mode)
    ensures ChordDegree(ch, tonic, Intervals(m), Qualities(m)).Some? <==> Fits(ch, tonic, m)
  {
    TablesWellFormed(m);
    var x := IntervalFrom(ch.root, tonic);
    match FirstIndex(Intervals(m), x)
    case None =>
    case Some(d) =>
      if Fits(ch, tonic, m) {
        var e :| 0 <= e < 7 && Intervals(m)[e] == x && IsChordCompatible(ch.quality, Qualities(m)[e]);
        assert d == e;
      }
  }

  /** A pair survives exactly when every chord of the progression fits it. */
  lemma {:induction false} SurvivesIff(chords: seq<Chord>, tonic: PitchClass, m: Mode)
    ensures Survives(chords, tonic, m) <==> forall i :: 0 <= i < |chords| ==> Fits(chords[i], tonic, m)
    decreases |chords|
  {
    if |chords| > 0 {
      var front := chords[..|chords| - 1];
      SurvivesIff(front, tonic, m);
      ChordDegreeFits(chords[|chords| - 1], tonic, m);
      if forall i :: 0 <= i < |chords| ==> Fits(chords[i], tonic, m) {
        assert forall i :: 0 <= i < |front| ==> Fits(front[i], tonic, m) by {
          forall i | 0 <= i < |front| ensures Fits(front[i], tonic, m) {
            assert front[i] == chords[i];
          }
        }
      } else {
        var i :| 0 <= i < |chords| && !Fits(chords[i], tonic, m);
        if i < |front| {
          assert front[i] == chords[i];
        }
      }
    }
  }

  /** Candidates listed in strictly increasing enumeration position. */
  predicate InEnumerationOrder(ms: seq<Candidate>)
  {
    forall i, j :: 0 <= i < j < |ms| ==> Key(ms[i].tonic, ms[i].mode) < Key(ms[j].tonic, ms[j].mode)
  }

  /** A candidate carries the score the verdicts give its pair. */
  predicate Scored(score: (PitchClass, Mode) -> Option<int>, c: Candidate)
  {
    score(c.tonic, c.mode) == Some(c.score)
  }

  /** A candidate is in `perfect_matches` once its pair has been tried, if
      and only if it carries that pair's score. */
  lemma {:induction false} ListedBefore(score: (PitchClass, Mode) -> Option<int>, tonic: nat, mi: nat, c: Candidate)
    requires mi <= 7 && (tonic < 12 || (tonic == 12 && mi == 0))
    ensures c in MatchesBefore(score, tonic, mi) <==> Key(c.tonic, c.mode) < 7 * tonic + mi && Scored(score, c)
    decreases tonic, mi
  {
    if mi == 0 {
      if tonic > 0 {
        ListedBefore(score, tonic - 1, 7, c);
      }
    } else {
      ListedBefore(score, tonic, mi - 1, c);
      var m := ModeOrder[mi - 1];
      assert MatchesBefore(score, tonic, mi) == MatchesBefore(score, tonic, mi - 1) + CandidateFor(score, tonic, m);
      KeyAt(c, tonic, mi - 1);
      assert c in CandidateFor(score, tonic, m) <==> c.tonic == tonic && c.mode == m && Scored(score, c);
    }
  }

  /** Position `7 * tonic + j` of the enumeration is the pair of `tonic` and
      the j-th mode. */
  lemma KeyAt(c: Candidate, tonic: nat, j: nat)
    requires j < 7
    ensures Key(c.tonic, c.mode) == 7 * tonic + j <==> c.tonic == tonic && c.mode == ModeOrder[j]
  {
    ModeIndexOfOrder(j);
    if Key(c.tonic, c.mode) == 7 * tonic + j {
      assert c.tonic == tonic;
    }
  }

  /** `perfect_matches` lists its candidates in enumeration order. */
  lemma {:induction false} OrderedBefore(score: (PitchClass, Mode) -> Option<int>, tonic: nat, mi: nat)
    requires mi <= 7 && (tonic < 12 || (tonic == 12 && mi == 0))
    ensures InEnumerationOrder(MatchesBefore(score, tonic, mi))
    decreases tonic, mi
  {
    if mi == 0 {
      if tonic > 0 {
        OrderedBefore(score, tonic - 1, 7);
      }
    } else {
      OrderedBefore(score, tonic, mi - 1);
      ModeIndexOfOrder(mi - 1);
      var prev := MatchesBefore(score, tonic, mi - 1);
      var ms := MatchesBefore(score, tonic, mi);
      forall i, j | 0 <= i < j < |ms| ensures Key(ms[i].tonic, ms[i].mode) < Key(ms[j].tonic, ms[j].mode) {
        if j >= |prev| {
          assert ms[i] == prev[i];
          ListedBefore(score, tonic, mi - 1, prev[i]);
        }
      }
    }
  }

  /** Every surviving pair sits in `perfect_matches` with its score, and
      nothing else does. */
  lemma MatchesComplete(chords: seq<Chord>, progression: seq<string>, c: Candidate)
    requires |chords| == |progression| > 0
    ensures c in Matches(chords, progression) <==>
            Survives(chords, c.tonic, c.mode) && c.score == ScoreOf(chords, progression, c.tonic, c.mode)
  {
    KeyBelowPairCount(c.tonic, c.mode);
    ListedBefore(Scorer(chords, progression), 12, 0, c);
    ScorerMeansSurvival(chords, progression, c.tonic, c.mode);
  }

  /** The verdict on a surviving pair is its score; a pair that breaks the
      match has none. */
  lemma ScorerMeansSurvival(chords: seq<Chord>, progression: seq<string>, tonic: PitchClass, m: Mode)
    requires |chords| == |progression| > 0
    ensures Scorer(chords, progression)(tonic, m).Some? <==> Survives(chords, tonic, m)
    ensures Survives(chords, tonic, m) ==> Scorer(chords, progression)(tonic, m).value == ScoreOf(chords, progression, tonic, m)
  {
  }

  /** The pair sorted(...)[0] names under the verdicts `score`: it has a
      score no pair beats, and every pair enumerated before it scores
      strictly less. */
  predicate IsBestPair(score: (PitchClass, Mode) -> Option<int>, tonic: PitchClass, m: Mode)
  {
    score(tonic, m).Some?
    && forall t2: PitchClass, m2: Mode :: score(t2, m2).Some? ==>
         score(t2, m2).value <= score(tonic, m).value
         && (Key(t2, m2) < Key(tonic, m) ==> score(t2, m2).value < score(tonic, m).value)
  }

  /** The pair the hint loop returns: one on the hinted tonic in the first
      mode, in mode order, that has a score there. */
  predicate IsHintPair(score: (PitchClass, Mode) -> Option<int>, tonic: PitchClass, m: Mode)
  {
    score(tonic, m).Some?
    && forall m2: Mode :: ModeIndex(m2) < ModeIndex(m) ==> score(tonic, m2).None?
  }

  /** At most one pair is best: the criterion leaves no tie unresolved. */
  lemma BestPairUnique(score: (PitchClass, Mode) -> Option<int>, t1: PitchClass, m1: Mode, t2: PitchClass, m2: Mode)
    requires IsBestPair(score, t1, m1) && IsBestPair(score, t2, m2)
    ensures t1 == t2 && m1 == m2
  {
    assert Key(t1, m1) == Key(t2, m2);
    assert ModeOrder[ModeIndex(m1)] == m1 && ModeOrder[ModeIndex(m2)] == m2;
  }

  /** Every pair with a score is listed in `perfect_matches` with it. */
  lemma ListedWhenScored(score: (PitchClass, Mode) -> Option<int>, t: PitchClass, m: Mode)
    requires score(t, m).Some?
    ensures Candidate(t, m, score(t, m).value) in MatchesBefore(score, 12, 0)
  {
    KeyBelowPairCount(t, m);
    ListedBefore(score, 12, 0, Candidate(t, m, score(t, m).value));
  }

  /** Every pair's enumeration position is below 12 * 7. */
  lemma KeyBelowPairCount(t: PitchClass, m: Mode)
    ensures Key(t, m) < 84
  {
    assert ModeIndex(m) < 7;
  }

  /** Every entry of `perfect_matches` carries its pair's score. */
  lemma ListedIsScored(score: (PitchClass, Mode) -> Option<int>, c: Candidate)
    requires c in MatchesBefore(score, 12, 0)
    ensures Scored(score, c)
  {
    ListedBefore(score, 12, 0, c);
  }

  /** `ms` is what the two loops build from the verdicts `score`: exactly
      the pairs with a score, each with it, in enumeration order. */
  predicate ListsExactly(ms: seq<Candidate>, score: (PitchClass, Mode) -> Option<int>)
  {
    InEnumerationOrder(ms)
    && (forall c :: c in ms ==> Scored(score, c))
    && (forall t: PitchClass, m: Mode :: score(t, m).Some? ==> Candidate(t, m, score(t, m).value) in ms)
  }

  lemma MatchesListExactly(score: (PitchClass, Mode) -> Option<int>)
    ensures ListsExactly(MatchesBefore(score, 12, 0), score)
  {
    var ms := MatchesBefore(score, 12, 0);
    OrderedBefore(score, 12, 0);
    forall c | c in ms ensures Scored(score, c) {
      ListedIsScored(score, c);
    }
    forall t: PitchClass, m: Mode | score(t, m).Some? ensures Candidate(t, m, score(t, m).value) in ms {
      ListedWhenScored(score, t, m);
    }
  }

  /** The detector gives up exactly when no pair has a score. */
  lemma NoneOnlyWhenNothingScores(ms: seq<Candidate>, score: (PitchClass, Mode) -> Option<int>)
    requires ListsExactly(ms, score)
    ensures Best(ms) == NoModeFound <==> forall t: PitchClass, m: Mode :: score(t, m).None?
  {
    if |ms| > 0 {
      assert ms[0] in ms;
      assert Scored(score, ms[0]);
    }
  }

  /** The stable sort's head is the best pair. */
  lemma BestChoice(ms: seq<Candidate>, score: (PitchClass, Mode) -> Option<int>)
    requires ListsExactly(ms, score) && |ms| > 0
    ensures IsBestPair(score, Best(ms).tonic, Best(ms).mode)
  {
    var best := ms[BestIndex(ms)];
    assert best in ms;
    forall t2: PitchClass, m2: Mode | score(t2, m2).Some?
      ensures score(t2, m2).value <= best.score
      ensures Key(t2, m2) < Key(best.tonic, best.mode) ==> score(t2, m2).value < best.score
    {
      BestOfOrderedList(ms, Candidate(t2, m2, score(t2, m2).value));
    }
  }

  /** In a list in enumeration order, the first maximum scores at least as
      much as any entry and strictly more than any entry before it. */
  lemma BestOfOrderedList(ms: seq<Candidate>, c: Candidate)
    requires InEnumerationOrder(ms) && c in ms
    ensures c.score <= ms[BestIndex(ms)].score
    ensures Key(c.tonic, c.mode) < Key(ms[BestIndex(ms)].tonic, ms[BestIndex(ms)].mode) ==> c.score < ms[BestIndex(ms)].score
  {
    var b := BestIndex(ms);
    var j :| 0 <= j < |ms| && ms[j] == c;
    if Key(c.tonic, c.mode) < Key(ms[b].tonic, ms[b].mode) {
      assert j < b;
    }
  }

  /** The hint loop finds a match exactly when some mode has a score on the
      hinted tonic, and then it finds the first such mode. */
  lemma HintChoice(ms: seq<Candidate>, score: (PitchClass, Mode) -> Option<int>, h: PitchClass)
    requires ListsExactly(ms, score)
    ensures FirstOnTonic(ms, h, 0).Some? <==> exists m: Mode :: score(h, m).Some?
    ensures match FirstOnTonic(ms, h, 0)
            case Some(i) => ms[i].tonic == h && IsHintPair(score, h, ms[i].mode)
            case None => true
  {
    match FirstOnTonic(ms, h, 0)
    case None =>
    case Some(i) =>
      assert ms[i] in ms;
      forall m2: Mode | ModeIndex(m2) < ModeIndex(ms[i].mode) ensures score(h, m2).None? {
        if score(h, m2).Some? {
          EarlierInOrderedList(ms, Candidate(h, m2, score(h, m2).value), i);
        }
      }
  }

  /** In a list in enumeration order, an entry with a smaller position in
      the enumeration sits earlier in the list. */
  lemma EarlierInOrderedList(ms: seq<Candidate>, c: Candidate, i: nat)
    requires InEnumerationOrder(ms) && c in ms && i < |ms|
    requires Key(c.tonic, c.mode) < Key(ms[i].tonic, ms[i].mode)
    ensures exists j :: 0 <= j < i && ms[j] == c
  {
    var j :| 0 <= j < |ms| && ms[j] == c;
    assert j < i;
  }

  /** The detector raises exactly when a chord or the given hint has a root
      it cannot read, and a non-empty progression is needed for that. */
  lemma DetectInvalid(progression: seq<string>, hint: Option<string>)
    ensures Detect(progression, hint) == InvalidName <==>
            |progression| > 0 && (ParseAll(progression).None? || HintLookup(hint) == Some(None))
  {
  }

  /** Without a hinted tonic that has a score, the choice is the best pair,
      and there is none exactly when no pair has a score. */
  lemma SelectBest(ms: seq<Candidate>, score: (PitchClass, Mode) -> Option<int>, hintTonic: Option<PitchClass>)
    requires ListsExactly(ms, score)
    requires hintTonic.Some? ==> forall m: Mode :: score(hintTonic.value, m).None?
    ensures Select(ms, hintTonic) == NoModeFound <==> forall t: PitchClass, m: Mode :: score(t, m).None?
    ensures Select(ms, hintTonic).Detected? ==> IsBestPair(score, Select(ms, hintTonic).tonic, Select(ms, hintTonic).mode)
  {
    if hintTonic.Some? {
      HintChoice(ms, score, hintTonic.value);
    }
    NoneOnlyWhenNothingScores(ms, score);
    if |ms| > 0 {
      BestChoice(ms, score);
    }
  }

  /** A hinted tonic with a score decides the tonic; the mode is the first
      one with a score there. */
  lemma SelectHinted(ms: seq<Candidate>, score: (PitchClass, Mode) -> Option<int>, h: PitchClass, m: Mode)
    requires ListsExactly(ms, score) && score(h, m).Some?
    ensures Select(ms, Some(h)).Detected? && Select(ms, Some(h)).tonic == h
    ensures IsHintPair(score, h, Select(ms, Some(h)).mode)
  {
    HintChoice(ms, score, h);
  }

  /** SelectBest for the list the two loops build. */
  lemma SelectBestOfMatches(chords: seq<Chord>, progression: seq<string>, hintTonic: Option<PitchClass>)
    requires hintTonic.Some? ==> forall m: Mode :: Scorer(chords, progression)(hintTonic.value, m).None?
    ensures Select(Matches(chords, progression), hintTonic) == NoModeFound <==>
            forall t: PitchClass, m: Mode :: Scorer(chords, progression)(t, m).None?
    ensures Select(Matches(chords, progression), hintTonic).Detected? ==>
            IsBestPair(Scorer(chords, progression), Select(Matches(chords, progression), hintTonic).tonic,
                       Select(Matches(chords, progression), hintTonic).mode)
  {
    MatchesListExactly(Scorer(chords, progression));
    SelectBest(Matches(chords, progression), Scorer(chords, progression), hintTonic);
  }

  /** SelectHinted for the list the two loops build. */
  lemma SelectHintedOfMatches(chords: seq<Chord>, progression: seq<string>, h: PitchClass, m: Mode)
    requires Scorer(chords, progression)(h, m).Some?
    ensures Select(Matches(chords, progression), Some(h)).Detected?
    ensures Select(Matches(chords, progression), Some(h)).tonic == h
    ensures IsHintPair(Scorer(chords, progression), h, Select(Matches(chords, progression), Some(h)).mode)
  {
    MatchesListExactly(Scorer(chords, progression));
    SelectHinted(Matches(chords, progression), Scorer(chords, progression), h, m);
  }

  /** A pair has a verdict exactly when it survives. */
  lemma ScoredIffSurvives(chords: seq<Chord>, progression: seq<string>)
    requires |chords| == |progression| > 0
    ensures forall t: PitchClass, m: Mode :: Scorer(chords, progression)(t, m).Some? <==> Survives(chords, t, m)
  {
    forall t: PitchClass, m: Mode ensures Scorer(chords, progression)(t, m).Some? <==> Survives(chords, t, m) {
      ScorerMeansSurvival(chords, progression, t, m);
    }
  }

  /** With no usable hint the detector answers the best surviving pair, and
      gives up exactly when none survives. */
  lemma DecideUnhinted(progression: seq<string>, chords: seq<Chord>, hintTonic: Option<Option<PitchClass>>)
    requires |chords| == |progression| > 0
    requires hintTonic.Some? ==> hintTonic.value.Some? && forall m: Mode :: !Survives(chords, hintTonic.value.value, m)
    ensures Decide(progression, Some(chords), hintTonic) == NoModeFound <==>
            forall t: PitchClass, m: Mode :: !Survives(chords, t, m)
    ensures Decide(progression, Some(chords), hintTonic).Detected? ==>
            IsBestPair(Scorer(chords, progression), Decide(progression, Some(chords), hintTonic).tonic,
                       Decide(progression, Some(chords), hintTonic).mode)
  {
    var h: Option<PitchClass> := if hintTonic.Some? then hintTonic.value else None;
    if h.Some? {
      NoScoreWithoutSurvivor(chords, progression, h.value);
    }
    NothingScoredIffNothingSurvives(chords, progression);
    SelectBestOfMatches(chords, progression, h);
  }

  /** A tonic on which no mode survives has no verdict in any mode. */
  lemma NoScoreWithoutSurvivor(chords: seq<Chord>, progression: seq<string>, h: PitchClass)
    requires |chords| == |progression| > 0
    requires forall m: Mode :: !Survives(chords, h, m)
    ensures forall m: Mode :: Scorer(chords, progression)(h, m).None?
  {
    forall m: Mode ensures Scorer(chords, progression)(h, m).None? {
      ScorerMeansSurvival(chords, progression, h, m);
    }
  }

  /** No pair has a verdict exactly when no pair survives. */
  lemma NothingScoredIffNothingSurvives(chords: seq<Chord>, progression: seq<string>)
    requires |chords| == |progression| > 0
    ensures (forall t: PitchClass, m: Mode :: Scorer(chords, progression)(t, m).None?) <==>
            (forall t: PitchClass, m: Mode :: !Survives(chords, t, m))
  {
    ScoredIffSurvives(chords, progression);
  }

  /** A readable hint on which some mode survives decides the tonic, and the
      mode is the first surviving one there, whatever the scores. */
  lemma DecideHinted(progression: seq<string>, chords: seq<Chord>, h: PitchClass, m: Mode)
    requires |chords| == |progression| > 0 && Survives(chords, h, m)
    ensures Decide(progression, Some(chords), Some(Some(h))).Detected?
    ensures Decide(progression, Some(chords), Some(Some(h))).tonic == h
    ensures IsHintPair(Scorer(chords, progression), h, Decide(progression, Some(chords), Some(Some(h))).mode)
  {
    ScorerMeansSurvival(chords, progression, h, m);
    SelectHintedOfMatches(chords, progression, h, m);
  }

  /** Criteria 1 and 5 always fire together: the first chord is on degree I
      exactly when its root is the candidate tonic. */
  lemma TonicStartIffRootIsTonic(chords: seq<Chord>, progression: seq<string>, tonic: PitchClass, m: Mode)
    requires |chords| == |progression| > 0 && Survives(chords, tonic, m)
    ensures TonicStart(Path(chords, tonic, m).value) == 6 <==> RootIsTonic(chords[0].root, tonic) == 4
  {
    TablesWellFormed(m);
    var d := Path(chords, tonic, m).value[0];
    if d != 0 {
      assert Intervals(m)[0] < Intervals(m)[d];
    }
  }

  /** A V -> I step starts at position i of a degree path. */
  predicate CadenceAt(path: seq<nat>, i: nat)
    requires i + 1 < |path|
  {
    path[i] == 4 && path[i + 1] == 0
  }

  /** Criterion 2 counts every V -> I step, not just whether one occurs. */
  lemma {:induction false} CadenceCountIsPairs(path: seq<nat>)
    ensures CadenceCount(path) == |set i: nat | i + 1 < |path| && CadenceAt(path, i)|
    decreases |path|
  {
    var all := set i: nat | i + 1 < |path| && CadenceAt(path, i);
    if |path| < 2 {
      assert all == {};
    } else {
      var front := path[..|path| - 1];
      var before := set i: nat | i + 1 < |front| && CadenceAt(front, i);
      CadenceCountIsPairs(front);
      var k := |path| - 2;
      assert forall i: nat :: i + 1 < |front| ==> (CadenceAt(front, i) <==> CadenceAt(path, i));
      if CadenceAt(path, k) {
        assert all == before + {k};
        assert k !in before;
      } else {
        assert all == before;
      }
    }
  }

  // ---------------------------------------------------------------------
  // What a detection guarantees

  /** The pair chosen is one of the candidates. */
  lemma SelectedIsListed(ms: seq<Candidate>, hintTonic: Option<PitchClass>)
    requires Select(ms, hintTonic).Detected?
    ensures exists c :: c in ms && c.tonic == Select(ms, hintTonic).tonic && c.mode == Select(ms, hintTonic).mode
  {
    match hintTonic
    case Some(h) =>
      if FirstOnTonic(ms, h, 0).Some? {
        assert ms[FirstOnTonic(ms, h, 0).value] in ms;
      } else {
        assert ms[BestIndex(ms)] in ms;
      }
    case None =>
      assert ms[BestIndex(ms)] in ms;
  }

  /** Whatever pair the detector answers for a non-empty progression, every
      chord of the progression reads and fits it. */
  lemma DetectedSurvives(progression: seq<string>, hint: Option<string>)
    requires |progression| > 0 && Detect(progression, hint).Detected?
    ensures ParseAll(progression).Some?
    ensures Survives(ParseAll(progression).value, Detect(progression, hint).tonic, Detect(progression, hint).mode)
  {
    var chords := ParseAll(progression).value;
    var r := Detect(progression, hint);
    var h: Option<PitchClass> := if HintLookup(hint).Some? then HintLookup(hint).value else None;
    assert r == Select(Matches(chords, progression), h);
    SelectedIsListed(Matches(chords, progression), h);
    var c :| c in Matches(chords, progression) && c.tonic == r.tonic && c.mode == r.mode;
    ListedIsScored(Scorer(chords, progression), c);
    ScorerMeansSurvival(chords, progression, r.tonic, r.mode);
  }
}

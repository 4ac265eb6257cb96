/** create_substitution_table without its printing: the rows of the table
    that shows a progression re-harmonised in each of the other modes. */
module Substitution {
  import opened Wrappers
  import opened Text
  import opened Tables
  import opened Chords
  import opened Detector
  import ChordFacts

  /** One row of the table: the mode, the relative major it borrows from,
      the chords it borrows (in the first row: the chords to replace) and
      the progression rebuilt with them. */
  datatype Row = Row(mode: string, relative: string, borrowed: string, substitution: string)

  datatype Table = Table(headers: seq<string>, rows: seq<Row>)

  /** How create_substitution_table ends: a table; nothing, for a progression
      of fewer than two chords; or an exception. */
  datatype TableOutcome = Built(table: Table) | TooShort | Raised

  // ---------------------------------------------------------------------
  // Chords to substitute

  /** The hint the table passes on to the detector: one that is not itself a
      chord of the progression is dropped. */
  function KeptHint(base: seq<string>, hint: Option<string>): Option<string>
  {
    if HintGiven(hint) && hint.value !in base then None else hint
  }

  /** `tonic_chord_in_prog`: the first chord whose root is the tonic, or the
      tonic's note name when there is none; None where reading a root before
      it raises. */
  function TonicChord(root: string -> Option<PitchClass>, base: seq<string>, t: PitchClass): (r: Option<string>)
    ensures r.Some? <==> forall i :: 0 <= i < |base| && (forall j :: 0 <= j < i ==> root(base[j]) != Some(t)) ==> root(base[i]).Some?
    ensures r.Some? ==>
              || (exists i :: 0 <= i < |base| && r.value == base[i] && root(base[i]) == Some(t)
                              && forall j :: 0 <= j < i ==> root(base[j]) != Some(t))
              || (r.value == Notes[t] && forall i :: 0 <= i < |base| ==> root(base[i]) != Some(t))
    decreases |base|
  {
    if |base| == 0 then Some(Notes[t])
    else match root(base[0])
      case None => None
      case Some(k) =>
        if k == t then Some(base[0])
        else
          var rest := TonicChord(root, base[1..], t);
          assert forall i :: 1 <= i < |base| ==> base[i] == base[1..][i - 1];
          rest
  }

  /** The positions of the chords `keep` accepts, in increasing order: a
      list comprehension with a condition keeps exactly the chords at these
      positions, in this order. */
  function KeptPositions(keep: string -> bool, base: seq<string>): (ps: seq<nat>)
    ensures forall k :: 0 <= k < |ps| ==> ps[k] < |base| && keep(base[ps[k]])
    ensures forall k, l :: 0 <= k < l < |ps| ==> ps[k] < ps[l]
    ensures forall i :: 0 <= i < |base| && keep(base[i]) ==> i in ps
    decreases |base|
  {
    if |base| == 0 then []
    else
      var n := |base| - 1;
      var front := KeptPositions(keep, base[..n]);
      assert forall k :: 0 <= k < |front| ==> base[..n][front[k]] == base[front[k]];
      assert forall i :: 0 <= i < n ==> base[..n][i] == base[i];
      if keep(base[n]) then front + [n] else front
  }

  /** The chords whose text differs from `x`: every such chord, in order,
      repeats included. */
  function Without(base: seq<string>, x: string): (r: seq<string>)
    ensures forall c :: c in r <==> c in base && c != x
    ensures |r| == |KeptPositions(c => c != x, base)|
    ensures forall k :: 0 <= k < |r| ==> r[k] == base[KeptPositions(c => c != x, base)[k]]
    decreases |base|
  {
    if |base| == 0 then []
    else
      var last := base[|base| - 1];
      var prefix := Without(base[..|base| - 1], x);
      assert forall c :: c in base ==> c == last || c in base[..|base| - 1];
      assert forall i :: 0 <= i < |base| - 1 ==> base[..|base| - 1][i] == base[i];
      if last != x then prefix + [last] else prefix
  }

  /** The chords whose root is not the tonic, in order. */
  function OffTonic(root: string -> Option<PitchClass>, base: seq<string>, t: PitchClass): (r: seq<string>)
    ensures |r| <= |base|
    decreases |base|
  {
    if |base| == 0 then []
    else
      var last := base[|base| - 1];
      var prefix := OffTonic(root, base[..|base| - 1], t);
      if root(last) != Some(t) then prefix + [last] else prefix
  }

  /** The rebuild replaces every chord whose root is not the tonic, in
      order, repeats included. */
  lemma OffTonicInOrder(root: string -> Option<PitchClass>, base: seq<string>, t: PitchClass)
    ensures |OffTonic(root, base, t)| == |KeptPositions(c => root(c) != Some(t), base)|
    ensures forall k :: 0 <= k < |OffTonic(root, base, t)| ==>
              OffTonic(root, base, t)[k] == base[KeptPositions(c => root(c) != Some(t), base)[k]]
  {
    OffTonicAtKept(root, base, t, c => root(c) != Some(t));
  }

  /** OffTonicInOrder for any `keep` that accepts exactly the off-tonic chords. */
  lemma {:induction false} OffTonicAtKept(root: string -> Option<PitchClass>, base: seq<string>, t: PitchClass,
                                          keep: string -> bool)
    requires forall c :: keep(c) == (root(c) != Some(t))
    ensures |OffTonic(root, base, t)| == |KeptPositions(keep, base)|
    ensures forall k :: 0 <= k < |OffTonic(root, base, t)| ==>
              OffTonic(root, base, t)[k] == base[KeptPositions(keep, base)[k]]
    decreases |base|
  {
    if |base| > 0 {
      var n := |base| - 1;
      OffTonicAtKept(root, base[..n], t, keep);
      var front, ps := OffTonic(root, base[..n], t), KeptPositions(keep, base[..n]);
      KeptStep(root, base, t, keep);
      var r, qs := OffTonic(root, base, t), KeptPositions(keep, base);
      if keep(base[n]) {
        assert r == front + [base[n]] && qs == ps + [n];
        forall k | 0 <= k < |r|
          ensures r[k] == base[qs[k]]
        {
          if k < |front| {
            assert base[..n][ps[k]] == base[ps[k]];
          }
        }
      } else {
        assert r == front && qs == ps;
        forall k | 0 <= k < |r|
          ensures r[k] == base[qs[k]]
        {
          assert base[..n][ps[k]] == base[ps[k]];
        }
      }
    }
  }

  /** Both filters extend by the last chord exactly when it is off the tonic. */
  lemma KeptStep(root: string -> Option<PitchClass>, base: seq<string>, t: PitchClass, keep: string -> bool)
    requires |base| > 0 && forall c :: keep(c) == (root(c) != Some(t))
    ensures KeptPositions(keep, base) ==
            KeptPositions(keep, base[..|base| - 1]) + (if keep(base[|base| - 1]) then [|base| - 1] else [])
    ensures OffTonic(root, base, t) ==
            OffTonic(root, base[..|base| - 1], t) + (if keep(base[|base| - 1]) then [base[|base| - 1]] else [])
  {
  }

  /** The chords kept are exactly those whose root is not the tonic. */
  lemma {:induction false} OffTonicMembers(root: string -> Option<PitchClass>, base: seq<string>, t: PitchClass)
    ensures forall c :: c in OffTonic(root, base, t) <==> c in base && root(c) != Some(t)
    decreases |base|
  {
    if |base| > 0 {
      var n := |base| - 1;
      OffTonicMembers(root, base[..n], t);
      assert base == base[..n] + [base[n]];
    }
  }

  /** `chords_to_substitute` as written: the chords whose text differs from
      the tonic chord's, in order, or all but the first when every chord is
      that one. */
  function ChordsToSubstituteAsWritten(base: seq<string>, tonicChord: string): (r: seq<string>)
    requires |base| > 0
    ensures (exists i :: 0 <= i < |base| && base[i] != tonicChord) ==>
              && (forall c :: c in r <==> c in base && c != tonicChord)
              && |r| == |KeptPositions(c => c != tonicChord, base)|
              && forall k :: 0 <= k < |r| ==> r[k] == base[KeptPositions(c => c != tonicChord, base)[k]]
    ensures (forall i :: 0 <= i < |base| ==> base[i] == tonicChord) ==> r == base[1..]
  {
    var others := Without(base, tonicChord);
    assert (exists i :: 0 <= i < |base| && base[i] != tonicChord) ==> others != [];
    assert others != [] ==> others[0] in others;
    if others == [] then base[1..] else others
  }

  /** `chords_to_substitute` as the rebuild loop reads it: the chords whose
      root is not the tonic, in order, or all but the first when every root
      is. */
  function ChordsToSubstitute(root: string -> Option<PitchClass>, base: seq<string>, t: PitchClass): (r: seq<string>)
    requires |base| > 0
    ensures OffTonic(root, base, t) != [] ==> forall c :: c in r <==> c in base && root(c) != Some(t)
    ensures (exists i :: 0 <= i < |base| && root(base[i]) != Some(t)) ==> r == OffTonic(root, base, t)
    ensures (forall i :: 0 <= i < |base| ==> root(base[i]) == Some(t)) ==> r == base[1..]
  {
    OffTonicMembers(root, base, t);
    var others := OffTonic(root, base, t);
    assert (exists i :: 0 <= i < |base| && root(base[i]) != Some(t)) ==> others != [];
    assert others != [] ==> others[0] in others;
    if others == [] then base[1..] else others
  }

  /** When some chord is off the tonic, the chords to substitute are the
      off-tonic chords of the progression in order, repeats included: the
      k-th is the chord at the k-th off-tonic position. */
  lemma ChordsToSubstituteInOrder(root: string -> Option<PitchClass>, base: seq<string>, t: PitchClass)
    requires |base| > 0 && exists i :: 0 <= i < |base| && root(base[i]) != Some(t)
    ensures |ChordsToSubstitute(root, base, t)| == |KeptPositions(c => root(c) != Some(t), base)|
    ensures forall k :: 0 <= k < |ChordsToSubstitute(root, base, t)| ==>
              ChordsToSubstitute(root, base, t)[k] == base[KeptPositions(c => root(c) != Some(t), base)[k]]
  {
    OffTonicInOrder(root, base, t);
  }

  // ---------------------------------------------------------------------
  // Degrees to borrow

  /** The numerals of the chords to substitute; None where one raises. */
  function Numerals(subs: seq<string>, t: PitchClass, m: Mode): Option<seq<string>>
  {
    MapAll((c: string) => GetRomanNumeral(c, t, m), subs)
  }

  /** A numeral upper-cased and stripped of "MAJ7", "M7", "Ø7", "°7" and "7",
      in that order. */
  function CleanNumeral(numeral: string): string
  {
    StripMarkers(Upper(numeral))
  }

  /** The five `replace(..., "")` calls of the degree extraction. */
  function StripMarkers(u: string): string
  {
    RemoveAll(RemoveAll(RemoveAll(RemoveAll(RemoveAll(u, "MAJ7"), "M7"), "Ø7"), "°7"), "7")
  }

  /** The degree (1..7) a numeral names, or None where ROMAN_DEGREES.index
      raises. */
  function DegreeOfNumeral(numeral: string): (r: Option<nat>)
    ensures r.Some? ==> 1 <= r.value <= 7
  {
    match FirstIndex(RomanDegrees, CleanNumeral(numeral))
    case None => None
    case Some(i) => Some(i + 1)
  }

  /** A degree is found exactly when the cleaned numeral is one of
      ROMAN_DEGREES, and it is the position of that numeral. */
  lemma DegreeOfNumeralMeaning(numeral: string)
    ensures DegreeOfNumeral(numeral).Some? ==> RomanDegrees[DegreeOfNumeral(numeral).value - 1] == CleanNumeral(numeral)
    ensures DegreeOfNumeral(numeral).None? <==> CleanNumeral(numeral) !in RomanDegrees
  {
  }

  /** `degrees_to_borrow` once the unresolved numerals are dropped. */
  function Resolved(degree: string -> Option<nat>, numerals: seq<string>): (r: seq<nat>)
    requires forall c :: degree(c).Some? ==> 1 <= degree(c).value <= 7
    ensures |r| <= |numerals|
    ensures forall i :: 0 <= i < |r| ==> 1 <= r[i] <= 7
    decreases |numerals|
  {
    if |numerals| == 0 then []
    else
      var prefix := Resolved(degree, numerals[..|numerals| - 1]);
      match degree(numerals[|numerals| - 1])
      case None => prefix
      case Some(d) => prefix + [d]
  }

  // ---------------------------------------------------------------------
  // Rows

  /** The tonic of the major scale a mode on `t` is drawn from. */
  function RelativeTonic(t: PitchClass, m: Mode): PitchClass
  {
    (t + RelativeOffset(m) + 12) % 12
  }

  /** A mode is a rotation of the major scale: its degree `i + 1` lies on
      the major scale's degree `i + ModeIndex(m) + 1` (counted round the
      scale), once the mode's offset to its relative major is undone. */
  lemma ModeIsRotation(m: Mode, i: nat)
    requires i < 7
    ensures (Intervals(m)[i] - RelativeOffset(m)) % 12 == Intervals(Ionian)[(i + ModeIndex(m)) % 7]
  {
    match m
    case Ionian =>
    case Dorian =>
    case Phrygian =>
    case Lydian =>
    case Mixolydian =>
    case Aeolian =>
    case Locrian =>
  }

  /** ... and the chord quality on that degree is the major scale's. */
  lemma QualitiesRotate(m: Mode, i: nat)
    requires i < 7
    ensures Qualities(m)[i] == Qualities(Ionian)[(i + ModeIndex(m)) % 7]
  {
    match m
    case Ionian =>
    case Dorian =>
    case Phrygian =>
    case Lydian =>
    case Mixolydian =>
    case Aeolian =>
    case Locrian =>
  }

  /** A mode on `t` and its relative major share their notes: the mode's
      degree `i + 1` is the relative major's degree `i + ModeIndex(m) + 1`,
      counted round the scale. */
  lemma RelativeMajorSharesPitch(t: PitchClass, m: Mode, i: nat)
    requires i < 7
    ensures (t + Intervals(m)[i]) % 12 == (RelativeTonic(t, m) + Intervals(Ionian)[(i + ModeIndex(m)) % 7]) % 12
  {
    ModeIsRotation(m, i);
    var a := t + RelativeOffset(m) + 12;
    var d := Intervals(m)[i] - RelativeOffset(m);
    SumMod(t + Intervals(m)[i], a, d, RelativeTonic(t, m), Intervals(Ionian)[(i + ModeIndex(m)) % 7]);
  }

  /** ... and their seventh chords: the mode's chord on degree `i + 1` is the
      relative major's chord on degree `i + ModeIndex(m) + 1`. */
  lemma RelativeMajorSharesChord(t: PitchClass, m: Mode, i: nat)
    requires i < 7
    ensures GetDiatonic7thChord(i + 1, t, m) == GetDiatonic7thChord((i + ModeIndex(m)) % 7 + 1, RelativeTonic(t, m), Ionian)
  {
    var j := (i + ModeIndex(m)) % 7;
    assert Qualities(m)[i] == Qualities(Ionian)[j] by {
      QualitiesRotate(m, i);
    }
    assert GetNoteFromIndex(t + Intervals(m)[i]) == GetNoteFromIndex(RelativeTonic(t, m) + Intervals(Ionian)[j]) by {
      RelativeMajorSharesPitch(t, m, i);
    }
  }

  /** Two numbers that add up to `x + 12` have residues modulo 12 that add
      up to `x`'s. */
  lemma SumMod(x: int, a: int, d: int, r: int, j: int)
    requires r == a % 12 && j == d % 12 && a + d == x + 12
    ensures x % 12 == (r + j) % 12
  {
  }

  /** `borrowed_chords`: the Ionian seventh chord on each degree of the
      relative major. */
  function Borrowed(degrees: seq<nat>, rel: PitchClass): (r: seq<string>)
    requires forall i :: 0 <= i < |degrees| ==> 1 <= degrees[i] <= 7
    ensures |r| == |degrees|
  {
    seq(|degrees|, i requires 0 <= i < |degrees| => GetDiatonic7thChord(degrees[i], rel, Ionian))
  }

  /** The rebuild loop: a chord on the tonic stays, every other position
      takes the next borrowed chord; None where a root cannot be read or the
      borrowed chords run out. */
  function Rebuild(root: string -> Option<PitchClass>, base: seq<string>, t: PitchClass, borrowed: seq<string>)
    : (r: Option<seq<string>>)
    ensures r.Some? ==> |r.value| == |base|
    decreases |base|
  {
    if |base| == 0 then Some([])
    else
      var last := base[|base| - 1];
      match Rebuild(root, base[..|base| - 1], t, borrowed)
      case None => None
      case Some(prefix) =>
        match root(last)
        case None => None
        case Some(k) =>
          if k == t then Some(prefix + [last])
          else
            var used := |OffTonic(root, base[..|base| - 1], t)|;
            if used < |borrowed| then Some(prefix + [borrowed[used]]) else None
  }

  /** The row of a mode other than the detected one; None where its rebuild
      raises. */
  function ModeRow(root: string -> Option<PitchClass>, base: seq<string>, t: PitchClass, degrees: seq<nat>, mode: Mode)
    : Option<Row>
    requires forall i :: 0 <= i < |degrees| ==> 1 <= degrees[i] <= 7
  {
    var rel := RelativeTonic(t, mode);
    var borrowed := Borrowed(degrees, rel);
    match Rebuild(root, base, t, borrowed)
    case None => None
    case Some(chords) =>
      Some(Row(ModeName(mode), GetNoteFromIndex(rel) + " Major", FormatChordsForTable(borrowed),
               FormatChordString(Join(chords, " - "))))
  }

  /** The row of each mode for one progression and one list of degrees. */
  function RowMaker(root: string -> Option<PitchClass>, base: seq<string>, t: PitchClass, degrees: seq<nat>)
    : Mode -> Option<Row>
    requires forall i :: 0 <= i < |degrees| ==> 1 <= degrees[i] <= 7
  {
    mode => ModeRow(root, base, t, degrees, mode)
  }

  /** The rows of the first `k` modes in table order, skipping the detected
      mode `m`; None where a row raises. */
  function RowsBefore(rowOf: Mode -> Option<Row>, m: Mode, k: nat): Option<seq<Row>>
    requires k <= |ModeOrder|
    decreases k
  {
    if k == 0 then Some([])
    else
      match RowsBefore(rowOf, m, k - 1)
      case None => None
      case Some(rows) =>
        if ModeOrder[k - 1] == m then Some(rows)
        else
          match rowOf(ModeOrder[k - 1])
          case None => None
          case Some(row) => Some(rows + [row])
  }

  function Headers(numerals: seq<string>): seq<string>
  {
    ["Mode", "Borrowed (Relative)", "Degrees (" + Join(numerals, " ") + ")", "Substitution"]
  }

  /** The first row: the detected mode, its relative major, the chords to
      substitute and the progression itself. */
  function OriginalRow(base: seq<string>, t: PitchClass, m: Mode, subs: seq<string>): Row
  {
    Row(ModeName(m) + " (Original)", GetNoteFromIndex(RelativeTonic(t, m)) + " Major",
        FormatChordsForTable(subs), FormatChordsForTable(base))
  }

  /** The table for a detected pair (t, m) and a list of chords to
      substitute. */
  function TableFor(base: seq<string>, t: PitchClass, m: Mode, subs: seq<string>): TableOutcome
  {
    match Numerals(subs, t, m)
    case None => Raised
    case Some(numerals) =>
      match RowsBefore(RowMaker(GetNoteIndex, base, t, Resolved(DegreeOfNumeral, numerals)), m, |ModeOrder|)
      case None => Raised
      case Some(rows) => Built(Table(Headers(numerals), [OriginalRow(base, t, m, subs)] + rows))
  }

  /** create_substitution_table(base, hint), with the chords to substitute
      chosen as the rebuild loop consumes them. */
  function SubstitutionTable(base: seq<string>, hint: Option<string>): TableOutcome
  {
    if HintGiven(hint) && hint.value !in base && |base| == 0 then Raised
    else if |base| < 2 then TooShort
    else
      match Detect(base, KeptHint(base, hint))
      case Detected(t, m) => TableFor(base, t, m, ChordsToSubstitute(GetNoteIndex, base, t))
      case _ => Raised
  }

  /** create_substitution_table(base, hint) as written: the chords to
      substitute are the ones whose text differs from the tonic chord. */
  function SubstitutionTableAsWritten(base: seq<string>, hint: Option<string>): TableOutcome
  {
    if HintGiven(hint) && hint.value !in base && |base| == 0 then Raised
    else if |base| < 2 then TooShort
    else
      match Detect(base, KeptHint(base, hint))
      case Detected(t, m) =>
        (match TonicChord(GetNoteIndex, base, t)
         case None => Raised
         case Some(tonicChord) => TableFor(base, t, m, ChordsToSubstituteAsWritten(base, tonicChord)))
      case _ => Raised
  }

  // ---------------------------------------------------------------------
  // The loops of create_substitution_table

  /** The loop that turns numerals into degrees, dropping the ones that do
      not resolve. */
  method BorrowDegrees(numerals: seq<string>) returns (degrees: seq<nat>)
    ensures degrees == Resolved(DegreeOfNumeral, numerals)
  {
    degrees := [];
    for i := 0 to |numerals|
      invariant degrees == Resolved(DegreeOfNumeral, numerals[..i])
    {
      assert numerals[..i + 1][..i] == numerals[..i];
      var d := DegreeOfNumeral(numerals[i]);
      if d.Some? {
        degrees := degrees + [d.value];
      }
    }
    assert numerals[..|numerals|] == numerals;
  }

  /** The loop that rebuilds the progression with a cursor into the
      borrowed chords. */
  method RebuildProgression(root: string -> Option<PitchClass>, base: seq<string>, t: PitchClass, borrowed: seq<string>)
    returns (rebuilt: Option<seq<string>>)
    ensures rebuilt == Rebuild(root, base, t, borrowed)
  {
    var chords: seq<string> := [];
    var cursor := 0;
    for i := 0 to |base|
      invariant Rebuild(root, base[..i], t, borrowed) == Some(chords)
      invariant cursor == |OffTonic(root, base[..i], t)|
    {
      assert base[..i + 1][..i] == base[..i];
      var k := root(base[i]);
      if k.None? {
        RebuildBroken(root, base, t, borrowed, i + 1);
        return None;
      }
      if k.value == t {
        chords := chords + [base[i]];
      } else {
        if cursor >= |borrowed| {
          RebuildBroken(root, base, t, borrowed, i + 1);
          return None;
        }
        chords := chords + [borrowed[cursor]];
        cursor := cursor + 1;
      }
    }
    assert base[..|base|] == base;
    return Some(chords);
  }

  /** Once the rebuild of a prefix raises, so does the rebuild of the whole. */
  lemma {:induction false} RebuildBroken(root: string -> Option<PitchClass>, base: seq<string>, t: PitchClass,
                                         borrowed: seq<string>, k: nat)
    requires k <= |base| && Rebuild(root, base[..k], t, borrowed).None?
    ensures Rebuild(root, base, t, borrowed).None?
    decreases |base| - k
  {
    if k < |base| {
      assert base[..k + 1][..k] == base[..k];
      RebuildBroken(root, base, t, borrowed, k + 1);
    } else {
      assert base[..k] == base;
    }
  }

  /** The loop over the modes in table order, skipping the detected one. */
  method BuildRows(root: string -> Option<PitchClass>, base: seq<string>, t: PitchClass, m: Mode, degrees: seq<nat>)
    returns (rows: Option<seq<Row>>)
    requires forall i :: 0 <= i < |degrees| ==> 1 <= degrees[i] <= 7
    ensures rows == RowsBefore(RowMaker(root, base, t, degrees), m, |ModeOrder|)
    ensures rows.Some? ==> |rows.value| == 6
    ensures rows.Some? ==> forall j :: 0 <= j < 6 ==>
              rows.value[j].mode == ModeName(ModeOrder[if j < ModeIndex(m) then j else j + 1])
  {
    rows := Some([]);
    for k := 0 to |ModeOrder|
      invariant rows == RowsBefore(RowMaker(root, base, t, degrees), m, k)
    {
      var mode := ModeOrder[k];
      if rows.Some? && mode != m {
        var row := MakeRow(root, base, t, degrees, mode);
        rows := if row.None? then None else Some(rows.value + [row.value]);
      }
    }
    if rows.Some? {
      ModeRowsNamed(root, base, t, degrees);
      RowsInTableOrder(RowMaker(root, base, t, degrees), m, |ModeOrder|);
    }
  }

  /** Every row a mode yields names that mode. */
  lemma ModeRowsNamed(root: string -> Option<PitchClass>, base: seq<string>, t: PitchClass, degrees: seq<nat>)
    requires forall i :: 0 <= i < |degrees| ==> 1 <= degrees[i] <= 7
    ensures forall mode :: RowMaker(root, base, t, degrees)(mode).Some? ==>
              RowMaker(root, base, t, degrees)(mode).value.mode == ModeName(mode)
  {
  }

  /** The rows of the first `k` modes: one per mode other than `m`, in
      table order, each naming its mode. */
  lemma {:induction false} RowsInTableOrder(rowOf: Mode -> Option<Row>, m: Mode, k: nat)
    requires k <= |ModeOrder|
    requires forall mode :: rowOf(mode).Some? ==> rowOf(mode).value.mode == ModeName(mode)
    requires RowsBefore(rowOf, m, k).Some?
    ensures |RowsBefore(rowOf, m, k).value| == if ModeIndex(m) < k then k - 1 else k
    ensures forall j :: 0 <= j < |RowsBefore(rowOf, m, k).value| ==>
              RowsBefore(rowOf, m, k).value[j].mode == ModeName(ModeOrder[if j < ModeIndex(m) then j else j + 1])
    decreases k
  {
    if k > 0 {
      RowsInTableOrder(rowOf, m, k - 1);
      ModeIndexOfOrder(k - 1);
      var mode := ModeOrder[k - 1];
      var prev := RowsBefore(rowOf, m, k - 1).value;
      var rows := RowsBefore(rowOf, m, k).value;
      if mode == m {
        assert rows == prev;
      } else {
        assert rows == prev + [rowOf(mode).value];
        assert |prev| == k - 1 <==> ModeIndex(m) >= k;
      }
    }
  }

  /** A row exists for a mode exactly when the rebuild of the progression
      can be completed, which does not depend on the mode. */
  lemma ModeRowSucceeds(root: string -> Option<PitchClass>, base: seq<string>, t: PitchClass, degrees: seq<nat>,
                        mode: Mode)
    requires forall i :: 0 <= i < |degrees| ==> 1 <= degrees[i] <= 7
    ensures ModeRow(root, base, t, degrees, mode).Some? <==>
            (forall i :: 0 <= i < |base| ==> root(base[i]).Some?) && |OffTonic(root, base, t)| <= |degrees|
  {
    RebuildSucceeds(root, base, t, Borrowed(degrees, RelativeTonic(t, mode)));
  }

  /** When every mode yields a row or none does, the rows of the first `k`
      modes exist exactly when they all do or no mode other than `m` has
      been reached. */
  lemma {:induction false} RowsSucceed(rowOf: Mode -> Option<Row>, m: Mode, ok: bool, k: nat)
    requires k <= |ModeOrder|
    requires forall mode :: rowOf(mode).Some? == ok
    ensures RowsBefore(rowOf, m, k).Some? <==> (k == 0 || (k == 1 && ModeOrder[0] == m) || ok)
    decreases k
  {
    if k > 0 {
      RowsSucceed(rowOf, m, ok, k - 1);
      if ModeOrder[k - 1] == m && k >= 2 {
        ModeIndexOfOrder(k - 1);
        ModeIndexOfOrder(k - 2);
        assert ModeOrder[k - 2] != m;
      }
    }
  }

  /** The table raises exactly when a chord to substitute has no numeral,
      or when the progression cannot be rebuilt from the borrowed chords;
      otherwise it is built. */
  lemma TableRaises(base: seq<string>, t: PitchClass, m: Mode, subs: seq<string>)
    ensures !TableFor(base, t, m, subs).TooShort?
    ensures TableFor(base, t, m, subs).Raised? <==>
            (Numerals(subs, t, m).None?
             || !(forall i :: 0 <= i < |base| ==> GetNoteIndex(base[i]).Some?)
             || |OffTonic(GetNoteIndex, base, t)| > |Resolved(DegreeOfNumeral, Numerals(subs, t, m).value)|)
  {
    var numerals := Numerals(subs, t, m);
    if numerals.Some? {
      RowsBuilt(base, t, m, Resolved(DegreeOfNumeral, numerals.value));
    }
  }

  /** The six mode rows are built exactly when every chord has a root and
      there are enough borrowed degrees for the off-tonic chords. */
  lemma RowsBuilt(base: seq<string>, t: PitchClass, m: Mode, degrees: seq<nat>)
    requires forall i :: 0 <= i < |degrees| ==> 1 <= degrees[i] <= 7
    ensures RowsBefore(RowMaker(GetNoteIndex, base, t, degrees), m, |ModeOrder|).Some? <==>
            (forall i :: 0 <= i < |base| ==> GetNoteIndex(base[i]).Some?) && |OffTonic(GetNoteIndex, base, t)| <= |degrees|
  {
    var rowOf := RowMaker(GetNoteIndex, base, t, degrees);
    var ok := (forall i :: 0 <= i < |base| ==> GetNoteIndex(base[i]).Some?) && |OffTonic(GetNoteIndex, base, t)| <= |degrees|;
    forall mode: Mode
      ensures rowOf(mode).Some? == ok
    {
      ModeRowSucceeds(GetNoteIndex, base, t, degrees, mode);
    }
    RowsSucceed(rowOf, m, ok, |ModeOrder|);
  }

  /** A built table has seven rows: the detected mode first, then the six
      other modes in table order. */
  lemma TableRows(base: seq<string>, t: PitchClass, m: Mode, subs: seq<string>)
    ensures TableFor(base, t, m, subs).Built? ==>
              var rows := TableFor(base, t, m, subs).table.rows;
              |rows| == 7 && rows[0] == OriginalRow(base, t, m, subs) &&
              forall j :: 1 <= j < 7 ==> rows[j].mode == ModeName(ModeOrder[if j <= ModeIndex(m) then j - 1 else j])
  {
    var numerals := Numerals(subs, t, m);
    if numerals.Some? {
      var degrees := Resolved(DegreeOfNumeral, numerals.value);
      var rowOf := RowMaker(GetNoteIndex, base, t, degrees);
      var rows := RowsBefore(rowOf, m, |ModeOrder|);
      if rows.Some? {
        ModeRowsNamed(GetNoteIndex, base, t, degrees);
        RowsInTableOrder(rowOf, m, |ModeOrder|);
        var table := [OriginalRow(base, t, m, subs)] + rows.value;
        assert TableFor(base, t, m, subs).table.rows == table;
        forall j | 1 <= j < 7
          ensures table[j].mode == ModeName(ModeOrder[if j <= ModeIndex(m) then j - 1 else j])
        {
          assert table[j] == rows.value[j - 1];
        }
      }
    }
  }

  /** One pass of the mode loop: the borrowed chords and the rebuilt
      progression of one mode. */
  method MakeRow(root: string -> Option<PitchClass>, base: seq<string>, t: PitchClass, degrees: seq<nat>, mode: Mode)
    returns (row: Option<Row>)
    requires forall i :: 0 <= i < |degrees| ==> 1 <= degrees[i] <= 7
    ensures row == ModeRow(root, base, t, degrees, mode)
  {
    var rel := RelativeTonic(t, mode);
    var borrowed := Borrowed(degrees, rel);
    var chords := RebuildProgression(root, base, t, borrowed);
    if chords.None? {
      return None;
    }
    return Some(Row(ModeName(mode), GetNoteFromIndex(rel) + " Major", FormatChordsForTable(borrowed),
                    FormatChordString(Join(chords.value, " - "))));
  }

  /** create_substitution_table as written: the chords to substitute are
      the ones whose text differs from the tonic chord. */
  method CreateSubstitutionTable(base: seq<string>, hint: Option<string>) returns (outcome: TableOutcome)
    ensures outcome == SubstitutionTableAsWritten(base, hint)
  {
    var tonic := hint;
    if HintGiven(hint) && hint.value !in base {
      if |base| == 0 {
        return Raised;
      }
      tonic := None;
    }
    if |base| < 2 {
      return TooShort;
    }
    var detected := DetectIntelligentMode(base, tonic);
    if !detected.Detected? {
      return Raised;
    }
    var t, m := detected.tonic, detected.mode;
    var tonicChord := TonicChord(GetNoteIndex, base, t);
    if tonicChord.None? {
      return Raised;
    }
    var subs := ChordsToSubstituteAsWritten(base, tonicChord.value);
    var numerals := Numerals(subs, t, m);
    if numerals.None? {
      return Raised;
    }
    var degrees := BorrowDegrees(numerals.value);
    var rows := BuildRows(GetNoteIndex, base, t, m, degrees);
    if rows.None? {
      return Raised;
    }
    return Built(Table(Headers(numerals.value), [OriginalRow(base, t, m, subs)] + rows.value));
  }

  // ---------------------------------------------------------------------
  // The rebuild

  /** Filtering out the tonic chords distributes over concatenation. */
  lemma {:induction false} OffTonicAppend(root: string -> Option<PitchClass>, a: seq<string>, b: seq<string>, t: PitchClass)
    ensures OffTonic(root, a + b, t) == OffTonic(root, a, t) + OffTonic(root, b, t)
    decreases |b|
  {
    if |b| == 0 {
      assert a + b == a;
    } else {
      var n := |b| - 1;
      assert (a + b)[..|a + b| - 1] == a + b[..n];
      assert (a + b)[|a + b| - 1] == b[n];
      OffTonicAppend(root, a, b[..n], t);
    }
  }

  /** A chord off the tonic sits in the list of such chords at the number of
      them before it. */
  lemma OffTonicAt(root: string -> Option<PitchClass>, base: seq<string>, t: PitchClass, i: nat)
    requires i < |base| && root(base[i]) != Some(t)
    ensures |OffTonic(root, base[..i], t)| < |OffTonic(root, base, t)|
    ensures OffTonic(root, base, t)[|OffTonic(root, base[..i], t)|] == base[i]
  {
    assert base[..i + 1][..i] == base[..i];
    assert OffTonic(root, base[..i + 1], t) == OffTonic(root, base[..i], t) + [base[i]];
    assert base == base[..i + 1] + base[i + 1..];
    OffTonicAppend(root, base[..i + 1], base[i + 1..], t);
  }

  /** What the rebuild puts at each position: the chord itself when its root
      is the tonic, otherwise the borrowed chord numbered by the chords off
      the tonic before it. */
  lemma {:induction false} RebuildPositions(root: string -> Option<PitchClass>, base: seq<string>, t: PitchClass,
                                            borrowed: seq<string>, i: nat)
    requires Rebuild(root, base, t, borrowed).Some? && i < |base|
    ensures root(base[i]).Some?
    ensures root(base[i]) == Some(t) ==> Rebuild(root, base, t, borrowed).value[i] == base[i]
    ensures root(base[i]) != Some(t) ==>
              && |OffTonic(root, base[..i], t)| < |borrowed|
              && Rebuild(root, base, t, borrowed).value[i] == borrowed[|OffTonic(root, base[..i], t)|]
    decreases |base|
  {
    var n := |base| - 1;
    if i < n {
      assert base[..n][..i] == base[..i] && base[..n][i] == base[i];
      RebuildPositions(root, base[..n], t, borrowed, i);
    }
  }

  /** The rebuild raises exactly when a root cannot be read or there are
      more chords off the tonic than borrowed chords. */
  lemma {:induction false} RebuildSucceeds(root: string -> Option<PitchClass>, base: seq<string>, t: PitchClass,
                                           borrowed: seq<string>)
    ensures Rebuild(root, base, t, borrowed).Some? <==>
            (forall i :: 0 <= i < |base| ==> root(base[i]).Some?) && |OffTonic(root, base, t)| <= |borrowed|
    decreases |base|
  {
    if |base| > 0 {
      var n := |base| - 1;
      var prefix := base[..n];
      RebuildSucceeds(root, prefix, t, borrowed);
      assert forall i :: 0 <= i < n ==> prefix[i] == base[i];
      assert (forall i :: 0 <= i < |base| ==> root(base[i]).Some?) <==>
             (forall i :: 0 <= i < n ==> root(prefix[i]).Some?) && root(base[n]).Some?;
      var before := |OffTonic(root, prefix, t)|;
      assert |OffTonic(root, base, t)| == if root(base[n]) == Some(t) then before else before + 1;
      var whole := Rebuild(root, base, t, borrowed);
      if Rebuild(root, prefix, t, borrowed).None? {
        assert whole.None?;
      } else if root(base[n]).None? {
        assert whole.None?;
      } else if root(base[n]) == Some(t) {
        assert whole.Some?;
      } else {
        assert whole.Some? <==> before < |borrowed|;
      }
    }
  }

  // ---------------------------------------------------------------------
  // Numerals and degrees

  /** Every numeral of ROMAN_DEGREES is written with I and V only. */
  lemma RomanLetters(d: nat)
    requires d < 7
    ensures forall k :: 0 <= k < |RomanDegrees[d]| ==> RomanDegrees[d][k] == 'I' || RomanDegrees[d][k] == 'V'
  {
  }

  /** Upper-casing undoes lower-casing on upper-case letters. */
  lemma UpperOfLower(s: string)
    requires forall k :: 0 <= k < |s| ==> 'A' <= s[k] <= 'Z'
    ensures Upper(Lower(s)) == s
  {
    forall k | 0 <= k < |s| ensures Upper(Lower(s))[k] == s[k] {
      assert Lower(s)[k] == (s[k] as int + 32) as char;
    }
  }

  /** ROMAN_DEGREES.index finds each numeral at its own degree. */
  lemma RomanIndex(d: nat)
    requires d < 7
    ensures FirstIndex(RomanDegrees, RomanDegrees[d]) == Some(d)
  {
    forall j | 0 <= j < d ensures RomanDegrees[j] != RomanDegrees[d] {
      assert |RomanDegrees[j]| != |RomanDegrees[d]| || RomanDegrees[j][0] != RomanDegrees[d][0]
          || RomanDegrees[j][|RomanDegrees[j]| - 1] != RomanDegrees[d][|RomanDegrees[d]| - 1];
    }
  }

  /** No marker starts with I or V, so stripping leaves a numeral in front
      of the text untouched. */
  lemma StripAfterRoman(r: string, u: string)
    requires forall k :: 0 <= k < |r| ==> r[k] == 'I' || r[k] == 'V'
    ensures StripMarkers(r + u) == r + StripMarkers(u)
  {
    RemoveAllAfterPrefix(r, u, "MAJ7");
    var u1 := RemoveAll(u, "MAJ7");
    RemoveAllAfterPrefix(r, u1, "M7");
    var u2 := RemoveAll(u1, "M7");
    RemoveAllAfterPrefix(r, u2, "Ø7");
    var u3 := RemoveAll(u2, "Ø7");
    RemoveAllAfterPrefix(r, u3, "°7");
    var u4 := RemoveAll(u3, "°7");
    RemoveAllAfterPrefix(r, u4, "7");
  }

  /** Each suffix get_roman_numeral writes is stripped away entirely. */
  lemma SuffixStripped(q: Quality)
    ensures StripMarkers(Upper(NumeralSuffix(q))) == ""
  {
    match q
    case Major7 => StripsMajorSeventh();
    case Minor7 => StripsMinorSeventh();
    case Dominant7 =>
      assert Upper("7") == "7";
      assert RemoveAll("7", "7") == "";
    case HalfDiminished7 => StripsHalfDiminished();
    case Diminished7 => StripsDiminished();
    case _ =>
      assert Upper("") == "";
  }

  lemma StripsMajorSeventh()
    ensures StripMarkers(Upper("maj7")) == ""
  {
    assert Upper("maj7") == "MAJ7";
    assert RemoveAll("MAJ7", "MAJ7") == "";
  }

  lemma StripsMinorSeventh()
    ensures StripMarkers(Upper("m7")) == ""
  {
    assert Upper("m7") == "M7";
    assert RemoveAll("M7", "MAJ7") == "M7";
    assert RemoveAll("M7", "M7") == "";
  }

  lemma StripsHalfDiminished()
    ensures StripMarkers(Upper("ø7")) == ""
  {
    assert Upper("ø7") == "Ø7";
    assert RemoveAll("Ø7", "MAJ7") == "Ø7";
    assert RemoveAll("Ø7", "M7") == "Ø7";
    assert RemoveAll("Ø7", "Ø7") == "";
  }

  lemma StripsDiminished()
    ensures StripMarkers(Upper("°7")) == ""
  {
    assert Upper("°7") == "°7";
    assert RemoveAll("°7", "MAJ7") == "°7";
    assert RemoveAll("°7", "M7") == "°7";
    assert RemoveAll("°7", "Ø7") == "°7";
    assert RemoveAll("°7", "°7") == "";
  }

  /** Stripping never removes an opening parenthesis. */
  lemma StripKeepsParenthesis(u: string)
    ensures StripMarkers("(" + u) == "(" + StripMarkers(u)
  {
    StripAfterParenthesis(u, "MAJ7");
    var u1 := RemoveAll(u, "MAJ7");
    StripAfterParenthesis(u1, "M7");
    var u2 := RemoveAll(u1, "M7");
    StripAfterParenthesis(u2, "Ø7");
    var u3 := RemoveAll(u2, "Ø7");
    StripAfterParenthesis(u3, "°7");
    var u4 := RemoveAll(u3, "°7");
    StripAfterParenthesis(u4, "7");
  }

  lemma StripAfterParenthesis(u: string, pat: string)
    requires |pat| > 0 && pat[0] != '('
    ensures RemoveAll("(" + u, pat) == "(" + RemoveAll(u, pat)
  {
    RemoveAllAfterPrefix("(", u, pat);
  }

  /** A numeral written for degree `d + 1`, in either case and with any
      suffix, resolves to that degree. */
  lemma WrittenNumeralDegree(d: nat, lower: bool, q: Quality)
    requires d < 7
    ensures DegreeOfNumeral((if lower then Lower(RomanDegrees[d]) else RomanDegrees[d]) + NumeralSuffix(q)) == Some(d + 1)
  {
    WrittenNumeralCleans(d, lower, q);
    RomanIndex(d);
  }

  /** Cleaning a written numeral leaves its upper-case Roman numeral. */
  lemma WrittenNumeralCleans(d: nat, lower: bool, q: Quality)
    requires d < 7
    ensures CleanNumeral((if lower then Lower(RomanDegrees[d]) else RomanDegrees[d]) + NumeralSuffix(q)) == RomanDegrees[d]
  {
    var r := RomanDegrees[d];
    var written := if lower then Lower(r) else r;
    RomanLetters(d);
    UpperOfLower(r);
    assert Upper(written) == r;
    UpperAppend(written, NumeralSuffix(q));
    StripAfterRoman(r, Upper(NumeralSuffix(q)));
    SuffixStripped(q);
  }

  /** A parenthesised chord name resolves to no degree. */
  lemma ParenthesisedNoDegree(name: string)
    ensures DegreeOfNumeral("(" + name + ")") == None
  {
    var numeral := "(" + name + ")";
    assert numeral == "(" + (name + ")");
    UpperAppend("(", name + ")");
    assert Upper("(") == "(";
    StripKeepsParenthesis(Upper(name + ")"));
    assert CleanNumeral(numeral)[0] == '(';
    DegreeOfNumeralMeaning(numeral);
  }

  /** The degree extraction inverts get_roman_numeral: the numeral of a
      chord whose interval is in the mode resolves to that degree (1..7),
      and the parenthesised name of any other chord resolves to none. */
  lemma NumeralDegree(name: string, ch: Chord, t: PitchClass, m: Mode)
    ensures DegreeOfNumeral(NumeralOf(name, ch, t, Intervals(m), Qualities(m))) ==
            match FirstIndex(Intervals(m), (ch.root - t + 12) % 12)
            case Some(d) => Some(d + 1)
            case None => None
  {
    NumeralDegreeIn(name, ch, t, Intervals(m), Qualities(m));
  }

  lemma NumeralDegreeIn(name: string, ch: Chord, t: PitchClass, intervals: seq<int>, qualities: seq<Quality>)
    requires |intervals| <= |qualities| <= |RomanDegrees|
    ensures DegreeOfNumeral(NumeralOf(name, ch, t, intervals, qualities)) ==
            match FirstIndex(intervals, (ch.root - t + 12) % 12)
            case Some(d) => Some(d + 1)
            case None => None
  {
    match FirstIndex(intervals, (ch.root - t + 12) % 12)
    case None =>
      NumeralOutsideMode(name, ch, t, intervals, qualities);
    case Some(d) =>
      NumeralInMode(name, ch, t, intervals, qualities, d);
  }

  lemma NumeralInMode(name: string, ch: Chord, t: PitchClass, intervals: seq<int>, qualities: seq<Quality>, d: nat)
    requires |intervals| <= |qualities| <= |RomanDegrees|
    requires FirstIndex(intervals, (ch.root - t + 12) % 12) == Some(d)
    ensures DegreeOfNumeral(NumeralOf(name, ch, t, intervals, qualities)) == Some(d + 1)
  {
    WrittenNumeralDegree(d, CoreQuality(qualities[d]) in {Minor, Diminished}, ch.quality);
  }

  lemma NumeralOutsideMode(name: string, ch: Chord, t: PitchClass, intervals: seq<int>, qualities: seq<Quality>)
    requires |intervals| <= |qualities| <= |RomanDegrees|
    requires FirstIndex(intervals, (ch.root - t + 12) % 12) == None
    ensures DegreeOfNumeral(NumeralOf(name, ch, t, intervals, qualities)) == None
  {
    ParenthesisedNoDegree(name);
  }

  /** When every numeral resolves, nothing is dropped and the degrees follow
      the numerals one for one. */
  lemma {:induction false} ResolvedAll(degree: string -> Option<nat>, numerals: seq<string>)
    requires forall c :: degree(c).Some? ==> 1 <= degree(c).value <= 7
    requires forall k :: 0 <= k < |numerals| ==> degree(numerals[k]).Some?
    ensures |Resolved(degree, numerals)| == |numerals|
    ensures forall k :: 0 <= k < |numerals| ==> Some(Resolved(degree, numerals)[k]) == degree(numerals[k])
    decreases |numerals|
  {
    if |numerals| > 0 {
      var n := |numerals| - 1;
      var prefix := numerals[..n];
      assert forall k :: 0 <= k < n ==> prefix[k] == numerals[k];
      ResolvedAll(degree, prefix);
    }
  }

  // ---------------------------------------------------------------------
  // Borrowed chords land on the chords they were drawn from

  /** With the chords to substitute read by root, every chord off the tonic
      is replaced by the relative major's seventh chord on that chord's own
      degree, once every numeral resolves. In the table `numeral` is
      get_roman_numeral at the detected tonic and mode (Numerals) and
      `degree` is DegreeOfNumeral; any extraction giving degrees 1..7 will do. */
  lemma SubstitutionAligned(root: string -> Option<PitchClass>, numeral: string -> Option<string>,
                            degree: string -> Option<nat>, base: seq<string>, t: PitchClass, rel: PitchClass,
                            numerals: seq<string>, i: nat)
    requires forall c :: degree(c).Some? ==> 1 <= degree(c).value <= 7
    requires |base| > 0
    requires MapAll(numeral, ChordsToSubstitute(root, base, t)) == Some(numerals)
    requires forall k :: 0 <= k < |numerals| ==> degree(numerals[k]).Some?
    requires Rebuild(root, base, t, Borrowed(Resolved(degree, numerals), rel)).Some?
    requires i < |base| && root(base[i]) != Some(t)
    ensures numeral(base[i]).Some? && degree(numeral(base[i]).value).Some?
    ensures Rebuild(root, base, t, Borrowed(Resolved(degree, numerals), rel)).value[i] ==
            GetDiatonic7thChord(degree(numeral(base[i]).value).value, rel, Ionian)
  {
    var borrowed := Borrowed(Resolved(degree, numerals), rel);
    var k := |OffTonic(root, base[..i], t)|;
    SubstitutedNumeral(root, numeral, base, t, numerals, i);
    RebuildPositions(root, base, t, borrowed, i);
    BorrowedOnDegree(degree, numerals, rel, k);
  }

  /** The chord at position `i`, off the tonic, is the one whose numeral
      comes at the number of chords off the tonic before it. */
  lemma SubstitutedNumeral(root: string -> Option<PitchClass>, numeral: string -> Option<string>, base: seq<string>,
                           t: PitchClass, numerals: seq<string>, i: nat)
    requires |base| > 0
    requires MapAll(numeral, ChordsToSubstitute(root, base, t)) == Some(numerals)
    requires i < |base| && root(base[i]) != Some(t)
    ensures |OffTonic(root, base[..i], t)| < |numerals|
    ensures numeral(base[i]) == Some(numerals[|OffTonic(root, base[..i], t)|])
  {
    var k := |OffTonic(root, base[..i], t)|;
    OffTonicAt(root, base, t, i);
    assert ChordsToSubstitute(root, base, t)[k] == base[i];
  }

  /** When every numeral resolves, the `k`-th borrowed chord is built on the
      degree of the `k`-th numeral. */
  lemma BorrowedOnDegree(degree: string -> Option<nat>, numerals: seq<string>, rel: PitchClass, k: nat)
    requires forall c :: degree(c).Some? ==> 1 <= degree(c).value <= 7
    requires forall j :: 0 <= j < |numerals| ==> degree(numerals[j]).Some?
    requires k < |numerals|
    ensures k < |Borrowed(Resolved(degree, numerals), rel)|
    ensures Borrowed(Resolved(degree, numerals), rel)[k] == GetDiatonic7thChord(degree(numerals[k]).value, rel, Ionian)
  {
    ResolvedAll(degree, numerals);
  }

  /** A chord that fits the mode has a numeral that names its degree,
      whatever name it was read from. */
  lemma FittingChordResolves(ch: Chord, t: PitchClass, m: Mode)
    requires Fits(ch, t, m)
    ensures forall name :: DegreeOfNumeral(NumeralOf(name, ch, t, Intervals(m), Qualities(m))).Some?
  {
    var d :| 0 <= d < 7 && Intervals(m)[d] == IntervalFrom(ch.root, t) && IsChordCompatible(ch.quality, Qualities(m)[d]);
    IntervalListed(Intervals(m), Qualities(m), ch, t, d);
  }

  /** get_roman_numeral of a name that parses is the numeral of its chord. */
  lemma NumeralOfParsed(name: string, ch: Chord, t: PitchClass, m: Mode)
    requires ParseChord(name) == Some(ch)
    ensures GetRomanNumeral(name, t, m) == Some(NumeralOf(name, ch, t, Intervals(m), Qualities(m)))
  {
  }

  lemma IntervalListed(intervals: seq<int>, qualities: seq<Quality>, ch: Chord, t: PitchClass, d: nat)
    requires |intervals| <= |qualities| <= |RomanDegrees|
    requires d < |intervals| && intervals[d] == (ch.root - t + 12) % 12
    ensures FirstIndex(intervals, (ch.root - t + 12) % 12).Some?
    ensures forall name :: DegreeOfNumeral(NumeralOf(name, ch, t, intervals, qualities)).Some?
  {
    forall name ensures DegreeOfNumeral(NumeralOf(name, ch, t, intervals, qualities)).Some? {
      NumeralInMode(name, ch, t, intervals, qualities, FirstIndex(intervals, (ch.root - t + 12) % 12).value);
    }
  }

  /** After a detection no degree is dropped: every chord to substitute
      has a numeral, and every numeral names a degree. */
  lemma NoDegreeDropped(base: seq<string>, hint: Option<string>, numerals: seq<string>)
    requires |base| > 0 && Detect(base, hint).Detected?
    requires Numerals(ChordsToSubstitute(GetNoteIndex, base, Detect(base, hint).tonic), Detect(base, hint).tonic,
                      Detect(base, hint).mode) == Some(numerals)
    ensures forall k :: 0 <= k < |numerals| ==> DegreeOfNumeral(numerals[k]).Some?
  {
    var t, m := Detect(base, hint).tonic, Detect(base, hint).mode;
    var subs := ChordsToSubstitute(GetNoteIndex, base, t);
    DetectedSurvives(base, hint);
    var chords := ParseAll(base).value;
    SurvivesIff(chords, t, m);
    forall k | 0 <= k < |numerals| ensures DegreeOfNumeral(numerals[k]).Some? {
      assert subs[k] in subs;
      var i :| 0 <= i < |base| && base[i] == subs[k];
      NumeralOfParsed(base[i], chords[i], t, m);
      FittingChordResolves(chords[i], t, m);
    }
  }
}

/** The chord progression calculator (chord-progression-calculator.ts): for each chord of a
    major or minor scale, the chords of the scale that may follow it, read from a fixed table
    indexed by scale degree. */
module ChordProgression {
  import opened Wrappers
  import opened Notes
  import opened Chords
  import opened ModeNames
  import MusicScaleBase
  import DiatonicScale

  /** The successors of each degree of a major scale (I, ii, iii, IV, V, vi, vii°). */
  const MAJOR_PROGRESSIONS: seq<seq<int>> := [
    [0, 1, 2, 3, 4, 5, 6],
    [0, 1, 4, 6],
    [0, 2, 3, 5],
    [0, 1, 3, 4, 6],
    [0, 4, 5],
    [0, 1, 2, 3, 4, 5],
    [0, 6]]

  /** The successors of each degree of a minor scale (i, ii°, III, iv, V, VI, vii°). */
  const MINOR_PROGRESSIONS: seq<seq<int>> := [
    [0, 1, 2, 3, 4, 5, 6],
    [0, 1, 4, 6],
    [0, 2, 3, 5, 6],
    [0, 3, 4, 6],
    [0, 4, 5],
    [0, 2, 3, 4, 5, 6],
    [0, 6]]

  /** A row of successors: it starts at the tonic, rises strictly within the seven degrees and
      lists its own degree. */
  predicate IsRow(row: seq<int>, degree: int)
  {
    |row| > 0 && row[0] == 0 &&
    (forall i, j :: 0 <= i < j < |row| ==> row[i] < row[j]) &&
    (forall i :: 0 <= i < |row| ==> 0 <= row[i] < 7) &&
    degree in row
  }

  /** A table of seven rows, row d being the successors of degree d. */
  predicate IsTable(t: seq<seq<int>>)
  {
    |t| == 7 && forall d :: 0 <= d < 7 ==> IsRow(t[d], d)
  }

  lemma MajorRow(d: int)
    requires 0 <= d < 7
    ensures IsRow(MAJOR_PROGRESSIONS[d], d)
  {
    var t := MAJOR_PROGRESSIONS;
    if d == 0 { assert t[0][0] == 0; }
    else if d == 1 { assert t[1][1] == 1; }
    else if d == 2 { assert t[2][1] == 2; }
    else if d == 3 { assert t[3][2] == 3; }
    else if d == 4 { assert t[4][1] == 4; }
    else if d == 5 { assert t[5][5] == 5; }
    else { assert t[6][1] == 6; }
  }

  lemma MinorRow(d: int)
    requires 0 <= d < 7
    ensures IsRow(MINOR_PROGRESSIONS[d], d)
  {
    var t := MINOR_PROGRESSIONS;
    if d == 0 { assert t[0][0] == 0; }
    else if d == 1 { assert t[1][1] == 1; }
    else if d == 2 { assert t[2][1] == 2; }
    else if d == 3 { assert t[3][1] == 3; }
    else if d == 4 { assert t[4][1] == 4; }
    else if d == 5 { assert t[5][4] == 5; }
    else { assert t[6][1] == 6; }
  }

  /** Both tables are well formed: every row starts at the tonic, rises strictly within 0..6 and
      contains its own degree, and the tonic may be followed by any degree. */
  lemma TablesWellFormed()
    ensures IsTable(MAJOR_PROGRESSIONS) && IsTable(MINOR_PROGRESSIONS)
    ensures MAJOR_PROGRESSIONS[0] == MINOR_PROGRESSIONS[0] == [0, 1, 2, 3, 4, 5, 6]
  {
    forall d | 0 <= d < 7
      ensures IsRow(MAJOR_PROGRESSIONS[d], d) && IsRow(MINOR_PROGRESSIONS[d], d)
    {
      MajorRow(d);
      MinorRow(d);
    }
  }

  /** The table the constructor takes, as written: the minor one exactly when the scale's mode
      alias is "minor". */
  function ProgressionsAsWritten(modeAlias: string): (r: seq<seq<int>>)
    ensures r == MINOR_PROGRESSIONS <==> modeAlias == "minor"
  {
    assert MINOR_PROGRESSIONS[2] != MAJOR_PROGRESSIONS[2] by {
      assert |MINOR_PROGRESSIONS[2]| == 5 && |MAJOR_PROGRESSIONS[2]| == 4;
    }
    if modeAlias == "minor" then MINOR_PROGRESSIONS else MAJOR_PROGRESSIONS
  }

  /** A diatonic scale made with the mode "minor", as parseScale("Am") makes it, has the alias
      "aeolian" and so is given the major table; only the raw mode "aeolian" selects the minor
      one. */
  lemma MinorModeGetsMajorTable(tonic: Note)
    ensures MusicScaleBase.NormalizedModeOf(MusicScaleBase.Diatonic, "minor") == "aeolian"
    ensures MusicScaleBase.ModeAliasOf(MusicScaleBase.Diatonic, "minor") == "aeolian"
    ensures ProgressionsAsWritten(MusicScaleBase.ModeAliasOf(MusicScaleBase.Diatonic, "minor")) == MAJOR_PROGRESSIONS
    ensures ProgressionsAsWritten(MusicScaleBase.ModeAliasOf(MusicScaleBase.Diatonic, "aeolian")) == MINOR_PROGRESSIONS
  {
  }

  /** The table of a scale by its normalised mode: the minor one for every aeolian scale,
      however its mode was written, the major one otherwise. */
  function Progressions(normalizedMode: string): (r: seq<seq<int>>)
    ensures IsTable(r)
    ensures r == MINOR_PROGRESSIONS <==> normalizedMode == "aeolian"
  {
    TablesWellFormed();
    assert MINOR_PROGRESSIONS[2] != MAJOR_PROGRESSIONS[2] by {
      assert |MINOR_PROGRESSIONS[2]| == 5 && |MAJOR_PROGRESSIONS[2]| == 4;
    }
    if normalizedMode == "aeolian" then MINOR_PROGRESSIONS else MAJOR_PROGRESSIONS
  }

  /** The modes "minor" and "aeolian" now get the same table, and so do "major" and "ionian". */
  lemma ProgressionsOfAliases()
    ensures Progressions(MusicScaleBase.NormalizedModeOf(MusicScaleBase.Diatonic, "minor")) == MINOR_PROGRESSIONS
    ensures Progressions(MusicScaleBase.NormalizedModeOf(MusicScaleBase.Diatonic, "aeolian")) == MINOR_PROGRESSIONS
    ensures Progressions(MusicScaleBase.NormalizedModeOf(MusicScaleBase.Diatonic, "major")) == MAJOR_PROGRESSIONS
    ensures Progressions(MusicScaleBase.NormalizedModeOf(MusicScaleBase.Diatonic, "ionian")) == MAJOR_PROGRESSIONS
  {
  }

  // ---------------------------------------------------------------------------------------
  // Lookups on the scale's chords

  /** The first place from `from` on holding the name, or -1. */
  function FirstName(names: seq<string>, name: string, from: nat): (r: int)
    requires from <= |names|
    ensures r == -1 <==> forall j :: from <= j < |names| ==> names[j] != name
    ensures r != -1 ==> from <= r < |names| && names[r] == name
    ensures r != -1 ==> forall j :: from <= j < r ==> names[j] != name
    decreases |names| - from
  {
    if from == |names| then -1
    else if names[from] == name then from
    else FirstName(names, name, from + 1)
  }

  /** `chords.findIndex(c => c.name === chord.name)` from `from` on. */
  function FindByName(chords: seq<Chord>, name: string, from: nat): (r: int)
    requires from <= |chords|
    ensures r == -1 <==> forall j :: from <= j < |chords| ==> Name(chords[j]) != name
    ensures r != -1 ==> from <= r < |chords| && Name(chords[r]) == name
    ensures r != -1 ==> forall j :: from <= j < r ==> Name(chords[j]) != name
  {
    var names := seq(|chords|, j requires 0 <= j < |chords| => Name(chords[j]));
    assert forall j :: 0 <= j < |chords| ==> names[j] == Name(chords[j]);
    FirstName(names, name, from)
  }

  /** `getChordNumber`: the first place of a chord of the same name, or -1. */
  function ChordNumberOf(chords: seq<Chord>, chord: Chord): int
  {
    FindByName(chords, Name(chord), 0)
  }

  /** When the chords' names are distinct, a chord of the scale is found at its own place, and
      only a chord of a name not in the scale gives -1. */
  lemma ChordNumberOfMember(chords: seq<Chord>, k: int, chord: Chord)
    requires forall i, j :: 0 <= i < j < |chords| ==> Name(chords[i]) != Name(chords[j])
    requires 0 <= k < |chords| && Name(chord) == Name(chords[k])
    ensures ChordNumberOf(chords, chord) == k
  {
  }

  /** `getNextChords`: the row of the chord's degree, or of the tonic for a chord not in the
      scale, read as chords. */
  function NextChordsOf(chords: seq<Chord>, table: seq<seq<int>>, chord: Chord): seq<Chord>
    requires |chords| == 7 && IsTable(table)
  {
    var n := ChordNumberOf(chords, chord);
    var row := table[if n < 0 then 0 else n];
    seq(|row|, i requires 0 <= i < |row| => chords[row[i]])
  }

  /** The suggestions always start with the tonic chord and, for a chord of the scale, include
      it; a chord outside the scale is followed by every chord of the scale, in order; otherwise
      each suggestion is the chord of a degree in the chord's row, in rising order. */
  lemma NextChordsShape(chords: seq<Chord>, table: seq<seq<int>>, chord: Chord)
    requires |chords| == 7 && IsTable(table)
    ensures var r := NextChordsOf(chords, table, chord);
      0 < |r| && r[0] == chords[0]
    ensures ChordNumberOf(chords, chord) >= 0 ==>
      chords[ChordNumberOf(chords, chord)] in NextChordsOf(chords, table, chord)
    ensures ChordNumberOf(chords, chord) >= 0 ==>
      NextChordsOf(chords, table, chord) ==
        seq(|table[ChordNumberOf(chords, chord)]|, i requires 0 <= i < |table[ChordNumberOf(chords, chord)]| =>
          chords[table[ChordNumberOf(chords, chord)][i]])
    ensures ChordNumberOf(chords, chord) < 0 && table[0] == [0, 1, 2, 3, 4, 5, 6] ==>
      NextChordsOf(chords, table, chord) == chords
  {
    var n := ChordNumberOf(chords, chord);
    var d := if n < 0 then 0 else n;
    assert IsRow(table[d], d);
    RowChordsStart(chords, table[d], d);
  }

  /** The chords a row reads start with the tonic chord and include the row's own degree's. */
  lemma RowChordsStart(chords: seq<Chord>, row: seq<int>, d: int)
    requires |chords| == 7 && 0 <= d < 7 && IsRow(row, d)
    ensures var r := seq(|row|, i requires 0 <= i < |row| => chords[row[i]]);
      0 < |r| && r[0] == chords[0] && chords[d] in r
  {
    var r := seq(|row|, i requires 0 <= i < |row| => chords[row[i]]);
    var k :| 0 <= k < |row| && row[k] == d;
    assert r[k] == chords[d];
  }

  /** With distinct chord names, the suggestions after chord k are the chords of row k. */
  lemma NextChordsAt(chords: seq<Chord>, table: seq<seq<int>>, k: int)
    requires |chords| == 7 && IsTable(table) && 0 <= k < 7
    requires forall i, j :: 0 <= i < j < 7 ==> Name(chords[i]) != Name(chords[j])
    ensures NextChordsOf(chords, table, chords[k]) ==
      seq(|table[k]|, i requires 0 <= i < |table[k]| => chords[table[k][i]])
  {
    ChordNumberOfMember(chords, k, chords[k]);
  }

  /** In a major scale whose chords have distinct names, as G major's G Am Bm C D Em F#dim, the
      second chord is followed by I ii V vii°. */
  lemma MajorSuggestionsAfterII(chords: seq<Chord>)
    requires |chords| == 7
    requires forall i, j :: 0 <= i < j < 7 ==> Name(chords[i]) != Name(chords[j])
    ensures IsTable(MAJOR_PROGRESSIONS) && NextChordsOf(chords, MAJOR_PROGRESSIONS, chords[1]) == [chords[0], chords[1], chords[4], chords[6]]
  {
    TablesWellFormed();
    NextChordsAt(chords, MAJOR_PROGRESSIONS, 1);
  }

  /** The fifth chord of a major scale is followed by I V vi. */
  lemma MajorSuggestionsAfterV(chords: seq<Chord>)
    requires |chords| == 7
    requires forall i, j :: 0 <= i < j < 7 ==> Name(chords[i]) != Name(chords[j])
    ensures IsTable(MAJOR_PROGRESSIONS) && NextChordsOf(chords, MAJOR_PROGRESSIONS, chords[4]) == [chords[0], chords[4], chords[5]]
  {
    TablesWellFormed();
    NextChordsAt(chords, MAJOR_PROGRESSIONS, 4);
  }

  /** The seventh chord of a major scale is followed by I vii°. */
  lemma MajorSuggestionsAfterVII(chords: seq<Chord>)
    requires |chords| == 7
    requires forall i, j :: 0 <= i < j < 7 ==> Name(chords[i]) != Name(chords[j])
    ensures IsTable(MAJOR_PROGRESSIONS) && NextChordsOf(chords, MAJOR_PROGRESSIONS, chords[6]) == [chords[0], chords[6]]
  {
    TablesWellFormed();
    NextChordsAt(chords, MAJOR_PROGRESSIONS, 6);
  }

  // ---------------------------------------------------------------------------------------
  // The calculator

  /** The scales the calculator accepts. */
  predicate Supported(scale: MusicScaleBase.MusicScale)
    reads scale
  {
    scale.normalizedMode == "ionian" || scale.normalizedMode == "aeolian"
  }

  /** A scale with a major or minor normalised mode is diatonic and has seven chords. */
  lemma SupportedScaleChords(family: MusicScaleBase.Family, tonic: Note, mode: string)
    requires MusicScaleBase.Admissible(family, mode)
    requires MusicScaleBase.NormalizedModeOf(family, mode) in {"ionian", "aeolian"}
    ensures family == MusicScaleBase.Diatonic
    ensures MusicScaleBase.ChordsOf(family, tonic, mode).Ok? && |MusicScaleBase.ChordsOf(family, tonic, mode).value| == 7
  {
    match family
    case Pentatonic => assert false;
    case Blues => assert false;
    case Diatonic =>
      ModeIndex(1);
      ModeIndex(5);
      assert DiatonicScale.NormalizedMode(mode) in MODE_NAMES;
      MusicScaleBase.DiatonicNotes(tonic, mode);
      MusicScaleBase.DiatonicChords(tonic, mode, 0);
  }

  /** The scale's seven chords. */
  function ScaleChords(scale: MusicScaleBase.MusicScale): (r: seq<Chord>)
    reads scale
    requires scale.Valid() && Supported(scale)
    ensures |r| == 7
  {
    SupportedScaleChords(scale.family, scale.tonic, scale.mode);
    MusicScaleBase.ChordsOf(scale.family, scale.tonic, scale.mode).value
  }

  /** A calculator over a major or minor scale and the table its mode selects. */
  class Calculator {
    const key: MusicScaleBase.MusicScale
    const progressions: seq<seq<int>>

    ghost predicate Valid()
      reads this, key
    {
      key.Valid() && Supported(key) && progressions == Progressions(key.normalizedMode)
    }

    constructor(key: MusicScaleBase.MusicScale)
      requires key.Valid() && Supported(key)
      ensures Valid() && this.key == key
    {
      this.key := key;
      progressions := Progressions(key.normalizedMode);
    }

    /** The scale's chords, read through its cache. */
    method KeyChords() returns (r: seq<Chord>)
      requires Valid()
      modifies key
      ensures Valid() && r == ScaleChords(key)
    {
      SupportedScaleChords(key.family, key.tonic, key.mode);
      var chords := key.Chords();
      r := chords.value;
    }

    /** `getChordAt(num)`: the chord at a place, none outside 0..6. */
    method ChordAt(num: int) returns (r: Option<Chord>)
      requires Valid()
      modifies key
      ensures Valid()
      ensures r.Some? <==> 0 <= num < 7
      ensures r.Some? ==> r.value == ScaleChords(key)[num]
    {
      var chords := KeyChords();
      r := if 0 <= num < |chords| then Some(chords[num]) else None;
    }

    /** `rootChord`: the chord on the tonic. */
    method RootChord() returns (r: Chord)
      requires Valid()
      modifies key
      ensures Valid() && r == ScaleChords(key)[0]
    {
      var c := ChordAt(0);
      r := c.value;
    }

    /** `getChordNumber(chord)`. */
    method ChordNumber(chord: Chord) returns (r: int)
      requires Valid()
      modifies key
      ensures Valid() && r == ChordNumberOf(ScaleChords(key), chord)
    {
      var chords := KeyChords();
      r := ChordNumberOf(chords, chord);
    }

    /** `getNextChords(chord)`: the chords of the chord's row, pushed in order. */
    method NextChords(chord: Chord) returns (r: seq<Chord>)
      requires Valid()
      modifies key
      ensures Valid() && r == NextChordsOf(ScaleChords(key), progressions, chord)
    {
      var num := ChordNumber(chord);
      if num < 0 {
        num := 0;
      }
      var chords := KeyChords();
      r := RowChords(chords, progressions[num]);
    }
  }

  /** The loop of `getNextChords`: the chord at each degree of a row, pushed in order. */
  method RowChords(chords: seq<Chord>, row: seq<int>) returns (r: seq<Chord>)
    requires forall i :: 0 <= i < |row| ==> 0 <= row[i] < |chords|
    ensures r == seq(|row|, i requires 0 <= i < |row| => chords[row[i]])
  {
    r := [];
    for i := 0 to |row|
      invariant |r| == i
      invariant forall j :: 0 <= j < i ==> r[j] == chords[row[j]]
    {
      r := r + [chords[row[i]]];
    }
  }

  /** `getChordProgressionCalculator(scale)`: only a major or minor scale is accepted. */
  method GetChordProgressionCalculator(scale: MusicScaleBase.MusicScale) returns (r: Result<Calculator>)
    requires scale.Valid()
    ensures r.Err? <==> !Supported(scale)
    ensures r.Err? ==> r.error == UnsupportedScale
    ensures r.Ok? ==> fresh(r.value) && r.value.Valid() && r.value.key == scale
  {
    if scale.normalizedMode != "ionian" && scale.normalizedMode != "aeolian" {
      return Err(UnsupportedScale);
    }
    var calculator := new Calculator(scale);
    r := Ok(calculator);
  }
}

/** The standard-tuning guitar (guitar/default-tuning.ts): the open notes E4 B3 G3 D3 A2 E2,
    the open and barre shapes, and the lookup service built from them. */
module DefaultTuning {
  import opened Wrappers
  import opened Notes
  import opened Chords
  import opened GuitarChords
  import opened GuitarLookup
  import Sorting

  /** The open strings, highest first. */
  const DEFAULT_OPEN_NOTES: seq<Note> := [
    Note(NoteName(E, Natural), 4), Note(NoteName(B, Natural), 3), Note(NoteName(G, Natural), 3),
    Note(NoteName(D, Natural), 3), Note(NoteName(A, Natural), 2), Note(NoteName(E, Natural), 2)]

  /** The open strings are the notes getNote gives for E4 B3 G3 D3 A2 E2, with pitch classes
      4 11 7 2 9 4 and MIDI numbers 64 59 55 50 45 40: a fourth between neighbouring strings
      except the major third between G and B. */
  lemma DefaultOpenNotes()
    ensures GetNoteByName("E", 4) == Ok(DEFAULT_OPEN_NOTES[0]) && GetNoteByName("B", 3) == Ok(DEFAULT_OPEN_NOTES[1])
    ensures GetNoteByName("G", 3) == Ok(DEFAULT_OPEN_NOTES[2]) && GetNoteByName("D", 3) == Ok(DEFAULT_OPEN_NOTES[3])
    ensures GetNoteByName("A", 2) == Ok(DEFAULT_OPEN_NOTES[4]) && GetNoteByName("E", 2) == Ok(DEFAULT_OPEN_NOTES[5])
    ensures seq(6, i requires 0 <= i < 6 => Number(DEFAULT_OPEN_NOTES[i].name)) == [4, 11, 7, 2, 9, 4]
    ensures seq(6, i requires 0 <= i < 6 => MidiNumber(DEFAULT_OPEN_NOTES[i])) == [64, 59, 55, 50, 45, 40]
  {
    ParseNoteNameIff("E", NoteName(E, Natural));
    ParseNoteNameIff("B", NoteName(B, Natural));
    ParseNoteNameIff("G", NoteName(G, Natural));
    ParseNoteNameIff("D", NoteName(D, Natural));
    ParseNoteNameIff("A", NoteName(A, Natural));
  }

  /** The barre table in the order for-in visits it: the roots in insertion order, and within
      a root the integer-like qualities "7" and "9" first, then the others in insertion order. */
  const BARRE_POSITIONS: seq<BarreRoot> := [
    BarreRoot("E", [
      ("7", [0, 2, 0, 1, 0, 0]),
      ("9", [0, 2, 0, 1, 0, 2]),
      ("M", [0, 2, 2, 1, 0, 0]),
      ("m", [0, 2, 2, 0, 0, 0]),
      ("M7", [0, 2, 1, 1, 0, 0]),
      ("m7", [0, 2, 0, 0, 0, 0]),
      ("m9", [0, 2, 0, 0, 0, 2])]),
    BarreRoot("A", [
      ("7", [-1, 0, 2, 0, 2, 0]),
      ("M", [-1, 0, 2, 2, 2, 0]),
      ("m", [-1, 0, 2, 2, 1, 0]),
      ("M6", [-1, 0, 2, 2, 2, 2]),
      ("M7", [-1, 0, 2, 1, 2, 0]),
      ("m7", [-1, 0, 2, 0, 1, 0]),
      ("M9", [-1, 0, 2, 1, 0, 0]),
      ("dim", [-1, 0, 1, 2, 1, -1])]),
    BarreRoot("C", [
      ("7", [-1, 3, 2, 3, 1, -1]),
      ("M", [-1, 3, 2, 0, 1, 0]),
      ("m", [-1, 3, 1, 0, 1, -1]),
      ("M7", [-1, 3, 2, 0, 0, 0]),
      ("m7", [-1, 3, 1, 3, 1, 3]),
      ("M9", [-1, 3, 0, 0, 0, 0]),
      ("m9", [-1, 2, 0, 2, 2, 2]),
      ("sus4", [-1, 3, 3, 0, 1, -1])]),
    BarreRoot("D", [
      ("M6", [-1, -1, 0, 2, 0, 2])])]

  /** The open chord shapes, one per chord. */
  const OPEN_CHORDS: Positions := map[
    "D" := [[-1, -1, 0, 2, 3, 2]],
    "G" := [[3, 2, 0, 0, 0, 3]],
    "Bm" := [[-1, -1, 0, 4, 3, 2]],
    "Dm" := [[-1, -1, 0, 2, 3, 1]],
    "Ebm" := [[-1, -1, 1, 3, 4, 2]],
    "C7" := [[-1, 3, 2, 3, 1, 0]],
    "B7" := [[-1, 2, 1, 2, 0, 2]],
    "D7" := [[-1, -1, 0, 2, 1, 2]],
    "DM7" := [[-1, -1, 0, 2, 2, 2]],
    "Dm7" := [[-1, -1, 0, 2, 1, 1]],
    "Eb7" := [[-1, -1, 1, 3, 2, 3]],
    "F#7" := [[-1, -1, 4, 3, 2, 0]],
    "F#m7" := [[-1, -1, 4, 3, 2, 1]],
    "G7" := [[3, 2, 0, 0, 0, 1]],
    "Asus4" := [[-1, 0, 0, 2, 3, 0]],
    "Dsus4" := [[-1, -1, 0, 2, 3, 3]]]

  /** Shapes with valid roots flatten to shapes with valid roots. */
  lemma {:induction false} FlattenRootsValid(barre: seq<BarreRoot>)
    requires forall i :: 0 <= i < |barre| ==> ParseNoteName(barre[i].root).Some?
    ensures RootsValid(Flatten(barre))
    decreases |barre|
  {
    if |barre| > 0 {
      FlattenRootsValid(barre[..|barre| - 1]);
    }
  }

  /** The default tables: 24 barre shapes, all on valid roots. */
  lemma DefaultTables()
    ensures RootsValid(Flatten(BARRE_POSITIONS))
    ensures |Flatten(BARRE_POSITIONS)| == 24
  {
    assert ParseNoteName("E").Some? && ParseNoteName("A").Some? && ParseNoteName("C").Some? && ParseNoteName("D").Some?;
    FlattenRootsValid(BARRE_POSITIONS);
    var b := BARRE_POSITIONS;
    assert b[..3][..2][..1][..0] == [];
    assert |Flatten(b[..1])| == 7;
    assert b[..2][..1] == b[..1];
    assert |Flatten(b[..2])| == 15;
    assert b[..3][..2] == b[..2];
    assert |Flatten(b[..3])| == 23;
    assert b[..4][..3] == b[..3] && b[..4] == b;
  }

  /** `buildGuitarChords()` on the default tables never throws: every open chord keeps its
      name and its shapes, and every list is in order of lowest fret. */
  method BuildDefaultChords() returns (r: Positions)
    ensures Built(OPEN_CHORDS, BARRE_POSITIONS) == Ok(r)
    ensures OPEN_CHORDS.Keys <= r.Keys
    ensures forall name :: name in OPEN_CHORDS ==> multiset(OPEN_CHORDS[name]) <= multiset(r[name])
    ensures forall name :: name in r ==> Sorting.SortedBy(r[name], MinFretKey)
  {
    DefaultTables();
    var built := BuildGuitarChords(OPEN_CHORDS, BARRE_POSITIONS);
    r := built.value;
    BuiltFacts(OPEN_CHORDS, BARRE_POSITIONS);
  }

  /** `getDefaultTuningGuitarLookup()`: the lookup over the built chords and the open strings. */
  method DefaultTuningGuitarLookup() returns (l: Lookup)
    ensures Built(OPEN_CHORDS, BARRE_POSITIONS) == Ok(l.positions)
    ensures l.openNotes == DEFAULT_OPEN_NOTES
  {
    var positions := BuildDefaultChords();
    l := Lookup(positions, DEFAULT_OPEN_NOTES);
  }

  /** getNote on the default strings: string s at fret f has pitch class open(s) + f, where the
      open pitch classes are 4 11 7 2 9 4; strings beyond the sixth throw. */
  lemma DefaultGetNote(positions: Positions, str: int, fret: int)
    ensures var l := Lookup(positions, DEFAULT_OPEN_NOTES);
      (0 <= str < 6 <==> GetNote(l, str, fret).Ok?) &&
      (0 <= str < 6 ==> Number(GetNote(l, str, fret).value.name) == ([4, 11, 7, 2, 9, 4][str] + fret) % 12)
  {
    DefaultOpenNotes();
    if 0 <= str < 6 {
      assert Number(DEFAULT_OPEN_NOTES[str].name) == [4, 11, 7, 2, 9, 4][str];
    }
  }

  /** The barre chords the three C major shapes come from: the C shape on fret 0, the A shape
      on fret 3 and the E shape on fret 8 all name "C". */
  lemma CMajorNames()
    ensures TransposedName(RootChord(NoteName(C, Natural), "M"), 0) == "C"
    ensures TransposedName(RootChord(NoteName(A, Natural), "M"), 3) == "C"
    ensures TransposedName(RootChord(NoteName(E, Natural), "M"), 8) == "C"
  {
    var c := NameText(STANDARD_NOTE_NAMES[0]);
    assert c == "C";
    TransposedNameIs(RootChord(NoteName(C, Natural), "M"), 0);
    assert (Number(NoteName(A, Natural)) + 3) % 12 == 0;
    TransposedNameIs(RootChord(NoteName(A, Natural), "M"), 3);
    assert (Number(NoteName(E, Natural)) + 8) % 12 == 0;
    TransposedNameIs(RootChord(NoteName(E, Natural), "M"), 8);
  }

  /** The three C major shapes, and sorting them in the order they are added (E, A, then C
      root) gives the order the tests expect. */
  lemma CMajorShapes()
    ensures Moved([-1, 3, 2, 0, 1, 0], 0) == [-1, 3, 2, 0, 1, 0]
    ensures Moved([-1, 0, 2, 2, 2, 0], 3) == [-1, 3, 5, 5, 5, 3]
    ensures Moved([0, 2, 2, 1, 0, 0], 8) == [8, 10, 10, 9, 8, 8]
    ensures Sorting.SortBy([[8, 10, 10, 9, 8, 8], [-1, 3, 5, 5, 5, 3], [-1, 3, 2, 0, 1, 0]], MinFretKey) ==
      [[-1, 3, 2, 0, 1, 0], [-1, 3, 5, 5, 5, 3], [8, 10, 10, 9, 8, 8]]
  {
    var t0, t3, t8 := [-1, 3, 2, 0, 1, 0], [-1, 3, 5, 5, 5, 3], [8, 10, 10, 9, 8, 8];
    MinFretOfIsLeast(t3);
    MinFretOfIsLeast(t8);
    assert MinFretKey(t0) == 0 && MinFretKey(t3) == 3 && MinFretKey(t8) == 8;
    var s := [t8, t3, t0];
    assert s[..1] == [t8] && s[..2] == [t8, t3];
    assert Sorting.SortBy([t8], MinFretKey) == [t8];
    assert Sorting.Insert([t8], t3, MinFretKey) == [t3, t8];
    assert Sorting.SortBy([t8, t3], MinFretKey) == [t3, t8];
    assert Sorting.Insert([t3], t0, MinFretKey) == [t0, t3];
    assert Sorting.Insert([t3, t8], t0, MinFretKey) == [t0, t3, t8];
  }

  /** The C minor shape moved up one fret is the C#m tab of the tests. */
  lemma CSharpMinorShape()
    ensures TransposedName(RootChord(NoteName(C, Natural), "m"), 1) == "C#m"
    ensures Moved([-1, 3, 1, 0, 1, -1], 1) == [-1, 4, 2, 1, 2, -1]
  {
    RootChordRaised(NoteName(C, Natural), "m", 1);
    assert (Number(NoteName(C, Natural)) + 1) % 12 == 1;
    assert STANDARD_NOTE_NAMES[1] == NoteName(C, Sharp);
    assert NameText(NoteName(C, Sharp)) + "m" == "C#m";
    MovedSix(-1, 3, 1, 0, 1, -1, 1);
  }

  /** A root-position chord on a fret is named by the raised root's standard spelling. */
  lemma RootChordRaised(name: NoteName, quality: string, fret: int)
    requires quality != ""
    ensures TransposedName(RootChord(name, quality), fret) ==
      NameText(STANDARD_NOTE_NAMES[(Number(name) + fret) % 12]) + (if quality == "M" then "" else quality)
  {
    var c := RootChord(name, quality);
    assert !IsInverted(c) by {
      assert EqualsIgnoreOctave(c.root, c.bass);
    }
    TransposedNameIs(c, fret);
    RaisedNameOf(c.root.name, name, c.quality, quality, fret, TransposedName(c, fret));
  }

  /** The name on a fret depends only on the root's spelling and the quality. */
  lemma RaisedNameOf(n1: NoteName, n2: NoteName, q1: string, q2: string, fret: int, t: string)
    requires n1 == n2 && q1 == q2
    requires t == NameText(STANDARD_NOTE_NAMES[(Number(n1) + fret) % 12]) + (if q1 == "M" then "" else q1)
    ensures t == NameText(STANDARD_NOTE_NAMES[(Number(n2) + fret) % 12]) + (if q2 == "M" then "" else q2)
  {
  }

  /** A six-string tab moved up raises each sounding fret and keeps each muted one. */
  lemma MovedSix(a: int, b: int, c: int, d: int, e: int, f: int, amount: int)
    ensures Moved([a, b, c, d, e, f], amount) ==
      [Raise(a, amount), Raise(b, amount), Raise(c, amount), Raise(d, amount), Raise(e, amount), Raise(f, amount)]
  {
  }

  function Raise(fret: int, amount: int): int
  {
    if fret >= 0 then fret + amount else -1
  }
}

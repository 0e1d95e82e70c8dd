/** The circle of fifths of a scale (circle-of-fifths.ts): seven consecutive places on the
    circle, each with its note respelled to the scale, its chord quality, scale degree, degree
    name and Roman numeral. */
module CircleOfFifths {
  import opened Wrappers
  import opened Notes
  import opened ModeNames
  import opened CircularLists
  import LegacyScales
  import Sorting
  import JsArith

  /** The chord quality of a place: major, minor or diminished ("M", "m", "d"). */
  datatype ModeQuality = Major | Minor | Diminished

  /** One place of the circle as the library reports it. */
  datatype FifthInfo = FifthInfo(
    note: Note,
    position: int,
    quality: ModeQuality,
    degreeNumber: int,
    degreeName: string,
    degreeRoman: string)

  /** The twelve tonics in circle-of-fifths order from C, at octave 4. */
  const COF_NOTES: seq<NoteName> := [
    NoteName(C, Natural), NoteName(G, Natural), NoteName(D, Natural), NoteName(A, Natural),
    NoteName(E, Natural), NoteName(B, Natural), NoteName(F, Sharp), NoteName(C, Sharp),
    NoteName(A, Flat), NoteName(E, Flat), NoteName(B, Flat), NoteName(F, Natural)]

  const DEGREE_NAMES: seq<string> :=
    ["Tonic", "Supertonic", "Mediant", "Subdominant", "Dominant", "Submediant", "Leading Tone"]

  /** The qualities of the seven places, read from the first. */
  const MODE_QUALITIES: seq<ModeQuality> := [Major, Major, Major, Minor, Minor, Minor, Diminished]

  /** The scale degree at each circle place, lydian's first place being degree 1. */
  const DEGREE_NUMBERS: seq<int> := [1, 5, 2, 6, 3, 7, 4]

  const ROMAN_NUMERALS: seq<string> := ["I", "II", "III", "IV", "V", "VI", "VII"]

  // ---------------------------------------------------------------------------------------
  // Tonic index and mode number

  /** The circle note at a place, wrapping around (`COF_NOTES.itemAt`). */
  function CofNote(position: int): NoteName
  {
    At(COF_NOTES, position).value
  }

  /** The first place from `from` on whose note has the pitch number, or -1. */
  function FindNumber(notes: seq<NoteName>, number: int, from: nat): (r: int)
    requires from <= |notes|
    ensures r == -1 <==> forall j :: from <= j < |notes| ==> Number(notes[j]) != number
    ensures r != -1 ==> from <= r < |notes| && Number(notes[r]) == number
    ensures r != -1 ==> forall j :: from <= j < r ==> Number(notes[j]) != number
    decreases |notes| - from
  {
    if from == |notes| then -1
    else if Number(notes[from]) == number then from
    else FindNumber(notes, number, from + 1)
  }

  /** `getTonicIndex`: the first circle place with the tonic's pitch number. */
  function TonicIndex(tonic: Note): (r: int)
    ensures 0 <= r < 12 && Number(COF_NOTES[r]) == Number(tonic.name)
  {
    NumberOfSpelling(tonic.name);
    CofNumber((7 * Number(tonic.name)) % 12);
    SevenInverse(Number(tonic.name));
    FindNumber(COF_NOTES, Number(tonic.name), 0)
  }

  /** The place of note j on the circle, as a pitch number: seven half steps per place. */
  lemma CofNumber(j: int)
    requires 0 <= j < 12
    ensures Number(COF_NOTES[j]) == (7 * j) % 12
  {
    if j == 0 {} else if j == 1 {} else if j == 2 {} else if j == 3 {} else if j == 4 {} else if j == 5 {}
    else if j == 6 {} else if j == 7 {} else if j == 8 {} else if j == 9 {} else if j == 10 {} else {}
  }

  /** Seven is its own inverse modulo twelve. */
  lemma SevenInverse(j: int)
    requires 0 <= j < 12
    ensures (7 * ((7 * j) % 12)) % 12 == j
  {
    if j == 0 {} else if j == 1 {} else if j == 2 {} else if j == 3 {} else if j == 4 {} else if j == 5 {}
    else if j == 6 {} else if j == 7 {} else if j == 8 {} else if j == 9 {} else if j == 10 {} else {}
  }

  /** The circle note at any place, wrapping around, is seven half steps per place from C. */
  lemma CofNoteNumber(position: int)
    ensures Number(CofNote(position)) == (7 * position) % 12
  {
    var j, q := position % 12, position / 12;
    assert CofNote(position) == COF_NOTES[j];
    CofNumber(j);
    var r := (7 * j) % 12;
    assert 7 * j == 12 * ((7 * j) / 12) + r;
    JsArith.ModUnique(7 * position, 12, 7 * q + (7 * j) / 12, r);
  }

  /** Every tonic is found, at seven times its pitch number modulo twelve; enharmonic tonics
      thus share their place. */
  lemma TonicIndexOfNumber(tonic: Note)
    ensures TonicIndex(tonic) == (7 * Number(tonic.name)) % 12
  {
    var n := Number(tonic.name);
    var p := (7 * n) % 12;
    CofNumber(p);
    SevenInverse(n);
    assert Number(COF_NOTES[p]) == n;
    var r := TonicIndex(tonic);
    assert r != -1;
    CofNumber(r);
    SevenInverse(r);
    SevenInverse(p);
  }

  /** `getModeNumber`: the normalised mode's place in MODE_NAMES, lydian 0 and ionian 1, or -1. */
  function ModeNumber(mode: string): (r: int)
    ensures -1 <= r < 7
    ensures r == -1 <==> LegacyScales.NormalizeMode(mode) !in MODE_NAMES
  {
    ModeIndexRange(LegacyScales.NormalizeMode(mode));
    IndexOf(MODE_NAMES, LegacyScales.NormalizeMode(mode))
  }

  // ---------------------------------------------------------------------------------------
  // Roman numerals

  /** `toLowerCase` on ASCII letters. */
  function LowerChar(c: char): char
  {
    if 'A' <= c <= 'Z' then (c as int + 32) as char else c
  }

  function Lower(s: string): (r: string)
    ensures |r| == |s|
  {
    seq(|s|, i requires 0 <= i < |s| => LowerChar(s[i]))
  }

  function UpperChar(c: char): char
  {
    if 'a' <= c <= 'z' then (c as int - 32) as char else c
  }

  function Upper(s: string): (r: string)
    ensures |r| == |s|
  {
    seq(|s|, i requires 0 <= i < |s| => UpperChar(s[i]))
  }

  const DEGREE_SIGN: char := '°'

  /** `getDegreeRomanNumeral`: the degree's numeral, lower case for a minor place and lower case
      followed by "°" for a diminished one. */
  function RomanNumeral(degree: int, quality: ModeQuality): (r: string)
    requires 1 <= degree <= 7
    ensures |r| > 0
  {
    var roman := ROMAN_NUMERALS[degree - 1];
    match quality
    case Diminished => Lower(roman) + [DEGREE_SIGN]
    case Minor => Lower(roman)
    case Major => roman
  }

  /** The quality a numeral is written in: "°" last is diminished, a lower-case first letter
      minor, anything else major. */
  function QualityOfNumeral(numeral: string): ModeQuality
  {
    if |numeral| > 0 && numeral[|numeral| - 1] == DEGREE_SIGN then Diminished
    else if |numeral| > 0 && 'a' <= numeral[0] <= 'z' then Minor
    else Major
  }

  /** The degree a numeral names: its letters upper-cased, without the sign, looked up. */
  function DegreeOfNumeral(numeral: string): int
  {
    var letters := if |numeral| > 0 && numeral[|numeral| - 1] == DEGREE_SIGN then numeral[..|numeral| - 1] else numeral;
    RomanValue(Upper(letters))
  }

  /** A word of upper-case ASCII letters. */
  predicate IsUpperWord(s: string)
  {
    |s| > 0 && forall k :: 0 <= k < |s| ==> 'A' <= s[k] <= 'Z'
  }

  /** Lower-casing an upper-case word is undone by upper-casing it, and its first letter is
      then lower case. */
  lemma LowerUpper(s: string)
    requires IsUpperWord(s)
    ensures Upper(Lower(s)) == s
    ensures 'a' <= Lower(s)[0] <= 'z'
  {
  }

  /** The degree an upper-case numeral stands for, 0 for none. */
  function RomanValue(letters: string): int
  {
    if letters == "I" then 1 else if letters == "II" then 2 else if letters == "III" then 3
    else if letters == "IV" then 4 else if letters == "V" then 5 else if letters == "VI" then 6
    else if letters == "VII" then 7 else 0
  }

  /** The numerals are upper-case words, each standing for its own degree. */
  lemma RomanWord(degree: int)
    requires 1 <= degree <= 7
    ensures IsUpperWord(ROMAN_NUMERALS[degree - 1])
    ensures RomanValue(ROMAN_NUMERALS[degree - 1]) == degree
  {
    if degree == 1 {} else if degree == 2 {} else if degree == 3 {} else if degree == 4 {}
    else if degree == 5 {} else if degree == 6 {} else {}
  }

  /** A numeral shows its quality: the sign for diminished, a lower-case letter for minor. */
  lemma NumeralQuality(degree: int, quality: ModeQuality)
    requires 1 <= degree <= 7
    ensures QualityOfNumeral(RomanNumeral(degree, quality)) == quality
  {
    var roman := ROMAN_NUMERALS[degree - 1];
    RomanWord(degree);
    LowerUpper(roman);
    assert roman[|roman| - 1] != DEGREE_SIGN;
    assert Lower(roman)[|roman| - 1] != DEGREE_SIGN;
  }

  /** A numeral names its degree whatever its quality. */
  lemma NumeralDegree(degree: int, quality: ModeQuality)
    requires 1 <= degree <= 7
    ensures DegreeOfNumeral(RomanNumeral(degree, quality)) == degree
  {
    var roman := ROMAN_NUMERALS[degree - 1];
    RomanWord(degree);
    LowerUpper(roman);
    var r := RomanNumeral(degree, quality);
    assert roman[|roman| - 1] != DEGREE_SIGN;
    assert Lower(roman)[|roman| - 1] != DEGREE_SIGN;
    if quality == Diminished {
      assert r[..|r| - 1] == Lower(roman);
    }
    assert Upper(roman) == roman;
  }

  /** The documented numerals: IV, ii and vii° in C major, VII and ii° in G minor. */
  lemma RomanNumeralExamples()
    ensures RomanNumeral(4, Major) == "IV"
    ensures RomanNumeral(2, Minor) == "ii"
    ensures RomanNumeral(7, Diminished) == "vii°"
    ensures RomanNumeral(7, Major) == "VII"
    ensures RomanNumeral(2, Diminished) == "ii°"
  {
  }

  // ---------------------------------------------------------------------------------------
  // getFifthInfo

  /** `DEGREE_NUMBERS.itemAt(k)`: always a degree 1..7. */
  function DegreeAt(k: int): (d: int)
    ensures 1 <= d <= 7
    ensures d == DEGREE_NUMBERS[k % 7]
  {
    DegreeRange(k % 7);
    At(DEGREE_NUMBERS, k).value
  }

  lemma DegreeRange(j: int)
    requires 0 <= j < 7
    ensures 1 <= DEGREE_NUMBERS[j] <= 7
  {
    if j == 0 {} else if j == 1 {} else if j == 2 {} else if j == 3 {} else if j == 4 {} else if j == 5 {} else {}
  }

  /** `getFifthInfo(index, tonicNumber, start, scale)`, the scale given by what its
      getNoteInScale reads, its tonic note and signature: the place, the circle note there
      respelled to the scale, the quality of the index, the degree of place start + index, its
      name ("Subtonic" for a major seventh degree) and numeral. */
  function FifthInfoAt(index: int, tonicNumber: int, start: int, tonicNote: Note, sig: LegacyScales.Signature): (r: FifthInfo)
    ensures r.position == tonicNumber + start + index
    ensures r.note == LegacyScales.NoteInScale(Note(CofNote(r.position), 4), tonicNote, sig)
    ensures r.note.octave == 4 && NoteNumber(r.note) == (7 * r.position) % 12
    ensures r.degreeNumber == DegreeAt(start + index)
    ensures r.degreeName == (if r.degreeNumber == 7 && r.quality == Major then "Subtonic" else DEGREE_NAMES[r.degreeNumber - 1])
    ensures r.degreeRoman == RomanNumeral(r.degreeNumber, r.quality)
  {
    var position := tonicNumber + start + index;
    var degree := DegreeAt(start + index);
    var quality := At(MODE_QUALITIES, index).value;
    var name := if degree == 7 && quality == Major then "Subtonic" else DEGREE_NAMES[degree - 1];
    CofNoteNumber(position);
    FifthInfo(LegacyScales.NoteInScale(Note(CofNote(position), 4), tonicNote, sig), position, quality,
      degree, name, RomanNumeral(degree, quality))
  }

  /** Seven consecutive indices from any start take seven different places modulo 7. */
  lemma ConsecutiveMod(start: int, i: int, j: int)
    requires 0 <= i < j < 7
    ensures (start + i) % 7 != (start + j) % 7
  {
    var a, b := start + i, start + j;
    assert a == 7 * (a / 7) + a % 7;
    assert b == 7 * (b / 7) + b % 7;
  }

  /** The place of each degree in DEGREE_NUMBERS. */
  function DegreePlace(d: int): (p: int)
    requires 1 <= d <= 7
    ensures 0 <= p < 7 && DEGREE_NUMBERS[p] == d
  {
    if d == 1 then 0 else if d == 5 then 1 else if d == 2 then 2 else if d == 6 then 3
    else if d == 3 then 4 else if d == 7 then 5 else 6
  }

  /** The seven places from any start carry the seven degrees, each exactly once. */
  lemma DegreesArePermutation(start: int, i: int, j: int, d: int)
    requires 0 <= i < j < 7 && 1 <= d <= 7
    ensures DegreeAt(start + i) != DegreeAt(start + j)
    ensures var k := (DegreePlace(d) - start) % 7; 0 <= k < 7 && DegreeAt(start + k) == d
  {
    ConsecutiveMod(start, i, j);
    var p, q := (start + i) % 7, (start + j) % 7;
    assert DEGREE_NUMBERS[p] != DEGREE_NUMBERS[q] by {
      assert DegreePlace(DEGREE_NUMBERS[p]) == p;
      assert DegreePlace(DEGREE_NUMBERS[q]) == q;
    }
    var k := (DegreePlace(d) - start) % 7;
    var x := DegreePlace(d) - start;
    assert x == 7 * (x / 7) + k;
    assert start + k == DegreePlace(d) - 7 * (x / 7);
    assert (start + k) % 7 == DegreePlace(d) by {
      var y := start + k;
      assert y == 7 * (y / 7) + y % 7;
    }
  }

  /** The quality of place i is the i-th of M M M m m m d. */
  lemma QualityAt(index: int, tonicNumber: int, start: int, tonicNote: Note, sig: LegacyScales.Signature)
    requires 0 <= index < 7
    ensures FifthInfoAt(index, tonicNumber, start, tonicNote, sig).quality == MODE_QUALITIES[index]
  {
    AtInRange(MODE_QUALITIES, index);
  }

  /** C major starts on F (place -1, degree IV) and runs F C G D A E B with the degrees
      4 1 5 2 6 3 7. */
  lemma CMajorFifthsStart(tn: Note, sig: LegacyScales.Signature)
    ensures FifthInfoAt(0, 0, -1, tn, sig).position == -1 && CofNote(-1) == NoteName(F, Natural)
    ensures FifthInfoAt(0, 0, -1, tn, sig).degreeNumber == 4 && FifthInfoAt(0, 0, -1, tn, sig).degreeName == "Subdominant"
    ensures FifthInfoAt(1, 0, -1, tn, sig).degreeNumber == 1 && FifthInfoAt(1, 0, -1, tn, sig).degreeName == "Tonic"
    ensures FifthInfoAt(2, 0, -1, tn, sig).degreeNumber == 5
  {
  }

  /** The second and seventh degrees of C major: D is "ii" and B the "Leading Tone" "vii°". */
  lemma CMajorFifthsEnd(tn: Note, sig: LegacyScales.Signature)
    ensures FifthInfoAt(3, 0, -1, tn, sig).degreeNumber == 2 && FifthInfoAt(3, 0, -1, tn, sig).degreeRoman == "ii"
    ensures FifthInfoAt(6, 0, -1, tn, sig).degreeNumber == 7 && FifthInfoAt(6, 0, -1, tn, sig).degreeName == "Leading Tone"
    ensures FifthInfoAt(6, 0, -1, tn, sig).degreeRoman == "vii°"
  {
  }

  /** G minor starts three places before C on Eb, and its third place, F, is a major seventh
      degree and so named "Subtonic"; its last place is the "ii°". */
  lemma GMinorFifths(tn: Note, sig: LegacyScales.Signature)
    ensures FifthInfoAt(0, 1, -4, tn, sig).position == -3 && CofNote(-3) == NoteName(E, Flat)
    ensures FifthInfoAt(2, 1, -4, tn, sig).degreeNumber == 7 && FifthInfoAt(2, 1, -4, tn, sig).degreeName == "Subtonic"
    ensures FifthInfoAt(6, 1, -4, tn, sig).degreeRoman == "ii°"
  {
  }

  /** In C# major (seven sharps) the circle's F and C are respelled E# and B#. */
  lemma CSharpMajorRespelling()
    ensures LegacyScales.NoteInScale(Note(NoteName(F, Natural), 4), Note(NoteName(C, Sharp), 4), LegacyScales.Signature("#", 7)) ==
      Note(NoteName(E, Sharp), 4)
    ensures LegacyScales.NoteInScale(Note(NoteName(C, Natural), 4), Note(NoteName(C, Sharp), 4), LegacyScales.Signature("#", 7)) ==
      Note(NoteName(B, Sharp), 4)
  {
  }

  // ---------------------------------------------------------------------------------------
  // getFifths

  /** The seven places from the tonic's index and a start, respelled by a tonic note and a
      signature. */
  function FifthsFrom(tonicNumber: int, start: int, tonicNote: Note, sig: LegacyScales.Signature): (r: seq<FifthInfo>)
    ensures |r| == 7
  {
    seq(7, i requires 0 <= i < 7 => FifthInfoAt(i, tonicNumber, start, tonicNote, sig))
  }

  /** The fifths of the scale model's scale of a tonic and mode: an unknown tonic or a mode
      without intervals throws; otherwise seven places from the tonic's index less the mode
      number, each respelled by the scale's tonic note and signature. */
  function FifthsOf(tonic: string, mode: string): (r: Result<seq<FifthInfo>>)
    ensures r.Ok? <==> ParseNoteName(tonic).Some? && mode in MODE_NAMES
    ensures r.Ok? ==> |r.value| == 7
  {
    LegacyScales.NotesOfDefined(tonic, mode);
    match GetNoteByName(tonic, 4)
    case Err(e) => Err(e)
    case Ok(t) =>
      match LegacyScales.NotesOf(tonic, mode)
      case Err(e) => Err(e)
      case Ok(notes) =>
        Ok(FifthsFrom(TonicIndex(t), -1 * ModeNumber(mode), notes[0], LegacyScales.GetSignature(tonic, mode)))
  }

  /** For a tonic text that looks up a note name and one of the seven modes, the fifths are
      the seven places from the tonic's index less the mode number, respelled by the first
      scale note and the signature. */
  lemma FifthsOfParsed(tonic: string, mode: string)
    requires ParseNoteName(tonic).Some? && mode in MODE_NAMES
    ensures LegacyScales.NotesOf(tonic, mode).Ok?
    ensures FifthsOf(tonic, mode) == Ok(FifthsFrom(TonicIndex(Note(ParseNoteName(tonic).value, 4)),
      -1 * ModeNumber(mode), LegacyScales.NotesOf(tonic, mode).value[0], LegacyScales.GetSignature(tonic, mode)))
  {
    LegacyScales.NotesOfDefined(tonic, mode);
  }

  /** There are fifths exactly for a note-name tonic and one of the seven modes; then place i
      lies i places after the tonic's index less the mode number, with quality i of
      M M M m m m d. */
  lemma FifthsShape(tonic: string, mode: string, i: int)
    requires 0 <= i < 7
    ensures FifthsOf(tonic, mode).Ok? <==> ParseNoteName(tonic).Some? && mode in MODE_NAMES
    ensures FifthsOf(tonic, mode).Ok? ==>
      FifthsOf(tonic, mode).value[i].position ==
        (7 * Number(ParseNoteName(tonic).value)) % 12 - ModeNumber(mode) + i
    ensures FifthsOf(tonic, mode).Ok? ==> FifthsOf(tonic, mode).value[i].quality == MODE_QUALITIES[i]
    ensures FifthsOf(tonic, mode).Ok? ==>
      var f := FifthsOf(tonic, mode).value[i];
      f.note == LegacyScales.NoteInScale(Note(CofNote(f.position), 4),
        LegacyScales.NotesOf(tonic, mode).value[0], LegacyScales.GetSignature(tonic, mode)) &&
      f.note.octave == 4 && NoteNumber(f.note) == (7 * f.position) % 12
  {
    LegacyScales.NotesOfDefined(tonic, mode);
    if FifthsOf(tonic, mode).Ok? {
      var t := Note(ParseNoteName(tonic).value, 4);
      TonicIndexOfNumber(t);
      var notes := LegacyScales.NotesOf(tonic, mode).value;
      var sig := LegacyScales.GetSignature(tonic, mode);
      assert FifthsOf(tonic, mode).value[i] == FifthInfoAt(i, TonicIndex(t), -1 * ModeNumber(mode), notes[0], sig);
      QualityAt(i, TonicIndex(t), -1 * ModeNumber(mode), notes[0], sig);
    }
  }

  /** The loop of `getFifths`: seven places pushed in order. */
  method PushFifths(tonicNumber: int, start: int, tonicNote: Note, sig: LegacyScales.Signature) returns (fifths: seq<FifthInfo>)
    ensures fifths == FifthsFrom(tonicNumber, start, tonicNote, sig)
  {
    ghost var expected := FifthsFrom(tonicNumber, start, tonicNote, sig);
    fifths := [];
    for i := 0 to 7
      invariant fifths == expected[..i]
    {
      var f := FifthInfoAt(i, tonicNumber, start, tonicNote, sig);
      assert expected[i] == f;
      PrefixSnoc(expected, i);
      fifths := fifths + [f];
    }
    assert expected[..7] == expected;
  }

  /** `getFifths(scale)`: the tonic note and signature are read from the scale, which may fill
      its caches. */
  method GetFifths(scale: LegacyScales.MusicScale) returns (r: Result<seq<FifthInfo>>)
    requires scale.Valid()
    modifies scale
    ensures scale.Valid() && r == FifthsOf(scale.tonic, scale.mode)
    ensures scale.chordsCache == old(scale.chordsCache)
  {
    var t := GetNoteByName(scale.tonic, 4);
    if t.Err? {
      return Err(t.error);
    }
    var tonicNote := scale.TonicNote();
    if tonicNote.Err? {
      return Err(tonicNote.error);
    }
    var sig := scale.Signature();
    var fifths := PushFifths(TonicIndex(t.value), -1 * ModeNumber(scale.mode), tonicNote.value, sig);
    r := Ok(fifths);
  }

  /** The circle of C# major runs F# C# G# D# A# E# B#: seven sharps respell the flat and
      natural circle notes. The tonic text is any that looks up C# ("C#" by
      `Notes.ParseNoteNameIff`), the mode ionian. */
  lemma CSharpMajorFifths(tonic: string, mode: string, i: int)
    requires ParseNoteName(tonic) == Some(NoteName(C, Sharp)) && mode == MODE_NAMES[1] && 0 <= i < 7
    ensures FifthsOf(tonic, mode).Ok?
    ensures FifthsOf(tonic, mode).value[i].note.name == C_SHARP_MAJOR_FIFTHS[i]
  {
    CSharpMajorCircle(tonic, mode);
    CSharpRespelled(i);
  }

  /** The fifths of C# ionian start at place 7 - 1 and are respelled by C#4 and seven sharps. */
  lemma CSharpMajorCircle(tonic: string, mode: string)
    requires ParseNoteName(tonic) == Some(NoteName(C, Sharp)) && mode == MODE_NAMES[1]
    ensures FifthsOf(tonic, mode) ==
      Ok(FifthsFrom(7, -1, Note(NoteName(C, Sharp), 4), LegacyScales.Signature("#", 7)))
  {
    var cs := Note(NoteName(C, Sharp), 4);
    assert TonicIndex(cs) == 7 by {
      TonicIndexOfNumber(cs);
    }
    assert LegacyScales.NotesOf(tonic, mode).value[0] == cs && ModeNumber(mode) == 1 &&
      LegacyScales.GetSignature(tonic, mode) == LegacyScales.Signature("#", 7) by {
      CSharpMajorParts(tonic, mode);
    }
    FifthsOfParsed(tonic, mode);
  }

  /** C# ionian: the mode is number 1, the signature has seven sharps and the first scale note
      is C#4. */
  lemma CSharpMajorParts(tonic: string, mode: string)
    requires ParseNoteName(tonic) == Some(NoteName(C, Sharp)) && mode == MODE_NAMES[1]
    ensures ModeNumber(mode) == 1
    ensures LegacyScales.GetSignature(tonic, mode) == LegacyScales.Signature("#", 7)
    ensures LegacyScales.NotesOf(tonic, mode).Ok? && LegacyScales.NotesOf(tonic, mode).value[0] == Note(NoteName(C, Sharp), 4)
  {
    IonianNumber(mode);
    CSharpIonianSignature(tonic, mode);
    CSharpIonianTonic(tonic, mode);
  }

  lemma IonianNumber(mode: string)
    requires mode == MODE_NAMES[1]
    ensures ModeNumber(mode) == 1
  {
    assert mode[0] == 'i';
    ModeIndex(1);
  }

  lemma CSharpIonianSignature(tonic: string, mode: string)
    requires ParseNoteName(tonic) == Some(NoteName(C, Sharp)) && mode == MODE_NAMES[1]
    ensures LegacyScales.GetSignature(tonic, mode) == LegacyScales.Signature("#", 7)
  {
    var cs := NoteName(C, Sharp);
    ParseNoteNameIff(tonic, cs);
    ModeIndex(1);
    LegacyScales.SignatureOfName(cs, mode);
  }

  lemma CSharpIonianTonic(tonic: string, mode: string)
    requires ParseNoteName(tonic) == Some(NoteName(C, Sharp)) && mode == MODE_NAMES[1]
    ensures LegacyScales.NotesOf(tonic, mode).Ok? && LegacyScales.NotesOf(tonic, mode).value[0] == Note(NoteName(C, Sharp), 4)
  {
    var cs := Note(NoteName(C, Sharp), 4);
    assert Transpose(cs, 0) == cs;
    LegacyScales.NotesOfFirst(tonic, mode);
  }

  const C_SHARP_MAJOR_FIFTHS: seq<NoteName> := [
    NoteName(F, Sharp), NoteName(C, Sharp), NoteName(G, Sharp), NoteName(D, Sharp),
    NoteName(A, Sharp), NoteName(E, Sharp), NoteName(B, Sharp)]

  /** Circle places 6 to 12 respelled to C# major with seven sharps. */
  lemma CSharpRespelled(i: int)
    requires 0 <= i < 7
    ensures LegacyScales.NoteInScale(Note(CofNote(6 + i), 4), Note(NoteName(C, Sharp), 4),
      LegacyScales.Signature("#", 7)).name == C_SHARP_MAJOR_FIFTHS[i]
  {
    if i == 6 {
      assert CofNote(12) == NoteName(C, Natural);
    }
  }

  // ---------------------------------------------------------------------------------------
  // sortFifths and the circle object

  function DegreeKey(f: FifthInfo): int
  {
    f.degreeNumber
  }

  /** `sortFifths(fifths.slice())`: a copy sorted in place by degree number. */
  method SortFifths(fifths: seq<FifthInfo>) returns (r: seq<FifthInfo>)
    ensures r == Sorting.SortBy(fifths, DegreeKey)
  {
    var a := new FifthInfo[|fifths|](i requires 0 <= i < |fifths| => fifths[i]);
    assert a[..] == fifths;
    Sorting.InsertionSort(a, DegreeKey);
    r := a[..];
  }

  /** The ordered fifths are the fifths, rearranged, by rising degree. */
  lemma OrderedFifthsSorted(fifths: seq<FifthInfo>)
    ensures multiset(Sorting.SortBy(fifths, DegreeKey)) == multiset(fifths)
    ensures Sorting.SortedBy(Sorting.SortBy(fifths, DegreeKey), DegreeKey)
  {
    Sorting.SortByPermutes(fifths, DegreeKey);
    Sorting.SortBySorted(fifths, DegreeKey);
  }

  /** The circle of a scale, its fifths and ordered fifths computed on first access and kept. */
  class Circle {
    const scale: LegacyScales.MusicScale
    var fifthsCache: Option<seq<FifthInfo>>
    var orderedCache: Option<seq<FifthInfo>>

    ghost predicate Valid()
      reads this, scale
    {
      scale.Valid() &&
      (fifthsCache.Some? ==> FifthsOf(scale.tonic, scale.mode) == Ok(fifthsCache.value)) &&
      (orderedCache.Some? ==>
        fifthsCache.Some? && orderedCache.value == Sorting.SortBy(fifthsCache.value, DegreeKey))
    }

    /** `getCircleOfFifths(scale)`. */
    constructor(scale: LegacyScales.MusicScale)
      requires scale.Valid()
      ensures Valid() && this.scale == scale && fifthsCache.None? && orderedCache.None?
    {
      this.scale := scale;
      fifthsCache, orderedCache := None, None;
    }

    /** `fifths`: computed once, then returned from the cache. */
    method Fifths() returns (r: Result<seq<FifthInfo>>)
      requires Valid()
      modifies this, scale
      ensures Valid() && r == FifthsOf(scale.tonic, scale.mode)
      ensures fifthsCache == (if r.Ok? then Some(r.value) else old(fifthsCache))
      ensures orderedCache == old(orderedCache)
    {
      if fifthsCache.Some? {
        return Ok(fifthsCache.value);
      }
      r := GetFifths(scale);
      if r.Ok? {
        fifthsCache := Some(r.value);
      }
    }

    /** `orderedFifths`: the fifths sorted by degree, computed once. */
    method OrderedFifths() returns (r: Result<seq<FifthInfo>>)
      requires Valid()
      modifies this, scale
      ensures Valid()
      ensures FifthsOf(scale.tonic, scale.mode).Err? ==> r == Err(FifthsOf(scale.tonic, scale.mode).error)
      ensures FifthsOf(scale.tonic, scale.mode).Ok? ==>
        r == Ok(Sorting.SortBy(FifthsOf(scale.tonic, scale.mode).value, DegreeKey))
      ensures orderedCache == (if r.Ok? then Some(r.value) else old(orderedCache))
    {
      if orderedCache.Some? {
        return Ok(orderedCache.value);
      }
      var fifths := Fifths();
      if fifths.Err? {
        return Err(fifths.error);
      }
      var sorted := SortFifths(fifths.value);
      orderedCache := Some(sorted);
      r := Ok(sorted);
    }
  }
}

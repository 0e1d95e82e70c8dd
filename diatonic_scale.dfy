/** The diatonic scale of the newer scale hierarchy (scales/diatonic-scale.ts): its mode alias,
    name, key signature, signature accidental and chords, as functions of the tonic note and of
    the raw or normalised mode. */
module DiatonicScale {
  import opened Wrappers
  import opened Notes
  import opened Chords
  import opened ModeNames
  import LegacyScales

  /** `getModeAlias`, over the raw mode: ionian and major name each other, as do aeolian and
      minor; any other mode has no alias. */
  function ModeAlias(mode: string): (r: string)
    ensures r != "" <==> mode in {"ionian", "major", "aeolian", "minor"}
    ensures r != "" ==> r != mode && LegacyScales.NormalizeMode(r) == LegacyScales.NormalizeMode(mode)
  {
    if mode == "ionian" then "major"
    else if mode == "major" then "ionian"
    else if mode == "aeolian" then "minor"
    else if mode == "minor" then "aeolian"
    else ""
  }

  /** The alias relation is symmetric, defined for exactly four modes, and an alias names the
      same seven-note mode once normalised. */
  lemma ModeAliasPairs(mode: string)
    ensures ModeAlias(mode) != "" <==> mode in {"ionian", "major", "aeolian", "minor"}
    ensures ModeAlias(mode) != "" ==> ModeAlias(ModeAlias(mode)) == mode && ModeAlias(mode) != mode
    ensures ModeAlias(mode) != "" ==>
      LegacyScales.NormalizeMode(ModeAlias(mode)) == LegacyScales.NormalizeMode(mode)
  {
  }

  /** `getName`, over the raw mode: "M" for major, "m" for minor, otherwise the first three
      characters of the mode in parentheses. */
  function Name(tonic: Note, mode: string): (r: string)
    ensures |r| > |NameText(tonic.name)| && r[0] == LetterChar(tonic.name.letter)
  {
    NameText(tonic.name) + (if mode == "major" then "M" else if mode == "minor" then "m" else LegacyScales.ModeTag(mode))
  }

  /** The name starts with the tonic's name; major and minor take a single letter, while an
      ionian or aeolian scale is named by its tag and so differs from the major or minor one. */
  lemma NameOfModes(tonic: Note)
    ensures Name(tonic, "major") == NameText(tonic.name) + "M"
    ensures Name(tonic, "minor") == NameText(tonic.name) + "m"
    ensures Name(tonic, "ionian") == NameText(tonic.name) + "(ion)"
    ensures Name(tonic, "aeolian") == NameText(tonic.name) + "(aeo)"
    ensures Name(tonic, "ionian") != Name(tonic, "major")
  {
    assert "ionian"[..3] == "ion";
    assert "aeolian"[..3] == "aeo";
    var t := NameText(tonic.name);
    assert (t + "(ion)")[|t|] == '(';
    assert (t + "M")[|t|] == 'M';
  }

  /** `getNormalizedMode`: the mode normalised as the older scale model does. */
  function NormalizedMode(mode: string): (r: string)
    ensures r == "ionian" <==> mode in {"", "major", "M", "ionian"}
    ensures r == "aeolian" <==> mode in {"minor", "m", "aeolian"}
  {
    LegacyScales.NormalizeMode(mode)
  }

  /** `getSignature`, over the normalised mode: the circle-of-fifths index formula applied to
      the tonic's name. */
  function Signature(tonic: Note, nm: string): (r: LegacyScales.Signature)
    ensures r.count >= 0
    ensures HasAccidental(tonic) ==> r.accidental == AccidentalText(AccidentalOf(tonic))
    ensures !HasAccidental(tonic) ==> r.accidental in {"", "#", "b"} && (r.accidental == "" <==> r.count == 0)
  {
    LegacyScales.GetSignature(NameText(tonic.name), nm)
  }

  /** The raw count is the letter's place among F, C, G, D, A, E, B less the mode's place in
      MODE_NAMES, which is -1 for a mode outside it. */
  lemma SignedCountOfTonic(tonic: Note, nm: string)
    ensures LegacyScales.SignedCount(NameText(tonic.name), nm) ==
      LegacyScales.FifthsIndex(tonic.name.letter) - IndexOf(MODE_NAMES, nm)
    ensures -6 <= LegacyScales.SignedCount(NameText(tonic.name), nm) <= 7
    ensures nm in MODE_NAMES ==> LegacyScales.SignedCount(NameText(tonic.name), nm) <= 6
    ensures NameText(tonic.name)[1..] == AccidentalText(AccidentalOf(tonic))
  {
    SignedCountIs(tonic.name, nm);
    LegacyScales.FifthsIndexRange(tonic.name.letter);
    ModeIndexRange(nm);
    TonicText(tonic.name);
  }

  /** The raw count of a note name is its letter's place on the circle less the mode's place. */
  lemma SignedCountIs(n: NoteName, nm: string)
    ensures LegacyScales.SignedCount(NameText(n), nm) == LegacyScales.FifthsIndex(n.letter) - IndexOf(MODE_NAMES, nm)
  {
    TonicText(n);
    LegacyScales.NonAccidentalIndex(n.letter);
  }

  /** A name's first character is its letter and the rest is its accidental. */
  lemma TonicText(n: NoteName)
    ensures CharAt(NameText(n), 0) == [LetterChar(n.letter)]
    ensures NameText(n)[1..] == AccidentalText(n.accidental)
  {
  }

  /** The count always lies in 0..7 and is at most 6 for a natural tonic in one of the seven
      modes; an accidental tonic keeps its accidental, a natural one gets "#", "b" or "". */
  lemma SignatureBounds(tonic: Note, nm: string)
    ensures 0 <= Signature(tonic, nm).count <= 7
    ensures nm in MODE_NAMES && !HasAccidental(tonic) ==> Signature(tonic, nm).count <= 6
    ensures HasAccidental(tonic) ==> Signature(tonic, nm).accidental == AccidentalText(AccidentalOf(tonic))
    ensures !HasAccidental(tonic) ==> Signature(tonic, nm).accidental in {"", "#", "b"}
  {
    var t := NameText(tonic.name);
    SignedCountOfTonic(tonic, nm);
    LegacyScales.SignatureOfAnyCount(t[1..], LegacyScales.SignedCount(t, nm));
  }

  /** The major (ionian) signature of a note name: the letter's place on the circle less one. */
  lemma MajorSignature(n: NoteName, octave: int)
    ensures Signature(Note(n, octave), "ionian") ==
      LegacyScales.SignatureOfCount(AccidentalText(n.accidental), LegacyScales.FifthsIndex(n.letter) - 1)
  {
    ModeIndex(1);
    LegacyScales.SignatureOfName(n, "ionian");
  }

  /** The documented major signatures of the natural tonics: C none, G one sharp, D two, A three,
      E four, B five, F one flat. */
  lemma MajorSignaturesOfNaturals(o: int)
    ensures Signature(Note(NoteName(C, Natural), o), "ionian") == LegacyScales.Signature("", 0)
    ensures Signature(Note(NoteName(G, Natural), o), "ionian") == LegacyScales.Signature("#", 1)
    ensures Signature(Note(NoteName(D, Natural), o), "ionian") == LegacyScales.Signature("#", 2)
    ensures Signature(Note(NoteName(A, Natural), o), "ionian") == LegacyScales.Signature("#", 3)
    ensures Signature(Note(NoteName(E, Natural), o), "ionian") == LegacyScales.Signature("#", 4)
    ensures Signature(Note(NoteName(B, Natural), o), "ionian") == LegacyScales.Signature("#", 5)
    ensures Signature(Note(NoteName(F, Natural), o), "ionian") == LegacyScales.Signature("b", 1)
  {
    MajorSignature(NoteName(C, Natural), o);
    MajorSignature(NoteName(G, Natural), o);
    MajorSignature(NoteName(D, Natural), o);
    MajorSignature(NoteName(A, Natural), o);
    MajorSignature(NoteName(E, Natural), o);
    MajorSignature(NoteName(B, Natural), o);
    MajorSignature(NoteName(F, Natural), o);
  }

  /** The documented major signatures of the sharp tonics: C# seven sharps, D# five, F# six,
      G# six, A# four. */
  lemma MajorSignaturesOfSharps(o: int)
    ensures Signature(Note(NoteName(C, Sharp), o), "ionian") == LegacyScales.Signature("#", 7)
    ensures Signature(Note(NoteName(D, Sharp), o), "ionian") == LegacyScales.Signature("#", 5)
    ensures Signature(Note(NoteName(F, Sharp), o), "ionian") == LegacyScales.Signature("#", 6)
    ensures Signature(Note(NoteName(G, Sharp), o), "ionian") == LegacyScales.Signature("#", 6)
    ensures Signature(Note(NoteName(A, Sharp), o), "ionian") == LegacyScales.Signature("#", 4)
  {
    MajorSignature(NoteName(C, Sharp), o);
    MajorSignature(NoteName(D, Sharp), o);
    MajorSignature(NoteName(F, Sharp), o);
    MajorSignature(NoteName(G, Sharp), o);
    MajorSignature(NoteName(A, Sharp), o);
  }

  /** The documented major signatures of the flat tonics: Db five flats, Eb three, Gb six,
      Ab four, Bb two. */
  lemma MajorSignaturesOfFlats(o: int)
    ensures Signature(Note(NoteName(D, Flat), o), "ionian") == LegacyScales.Signature("b", 5)
    ensures Signature(Note(NoteName(E, Flat), o), "ionian") == LegacyScales.Signature("b", 3)
    ensures Signature(Note(NoteName(G, Flat), o), "ionian") == LegacyScales.Signature("b", 6)
    ensures Signature(Note(NoteName(A, Flat), o), "ionian") == LegacyScales.Signature("b", 4)
    ensures Signature(Note(NoteName(B, Flat), o), "ionian") == LegacyScales.Signature("b", 2)
  {
    MajorSignature(NoteName(D, Flat), o);
    MajorSignature(NoteName(E, Flat), o);
    MajorSignature(NoteName(G, Flat), o);
    MajorSignature(NoteName(A, Flat), o);
    MajorSignature(NoteName(B, Flat), o);
  }

  /** `getAccidental`: the tonic's accidental, or for a natural tonic the sign of the raw count. */
  function Accidental(tonic: Note, nm: string): (r: string)
    ensures r in {"", "#", "b"}
    ensures HasAccidental(tonic) ==> r == AccidentalText(AccidentalOf(tonic))
  {
    var accidental := AccidentalText(AccidentalOf(tonic));
    if accidental != "" then accidental
    else
      var count := LegacyScales.SignedCount(NameText(tonic.name), nm);
      if count < 0 then "b" else if count > 0 then "#" else ""
  }

  /** The separately computed accidental always agrees with the signature's. */
  lemma AccidentalOfSignature(tonic: Note, nm: string)
    ensures Accidental(tonic, nm) == Signature(tonic, nm).accidental
  {
    SignedCountOfTonic(tonic, nm);
  }

  /** `getChordsInScale`: the root-position chords on the notes with the qualities the mode's
      offset selects (OFFSETS_BY_MODE_NAME lists the modes in the order of MODES); a mode
      without an offset reads no quality, so every chord is major. */
  function ChordsInScale(notes: seq<Note>, nm: string): (r: seq<Chord>)
    ensures |r| == |notes|
  {
    if nm in LegacyScales.MODES then LegacyScales.ChordsOf(notes, nm)
    else seq(|notes|, i requires 0 <= i < |notes| => RootChord(notes[i].name, "M"))
  }

  /** For one of the seven modes, chord i is the root-position chord on note i at octave 4 with
      quality SCALE_QUALITIES[(i + offset) % 7], "" read as M. */
  lemma ChordsShape(notes: seq<Note>, nm: string, i: int)
    requires nm in LegacyScales.MODES && 0 <= i < |notes|
    ensures var q := LegacyScales.SCALE_QUALITIES[(i + IndexOf(LegacyScales.MODES, nm)) % 7];
      ChordsInScale(notes, nm)[i] == Chord(Note(notes[i].name, 4), if q == "" then "M" else q, Note(notes[i].name, 4))
  {
    LegacyScales.ModesOffset(nm);
    LegacyScales.ChordsAtShape(notes, IndexOf(LegacyScales.MODES, nm), i);
  }

  /** For any other mode every chord is the major chord on its note. */
  lemma ChordsShapeOtherMode(notes: seq<Note>, nm: string, i: int)
    requires nm !in LegacyScales.MODES && 0 <= i < |notes|
    ensures ChordsInScale(notes, nm)[i] == Chord(Note(notes[i].name, 4), "M", Note(notes[i].name, 4))
  {
  }
}

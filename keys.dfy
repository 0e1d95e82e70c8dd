/** Major and minor keys (keys.ts): the signature read from a circle-of-fifths table, notes
    respelled to a key, the seven chords of a key, and the key object with its caches. */
module Keys {
  import opened Wrappers
  import opened Notes
  import opened Chords
  import opened ModeNames
  import LegacyScales

  /** The twenty key names in the table's order: the naturals and sharps up the circle of fifths
      from C, then the flats from Cb back to F. Fb is the one note name missing. */
  const CIRCLE_OF_FIFTHS: seq<NoteName> := [
    NoteName(C, Natural), NoteName(G, Natural), NoteName(D, Natural), NoteName(A, Natural),
    NoteName(E, Natural), NoteName(B, Natural), NoteName(F, Sharp),
    NoteName(C, Sharp), NoteName(G, Sharp), NoteName(D, Sharp), NoteName(A, Sharp),
    NoteName(E, Sharp), NoteName(B, Sharp),
    NoteName(C, Flat), NoteName(G, Flat), NoteName(D, Flat), NoteName(A, Flat),
    NoteName(E, Flat), NoteName(B, Flat), NoteName(F, Natural)]

  /** The number of sharps or flats of the major key at the same place in CIRCLE_OF_FIFTHS. */
  const KEY_SIGNATURES: seq<int> := [
    0, 1, 2, 3, 4, 5, 6,
    7, 6, 5, 4, 3, 2,
    7, 6, 5, 4, 3, 2, 1]

  /** A key signature, as the older scale model writes it: an accidental and a count. */
  type Signature = LegacyScales.Signature

  // ---------------------------------------------------------------------------------------
  // The circle-of-fifths table

  /** The place of a spelling in CIRCLE_OF_FIFTHS, -1 for Fb. */
  function CirclePlace(n: NoteName): (r: int)
    ensures -1 <= r < 20
    ensures r == -1 <==> n == NoteName(F, Flat)
    ensures r >= 0 ==> CIRCLE_OF_FIFTHS[r] == n
  {
    match n
    case NoteName(C, Natural) => 0
    case NoteName(G, Natural) => 1
    case NoteName(D, Natural) => 2
    case NoteName(A, Natural) => 3
    case NoteName(E, Natural) => 4
    case NoteName(B, Natural) => 5
    case NoteName(F, Sharp) => 6
    case NoteName(C, Sharp) => 7
    case NoteName(G, Sharp) => 8
    case NoteName(D, Sharp) => 9
    case NoteName(A, Sharp) => 10
    case NoteName(E, Sharp) => 11
    case NoteName(B, Sharp) => 12
    case NoteName(C, Flat) => 13
    case NoteName(G, Flat) => 14
    case NoteName(D, Flat) => 15
    case NoteName(A, Flat) => 16
    case NoteName(E, Flat) => 17
    case NoteName(B, Flat) => 18
    case NoteName(F, Natural) => 19
    case NoteName(F, Flat) => -1
  }

  /** Each entry of the table is found at its own place, so no spelling occurs twice. */
  lemma CirclePlaceOfEntry(k: int)
    requires 0 <= k < 20
    ensures CirclePlace(CIRCLE_OF_FIFTHS[k]) == k
  {
  }

  /** `circleOfFifths.findIndex(i => i === tonic)`: the place whose name is the tonic's text,
      -1 when no name is. */
  function FindIndex(tonic: string): (r: int)
    ensures -1 <= r < 20
  {
    match ParseNoteName(tonic)
    case None => -1
    case Some(n) => CirclePlace(n)
  }

  /** FindIndex finds a place exactly when the name there is the tonic's text (the names being
      distinct, that place is the first and only one). */
  lemma FindIndexIsSearch(tonic: string)
    ensures FindIndex(tonic) >= 0 ==> NameText(CIRCLE_OF_FIFTHS[FindIndex(tonic)]) == tonic
    ensures FindIndex(tonic) == -1 ==> forall k :: 0 <= k < 20 ==> NameText(CIRCLE_OF_FIFTHS[k]) != tonic
  {
    forall k | 0 <= k < 20
      ensures NameText(CIRCLE_OF_FIFTHS[k]) == tonic ==> ParseNoteName(tonic) == Some(CIRCLE_OF_FIFTHS[k])
    {
      ParseNoteNameIff(tonic, CIRCLE_OF_FIFTHS[k]);
    }
    if ParseNoteName(tonic).Some? {
      ParseNoteNameIff(tonic, ParseNoteName(tonic).value);
    }
  }

  /** Each of the first twelve names and each flat after Cb lies a fifth (seven half steps)
      above the name before it. */
  lemma CircleIsFifths(k: int)
    requires 0 < k < 13 || 13 < k < 20
    ensures Number(CIRCLE_OF_FIFTHS[k]) == (Number(CIRCLE_OF_FIFTHS[k - 1]) + 7) % 12
  {
  }

  /** Looking a note name's own text up finds the name's place. */
  lemma FindIndexOfName(n: NoteName)
    ensures FindIndex(NameText(n)) == CirclePlace(n)
  {
    ParseNoteNameIff(NameText(n), n);
  }

  // ---------------------------------------------------------------------------------------
  // getKeySignature

  /** The table place `getKeySignature` reads: the tonic's place in CIRCLE_OF_FIFTHS (-1 when
      it is not there), moved three places back for a minor key, to its relative major. */
  function SignatureIndex(tonic: string, mode: string): (r: int)
    ensures -1 <= r < 20
    ensures mode == "minor" ==> 0 <= r
  {
    var idx := FindIndex(tonic);
    if mode == "minor" then (idx + |CIRCLE_OF_FIFTHS| - 3) % |CIRCLE_OF_FIFTHS| else idx
  }

  /** `getKeySignature` as written: the count and the accidental (the name's second
      character) of the key name at the index, "#" for a name without one; reading the name at
      index -1 throws. F, the one natural name on the flat side of the table, so reads "#". */
  function KeySignatureAsWritten(tonic: string, mode: string): (r: Result<Signature>)
    ensures r.Ok? <==> FindIndex(tonic) >= 0 || mode == "minor"
  {
    var idx := SignatureIndex(tonic, mode);
    if idx < 0 then Err(UndefinedAccess("circleOfFifths[idx].charAt"))
    else
      var second := AccidentalText(CIRCLE_OF_FIFTHS[idx].accidental);
      Ok(LegacyScales.Signature(if second != "" then second else "#", KEY_SIGNATURES[idx]))
  }

  /** `getKeySignature` with the accidental the table's layout implies: sharps for the first
      thirteen names, flats for the seven from Cb to F. */
  function KeySignature(tonic: string, mode: string): (r: Result<Signature>)
    ensures r.Ok? <==> FindIndex(tonic) >= 0 || mode == "minor"
    ensures r.Err? ==> r.error == UndefinedAccess("circleOfFifths[idx].charAt")
    ensures r.Ok? ==> 0 <= r.value.count <= 7 && r.value.accidental in {"#", "b"}
  {
    var idx := SignatureIndex(tonic, mode);
    if idx < 0 then Err(UndefinedAccess("circleOfFifths[idx].charAt"))
    else Ok(LegacyScales.Signature(if idx < 13 then "#" else "b", KEY_SIGNATURES[idx]))
  }

  /** The two readings differ only at F's place, which the code reads as one sharp instead of
      one flat: F major and D minor. */
  lemma KeySignatureCorrection(tonic: string, mode: string)
    ensures SignatureIndex(tonic, mode) != 19 ==> KeySignatureAsWritten(tonic, mode) == KeySignature(tonic, mode)
    ensures SignatureIndex(tonic, mode) == 19 ==>
      KeySignatureAsWritten(tonic, mode) == Ok(LegacyScales.Signature("#", 1)) &&
      KeySignature(tonic, mode) == Ok(LegacyScales.Signature("b", 1))
  {
  }

  /** As written, F major has one sharp, and its Bb is then respelled A#; corrected, it has one
      flat and keeps Bb. */
  lemma FMajorSignature()
    ensures KeySignatureAsWritten("F", "major") == Ok(LegacyScales.Signature("#", 1))
    ensures KeySignatureAsWritten("D", "minor") == Ok(LegacyScales.Signature("#", 1))
    ensures KeySignature("F", "major") == Ok(LegacyScales.Signature("b", 1))
    ensures NoteInKey(Note(NoteName(B, Flat), 4), KeySignatureAsWritten("F", "major")) ==
      Ok(Note(NoteName(A, Sharp), 4))
    ensures NoteInKey(Note(NoteName(B, Flat), 4), KeySignature("F", "major")) == Ok(Note(NoteName(B, Flat), 4))
  {
    FindIndexOfName(NoteName(F, Natural));
    FindIndexOfName(NoteName(D, Natural));
  }

  /** A major key takes flats exactly when its tonic is a flat name or F. */
  lemma FlatMajorKeys(n: NoteName)
    requires n != NoteName(F, Flat)
    ensures KeySignature(NameText(n), "major").Ok?
    ensures IsFlatSignature(KeySignature(NameText(n), "major").value) <==>
      n.accidental == Flat || n == NoteName(F, Natural)
  {
    FindIndexOfName(n);
  }

  /** The tonics with a major key: exactly the note names other than Fb. */
  lemma MajorKeyDefined(tonic: string)
    ensures KeySignature(tonic, "major").Ok? <==> ParseNoteName(tonic).Some? && tonic != "Fb"
  {
    match ParseNoteName(tonic)
    case None =>
    case Some(n) =>
      ParseNoteNameIff(tonic, n);
      ParseNoteNameIff("Fb", NoteName(F, Flat));
  }

  /** A minor key has the signature of the major key three places before it in the table. */
  lemma RelativeMajor(k: int)
    requires 0 <= k < 20
    ensures KeySignature(NameText(CIRCLE_OF_FIFTHS[k]), "minor") ==
      KeySignature(NameText(CIRCLE_OF_FIFTHS[(k + 17) % 20]), "major")
  {
    var j := (k + 17) % 20;
    FindIndexOfName(CIRCLE_OF_FIFTHS[k]);
    FindIndexOfName(CIRCLE_OF_FIFTHS[j]);
    CirclePlaceOfEntry(k);
    CirclePlaceOfEntry(j);
  }

  /** The relative major's tonic lies three half steps above the minor tonic, except for Cb,
      Gb and Db minor, where the table's three places back land a half step below the tonic. */
  lemma RelativeMajorPitch(k: int)
    requires 0 <= k < 20
    ensures !(13 <= k <= 15) ==> Number(CIRCLE_OF_FIFTHS[(k + 17) % 20]) == (Number(CIRCLE_OF_FIFTHS[k]) + 3) % 12
    ensures 13 <= k <= 15 ==> Number(CIRCLE_OF_FIFTHS[(k + 17) % 20]) == (Number(CIRCLE_OF_FIFTHS[k]) + 11) % 12
  {
    if k < 3 {
      assert (k + 17) % 20 == k + 17;
      if k == 0 {} else if k == 1 {} else {}
    } else {
      assert (k + 17) % 20 == k - 3;
      if k == 3 {} else if k == 4 {} else if k == 5 {} else if k == 6 {} else if k == 7 {} else if k == 8 {}
      else if k == 9 {} else if k == 10 {} else if k == 11 {} else if k == 12 {} else if k == 13 {}
      else if k == 14 {} else if k == 15 {} else if k == 16 {} else if k == 17 {} else if k == 18 {} else {}
    }
  }

  /** The signature of a major key is the count at the tonic's place, in sharps for the
      naturals and sharps, in flats for the flats and F. */
  lemma MajorKeyAt(k: int)
    requires 0 <= k < 20
    ensures KeySignature(NameText(CIRCLE_OF_FIFTHS[k]), "major") ==
      Ok(LegacyScales.Signature(if k < 13 then "#" else "b", KEY_SIGNATURES[k]))
  {
    FindIndexOfName(CIRCLE_OF_FIFTHS[k]);
    CirclePlaceOfEntry(k);
  }

  /** The counts run from 0 up to 7 sharps along C G D A E B F# C# and from 7 down to 1 flat
      along Cb Gb Db Ab Eb Bb F. */
  lemma MajorKeyCounts(k: int)
    requires 0 <= k < 20
    ensures k < 8 ==> KEY_SIGNATURES[k] == k
    ensures 13 <= k ==> KEY_SIGNATURES[k] == 20 - k
  {
  }

  /** The documented signatures: C major none (as "#" with count 0), D major two sharps, Eb
      minor six flats; a minor key whose tonic is not in the table, such as Fb minor, wraps to
      index 16 and reads Ab major's four flats, while Fb major throws. */
  lemma KeySignatureExamples()
    ensures KeySignature("C", "major") == Ok(LegacyScales.Signature("#", 0))
    ensures KeySignature("D", "major") == Ok(LegacyScales.Signature("#", 2))
    ensures KeySignature("Eb", "minor") == Ok(LegacyScales.Signature("b", 6))
    ensures KeySignature("Fb", "minor") == Ok(LegacyScales.Signature("b", 4))
    ensures KeySignature("Fb", "major").Err?
  {
    FindIndexOfName(NoteName(C, Natural));
    FindIndexOfName(NoteName(D, Natural));
    FindIndexOfName(NoteName(E, Flat));
    FindIndexOfName(NoteName(F, Flat));
  }

  // ---------------------------------------------------------------------------------------
  // getNoteInKey

  /** Whether the key's signature is in flats. */
  predicate IsFlatSignature(sig: Signature)
  {
    sig.accidental == "b"
  }

  /** The respelling step of `getNoteInKey` for a note with an accidental: the alias spelling,
      at the same octave, when the note is flat and the key is not, or the other way round. */
  function InKey(note: Note, sig: Signature): (r: Note)
    ensures r.octave == note.octave && NoteNumber(r) == NoteNumber(note)
  {
    if HasAccidental(note) && IsFlat(note) != IsFlatSignature(sig) && AliasName(note.name).Some?
    then Note(AliasName(note.name).value, note.octave)
    else note
  }

  /** `getNoteInKey` on a note, given the key's signature (or the error reading it): a natural
      note is kept without reading the signature; a note with an accidental reads it and is
      respelled to it. */
  function NoteInKey(note: Note, sig: Result<Signature>): (r: Result<Note>)
    ensures r.Ok? ==> r.value.octave == note.octave && NoteNumber(r.value) == NoteNumber(note)
    ensures !HasAccidental(note) ==> r == Ok(note)
    ensures HasAccidental(note) ==> (r.Ok? <==> sig.Ok?)
    ensures HasAccidental(note) && sig.Err? ==> r == Err(sig.error)
  {
    if !HasAccidental(note) then Ok(note)
    else
      match sig
      case Err(e) => Err(e)
      case Ok(s) => Ok(InKey(note, s))
  }

  /** Every note with an accidental has an alias; a sharp or flat note whose alias also has an
      accidental ends with the key's kind of accidental, while E#, B#, Fb and Cb become the
      natural F, C, E and B when the key's kind differs. */
  lemma InKeyRule(note: Note, sig: Signature)
    requires HasAccidental(note)
    ensures AliasName(note.name).Some?
    ensures HasAccidental(Note(AliasName(note.name).value, 0)) ==> (IsFlat(InKey(note, sig)) <==> IsFlatSignature(sig))
    ensures !HasAccidental(Note(AliasName(note.name).value, 0)) ==>
      InKey(note, sig) == (if IsFlat(note) == IsFlatSignature(sig) then note else Note(AliasName(note.name).value, note.octave))
  {
  }

  /** Respelling to a key is idempotent. */
  lemma InKeyIdempotent(note: Note, sig: Signature)
    ensures InKey(InKey(note, sig), sig) == InKey(note, sig)
  {
  }

  /** `getNoteInKey(noteName, key, octave)`: the named note at the octave (4 when it is
      omitted), respelled to the key; an unknown name throws first. */
  function NoteInKeyByName(name: string, tonic: string, mode: string, octave: int): (r: Result<Note>)
    ensures ParseNoteName(name).None? ==> r == Err(InvalidNoteName(name))
    ensures ParseNoteName(name).Some? ==> r == NoteInKey(Note(ParseNoteName(name).value, octave), KeySignature(tonic, mode))
  {
    match GetNoteByName(name, octave)
    case Err(e) => Err(e)
    case Ok(n) => NoteInKey(n, KeySignature(tonic, mode))
  }

  /** `getNoteInKey(noteNumber, key, octave)`: the standard spelling of the number, respelled. */
  function NoteInKeyByNumber(number: int, tonic: string, mode: string, octave: int): (r: Result<Note>)
    ensures r.Ok? ==> AbsolutePitch(r.value) == octave * 12 + number
  {
    NoteInKey(GetNoteByNumber(number, octave), KeySignature(tonic, mode))
  }

  /** A number always names a sharp or flat note whose alias has the other accidental, so in a
      key with a signature it comes out with the key's kind of accidental. */
  lemma NumberInKey(number: int, tonic: string, mode: string, octave: int)
    requires KeySignature(tonic, mode).Ok?
    ensures NoteInKeyByNumber(number, tonic, mode, octave).Ok?
    ensures HasAccidental(GetNoteByNumber(number, octave)) ==>
      (IsFlat(NoteInKeyByNumber(number, tonic, mode, octave).value) <==> IsFlatSignature(KeySignature(tonic, mode).value))
  {
    var n := GetNoteByNumber(number, octave);
    if HasAccidental(n) {
      InKeyRule(n, KeySignature(tonic, mode).value);
    }
  }

  /** The documented examples: D stays D in C major, D# becomes Eb in C minor. */
  lemma NoteInKeyExamples()
    ensures NoteInKeyByName("D", "C", "major", 4) == Ok(Note(NoteName(D, Natural), 4))
    ensures NoteInKeyByName("D#", "C", "minor", 4) == Ok(Note(NoteName(E, Flat), 4))
  {
    FindIndexOfName(NoteName(C, Natural));
  }

  // ---------------------------------------------------------------------------------------
  // getChordsInKey

  /** The chord qualities `getChordsInKey` reads, "" being major. */
  const KEY_QUALITIES: seq<string> := ["m", "dim", "", "m", "m", "", ""]

  /** Every quality of the table is one `parseChord` reads back. */
  lemma KeyQualityKnown(j: int)
    requires 0 <= j < 7
    ensures KEY_QUALITIES[j] in {"", "m", "dim"}
  {
    if j == 0 {} else if j == 1 {} else if j == 2 {} else if j == 3 {} else if j == 4 {} else if j == 5 {} else {}
  }

  /** The place in KEY_QUALITIES of a key's first chord: 0 for minor, 2 otherwise. */
  function QualityOffset(mode: string): int
  {
    if mode == "minor" then 0 else 2
  }

  /** The intervals of the major scale. */
  const MAJOR_INTERVALS: seq<int> := [0, 2, 4, 5, 7, 9, 11]

  /** The intervals of the natural minor scale. */
  const MINOR_INTERVALS: seq<int> := [0, 2, 3, 5, 7, 8, 10]

  /** The intervals of the key's scale: minor for a minor key, major otherwise. The scale's
      builder is not part of this model; only the pitch numbers of its notes are read. */
  function KeyIntervals(mode: string): (r: seq<int>)
    ensures |r| == 7
  {
    if mode == "minor" then MINOR_INTERVALS else MAJOR_INTERVALS
  }

  /** They are the scale model's ionian and aeolian rows. */
  lemma KeyIntervalsAreModeRows()
    ensures ModeIntervals("ionian") == Some(MAJOR_INTERVALS)
    ensures ModeIntervals("aeolian") == Some(MINOR_INTERVALS)
  {
    ModeIndex(1);
    ModeIndex(4);
  }

  /** The notes the given intervals above the tonic, in standard spelling at octave 4. */
  function ScaleNotes(tonic: Note, ints: seq<int>): (r: seq<Note>)
    ensures |r| == |ints|
  {
    seq(|ints|, k requires 0 <= k < |ints| => ScaleNote(tonic, ints[k]))
  }

  /** The note an interval above the tonic, in standard spelling at octave 4. */
  function ScaleNote(tonic: Note, interval: int): Note
  {
    GetNoteByNumber((Number(tonic.name) + interval) % 12, 4)
  }

  /** The scale note of a tonic name at octave 4 is the standard note of the summed pitch. */
  lemma ScaleNoteIs(p: NoteName, interval: int)
    ensures ScaleNote(Note(p, 4), interval) == GetNoteByNumber((Number(p) + interval) % 12, 4)
  {
  }

  /** `notes.map(n => getNoteInKey(n, key))`: each note respelled to the key, the first error
      (a note with an accidental while the signature cannot be read) aborting the map. */
  function SpellInKey(notes: seq<Note>, sig: Result<Signature>): (r: Result<seq<Note>>)
    ensures sig.Ok? ==> r.Ok?
    ensures r.Ok? ==> |r.value| == |notes|
    ensures r.Ok? ==> forall k :: 0 <= k < |notes| ==> NoteInKey(notes[k], sig) == Ok(r.value[k])
    ensures r.Err? ==> exists k :: 0 <= k < |notes| && NoteInKey(notes[k], sig) == Err(r.error)
  {
    if |notes| == 0 then Ok([])
    else
      match NoteInKey(notes[0], sig)
      case Err(e) => Err(e)
      case Ok(n) =>
        match SpellInKey(notes[1..], sig)
        case Err(e) =>
          var k :| 0 <= k < |notes[1..]| && NoteInKey(notes[1..][k], sig) == Err(e);
          assert NoteInKey(notes[k + 1], sig) == Err(e);
          Err(e)
        case Ok(rest) => Ok([n] + rest)
  }

  /** The notes `getChordsInKey` builds: the scale of the tonic in the key's mode, each note
      respelled to the key; an unknown tonic throws first. */
  function NotesInKey(tonic: string, mode: string): (r: Result<seq<Note>>)
    ensures r.Ok? ==> |r.value| == 7
    ensures ParseNoteName(tonic).None? ==> r == Err(InvalidNoteName(tonic))
    ensures ParseNoteName(tonic).Some? && KeySignature(tonic, mode).Ok? ==> r.Ok?
  {
    match GetNoteByName(tonic, 4)
    case Err(e) => Err(e)
    case Ok(t) => SpellInKey(ScaleNotes(t, KeyIntervals(mode)), KeySignature(tonic, mode))
  }

  /** Note k of a key is the key's respelling of the standard note interval k above the tonic
      (whose pitch number ScaleNoteNumber gives), and keeps that note's number and octave 4. */
  lemma NotesInKeyPitch(tonic: string, mode: string, p: NoteName, k: int)
    requires NotesInKey(tonic, mode).Ok? && ParseNoteName(tonic) == Some(p) && 0 <= k < 7
    ensures NoteInKey(ScaleNote(Note(p, 4), KeyIntervals(mode)[k]), KeySignature(tonic, mode)) ==
      Ok(NotesInKey(tonic, mode).value[k])
    ensures NoteNumber(NotesInKey(tonic, mode).value[k]) == NoteNumber(ScaleNote(Note(p, 4), KeyIntervals(mode)[k]))
    ensures NotesInKey(tonic, mode).value[k].octave == 4
  {
    NotesInKeyIsSpelled(tonic, mode, p);
    SpelledNumber(p, KeyIntervals(mode), KeySignature(tonic, mode), k);
  }

  /** A key's notes are the standard scale notes of its tonic respelled to its signature. */
  lemma NotesInKeyIsSpelled(tonic: string, mode: string, p: NoteName)
    requires NotesInKey(tonic, mode).Ok? && ParseNoteName(tonic) == Some(p)
    ensures NotesInKey(tonic, mode) == SpellInKey(ScaleNotes(Note(p, 4), KeyIntervals(mode)), KeySignature(tonic, mode))
  {
    assert GetNoteByName(tonic, 4) == Ok(Note(p, 4));
  }

  /** The key's spelling of a summed pitch number is the respelled scale note. */
  lemma ByNumberIsScaleNote(p: NoteName, interval: int, tonic: string, mode: string)
    ensures NoteInKeyByNumber((Number(p) + interval) % 12, tonic, mode, 4) ==
      NoteInKey(ScaleNote(Note(p, 4), interval), KeySignature(tonic, mode))
  {
    ScaleNoteIs(p, interval);
  }

  /** Note k of a respelled scale, for any signature, with its pitch number and octave. */
  lemma SpelledNumber(p: NoteName, ints: seq<int>, sig: Result<Signature>, k: int)
    requires SpellInKey(ScaleNotes(Note(p, 4), ints), sig).Ok? && 0 <= k < |ints|
    ensures NoteInKey(ScaleNote(Note(p, 4), ints[k]), sig) == Ok(SpellInKey(ScaleNotes(Note(p, 4), ints), sig).value[k])
    ensures NoteNumber(SpellInKey(ScaleNotes(Note(p, 4), ints), sig).value[k]) == (Number(p) + ints[k]) % 12
    ensures SpellInKey(ScaleNotes(Note(p, 4), ints), sig).value[k].octave == 4
  {
    var std := ScaleNotes(Note(p, 4), ints);
    var n := ScaleNote(Note(p, 4), ints[k]);
    assert std[k] == n;
    SpelledAt(std, sig, k);
    assert NoteInKey(n, sig) == Ok(SpellInKey(std, sig).value[k]);
    ScaleNotePitch(p, ints[k], sig);
  }

  /** The note an interval above a tonic has the summed pitch number, at octave 4. */
  lemma ScaleNoteNumber(p: NoteName, interval: int)
    ensures NoteNumber(ScaleNote(Note(p, 4), interval)) == (Number(p) + interval) % 12
    ensures ScaleNote(Note(p, 4), interval).octave == 4
  {
    var x := (Number(p) + interval) % 12;
    ScaleNoteIs(p, interval);
    StandardNote(x, 4);
  }

  /** Respelling the note an interval above a tonic keeps the summed pitch number and octave 4. */
  lemma ScaleNotePitch(p: NoteName, interval: int, sig: Result<Signature>)
    requires NoteInKey(ScaleNote(Note(p, 4), interval), sig).Ok?
    ensures NoteNumber(NoteInKey(ScaleNote(Note(p, 4), interval), sig).value) == (Number(p) + interval) % 12
    ensures NoteInKey(ScaleNote(Note(p, 4), interval), sig).value.octave == 4
  {
    var x := (Number(p) + interval) % 12;
    ScaleNoteIs(p, interval);
    StandardNote(x, 4);
  }

  /** Respelled note k is the respelling of note k. */
  lemma SpelledAt(notes: seq<Note>, sig: Result<Signature>, k: int)
    requires SpellInKey(notes, sig).Ok? && 0 <= k < |notes|
    ensures NoteInKey(notes[k], sig) == Ok(SpellInKey(notes, sig).value[k])
  {
  }

  /** The notes of a key with a signature come out with the key's kind of accidental. */
  lemma NotesInKeyAccidentals(tonic: string, mode: string, k: int)
    requires NotesInKey(tonic, mode).Ok? && KeySignature(tonic, mode).Ok? && 0 <= k < 7
    ensures HasAccidental(NotesInKey(tonic, mode).value[k]) ==>
      (IsFlat(NotesInKey(tonic, mode).value[k]) <==> IsFlatSignature(KeySignature(tonic, mode).value))
  {
    var p := ParseNoteName(tonic).value;
    NotesInKeyPitch(tonic, mode, p, k);
    ScaleNoteInKey(p, KeyIntervals(mode)[k], KeySignature(tonic, mode).value);
  }

  /** The note an interval above a tonic, when it has an accidental, is respelled with the
      key's kind of accidental. */
  lemma ScaleNoteInKey(p: NoteName, interval: int, sig: Signature)
    ensures HasAccidental(ScaleNote(Note(p, 4), interval)) ==>
      (IsFlat(NoteInKey(ScaleNote(Note(p, 4), interval), Ok(sig)).value) <==> IsFlatSignature(sig))
  {
    ScaleNoteIs(p, interval);
    var n := GetNoteByNumber((Number(p) + interval) % 12, 4);
    if HasAccidental(n) {
      InKeyRule(n, sig);
    }
  }

  /** In Eb minor the pitches 6, 11 and 1 are spelled Gb, B and Db: the standard F# is
      respelled, while B is natural and keeps its spelling rather than becoming Cb. */
  lemma EFlatMinorSpellings()
    ensures NoteInKeyByNumber(6, "Eb", "minor", 4) == Ok(Note(NoteName(G, Flat), 4))
    ensures NoteInKeyByNumber(11, "Eb", "minor", 4) == Ok(Note(NoteName(B, Natural), 4))
    ensures NoteInKeyByNumber(1, "Eb", "minor", 4) == Ok(Note(NoteName(D, Flat), 4))
  {
    FindIndexOfName(NoteName(E, Flat));
    assert KeySignature("Eb", "minor") == Ok(LegacyScales.Signature("b", 6));
    assert GetNoteByNumber(6, 4) == Note(NoteName(F, Sharp), 4);
    assert GetNoteByNumber(11, 4) == Note(NoteName(B, Natural), 4);
    assert GetNoteByNumber(1, 4) == Note(NoteName(C, Sharp), 4);
  }

  /** The chord on each note: the note's name with the quality the offset selects, in root
      position at octave 4. */
  function KeyChords(notes: seq<Note>, mode: string): (r: seq<Chord>)
    requires |notes| == 7
    ensures |r| == 7
  {
    seq(7, i requires 0 <= i < 7 => RootChord(notes[i].name, KEY_QUALITIES[(i + QualityOffset(mode)) % 7]))
  }

  /** `parseChord` on a note name followed by "", "m" or "dim" gives that root-position chord. */
  lemma ParseChordOfKeyName(n: NoteName, q: string)
    requires q in {"", "m", "dim"}
    ensures ParseChord(NameText(n) + q) == Ok(Some(RootChord(n, q)))
  {
    var root := Note(n, 4);
    var quality := if q == "" then "M" else q;
    assert "" + NameText(n) + q == NameText(n) + q;
    assert IsQualityText(q) by {
      if q == "dim" {
        assert IsAsciiLetter(q[0]) && IsAsciiLetter(q[1]);
      }
    }
    ParseChordNoBassSpans("", n, q);
    GetChordByNameOfNames(n, quality, n);
    assert EqualsIgnoreOctave(root, root);
    MakeChordOutcome(root, quality, root);
  }

  /** The loop of `getChordsInKey`: for each of the seven notes, its name followed by the
      quality of its degree, parsed. */
  method ChordsOfNotes(notes: seq<Note>, mode: string) returns (chords: seq<Chord>)
    requires |notes| == 7
    ensures chords == KeyChords(notes, mode)
  {
    var offset := QualityOffset(mode);
    ghost var expected := KeyChords(notes, mode);
    chords := [];
    for i := 0 to 7
      invariant chords == expected[..i]
    {
      var quality := KEY_QUALITIES[(i + offset) % 7];
      KeyQualityKnown((i + offset) % 7);
      ParseChordOfKeyName(notes[i].name, quality);
      var chord := ParseChord(NameText(notes[i].name) + quality);
      assert chord.value.value == expected[i];
      PrefixSnoc(expected, i);
      chords := chords + [chord.value.value];
    }
    assert expected[..7] == expected;
  }

  /** `getChordsInKey`: the chords on the notes of the key; an error building the notes is
      the result. */
  method ChordsInKey(tonic: string, mode: string) returns (r: Result<seq<Chord>>)
    ensures NotesInKey(tonic, mode).Err? ==> r == Err(NotesInKey(tonic, mode).error)
    ensures NotesInKey(tonic, mode).Ok? ==> r == Ok(KeyChords(NotesInKey(tonic, mode).value, mode))
  {
    var notes := NotesInKey(tonic, mode);
    if notes.Err? {
      return Err(notes.error);
    }
    var chords := ChordsOfNotes(notes.value, mode);
    r := Ok(chords);
  }

  /** The key's qualities are those the scale model gives the ionian (major, offset 0) and
      aeolian (minor, offset 5) modes: a major key reads M m m M M m dim, a minor key
      m dim M m m M M. */
  lemma KeyQualitiesAgreeWithModes(i: int)
    requires 0 <= i < 7
    ensures KEY_QUALITIES[(i + QualityOffset("major")) % 7] == LegacyScales.SCALE_QUALITIES[i]
    ensures KEY_QUALITIES[(i + QualityOffset("minor")) % 7] == LegacyScales.SCALE_QUALITIES[(i + 5) % 7]
  {
    if i == 0 {} else if i == 1 {} else if i == 2 {} else if i == 3 {} else if i == 4 {} else if i == 5 {} else {}
  }

  /** Ionian is the first of the scale model's modes and aeolian the sixth. */
  lemma MajorAndMinorOffsets()
    ensures IndexOf(LegacyScales.MODES, "ionian") == 0
    ensures IndexOf(LegacyScales.MODES, "aeolian") == 5
  {
    assert LegacyScales.MODES[0][0] == 'i' && LegacyScales.MODES[1][0] == 'd' && LegacyScales.MODES[2][0] == 'p';
    assert LegacyScales.MODES[3][0] == 'l' && LegacyScales.MODES[4][0] == 'm' && LegacyScales.MODES[5] == "aeolian";
    IndexOfAt(LegacyScales.MODES, "aeolian", 5);
  }

  /** Chord i of a key is rooted on note i of the key at octave 4, with the quality of its
      degree read as M for "". */
  lemma KeyChordShape(notes: seq<Note>, mode: string, i: int)
    requires |notes| == 7 && 0 <= i < 7
    ensures KeyChords(notes, mode)[i].root == Note(notes[i].name, 4)
    ensures KeyChords(notes, mode)[i].bass == Note(notes[i].name, 4)
    ensures var q := KEY_QUALITIES[(i + QualityOffset(mode)) % 7];
      KeyChords(notes, mode)[i].quality == (if q == "" then "M" else q)
  {
  }

  // ---------------------------------------------------------------------------------------
  // The key object

  /** `name`: the tonic followed by "M" for a major key and "m" for any other mode. */
  function KeyName(tonic: string, mode: string): (r: string)
    ensures |r| == |tonic| + 1 && r[..|tonic|] == tonic
    ensures r[|tonic|] == (if mode == "major" then 'M' else 'm')
  {
    tonic + (if mode == "major" then "M" else "m")
  }

  /** A key whose signature and chords are computed on first access and kept. */
  class Key {
    const tonic: string
    const mode: string
    const name: string
    var signatureCache: Option<Signature>
    var chordsCache: Option<seq<Chord>>

    /** The caches, once filled, hold what the computations give. */
    ghost predicate Valid()
      reads this
    {
      name == KeyName(tonic, mode) &&
      (signatureCache.Some? ==> KeySignature(tonic, mode) == Ok(signatureCache.value)) &&
      (chordsCache.Some? ==>
        NotesInKey(tonic, mode).Ok? && chordsCache.value == KeyChords(NotesInKey(tonic, mode).value, mode))
    }

    /** `new Key(tonic, mode)`, the mode being "major" when it is omitted. */
    constructor(tonic: string, mode: string)
      ensures Valid()
      ensures this.tonic == tonic && this.mode == mode && name == KeyName(tonic, mode)
      ensures signatureCache.None? && chordsCache.None?
    {
      this.tonic := tonic;
      this.mode := mode;
      name := KeyName(tonic, mode);
      signatureCache, chordsCache := None, None;
    }

    /** `signature`: computed once, then returned from the cache; a failed computation throws
        and leaves the cache empty. */
    method Signature() returns (r: Result<Signature>)
      requires Valid()
      modifies this
      ensures Valid() && r == KeySignature(tonic, mode)
      ensures signatureCache == (if r.Ok? then Some(r.value) else old(signatureCache))
      ensures chordsCache == old(chordsCache)
    {
      if signatureCache.Some? {
        return Ok(signatureCache.value);
      }
      r := KeySignature(tonic, mode);
      if r.Ok? {
        signatureCache := Some(r.value);
      }
    }

    /** `chords`: computed once, then returned from the cache. */
    method Chords() returns (r: Result<seq<Chord>>)
      requires Valid()
      modifies this
      ensures Valid()
      ensures NotesInKey(tonic, mode).Err? ==> r == Err(NotesInKey(tonic, mode).error)
      ensures NotesInKey(tonic, mode).Ok? ==> r == Ok(KeyChords(NotesInKey(tonic, mode).value, mode))
      ensures chordsCache == (if r.Ok? then Some(r.value) else old(chordsCache))
      ensures signatureCache == old(signatureCache)
    {
      if chordsCache.Some? {
        return Ok(chordsCache.value);
      }
      r := ChordsInKey(tonic, mode);
      if r.Ok? {
        chordsCache := Some(r.value);
      }
    }

    /** `getNoteInKey(noteName, octave)`. */
    function GetNoteInKeyByName(noteName: string, octave: int): (r: Result<Note>)
      ensures r == NoteInKeyByName(noteName, tonic, mode, octave)
      ensures r.Ok? ==> r.value.octave == octave && Number(r.value.name) == Number(ParseNoteName(noteName).value)
    {
      NoteInKeyByName(noteName, tonic, mode, octave)
    }

    /** `getNoteInKey(noteNumber, octave)`. */
    function GetNoteInKeyByNumber(noteNumber: int, octave: int): (r: Result<Note>)
      ensures r == NoteInKeyByNumber(noteNumber, tonic, mode, octave)
      ensures r.Ok? ==> AbsolutePitch(r.value) == octave * 12 + noteNumber
    {
      NoteInKeyByNumber(noteNumber, tonic, mode, octave)
    }
  }

  /** `parseKey(text)`: the key of the first tonic in the text, minor when "m" follows it and
      major otherwise, or no key without a letter A..G. */
  method ParseKey(text: string) returns (r: Key?)
    ensures LegacyScales.ParseTonicAndMode(text).None? <==> r == null
    ensures r != null ==> fresh(r) && r.Valid() && r.signatureCache.None? && r.chordsCache.None?
    ensures r != null ==> r.tonic == LegacyScales.ParseTonicAndMode(text).value.0
    ensures r != null ==> r.mode == (if LegacyScales.ParseTonicAndMode(text).value.1 then "minor" else "major")
  {
    match LegacyScales.ParseTonicAndMode(text)
    case None => r := null;
    case Some((tonic, minor)) =>
      r := new Key(tonic, if minor then "minor" else "major");
  }

  /** A key parsed from its own name is that key: "Ebm" is Eb minor and "DM" D major. */
  lemma ParseKeyOfName(n: NoteName)
    ensures LegacyScales.ParseTonicAndMode(KeyName(NameText(n), "minor")) == Some((NameText(n), true))
    ensures LegacyScales.ParseTonicAndMode(KeyName(NameText(n), "major")) == Some((NameText(n), false))
  {
    LegacyScales.ParseTonicOfName(n);
  }
}

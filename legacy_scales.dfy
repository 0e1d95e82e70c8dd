/** The older scale model (scales.ts): a scale named by a tonic text and a mode, its signature
    from the circle-of-fifths index formula, its notes respelled to the signature and its
    chords. */
module LegacyScales {
  import opened Wrappers
  import opened JsArith
  import opened Notes
  import opened Chords
  import opened ModeNames

  /** Mode names starting with ionian (major). */
  const MODES: seq<string> := ["ionian", "dorian", "phrygian", "lydian", "mixolydian", "aeolian", "locrian"]

  /** Qualities of the chords on each degree of the major scale ("" is major). */
  const SCALE_QUALITIES: seq<string> := ["", "m", "m", "", "", "m", "dim"]

  /** The natural notes in circle-of-fifths order, starting with F. */
  const NON_ACCIDENTALS: seq<string> := ["F", "C", "G", "D", "A", "E", "B"]

  /** A key signature: the accidental text ("", "#" or "b" for note names) and how many. */
  datatype Signature = Signature(accidental: string, count: int)

  // ---------------------------------------------------------------------------------------
  // Modes and names

  /** `normalizeMode`: "", major and M are ionian; minor and m are aeolian; any other mode is
      kept. */
  function NormalizeMode(mode: string): (r: string)
    ensures r !in {"", "major", "M", "minor", "m"}
    ensures mode !in {"", "major", "M", "minor", "m"} ==> r == mode
  {
    if mode in {"", "major", "M"} then "ionian"
    else if mode in {"minor", "m"} then "aeolian"
    else mode
  }

  /** Normalising is idempotent and only ever yields ionian, aeolian or its own input, which
      is then neither an alias of major nor of minor. */
  lemma NormalizeModeFacts(mode: string)
    ensures NormalizeMode(NormalizeMode(mode)) == NormalizeMode(mode)
    ensures NormalizeMode(mode) == "ionian" <==> mode in {"", "major", "M", "ionian"}
    ensures NormalizeMode(mode) == "aeolian" <==> mode in {"minor", "m", "aeolian"}
    ensures NormalizeMode(mode) !in {"", "major", "M", "minor", "m"}
    ensures mode !in {"", "major", "M", "minor", "m"} ==> NormalizeMode(mode) == mode
  {
  }

  /** The first three characters of the mode, in parentheses. */
  function ModeTag(mode: string): string
  {
    "(" + (if |mode| <= 3 then mode else mode[..3]) + ")"
  }

  /** The scale's name over its normalised mode: "M" for ionian, "m" for aeolian, else the tag. */
  function ScaleName(tonic: string, mode: string): (r: string)
    ensures |r| > |tonic| && r[..|tonic|] == tonic
  {
    tonic + (if mode == "ionian" then "M" else if mode == "aeolian" then "m" else ModeTag(mode))
  }

  /** The other name of the normalised mode. */
  function ModeAlias(mode: string): (r: string)
    ensures r != "" <==> mode == "ionian" || mode == "aeolian"
  {
    if mode == "ionian" then "major" else if mode == "aeolian" then "minor" else ""
  }

  /** Major and minor scales are named by M and m after the tonic and aliased as major and
      minor; other modes get their three-letter tag and no alias. */
  lemma NamesOfModes(tonic: string, mode: string)
    ensures ScaleName(tonic, NormalizeMode("major")) == tonic + "M"
    ensures ScaleName(tonic, NormalizeMode("minor")) == tonic + "m"
    ensures ScaleName(tonic, NormalizeMode("lydian")) == tonic + "(lyd)"
    ensures ModeAlias(NormalizeMode(mode)) == "major" <==> mode in {"", "major", "M", "ionian"}
    ensures ModeAlias(NormalizeMode(mode)) == "minor" <==> mode in {"minor", "m", "aeolian"}
  {
    assert "lydian"[..3] == "lyd";
  }

  // ---------------------------------------------------------------------------------------
  // Signature

  /** The signed count of `getSignature`: the tonic letter's place among F, C, G, D, A, E, B,
      minus one, less the mode's place on the circle, plus one; negative for flats. */
  function SignedCount(tonic: string, mode: string): int
  {
    IndexOf(NON_ACCIDENTALS, CharAt(tonic, 0)) - 1 - IndexOf(MODE_NAMES, mode) + 1
  }

  /** A tonic with an accidental keeps it and takes the complement of the count to 7; a natural
      tonic takes the count's sign as its accidental. */
  function SignatureOfCount(accidental: string, count: int): Signature
  {
    if accidental != "" then Signature(accidental, Abs(7 - Abs(count)))
    else Signature(if count < 0 then "b" else if count > 0 then "#" else "", Abs(count))
  }

  /** `getSignature(tonic, mode)`, the accidental being all of the tonic after its letter. */
  function GetSignature(tonic: string, mode: string): (r: Signature)
    ensures r.count >= 0
    ensures |tonic| >= 2 ==> r.accidental == tonic[1..]
    ensures |tonic| <= 1 ==> r.accidental in {"", "#", "b"} && (r.accidental == "" <==> r.count == 0)
  {
    SignatureOfCount(if |tonic| <= 1 then "" else tonic[1..], SignedCount(tonic, mode))
  }

  /** The place of each natural letter among F, C, G, D, A, E, B. */
  function FifthsIndex(l: Letter): int
  {
    match l
    case F => 0 case C => 1 case G => 2 case D => 3 case A => 4 case E => 5 case B => 6
  }

  /** The places on the circle run from 0 to 6. */
  lemma FifthsIndexRange(l: Letter)
    ensures 0 <= FifthsIndex(l) <= 6
  {
  }

  lemma NonAccidentalIndex(l: Letter)
    ensures IndexOf(NON_ACCIDENTALS, [LetterChar(l)]) == FifthsIndex(l)
  {
    assert NON_ACCIDENTALS[0] == "F" && NON_ACCIDENTALS[1] == "C" && NON_ACCIDENTALS[2] == "G";
    assert NON_ACCIDENTALS[3] == "D" && NON_ACCIDENTALS[4] == "A" && NON_ACCIDENTALS[5] == "E";
  }

  /** Any count in -6..7 gives a count in 0..7, and one of at most 6 on a natural tonic unless
      the raw count was 7; an accidental is kept, and a natural tonic gets "", "#" or "b". */
  lemma SignatureOfAnyCount(accidental: string, count: int)
    requires -6 <= count <= 7
    ensures 0 <= SignatureOfCount(accidental, count).count <= 7
    ensures accidental == "" && count <= 6 ==> SignatureOfCount(accidental, count).count <= 6
    ensures accidental != "" ==> SignatureOfCount(accidental, count).accidental == accidental
    ensures accidental == "" ==> SignatureOfCount(accidental, count).accidental in {"", "#", "b"}
  {
  }

  /** For a note name and one of the seven modes the signed count is the letter's place on the
      circle less the mode's, which lies within -6..6. */
  lemma SignedCountOfName(n: NoteName, mode: string)
    requires mode in MODE_NAMES
    ensures SignedCount(NameText(n), mode) == FifthsIndex(n.letter) - IndexOf(MODE_NAMES, mode)
    ensures -6 <= SignedCount(NameText(n), mode) <= 6
  {
    NonAccidentalIndex(n.letter);
    ModeIndexRange(mode);
    assert CharAt(NameText(n), 0) == [LetterChar(n.letter)];
  }

  /** A count within -6..6 gives 0..6 accidentals for a natural tonic, signed by the count, and
      1..7 of the tonic's own accidental otherwise. */
  lemma SignatureOfCountBounds(accidental: string, count: int)
    requires -6 <= count <= 6
    ensures accidental == "" ==> 0 <= SignatureOfCount(accidental, count).count <= 6
    ensures accidental != "" ==> 1 <= SignatureOfCount(accidental, count).count <= 7
    ensures accidental != "" ==> SignatureOfCount(accidental, count).accidental == accidental
    ensures accidental == "" ==> (SignatureOfCount(accidental, count).accidental == "#" <==> count > 0)
    ensures accidental == "" ==> (SignatureOfCount(accidental, count).accidental == "b" <==> count < 0)
  {
  }

  /** For a note name and one of the seven modes the signature keeps an accidental tonic's
      accidental with 1..7 of it; a natural tonic gets at most 6 sharps or flats. */
  lemma SignatureOfName(n: NoteName, mode: string)
    requires mode in MODE_NAMES
    ensures GetSignature(NameText(n), mode) ==
      SignatureOfCount(AccidentalText(n.accidental), FifthsIndex(n.letter) - IndexOf(MODE_NAMES, mode))
    ensures n.accidental == Natural ==> 0 <= GetSignature(NameText(n), mode).count <= 6
    ensures n.accidental != Natural ==> 1 <= GetSignature(NameText(n), mode).count <= 7
    ensures n.accidental != Natural ==> GetSignature(NameText(n), mode).accidental == AccidentalText(n.accidental)
  {
    SignedCountOfName(n, mode);
    assert NameText(n)[1..] == AccidentalText(n.accidental);
    SignatureOfCountBounds(AccidentalText(n.accidental), FifthsIndex(n.letter) - IndexOf(MODE_NAMES, mode));
  }

  /** Documented signature: Eb minor has 6 flats. */
  lemma SignatureOfEFlatMinor()
    ensures GetSignature(NameText(NoteName(E, Flat)), "aeolian") == Signature("b", 6)
  {
    ModeIndex(4);
    SignatureOfName(NoteName(E, Flat), "aeolian");
  }

  /** Documented signature: C# lydian has 6 sharps. */
  lemma SignatureOfCSharpLydian()
    ensures GetSignature(NameText(NoteName(C, Sharp)), "lydian") == Signature("#", 6)
  {
    ModeIndex(0);
    SignatureOfName(NoteName(C, Sharp), "lydian");
  }

  /** Documented signature: E# ionian has 3 sharps. */
  lemma SignatureOfESharpIonian()
    ensures GetSignature(NameText(NoteName(E, Sharp)), "ionian") == Signature("#", 3)
  {
    ModeIndex(1);
    SignatureOfName(NoteName(E, Sharp), "ionian");
  }

  // ---------------------------------------------------------------------------------------
  // Notes and chords

  /** `getNoteInScale`: the alias, when there is one, the note's accidental differs from the
      tonic's and the alias's accidental is the signature's. */
  function NoteInScale(note: Note, tonic: Note, sig: Signature): (r: Note)
    ensures r.octave == note.octave && NoteNumber(r) == NoteNumber(note)
  {
    match Alias(note)
    case None => note
    case Some(alias) =>
      if AccidentalOf(note) != AccidentalOf(tonic) && AccidentalText(AccidentalOf(alias)) == sig.accidental
      then alias else note
  }

  /** The tonic transposed by each interval, in standard spelling. */
  function Transposed(tonic: Note, ints: seq<int>): (r: seq<Note>)
    ensures |r| == |ints|
  {
    seq(|ints|, k requires 0 <= k < |ints| => Transpose(tonic, ints[k]))
  }

  /** Each note respelled to the signature. */
  function Respelled(notes: seq<Note>, tonic: Note, sig: Signature): (r: seq<Note>)
    ensures |r| == |notes|
  {
    seq(|notes|, k requires 0 <= k < |notes| => NoteInScale(notes[k], tonic, sig))
  }

  /** The body of `getNotesInScale`: one note per interval, the tonic transposed by it and
      respelled to the signature. */
  function ScaleNotes(tonic: Note, ints: seq<int>, sig: Signature): (r: seq<Note>)
    ensures |r| == |ints|
  {
    Respelled(Transposed(tonic, ints), tonic, sig)
  }

  /** A scale's first note, at interval 0, is its tonic in standard spelling respelled to the
      signature. */
  lemma ScaleTonic(tonic: Note, ints: seq<int>, sig: Signature)
    requires |ints| > 0 && ints[0] == 0
    ensures ScaleNotes(tonic, ints, sig)[0] ==
      NoteInScale(Note(STANDARD_NOTE_NAMES[Number(tonic.name)], tonic.octave), tonic, sig)
  {
    NumberOfSpelling(tonic.name);
    StandardNote(Number(tonic.name), tonic.octave);
  }

  /** Note k lies at the tonic's pitch plus interval k, whatever the signature. */
  lemma ScaleNoteNumber(tonic: Note, ints: seq<int>, sig: Signature, k: int)
    requires 0 <= k < |ints|
    ensures NoteNumber(ScaleNotes(tonic, ints, sig)[k]) == (Number(tonic.name) + ints[k]) % 12
  {
    TransposePitch(tonic, ints[k]);
  }

  /** `getNotesInScale`: the tonic text resolved at octave 4, then the mode's notes; an invalid
      tonic fails first, then a mode without intervals. */
  function NotesOf(tonic: string, mode: string): (r: Result<seq<Note>>)
    ensures r.Ok? ==> |r.value| == 7
  {
    match GetNoteByName(tonic, 4)
    case Err(e) => Err(e)
    case Ok(t) =>
      match ModeIntervals(mode)
      case None => Err(UndefinedAccess("intervals.map"))
      case Some(ints) => Ok(ScaleNotes(t, ints, GetSignature(tonic, mode)))
  }

  /** A scale has notes exactly for a valid tonic and one of the seven modes. */
  lemma NotesOfDefined(tonic: string, mode: string)
    ensures NotesOf(tonic, mode).Ok? <==> ParseNoteName(tonic).Some? && mode in MODE_NAMES
  {
    ModeIntervalsShape(mode);
  }

  /** For a valid tonic and one of the seven modes, the notes are the tonic's, at octave 4,
      along the mode's row of seven rising intervals. */
  lemma NotesOfOk(tonic: string, mode: string)
    requires ParseNoteName(tonic).Some? && mode in MODE_NAMES
    ensures ModeIntervals(mode).Some? && IsModeRow(ModeIntervals(mode).value)
    ensures NotesOf(tonic, mode) ==
      Ok(ScaleNotes(Note(ParseNoteName(tonic).value, 4), ModeIntervals(mode).value, GetSignature(tonic, mode)))
  {
    ModeIntervalsShape(mode);
  }

  /** For a valid tonic and one of the seven modes, the first note is the tonic, at octave 4,
      transposed by nothing and respelled to the signature. */
  lemma NotesOfFirst(tonic: string, mode: string)
    requires ParseNoteName(tonic).Some? && mode in MODE_NAMES
    ensures NotesOf(tonic, mode).Ok?
    ensures var t := Note(ParseNoteName(tonic).value, 4);
      NotesOf(tonic, mode).value[0] == NoteInScale(Transpose(t, 0), t, GetSignature(tonic, mode))
  {
    NotesOfOk(tonic, mode);
  }

  /** Eb minor, spelled Eb F Gb Ab Bb Cb Db. */
  const E_FLAT_MINOR: seq<Note> := [
    Note(NoteName(E, Flat), 4), Note(NoteName(F, Natural), 4), Note(NoteName(G, Flat), 4),
    Note(NoteName(A, Flat), 4), Note(NoteName(B, Flat), 4), Note(NoteName(C, Flat), 4),
    Note(NoteName(D, Flat), 5)]

  /** The aeolian intervals 0, 2, 3, 5 from Eb4 give, in standard spelling, Eb F F# Ab. */
  lemma EFlatMinorLower()
    ensures var t := E_FLAT_MINOR[0];
      Transpose(t, 0) == t && Transpose(t, 2) == Note(NoteName(F, Natural), 4) &&
      Transpose(t, 3) == Note(NoteName(F, Sharp), 4) && Transpose(t, 5) == Note(NoteName(A, Flat), 4)
  {
  }

  /** The aeolian intervals 7, 8, 10 from Eb4 give, in standard spelling, Bb B C#5. */
  lemma EFlatMinorUpper()
    ensures var t := E_FLAT_MINOR[0];
      Transpose(t, 7) == Note(NoteName(B, Flat), 4) && Transpose(t, 8) == Note(NoteName(B, Natural), 4) &&
      Transpose(t, 10) == Note(NoteName(C, Sharp), 5)
  {
  }

  /** Respelled to 6 flats with the tonic Eb, these become Eb minor: F# becomes Gb, B becomes Cb
      (at the same octave number, as the alias keeps it) and C# becomes Db. */
  lemma EFlatMinorRespelled()
    ensures Respelled([E_FLAT_MINOR[0], Note(NoteName(F, Natural), 4), Note(NoteName(F, Sharp), 4), Note(NoteName(A, Flat), 4),
       Note(NoteName(B, Flat), 4), Note(NoteName(B, Natural), 4), Note(NoteName(C, Sharp), 5)], E_FLAT_MINOR[0], Signature("b", 6))
      == E_FLAT_MINOR
  {
  }

  /** The quality at a table index; an index outside the table reads as nothing (""). */
  function QualityAtIndex(i: int): string
  {
    if 0 <= i < |SCALE_QUALITIES| then SCALE_QUALITIES[i] else ""
  }

  /** The chords on a scale's notes: on note i the root-position chord of quality
      SCALE_QUALITIES[(i + offset) % 7], "" read as major. */
  function ChordsAt(notes: seq<Note>, offset: int): (r: seq<Chord>)
    ensures |r| == |notes|
  {
    seq(|notes|, i requires 0 <= i < |notes| => RootChord(notes[i].name, QualityAtIndex(JsRem(i + offset, 7))))
  }

  /** `getChordsInScale`: the offset is the mode's place in MODES. */
  function ChordsOf(notes: seq<Note>, mode: string): (r: seq<Chord>)
    ensures |r| == |notes|
  {
    ChordsAt(notes, IndexOf(MODES, mode))
  }

  /** Chord i is rooted on note i at octave 4, with the quality the offset selects. */
  lemma ChordsAtShape(notes: seq<Note>, offset: int, i: int)
    requires 0 <= offset < 7 && 0 <= i < |notes|
    ensures var q := SCALE_QUALITIES[(i + offset) % 7];
      ChordsAt(notes, offset)[i] == Chord(Note(notes[i].name, 4), if q == "" then "M" else q, Note(notes[i].name, 4))
  {
    JsRemFloor(i + offset, 7);
  }

  /** Each of the seven modes has its place in MODES as the chord offset. */
  lemma ModesOffset(mode: string)
    ensures mode in MODES <==> 0 <= IndexOf(MODES, mode) < 7
  {
  }

  /** `getChordInScale`: the chord's alias when the scale respells its root's accidental. */
  function ChordInScale(chord: Chord, tonicNote: Note, sig: Signature): (r: Result<Chord>)
    ensures r.Ok? ==> NoteNumber(r.value.root) == NoteNumber(chord.root)
    ensures r.Ok? && chord.quality != "" ==> r.value.quality == chord.quality
    ensures Alias(chord.root).None? ==> r == Ok(chord)
  {
    var note := NoteInScale(chord.root, tonicNote, sig);
    if ChordAccidental(chord) != AccidentalOf(note) then AliasChord(chord) else Ok(chord)
  }

  // ---------------------------------------------------------------------------------------
  // Parsing

  /** The pattern `([A-G]{1}[#|b]?)([m,M]?)`: the first letter A..G with an optional '#', '|'
      or 'b', then an optional 'm', ',' or 'M'; the result is the tonic text and whether that
      last character is "m". */
  function ParseTonicAndMode(text: string): (r: Option<(string, bool)>)
    ensures r.None? <==> forall k :: 0 <= k < |text| ==> !IsNoteLetter(text[k])
  {
    match FindNoteLetter(text, 0)
    case None => None
    case Some(i) =>
      var end := SkipOptional(text, i + 1, {'#', '|', 'b'});
      var modeEnd := SkipOptional(text, end, {'m', ',', 'M'});
      Some((text[i..end], text[end..modeEnd] == "m"))
  }

  /** A note name followed by "m" parses as that tonic in minor; alone or followed by "M" it
      parses as major. */
  lemma ParseTonicOfName(n: NoteName)
    ensures ParseTonicAndMode(NameText(n) + "m") == Some((NameText(n), true))
    ensures ParseTonicAndMode(NameText(n) + "M") == Some((NameText(n), false))
    ensures ParseTonicAndMode(NameText(n)) == Some((NameText(n), false))
  {
    var t := NameText(n);
    assert t[0] == LetterChar(n.letter);
    var s1, s2 := t + "m", t + "M";
    assert s1[0] == LetterChar(n.letter) && s2[0] == LetterChar(n.letter);
    assert SkipOptional(s1, 1, {'#', '|', 'b'}) == |t|;
    assert SkipOptional(s2, 1, {'#', '|', 'b'}) == |t|;
    assert SkipOptional(t, 1, {'#', '|', 'b'}) == |t|;
    assert s1[0..|t|] == t && s2[0..|t|] == t && t[0..|t|] == t;
    assert s1[|t|..|t| + 1] == "m";
    assert s2[|t|..|t| + 1] == "M";
  }

  // ---------------------------------------------------------------------------------------
  // The scale object

  /** A scale whose signature, notes and chords are computed on first access and kept. */
  class MusicScale {
    const tonic: string
    const mode: string
    const name: string
    const modeAlias: string
    var signatureCache: Option<Signature>
    var notesCache: Option<seq<Note>>
    var chordsCache: Option<seq<Chord>>

    /** The caches, once filled, hold what the computations give. */
    ghost predicate Valid()
      reads this
    {
      mode == NormalizeMode(mode) &&
      (notesCache.Some? ==> signatureCache.Some?) && (chordsCache.Some? ==> notesCache.Some?) &&
      (signatureCache.Some? ==> signatureCache.value == GetSignature(tonic, mode)) &&
      (notesCache.Some? ==> NotesOf(tonic, mode) == Ok(notesCache.value)) &&
      (chordsCache.Some? ==>
        NotesOf(tonic, mode).Ok? && chordsCache.value == ChordsOf(NotesOf(tonic, mode).value, mode))
    }

    /** `new MusicScale(tonic, mode)`: the mode normalised, the name and alias derived from it. */
    constructor(tonic: string, mode: string)
      ensures Valid()
      ensures this.tonic == tonic && this.mode == NormalizeMode(mode)
      ensures name == ScaleName(tonic, NormalizeMode(mode)) && modeAlias == ModeAlias(NormalizeMode(mode))
      ensures signatureCache.None? && notesCache.None? && chordsCache.None?
    {
      NormalizeModeFacts(mode);
      this.tonic := tonic;
      this.mode := NormalizeMode(mode);
      name := ScaleName(tonic, NormalizeMode(mode));
      modeAlias := ModeAlias(NormalizeMode(mode));
      signatureCache, notesCache, chordsCache := None, None, None;
    }

    /** `signature`: computed once, then returned from the cache. */
    method Signature() returns (r: Signature)
      requires Valid()
      modifies this
      ensures Valid() && r == GetSignature(tonic, mode)
      ensures signatureCache == Some(r) && notesCache == old(notesCache) && chordsCache == old(chordsCache)
    {
      if signatureCache.None? {
        signatureCache := Some(GetSignature(tonic, mode));
      }
      r := signatureCache.value;
    }

    /** `notes`: computed once (which reads the signature) and then returned from the cache. */
    method Notes() returns (r: Result<seq<Note>>)
      requires Valid()
      modifies this
      ensures Valid() && r == NotesOf(tonic, mode)
      ensures notesCache == (if r.Ok? then Some(r.value) else old(notesCache))
      ensures signatureCache == (if r.Ok? then Some(GetSignature(tonic, mode)) else old(signatureCache))
      ensures chordsCache == old(chordsCache)
    {
      if notesCache.Some? {
        return Ok(notesCache.value);
      }
      var notes := NotesOf(tonic, mode);
      if notes.Ok? {
        var _ := Signature();
        notesCache := Some(notes.value);
      }
      r := notes;
    }

    /** `tonicNote`: the first note of the scale. */
    method TonicNote() returns (r: Result<Note>)
      requires Valid()
      modifies this
      ensures Valid() && r == (match NotesOf(tonic, mode) case Err(e) => Err(e) case Ok(ns) => Ok(ns[0]))
      ensures notesCache == (if r.Ok? then Some(NotesOf(tonic, mode).value) else old(notesCache))
      ensures signatureCache == (if r.Ok? then Some(GetSignature(tonic, mode)) else old(signatureCache))
      ensures chordsCache == old(chordsCache)
    {
      var notes := Notes();
      if notes.Err? {
        return Err(notes.error);
      }
      r := Ok(notes.value[0]);
    }

    /** `chords`: computed once from the notes and then returned from the cache. */
    method Chords() returns (r: Result<seq<Chord>>)
      requires Valid()
      modifies this
      ensures Valid()
      ensures r == (match NotesOf(tonic, mode) case Err(e) => Err(e) case Ok(ns) => Ok(ChordsOf(ns, mode)))
      ensures chordsCache == (if r.Ok? then Some(r.value) else old(chordsCache))
      ensures notesCache == (if r.Ok? then Some(NotesOf(tonic, mode).value) else old(notesCache))
      ensures signatureCache == (if r.Ok? then Some(GetSignature(tonic, mode)) else old(signatureCache))
    {
      if chordsCache.Some? {
        return Ok(chordsCache.value);
      }
      var notes := Notes();
      if notes.Err? {
        return Err(notes.error);
      }
      chordsCache := Some(ChordsOf(notes.value, mode));
      r := Ok(chordsCache.value);
    }

    /** `hasAccidental`: the tonic text is longer than a letter, which for a note name means
        it carries an accidental. */
    function HasAccidental(): (r: bool)
      ensures ParseNoteName(tonic).Some? ==> (r <==> ParseNoteName(tonic).value.accidental != Natural)
    {
      |tonic| > 1
    }

    /** `getNoteInScale(number, octave)`: the note for the number respelled to the scale. */
    method GetNoteInScaleByNumber(number: int, octave: int) returns (r: Result<Note>)
      requires Valid()
      modifies this
      ensures Valid()
      ensures NotesOf(tonic, mode).Err? ==> r == Err(NotesOf(tonic, mode).error)
      ensures NotesOf(tonic, mode).Ok? ==> r == Ok(NoteInScale(GetNoteByNumber(number, octave),
        NotesOf(tonic, mode).value[0], GetSignature(tonic, mode)))
      ensures chordsCache == old(chordsCache)
    {
      var note := GetNoteByNumber(number, octave);
      var t := TonicNote();
      if t.Err? {
        return Err(t.error);
      }
      var sig := Signature();
      r := Ok(NoteInScale(note, t.value, sig));
    }

    /** `getNoteInScale(name, octave)`: the named note respelled to the scale. */
    method GetNoteInScaleByName(noteName: string, octave: int) returns (r: Result<Note>)
      requires Valid()
      modifies this
      ensures Valid()
      ensures GetNoteByName(noteName, octave).Err? ==> r == Err(InvalidNoteName(noteName))
      ensures GetNoteByName(noteName, octave).Ok? && NotesOf(tonic, mode).Err? ==> r == Err(NotesOf(tonic, mode).error)
      ensures GetNoteByName(noteName, octave).Ok? && NotesOf(tonic, mode).Ok? ==>
        r == Ok(NoteInScale(GetNoteByName(noteName, octave).value, NotesOf(tonic, mode).value[0], GetSignature(tonic, mode)))
      ensures chordsCache == old(chordsCache)
    {
      var note := GetNoteByName(noteName, octave);
      if note.Err? {
        return Err(note.error);
      }
      var t := TonicNote();
      if t.Err? {
        return Err(t.error);
      }
      var sig := Signature();
      r := Ok(NoteInScale(note.value, t.value, sig));
    }

    /** `getChordInScale(chord)`: the chord, or its alias when the scale respells its root. */
    method GetChordInScale(chord: Chord) returns (r: Result<Chord>)
      requires Valid()
      modifies this
      ensures Valid()
      ensures NotesOf(tonic, mode).Err? ==> r == Err(NotesOf(tonic, mode).error)
      ensures NotesOf(tonic, mode).Ok? ==> r == ChordInScale(chord, NotesOf(tonic, mode).value[0], GetSignature(tonic, mode))
      ensures chordsCache == old(chordsCache)
    {
      var t := TonicNote();
      if t.Err? {
        return Err(t.error);
      }
      var sig := Signature();
      r := ChordInScale(chord, t.value, sig);
    }
  }

  /** `parseScale`: the scale for the first tonic in the text, minor when "m" follows it,
      otherwise major; no scale without a letter A..G. */
  method ParseScale(text: string) returns (r: MusicScale?)
    ensures ParseTonicAndMode(text).None? <==> r == null
    ensures r != null ==> fresh(r) && r.Valid()
    ensures r != null ==> r.tonic == ParseTonicAndMode(text).value.0
    ensures r != null ==> r.mode == (if ParseTonicAndMode(text).value.1 then "aeolian" else "ionian")
  {
    match ParseTonicAndMode(text)
    case None => return null;
    case Some((tonic, minor)) =>
      r := new MusicScale(tonic, if minor then "minor" else "major");
  }
}

/** The base of the newer scale hierarchy (scales/music-scale.ts): the interval table, the notes
    of a scale respelled to its signature, the respelling of single notes and chords, and the
    scale object, whose signature, notes and chords are computed on first access and kept. The
    three subclasses are told apart by a family tag and dispatch to their own modules. */
module MusicScaleBase {
  import opened Wrappers
  import opened Notes
  import opened Chords
  import opened ModeNames
  import LegacyScales
  import DiatonicScale
  import PentatonicScale
  import BluesScale
  import BluesScaleAlt

  // ---------------------------------------------------------------------------------------
  // The interval table and the notes of a scale

  /** `SCALE_INTERVALS`: the seven modes, the two blues scales and the pentatonic scale; every
      row starts at the tonic. */
  function ScaleIntervals(key: string): (r: Option<seq<int>>)
    ensures r.Some? <==> key in MODE_NAMES || key in {"blues_M", "blues_m", "pentatonic"}
    ensures r.Some? ==> |r.value| > 0 && r.value[0] == 0
  {
    if key == "blues_M" then Some([0, 2, 3, 4, 7, 9])
    else if key == "blues_m" then Some([0, 3, 5, 6, 7, 10])
    else if key == "pentatonic" then Some([0, 2, 4, 7, 9])
    else
      ModeIntervalsShape(key);
      ModeIntervals(key)
  }

  /** No mode is named like a blues or pentatonic row. */
  lemma ModeIsNoOtherRow(nm: string)
    requires nm in MODE_NAMES
    ensures nm != "blues_M" && nm != "blues_m" && nm != "pentatonic"
  {
    NotAModeName("blues_M");
    NotAModeName("blues_m");
    assert "pentatonic" !in MODE_NAMES by {
      assert |MODE_NAMES[0]| == 6 && |MODE_NAMES[1]| == 6 && MODE_NAMES[2][0] == 'm';
      assert |MODE_NAMES[3]| == 6 && |MODE_NAMES[4]| == 7 && |MODE_NAMES[5]| == 8 && |MODE_NAMES[6]| == 7;
    }
  }

  /** The blues rows of this table are the blues scale's own interval table, under the
      normalised mode names blues_M and blues_m. */
  lemma BluesRowsAgree(mode: string)
    requires mode in {"major", "minor"}
    ensures ScaleIntervals(BluesScaleAlt.NormalizedMode(mode)) == BluesScale.Intervals(mode)
  {
    var nm := BluesScaleAlt.NormalizedMode(mode);
    NotAModeName(nm);
    ModeIntervalsShape(nm);
  }

  /** `getNotesInScale`: the tonic transposed by each interval of the normalised mode and
      respelled to the signature; a mode missing from the table has no intervals to map. */
  function NotesInScale(tonic: Note, nm: string, sig: LegacyScales.Signature): (r: Result<seq<Note>>)
    ensures r.Ok? <==> ScaleIntervals(nm).Some?
    ensures r.Ok? ==> |r.value| == |ScaleIntervals(nm).value|
    ensures r.Err? ==> r.error == UndefinedAccess("intervals.map")
  {
    match ScaleIntervals(nm)
    case None => Err(UndefinedAccess("intervals.map"))
    case Some(ints) => Ok(LegacyScales.ScaleNotes(tonic, ints, sig))
  }

  /** Note k of a mode with intervals `ints` lies at the tonic's pitch plus interval k. */
  lemma NotesInScalePitch(tonic: Note, nm: string, sig: LegacyScales.Signature, ints: seq<int>, k: int)
    requires ScaleIntervals(nm) == Some(ints) && 0 <= k < |ints|
    ensures NotesInScale(tonic, nm, sig).Ok? && |NotesInScale(tonic, nm, sig).value| == |ints|
    ensures NoteNumber(NotesInScale(tonic, nm, sig).value[k]) == (Number(tonic.name) + ints[k]) % 12
  {
    assert NotesInScale(tonic, nm, sig) == Ok(LegacyScales.ScaleNotes(tonic, ints, sig));
    LegacyScales.ScaleNoteNumber(tonic, ints, sig, k);
  }

  /** Every natural spelling is the standard spelling of its pitch number. */
  lemma NaturalIsStandard(n: NoteName)
    ensures n.accidental == Natural ==> n == STANDARD_NOTE_NAMES[Number(n)]
  {
  }

  /** The tonic transposed by 0 and respelled carries the tonic's own name when an accidental
      tonic's accidental is the signature's: the transposition gives the standard spelling, and
      a tonic spelled otherwise is that spelling's alias. */
  lemma RespelledTonic(tonic: Note, sig: LegacyScales.Signature)
    requires HasAccidental(tonic) ==> sig.accidental == AccidentalText(AccidentalOf(tonic))
    ensures LegacyScales.NoteInScale(Transpose(tonic, 0), tonic, sig).name == tonic.name
  {
    var t := Transpose(tonic, 0);
    TransposePitch(tonic, 0);
    NumberOfSpelling(tonic.name);
    StandardOrAlias(tonic.name);
    NaturalIsStandard(tonic.name);
    if t.name != tonic.name {
      AliasInvolution(t.name);
      assert Alias(t) == Some(Note(tonic.name, t.octave));
    }
  }

  /** When an accidental tonic's accidental is the signature's, the first note carries the
      tonic's own name. */
  lemma TonicKeepsName(tonic: Note, nm: string, sig: LegacyScales.Signature)
    requires ScaleIntervals(nm).Some?
    requires HasAccidental(tonic) ==> sig.accidental == AccidentalText(AccidentalOf(tonic))
    ensures NotesInScale(tonic, nm, sig).value[0].name == tonic.name
  {
    var ints := ScaleIntervals(nm).value;
    assert LegacyScales.ScaleNotes(tonic, ints, sig)[0] == LegacyScales.NoteInScale(Transpose(tonic, 0), tonic, sig);
    RespelledTonic(tonic, sig);
  }

  // ---------------------------------------------------------------------------------------
  // Respelling notes and chords

  /** `getNoteInScale` gives the note or its alias, and the alias exactly when there is one, the
      note's accidental differs from the tonic's and the alias's accidental is the signature's. */
  lemma NoteInScaleRule(note: Note, tonic: Note, sig: LegacyScales.Signature)
    ensures var r := LegacyScales.NoteInScale(note, tonic, sig);
      r == note || Alias(note) == Some(r)
    ensures LegacyScales.NoteInScale(note, tonic, sig) != note <==>
      Alias(note).Some? && AccidentalOf(note) != AccidentalOf(tonic) &&
      AccidentalText(AccidentalOf(Alias(note).value)) == sig.accidental
  {
  }

  /** Respelling twice is respelling once: an alias never has the accidental of the note it
      replaced, so it is never swapped back. */
  lemma NoteInScaleIdempotent(note: Note, tonic: Note, sig: LegacyScales.Signature)
    ensures var r := LegacyScales.NoteInScale(note, tonic, sig);
      LegacyScales.NoteInScale(r, tonic, sig) == r
  {
    var r := LegacyScales.NoteInScale(note, tonic, sig);
    if r != note {
      AliasInvolution(note.name);
      assert Alias(r) == Some(note);
      assert AccidentalText(AccidentalOf(note)) != AccidentalText(AccidentalOf(r));
    }
  }

  /** `getChordInScale` returns the chord itself exactly when the scale keeps its root's
      spelling, and otherwise the alias chord, which is rooted on the respelled root. */
  lemma ChordInScaleRule(chord: Chord, tonic: Note, sig: LegacyScales.Signature)
    ensures var root := LegacyScales.NoteInScale(chord.root, tonic, sig);
      (root == chord.root ==> LegacyScales.ChordInScale(chord, tonic, sig) == Ok(chord)) &&
      (root != chord.root ==> LegacyScales.ChordInScale(chord, tonic, sig) == AliasChord(chord)) &&
      (root != chord.root && AliasChord(chord).Ok? ==> AliasChord(chord).value.root == root)
  {
    AliasInvolution(chord.root.name);
  }

  // ---------------------------------------------------------------------------------------
  // The three kinds of scale

  /** The subclass a scale object belongs to. */
  datatype Family = Diatonic | Pentatonic | Blues

  /** The blues scale's constructor accepts only major and minor; the others accept any mode. */
  predicate Admissible(family: Family, mode: string)
  {
    family == Blues ==> mode in {"major", "minor"}
  }

  /** `getNormalizeMode`, by family. The blues scale of blues-scale.ts defines none, and as
      written its construction would fail at music-scale.ts:114; it is read as normalising the
      way blues-scales.ts does. */
  function NormalizedModeOf(family: Family, mode: string): (r: string)
    ensures family == Diatonic ==> r !in {"", "major", "M", "minor", "m"}
    ensures family == Pentatonic ==> r in {"pent_M", "pent_m"}
    ensures family == Blues ==> r in {"blues_M", "blues_m"}
  {
    match family
    case Diatonic => DiatonicScale.NormalizedMode(mode)
    case Pentatonic => PentatonicScale.NormalizedMode(mode)
    case Blues => BluesScaleAlt.NormalizedMode(mode)
  }

  /** `getName`, by family. */
  function NameOf(family: Family, tonic: Note, mode: string): (r: string)
    ensures |r| > |NameText(tonic.name)| && r[0] == LetterChar(tonic.name.letter)
  {
    match family
    case Diatonic => DiatonicScale.Name(tonic, mode)
    case Pentatonic => PentatonicScale.Name(tonic, mode)
    case Blues => BluesScale.Name(tonic, mode)
  }

  /** `getModeAlias`, by family: only the diatonic scale has one. */
  function ModeAliasOf(family: Family, mode: string): (r: string)
    ensures r != "" <==> family == Diatonic && mode in {"ionian", "major", "aeolian", "minor"}
  {
    if family == Diatonic then DiatonicScale.ModeAlias(mode) else ""
  }

  /** `getSignature`, by family: the diatonic one reads the normalised mode, the blues one the
      raw mode. */
  function SignatureOf(family: Family, tonic: Note, mode: string): (r: LegacyScales.Signature)
    requires Admissible(family, mode)
    ensures r.count >= 0
    ensures HasAccidental(tonic) ==> r.accidental == AccidentalText(AccidentalOf(tonic))
  {
    match family
    case Diatonic => DiatonicScale.Signature(tonic, NormalizedModeOf(family, mode))
    case Pentatonic => PentatonicScale.Signature(tonic)
    case Blues => BluesScale.Signature(tonic, mode)
  }

  /** The `notes` getter's value. */
  function NotesOf(family: Family, tonic: Note, mode: string): (r: Result<seq<Note>>)
    requires Admissible(family, mode)
    ensures r.Ok? <==> ScaleIntervals(NormalizedModeOf(family, mode)).Some?
    ensures r.Ok? ==> |r.value| > 0
  {
    NotesInScale(tonic, NormalizedModeOf(family, mode), SignatureOf(family, tonic, mode))
  }

  /** `getChordsInScale`, by family: the diatonic chords are built on the notes (and fail with
      them); the other scales have none. */
  function ChordsOf(family: Family, tonic: Note, mode: string): (r: Result<seq<Chord>>)
    requires Admissible(family, mode)
    ensures family != Diatonic ==> r == Ok([])
    ensures family == Diatonic ==> r.Ok? == NotesOf(family, tonic, mode).Ok?
    ensures r.Ok? && family == Diatonic ==> |r.value| == |NotesOf(family, tonic, mode).value|
  {
    if family == Diatonic then
      match NotesOf(family, tonic, mode)
      case Err(e) => Err(e)
      case Ok(notes) => Ok(DiatonicScale.ChordsInScale(notes, NormalizedModeOf(family, mode)))
    else Ok([])
  }

  /** Every scale's first note carries its tonic's name, since every family's signature takes
      an accidental tonic's accidental. */
  lemma FirstNoteIsTonic(family: Family, tonic: Note, mode: string)
    requires Admissible(family, mode) && NotesOf(family, tonic, mode).Ok?
    ensures NotesOf(family, tonic, mode).value[0].name == tonic.name
  {
    var nm := NormalizedModeOf(family, mode);
    var sig := SignatureOf(family, tonic, mode);
    assert NotesOf(family, tonic, mode) == NotesInScale(tonic, nm, sig);
    if family == Diatonic {
      DiatonicScale.SignatureBounds(tonic, nm);
    } else if family == Blues {
      BluesScale.SignatureRule(tonic, mode);
    }
    TonicKeepsName(tonic, nm, sig);
  }

  /** A diatonic scale in one of the seven modes has seven notes. */
  lemma DiatonicNotes(tonic: Note, mode: string)
    requires DiatonicScale.NormalizedMode(mode) in MODE_NAMES
    ensures NotesOf(Diatonic, tonic, mode).Ok? && |NotesOf(Diatonic, tonic, mode).value| == 7
  {
    var nm := DiatonicScale.NormalizedMode(mode);
    var sig := SignatureOf(Diatonic, tonic, mode);
    assert NotesOf(Diatonic, tonic, mode) == NotesInScale(tonic, nm, sig);
    ModeIsNoOtherRow(nm);
    ModeIntervalsShape(nm);
  }

  /** The diatonic chords are built one per note, chord i on note i, whenever there are notes. */
  lemma DiatonicChords(tonic: Note, mode: string, i: int)
    requires NotesOf(Diatonic, tonic, mode).Ok? && 0 <= i < |NotesOf(Diatonic, tonic, mode).value|
    ensures ChordsOf(Diatonic, tonic, mode).Ok?
    ensures |ChordsOf(Diatonic, tonic, mode).value| == |NotesOf(Diatonic, tonic, mode).value|
    ensures ChordsOf(Diatonic, tonic, mode).value[i].root == Note(NotesOf(Diatonic, tonic, mode).value[i].name, 4)
  {
    var nm := DiatonicScale.NormalizedMode(mode);
    var notes := NotesOf(Diatonic, tonic, mode).value;
    assert ChordsOf(Diatonic, tonic, mode) == Ok(DiatonicScale.ChordsInScale(notes, nm));
    if nm in LegacyScales.MODES {
      DiatonicScale.ChordsShape(notes, nm, i);
    } else {
      DiatonicScale.ChordsShapeOtherMode(notes, nm, i);
    }
  }

  /** A pentatonic scale has no notes: its normalised modes pent_M and pent_m are not in the
      interval table. */
  lemma PentatonicHasNoNotes(tonic: Note, mode: string)
    ensures NotesOf(Pentatonic, tonic, mode) == Err(UndefinedAccess("intervals.map"))
  {
    var nm := PentatonicScale.NormalizedMode(mode);
    assert nm !in MODE_NAMES by {
      ModeIndexRange(nm);
    }
    assert ScaleIntervals(nm).None?;
  }

  /** A blues scale has six notes, note k at the tonic's pitch plus interval k of its own
      table. */
  lemma BluesNotes(tonic: Note, mode: string, k: int)
    requires mode in {"major", "minor"} && 0 <= k < 6
    ensures NotesOf(Blues, tonic, mode).Ok? && |NotesOf(Blues, tonic, mode).value| == 6
    ensures NoteNumber(NotesOf(Blues, tonic, mode).value[k]) == (Number(tonic.name) + BluesScale.Intervals(mode).value[k]) % 12
  {
    var ints := BluesScale.Intervals(mode).value;
    BluesRowsAgree(mode);
    NotesOfPitch(Blues, tonic, mode, ints, k);
  }

  /** Note k of a scale whose normalised mode has intervals `ints` lies at the tonic's pitch
      plus interval k. */
  lemma NotesOfPitch(family: Family, tonic: Note, mode: string, ints: seq<int>, k: int)
    requires Admissible(family, mode) && ScaleIntervals(NormalizedModeOf(family, mode)) == Some(ints)
    requires 0 <= k < |ints|
    ensures NotesOf(family, tonic, mode).Ok? && |NotesOf(family, tonic, mode).value| == |ints|
    ensures NoteNumber(NotesOf(family, tonic, mode).value[k]) == (Number(tonic.name) + ints[k]) % 12
  {
    NotesInScalePitch(tonic, NormalizedModeOf(family, mode), SignatureOf(family, tonic, mode), ints, k);
  }

  /** The pentatonic and blues scales have no mode alias and no chords, whatever their notes. */
  lemma NonDiatonicHasNoChords(family: Family, tonic: Note, mode: string)
    requires family != Diatonic && Admissible(family, mode)
    ensures ModeAliasOf(family, mode) == "" && ChordsOf(family, tonic, mode) == Ok([])
  {
  }

  // ---------------------------------------------------------------------------------------
  // The scale object

  /** `AbstractMusicScale`: the tonic, the raw and normalised mode, the name and the mode alias
      are fixed at construction; the signature, notes and chords are computed on first access
      and then kept. */
  class MusicScale {
    const family: Family
    const tonic: Note
    const mode: string
    const normalizedMode: string
    const name: string
    const modeAlias: string
    var signatureCache: Option<LegacyScales.Signature>
    var notesCache: Option<seq<Note>>
    var chordsCache: Option<seq<Chord>>

    /** The constant fields are derived from the tonic and the mode; a filled cache holds what
        its computation gives, and computing the notes fills the signature's cache, as
        computing the diatonic chords fills the notes'. */
    ghost predicate Valid()
      reads this
    {
      Admissible(family, mode) &&
      normalizedMode == NormalizedModeOf(family, mode) && name == NameOf(family, tonic, mode) &&
      modeAlias == ModeAliasOf(family, mode) &&
      (signatureCache.Some? ==> signatureCache.value == SignatureOf(family, tonic, mode)) &&
      (notesCache.Some? ==> signatureCache.Some? && NotesOf(family, tonic, mode) == Ok(notesCache.value)) &&
      (chordsCache.Some? ==> ChordsOf(family, tonic, mode) == Ok(chordsCache.value)) &&
      (chordsCache.Some? && family == Diatonic ==> notesCache.Some?)
    }

    /** The subclass constructor: the base fields derived from the tonic and the mode, every
        cache empty. */
    constructor(family: Family, tonic: Note, mode: string)
      requires Admissible(family, mode)
      ensures Valid()
      ensures this.family == family && this.tonic == tonic && this.mode == mode
      ensures signatureCache.None? && notesCache.None? && chordsCache.None?
    {
      this.family := family;
      this.tonic := tonic;
      this.mode := mode;
      normalizedMode := NormalizedModeOf(family, mode);
      name := NameOf(family, tonic, mode);
      modeAlias := ModeAliasOf(family, mode);
      signatureCache, notesCache, chordsCache := None, None, None;
    }

    /** `signature`: computed once, then returned from the cache. */
    method Signature() returns (r: LegacyScales.Signature)
      requires Valid()
      modifies this
      ensures Valid() && r == SignatureOf(family, tonic, mode)
      ensures signatureCache == Some(r) && notesCache == old(notesCache) && chordsCache == old(chordsCache)
    {
      if signatureCache.None? {
        signatureCache := Some(SignatureOf(family, tonic, mode));
      }
      r := signatureCache.value;
    }

    /** `notes`: computed once and then returned from the cache. The signature is read only
        inside the map over the intervals, so a mode without intervals fails before it is read
        and leaves its cache as it was. */
    method Notes() returns (r: Result<seq<Note>>)
      requires Valid()
      modifies this
      ensures Valid() && r == NotesOf(family, tonic, mode)
      ensures notesCache == (if r.Ok? then Some(r.value) else old(notesCache))
      ensures signatureCache == (if r.Ok? then Some(SignatureOf(family, tonic, mode)) else old(signatureCache))
      ensures chordsCache == old(chordsCache)
    {
      if notesCache.Some? {
        return Ok(notesCache.value);
      }
      if ScaleIntervals(normalizedMode).None? {
        return Err(UndefinedAccess("intervals.map"));
      }
      var sig := Signature();
      r := NotesInScale(tonic, normalizedMode, sig);
      notesCache := Some(r.value);
    }

    /** `chords`: computed once and then returned from the cache; only the diatonic chords
        read the notes. */
    method Chords() returns (r: Result<seq<Chord>>)
      requires Valid()
      modifies this
      ensures Valid() && r == ChordsOf(family, tonic, mode)
      ensures chordsCache == (if r.Ok? then Some(r.value) else old(chordsCache))
      ensures family != Diatonic || old(chordsCache).Some? ==>
        notesCache == old(notesCache) && signatureCache == old(signatureCache)
      ensures family == Diatonic && old(chordsCache).None? ==>
        notesCache == (if r.Ok? then Some(NotesOf(family, tonic, mode).value) else old(notesCache)) &&
        signatureCache == (if r.Ok? then Some(SignatureOf(family, tonic, mode)) else old(signatureCache))
    {
      if chordsCache.Some? {
        return Ok(chordsCache.value);
      }
      if family != Diatonic {
        chordsCache := Some([]);
        return Ok([]);
      }
      var notes := Notes();
      if notes.Err? {
        return Err(notes.error);
      }
      chordsCache := Some(DiatonicScale.ChordsInScale(notes.value, normalizedMode));
      r := Ok(chordsCache.value);
    }

    /** `getNoteInScale(note)`: the note respelled to this scale's tonic and signature. */
    method GetNoteInScale(note: Note) returns (r: Note)
      requires Valid()
      modifies this
      ensures Valid() && r == LegacyScales.NoteInScale(note, tonic, SignatureOf(family, tonic, mode))
      ensures signatureCache == Some(SignatureOf(family, tonic, mode))
      ensures notesCache == old(notesCache) && chordsCache == old(chordsCache)
    {
      var sig := Signature();
      r := LegacyScales.NoteInScale(note, tonic, sig);
    }

    /** `getNoteInScale(name)`: the named note at octave 4, respelled; an invalid name fails
        before the signature is read. */
    method GetNoteInScaleByName(noteName: string) returns (r: Result<Note>)
      requires Valid()
      modifies this
      ensures Valid()
      ensures GetNoteByName(noteName, 4).Err? ==> r == Err(InvalidNoteName(noteName)) && signatureCache == old(signatureCache)
      ensures GetNoteByName(noteName, 4).Ok? ==>
        r == Ok(LegacyScales.NoteInScale(GetNoteByName(noteName, 4).value, tonic, SignatureOf(family, tonic, mode))) &&
        signatureCache == Some(SignatureOf(family, tonic, mode))
      ensures notesCache == old(notesCache) && chordsCache == old(chordsCache)
    {
      var note := GetNoteByName(noteName, 4);
      if note.Err? {
        return Err(note.error);
      }
      var n := GetNoteInScale(note.value);
      r := Ok(n);
    }

    /** `getChordInScale(chord)`: the chord, or its alias when the scale respells its root. */
    method GetChordInScale(chord: Chord) returns (r: Result<Chord>)
      requires Valid()
      modifies this
      ensures Valid() && r == LegacyScales.ChordInScale(chord, tonic, SignatureOf(family, tonic, mode))
      ensures signatureCache == Some(SignatureOf(family, tonic, mode))
      ensures notesCache == old(notesCache) && chordsCache == old(chordsCache)
    {
      var sig := Signature();
      r := LegacyScales.ChordInScale(chord, tonic, sig);
    }

    /** `equals`: the two scales have the same name. */
    predicate Equals(other: MusicScale)
      ensures this == other ==> Equals(other)
    {
      name == other.name
    }

    /** `isSameAs`: the same tonic pitch, and the other scale's mode is this one's mode or this
        one's mode alias. */
    predicate IsSameAs(other: MusicScale)
      ensures this == other ==> IsSameAs(other)
      ensures IsSameAs(other) ==> NoteNumber(tonic) == NoteNumber(other.tonic)
    {
      NoteNumber(tonic) == NoteNumber(other.tonic) && (mode == other.mode || modeAlias == other.mode)
    }
  }

  /** The subclass constructors, with the blues scale's mode check. */
  method NewScale(family: Family, tonic: Note, mode: string) returns (r: Result<MusicScale>)
    ensures r.Err? <==> !Admissible(family, mode)
    ensures r.Err? ==> r.error == InvalidBluesMode(mode)
    ensures r.Ok? ==> fresh(r.value) && r.value.Valid()
    ensures r.Ok? ==> r.value.family == family && r.value.tonic == tonic && r.value.mode == mode
    ensures r.Ok? ==> r.value.signatureCache.None? && r.value.notesCache.None? && r.value.chordsCache.None?
  {
    if family == Blues {
      var checked := BluesScale.CheckMode(mode);
      if checked.Err? {
        return Err(checked.error);
      }
    }
    var scale := new MusicScale(family, tonic, mode);
    r := Ok(scale);
  }

  /** C# major and Db major are the same scale by pitch but not equal, their names differing. */
  lemma SameAsButNotEqual(a: MusicScale, b: MusicScale)
    requires a.Valid() && b.Valid() && a.family == Diatonic && b.family == Diatonic
    requires a.tonic == Note(NoteName(C, Sharp), 4) && b.tonic == Note(NoteName(D, Flat), 4)
    requires a.mode == "major" && b.mode == "major"
    ensures a.IsSameAs(b) && b.IsSameAs(a) && !a.Equals(b)
  {
    assert a.name[1] == '#' && b.name[1] == 'b';
  }

  /** C major and C ionian are the same scale in both directions through the mode alias, but
      not equal, being named "CM" and "C(ion)". */
  lemma MajorSameAsIonian(a: MusicScale, b: MusicScale)
    requires a.Valid() && b.Valid() && a.family == Diatonic && b.family == Diatonic
    requires a.tonic == b.tonic && a.mode == "major" && b.mode == "ionian"
    ensures a.IsSameAs(b) && b.IsSameAs(a) && !a.Equals(b)
  {
    DiatonicScale.NameOfModes(a.tonic);
  }

  // ---------------------------------------------------------------------------------------
  // Equality by name

  /** The first three letters of a mode, which tag a diatonic scale's name. */
  function ModeHead(mode: string): string
  {
    if |mode| <= 3 then mode else mode[..3]
  }

  /** Whether two modes read alike in the names of one family's scales: major stands apart in
      every family and minor in the diatonic one, and the other diatonic modes are told apart by
      their first three letters. */
  predicate SameModeWord(family: Family, m1: string, m2: string)
  {
    (m1 == "major" <==> m2 == "major") &&
    (family == Diatonic ==>
      (m1 == "minor" <==> m2 == "minor") &&
      (m1 != "major" && m1 != "minor" ==> ModeHead(m1) == ModeHead(m2)))
  }

  /** The part of a scale's name after the tonic. */
  function NameWord(family: Family, mode: string): (r: string)
    ensures |r| > 0 && r[0] in {'M', 'm', '('}
  {
    match family
    case Diatonic =>
      if mode == "major" then "M" else if mode == "minor" then "m" else LegacyScales.ModeTag(mode)
    case Pentatonic => (if mode == "major" then "M" else "m") + " Pentatonic"
    case Blues => (if mode == "major" then "M" else "m") + " Blues"
  }

  lemma NameOfSplit(family: Family, tonic: Note, mode: string)
    ensures NameOf(family, tonic, mode) == NameText(tonic.name) + NameWord(family, mode)
  {
  }

  /** The last character of the word names the family: M, m or ')' for a diatonic scale, 'c'
      for a pentatonic one and 's' for a blues one. */
  lemma NameWordEnd(family: Family, mode: string)
    ensures var w := NameWord(family, mode);
      match family
      case Diatonic => w[|w| - 1] in {'M', 'm', ')'}
      case Pentatonic => w[|w| - 1] == 'c'
      case Blues => w[|w| - 1] == 's'
  {
  }

  lemma TagSplit(m1: string, m2: string)
    requires LegacyScales.ModeTag(m1) == LegacyScales.ModeTag(m2)
    ensures ModeHead(m1) == ModeHead(m2)
  {
    var t1, t2 := LegacyScales.ModeTag(m1), LegacyScales.ModeTag(m2);
    assert ModeHead(m1) == t1[1..|t1| - 1];
    assert ModeHead(m2) == t2[1..|t2| - 1];
  }

  lemma NameWordIff(f1: Family, m1: string, f2: Family, m2: string)
    ensures NameWord(f1, m1) == NameWord(f2, m2) <==> f1 == f2 && SameModeWord(f1, m1, m2)
  {
    var w1, w2 := NameWord(f1, m1), NameWord(f2, m2);
    if w1 == w2 {
      NameWordEnd(f1, m1);
      NameWordEnd(f2, m2);
      assert f1 == f2;
      assert w1[0] == w2[0];
      if f1 == Diatonic && m1 != "major" && m1 != "minor" {
        TagSplit(m1, m2);
      }
    }
  }

  /** Two scales have the same name exactly when they are of one family, their tonics share a
      spelling and their modes read alike in that family's names. */
  lemma NamesDetermineScales(f1: Family, t1: Note, m1: string, f2: Family, t2: Note, m2: string)
    ensures NameOf(f1, t1, m1) == NameOf(f2, t2, m2) <==>
      f1 == f2 && t1.name == t2.name && SameModeWord(f1, m1, m2)
  {
    NameOfSplit(f1, t1, m1);
    NameOfSplit(f2, t2, m2);
    NameWordIff(f1, m1, f2, m2);
    if NameOf(f1, t1, m1) == NameOf(f2, t2, m2) {
      NameTextSplit(t1.name, NameWord(f1, m1), t2.name, NameWord(f2, m2));
    }
  }

  /** `equals` on two scales: of one family, tonics of one spelling, modes that read alike. */
  lemma EqualsByName(a: MusicScale, b: MusicScale)
    requires a.Valid() && b.Valid()
    ensures a.Equals(b) <==> a.family == b.family && a.tonic.name == b.tonic.name && SameModeWord(a.family, a.mode, b.mode)
  {
    NamesDetermineScales(a.family, a.tonic, a.mode, b.family, b.tonic, b.mode);
  }
}

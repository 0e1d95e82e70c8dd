# power-chord-music-theory in Dafny

A verified model of the core of the TypeScript library *power-chord-music-theory*. It covers:

- note spellings and pitch numbers;
- chords, their tones and their names, and the reverse chord lookup;
- scales in both hierarchies (the older `scales.ts` and the newer `scales/` classes) and keys;
- the circle of fifths and its wrap-around list;
- the chord-progression calculator;
- the guitar fretboard tables and the tab lookup;
- the accidental formatter.

There is one Dafny module per source file. Where the source computes a value, the module uses datatypes and functions. Where it changes state, it uses classes and methods:

- cached getters become classes with cache fields;
- loops that push, shift or sort become methods with loop invariants, proved against the functions that specify them;
- arrays reversed or sorted in place stay arrays.

| module | file | models |
|---|---|---|
| `Wrappers` | wrappers.dfy | `Option`, `Result` and the library's error cases; `indexOf` |
| `JsArith` | js_arith.dfy | JavaScript's truncating `%` next to Dafny's Euclidean one |
| `Sorting` | sorting.dfy | `Array.prototype.sort` as a stable insertion sort by a key |
| `Format` | format.dfy | util/format.ts |
| `CircularLists` | circular_list.dfy | util/circular-list.ts |
| `Notes` | notes.dfy | notes.ts |
| `Chords` | chords.dfy | chords.ts |
| `ChordLookup` | chord_lookup.dfy | chord-lookup.ts |
| `ModeNames` | mode_names.dfy | `MODE_NAMES` of circle-of-fifths.ts and the seven mode rows shared by both scale hierarchies |
| `LegacyScales` | legacy_scales.dfy | scales.ts |
| `MusicScaleBase` | music_scale_base.dfy | scales/music-scale.ts, with the abstract class and its three subclasses as one class tagged by family |
| `DiatonicScale`, `PentatonicScale`, `BluesScale`, `BluesScaleAlt` | diatonic_scale.dfy, pentatonic_scale.dfy, blues_scale.dfy, blues_scale_alt.dfy | the four subclass files |
| `ScaleFactory` | scale_factory.dfy | scales/index.ts |
| `Keys` | keys.dfy | keys.ts |
| `CircleOfFifths` | circle_of_fifths.dfy | circle-of-fifths.ts |
| `ChordProgression` | chord_progression.dfy | chord-progression-calculator.ts |
| `GuitarChords` | guitar_chords.dfy | guitar/build-guitar-chords.ts |
| `DefaultTuning` | default_tuning.dfy | guitar/default-tuning.ts |
| `GuitarLookup` | guitar_lookup.dfy | guitar/guitar-lookup-service.ts |

Decisions that shape the whole model:

- A note name is a letter and an accidental. The 21 keys of the note table are exactly the seven letters, each bare, with `#` and with `b`.
- A note is a value of name and octave. The note pool (`Notes.NotePool`) returns the same object for the same spelling and octave, and different objects otherwise, so the model compares notes by value. This matters where the source compares objects: the bass check of a chord (chords.ts:113) and the bass test of getChordNotes (chords.ts:257).
- A thrown exception is an `Err` of `Result`, naming what failed. Examples: an unknown note name, an unknown quality, a bass that is not a chord tone, a blues scale in another mode, or reading past the end of a table.
- JavaScript's `for ... in` visits integer-like keys ("7", "9") first, then the others in insertion order. The barre table is written in that order. The quality lookup does not depend on order, because the 17 interval lists are pairwise different.

The files come from several revisions, and some references do not resolve. They are read as follows:

- `note.aliasNote` is `note.alias`.
- `chordIntervals` is `CHORD_INTERVALS`.
- `cof.circleModes` is `MODE_NAMES`.
- `new Note(x)` is `getNote(x)`, and `new Chord(a, q, b)` is `getChord(a, q, b)`.
- `getNormalizedMode` implements `getNormalizeMode`.
- The `BluesScale` that scales/index.ts:3 exports (scales/blues-scale.ts:44-77) never defines the abstract `getNormalizeMode` (scales/music-scale.ts:121). Read literally, that file does not compile, and the constructor call `this.getNormalizeMode()` (scales/music-scale.ts:114) would throw a TypeError for every blues scale. The model reads the missing method as the one in the other blues file, scales/blues-scales.ts:51-53: `blues_M` for major and `blues_m` otherwise. Every other member of the blues scale comes from scales/blues-scale.ts.
- `normalizeMode` is the one in scales.ts.
- `COF_NOTES.findIndex` is an index search over the list.
- `chord.rootNote` (scales.ts:196) is `chord.root`; the chord has no `rootNote`.
- `new Note(note.alias as NoteName, note.octave)` (keys.ts:105) takes the alias's name. Read literally, `note.alias` is a note object (notes.ts:136-138), and `getNote` would throw "First parameter must be a note name or number" (notes.ts:207-209).
- keys.ts imports `getScale` from "./scales". scales.ts does not export it, and the `getScale` of scales/index.ts returns a scale object, which has no `map` (keys.ts:124). Neither resolves. Only the pitch numbers of that scale are read, so the model builds them from the tonic and the ionian or aeolian intervals (`Keys.KeyIntervals`).
- circle-of-fifths.ts takes its `MusicScale` from scales.ts, where `tonic` is a name (scales.ts:28). Read literally, `tonic.number` is undefined, so `getTonicIndex` would give -1 (circle-of-fifths.ts:82,130), and `scale.getNoteInScale` of a note object would throw in `getNote` (scales.ts:100). The model looks the tonic up with `getNote(tonic)` and respells the circle note itself (`CircleOfFifths.FifthsOf`).
- chord-progression-calculator.ts also imports `MusicScale` from "./scales", but it reads `normalizedMode` (chord-progression-calculator.ts:93), which only the scales/ classes have. With scales.ts's class, whose `mode` is already normalised and which has no `normalizedMode`, the factory would reject every scale. So the calculator is modelled over the scales/ classes (`MusicScaleBase.MusicScale`). Under scales.ts `modeAlias` would be "minor" for a minor scale (scales.ts:40). The finding on chord-progression-calculator.ts:54 below holds only under the scales/ reading.

In the newer hierarchy, under the reading above, the blues scale normalises its mode to `blues_M` or `blues_m`, and its intervals are both that base-table row and its own table (`MusicScaleBase.BluesRowsAgree`). The pentatonic scale normalises to `pent_M` or `pent_m`, which have no row, so its notes fail exactly as the code does (`MusicScaleBase.PentatonicHasNoNotes`).

In three places the code and the repository's own tests disagree. The model follows the code:

- Ddim/G# throws because its tones are spelled D, F, Ab (`Chords.DdimOverGSharpThrows`). spec/chords.spec.ts:53-55 expects a chord.
- `getChordFromNotes()` with no notes throws reading `notes[0]` (`ChordLookup.GetChordFromNotes`). spec/chord-lookup.spec.ts:65-67 expects undefined.
- A pentatonic signature has count 0 (`PentatonicScale.Signature`). spec/pentatonic-scale.spec.ts:21-23 expects other counts.

In one place the code and its own documentation disagree, and the model follows the code: the doc comment of `getNextChords` (chord-progression-calculator.ts:32-35) says only the root chord is returned for a chord that is not in the scale, but the code returns row 0 of the table, which suggests every chord of the scale (`ChordProgression.NextChordsShape`).

## Model

| member | source | states |
|---|---|---|
| Notes.ParseNoteNameIff | notes.ts:21-43 | the name table has exactly the 21 spellings as keys: a lookup succeeds on a text exactly when it is one of their names |
| Notes.NumberOfSpelling | notes.ts:21-43 | each spelling's number is its letter's pitch raised or lowered by the accidental, modulo 12, and lies in 0..11 |
| Notes.StandardNameNumber | notes.ts:6-7 | entry i of the standard name table has number i |
| Notes.AliasIsOtherSpelling | notes.ts:21-43 | a spelling's alias is exactly the other spelling with the same number |
| Notes.AliasInvolution | notes.ts:21-43 | the alias of an alias is the original name; an alias keeps the number and has a different accidental |
| Notes.NoAliasExactly | notes.ts:136-138 | D, G and A are exactly the spellings without an alias (see also notes.ts:26,35,38) |
| Notes.StandardOrAlias | notes.ts:21-43 | every spelling is the standard spelling of its number or that spelling's alias (see also notes.ts:7) |
| Notes.MidiAndKeyNumbers | notes.ts:128-134 | C4 has MIDI number 60 and key number 40; A0 has 21 and 1 |
| Notes.KeyNumber | notes.ts:132-134 | the key number is the MIDI number less 20, that is 12 times the octave plus the pitch number less 8 |
| Notes.Alias | notes.ts:136-138 | the alias note has the same octave and number and another name; it is missing exactly when the name has no alias |
| Notes.AccidentalIsSecondCharacter | notes.ts:144-158 | the accidental is the name's second character; hasAccidental holds iff isSharp or isFlat, which exclude each other and read "#" and "b" |
| Notes.HasAccidental | notes.ts:148-150 | `hasAccidental` holds exactly when the name has a second character |
| Notes.IsSharp | notes.ts:152-154 | `isSharp` holds exactly when the name's second character is "#" |
| Notes.IsFlat | notes.ts:156-158 | `isFlat` holds exactly when the name's second character is "b" |
| Notes.GetNoteByNumber | notes.ts:202-206 | getNote of a number gives the standard spelling of number mod 12 (floored), with octave + floor(number / 12), so the absolute pitch is octave * 12 + number |
| Notes.StandardNote | notes.ts:202-206 | a number in 0..11 gives its standard name at the given octave |
| Notes.GetNoteExamples | notes.ts:202-206 | -1 gives B3, -13 gives B2, 25 gives C#6 and 0 gives C4 |
| Notes.GetNoteByName | notes.ts:197-201 | getNote of a name succeeds exactly for the 21 table names, giving that name at the octave; any other name throws "<name> is not a valid note name" (see also notes.ts:117-126) |
| Notes.TransposePitch | notes.ts:160-162 | transpose(s) moves the absolute pitch and the MIDI number by exactly s and gives the standard spelling of (number + s) mod 12 |
| Notes.TransposeZeroRespells | notes.ts:202-206 | Db transposed by 0 is C#; B4 up one is C5; C4 down one is B3 (see also notes.ts:160-162) |
| Notes.EqualitiesByMidi | notes.ts:164-174 | equals holds iff the MIDI numbers are equal; equalsIgnoreOctave iff they agree modulo 12; isSameAs is equalsIgnoreOctave |
| Notes.NotePool.constructor | notes.ts:13 | the pool starts empty |
| Notes.NotePool.GetByName | notes.ts:197-216 | getNote by name looks in the pool under the text name followed by the octave before it checks the name: a pooled note is returned unchanged whatever the name; otherwise the table note is built and pooled under that key, or the call throws and the pool is unchanged; a table spelling always gets its own note |
| Notes.PoolKeyOfNames | notes.ts:211 | the keys of two spellings at two octaves are equal exactly when the spellings and octaves are |
| Notes.DecimalRoundTrip | notes.ts:211 | reading back the decimal text of a natural number gives the number, so different octaves print differently |
| Notes.PoolKeyCollision | notes.ts:211 | "C" at octave 14 and "C1" at octave 4 both have the key "C14", and "C1" is not a spelling |
| Notes.PooledCollision | notes.ts:211-215 | after getNote("C", 14), the call getNote("C1", 4), which throws on an empty pool, returns the pooled C14 |
| Notes.NotePool.GetByNumber | notes.ts:202-216 | getNote by number returns the standard spelling of the number at the shifted octave, from the pool when it is there, and records it under its key |
| Notes.FindNoteLetter | notes.ts:248 | the unanchored match starts at the first letter A..G, and no letter comes before it |
| Notes.SkipOptional | notes.ts:248 | an optional character class consumes one character exactly when it is present |
| Notes.ParseNoteWithoutLetter | notes.ts:247-254 | parseNote gives undefined exactly when the text has no letter A..G |
| Notes.ParseNoteOfText | notes.ts:247-254 | parsing a note's own name, with one octave digit or without, gives that note at the written octave or at 4 |
| Notes.ParseNoteComma | notes.ts:248-251 | a comma after the letter is matched by the class `[#,b]` and then rejected by getNote |
| Notes.GetNotesByNumber | notes.ts:229-241 | getNotes of numbers gives one note per number, each getNote at octave 4 |
| Notes.GetNotesByText | notes.ts:229-241 | getNotes of texts succeeds iff every text parses without throwing, and then gives each parse in order |
| Notes.SortNotes | notes.ts:269-276 | sortNotes sorts the caller's array in place, stably, by the number with 12 added below the root's |
| Notes.SortNotesFromFirst | notes.ts:269 | with no root, the first note is the root; an empty array is left as it is |
| Notes.PitchKeyRange | notes.ts:272-273 | each sort key lies in root..root+11, and a note gets the root's key exactly when it has the root's number |
| Notes.SortNotesPermutes | notes.ts:269-276 | the sorted notes are a permutation of the input, ascending by key |
| Notes.SortNotesRootFirst | notes.ts:269-276 | when some note has the root's number, the first sorted note has it |
| Notes.NormalizeNoteName | notes.ts:300-307 | normalizeNoteName keeps the number, never returns Db, D#, Gb, G# or A#, and changes a name exactly when it is one of those five |
| Notes.NormalizeIdempotent | notes.ts:300-307 | normalising twice is normalising once |
| Notes.ParseNoteName | notes.ts:21-43 | a text is looked up as a note name exactly when it spells one, and the name found spells that text; a text of one or two characters that is not a name starts with no letter A..G or has a second character other than '#' and 'b' |
| Notes.AliasName | notes.ts:21-43 | the alias is a different spelling of the same pitch number; only D, G and A have none |
| Notes.MidiNumber | notes.ts:128-130 | `midiNumber` mod 12 is the pitch number and its quotient by 12 is the octave + 1 |
| Notes.Transpose | notes.ts:160-162 | the transposed note sounds exactly `steps` semitones from the note, and takes the standard spelling of its pitch class |
| Notes.Equals | notes.ts:164-166 | `equals` holds exactly when both notes sound the same pitch (same number and octave) |
| Notes.EqualsIgnoreOctave | notes.ts:168-170 | `equalsIgnoreOctave` holds exactly when both notes share a pitch class |
| Notes.IsSameAs | notes.ts:172-174 | `isSameAs` holds exactly when both notes share a pitch class |
| Notes.ParseNote | notes.ts:247-254 | parseNote gives undefined exactly when the text holds no letter A..G; a note found has an octave of one digit, 0..9; the only error is an invalid note name |
| Chords.QualityIndex | chords.ts:230 | the index found holds the quality and none searched before it does; no index is found exactly when the quality is absent (see also chords.ts:9-27) |
| Chords.GetChordIntervals | chords.ts:229-236 | getChordIntervals succeeds exactly for the 17 table qualities, giving that entry's intervals, and otherwise throws "Unknown quality" |
| Chords.IntervalTableShape | chords.ts:9-27 | every interval list has at least two entries, starts at 0 and rises strictly; 9, M9 and m9 end in 14 and every other list stays in 0..11 |
| Chords.IntervalTableDistinct | chords.ts:9-27 | the quality names are distinct and so are the interval lists |
| Chords.GetChordIntervalsAt | chords.ts:229-236 | the lookup of entry k's name gives entry k's intervals (see also chords.ts:9-27) |
| Chords.SpellToneRule | chords.ts:250-253 | a computed tone keeps its pitch and octave, and is the alias of the standard spelling exactly when the alias exists, the standard accidental differs from the root's and the alias's equals it |
| Chords.RootPositionTonesShape | chords.ts:244-255 | the tone list has one tone per interval, the root first, and tone k has number (root + interval k) mod 12 at octave 4 |
| Chords.RootPositionTone | chords.ts:249-255 | tone k of the list has number (root + interval k) mod 12, at octave 4 for a non-negative interval |
| Chords.JsRemPitch | chords.ts:250 | the truncating remainder by 12 keeps the pitch class and lies in 0..11 for a non-negative dividend |
| Chords.RootPositionTonesOf | chords.ts:248-255 | a list of the root followed by each later interval's spelled tone is the tone list |
| Chords.FindSamePitch | chords.ts:259 | findIndex gives the first index whose note has the bass's number, or -1 when none has |
| Chords.RotateLeftStep | chords.ts:268-270 | one more left shift moves the first element to the end |
| Chords.RotateLeftMultiset | chords.ts:268-270 | a left rotation keeps every element |
| Chords.InvertedTonesRotate | chords.ts:266-272 | up to one full turn, `inversion` shifts are the left rotation by `inversion` |
| Chords.InvertNotes | chords.ts:266-272 | the shift/push loop gives the list after `inversion` shifts; -1 and 0 leave it alone |
| Chords.GetChordNotes | chords.ts:244-264 | getChordNotes pushes the root and one spelled tone per later interval, then rotates for a bass that is not the root note, and throws for an unknown quality |
| Chords.SlashChordTones | chords.ts:257-262 | for a slash chord the tones are the root-position tones rotated left to the first tone with the bass's pitch; the rotation keeps every tone and then starts at the bass's pitch (see also chords.ts:108) |
| Chords.MakeChordOutcome | chords.ts:108-118 | construction reads "" as M, always succeeds in root position, and for an inverted chord throws "Unknown quality" or "Bass note 'X' is not a member of this chord" exactly when the bass note (name and octave) is not among the tones |
| Chords.MakeRootPosition | chords.ts:108-118 | a chord whose bass has the root's pitch is always built |
| Chords.NameShape | chords.ts:117 | the name starts with the root's name, is root + quality (none for M) in root position, and ends with "/" + bass when inverted; a quality without "/" makes "/" appear exactly for inverted chords |
| Chords.IsInverted | chords.ts:104-106 | a chord is inverted exactly when its bass sounds another pitch class than its root |
| Chords.ChordAccidental | chords.ts:132-134 | a chord's accidental is the second character of its root's name |
| Chords.ChordHasAccidental | chords.ts:135-137 | `hasAccidental` holds exactly when the root's name has a second character, that is when the chord is sharp or flat |
| Chords.ChordIsSharp | chords.ts:138-140 | `isSharp` holds exactly when the root's name has "#" as its second character |
| Chords.ChordIsFlat | chords.ts:141-143 | `isFlat` holds exactly when the root's name has "b" as its second character |
| Chords.AliasChordFacts | chords.ts:119-125 | without a root alias aliasChord is the chord itself; a root-position chord moves wholly to the root's alias; a built alias chord has the root's alias and the same quality; an inverted chord with a root alias takes its bass's alias as bass, or keeps the bass when it has none |
| Chords.AliasChordExample | chords.ts:119-125 | F#sus4/C# has the alias chord Gbsus4/Db |
| Chords.GbSus4OverDb | chords.ts:108-118 | Gbsus4/Db is a valid chord: its bass Db is among its tones (see also chords.ts:244-264) |
| Chords.GbSus4Tones | chords.ts:244-255 | Gbsus4 is spelled Gb, Cb, Db |
| Chords.GbTonePitches | chords.ts:250 | a fourth and a fifth above Gb are pitches 11 and 1 |
| Chords.FlatSpellings | chords.ts:250-253 | on a flat root, pitch 11 is spelled Cb and pitch 1 Db |
| Chords.InversionFacts | chords.ts:144-154 | tones exist for a known quality, one per interval, so inversionCount is the interval count; getInversion outside 0..n-1 gives the chord in root position, and inside it, on a root-position chord, the chord over root-position tone i |
| Chords.InversionCount | chords.ts:144-146 | `inversionCount` is defined exactly for a quality of the table and is then the number of its intervals; any other quality throws the unknown-quality error |
| Chords.TransposeFacts | chords.ts:156-158 | a transposed chord keeps the quality and moves root and bass by the same steps; a chord whose bass is its root always transposes |
| Chords.SameAsRefinesIgnoreBass | chords.ts:168-177 | isSameAs holds exactly when equalsIgnoreBass holds and the bass numbers agree |
| Chords.GetChordByNameOfNames | chords.ts:194-203 | getChord on names builds the chord over the named notes at octave 4, the bass defaulting to the root |
| Chords.RootChordByName | chords.ts:194-203 | getChord on a valid name without a bass never fails and gives the root-position chord |
| Chords.SkipLetters | chords.ts:211 | the quality group `[a-zA-Z]*` consumes the whole run of ASCII letters from its start |
| Chords.ParseChordDefaults | chords.ts:210-224 | for any text whose first letter A..G begins a note name followed by a quality text (letters with at most one trailing digit) and nothing else, parseChord gives the chord over that root at octave 4, the empty quality read as "M", and the bass the root itself |
| Chords.ParseChordWithoutLetter | chords.ts:210-224 | parseChord gives undefined exactly when the text has no letter A..G; any other text gives a chord or throws |
| Chords.ParseChordWithBass | chords.ts:210-224 | with "/" and a note name after the quality, parseChord builds the chord over that bass at octave 4, throwing as the constructor does when an inverted chord's bass is not one of its tones |
| Chords.ParseChordBassSpans | chords.ts:210-222 | with "/" and a note name after the quality, parseChord looks up the root, quality ("" read as M) and bass texts it located |
| Chords.ParseChordNoBassSpans | chords.ts:210-222 | without "/bass" after the quality, parseChord looks up the root and quality ("" read as M) texts it located, with the root text as bass |
| Chords.UnknownQualityIsLazy | chords.ts:210-236 | "Cxyz" parses to a chord of quality "xyz", which throws "Unknown quality xyz" once its tones are asked for |
| Chords.FlatRootSpelling | chords.ts:244-255 | Cb major is spelled Cb, Eb, Gb |
| Chords.DiminishedOnDTones | chords.ts:244-255 | Ddim in root position is spelled D, F, Ab |
| Chords.TriadTones | chords.ts:248-255 | a three-tone chord is its root and the tones of its second and third intervals |
| Chords.NaturalSpellings | chords.ts:250-253 | on a natural root, pitch 5 is F and pitch 8 keeps its standard spelling Ab |
| Chords.DdimOverGSharpThrows | chords.ts:113-115 | D4 dim over a G# at any octave throws "Bass note 'G#' is not a member", since the tones are spelled D, F, Ab (see also spec/chords.spec.ts:53-55) |
| Chords.DdimOverGSharpTones | chords.ts:244-264 | the chord is inverted, its tones are built, and the G# is not among them (see also chords.ts:113) |
| ChordLookup.IntervalsShape | chord-lookup.ts:57-67 | the intervals have one entry per note, start at 0 and stay in 0..11; entry k is 0 exactly when note k has the first note's number |
| ChordLookup.GetIntervals | chord-lookup.ts:57-67 | the push loop gives the intervals of the notes above the first |
| ChordLookup.CompareIntervals | chord-lookup.ts:70-80 | compareIntervals holds iff the lists have the same length and the same entries |
| ChordLookup.FirstQualityIndex | chord-lookup.ts:45-54 | a found index, from the start on, has the looked-up intervals |
| ChordLookup.FirstQualityIndexFacts | chord-lookup.ts:45-54 | no entry before the one found has these intervals, and when none is found no entry has them |
| ChordLookup.FirstQualityIndexUnique | chord-lookup.ts:45-54 | in a table with distinct interval lists the first match is the only one |
| ChordLookup.IntervalListsDistinct | chords.ts:9-27 | the 17 interval lists are pairwise distinct |
| ChordLookup.LookupQualityExact | chord-lookup.ts:45-54 | a quality is found exactly when some table entry has these intervals, it is that entry's quality whatever order the for-in walk takes, and its intervals are those looked up |
| ChordLookup.NinthsEndAbove | chords.ts:24-26 | only the 9, M9 and m9 lists end above 11 |
| ChordLookup.NinthsNeverFound | chord-lookup.ts:57-67 | intervals computed from notes never name 9, M9 or m9 (see also chords.ts:24-26) |
| ChordLookup.LookupQualityByIntervals | chord-lookup.ts:45-54 | the loop with early return gives the first matching quality, or undefined |
| ChordLookup.NextPermutation | chord-lookup.ts:40-43 | getNextPermutation moves the first note to the end, in place |
| ChordLookup.ShiftDown | chord-lookup.ts:41 | one step of the in-place shift moves a note one place down |
| ChordLookup.LastIntoPlace | chord-lookup.ts:41 | pushing the shifted-out note completes the left rotation |
| ChordLookup.NextPermutationPermutes | chord-lookup.ts:40-43 | the rotation by one keeps the multiset of notes |
| ChordLookup.Qualities | chord-lookup.ts:22-34 | the quality named by rotation i, for each i in rotation order |
| ChordLookup.FirstSome | chord-lookup.ts:22-34 | the first rotation naming a quality holds one and none before it does; when none is found, no rotation names one |
| ChordLookup.SortedFromFirst | chord-lookup.ts:18-20 | the notes sorted from the first one are a permutation in ascending key order |
| ChordLookup.NotesOfNames | chord-lookup.ts:10-12 | note names become notes at octave 4, one per name, and an invalid name throws |
| ChordLookup.GetChordFromNotes | chord-lookup.ts:8-38 | getChordFromNotes copies, sorts and rotates the notes as the specification function of the lookup says; called with no notes it throws reading `notes[0]` |
| ChordLookup.FindRotation | chord-lookup.ts:22-34 | the in-place rotation loop tries each rotation once and stops at the first one naming a quality, with that rotation in the array, or reports that none does |
| ChordLookup.ChordFromNotesAt | chord-lookup.ts:17-28 | when rotation i is the first match, the result is getChord of that rotation's first note, its quality and the first input note's name |
| ChordLookup.ChordFromNotesFound | chord-lookup.ts:17-37 | a found chord has its bass named by the first input note at octave 4, a root from the first matching rotation of the sorted notes, and a quality whose intervals are that rotation's |
| ChordLookup.FoundQualityIntervals | chord-lookup.ts:45-54 | a found quality is non-empty and has exactly the looked-up intervals |
| ChordLookup.MadeChordValue | chords.ts:108-118 | a built chord holds the given root and bass and the quality with "" read as M |
| ChordLookup.ChordFromNotesNone | chord-lookup.ts:22-37 | the result is undefined exactly when no rotation of the sorted notes names a quality, as for A, Ab |
| ChordLookup.RootPositionKeys | notes.ts:272-273 | each root-position tone's sort key is the root's number plus its interval (see also chords.ts:248-255) |
| ChordLookup.KeyOfPitch | notes.ts:272-273 | a note i half steps above the root within the octave has key root + i |
| ChordLookup.RootPositionSorted | chord-lookup.ts:20 | root-position tones over intervals within one octave are already sorted from the root (see also notes.ts:269-276) |
| ChordLookup.RootPositionIntervals | chord-lookup.ts:57-67 | the intervals of such tones are the interval list itself |
| ChordLookup.LookupOfWithinOctave | chord-lookup.ts:8-38 | root-position tones at octave 4 over intervals within the octave that name quality q are recognised as the chord q on the root |
| ChordLookup.LookupOfRootPosition | chord-lookup.ts:8-38 | reverse lookup inverts tone derivation: the root-position tones of any quality other than 9, M9 and m9, at octave 4, are recognised as that very chord (see also chords.ts:244-255) |
| ChordLookup.ChordFromNotes | chord-lookup.ts:8-38 | no notes throws on `notes[0].name`; a chord found has a quality of the table and its root at octave 4 |
| ChordLookup.ChordFromNames | chord-lookup.ts:8-12 | with names, no names throws; a result means every name is a spelling; a chord found has a quality of the table and the first name as its bass |
| ChordLookup.LookupQuality | chord-lookup.ts:45-54 | a quality found has exactly these intervals in the table; none is found exactly when no table row has them |
| ChordLookup.Intervals | chord-lookup.ts:57-67 | one interval per note, starting at 0 for the first note |
| ChordProgression.MajorRow | chord-progression-calculator.ts:4-12 | row d of the major table starts at 0, rises strictly within 0..6 and contains d |
| ChordProgression.MinorRow | chord-progression-calculator.ts:13-21 | row d of the minor table starts at 0, rises strictly within 0..6 and contains d |
| ChordProgression.TablesWellFormed | chord-progression-calculator.ts:4-21 | both tables have seven such rows, and the tonic's row is every degree 0..6 |
| ChordProgression.ProgressionsAsWritten | chord-progression-calculator.ts:54 | as written, the constructor picks the minor table exactly when the scale's mode alias is "minor" |
| ChordProgression.MinorModeGetsMajorTable | chord-progression-calculator.ts:54 | a diatonic scale with the mode "minor" has the alias "aeolian" and so gets the major table; only the raw mode "aeolian" selects the minor one (see also scales/diatonic-scale.ts:39-47) |
| ChordProgression.Progressions | chord-progression-calculator.ts:54 | the corrected choice: the table is well formed, and it is the minor one exactly when the normalised mode is aeolian (see also chord-progression-calculator.ts:92-98) |
| ChordProgression.ProgressionsOfAliases | chord-progression-calculator.ts:54 | with the corrected choice "minor" and "aeolian" get the minor table, "major" and "ionian" the major one |
| ChordProgression.FindByName | chord-progression-calculator.ts:84 | findIndex by name gives the first place whose chord has the name, or -1 exactly when none has it |
| ChordProgression.ChordNumberOfMember | chord-progression-calculator.ts:83-85 | when the scale's chord names are distinct, a chord named like chord k has number k |
| ChordProgression.NextChordsShape | chord-progression-calculator.ts:65-81 | the suggestions start with the tonic chord and include the chord itself when it is in the scale; a chord outside the scale gets row 0, which lists every chord in order; otherwise the suggestions are the chords of the row's degrees in order |
| ChordProgression.NextChordsAt | chord-progression-calculator.ts:65-81 | with distinct names, the suggestions after chord k are the chords of row k |
| ChordProgression.MajorSuggestionsAfterII | chord-progression-calculator.ts:65-81 | in a major scale the second chord is followed by I ii V vii° (see also chord-progression-calculator.ts:6) |
| ChordProgression.MajorSuggestionsAfterV | chord-progression-calculator.ts:65-81 | in a major scale the fifth chord is followed by I V vi (see also chord-progression-calculator.ts:9) |
| ChordProgression.MajorSuggestionsAfterVII | chord-progression-calculator.ts:65-81 | in a major scale the seventh chord is followed by I vii° (see also chord-progression-calculator.ts:11) |
| ChordProgression.SupportedScaleChords | chord-progression-calculator.ts:92-98 | an accepted scale (normalised mode ionian or aeolian) is diatonic and has seven chords |
| ChordProgression.ScaleChords | chord-progression-calculator.ts:62-77 | an accepted scale's chords are seven |
| ChordProgression.Calculator.constructor | chord-progression-calculator.ts:52-55 | the calculator keeps the scale and its table |
| ChordProgression.Calculator.KeyChords | chord-progression-calculator.ts:62-77 | `key.chords` read through the scale's cache gives the scale's chords |
| ChordProgression.Calculator.ChordAt | chord-progression-calculator.ts:61-63 | getChordAt gives chord num for num in 0..6 and undefined otherwise |
| ChordProgression.Calculator.RootChord | chord-progression-calculator.ts:57-59 | rootChord is the chord at place 0 |
| ChordProgression.Calculator.ChordNumber | chord-progression-calculator.ts:83-85 | getChordNumber is the first place with the chord's name, or -1 |
| ChordProgression.Calculator.NextChords | chord-progression-calculator.ts:65-81 | getNextChords gives the chords of the chord's row, row 0 for a chord outside the scale |
| ChordProgression.RowChords | chord-progression-calculator.ts:75-78 | the push loop gives the chord at each degree of the row, in order |
| ChordProgression.GetChordProgressionCalculator | chord-progression-calculator.ts:92-98 | the factory throws "Only major and minor scales are supported" exactly when the normalised mode is neither ionian nor aeolian, and otherwise returns a new calculator on the scale |
| CircularLists.AtPeriodic | util/circular-list.ts:21-28 | itemAt(i + length) and itemAt(i - length) equal itemAt(i) |
| CircularLists.AtInRange | util/circular-list.ts:21-28 | an index within the list reads the list there, and -1 reads the last item |
| CircularLists.CircularList.constructor | util/circular-list.ts:9-11 | the list holds the given items and `length` is their number |
| CircularLists.CircularList.Push | util/circular-list.ts:13-15 | push appends the items, keeps `length` equal to the list's length and returns it |
| CircularLists.CircularList.IndexOf | util/circular-list.ts:17-19 | indexOf gives the first index holding the item, or -1 exactly when it is absent |
| CircularLists.CircularList.ItemAt | util/circular-list.ts:21-28 | itemAt reduces the index by the truncating remainder, adds the length when negative, and so reads the item at the floored remainder |
| CircularLists.CircularList.GetList | util/circular-list.ts:33-35 | getList returns the items |
| CircularLists.At | util/circular-list.ts:21-28 | `itemAt` has no item exactly when the list is empty |
| CircleOfFifths.FindNumber | circle-of-fifths.ts:129-131 | the search by number gives the first circle place with the pitch number, or -1 exactly when none has it |
| CircleOfFifths.CofNumber | circle-of-fifths.ts:19 | the circle note at place j has pitch number 7j mod 12 |
| CircleOfFifths.SevenInverse | circle-of-fifths.ts:129-131 | seven is its own inverse modulo twelve, so the place of a number is found again from its note (see also circle-of-fifths.ts:19) |
| CircleOfFifths.TonicIndexOfNumber | circle-of-fifths.ts:129-131 | every tonic is found, at 7 * number mod 12, so enharmonic tonics share their place |
| CircleOfFifths.ModeNumber | circle-of-fifths.ts:136-138 | getModeNumber lies in -1..6 and is -1 exactly when the normalised mode is not one of the seven modes |
| CircleOfFifths.LowerUpper | circle-of-fifths.ts:123-124 | toLowerCase of an upper-case numeral is undone by upper-casing and starts with a lower-case letter |
| CircleOfFifths.RomanWord | circle-of-fifths.ts:27 | each numeral is an upper-case word standing for its own degree |
| CircleOfFifths.NumeralQuality | circle-of-fifths.ts:121-126 | the numeral shows its quality: "°" for diminished, lower case for minor, upper case for major |
| CircleOfFifths.NumeralDegree | circle-of-fifths.ts:121-126 | the numeral names its degree whatever the quality |
| CircleOfFifths.RomanNumeralExamples | circle-of-fifths.ts:121-126 | IV, ii and vii° in C major; VII and ii° in G minor |
| CircleOfFifths.DegreeAt | circle-of-fifths.ts:96 | `DEGREE_NUMBERS.itemAt(k)` is the entry at k mod 7 and is a degree 1..7 (see also circle-of-fifths.ts:26) |
| CircleOfFifths.DegreeRange | circle-of-fifths.ts:26 | every entry of the degree list is in 1..7 |
| CircleOfFifths.FifthInfoAt | circle-of-fifths.ts:94-114 | getFifthInfo's place is tonic index + start + index; its note is the circle note at that place, at octave 4, respelled by the scale's getNoteInScale, so it sounds 7 * place mod 12; its degree is the degree list at start + index; its name is the degree's, except "Subtonic" for a major seventh degree; its numeral follows degree and quality |
| CircleOfFifths.ConsecutiveMod | circle-of-fifths.ts:87-96 | seven consecutive indices fall on seven different places modulo 7 |
| CircleOfFifths.DegreePlace | circle-of-fifths.ts:26 | each degree 1..7 has a place in the degree list |
| CircleOfFifths.DegreesArePermutation | circle-of-fifths.ts:96 | the seven fifths from any start carry the seven degrees, each exactly once (see also circle-of-fifths.ts:26,87-89) |
| CircleOfFifths.QualityAt | circle-of-fifths.ts:97 | the quality of entry i is the i-th of M M M m m m d (see also circle-of-fifths.ts:25) |
| CircleOfFifths.CMajorFifthsStart | circle-of-fifths.ts:81-114 | C major starts on F at place -1 as the Subdominant, then the Tonic and degree 5 |
| CircleOfFifths.CMajorFifthsEnd | circle-of-fifths.ts:94-126 | in C major D is degree 2 "ii" and B is degree 7, the "Leading Tone", "vii°" |
| CircleOfFifths.GMinorFifths | circle-of-fifths.ts:94-126 | G minor starts on Eb at place -3; its third entry is a major seventh degree named "Subtonic"; its last is "ii°" |
| CircleOfFifths.CSharpMajorRespelling | circle-of-fifths.ts:100 | in C# major (seven sharps) the circle's F and C are respelled E# and B# (see also scales.ts:170-175) |
| CircleOfFifths.FifthsFrom | circle-of-fifths.ts:86-91 | there are always seven fifths |
| CircleOfFifths.FifthsOf | circle-of-fifths.ts:81-92 | getFifths succeeds exactly for a tonic that is a note name and one of the seven modes, and then gives seven fifths; an unknown tonic throws |
| CircleOfFifths.FifthsShape | circle-of-fifths.ts:81-100 | there are fifths exactly for a note-name tonic and one of the seven modes; then entry i is at place tonic index - mode number + i, with quality i of M M M m m m d, and its note is the circle note at that place respelled to the scale's first note and signature, sounding 7 * place mod 12 |
| CircleOfFifths.FifthsOfParsed | circle-of-fifths.ts:81-92 | for a note-name tonic and one of the seven modes, the fifths are the seven from the tonic's index less the mode number, respelled by the scale's first note and signature |
| CircleOfFifths.CSharpMajorFifths | circle-of-fifths.ts:81-100 | the fifths of C# ionian are named F# C# G# D# A# E# B# (see also spec/circle-of-fifths.spec.ts:79-87) |
| CircleOfFifths.CSharpMajorCircle | circle-of-fifths.ts:81-92 | the fifths of C# ionian start at place 7 - 1 and are respelled by C#4 and a signature of seven sharps |
| CircleOfFifths.CSharpMajorParts | scales.ts:151-234 | for C# ionian the mode number is 1, the signature is seven sharps and the first scale note is C#4 (see also circle-of-fifths.ts:136-138) |
| CircleOfFifths.CSharpRespelled | circle-of-fifths.ts:100 | circle places 6 to 12, respelled to C# major with seven sharps, are F# C# G# D# A# E# B# (see also scales.ts:170-175) |
| CircleOfFifths.PushFifths | circle-of-fifths.ts:86-91 | the push loop gives the seven fifths in order |
| CircleOfFifths.GetFifths | circle-of-fifths.ts:81-92 | getFifths reads the tonic note and signature through the scale's caches and leaves its chord cache alone |
| CircleOfFifths.SortFifths | circle-of-fifths.ts:76-78 | sortFifths sorts a copy in place by degree number |
| CircleOfFifths.OrderedFifthsSorted | circle-of-fifths.ts:58-78 | the ordered fifths are a permutation of the fifths in rising degree order |
| CircleOfFifths.Circle.constructor | circle-of-fifths.ts:46-70 | a new circle holds the scale and empty caches |
| CircleOfFifths.Circle.Fifths | circle-of-fifths.ts:51-53 | `fifths` is getFifths of the scale, kept in the cache once computed |
| CircleOfFifths.Circle.OrderedFifths | circle-of-fifths.ts:58-61 | `orderedFifths` is the fifths sorted by degree, kept once computed; an error in the fifths is passed on |
| ModeNames.ModeIndexRange | circle-of-fifths.ts:21 | a mode's place in MODE_NAMES lies in 0..6, and it is -1 exactly for a text that is not one of the seven modes |
| ModeNames.NotAModeName | circle-of-fifths.ts:21 | a text starting with none of the modes' first letters is not a mode |
| ModeNames.ModeIndex | circle-of-fifths.ts:21 | mode k of MODE_NAMES is found at place k: lydian 0, ionian 1, ..., locrian 6 |
| ModeNames.ModeIntervals | scales/music-scale.ts:24-31 | a mode with a row of intervals has seven of them (see also scales.ts:16-24) |
| ModeNames.ModeIntervalsShape | scales/music-scale.ts:24-31 | exactly the seven modes have a row, and each row starts at 0 and rises strictly within 0..11 (see also scales.ts:16-24) |
| ModeNames.RowShape | scales/music-scale.ts:24-31 | each of the seven rows starts at 0 and rises strictly within 0..11 |
| DiatonicScale.ModeAliasPairs | scales/diatonic-scale.ts:39-47 | getModeAlias is non-empty exactly for ionian, major, aeolian and minor; it is an involution there without fixed points, and an alias normalises to the same mode |
| DiatonicScale.NameOfModes | scales/diatonic-scale.ts:49-54 | the name is the tonic then "M" for major, "m" for minor, and "(ion)" or "(aeo)" for ionian and aeolian, so an ionian scale is named apart from a major one |
| DiatonicScale.SignedCountOfTonic | scales/diatonic-scale.ts:97-101 | the raw count is the letter's place among F C G D A E B less the mode's place in MODE_NAMES; it lies in -6..7, and in -6..6 for the seven modes |
| DiatonicScale.SignedCountIs | scales/diatonic-scale.ts:97-101 | the raw count of a note name is its letter's place among F C G D A E B less the mode's place |
| DiatonicScale.TonicText | scales/diatonic-scale.ts:94-97 | `charAt(0)` of a name is its letter and the rest is its accidental |
| DiatonicScale.SignatureBounds | scales/diatonic-scale.ts:90-115 | the count lies in 0..7, and in 0..6 for a natural tonic in one of the seven modes; an accidental tonic keeps its accidental and a natural one gets "#", "b" or "" |
| DiatonicScale.MajorSignature | scales/diatonic-scale.ts:90-115 | the ionian signature is that of the letter's place on the circle less one |
| DiatonicScale.MajorSignaturesOfNaturals | scales/diatonic-scale.ts:90-115 | C has no accidentals, G D A E B one to five sharps, F one flat (see also spec/diatonic-scale.spec.ts:14-83) |
| DiatonicScale.MajorSignaturesOfSharps | scales/diatonic-scale.ts:90-115 | C# has seven sharps, D# five, F# six, G# six, A# four (see also spec/diatonic-scale.spec.ts:14-83) |
| DiatonicScale.MajorSignaturesOfFlats | scales/diatonic-scale.ts:90-115 | Db has five flats, Eb three, Gb six, Ab four, Bb two (see also spec/diatonic-scale.spec.ts:14-83) |
| DiatonicScale.AccidentalOfSignature | scales/diatonic-scale.ts:90-133 | getAccidental always equals the signature's accidental |
| DiatonicScale.ChordsInScale | scales/diatonic-scale.ts:75-84 | getChordsInScale gives one chord per note |
| DiatonicScale.ChordsShape | scales/diatonic-scale.ts:75-84 | for one of the seven modes chord i is the root-position chord on note i's name at octave 4 with quality SCALE_QUALITIES[(i + offset) % 7], "" read as M (see also scales/diatonic-scale.ts:7-18) |
| DiatonicScale.ChordsShapeOtherMode | scales/diatonic-scale.ts:76-80 | a mode without an offset reads no quality, so every chord is the major chord on its note |
| DiatonicScale.ModeAlias | scales/diatonic-scale.ts:39-47 | the alias is non-empty exactly for ionian, major, aeolian and minor; it is a different mode text that normalises to the same mode |
| DiatonicScale.Name | scales/diatonic-scale.ts:49-54 | the name is longer than the tonic's name and begins with its letter |
| DiatonicScale.NormalizedMode | scales/diatonic-scale.ts:62-64 | the normalised mode is ionian exactly for "", major, M and ionian, and aeolian exactly for minor, m and aeolian |
| DiatonicScale.Signature | scales/diatonic-scale.ts:90-115 | the count is never negative; a tonic with an accidental keeps it; a natural tonic gets "", "#" or "b", and "" exactly when the count is 0 |
| DiatonicScale.Accidental | scales/diatonic-scale.ts:120-133 | the accidental is "", "#" or "b", and a tonic with an accidental keeps its own |
| PentatonicScale.NameAndModeOfPentatonic | scales/pentatonic-scale.ts:12-18 | the name is tonic + "M" or "m" + " Pentatonic"; the normalised mode is pent_m exactly for minor; a mode other than major and minor is named as minor but normalised as major |
| PentatonicScale.Signature | scales/pentatonic-scale.ts:28-31 | the signature is the tonic's accidental with a count of 0 |
| PentatonicScale.Name | scales/pentatonic-scale.ts:12-14 | the name begins with the tonic's letter |
| PentatonicScale.NormalizedMode | scales/pentatonic-scale.ts:16-18 | the normalised mode is pent_M or pent_m, and pent_m exactly when the mode is minor |
| BluesScale.Intervals | scales/blues-scale.ts:65-67 | only major and minor have intervals, six of them starting at 0 (see also scales/blues-scale.ts:8-11) |
| BluesScale.CheckMode | scales/blues-scale.ts:45-51 | the constructor accepts exactly major and minor and otherwise throws "Invalid mode for blues scale: " + mode |
| BluesScale.Table | scales/blues-scale.ts:13-42 | each mode's table has a row for each of the 12 numbers |
| BluesScale.TableEntries | scales/blues-scale.ts:13-42 | every table entry has a sharp or a flat and a count in 1..5 |
| BluesScale.SignatureRule | scales/blues-scale.ts:70-76 | the signature is a copy of the row at the tonic's number with its count unchanged (1..5); the accidental is the tonic's when the tonic has one and the row's otherwise |
| BluesScale.NameDeterminesScale | scales/blues-scale.ts:53-55 | two blues scales share a name exactly when their tonics share a spelling and both or neither are major |
| BluesScale.Signature | scales/blues-scale.ts:70-76 | the count is 1..5; a tonic with an accidental keeps it, otherwise the table's '#' or 'b' is used |
| BluesScale.Name | scales/blues-scale.ts:53-55 | the name begins with the tonic's letter |
| BluesScaleAlt.SignatureDefined | scales/blues-scales.ts:63-65 | exactly the twelve standard spellings have a signature; Db, D#, Gb, G#, A#, E#, Fb, B# and Cb give undefined (see also scales/blues-scales.ts:11-40) |
| BluesScaleAlt.NormalizedMode | scales/blues-scales.ts:51-53 | the normalised mode is blues_M exactly for major and blues_m otherwise |
| BluesScaleAlt.Signature | scales/blues-scales.ts:63-65 | the table is read exactly for major and minor; any other mode throws on BLUES_SIGNATURES[mode] |
| BluesScaleAlt.Name | scales/blues-scales.ts:47-49 | the name begins with the tonic's letter |
| ScaleFactory.Dispatch | scales/index.ts:25-30 | the subclass and mode getScale constructs are ones its constructors accept |
| ScaleFactory.DispatchByPrefix | scales/index.ts:20-30 | a mode starting with "blues" gives a blues scale, major exactly for "blues_M"; "pent" a pentatonic scale, minor exactly for "pent_m"; any other mode, the default "major" among them, a diatonic scale in that mode |
| ScaleFactory.GetScale | scales/index.ts:20-31 | getScale on a note returns a new scale of the dispatched subclass with empty caches |
| ScaleFactory.GetScaleByName | scales/index.ts:20-23 | a name is resolved with getNote at octave 4, which throws exactly for a text that is not a note name |
| ScaleFactory.ParseScale | scales/index.ts:37-43 | parseScale is undefined without a letter A..G; otherwise it is the diatonic scale on the first tonic found, minor exactly when "m" follows it; a tonic such as C followed by a vertical bar, which the pattern accepts, throws in getNote |
| MusicScaleBase.ScaleIntervals | scales/music-scale.ts:24-35 | SCALE_INTERVALS has a row exactly for the seven modes, blues_M, blues_m and pentatonic, and every row starts at 0 |
| MusicScaleBase.BluesRowsAgree | scales/music-scale.ts:24-35 | the blues rows, under the normalised names blues_M and blues_m, are the blues scale's own intervals (see also scales/blues-scales.ts:51-53; scales/blues-scale.ts:8-11) |
| MusicScaleBase.NotesInScale | scales/music-scale.ts:215-227 | getNotesInScale maps exactly when the normalised mode has a row, one note per interval, and otherwise fails on `intervals.map` |
| MusicScaleBase.NotesInScalePitch | scales/music-scale.ts:215-227 | for a normalised mode with a row, there is one note per interval and note k's pitch class is the tonic's plus interval k, mod 12 |
| MusicScaleBase.NotesOfPitch | scales/music-scale.ts:215-227 | the same for a scale of any family: its notes exist, one per interval of its normalised mode's row, note k at the tonic's pitch class plus interval k |
| MusicScaleBase.NaturalIsStandard | notes.ts:21-43 | every natural spelling is the standard spelling of its number (see also notes.ts:7) |
| MusicScaleBase.RespelledTonic | scales/music-scale.ts:219-239 | the tonic transposed by 0 and respelled carries the tonic's name when an accidental tonic's accidental is the signature's |
| MusicScaleBase.TonicKeepsName | scales/music-scale.ts:215-227 | under the same condition the first note of the scale carries the tonic's name |
| MusicScaleBase.NoteInScaleRule | scales/music-scale.ts:234-239 | getNoteInScale gives the note or its alias, and the alias exactly when there is one, its accidental differs from the tonic's and the alias's is the signature's |
| MusicScaleBase.NoteInScaleIdempotent | scales/music-scale.ts:234-239 | respelling a respelled note changes nothing |
| MusicScaleBase.ChordInScaleRule | scales/music-scale.ts:241-247 | getChordInScale returns the chord when the scale keeps its root's spelling, and otherwise the alias chord, rooted on the respelled root |
| MusicScaleBase.FirstNoteIsTonic | scales/music-scale.ts:215-227 | every family's first note carries its tonic's name (see also scales/diatonic-scale.ts:90-115; scales/blues-scale.ts:70-76) |
| MusicScaleBase.DiatonicNotes | scales/music-scale.ts:215-227 | a diatonic scale in one of the seven modes has seven notes |
| MusicScaleBase.DiatonicChords | scales/diatonic-scale.ts:75-84 | the diatonic chords exist whenever the notes do, one per note, chord i rooted on note i at octave 4 |
| MusicScaleBase.PentatonicHasNoNotes | scales/music-scale.ts:215-227 | a pentatonic scale's notes fail on `intervals.map`, pent_M and pent_m having no row (see also scales/music-scale.ts:24-35; scales/pentatonic-scale.ts:16-18) |
| MusicScaleBase.BluesNotes | scales/music-scale.ts:215-227 | a blues scale has six notes, note k at the tonic's pitch plus the blues interval k (see also scales/blues-scales.ts:51-53) |
| MusicScaleBase.NonDiatonicHasNoChords | scales/pentatonic-scale.ts:20-25 | pentatonic and blues scales have no mode alias and no chords (see also scales/blues-scale.ts:57-63; scales/blues-scales.ts:55-60) |
| MusicScaleBase.MusicScale.constructor | scales/music-scale.ts:111-117 | the constructor stores tonic and mode and leaves every cache empty |
| MusicScaleBase.MusicScale.Signature | scales/music-scale.ts:132-134 | `signature` is the family's signature, cached on first use, the other caches unchanged |
| MusicScaleBase.MusicScale.Notes | scales/music-scale.ts:136-138 | `notes` is getNotesInScale's result, cached when computed. The signature cache is filled only when the notes are computed, because the signature is read inside the map over the intervals; a mode with no interval row (pentatonic, or a diatonic mode outside the table) fails and leaves both caches as they were (see also scales/music-scale.ts:215-227) |
| MusicScaleBase.MusicScale.Chords | scales/music-scale.ts:140-142 | `chords` is the family's chords, cached when computed; only a diatonic scale computing them fills the notes and signature caches, and only when its notes exist; otherwise those caches are unchanged |
| MusicScaleBase.MusicScale.GetNoteInScale | scales/music-scale.ts:164-169 | the note respelled to the tonic and the signature, the signature cache filled |
| MusicScaleBase.MusicScale.GetNoteInScaleByName | scales/music-scale.ts:164-169 | a name is read with getNote at octave 4; an invalid one throws before the signature is read |
| MusicScaleBase.MusicScale.GetChordInScale | scales/music-scale.ts:241-247 | the chord respelled to the scale, the signature cache filled (see also scales/music-scale.ts:176-178) |
| MusicScaleBase.NewScale | scales/music-scale.ts:111-117 | construction fails exactly for a blues scale in a mode other than major and minor; otherwise a fresh scale with empty caches. A blues scale is built with the normaliser of scales/blues-scales.ts:51-53, because the exported class has none; as written its constructor would throw a TypeError at line 114 (see also scales/blues-scale.ts:45-51) |
| MusicScaleBase.SameAsButNotEqual | scales/music-scale.ts:184-191 | C# major and Db major are the same scale but not equal |
| MusicScaleBase.MajorSameAsIonian | scales/music-scale.ts:184-191 | C major and C ionian are the same scale both ways through the mode alias, but not equal |
| MusicScaleBase.NormalizedModeOf | scales/music-scale.ts:111-117 | each family's normalised mode: the diatonic one by normalizeMode, pent_m/pent_M and blues_m/blues_M by whether the mode is minor or major. The blues rule comes from scales/blues-scales.ts:51-53, because the exported scales/blues-scale.ts class defines no getNormalizeMode (see also scales/blues-scales.ts:51-53) |
| MusicScaleBase.NameOf | scales/music-scale.ts:111-117 | every family's name begins with the tonic's letter |
| MusicScaleBase.ModeAliasOf | scales/music-scale.ts:111-117 | the mode alias is non-empty exactly for a diatonic scale in ionian, major, aeolian or minor |
| MusicScaleBase.SignatureOf | scales/music-scale.ts:132-134 | the signature's count is never negative, and a tonic with an accidental keeps it |
| MusicScaleBase.NotesOf | scales/music-scale.ts:136-138 | the notes exist exactly when the normalised mode has intervals, and then there is at least one |
| MusicScaleBase.ChordsOf | scales/music-scale.ts:140-142 | pentatonic and blues scales have no chords; a diatonic scale has one chord per note whenever it has notes |
| MusicScaleBase.MusicScale.Equals | scales/music-scale.ts:184-186 | `equals` compares names, so it is reflexive |
| MusicScaleBase.EqualsByName | scales/music-scale.ts:184-186 | two scales are equal exactly when they are of one family, their tonics share a spelling and their modes read alike in that family's names: major apart from the rest, minor apart too in a diatonic scale, and other diatonic modes by their first three letters |
| MusicScaleBase.NamesDetermineScales | scales/diatonic-scale.ts:49-54 | the names of two scales agree exactly when family, tonic spelling and mode word agree; a diatonic name ends in M, m or ")", a pentatonic one in "Pentatonic" and a blues one in "Blues", so families never share a name (see also scales/pentatonic-scale.ts:12-13; scales/blues-scale.ts:53-55) |
| MusicScaleBase.MusicScale.IsSameAs | scales/music-scale.ts:188-191 | `isSameAs` is reflexive and implies the tonics share a pitch class |
| LegacyScales.NormalizeModeFacts | scales.ts:133-145 | normalizeMode is idempotent; it gives ionian exactly for "", major, M and ionian, aeolian exactly for minor, m and aeolian, and every other mode unchanged |
| LegacyScales.NamesOfModes | scales.ts:36-41 | a major scale is named tonic + "M", a minor one tonic + "m", a lydian one tonic + "(lyd)"; the alias is major or minor exactly for the modes normalised to ionian or aeolian |
| LegacyScales.FifthsIndexRange | scales.ts:204 | a letter's place on the circle F C G D A E B lies in 0..6 |
| LegacyScales.NonAccidentalIndex | scales.ts:204-216 | indexOf in NON_ACCIDENTALS finds the letter at its place on the circle |
| LegacyScales.SignatureOfAnyCount | scales.ts:220-233 | a raw count in -6..7 gives 0..7 accidentals, at most 6 on a natural tonic unless the count is 7; an accidental tonic keeps its accidental and a natural one gets "", "#" or "b" (see also scales/diatonic-scale.ts:101-114) |
| LegacyScales.SignedCountOfName | scales.ts:216-220 | for one of the seven modes the raw count is the letter's place on the circle less the mode's place in MODE_NAMES, in -6..6 |
| LegacyScales.SignatureOfCountBounds | scales.ts:222-233 | for a count in -6..6 a natural tonic gets 0..6 accidentals, sharp exactly for a positive count and flat exactly for a negative one; an accidental tonic gets 1..7 of its own accidental |
| LegacyScales.SignatureOfName | scales.ts:209-234 | getSignature is the count rule applied to the letter's and the mode's places, keeping an accidental tonic's accidental with 1..7 of it and giving a natural tonic at most 6 |
| LegacyScales.SignatureOfEFlatMinor | scales.ts:209-234 | Eb aeolian has six flats (see also spec/scales.spec.ts:31-36) |
| LegacyScales.SignatureOfCSharpLydian | scales.ts:209-234 | C# lydian has six sharps (see also spec/scales.spec.ts:49-54) |
| LegacyScales.SignatureOfESharpIonian | scales.ts:209-234 | E# ionian has three sharps (see also spec/scales.spec.ts:67-72) |
| LegacyScales.NoteInScale | scales.ts:170-175 | the respelled note keeps the note's octave and pitch |
| LegacyScales.Transposed | scales.ts:155-157 | one transposed note per interval |
| LegacyScales.Respelled | scales.ts:158-160 | one respelled note per note |
| LegacyScales.ScaleNotes | scales.ts:151-163 | one note per interval |
| LegacyScales.ScaleNoteNumber | scales.ts:151-163 | note k lies at the tonic's pitch plus interval k, whatever the signature |
| LegacyScales.NotesOf | scales.ts:151-163 | a scale with notes has seven of them |
| LegacyScales.NotesOfDefined | scales.ts:151-163 | the notes exist exactly for a valid tonic name and one of the seven modes; otherwise getNote throws or `intervals.map` fails (see also scales.ts:16-24) |
| LegacyScales.NotesOfOk | scales.ts:151-163 | the notes are the tonic at octave 4 along the mode's row of seven rising intervals, respelled to getSignature (see also scales.ts:16-24) |
| LegacyScales.NotesOfFirst | scales.ts:151-175 | for a note-name tonic and one of the seven modes, the first scale note is the tonic at octave 4 transposed by 0 (its standard spelling) and respelled to the signature |
| LegacyScales.EFlatMinorLower | scales.ts:155-157 | transposing Eb4 by 0, 2, 3 and 5 gives Eb, F, F# and Ab in standard spelling (see also spec/scales.spec.ts:31-36) |
| LegacyScales.EFlatMinorUpper | scales.ts:155-157 | transposing Eb4 by 7, 8 and 10 gives Bb, B and C#5 (see also spec/scales.spec.ts:31-36) |
| LegacyScales.EFlatMinorRespelled | scales.ts:158-175 | respelled to six flats with the tonic Eb they become Eb F Gb Ab Bb Cb Db (see also spec/scales.spec.ts:31-36) |
| LegacyScales.ChordsAt | scales.ts:187-190 | one chord per note |
| LegacyScales.ChordsOf | scales.ts:184-193 | one chord per note |
| LegacyScales.ChordsAtShape | scales.ts:178-190 | chord i is the root-position chord on note i at octave 4 with quality scaleQualities[(i + offset) % 7], "" read as M |
| LegacyScales.ModesOffset | scales.ts:185 | the offset is in 0..6 exactly for the seven modes (see also scales.ts:8) |
| LegacyScales.ParseTonicAndMode | scales.ts:121-124 | the pattern finds no tonic exactly when the text has no letter A..G |
| LegacyScales.ParseTonicOfName | scales.ts:121-124 | a note name followed by "m" parses as that tonic in minor; alone or followed by "M", as major |
| LegacyScales.MusicScale.constructor | scales.ts:36-41 | the mode is normalised, the name and the alias derived from it, and every cache is empty |
| LegacyScales.MusicScale.Signature | scales.ts:50-52 | `signature` is getSignature, cached on first use |
| LegacyScales.MusicScale.Notes | scales.ts:54-56 | `notes` is getNotesInScale, cached when computed, filling the signature cache |
| LegacyScales.MusicScale.TonicNote | scales.ts:58-60 | `tonicNote` is the first note, read through `notes` |
| LegacyScales.MusicScale.Chords | scales.ts:62-64 | `chords` is getChordsInScale over the notes, cached when computed |
| LegacyScales.MusicScale.HasAccidental | scales.ts:69-71 | for a tonic that is a note name, `hasAccidental` holds exactly when the tonic carries an accidental |
| LegacyScales.MusicScale.GetNoteInScaleByNumber | scales.ts:92-101 | the note for the number respelled against the tonic note and the signature; a scale without notes fails |
| LegacyScales.MusicScale.GetNoteInScaleByName | scales.ts:98-101 | the named note respelled; an invalid name throws first, then a scale without notes |
| LegacyScales.MusicScale.GetChordInScale | scales.ts:195-201 | the chord or its alias, respelled against the tonic note and the signature (see also scales.ts:108-110) |
| LegacyScales.ParseScale | scales.ts:121-127 | parseScale is undefined exactly without a tonic; otherwise a fresh scale on the first tonic, aeolian when "m" follows it and ionian otherwise |
| LegacyScales.NormalizeMode | scales.ts:133-145 | the normalised mode is never "", major, M, minor or m, and any other mode is kept |
| LegacyScales.ScaleName | scales.ts:36-39 | a scale's name begins with its tonic |
| LegacyScales.ModeAlias | scales.ts:40 | the mode alias is non-empty exactly for ionian and aeolian |
| LegacyScales.GetSignature | scales.ts:209-234 | the count is never negative; a tonic with an accidental keeps it; a natural tonic gets "", "#" or "b", and "" exactly when the count is 0 |
| LegacyScales.ChordInScale | scales.ts:195-201 | the chord in the scale keeps its root's pitch class and its quality; a chord whose root has no alias is kept |
| LegacyScales.ScaleTonic | scales.ts:151-160 | a scale's first note, at interval 0, is the tonic in its standard spelling respelled to the signature |
| Keys.CirclePlace | keys.ts:5-7 | a spelling's place in circleOfFifths lies in 0..19 and holds that spelling; it is -1 exactly for Fb |
| Keys.CirclePlaceOfEntry | keys.ts:5-7 | every entry is found at its own place, so no spelling occurs twice |
| Keys.FindIndex | keys.ts:81 | findIndex gives -1 or a place in 0..19 |
| Keys.FindIndexIsSearch | keys.ts:81 | a place is found exactly when the name there is the tonic's text, and -1 means no name is |
| Keys.CircleIsFifths | keys.ts:5-7 | each name lies a fifth above the one before it, except at the jump from B# to Cb |
| Keys.FindIndexOfName | keys.ts:81 | looking up a note name's own text finds its place |
| Keys.SignatureIndex | keys.ts:81-85 | the index read is the tonic's place, moved three places back (the relative major) for a minor key, which is never -1 |
| Keys.KeySignatureAsWritten | keys.ts:80-90 | as written, getKeySignature succeeds exactly for a tonic in the table or a minor key, and takes the name's second character, or "#" |
| Keys.KeySignature | keys.ts:80-90 | corrected: the same cases succeed, with 0..7 sharps or flats; reading index -1 throws |
| Keys.KeySignatureCorrection | keys.ts:88 | the two readings differ only at F's place, read as one sharp instead of one flat |
| Keys.FMajorSignature | keys.ts:88-110 | as written F major and D minor have one sharp, so F major respells Bb as A#; corrected, F major has one flat and keeps Bb |
| Keys.FlatMajorKeys | keys.ts:80-90 | corrected: a major key takes flats exactly when its tonic is a flat name or F (see also keys.ts:5-10) |
| Keys.MajorKeyDefined | keys.ts:80-90 | a major key has a signature exactly for the note names other than Fb |
| Keys.RelativeMajor | keys.ts:82-85 | a minor key has the signature of the major key three places before it |
| Keys.RelativeMajorPitch | keys.ts:84 | that major key lies three half steps above the minor tonic, except for Cb, Gb and Db minor, where it lies a half step below (see also keys.ts:5-7) |
| Keys.MajorKeyAt | keys.ts:86-89 | corrected: a major key's signature is the count at its place, sharps for the first thirteen names and flats for the last seven (see also keys.ts:5-10) |
| Keys.MajorKeyCounts | keys.ts:8-10 | the counts rise 0..7 along C G D A E B F# C# and fall 7..1 from Cb to F |
| Keys.KeySignatureExamples | keys.ts:80-90 | C major has no accidentals, D major two sharps, Eb minor six flats; Fb minor wraps to Ab major's four flats and Fb major throws (see also spec/keys.spec.ts:13-31) |
| Keys.InKey | keys.ts:100-107 | the respelled note keeps its octave and pitch |
| Keys.NoteInKey | keys.ts:96-110 | a natural note is kept without reading the signature; a note with an accidental reads it, fails exactly when it fails, and keeps octave and pitch |
| Keys.InKeyRule | keys.ts:100-107 | a note whose alias has an accidental ends flat exactly when the key is flat; E#, B#, Fb and Cb become naturals when the key's kind differs |
| Keys.InKeyIdempotent | keys.ts:100-107 | respelling to a key twice is respelling once |
| Keys.NoteInKeyByName | keys.ts:96-110 | the named note at the octave, respelled; an unknown name throws first |
| Keys.NoteInKeyByNumber | keys.ts:96-110 | the note for a number lies at that number in the octave |
| Keys.NumberInKey | keys.ts:96-110 | a number's note with an accidental ends flat exactly when the key has flats |
| Keys.NoteInKeyExamples | keys.ts:96-110 | D stays D in C major, and D# becomes Eb in C minor (see also spec/keys.spec.ts:53-56) |
| Keys.KeyQualityKnown | keys.ts:112 | every quality in the table is "", "m" or "dim" |
| Keys.KeyIntervals | keys.ts:124 | the key's scale has seven intervals |
| Keys.KeyIntervalsAreModeRows | keys.ts:124 | they are the ionian and aeolian rows of scales.ts (see also scales.ts:16-24) |
| Keys.ScaleNotes | keys.ts:124 | one note per interval |
| Keys.ScaleNoteIs | keys.ts:124-125 | a scale note is the standard note of the summed pitch at octave 4 |
| Keys.SpellInKey | keys.ts:125 | the map succeeds whenever the signature can be read; each result is its note respelled, and an error is the error of one note |
| Keys.NotesInKey | keys.ts:124-125 | the respelled scale has seven notes, exists whenever the tonic and its signature are valid, and an unknown tonic throws first |
| Keys.NotesInKeyPitch | keys.ts:124-125 | note k is the respelling of the scale note k, with its pitch and octave 4 |
| Keys.NotesInKeyIsSpelled | keys.ts:124-125 | a key's notes are its standard scale notes respelled to its signature |
| Keys.ByNumberIsScaleNote | keys.ts:125 | respelling by number is respelling the scale note |
| Keys.SpelledNumber | keys.ts:125 | for any signature, respelled note k keeps pitch tonic plus interval k and octave 4 |
| Keys.ScaleNoteNumber | keys.ts:124 | the scale note an interval above the tonic has the summed pitch, at octave 4 |
| Keys.ScaleNotePitch | keys.ts:124-125 | its respelling keeps that pitch and octave 4 |
| Keys.SpelledAt | keys.ts:125 | respelled note k is the respelling of note k |
| Keys.NotesInKeyAccidentals | keys.ts:100-125 | a key's notes with an accidental take the key's kind of accidental |
| Keys.ScaleNoteInKey | keys.ts:100-125 | a scale note with an accidental is respelled with the key's kind of accidental |
| Keys.EFlatMinorSpellings | keys.ts:96-110 | in Eb minor the pitches 6, 11 and 1 are spelled Gb, B and Db, B staying natural rather than Cb |
| Keys.KeyChords | keys.ts:127-131 | seven chords |
| Keys.ParseChordOfKeyName | keys.ts:129-130 | parseChord on a note name followed by "", "m" or "dim" gives that root-position chord (see also chords.ts:210-224) |
| Keys.ChordsOfNotes | keys.ts:121-133 | the loop pushes, for each of the seven notes, the chord parsed from its name and its degree's quality |
| Keys.ChordsInKey | keys.ts:119-134 | getChordsInKey gives the chords on the key's notes, or the error building them |
| Keys.KeyQualitiesAgreeWithModes | keys.ts:112-123 | a major key's qualities are the ionian ones of scales.ts and a minor key's the aeolian ones (see also scales.ts:178) |
| Keys.MajorAndMinorOffsets | scales.ts:8 | ionian is the first mode and aeolian the sixth |
| Keys.KeyChordShape | keys.ts:123-131 | chord i is rooted on note i at octave 4 in root position, with its degree's quality, "" read as M |
| Keys.KeyName | keys.ts:31 | the name is the tonic followed by 'M' for a major key and 'm' for any other mode |
| Keys.Key.constructor | keys.ts:28-32 | the fields are stored, the name derived and the caches empty |
| Keys.Key.Signature | keys.ts:34-36 | `signature` is the corrected key signature `Keys.KeySignature`, cached when computed |
| Keys.Key.Chords | keys.ts:42-44 | `chords` is getChordsInKey, cached when computed |
| Keys.Key.GetNoteInKeyByName | keys.ts:61-64 | the named note respelled, keeping its octave and pitch |
| Keys.Key.GetNoteInKeyByNumber | keys.ts:53-64 | the note for the number respelled, at that number in the octave |
| Keys.ParseKey | keys.ts:71-75 | parseKey gives no key exactly without a tonic; otherwise a fresh key on the first tonic, minor when "m" follows it |
| Keys.ParseKeyOfName | keys.ts:71-75 | a key's own name parses back to its tonic and mode (see also keys.ts:31) |
| GuitarChords.PositionTable.constructor | guitar/build-guitar-chords.ts:15 | the table starts as a copy of the given entries |
| GuitarChords.Moved | guitar/build-guitar-chords.ts:47-54 | a moved shape has as many strings as the shape |
| GuitarChords.MovedCompose | guitar/build-guitar-chords.ts:47-54 | moving up by a and then by b is moving up by a + b |
| GuitarChords.MoveBarreChord | guitar/build-guitar-chords.ts:47-54 | the loop keeps every muted string at -1 and raises every other fret by the amount |
| GuitarChords.LeastPositiveIsLeast | guitar/build-guitar-chords.ts:68-73 | the least positive fret is missing exactly when no fret is positive, and otherwise is a positive fret of the tab at or below every positive fret |
| GuitarChords.MinFretOfIsLeast | guitar/build-guitar-chords.ts:66-75 | the lowest fret is 0 exactly when a string is open, missing exactly when every string is muted, and otherwise a fret of the tab at or below every sounding one |
| GuitarChords.GetMinFret | guitar/build-guitar-chords.ts:66-75 | the loop with its early return on an open string computes that lowest fret |
| GuitarChords.TransposeRootPosition | guitar/build-guitar-chords.ts:36 | a root-position chord transposed by a fret is built, stays in root position and has the transposed root (see also chords.ts:156-157) |
| GuitarChords.TransposedNameIs | guitar/build-guitar-chords.ts:36-37 | the chord on a fret is named by the standard spelling of the raised root and the quality, major left unwritten (see also chords.ts:156-157) |
| GuitarChords.BarreNames | guitar/build-guitar-chords.ts:34-37 | a barre chord names twelve chords, one per fret |
| GuitarChords.BarreNamesDistinct | guitar/build-guitar-chords.ts:34-37 | the chords on two different frets have different names |
| GuitarChords.BarreNamesAllDistinct | guitar/build-guitar-chords.ts:34-37 | the twelve names are pairwise different |
| GuitarChords.AddShapesAt | guitar/build-guitar-chords.ts:34-44 | each list only grows, by the moved shapes of the frets whose chord bears its name, in fret order |
| GuitarChords.AddShapesKeys | guitar/build-guitar-chords.ts:37-41 | the names afterwards are the old ones and those of the added chords |
| GuitarChords.ShapesForDistinct | guitar/build-guitar-chords.ts:34-44 | with different names, each name receives exactly its own fret's shape and any other name nothing |
| GuitarChords.AddBarreChordPositions | guitar/build-guitar-chords.ts:33-45 | the loop over frets 0..11 pushes each moved shape onto the list of the chord on that fret, creating the list when missing |
| GuitarChords.AddDistinctOnePerName | guitar/build-guitar-chords.ts:33-45 | adding shapes under different names puts exactly one shape onto each name's list and leaves every other list alone |
| GuitarChords.AddBarreOnePerChord | guitar/build-guitar-chords.ts:33-45 | a barre chord adds exactly its fret's shape to each of its twelve chords and leaves every other list alone |
| GuitarChords.SortedTable | guitar/build-guitar-chords.ts:56-64 | sorting keeps the names |
| GuitarChords.SortedTableFacts | guitar/build-guitar-chords.ts:56-64 | each list keeps its shapes and is ordered by lowest fret |
| GuitarChords.SortTabs | guitar/build-guitar-chords.ts:60-62 | one list sorted stably by `getMinFret(a) - getMinFret(b)` |
| GuitarChords.SortGuitarChords | guitar/build-guitar-chords.ts:56-64 | every list of the table is sorted in place, one name at a time |
| GuitarChords.RootShapes | guitar/build-guitar-chords.ts:18-21 | one entry per quality of a root |
| GuitarChords.FlattenPrefix | guitar/build-guitar-chords.ts:18-21 | the shapes of the first roots are visited first |
| GuitarChords.FlattenAt | guitar/build-guitar-chords.ts:18-21 | the shapes before shape j of root i, then that shape, begin the visiting order |
| GuitarChords.FlattenNext | guitar/build-guitar-chords.ts:18-21 | the first i + 1 roots' shapes are the first i roots' then root i's |
| GuitarChords.FirstInvalid | guitar/build-guitar-chords.ts:18-22 | the first shape whose root is not a note name, or -1 when every root is one |
| GuitarChords.BarreChord | guitar/build-guitar-chords.ts:22 | getChord on a barre root gives a chord in root position |
| GuitarChords.BarreChordOutcome | guitar/build-guitar-chords.ts:22 | getChord on a barre root gives that chord, and throws for a root that is not a note name (see also chords.ts:194-203) |
| GuitarChords.FoldShapesFacts | guitar/build-guitar-chords.ts:18-25 | adding shapes keeps every name, and every list keeps its shapes at its front |
| GuitarChords.FoldShapesSnoc | guitar/build-guitar-chords.ts:20-24 | adding one more valid shape adds the twelve moved shapes of its chord |
| GuitarChords.SortedExtends | guitar/build-guitar-chords.ts:27 | sorting a table that extends the open chords keeps their names and shapes, and orders each list |
| GuitarChords.BuiltFacts | guitar/build-guitar-chords.ts:13-31 | a built table has every open chord's name with its open shapes among its shapes, and every list in order of lowest fret |
| GuitarChords.BuiltErr | guitar/build-guitar-chords.ts:18-22 | the first shape whose root is not a note name makes the build throw with that root |
| GuitarChords.AddShape | guitar/build-guitar-chords.ts:20-24 | one step of the inner loop: getChord throws for an invalid root, leaving the table, or the chord's twelve positions are added |
| GuitarChords.AddRootShapes | guitar/build-guitar-chords.ts:18-25 | the inner loop for one root adds its shapes in turn, and an error ends the whole build with it |
| GuitarChords.BuildGuitarChords | guitar/build-guitar-chords.ts:13-31 | the method computes the table of the build: the open chords, each barre shape added in turn, then every list sorted |
| GuitarChords.MinFretOf | guitar/build-guitar-chords.ts:66-75 | the lowest fret is 0 exactly when a string is open; any fret found is a sounding fret of the tab |
| GuitarChords.Flatten | guitar/build-guitar-chords.ts:18-21 | every barre shape visited belongs to a root of the barre table |
| GuitarChords.FoldShapes | guitar/build-guitar-chords.ts:18-25 | adding barre shapes keeps every chord name already in the table |
| GuitarChords.Built | guitar/build-guitar-chords.ts:13-31 | building throws exactly when a barre root is not a note name, and then InvalidNoteName; the built table keeps every open chord name |
| DefaultTuning.DefaultOpenNotes | guitar/default-tuning.ts:6-13 | the open strings are E4 B3 G3 D3 A2 E2, with pitch classes 4 11 7 2 9 4 and MIDI numbers 64 59 55 50 45 40 |
| DefaultTuning.FlattenRootsValid | guitar/default-tuning.ts:91-95 | shapes on note-name roots flatten to shapes on note-name roots (see also guitar/default-tuning.ts:23-57) |
| DefaultTuning.DefaultTables | guitar/default-tuning.ts:23-57 | the barre table has 24 shapes, all on note-name roots |
| DefaultTuning.BuildDefaultChords | guitar/default-tuning.ts:161 | building the default table never throws; every open chord keeps its name and shapes and every list is ordered by lowest fret (see also guitar/default-tuning.ts:86-104) |
| DefaultTuning.DefaultTuningGuitarLookup | guitar/default-tuning.ts:161-163 | the lookup over the built table and the open strings (see also guitar/default-tuning.ts:18-20) |
| DefaultTuning.DefaultGetNote | guitar/guitar-lookup-service.ts:74-76 | string s at fret f has pitch class open(s) + f with open pitch classes 4 11 7 2 9 4; strings beyond the sixth throw (see also spec/guitar-lookup-service.spec.ts:5-19) |
| DefaultTuning.CMajorNames | guitar/build-guitar-chords.ts:33-45 | the C shape on fret 0, the A shape on fret 3 and the E shape on fret 8 all name "C" (see also spec/guitar-lookup-service.spec.ts:21-24) |
| DefaultTuning.CMajorShapes | guitar/build-guitar-chords.ts:47-64 | those three shapes are the tabs expected for C, in lowest-fret order once sorted (see also spec/guitar-lookup-service.spec.ts:21-24) |
| DefaultTuning.CSharpMinorShape | guitar/build-guitar-chords.ts:33-54 | the C minor shape moved up one fret is the C#m tab [-1, 4, 2, 1, 2, -1] (see also spec/guitar-lookup-service.spec.ts:26) |
| GuitarLookup.GetNote | guitar/guitar-lookup-service.ts:74-76 | getNote succeeds exactly for an existing string, sounding fret semitones above its open note; a missing string throws |
| GuitarLookup.Reversed | guitar/guitar-lookup-service.ts:80-82 | reversing keeps the length |
| GuitarLookup.ReversedTwice | guitar/guitar-lookup-service.ts:80-82 | reversing twice is the identity |
| GuitarLookup.NotesOfTab | guitar/guitar-lookup-service.ts:78-83 | the notes exist exactly when every sounding position has a string; position j uses string (tab length) - 1 - j and a muted position gives no note |
| GuitarLookup.NotesOfTabPitch | guitar/guitar-lookup-service.ts:78-83 | the note at position j sounds its fret above the open note of string (tab length) - 1 - j |
| GuitarLookup.ReverseInPlace | guitar/guitar-lookup-service.ts:80 | `tab.reverse()` reverses the array in place |
| GuitarLookup.GetNotesAsWritten | guitar/guitar-lookup-service.ts:78-83 | as written, getNotes returns the tab's notes but leaves the caller's tab reversed |
| GuitarLookup.MappedStrings | guitar/guitar-lookup-service.ts:80-82 | mapping the reversed tab string by string and reversing the result gives the tab's notes |
| GuitarLookup.GetNotesReversesTab | guitar/guitar-lookup-service.ts:80 | the C major tab comes back from getNotes back to front, and differs from the tab (see also spec/guitar-lookup-service.spec.ts:22) |
| GuitarLookup.GetNotes | guitar/guitar-lookup-service.ts:78-83 | corrected: getNotes on a copy gives the same notes and leaves the caller's tab alone |
| GuitarLookup.GetChordTabs | guitar/guitar-lookup-service.ts:85-88 | the stored shapes of the chord, undefined exactly when it is not in the table |
| GuitarLookup.GetChordTab | guitar/guitar-lookup-service.ts:90-94 | one stored shape, undefined exactly for a chord not in the table or a variation it lacks |
| GuitarLookup.GetChordVariationCount | guitar/guitar-lookup-service.ts:96-99 | the number of stored shapes, 0 for a chord not in the table |
| GuitarLookup.ChordTabsAgree | guitar/guitar-lookup-service.ts:85-99 | "M" and "" name the same chord; a variation has a shape exactly below the count, and it is the list's entry |
| GuitarLookup.FirstSame | guitar/guitar-lookup-service.ts:104 | findIndex: -1 exactly when no later note has the pitch class, otherwise the first such place |
| GuitarLookup.FirstSameByNumber | guitar/guitar-lookup-service.ts:104 | the search depends only on the pitch class searched (see also notes.ts:103) |
| GuitarLookup.FilteredFrom | guitar/guitar-lookup-service.ts:104 | a note is kept exactly when it comes from a kept place |
| GuitarLookup.KeptIsNew | guitar/guitar-lookup-service.ts:104 | a kept note's pitch class is not among those kept before it |
| GuitarLookup.AppendDistinct | guitar/guitar-lookup-service.ts:104 | appending a new pitch class keeps the pitch classes distinct |
| GuitarLookup.FilteredDistinct | guitar/guitar-lookup-service.ts:104 | no two kept notes share a pitch class |
| GuitarLookup.FilteredFacts | guitar/guitar-lookup-service.ts:104 | the filter keeps only sounding notes, no pitch class twice and every sounding pitch class once; it is empty exactly when no string sounds |
| GuitarLookup.FilteredSounding | guitar/guitar-lookup-service.ts:104 | every kept note sounds on some string |
| GuitarLookup.FilteredCovers | guitar/guitar-lookup-service.ts:104 | every sounding pitch class is kept |
| GuitarLookup.FilteredBass | guitar/guitar-lookup-service.ts:104 | the first kept note is the first sounding one |
| GuitarLookup.FilteredNone | guitar/guitar-lookup-service.ts:104 | nothing is kept when no string sounds |
| GuitarLookup.ChordFromTabMuted | guitar/guitar-lookup-service.ts:101-106 | a tab with every string muted makes the lookup throw (see also chord-lookup.ts:8-18) |
| GuitarLookup.ChordFromTabBass | guitar/guitar-lookup-service.ts:101-106 | otherwise the lowest sounding string's note is looked up first, so a chord found is over that note's name |
| GuitarLookup.GetChordFromTab | guitar/guitar-lookup-service.ts:101-106 | getChordFromTab reads the tab through the copying getNotes |
| GuitarLookup.Filtered | guitar/guitar-lookup-service.ts:104 | the filter keeps at most as many notes as it scans |
| GuitarLookup.ChordFromTab | guitar/guitar-lookup-service.ts:101-106 | a tab naming a missing string throws; a chord found has a quality of the table and its root at octave 4 |
| Chords.InvertedTones | chords.ts:266-272 | shifting keeps the number of tones |
| Chords.RotateLeft | chords.ts:266-272 | a rotation keeps the number of tones |
| Chords.MakeChord | chords.ts:108-118 | a chord built keeps root and bass and reads the empty quality as "M"; a chord whose bass shares the root's pitch class is always built |
| Chords.ChordTones | chords.ts:244-264 | the tones exist exactly for a known quality, one per interval of the quality; an unknown quality is an error |
| Chords.RootPositionTones | chords.ts:244-255 | root position has one tone per interval (the root alone when there are none), the root first |
| Chords.SpellTone | chords.ts:250-253 | a spelled tone always has the pitch class of the pitch it spells, whichever spelling is chosen |
| Chords.Name | chords.ts:117 | the chord's name starts with the root's name |
| Chords.AliasChord | chords.ts:119-125 | a chord whose root has no alias is returned itself; otherwise the chord over the root's alias, the same pitch class, keeping the quality; a built alias chord has a bass of the same pitch class and is inverted exactly when the chord is |
| Chords.GetInversion | chords.ts:152-154 | inversion i, for i within the chord's tone list, is the chord on the same root and quality over tone i, and it always builds; an inversion keeps the root and the quality ("" read as M); an unknown quality throws |
| Chords.InversionStartsAtTone | chords.ts:60-64 | inversion i sounds tone i in the bass: its own tone list starts at that tone's pitch class (C-0 is CEG, C-1 is EGC, C-2 is GCE) |
| Chords.ChordTonesPermute | chords.ts:257-262 | whatever the bass, a chord's tones are its root-position tones in some order |
| Chords.InversionBuilds | chords.ts:108-118 | any tone of a chord, taken as the bass over the same root and quality, passes the constructor's membership check |
| Chords.TransposeChord | chords.ts:156-158 | root and bass of the transposed chord both sound `steps` semitones away from the original's |
| Chords.ChordEquals | chords.ts:164-166 | `equals` compares names: the same root, quality and bass spellings make chords equal, and for table qualities equal chords have the same root spelling and quality, are both or neither inverted, and inverted ones have the same bass spelling |
| Chords.NamesDetermineChords | chords.ts:117 | for table qualities, two chords have the same name exactly when root spelling, quality and inversion agree and inverted ones share the bass spelling |
| Chords.QualityCharacters | chords.ts:9-27 | no quality of the table contains "/" or begins with "#" or "b" (each begins with one of M, m, 7, d, s, a, 5, 9), so the name's parts split back apart |
| Chords.EqualsIgnoreBass | chords.ts:168-171 | `equalsIgnoreBass` holds exactly when the roots share a pitch class and the qualities agree |
| Chords.ChordIsSameAs | chords.ts:173-177 | `isSameAs` holds exactly when roots and basses share pitch classes and the qualities agree |
| Chords.GetChordByName | chords.ts:194-203 | a root text that is not a note name throws InvalidNoteName; a chord built has the root of that name at octave 4, and without a bass the bass is the root |
| Chords.ParseChord | chords.ts:210-224 | parseChord gives undefined exactly when the text has no letter A..G; a chord found is at octave 4 with a non-empty quality |
| CircleOfFifths.RomanNumeral | circle-of-fifths.ts:121-126 | getDegreeRomanNumeral gives a non-empty numeral |
| CircleOfFifths.TonicIndex | circle-of-fifths.ts:129-131 | the tonic's index is a place 0..11 of the circle whose note shares the tonic's pitch class |
| CircleOfFifths.CofNoteNumber | circle-of-fifths.ts:19 | the circle note at any place, wrapping around both ways, sounds 7 * place mod 12 semitones above C |
| Format.ReplaceAll | util/format.ts:7-16 | a global one-character replace keeps the length and changes exactly the occurrences of that character |
| Format.FormatCharacters | util/format.ts:5-8 | formatAccidentals keeps the length, turns exactly each 'b' into ♭ and each '#' into ♯, and leaves neither behind |
| Format.UnformatCharacters | util/format.ts:14-17 | unformatAccidentals keeps the length, turns exactly each ♭ into 'b' and each ♯ into '#', and leaves neither sign behind |
| Format.FormatIdempotent | util/format.ts:5-8 | formatting twice is formatting once |
| Format.UnformatFormat | util/format.ts:5-17 | text without the signs comes back from formatting and unformatting unchanged |
| Format.FormatUnformat | util/format.ts:5-17 | text without 'b' and '#' comes back from unformatting and formatting unchanged |
| Format.FormatExample | util/format.ts:5-8 | "Bbm7/F#" prints as "B♭m7/F♯" |
| Format.FormatAccidentals | util/format.ts:5-8 | formatting keeps the length and leaves no 'b' and no '#' |
| Format.UnformatAccidentals | util/format.ts:14-17 | unformatting keeps the length and leaves no ♭ and no ♯ |
| JsArith.JsRemFloor | util/circular-list.ts:22-25 | JavaScript's `%` with a positive divisor lies strictly between -b and b, agrees with the Euclidean remainder on non-negative dividends, and is b below it when negative (see also chords.ts:250) |
| JsArith.JsRemNegative | util/circular-list.ts:22-25 | for a negative dividend `%` is the negated remainder of -a: zero exactly when the Euclidean one is, and otherwise b below it (see also notes.ts:203) |
| JsArith.JsRem | chords.ts:250 | JavaScript's `%` lies strictly between -abs(b) and abs(b) and takes the dividend's sign |
| Sorting.SortByPermutes | notes.ts:271-275 | `sort` rearranges its input (see also guitar/build-guitar-chords.ts:60-62; circle-of-fifths.ts:77) |
| Sorting.SortBySorted | notes.ts:271-275 | `sort` orders its output by the comparator's key (see also guitar/build-guitar-chords.ts:60-62; circle-of-fifths.ts:77) |
| Sorting.SortByOfSorted | notes.ts:271-275 | input already in key order comes back unchanged, as a stable sort leaves it (see also guitar/build-guitar-chords.ts:60-62; circle-of-fifths.ts:77) |
| Sorting.SortByStable | guitar/build-guitar-chords.ts:60-62 | the sort is stable: for every key, the items with that key come out in their input order (see also notes.ts:271-275) |
| Sorting.InsertInto | guitar/build-guitar-chords.ts:60-62 | one insertion step puts `a[i]` into the sorted prefix and leaves the rest alone |
| Sorting.InsertionSort | guitar/build-guitar-chords.ts:60-62 | the array is sorted in place, stably, by the key |
| Sorting.SortBy | notes.ts:269-276 | `sort` keeps the number of items |
| Wrappers.IndexOf | scales.ts:216-217 | indexOf gives -1 exactly when the item is absent, and otherwise the first place holding it (see also scales.ts:185; scales/diatonic-scale.ts:97-98; circle-of-fifths.ts:137) |

## Left out

- I/O, randomness and clocks: the core has none. Floating point: every number the core handles is a small integer, so the model uses `int`. The one exception is `Number.MAX_VALUE`, covered below.
- GuitarChords.MinFretKey: `getMinFret` returns `Number.MAX_VALUE` for a tab with every string muted. The model returns `None`, and the sort key stands in `NO_FRET_KEY` (2^31 - 1), which is above every fret. The floating-point subtraction of the sort comparator becomes a comparison of keys.
- Sorting.InsertionSort: `Array.prototype.sort` is modelled as one stable sort, as the language has required since ES2019. The engine's own algorithm is not part of this model.
- Object identity of pooled notes and chords: modelled by value equality, as described above. The pool is modelled by `Notes.NotePool`; the functions that build notes (`Notes.GetNoteByName`, `Notes.GetNoteByNumber`) are its results for keys not yet pooled, so the rest of the model does not carry a pool, and a name that is not a spelling always throws there.
- MusicScaleBase.MusicScale.Equals: its own contract states only that a scale equals itself; when two different scales are equal is stated by `MusicScaleBase.EqualsByName`, for scales whose constant fields are derived as the constructor derives them.
- Notes.OctaveText: prints an octave as a plain decimal integer, as `String(n)` does for integers below 10^21. The exponent notation JavaScript uses for larger numbers is not modelled.
- Memo fields that only cache a pure value: the chord's `_notes` and the diatonic scale's `_accidental`. These are functions computed on demand. The scale, key and circle caches are kept as class fields.
- GuitarChords.BuildGuitarChords: `Object.assign({}, openPositions)` copies the dictionary but shares its arrays, so pushing barre shapes onto an open chord's list (such as "D") also grows the caller's open table. The model works on values, so this aliasing is not captured.
- DefaultTuning: guitar/default-tuning.ts carries its own copies of buildGuitarChords, addBarreChordPositions, moveBarreChord, sortGuitarChords and getMinFret (:86-158). They are the same code as guitar/build-guitar-chords.ts, so they are modelled once, by the `GuitarChords` members. The default table is built by a method call, not once at module load (:161-163).
- GuitarChords.BuiltFacts: the total shape count (open shapes + 12 per barre shape) is not stated. What is stated: each barre shape adds exactly one shape to each of its twelve chords and nothing elsewhere (`GuitarChords.AddBarreOnePerChord`), and the open shapes survive.
- Notes.GetNoteByName: `NOTES_BY_NAME[name]` (notes.ts:118-119) also finds keys inherited from `Object.prototype`, so `getNote("toString")` builds a note instead of throwing. The model's table holds only the 21 spellings, and every other name throws.
- Chords.GetChordIntervals: `CHORD_INTERVALS[quality]` (chords.ts:230-233) also finds inherited keys, so the tones of "CtoString" are [C4], because `toString.length` is 0. The model throws "Unknown quality" for every name outside the 17 qualities.
- Keys.FlatMajorKeys: states the corrected signature `Keys.KeySignature`. As written (keys.ts:88) F major and D minor get one sharp, not one flat; see Findings.
- Keys.MajorKeyAt: states the corrected signature, so F's place reads one flat where keys.ts:88 reads one sharp; see Findings.
- Keys.NoteInKeyByName: respells to the corrected signature, so Bb in F major stays Bb where keys.ts:102-105 give A#; see Findings.
- Keys.NoteInKeyByNumber: respells to the corrected signature, so pitch 10 in F major is Bb here and A# in keys.ts; see Findings.
- Keys.NumberInKey: "flat exactly when the key has flats" reads the corrected signature, under which F major and D minor have flats; see Findings.
- Keys.NotesInKey: the notes are respelled to the corrected signature, so F major has Bb where keys.ts gives A#; see Findings.
- Keys.NotesInKeyAccidentals: the key's kind of accidental is the corrected one, flat for F major and D minor; see Findings.
- Keys.ChordsInKey: built on the corrected signature, so F major's fourth chord is Bb, not A#; see Findings.
- Keys.Key.Signature: caches the corrected signature, {b, 1} for F major where getKeySignature gives {#, 1}; see Findings.
- Keys.Key.Chords: caches the chords of the corrected spelling; see Findings.
- Keys.Key.GetNoteInKeyByName: respells to the corrected signature; see Findings.
- Keys.Key.GetNoteInKeyByNumber: respells to the corrected signature; see Findings.
- ChordProgression.Calculator.constructor: holds the corrected table `ChordProgression.Progressions` of the normalised mode, not the choice by `modeAlias === "minor"` of chord-progression-calculator.ts:54, so a scale built as "minor" gets the minor table here and the major one in the source; see Findings.
- ChordProgression.Calculator.NextChords: reads the corrected table, so a scale built as "minor" gets minor rows where the source gives major rows; see Findings.
- GuitarLookup.GetChordFromTab: reads the tab through the corrected, copying `GuitarLookup.GetNotes`, so the caller's tab is left as it was. In the source `getChordFromTab` calls `getNotes` (guitar/guitar-lookup-service.ts:102), which reverses the caller's array (:80); see Findings.
- Keys: keys.ts imports `getScale` from "./scales", which resolves to scales.ts, and that file does not export it. So the `notes` getter (keys.ts:38-40,92-94) has no member of its own. For the scale of getChordsInKey (keys.ts:124) only the pitch numbers are read, so the model builds those notes from the tonic and the ionian or aeolian intervals (`Keys.KeyIntervals`).
- ukulele/default-tuning.ts: only tables and a call to a builder whose file is not part of this model. index.ts: re-exports only.
- toString, toJSON, deserializeNote and the `formattedName` getters: each is the name or `formatAccidentals` of it, and `Format` covers that.
- The regular expressions of parseNote, parseChord, parseScale and parseKey: each becomes a hand-written scanner with the same unanchored, first-match behaviour and the same character classes, `,` and `|` accepted included.
- Concrete test instances such as A F# D B → Bm7/A and A Ab → none are not evaluated one by one. The general lemmas cover them: `ChordLookup.ChordFromNotesFound` and `ChordLookup.ChordFromNotesNone`.
- Commented-out code (scales.ts:236-257, scales/music-scale.ts:198-209) and the test files under spec/. The tests serve only as evidence for expected values.

## Findings

| source | as written | input that shows it | evidently intended | confidence | as-written member | corrected member |
|---|---|---|---|---|---|---|
| keys.ts:88 | the accidental is the key name's second character, or "#" when there is none | F major (index 19) and D minor (which moves to index 19) get one sharp, and F major then respells Bb as A# | one flat for F major and D minor, like the other six names on the flat side of the table | not executed | Keys.KeySignatureAsWritten, Keys.FMajorSignature | Keys.KeySignature |
| chord-progression-calculator.ts:54 | the minor table is chosen when `key.modeAlias === "minor"` | a diatonic scale in mode "minor" has the alias "aeolian", so it gets the major table; only the raw mode "aeolian" gets the minor one | the minor table for every minor scale, whichever name it was given | not executed | ChordProgression.ProgressionsAsWritten, ChordProgression.MinorModeGetsMajorTable | ChordProgression.Progressions |
| guitar/guitar-lookup-service.ts:80 | `tab.reverse()` reverses the caller's array in place | getNotes([-1, 3, 2, 0, 1, 0]) leaves the caller holding [0, 1, 0, 2, 3, -1] | read the tab without changing it (`tab.slice().reverse()`) | not executed | GuitarLookup.GetNotesAsWritten, GuitarLookup.GetNotesReversesTab | GuitarLookup.GetNotes |

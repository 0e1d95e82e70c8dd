/** Note spellings, pitch numbers and octaves (notes.ts). */
module Notes {
  import opened Wrappers
  import opened JsArith
  import Sorting

  datatype Letter = C | D | E | F | G | A | B

  datatype Accidental = Natural | Sharp | Flat

  /** One of the 21 spellings of the note-name table: the 21 keys are exactly the seven
      letters, each bare, with '#' and with 'b'. */
  datatype NoteName = NoteName(letter: Letter, accidental: Accidental)

  /** A note is a spelling at an octave. The library pools its note objects by name and octave,
      so object identity of notes is equality of these values. */
  datatype Note = Note(name: NoteName, octave: int)

  // ---------------------------------------------------------------------------------------
  // Spelling text

  function LetterChar(l: Letter): char
  {
    match l
    case C => 'C'
    case D => 'D'
    case E => 'E'
    case F => 'F'
    case G => 'G'
    case A => 'A'
    case B => 'B'
  }

  function AccidentalText(a: Accidental): string
  {
    match a
    case Natural => ""
    case Sharp => "#"
    case Flat => "b"
  }

  /** The name as the library writes it, e.g. "C#". */
  function NameText(n: NoteName): string
  {
    [LetterChar(n.letter)] + AccidentalText(n.accidental)
  }

  predicate IsNoteLetter(c: char)
  {
    'A' <= c <= 'G'
  }

  function LetterOf(c: char): Letter
    requires IsNoteLetter(c)
  {
    if c == 'A' then A else if c == 'B' then B else if c == 'C' then C
    else if c == 'D' then D else if c == 'E' then E else if c == 'F' then F else G
  }

  /** The table lookup by key: the spelling whose text is `s`, if there is one. */
  function ParseNoteName(s: string): (r: Option<NoteName>)
    ensures r.Some? ==> NameText(r.value) == s
    ensures r.None? ==> 1 <= |s| <= 2 ==> !IsNoteLetter(s[0]) || (|s| == 2 && s[1] != '#' && s[1] != 'b')
  {
    if |s| == 1 && IsNoteLetter(s[0]) then Some(NoteName(LetterOf(s[0]), Natural))
    else if |s| == 2 && IsNoteLetter(s[0]) && s[1] == '#' then Some(NoteName(LetterOf(s[0]), Sharp))
    else if |s| == 2 && IsNoteLetter(s[0]) && s[1] == 'b' then Some(NoteName(LetterOf(s[0]), Flat))
    else None
  }

  /** The table has exactly the 21 spellings as keys: a lookup succeeds exactly on their texts. */
  lemma ParseNoteNameIff(s: string, n: NoteName)
    ensures ParseNoteName(s) == Some(n) <==> NameText(n) == s
  {
    if NameText(n) == s {
      assert s[0] == LetterChar(n.letter);
    }
  }

  // ---------------------------------------------------------------------------------------
  // The note-name table

  /** Pitch number of a spelling in integer notation (C = 0, B = 11). */
  function Number(n: NoteName): int
  {
    match n
    case NoteName(B, Sharp) => 0
    case NoteName(C, Natural) => 0
    case NoteName(C, Sharp) => 1
    case NoteName(D, Flat) => 1
    case NoteName(D, Natural) => 2
    case NoteName(D, Sharp) => 3
    case NoteName(E, Flat) => 3
    case NoteName(E, Natural) => 4
    case NoteName(F, Flat) => 4
    case NoteName(E, Sharp) => 5
    case NoteName(F, Natural) => 5
    case NoteName(F, Sharp) => 6
    case NoteName(G, Flat) => 6
    case NoteName(G, Natural) => 7
    case NoteName(G, Sharp) => 8
    case NoteName(A, Flat) => 8
    case NoteName(A, Natural) => 9
    case NoteName(A, Sharp) => 10
    case NoteName(B, Flat) => 10
    case NoteName(B, Natural) => 11
    case NoteName(C, Flat) => 11
  }

  /** The enharmonic alias of a spelling; D, G and A have none. */
  function AliasName(n: NoteName): (r: Option<NoteName>)
    ensures r.Some? ==> Number(r.value) == Number(n) && r.value != n
    ensures r.None? <==> n.accidental == Natural && n.letter in {D, G, A}
  {
    match n
    case NoteName(B, Sharp) => Some(NoteName(C, Natural))
    case NoteName(C, Natural) => Some(NoteName(B, Sharp))
    case NoteName(C, Sharp) => Some(NoteName(D, Flat))
    case NoteName(D, Flat) => Some(NoteName(C, Sharp))
    case NoteName(D, Natural) => None
    case NoteName(D, Sharp) => Some(NoteName(E, Flat))
    case NoteName(E, Flat) => Some(NoteName(D, Sharp))
    case NoteName(E, Natural) => Some(NoteName(F, Flat))
    case NoteName(F, Flat) => Some(NoteName(E, Natural))
    case NoteName(E, Sharp) => Some(NoteName(F, Natural))
    case NoteName(F, Natural) => Some(NoteName(E, Sharp))
    case NoteName(F, Sharp) => Some(NoteName(G, Flat))
    case NoteName(G, Flat) => Some(NoteName(F, Sharp))
    case NoteName(G, Natural) => None
    case NoteName(G, Sharp) => Some(NoteName(A, Flat))
    case NoteName(A, Flat) => Some(NoteName(G, Sharp))
    case NoteName(A, Natural) => None
    case NoteName(A, Sharp) => Some(NoteName(B, Flat))
    case NoteName(B, Flat) => Some(NoteName(A, Sharp))
    case NoteName(B, Natural) => Some(NoteName(C, Flat))
    case NoteName(C, Flat) => Some(NoteName(B, Natural))
  }

  /** The standard spelling of each pitch number 0..11. */
  const STANDARD_NOTE_NAMES: seq<NoteName> := [
    NoteName(C, Natural), NoteName(C, Sharp), NoteName(D, Natural), NoteName(E, Flat),
    NoteName(E, Natural), NoteName(F, Natural), NoteName(F, Sharp), NoteName(G, Natural),
    NoteName(A, Flat), NoteName(A, Natural), NoteName(B, Flat), NoteName(B, Natural)]

  function LetterNumber(l: Letter): int
  {
    match l
    case C => 0
    case D => 2
    case E => 4
    case F => 5
    case G => 7
    case A => 9
    case B => 11
  }

  function AccidentalOffset(a: Accidental): int
  {
    match a
    case Natural => 0
    case Sharp => 1
    case Flat => -1
  }

  /** The table's numbers are those of the letter, raised or lowered by the accidental, and all
      lie in 0..11. */
  lemma NumberOfSpelling(n: NoteName)
    ensures Number(n) == (LetterNumber(n.letter) + AccidentalOffset(n.accidental)) % 12
    ensures 0 <= Number(n) < 12
  {
  }

  /** The standard table spells pitch number i. */
  lemma StandardNameNumber(i: int)
    requires 0 <= i < 12
    ensures Number(STANDARD_NOTE_NAMES[i]) == i
  {
  }

  /** The alias is exactly the other spelling of the same pitch number. */
  lemma AliasIsOtherSpelling(n: NoteName, m: NoteName)
    ensures AliasName(n) == Some(m) <==> (m != n && Number(m) == Number(n))
  {
  }

  /** Alias pairs are symmetric, keep the number and always differ in accidental. */
  lemma AliasInvolution(n: NoteName)
    ensures AliasName(n).Some? ==> AliasName(AliasName(n).value) == Some(n)
    ensures AliasName(n).Some? ==> Number(AliasName(n).value) == Number(n)
    ensures AliasName(n).Some? ==> AliasName(n).value.accidental != n.accidental
  {
  }

  /** D, G and A are the only spellings without an alias. */
  lemma NoAliasExactly(n: NoteName)
    ensures AliasName(n).None? <==> n in {NoteName(D, Natural), NoteName(G, Natural), NoteName(A, Natural)}
  {
  }

  /** Every spelling with an accidental is the standard spelling of its number or that
      spelling's alias. */
  lemma StandardOrAlias(n: NoteName)
    ensures n == STANDARD_NOTE_NAMES[Number(n)] || AliasName(STANDARD_NOTE_NAMES[Number(n)]) == Some(n)
  {
  }

  // ---------------------------------------------------------------------------------------
  // Note getters

  function NoteNumber(n: Note): int
  {
    Number(n.name)
  }

  /** MIDI number, where A0 is 21 and C4 is 60. */
  function MidiNumber(n: Note): (r: int)
    ensures r % 12 == Number(n.name) && r / 12 == n.octave + 1
  {
    NumberOfSpelling(n.name);
    ModUnique(n.octave * 12 + Number(n.name) + 12, 12, n.octave + 1, Number(n.name));
    n.octave * 12 + Number(n.name) + 12
  }

  /** Piano key number, where A0 is 1 and C4 is 40. */
  function KeyNumber(n: Note): (r: int)
    ensures r == MidiNumber(n) - 20
    ensures r == 12 * n.octave + Number(n.name) - 8
  {
    MidiNumber(n) - 20
  }

  lemma MidiAndKeyNumbers()
    ensures MidiNumber(Note(NoteName(C, Natural), 4)) == 60 && KeyNumber(Note(NoteName(C, Natural), 4)) == 40
    ensures MidiNumber(Note(NoteName(A, Natural), 0)) == 21 && KeyNumber(Note(NoteName(A, Natural), 0)) == 1
  {
  }

  /** The note with the alias spelling at the same octave; None for D, G and A. */
  function Alias(n: Note): (r: Option<Note>)
    ensures r.Some? ==> r.value.octave == n.octave && NoteNumber(r.value) == NoteNumber(n) && r.value.name != n.name
    ensures r.None? <==> AliasName(n.name).None?
  {
    match AliasName(n.name)
    case None => None
    case Some(a) => Some(Note(a, n.octave))
  }

  function AccidentalOf(n: Note): Accidental
  {
    n.name.accidental
  }

  /** `charAt(i)`: the character at index i as a string, or "" past the end. */
  function CharAt(s: string, i: nat): string
  {
    if i < |s| then [s[i]] else ""
  }

  /** `hasAccidental`, `isSharp` and `isFlat` read the name's second character. */
  function HasAccidental(n: Note): (r: bool)
    ensures r <==> CharAt(NameText(n.name), 1) != ""
  {
    |AccidentalText(AccidentalOf(n))| > 0
  }

  function IsSharp(n: Note): (r: bool)
    ensures r <==> CharAt(NameText(n.name), 1) == "#"
  {
    AccidentalText(AccidentalOf(n)) == "#"
  }

  function IsFlat(n: Note): (r: bool)
    ensures r <==> CharAt(NameText(n.name), 1) == "b"
  {
    AccidentalText(AccidentalOf(n)) == "b"
  }

  /** The accidental is the second character of the name, and the three predicates read it. */
  lemma AccidentalIsSecondCharacter(n: Note)
    ensures AccidentalText(AccidentalOf(n)) == CharAt(NameText(n.name), 1)
    ensures HasAccidental(n) <==> (IsSharp(n) || IsFlat(n))
    ensures !(IsSharp(n) && IsFlat(n))
    ensures IsSharp(n) <==> AccidentalOf(n) == Sharp
    ensures IsFlat(n) <==> AccidentalOf(n) == Flat
  {
  }

  // ---------------------------------------------------------------------------------------
  // getNote

  /** The absolute pitch in half steps from C0. */
  function AbsolutePitch(n: Note): int
  {
    n.octave * 12 + Number(n.name)
  }

  /** `getNote(number, octave)`: the standard spelling of the number, with the octave carried by
      the floor of number / 12. */
  function GetNoteByNumber(number: int, octave: int): (r: Note)
    ensures Number(r.name) == number % 12
    ensures r.name == STANDARD_NOTE_NAMES[number % 12]
    ensures AbsolutePitch(r) == octave * 12 + number
  {
    var num := Abs(JsRem(if number < 0 then 12 + JsRem(number, 12) else number, 12));
    StandardIndex(number);
    StandardNameNumber(num);
    Note(STANDARD_NOTE_NAMES[num], octave + number / 12)
  }

  /** getNote's index into the standard names is the Euclidean remainder of the number by 12. */
  lemma StandardIndex(number: int)
    ensures Abs(JsRem(if number < 0 then 12 + JsRem(number, 12) else number, 12)) == number % 12
  {
    JsRemFloor(number, 12);
    if number < 0 {
      var m := 12 + JsRem(number, 12);
      JsRemFloor(m, 12);
      if JsRem(number, 12) < 0 {
        assert m == number % 12;
      } else {
        assert m == 12 && number % 12 == 0;
      }
    }
  }

  /** A number within one octave gets its standard spelling in the given octave. */
  lemma StandardNote(p: int, octave: int)
    requires 0 <= p < 12
    ensures GetNoteByNumber(p, octave) == Note(STANDARD_NOTE_NAMES[p], octave)
  {
  }

  /** getNote's documented examples. */
  lemma GetNoteExamples()
    ensures GetNoteByNumber(-1, 4) == Note(NoteName(B, Natural), 3)
    ensures GetNoteByNumber(-13, 4) == Note(NoteName(B, Natural), 2)
    ensures GetNoteByNumber(25, 4) == Note(NoteName(C, Sharp), 6)
    ensures GetNoteByNumber(0, 4) == Note(NoteName(C, Natural), 4)
  {
  }

  /** `getNote(name, octave)`: the note-name table lookup, or the constructor's error. */
  function GetNoteByName(name: string, octave: int): (r: Result<Note>)
    ensures r.Ok? <==> ParseNoteName(name).Some?
    ensures r.Ok? ==> r.value == Note(ParseNoteName(name).value, octave)
    ensures r.Err? ==> r.error == InvalidNoteName(name)
  {
    match ParseNoteName(name)
    case None => Err(InvalidNoteName(name))
    case Some(n) => Ok(Note(n, octave))
  }

  /** `transpose(steps)`: the note the given number of half steps away, standard spelling. */
  function Transpose(n: Note, steps: int): (r: Note)
    ensures AbsolutePitch(r) == AbsolutePitch(n) + steps
    ensures r.name == STANDARD_NOTE_NAMES[(Number(n.name) + steps) % 12]
  {
    GetNoteByNumber(Number(n.name) + steps, n.octave)
  }

  /** Transposition moves the absolute pitch (and so the MIDI number) by exactly `steps` and
      always gives the standard spelling. */
  lemma TransposePitch(n: Note, steps: int)
    ensures AbsolutePitch(Transpose(n, steps)) == AbsolutePitch(n) + steps
    ensures MidiNumber(Transpose(n, steps)) == MidiNumber(n) + steps
    ensures Number(Transpose(n, steps).name) == (Number(n.name) + steps) % 12
    ensures Transpose(n, steps).name == STANDARD_NOTE_NAMES[(Number(n.name) + steps) % 12]
  {
    NumberOfSpelling(n.name);
  }

  /** Transposing by zero respells in the standard spelling: Db becomes C#. */
  lemma TransposeZeroRespells()
    ensures Transpose(Note(NoteName(D, Flat), 4), 0) == Note(NoteName(C, Sharp), 4)
    ensures Transpose(Note(NoteName(B, Natural), 4), 1) == Note(NoteName(C, Natural), 5)
    ensures Transpose(Note(NoteName(C, Natural), 4), -1) == Note(NoteName(B, Natural), 3)
  {
  }

  /** Same pitch and octave, whatever the spelling. */
  function Equals(a: Note, b: Note): (r: bool)
    ensures r <==> AbsolutePitch(a) == AbsolutePitch(b)
  {
    NumberOfSpelling(a.name);
    NumberOfSpelling(b.name);
    ModUnique(AbsolutePitch(a), 12, a.octave, Number(a.name));
    ModUnique(AbsolutePitch(b), 12, b.octave, Number(b.name));
    Number(a.name) == Number(b.name) && a.octave == b.octave
  }

  /** Same pitch class, whatever the spelling and octave. */
  function EqualsIgnoreOctave(a: Note, b: Note): (r: bool)
    ensures r <==> AbsolutePitch(a) % 12 == AbsolutePitch(b) % 12
  {
    NumberOfSpelling(a.name);
    NumberOfSpelling(b.name);
    ModUnique(AbsolutePitch(a), 12, a.octave, Number(a.name));
    ModUnique(AbsolutePitch(b), 12, b.octave, Number(b.name));
    Number(a.name) == Number(b.name)
  }

  function IsSameAs(a: Note, b: Note): (r: bool)
    ensures r <==> AbsolutePitch(a) % 12 == AbsolutePitch(b) % 12
  {
    EqualsIgnoreOctave(a, b)
  }

  /** equals is equality of MIDI numbers; equalsIgnoreOctave and isSameAs are equality of MIDI
      numbers modulo 12. */
  lemma EqualitiesByMidi(a: Note, b: Note)
    ensures Equals(a, b) <==> MidiNumber(a) == MidiNumber(b)
    ensures EqualsIgnoreOctave(a, b) <==> MidiNumber(a) % 12 == MidiNumber(b) % 12
    ensures IsSameAs(a, b) <==> EqualsIgnoreOctave(a, b)
  {
    NumberOfSpelling(a.name);
    NumberOfSpelling(b.name);
    var ma, mb := MidiNumber(a), MidiNumber(b);
    assert ma == (a.octave + 1) * 12 + Number(a.name);
    assert mb == (b.octave + 1) * 12 + Number(b.name);
    assert ma % 12 == Number(a.name) && ma / 12 == a.octave + 1;
    assert mb % 12 == Number(b.name) && mb / 12 == b.octave + 1;
  }

  // ---------------------------------------------------------------------------------------
  // The note pool

  /** A natural number in decimal, as `String(n)` prints it. */
  function DecimalText(n: nat): (r: string)
    ensures |r| > 0 && forall i :: 0 <= i < |r| ==> IsDigit(r[i])
    ensures |r| == 1 <==> n < 10
    decreases n
  {
    if n < 10 then [DigitChar(n)] else DecimalText(n / 10) + [DigitChar(n % 10)]
  }

  /** The value of a run of decimal digits. */
  function DecimalValue(s: string): nat
  {
    if |s| == 0 then 0
    else
      var d := s[|s| - 1] as int - '0' as int;
      DecimalValue(s[..|s| - 1]) * 10 + (if 0 <= d <= 9 then d else 0)
  }

  /** Reading a printed number back gives the number, so different numbers print differently. */
  lemma {:induction false} DecimalRoundTrip(n: nat)
    ensures DecimalValue(DecimalText(n)) == n
    decreases n
  {
    var s := DecimalText(n);
    if n >= 10 {
      DecimalRoundTrip(n / 10);
      assert s[..|s| - 1] == DecimalText(n / 10);
    }
  }

  /** An octave as `noteName + octave` prints it: a minus sign before a negative one. */
  function OctaveText(octave: int): (r: string)
    ensures |r| > 0 && (r[0] == '-' || IsDigit(r[0]))
    ensures r[0] == '-' <==> octave < 0
  {
    if octave < 0 then "-" + DecimalText(-octave) else DecimalText(octave)
  }

  lemma DecimalTextInjective(x: nat, y: nat)
    requires DecimalText(x) == DecimalText(y)
    ensures x == y
  {
    DecimalRoundTrip(x);
    DecimalRoundTrip(y);
  }

  lemma OctaveTextInjective(a: int, b: int)
    requires OctaveText(a) == OctaveText(b)
    ensures a == b
  {
    if a < 0 {
      assert b < 0;
      var da, db := DecimalText(-a), DecimalText(-b);
      assert da == ("-" + da)[1..] && db == ("-" + db)[1..];
      DecimalTextInjective(-a, -b);
    } else {
      assert b >= 0;
      DecimalTextInjective(a, b);
    }
  }

  /** The pool's key: the requested name followed by the octave. */
  function PoolKey(name: string, octave: int): (r: string)
    ensures |r| > |name| && r[..|name|] == name
  {
    name + OctaveText(octave)
  }

  /** A spelling followed by a text that does not start with an accidental splits back into
      the two. */
  lemma NameTextSplit(n1: NoteName, w1: string, n2: NoteName, w2: string)
    requires |w1| > 0 ==> w1[0] != '#' && w1[0] != 'b'
    requires |w2| > 0 ==> w2[0] != '#' && w2[0] != 'b'
    requires NameText(n1) + w1 == NameText(n2) + w2
    ensures n1 == n2 && w1 == w2
  {
    var a, b := NameText(n1), NameText(n2);
    var s := a + w1;
    if |a| != |b| {
      SecondCharacter(n1, w1);
      SecondCharacter(n2, w2);
      assert false;
    }
    assert a == s[..|a|] == b;
    assert w1 == s[|a|..] == w2;
    ParseNoteNameIff(a, n1);
    ParseNoteNameIff(a, n2);
  }

  /** Whether a spelling has an accidental shows in the second character of any text it
      begins, when that text goes on without an accidental. */
  lemma SecondCharacter(n: NoteName, w: string)
    requires |w| > 0 ==> w[0] != '#' && w[0] != 'b'
    ensures |NameText(n) + w| > 1 ==> ((NameText(n) + w)[1] in {'#', 'b'} <==> |NameText(n)| == 2)
  {
    if |NameText(n)| == 1 && |w| > 0 {
      assert (NameText(n) + w)[1] == w[0];
    }
  }

  /** Spellings at octaves have different keys, so only a text that is not a spelling can
      meet another note's key. */
  lemma PoolKeyOfNames(n1: NoteName, o1: int, n2: NoteName, o2: int)
    ensures PoolKey(NameText(n1), o1) == PoolKey(NameText(n2), o2) <==> n1 == n2 && o1 == o2
  {
    if PoolKey(NameText(n1), o1) == PoolKey(NameText(n2), o2) {
      NameTextSplit(n1, OctaveText(o1), n2, OctaveText(o2));
      OctaveTextInjective(o1, o2);
    }
  }

  /** "C" at octave 14 and "C1" at octave 4 share the key "C14". */
  lemma PoolKeyCollision()
    ensures PoolKey("C", 14) == PoolKey("C1", 4) == "C14"
    ensures ParseNoteName("C1").None?
  {
    assert DecimalText(14) == DecimalText(1) + [DigitChar(4)];
  }

  /** The pool that `getNote` fills, keyed by the requested name followed by the octave. */
  class NotePool {
    var entries: map<string, Note>

    /** Only spellings are pooled, each under its own name and octave. */
    ghost predicate Valid()
      reads this
    {
      forall key | key in entries :: key == PoolKey(NameText(entries[key].name), entries[key].octave)
    }

    constructor()
      ensures Valid() && entries == map[]
    {
      entries := map[];
    }

    /** `getNote(name, octave)`: the note pooled under the key, whatever the name; otherwise
        the table note, pooled under the key. A spelling always gets its own note; a text that
        is not one gets a pooled note whose key it shares, or throws. */
    method GetByName(name: string, octave: int) returns (r: Result<Note>)
      requires Valid()
      modifies this
      ensures Valid()
      ensures PoolKey(name, octave) in old(entries) ==>
        r == Ok(old(entries)[PoolKey(name, octave)]) && entries == old(entries)
      ensures PoolKey(name, octave) !in old(entries) ==> r == GetNoteByName(name, octave)
      ensures ParseNoteName(name).Some? ==> r == GetNoteByName(name, octave)
      ensures r.Ok? ==> PoolKey(NameText(r.value.name), r.value.octave) == PoolKey(name, octave)
      ensures r.Ok? ==> entries == old(entries)[PoolKey(name, octave) := r.value]
      ensures r.Err? ==> entries == old(entries)
    {
      var key := PoolKey(name, octave);
      if key in entries {
        r := Ok(entries[key]);
        match ParseNoteName(name)
        case None =>
        case Some(n) =>
          PoolKeyOfNames(entries[key].name, entries[key].octave, n, octave);
      } else {
        match ParseNoteName(name)
        case None =>
          r := Err(InvalidNoteName(name));
        case Some(n) =>
          var note := Note(n, octave);
          entries := entries[key := note];
          r := Ok(note);
      }
    }

    /** `getNote(number, octave)`: the pooled standard spelling. */
    method GetByNumber(number: int, octave: int) returns (r: Note)
      requires Valid()
      modifies this
      ensures Valid()
      ensures r == GetNoteByNumber(number, octave)
      ensures entries == old(entries)[PoolKey(NameText(r.name), r.octave) := r]
    {
      var note := GetNoteByNumber(number, octave);
      var key := PoolKey(NameText(note.name), note.octave);
      if key in entries {
        r := entries[key];
        PoolKeyOfNames(r.name, r.octave, note.name, note.octave);
      } else {
        r := note;
        entries := entries[key := note];
      }
    }
  }

  /** getNote("C", 14) pools C14, and getNote("C1", 4), which would throw on an empty pool,
      then returns that same note. */
  method PooledCollision() returns (first: Result<Note>, second: Result<Note>)
    ensures first == Ok(Note(NoteName(C, Natural), 14))
    ensures second == first && GetNoteByName("C1", 4).Err?
  {
    var pool := new NotePool();
    PoolKeyCollision();
    first := pool.GetByName("C", 14);
    second := pool.GetByName("C1", 4);
  }

  // ---------------------------------------------------------------------------------------
  // Parsing

  predicate IsDigit(c: char)
  {
    '0' <= c <= '9'
  }

  function DigitChar(d: int): char
    requires 0 <= d <= 9
  {
    ('0' as int + d) as char
  }

  /** The first index at or after `from` holding a letter A..G, as an unanchored match finds it. */
  function FindNoteLetter(s: string, from: nat): (r: Option<nat>)
    ensures r.Some? ==> from <= r.value < |s| && IsNoteLetter(s[r.value])
    ensures r.Some? ==> forall k :: from <= k < r.value ==> !IsNoteLetter(s[k])
    ensures r.None? ==> forall k :: from <= k < |s| ==> !IsNoteLetter(s[k])
    decreases |s| - from
  {
    if from >= |s| then None
    else if IsNoteLetter(s[from]) then Some(from)
    else FindNoteLetter(s, from + 1)
  }

  /** End of an optional character from `chars` at index i: i + 1 if present, else i. */
  function SkipOptional(s: string, i: nat, chars: set<char>): (j: nat)
    ensures j == i || (j == i + 1 && i < |s| && s[i] in chars)
  {
    if i < |s| && s[i] in chars then i + 1 else i
  }

  /** `parseNote`: the first letter A..G with an optional '#', ',' or 'b' and an optional octave
      digit (default 4); None when there is no letter; the name lookup's error for a spelling
      such as "C,". */
  function ParseNote(text: string): (r: Result<Option<Note>>)
    ensures r == Ok(None) <==> forall k :: 0 <= k < |text| ==> !IsNoteLetter(text[k])
    ensures r.Ok? && r.value.Some? ==> 0 <= r.value.value.octave <= 9
    ensures r.Err? ==> r.error.InvalidNoteName?
  {
    match FindNoteLetter(text, 0)
    case None => Ok(None)
    case Some(i) =>
      var end := SkipOptional(text, i + 1, {'#', ',', 'b'});
      var octave := if end < |text| && IsDigit(text[end]) then text[end] as int - '0' as int else 4;
      match GetNoteByName(text[i..end], octave)
      case Ok(n) => Ok(Some(n))
      case Err(e) => Err(e)
  }

  /** A text without any letter A..G parses to nothing. */
  lemma ParseNoteWithoutLetter(text: string)
    ensures ParseNote(text) == Ok(None) <==> forall k :: 0 <= k < |text| ==> !IsNoteLetter(text[k])
  {
  }

  /** Parsing a note's own text gives it back, at the written octave or at the default 4. */
  lemma ParseNoteOfText(n: NoteName, octave: int)
    requires 0 <= octave <= 9
    ensures ParseNote(NameText(n) + [DigitChar(octave)]) == Ok(Some(Note(n, octave)))
    ensures ParseNote(NameText(n)) == Ok(Some(Note(n, 4)))
  {
    var s := NameText(n) + [DigitChar(octave)];
    assert s[0] == LetterChar(n.letter);
    var end := SkipOptional(s, 1, {'#', ',', 'b'});
    assert end == |NameText(n)|;
    assert s[0..end] == NameText(n);
    ParseNoteNameIff(NameText(n), n);
    var t := NameText(n);
    assert t[0] == LetterChar(n.letter);
    assert SkipOptional(t, 1, {'#', ',', 'b'}) == |t|;
    assert t[0..|t|] == t;
  }

  /** A comma in place of the accidental is accepted by the pattern and then rejected by the
      name lookup. */
  lemma ParseNoteComma(l: Letter)
    ensures ParseNote([LetterChar(l), ',']) == Err(InvalidNoteName([LetterChar(l), ',']))
  {
    var s := [LetterChar(l), ','];
    assert s[0..2] == s;
  }

  /** `getNotes(...numbers)`: each number at octave 4. */
  function GetNotesByNumber(numbers: seq<int>): (r: seq<Note>)
    ensures |r| == |numbers|
    ensures forall i :: 0 <= i < |numbers| ==> r[i] == GetNoteByNumber(numbers[i], 4)
  {
    seq(|numbers|, i requires 0 <= i < |numbers| => GetNoteByNumber(numbers[i], 4))
  }

  /** `getNotes(...names)`: each text parsed; the first parse that throws aborts the map. */
  function GetNotesByText(texts: seq<string>): (r: Result<seq<Option<Note>>>)
    ensures r.Ok? <==> forall i :: 0 <= i < |texts| ==> ParseNote(texts[i]).Ok?
    ensures r.Ok? ==> |r.value| == |texts| && forall i :: 0 <= i < |texts| ==> r.value[i] == ParseNote(texts[i]).value
    decreases |texts|
  {
    if |texts| == 0 then Ok([])
    else match ParseNote(texts[0])
      case Err(e) => Err(e)
      case Ok(n) =>
        match GetNotesByText(texts[1..])
        case Err(e) => Err(e)
        case Ok(rest) => Ok([n] + rest)
  }

  // ---------------------------------------------------------------------------------------
  // sortNotes

  /** The sort key of sortNotes: the number, raised by 12 when below the root's. */
  function PitchKey(root: Note): Note -> int
  {
    (n: Note) => if Number(n.name) < Number(root.name) then Number(n.name) + 12 else Number(n.name)
  }

  /** `sortNotes(notes, root)`: sorts the caller's array in place, stably, by PitchKey(root). */
  method SortNotes(notes: array<Note>, root: Note)
    modifies notes
    ensures notes[..] == Sorting.SortBy(old(notes[..]), PitchKey(root))
  {
    Sorting.InsertionSort(notes, PitchKey(root));
  }

  /** `sortNotes(notes)`: the root defaults to the first note. */
  method SortNotesFromFirst(notes: array<Note>)
    modifies notes
    ensures notes.Length > 0 ==> notes[..] == Sorting.SortBy(old(notes[..]), PitchKey(old(notes[0])))
    ensures notes.Length == 0 ==> notes[..] == old(notes[..])
  {
    if notes.Length > 0 {
      SortNotes(notes, notes[0]);
    }
  }

  /** Every key lies in root..root+11, and only notes with the root's pitch get the least key. */
  lemma PitchKeyRange(root: Note, n: Note)
    ensures Number(root.name) <= PitchKey(root)(n) < Number(root.name) + 12
    ensures PitchKey(root)(n) == Number(root.name) <==> Number(n.name) == Number(root.name)
  {
    NumberOfSpelling(n.name);
    NumberOfSpelling(root.name);
  }

  /** The sorted notes are a permutation of the input in ascending key order. */
  lemma SortNotesPermutes(s: seq<Note>, root: Note)
    ensures multiset(Sorting.SortBy(s, PitchKey(root))) == multiset(s)
    ensures Sorting.SortedBy(Sorting.SortBy(s, PitchKey(root)), PitchKey(root))
  {
    Sorting.SortByPermutes(s, PitchKey(root));
    Sorting.SortBySorted(s, PitchKey(root));
  }

  /** A note with the root's pitch, if the input has one, comes first. */
  lemma {:induction false} SortNotesRootFirst(s: seq<Note>, root: Note, k: int)
    requires 0 <= k < |s| && Number(s[k].name) == Number(root.name)
    ensures |Sorting.SortBy(s, PitchKey(root))| == |s|
    ensures Number(Sorting.SortBy(s, PitchKey(root))[0].name) == Number(root.name)
  {
    var key := PitchKey(root);
    var t := Sorting.SortBy(s, key);
    SortNotesPermutes(s, root);
    Sorting.SortByPermutes(s, key);
    assert s[k] in multiset(t);
    var j :| 0 <= j < |t| && t[j] == s[k];
    PitchKeyRange(root, s[k]);
    PitchKeyRange(root, t[0]);
    assert key(t[0]) <= key(t[j]);
  }

  // ---------------------------------------------------------------------------------------
  // normalizeNoteName

  /** Respells Db, D#, Gb, G# and A# to the standard C#, Eb, F#, Ab and Bb. */
  function NormalizeNoteName(n: NoteName): (r: NoteName)
    ensures Number(r) == Number(n)
    ensures r !in {NoteName(D, Flat), NoteName(D, Sharp), NoteName(G, Flat), NoteName(G, Sharp), NoteName(A, Sharp)}
    ensures r == n <==> n !in {NoteName(D, Flat), NoteName(D, Sharp), NoteName(G, Flat), NoteName(G, Sharp), NoteName(A, Sharp)}
  {
    if n == NoteName(D, Flat) then NoteName(C, Sharp)
    else if n == NoteName(D, Sharp) then NoteName(E, Flat)
    else if n == NoteName(G, Flat) then NoteName(F, Sharp)
    else if n == NoteName(G, Sharp) then NoteName(A, Flat)
    else if n == NoteName(A, Sharp) then NoteName(B, Flat)
    else n
  }

  lemma NormalizeIdempotent(n: NoteName)
    ensures NormalizeNoteName(NormalizeNoteName(n)) == NormalizeNoteName(n)
  {
  }
}

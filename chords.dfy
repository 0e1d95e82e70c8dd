/** Chords: a root, a quality and a bass note (chords.ts). */
module Chords {
  import opened Wrappers
  import opened Notes
  import opened JsArith

  // ---------------------------------------------------------------------------------------
  // The quality table

  /** The intervals of each quality, in declaration order. */
  const CHORD_INTERVALS: seq<(string, seq<int>)> := [
    ("M", [0, 4, 7]),
    ("m", [0, 3, 7]),
    ("7", [0, 4, 7, 10]),
    ("M7", [0, 4, 7, 11]),
    ("m7", [0, 3, 7, 10]),
    ("dim", [0, 3, 6]),
    ("dim7", [0, 3, 6, 9]),
    ("sus4", [0, 5, 7]),
    ("sus2", [0, 2, 7]),
    ("aug", [0, 4, 8]),
    ("5", [0, 7]),
    ("M6", [0, 4, 7, 9]),
    ("m6", [0, 3, 7, 9]),
    ("add2", [0, 2, 4, 7]),
    ("9", [0, 4, 7, 10, 14]),
    ("M9", [0, 4, 7, 11, 14]),
    ("m9", [0, 3, 7, 10, 14])]

  predicate IsQuality(q: string)
  {
    exists k :: 0 <= k < |CHORD_INTERVALS| && CHORD_INTERVALS[k].0 == q
  }

  /** The table's index of quality q, searching from `from`. */
  function QualityIndex(q: string, from: nat): (r: Option<nat>)
    ensures r.Some? ==> from <= r.value < |CHORD_INTERVALS| && CHORD_INTERVALS[r.value].0 == q
    ensures r.None? ==> forall k :: from <= k < |CHORD_INTERVALS| ==> CHORD_INTERVALS[k].0 != q
    decreases |CHORD_INTERVALS| - from
  {
    if from >= |CHORD_INTERVALS| then None
    else if CHORD_INTERVALS[from].0 == q then Some(from)
    else QualityIndex(q, from + 1)
  }

  /** `getChordIntervals`: the quality's intervals, or "Unknown quality". */
  function GetChordIntervals(quality: string): (r: Result<seq<int>>)
    ensures r.Ok? <==> IsQuality(quality)
    ensures r.Ok? ==> (quality, r.value) in CHORD_INTERVALS
    ensures r.Err? ==> r.error == UnknownQuality(quality)
  {
    match QualityIndex(quality, 0)
    case None => Err(UnknownQuality(quality))
    case Some(k) => Ok(CHORD_INTERVALS[k].1)
  }

  /** Every interval list starts at 0 and rises strictly; 9, M9 and m9 end in 14 and every other
      list stays within 0..11. */
  lemma IntervalTableShape(k: int)
    requires 0 <= k < |CHORD_INTERVALS|
    ensures var ints := CHORD_INTERVALS[k].1;
      |ints| >= 2 && ints[0] == 0 &&
      (forall i, j :: 0 <= i < j < |ints| ==> ints[i] < ints[j]) &&
      (forall i :: 0 <= i < |ints| ==> 0 <= ints[i] <= 14) &&
      (CHORD_INTERVALS[k].0 in {"9", "M9", "m9"} ==> ints[|ints| - 1] == 14) &&
      (CHORD_INTERVALS[k].0 !in {"9", "M9", "m9"} ==> forall i :: 0 <= i < |ints| ==> ints[i] <= 11)
  {
  }

  /** Quality names are distinct, and so are interval lists. */
  lemma IntervalTableDistinct(i: int, j: int)
    requires 0 <= i < j < |CHORD_INTERVALS|
    ensures CHORD_INTERVALS[i].0 != CHORD_INTERVALS[j].0
    ensures CHORD_INTERVALS[i].1 != CHORD_INTERVALS[j].1
  {
  }

  /** Looking up the name of entry k finds entry k. */
  lemma GetChordIntervalsAt(k: int)
    requires 0 <= k < |CHORD_INTERVALS|
    ensures GetChordIntervals(CHORD_INTERVALS[k].0) == Ok(CHORD_INTERVALS[k].1)
  {
    var q := CHORD_INTERVALS[k].0;
    var r := QualityIndex(q, 0);
    assert r.Some?;
    if r.value != k {
      if r.value < k {
        IntervalTableDistinct(r.value, k);
      } else {
        IntervalTableDistinct(k, r.value);
      }
    }
  }

  /** The quality at row k of the table has that row's intervals. */
  lemma IntervalsOf(q: string, ints: seq<int>, k: int)
    requires 0 <= k < |CHORD_INTERVALS| && CHORD_INTERVALS[k] == (q, ints)
    ensures GetChordIntervals(q) == Ok(ints)
  {
    GetChordIntervalsAt(k);
  }

  // ---------------------------------------------------------------------------------------
  // Chords

  /** A chord as the library builds it; `quality` is already defaulted ("" becomes "M"). */
  datatype Chord = Chord(root: Note, quality: string, bass: Note)

  /** `isInverted`: the bass sounds another pitch class than the root. */
  function IsInverted(c: Chord): (r: bool)
    ensures r <==> MidiNumber(c.root) % 12 != MidiNumber(c.bass) % 12
  {
    !EqualsIgnoreOctave(c.root, c.bass)
  }

  /** The chord's accidental is its root's: the second character of the root's name. */
  function ChordAccidental(c: Chord): (r: Accidental)
    ensures AccidentalText(r) == CharAt(NameText(c.root.name), 1)
  {
    AccidentalOf(c.root)
  }

  /** `hasAccidental`, `isSharp` and `isFlat` of a chord read its root's accidental. */
  function ChordHasAccidental(c: Chord): (r: bool)
    ensures r <==> CharAt(NameText(c.root.name), 1) != ""
    ensures r <==> ChordIsSharp(c) || ChordIsFlat(c)
  {
    |AccidentalText(ChordAccidental(c))| > 0
  }

  function ChordIsSharp(c: Chord): (r: bool)
    ensures r <==> CharAt(NameText(c.root.name), 1) == "#"
  {
    AccidentalText(ChordAccidental(c)) == "#"
  }

  function ChordIsFlat(c: Chord): (r: bool)
    ensures r <==> CharAt(NameText(c.root.name), 1) == "b"
  {
    AccidentalText(ChordAccidental(c)) == "b"
  }

  /** A computed chord tone at octave 4: the standard spelling of `pitch`, swapped for its
      alias when the standard spelling's accidental differs from the root's and the alias's
      matches it. */
  function SpellTone(rootAccidental: Accidental, pitch: int): (r: Note)
    ensures Number(r.name) == pitch % 12
  {
    var note := GetNoteByNumber(pitch, 4);
    match Alias(note)
    case None => note
    case Some(alias) =>
      if AccidentalOf(note) != rootAccidental && AccidentalOf(alias) == rootAccidental then alias else note
  }

  /** The spelling rule: the pitch never changes, and the alias is used exactly when it exists,
      the standard spelling's accidental differs from the root's and the alias's equals it. */
  lemma SpellToneRule(acc: Accidental, pitch: int)
    ensures Number(SpellTone(acc, pitch).name) == pitch % 12
    ensures SpellTone(acc, pitch).octave == GetNoteByNumber(pitch, 4).octave
    ensures var std := GetNoteByNumber(pitch, 4);
      SpellTone(acc, pitch) != std <==>
        (Alias(std).Some? && AccidentalOf(std) != acc && AccidentalOf(Alias(std).value) == acc)
    ensures SpellTone(acc, pitch) != GetNoteByNumber(pitch, 4) ==>
      SpellTone(acc, pitch) == Alias(GetNoteByNumber(pitch, 4)).value
  {
  }

  /** The tones of a chord in root position: the root itself, then each later interval's pitch
      spelled by SpellTone. */
  function RootPositionTones(root: Note, ints: seq<int>): (r: seq<Note>)
    ensures |r| == if |ints| > 0 then |ints| else 1
    ensures r[0] == root
  {
    var n := if |ints| > 0 then |ints| - 1 else 0;
    [root] + seq(n, k requires 0 <= k < n => Tone(root, ints[k + 1]))
  }

  /** The tone an interval above the root: its pitch spelled by SpellTone. */
  function Tone(root: Note, interval: int): Note
  {
    SpellTone(AccidentalOf(root), JsRem(Number(root.name) + interval, 12))
  }

  /** Tone list shape: one tone per interval, the root first, tone k at pitch root + interval k. */
  lemma RootPositionTonesShape(root: Note, ints: seq<int>)
    requires |ints| > 0
    ensures |RootPositionTones(root, ints)| == |ints|
    ensures RootPositionTones(root, ints)[0] == root
    ensures forall k :: 1 <= k < |ints| ==>
      Number(RootPositionTones(root, ints)[k].name) == (Number(root.name) + ints[k]) % 12
    ensures forall k :: 1 <= k < |ints| && 0 <= ints[k] ==> RootPositionTones(root, ints)[k].octave == 4
  {
    forall k | 1 <= k < |ints| {
      RootPositionTone(root, ints, k);
    }
  }

  lemma RootPositionTone(root: Note, ints: seq<int>, k: int)
    requires 1 <= k < |ints|
    ensures Number(RootPositionTones(root, ints)[k].name) == (Number(root.name) + ints[k]) % 12
    ensures 0 <= ints[k] ==> RootPositionTones(root, ints)[k].octave == 4
  {
    RootPositionToneAt(root, ints, k);
    ToneFacts(root, ints[k]);
  }

  /** The tone an interval above the root has the pitch class of root + interval, and lies in
      octave 4 for a non-negative interval. */
  lemma ToneFacts(root: Note, interval: int)
    ensures Number(Tone(root, interval).name) == (Number(root.name) + interval) % 12
    ensures 0 <= interval ==> Tone(root, interval).octave == 4
  {
    var x := Number(root.name) + interval;
    var p := JsRem(x, 12);
    JsRemPitch(x);
    if 0 <= interval {
      NumberOfSpelling(root.name);
      SpellToneRule(AccidentalOf(root), p);
      StandardNote(p, 4);
    }
  }

  /** The JavaScript remainder by 12 keeps the pitch class, and lies in 0..11 for x >= 0. */
  lemma JsRemPitch(x: int)
    ensures JsRem(x, 12) % 12 == x % 12
    ensures x >= 0 ==> 0 <= JsRem(x, 12) < 12
  {
    var p := JsRem(x, 12);
    JsRemFloor(x, 12);
    if p < 0 {
      ModShift(p, 12);
      assert (p + 12) % 12 == p + 12;
    }
  }

  /** A list holding the root and then each later interval's spelled tone is the tone list. */
  lemma RootPositionTonesOf(root: Note, ints: seq<int>, notes: seq<Note>)
    requires |notes| == |ints| > 0 && notes[0] == root
    requires forall k :: 1 <= k < |ints| ==> notes[k] == Tone(root, ints[k])
    ensures notes == RootPositionTones(root, ints)
  {
    var t := RootPositionTones(root, ints);
    forall k | 0 <= k < |ints| ensures notes[k] == t[k] {
      if k > 0 {
        RootPositionToneAt(root, ints, k);
      }
    }
    SameElements(notes, t);
  }

  lemma RootPositionToneAt(root: Note, ints: seq<int>, k: int)
    requires 1 <= k < |ints|
    ensures RootPositionTones(root, ints)[k] == Tone(root, ints[k])
  {
  }

  /** Sequences of one length that agree at every index are equal. */
  lemma SameElements<T>(a: seq<T>, b: seq<T>)
    requires |a| == |b| && forall k :: 0 <= k < |a| ==> a[k] == b[k]
    ensures a == b
  {
  }

  /** The first index whose note has the target's pitch, or -1 (`findIndex`). */
  function FindSamePitch(notes: seq<Note>, target: Note, from: nat): (r: int)
    ensures r == -1 || (from <= r < |notes| && EqualsIgnoreOctave(notes[r], target))
    ensures r == -1 ==> forall k :: from <= k < |notes| ==> !EqualsIgnoreOctave(notes[k], target)
    ensures r != -1 ==> forall k :: from <= k < r ==> !EqualsIgnoreOctave(notes[k], target)
    decreases |notes| - from
  {
    if from >= |notes| then -1
    else if EqualsIgnoreOctave(notes[from], target) then from
    else FindSamePitch(notes, target, from + 1)
  }

  function RotateLeft<T>(s: seq<T>, k: nat): (r: seq<T>)
    requires k <= |s|
    ensures |r| == |s|
  {
    s[k..] + s[..k]
  }

  /** Rotating by one more step is one more left shift. */
  lemma RotateLeftStep<T>(s: seq<T>, k: nat)
    requires k < |s|
    ensures RotateLeft(s, k + 1) == RotateLeft(s, k)[1..] + [RotateLeft(s, k)[0]]
  {
    assert s[k + 1..] == s[k..][1..];
    assert s[..k + 1] == s[..k] + [s[k]];
  }

  lemma RotateLeftMultiset<T>(s: seq<T>, k: nat)
    requires k <= |s|
    ensures multiset(RotateLeft(s, k)) == multiset(s)
  {
    assert s == s[..k] + s[k..];
  }

  /** The tone list after `invertNotes(notes, inversion)`: `inversion` times, the first note
      moves to the end. */
  function InvertedTones(notes: seq<Note>, inversion: int): (r: seq<Note>)
    requires |notes| > 0
    ensures |r| == |notes|
    decreases inversion
  {
    if inversion <= 0 then notes else InvertedTones(notes[1..] + [notes[0]], inversion - 1)
  }

  /** Up to one full turn, the shifts are the left rotation by `inversion`. */
  lemma {:induction false} InvertedTonesRotate(notes: seq<Note>, inversion: nat)
    requires 0 < |notes| && inversion <= |notes|
    ensures InvertedTones(notes, inversion) == RotateLeft(notes, inversion)
    decreases inversion
  {
    if inversion > 0 {
      var shifted := notes[1..] + [notes[0]];
      InvertedTonesRotate(shifted, inversion - 1);
      var tail, head := notes[inversion..], notes[1..inversion];
      assert shifted[inversion - 1..] == tail + [notes[0]];
      assert shifted[..inversion - 1] == head;
      assert notes[..inversion] == [notes[0]] + head;
      calc {
        InvertedTones(notes, inversion);
        InvertedTones(shifted, inversion - 1);
        RotateLeft(shifted, inversion - 1);
        tail + [notes[0]] + head;
        tail + ([notes[0]] + head);
        RotateLeft(notes, inversion);
      }
    } else {
      assert RotateLeft(notes, 0) == notes;
    }
  }

  /** `invertNotes`: moves the first note to the end, `inversion` times. */
  method InvertNotes(notes: seq<Note>, inversion: int) returns (r: seq<Note>)
    requires |notes| > 0
    ensures r == InvertedTones(notes, inversion)
  {
    r := notes;
    var i := 0;
    while i < inversion
      invariant 0 <= i && (inversion > 0 ==> i <= inversion)
      invariant |r| == |notes|
      invariant InvertedTones(r, inversion - i) == InvertedTones(notes, inversion)
    {
      r := r[1..] + [r[0]];
      i := i + 1;
    }
  }

  /** The chord's note list (`getChordNotes`): the root-position tones, rotated to start at the
      first tone with the bass's pitch when the bass is not the root note itself. */
  function ChordTones(c: Chord): (r: Result<seq<Note>>)
    ensures r.Ok? <==> IsQuality(c.quality)
    ensures r.Ok? ==> |r.value| == |GetChordIntervals(c.quality).value|
    ensures r.Err? ==> r.error == UnknownQuality(c.quality)
  {
    match GetChordIntervals(c.quality)
    case Err(e) => Err(e)
    case Ok(ints) =>
      var tones := RootPositionTones(c.root, ints);
      if c.bass != c.root then Ok(InvertedTones(tones, FindSamePitch(tones, c.bass, 0))) else Ok(tones)
  }

  /** `getChordNotes`: pushes one tone per interval, then rotates for the bass. */
  method GetChordNotes(c: Chord) returns (r: Result<seq<Note>>)
    ensures r == ChordTones(c)
  {
    var ints := GetChordIntervals(c.quality);
    if ints.Err? {
      return Err(ints.error);
    }
    var intervals := ints.value;
    assert |intervals| > 0;
    var root := c.root;
    var notes := [root];
    var i := 1;
    while i < |intervals|
      invariant 1 <= i <= |intervals|
      invariant |notes| == i && notes[0] == root
      invariant forall k :: 1 <= k < i ==> notes[k] == Tone(root, intervals[k])
    {
      var note := Tone(root, intervals[i]);
      notes := notes + [note];
      i := i + 1;
    }
    RootPositionTonesOf(root, intervals, notes);
    if c.bass != c.root {
      var inversion := FindSamePitch(notes, c.bass, 0);
      notes := InvertNotes(notes, inversion);
    }
    r := Ok(notes);
  }

  /** For a slash chord the tones are a left rotation of the root-position tones, starting at
      the first tone with the bass's pitch, and the rotation keeps every tone. */
  lemma SlashChordTones(c: Chord, ints: seq<int>)
    requires GetChordIntervals(c.quality) == Ok(ints) && IsInverted(c)
    ensures var tones := RootPositionTones(c.root, ints);
      var j := FindSamePitch(tones, c.bass, 0);
      ChordTones(c) == Ok(if j <= 0 then tones else RotateLeft(tones, j)) &&
      multiset(ChordTones(c).value) == multiset(tones) &&
      (j >= 0 ==> EqualsIgnoreOctave(ChordTones(c).value[0], c.bass))
  {
    var tones := RootPositionTones(c.root, ints);
    var j := FindSamePitch(tones, c.bass, 0);
    assert c.bass != c.root;
    RootPositionTonesShape(c.root, ints);
    if j > 0 {
      InvertedTonesRotate(tones, j);
      RotateLeftMultiset(tones, j);
      assert RotateLeft(tones, j)[0] == tones[j];
    }
  }

  /** `new ChordImpl(root, quality, bass)` / `getChord(root, quality, bass)`: an inverted chord
      must have its bass (same name and octave) among its tones. */
  function MakeChord(root: Note, quality: string, bass: Note): (r: Result<Chord>)
    ensures r.Ok? ==> r.value == Chord(root, if quality == "" then "M" else quality, bass)
    ensures EqualsIgnoreOctave(root, bass) ==> r.Ok?
  {
    var c := Chord(root, if quality == "" then "M" else quality, bass);
    if IsInverted(c) then
      match ChordTones(c)
      case Err(e) => Err(e)
      case Ok(tones) => if bass in tones then Ok(c) else Err(InvalidBassNote(NameText(bass.name)))
    else Ok(c)
  }

  /** Construction fails exactly for an inverted chord whose quality is unknown or whose bass is
      not one of its tones; a chord in root position is always built. */
  lemma MakeChordOutcome(root: Note, quality: string, bass: Note)
    ensures var q := if quality == "" then "M" else quality;
      var c := Chord(root, q, bass);
      (MakeChord(root, quality, bass).Ok? ==> MakeChord(root, quality, bass).value == c) &&
      (!IsInverted(c) ==> MakeChord(root, quality, bass) == Ok(c)) &&
      (IsInverted(c) && !IsQuality(q) ==> MakeChord(root, quality, bass) == Err(UnknownQuality(q))) &&
      (IsInverted(c) && IsQuality(q) ==>
        (MakeChord(root, quality, bass).Err? <==> bass !in ChordTones(c).value) &&
        (MakeChord(root, quality, bass).Err? ==> MakeChord(root, quality, bass).error == InvalidBassNote(NameText(bass.name))))
  {
  }

  /** A chord whose bass is its root is always made, major when the quality is empty. */
  lemma MakeRootPosition(root: Note, quality: string, bass: Note)
    requires EqualsIgnoreOctave(root, bass)
    ensures MakeChord(root, quality, bass) == Ok(Chord(root, if quality == "" then "M" else quality, bass))
  {
    MakeChordOutcome(root, quality, bass);
  }

  /** The chord's name: root, quality unless major, and "/bass" when inverted. */
  function Name(c: Chord): (r: string)
    ensures |r| >= |NameText(c.root.name)| && r[..|NameText(c.root.name)|] == NameText(c.root.name)
  {
    NameText(c.root.name) + (if c.quality == "M" then "" else c.quality)
      + (if IsInverted(c) then "/" + NameText(c.bass.name) else "")
  }

  /** `aliasChord`: the chord rooted on the root's alias, with the bass aliased when it can be
      (or the root's alias for a chord in root position); the chord itself without an alias. */
  function AliasChord(c: Chord): (r: Result<Chord>)
    ensures Alias(c.root).None? ==> r == Ok(c)
    ensures Alias(c.root).Some? && r.Ok? ==>
      r.value.root == Alias(c.root).value && NoteNumber(r.value.root) == NoteNumber(c.root)
    ensures r.Ok? && c.quality != "" ==> r.value.quality == c.quality
    ensures r.Ok? ==> NoteNumber(r.value.bass) == NoteNumber(c.bass) && IsInverted(r.value) == IsInverted(c)
  {
    match Alias(c.root)
    case None => Ok(c)
    case Some(rootAlias) =>
      var bass := if IsInverted(c) then (match Alias(c.bass) case Some(b) => b case None => c.bass) else rootAlias;
      MakeChord(rootAlias, c.quality, bass)
  }

  /** The name starts with the root's name; for a quality without "/" it holds a "/" exactly
      when the chord is inverted, and then ends with "/" and the bass's name. */
  lemma NameShape(c: Chord)
    ensures Name(c)[..|NameText(c.root.name)|] == NameText(c.root.name)
    ensures !IsInverted(c) ==> Name(c) == NameText(c.root.name) + (if c.quality == "M" then "" else c.quality)
    ensures IsInverted(c) ==> Name(c)[|Name(c)| - |NameText(c.bass.name)| - 1..] == "/" + NameText(c.bass.name)
    ensures '/' !in c.quality ==> ('/' in Name(c) <==> IsInverted(c))
  {
    var r, q := NameText(c.root.name), if c.quality == "M" then "" else c.quality;
    assert '/' !in r;
    if IsInverted(c) {
      var b := "/" + NameText(c.bass.name);
      assert Name(c) == r + q + b;
      assert Name(c)[|r + q|] == '/';
    } else {
      assert Name(c) == r + q;
    }
  }

  /** Without a root alias the alias chord is the chord itself; a chord in root position with a
      root alias moves wholly to the alias, keeping its quality; an inverted chord takes its
      bass's alias as the bass, or keeps the bass when it has none. */
  lemma AliasChordFacts(c: Chord)
    requires c.quality != ""
    ensures Alias(c.root).None? ==> AliasChord(c) == Ok(c)
    ensures Alias(c.root).Some? && !IsInverted(c) ==>
      AliasChord(c) == Ok(Chord(Alias(c.root).value, c.quality, Alias(c.root).value))
    ensures Alias(c.root).Some? && AliasChord(c).Ok? ==>
      AliasChord(c).value.root == Alias(c.root).value && AliasChord(c).value.quality == c.quality
    ensures Alias(c.root).Some? && IsInverted(c) && AliasChord(c).Ok? ==>
      AliasChord(c).value.bass == (if Alias(c.bass).Some? then Alias(c.bass).value else c.bass)
  {
    if Alias(c.root).Some? {
      var a := Alias(c.root).value;
      MakeChordOutcome(a, c.quality, if IsInverted(c) then (match Alias(c.bass) case Some(b) => b case None => c.bass) else a);
    }
  }

  /** F#sus4/C# has the alias chord Gbsus4/Db. */
  lemma AliasChordExample()
    ensures AliasChord(Chord(Note(NoteName(F, Sharp), 4), "sus4", Note(NoteName(C, Sharp), 4))) ==
      Ok(Chord(Note(NoteName(G, Flat), 4), "sus4", Note(NoteName(D, Flat), 4)))
  {
    var gb, db := Note(NoteName(G, Flat), 4), Note(NoteName(D, Flat), 4);
    assert Alias(Note(NoteName(F, Sharp), 4)) == Some(gb) && Alias(Note(NoteName(C, Sharp), 4)) == Some(db);
    GbSus4OverDb();
  }

  /** Gbsus4/Db is a valid chord: its tones are Gb, Cb, Db, rotated to start at Db. */
  lemma GbSus4OverDb()
    ensures MakeChord(Note(NoteName(G, Flat), 4), "sus4", Note(NoteName(D, Flat), 4)) ==
      Ok(Chord(Note(NoteName(G, Flat), 4), "sus4", Note(NoteName(D, Flat), 4)))
  {
    var gb, db := Note(NoteName(G, Flat), 4), Note(NoteName(D, Flat), 4);
    var c := Chord(gb, "sus4", db);
    IntervalsOf("sus4", [0, 5, 7], 7);
    GbSus4Tones();
    SlashChordTones(c, [0, 5, 7]);
    assert db in multiset(ChordTones(c).value);
    MakeChordOutcome(gb, "sus4", db);
  }

  /** Above a Gb root, pitch 11 is spelled Cb and pitch 1 Db. */
  lemma GbSus4Tones()
    ensures RootPositionTones(Note(NoteName(G, Flat), 4), [0, 5, 7]) ==
      [Note(NoteName(G, Flat), 4), Note(NoteName(C, Flat), 4), Note(NoteName(D, Flat), 4)]
  {
    var gb := Note(NoteName(G, Flat), 4);
    TriadTones(gb, 5, 7);
    GbTonePitches();
    FlatSpellings();
  }

  /** A fourth and a fifth above Gb are pitches 11 and 1, spelled for a flat root. */
  lemma GbTonePitches()
    ensures Tone(Note(NoteName(G, Flat), 4), 5) == SpellTone(Flat, 11)
    ensures Tone(Note(NoteName(G, Flat), 4), 7) == SpellTone(Flat, 1)
  {
    assert JsRem(6 + 5, 12) == 11 && JsRem(6 + 7, 12) == 1;
  }

  /** On a flat root, pitch 11 is spelled Cb and pitch 1 Db. */
  lemma FlatSpellings()
    ensures SpellTone(Flat, 11) == Note(NoteName(C, Flat), 4)
    ensures SpellTone(Flat, 1) == Note(NoteName(D, Flat), 4)
  {
  }

  /** `getInversion(i)`: the chord over its i-th tone; an index outside the tone list leaves the
      bass undefined, which defaults to the root. */
  function GetInversion(c: Chord, i: int): (r: Result<Chord>)
    ensures r.Ok? ==> r.value.root == c.root && r.value.quality == (if c.quality == "" then "M" else c.quality)
    ensures !IsQuality(c.quality) ==> r == Err(UnknownQuality(c.quality))
    ensures ChordTones(c).Ok? && 0 <= i < |ChordTones(c).value| ==>
      r == Ok(Chord(c.root, c.quality, ChordTones(c).value[i]))
  {
    match ChordTones(c)
    case Err(e) => Err(e)
    case Ok(tones) =>
      InversionBuilds(c, tones, i);
      MakeChord(c.root, c.quality, if 0 <= i < |tones| then tones[i] else c.root)
  }

  /** The chord's tones, however rotated for its bass, are its root-position tones. */
  lemma ChordTonesPermute(c: Chord, ints: seq<int>)
    requires GetChordIntervals(c.quality) == Ok(ints)
    ensures ChordTones(c).Ok?
    ensures multiset(ChordTones(c).value) == multiset(RootPositionTones(c.root, ints))
  {
    var tones := RootPositionTones(c.root, ints);
    RootPositionTonesShape(c.root, ints);
    if c.bass != c.root {
      var j := FindSamePitch(tones, c.bass, 0);
      if j > 0 {
        InvertedTonesRotate(tones, j);
        RotateLeftMultiset(tones, j);
      }
    }
  }

  /** Every tone of a chord can be the bass of a chord on the same root and quality. */
  lemma InversionBuilds(c: Chord, tones: seq<Note>, i: int)
    requires ChordTones(c) == Ok(tones)
    ensures 0 <= i < |tones| ==> MakeChord(c.root, c.quality, tones[i]) == Ok(Chord(c.root, c.quality, tones[i]))
  {
    if 0 <= i < |tones| {
      var ints := GetChordIntervals(c.quality).value;
      QualityCharacters(c.quality);
      var t := tones[i];
      ChordTonesPermute(c, ints);
      assert t in multiset(tones);
      var d := Chord(c.root, c.quality, t);
      ChordTonesPermute(d, ints);
      assert t in multiset(ChordTones(d).value);
      MakeChordOutcome(c.root, c.quality, t);
    }
  }

  /** Inversion i sounds tone i in the bass: its tone list starts at that tone's pitch
      (C-0 is CEG, C-1 is EGC, C-2 is GCE). */
  lemma InversionStartsAtTone(c: Chord, i: int)
    requires ChordTones(c).Ok? && 0 <= i < |ChordTones(c).value|
    ensures GetInversion(c, i).Ok? && ChordTones(GetInversion(c, i).value).Ok?
    ensures EqualsIgnoreOctave(ChordTones(GetInversion(c, i).value).value[0], ChordTones(c).value[i])
  {
    var ints := GetChordIntervals(c.quality).value;
    var t := ChordTones(c).value[i];
    var d := Chord(c.root, c.quality, t);
    assert GetInversion(c, i) == Ok(d);
    var rp := RootPositionTones(c.root, ints);
    RootPositionTonesShape(c.root, ints);
    ChordTonesPermute(c, ints);
    assert t in multiset(rp);
    var k :| 0 <= k < |rp| && rp[k] == t;
    assert EqualsIgnoreOctave(rp[k], t);
    if IsInverted(d) {
      SlashChordTones(d, ints);
    } else {
      assert EqualsIgnoreOctave(rp[0], t);
    }
  }

  /** `inversionCount`: the number of tones. */
  function InversionCount(c: Chord): (r: Result<nat>)
    ensures r.Ok? <==> IsQuality(c.quality)
    ensures r.Ok? ==> r.value == |GetChordIntervals(c.quality).value|
    ensures r.Err? ==> r.error == UnknownQuality(c.quality)
  {
    match ChordTones(c)
    case Err(e) => Err(e)
    case Ok(tones) => Ok(|tones|)
  }

  /** `transpose(steps)`: the chord over the transposed root and bass. */
  function TransposeChord(c: Chord, steps: int): (r: Result<Chord>)
    ensures r.Ok? ==> MidiNumber(r.value.root) == MidiNumber(c.root) + steps
    ensures r.Ok? ==> MidiNumber(r.value.bass) == MidiNumber(c.bass) + steps
  {
    MakeChord(Transpose(c.root, steps), c.quality, Transpose(c.bass, steps))
  }

  /** Equality by name: octaves do not matter, spellings do. For table qualities the name
      tells apart the root's spelling, the quality, whether the chord is inverted and then the
      bass's spelling. */
  function ChordEquals(a: Chord, b: Chord): (r: bool)
    ensures a.root.name == b.root.name && a.quality == b.quality && a.bass.name == b.bass.name ==> r
    ensures IsQuality(a.quality) && IsQuality(b.quality) ==> (r <==>
      a.root.name == b.root.name && a.quality == b.quality && IsInverted(a) == IsInverted(b) &&
      (IsInverted(a) ==> a.bass.name == b.bass.name))
  {
    if IsQuality(a.quality) && IsQuality(b.quality) then
      NamesDetermineChords(a, b);
      Name(a) == Name(b)
    else
      Name(a) == Name(b)
  }

  /** No table quality contains '/' or begins with an accidental. */
  lemma QualityCharacters(q: string)
    requires IsQuality(q)
    ensures |q| > 0 && q[0] != '#' && q[0] != 'b'
    ensures q[0] in {'M', 'm', '7', 'd', 's', 'a', '5', '9'}
    ensures forall i :: 0 <= i < |q| ==> q[i] != '/'
  {
    var k :| 0 <= k < |CHORD_INTERVALS| && CHORD_INTERVALS[k].0 == q;
    assert q in {"M", "m", "7", "M7", "m7", "dim", "dim7", "sus4", "sus2", "aug", "5", "M6", "m6",
      "add2", "9", "M9", "m9"};
  }

  /** In a text without '/' followed by '/' and more, the first '/' ends the text; with nothing
      after it, there is no '/'. */
  lemma FirstSlash(x: string, y: string)
    requires forall i :: 0 <= i < |x| ==> x[i] != '/'
    requires |y| > 0 ==> y[0] == '/'
    ensures forall i :: 0 <= i < |x| ==> (x + y)[i] != '/'
    ensures |y| > 0 ==> (x + y)[|x|] == '/'
  {
  }

  /** A text without '/' followed by nothing or by '/' and more splits back into the two. */
  lemma SplitAtSlash(x1: string, y1: string, x2: string, y2: string)
    requires forall i :: 0 <= i < |x1| ==> x1[i] != '/'
    requires forall i :: 0 <= i < |x2| ==> x2[i] != '/'
    requires |y1| > 0 ==> y1[0] == '/'
    requires |y2| > 0 ==> y2[0] == '/'
    requires x1 + y1 == x2 + y2
    ensures x1 == x2 && y1 == y2
  {
    var s := x1 + y1;
    if |x1| != |x2| {
      FirstSlash(x1, y1);
      FirstSlash(x2, y2);
      assert false;
    }
    assert x1 == s[..|x1|] == x2;
    assert y1 == s[|x1|..] == y2;
  }

  /** A spelling, a text without '/' or a leading accidental, and nothing or '/' with more
      split back into the three. */
  lemma ChordTextSplit(n1: NoteName, q1: string, t1: string, n2: NoteName, q2: string, t2: string)
    requires |q1| > 0 ==> q1[0] != '#' && q1[0] != 'b'
    requires |q2| > 0 ==> q2[0] != '#' && q2[0] != 'b'
    requires forall i :: 0 <= i < |q1| ==> q1[i] != '/'
    requires forall i :: 0 <= i < |q2| ==> q2[i] != '/'
    requires |t1| > 0 ==> t1[0] == '/'
    requires |t2| > 0 ==> t2[0] == '/'
    requires NameText(n1) + (q1 + t1) == NameText(n2) + (q2 + t2)
    ensures n1 == n2 && q1 == q2 && t1 == t2
  {
    assert |q1 + t1| > 0 ==> (q1 + t1)[0] != '#' && (q1 + t1)[0] != 'b';
    assert |q2 + t2| > 0 ==> (q2 + t2)[0] != '#' && (q2 + t2)[0] != 'b';
    NameTextSplit(n1, q1 + t1, n2, q2 + t2);
    SplitAtSlash(q1, t1, q2, t2);
  }

  /** The parts of a chord's name after the root. */
  function QualityPart(q: string): string
  {
    if q == "M" then "" else q
  }

  function BassPart(c: Chord): string
  {
    if IsInverted(c) then "/" + NameText(c.bass.name) else ""
  }

  lemma NameSplit(c: Chord)
    ensures Name(c) == NameText(c.root.name) + (QualityPart(c.quality) + BassPart(c))
  {
  }

  /** The name of a chord of a table quality determines its root's spelling, its quality,
      whether it is inverted and then its bass's spelling. */
  lemma NamesDetermineChords(a: Chord, b: Chord)
    requires IsQuality(a.quality) && IsQuality(b.quality)
    ensures Name(a) == Name(b) <==>
      a.root.name == b.root.name && a.quality == b.quality && IsInverted(a) == IsInverted(b) &&
      (IsInverted(a) ==> a.bass.name == b.bass.name)
  {
    NameSplit(a);
    NameSplit(b);
    if Name(a) == Name(b) {
      QualityCharacters(a.quality);
      QualityCharacters(b.quality);
      ChordTextSplit(a.root.name, QualityPart(a.quality), BassPart(a), b.root.name, QualityPart(b.quality), BassPart(b));
      if IsInverted(a) {
        BassTextSplit(a.bass.name, b.bass.name);
      }
    }
  }

  lemma BassTextSplit(n1: NoteName, n2: NoteName)
    requires "/" + NameText(n1) == "/" + NameText(n2)
    ensures n1 == n2
  {
    assert NameText(n1) == ("/" + NameText(n1))[1..];
    assert NameText(n2) == ("/" + NameText(n2))[1..];
    ParseNoteNameIff(NameText(n1), n1);
    ParseNoteNameIff(NameText(n1), n2);
  }

  function EqualsIgnoreBass(a: Chord, b: Chord): (r: bool)
    ensures r <==> EqualsIgnoreOctave(a.root, b.root) && a.quality == b.quality
  {
    Number(a.root.name) == Number(b.root.name) && a.quality == b.quality
  }

  function ChordIsSameAs(a: Chord, b: Chord): (r: bool)
    ensures r <==> EqualsIgnoreOctave(a.root, b.root) && a.quality == b.quality && EqualsIgnoreOctave(a.bass, b.bass)
  {
    Number(a.root.name) == Number(b.root.name) && a.quality == b.quality
      && Number(a.bass.name) == Number(b.bass.name)
  }

  /** Tones exist exactly for known qualities, one per interval; getInversion outside 0..n-1
      gives root position. */
  lemma InversionFacts(c: Chord, ints: seq<int>, i: int)
    requires GetChordIntervals(c.quality) == Ok(ints)
    ensures ChordTones(c).Ok? && |ChordTones(c).value| == |ints|
    ensures InversionCount(c) == Ok(|ints|)
    ensures !(0 <= i < |ints|) ==> GetInversion(c, i) == Ok(Chord(c.root, c.quality, c.root))
    ensures c.bass == c.root && 0 <= i < |ints| ==>
      GetInversion(c, i) == Ok(Chord(c.root, c.quality, RootPositionTones(c.root, ints)[i]))
  {
    var tones := RootPositionTones(c.root, ints);
    RootPositionTonesShape(c.root, ints);
    assert ChordTones(c).Ok?;
    assert |ChordTones(c).value| == |tones|;
    assert c.quality != "";
  }

  /** Transposition keeps the quality and moves root and bass by the same steps, and a chord in
      root position always transposes. */
  lemma TransposeFacts(c: Chord, steps: int)
    requires c.quality != ""
    ensures TransposeChord(c, steps).Ok? ==>
      TransposeChord(c, steps).value == Chord(Transpose(c.root, steps), c.quality, Transpose(c.bass, steps))
    ensures c.root == c.bass ==>
      TransposeChord(c, steps) == Ok(Chord(Transpose(c.root, steps), c.quality, Transpose(c.root, steps)))
  {
  }

  lemma SameAsRefinesIgnoreBass(a: Chord, b: Chord)
    ensures ChordIsSameAs(a, b) ==> EqualsIgnoreBass(a, b)
    ensures ChordIsSameAs(a, b) <==> EqualsIgnoreBass(a, b) && Number(a.bass.name) == Number(b.bass.name)
  {
  }

  // ---------------------------------------------------------------------------------------
  // getChord and parseChord

  /** `getChord(rootName, quality, bassName?)`: names are looked up at octave 4, and a missing
      bass is the root itself. */
  function GetChordByName(root: string, quality: string, bass: Option<string>): (r: Result<Chord>)
    ensures ParseNoteName(root).None? ==> r == Err(InvalidNoteName(root))
    ensures r.Ok? ==> ParseNoteName(root).Some? && r.value.root == Note(ParseNoteName(root).value, 4)
    ensures r.Ok? && bass.None? ==> r.value.bass == r.value.root
  {
    match GetNoteByName(root, 4)
    case Err(e) => Err(e)
    case Ok(r) =>
      match bass
      case None => MakeChord(r, quality, r)
      case Some(b) =>
        match GetNoteByName(b, 4)
        case Err(e) => Err(e)
        case Ok(bn) => MakeChord(r, quality, bn)
  }

  /** Given valid names, getChord builds the chord over the named notes at octave 4. */
  lemma GetChordByNameOfNames(r: NoteName, quality: string, b: NoteName)
    ensures GetChordByName(NameText(r), quality, Some(NameText(b))) == MakeChord(Note(r, 4), quality, Note(b, 4))
    ensures GetChordByName(NameText(r), quality, None) == MakeChord(Note(r, 4), quality, Note(r, 4))
  {
    ParseNoteNameIff(NameText(r), r);
    ParseNoteNameIff(NameText(b), b);
  }

  /** `getChord(name, quality)` for a valid name: the chord in root position at octave 4,
      quality "" read as major. */
  function RootChord(name: NoteName, quality: string): Chord
  {
    Chord(Note(name, 4), if quality == "" then "M" else quality, Note(name, 4))
  }

  /** getChord on a note name never fails without a bass: it gives the root-position chord. */
  lemma RootChordByName(name: NoteName, quality: string)
    ensures GetChordByName(NameText(name), quality, None) == Ok(RootChord(name, quality))
  {
    GetChordByNameOfNames(name, quality, name);
    MakeChordOutcome(Note(name, 4), quality, Note(name, 4));
  }

  predicate IsAsciiLetter(c: char)
  {
    'a' <= c <= 'z' || 'A' <= c <= 'Z'
  }

  /** The end of the run of ASCII letters starting at i. */
  function SkipLetters(s: string, i: nat): (j: nat)
    requires i <= |s|
    ensures i <= j <= |s|
    ensures forall k :: i <= k < j ==> IsAsciiLetter(s[k])
    ensures j < |s| ==> !IsAsciiLetter(s[j])
    decreases |s| - i
  {
    if i < |s| && IsAsciiLetter(s[i]) then SkipLetters(s, i + 1) else i
  }

  const ACCIDENTAL_CHARS: set<char> := {'#', ',', 'b'}
  const DIGITS: set<char> := {'0', '1', '2', '3', '4', '5', '6', '7', '8', '9'}

  /** The bass `parseChord` reads after the quality: a letter A..G after a '/' with an optional
      accidental character, and otherwise the root. */
  function BassText(text: string, qualityEnd: nat, rootText: string): string
  {
    if qualityEnd + 1 < |text| && text[qualityEnd] == '/' && IsNoteLetter(text[qualityEnd + 1])
    then text[qualityEnd + 1..SkipOptional(text, qualityEnd + 2, ACCIDENTAL_CHARS)]
    else rootText
  }

  /** `parseChord`: at the first letter A..G, a root with an optional '#', ',' or 'b', a quality
      of ASCII letters and at most one digit (default M), and an optional "/bass" (default the
      root); nothing without a root letter. */
  function ParseChord(text: string): (r: Result<Option<Chord>>)
    ensures r == Ok(None) <==> forall k :: 0 <= k < |text| ==> !IsNoteLetter(text[k])
    ensures r.Ok? && r.value.Some? ==> r.value.value.root.octave == 4 && r.value.value.quality != ""
  {
    match FindNoteLetter(text, 0)
    case None => Ok(None)
    case Some(i) =>
      var rootEnd := SkipOptional(text, i + 1, ACCIDENTAL_CHARS);
      var qualityEnd := SkipOptional(text, SkipLetters(text, rootEnd), DIGITS);
      var quality := text[rootEnd..qualityEnd];
      var rootText := text[i..rootEnd];
      match GetChordByName(rootText, if quality == "" then "M" else quality, Some(BassText(text, qualityEnd, rootText)))
      case Err(e) => Err(e)
      case Ok(c) => Ok(Some(c))
  }

  /** A quality text `parseChord` reads whole: ASCII letters with at most one trailing digit, not
      opening with the 'b' that would be read as the root's flat. */
  predicate IsQualityText(q: string)
  {
    (forall k :: 0 <= k < |q| - 1 ==> IsAsciiLetter(q[k])) &&
    (|q| > 0 ==> IsAsciiLetter(q[|q| - 1]) || q[|q| - 1] in DIGITS) &&
    (|q| > 0 ==> q[0] != 'b')
  }

  /** The first letter A..G of s is at i when none comes before it. */
  lemma FindAfterPrefix(s: string, i: nat)
    requires i < |s| && IsNoteLetter(s[i])
    requires forall k :: 0 <= k < i ==> !IsNoteLetter(s[k])
    ensures FindNoteLetter(s, 0) == Some(i)
  {
  }

  /** A root as `parseChord` reads it: a letter A..G and at most one accidental character. */
  predicate IsRootText(r: string)
  {
    1 <= |r| <= 2 && IsNoteLetter(r[0]) && (|r| == 2 ==> r[1] in ACCIDENTAL_CHARS)
  }

  lemma NameTextIsRoot(n: NoteName)
    ensures IsRootText(NameText(n))
  {
  }

  /** The root's optional accidental ends where the root text does, when what follows it is no
      accidental character. */
  lemma RootEndOf(s: string, i: nat, r: string)
    requires IsRootText(r) && i + |r| <= |s| && s[i..i + |r|] == r
    requires i + |r| < |s| ==> s[i + |r|] !in ACCIDENTAL_CHARS
    ensures SkipOptional(s, i + 1, ACCIDENTAL_CHARS) == i + |r|
  {
    assert s[i + 1..i + |r|] == r[1..];
  }

  /** A quality text at m, followed by the end of the text or a '/', is read whole. */
  lemma QualityEndOf(s: string, m: nat, q: string)
    requires m + |q| <= |s| && s[m..m + |q|] == q
    requires IsQualityText(q)
    requires m + |q| < |s| ==> s[m + |q|] == '/'
    ensures SkipOptional(s, SkipLetters(s, m), DIGITS) == m + |q|
  {
    forall k | m <= k < m + |q| - 1
      ensures IsAsciiLetter(s[k])
    {
      assert s[k] == s[m..m + |q|][k - m];
    }
    var j := SkipLetters(s, m);
    if |q| > 0 {
      assert s[m + |q| - 1] == q[|q| - 1];
    }
  }

  /** `parseChord` once the root, the quality and the bass text have been located. */
  lemma ParseChordOfSpans(s: string, i: nat, m: nat, qe: nat, r: string, q: string, bt: string)
    requires FindNoteLetter(s, 0) == Some(i)
    requires SkipOptional(s, i + 1, ACCIDENTAL_CHARS) == m
    requires m <= |s| && SkipOptional(s, SkipLetters(s, m), DIGITS) == qe
    requires m <= qe && s[i..m] == r && s[m..qe] == q
    requires BassText(s, qe, r) == bt
    ensures ParseChord(s) ==
      match GetChordByName(r, if q == "" then "M" else q, Some(bt))
      case Err(e) => Err(e)
      case Ok(c) => Ok(Some(c))
  {
  }

  /** In s = prefix + root + quality + rest, `parseChord`'s root starts after the letter-free
      prefix, ... */
  lemma ChordRootStart(p: string, r: string, q: string, rest: string, s: string)
    requires forall k :: 0 <= k < |p| ==> !IsNoteLetter(p[k])
    requires IsRootText(r)
    requires s == p + r + q + rest
    ensures FindNoteLetter(s, 0) == Some(|p|)
  {
    assert s[|p|] == r[0];
    FindAfterPrefix(s, |p|);
  }

  /** ... ends with the root text, ... */
  lemma ChordRootEnd(p: string, r: string, q: string, rest: string, s: string)
    requires IsRootText(r) && IsQualityText(q)
    requires rest == "" || rest[0] == '/'
    requires s == p + r + q + rest
    ensures SkipOptional(s, |p| + 1, ACCIDENTAL_CHARS) == |p| + |r|
  {
    var m := |p| + |r|;
    SpansOfPrefix(p + r + q, p, r, q, rest);
    if m < |s| {
      if q == "" {
        FirstAfter(p + r + q, rest);
        assert s[m] == rest[0] == '/';
      } else {
        assert s[m] == q[0] && q[0] != 'b';
      }
    }
    RootEndOf(s, |p|, r);
  }

  /** ... and its quality runs up to the rest. */
  lemma ChordQualityEnd(p: string, r: string, q: string, rest: string, s: string)
    requires IsQualityText(q)
    requires rest == "" || rest[0] == '/'
    requires s == p + r + q + rest
    ensures SkipOptional(s, SkipLetters(s, |p| + |r|), DIGITS) == |p| + |r| + |q|
  {
    SpansOfPrefix(p + r + q, p, r, q, rest);
    if |rest| > 0 {
      FirstAfter(p + r + q, rest);
    }
    QualityEndOf(s, |p| + |r|, q);
  }

  /** The element just past a prefix is the rest's first. */
  lemma FirstAfter(x: string, rest: string)
    requires |rest| > 0
    ensures (x + rest)[|x|] == rest[0]
  {
  }

  /** `parseChord` on a text whose first letter A..G begins a note name followed by a quality:
      the chord over that root at octave 4, the empty quality read as "M", and the bass the root
      itself. */
  lemma ParseChordDefaults(p: string, n: NoteName, q: string)
    requires forall k :: 0 <= k < |p| ==> !IsNoteLetter(p[k])
    requires IsQualityText(q)
    ensures ParseChord(p + NameText(n) + q) ==
      Ok(Some(Chord(Note(n, 4), if q == "" then "M" else q, Note(n, 4))))
  {
    ParseChordNoBassSpans(p, n, q);
    GetChordByNameOfNames(n, if q == "" then "M" else q, n);
    MakeRootPosition(Note(n, 4), if q == "" then "M" else q, Note(n, 4));
  }

  /** Without "/bass", `parseChord` looks up the root and quality texts, with the root as bass. */
  lemma ParseChordNoBassSpans(p: string, n: NoteName, q: string)
    requires forall k :: 0 <= k < |p| ==> !IsNoteLetter(p[k])
    requires IsQualityText(q)
    ensures ParseChord(p + NameText(n) + q) ==
      match GetChordByName(NameText(n), if q == "" then "M" else q, Some(NameText(n)))
      case Err(e) => Err(e)
      case Ok(c) => Ok(Some(c))
  {
    var r := NameText(n);
    var s := p + r + q;
    NameTextIsRoot(n);
    BassTextAtEnd(s, r);
    ParseChordOfParts(p, r, q, "", s, |s|, r);
  }

  /** A quality that ends the text leaves the root as the bass. */
  lemma BassTextAtEnd(s: string, r: string)
    ensures BassText(s, |s|, r) == r
  {
  }

  /** A '/' at index i followed by a note name ending the text gives that name as the bass. */
  lemma BassSpan(s: string, i: nat, b: NoteName, r: string)
    requires i + 1 + |NameText(b)| == |s| && s[i] == '/' && s[i + 1..] == NameText(b)
    ensures BassText(s, i, r) == NameText(b)
  {
    assert s[i + 1] == NameText(b)[0];
    NameTextIsRoot(b);
    RootEndOf(s, i + 1, NameText(b));
  }

  /** With "/bass" after the quality, `parseChord` looks up the root, quality and bass texts. */
  lemma ParseChordBassSpans(p: string, n: NoteName, q: string, b: NoteName)
    requires forall k :: 0 <= k < |p| ==> !IsNoteLetter(p[k])
    requires IsQualityText(q)
    ensures ParseChord(p + NameText(n) + q + ("/" + NameText(b))) ==
      match GetChordByName(NameText(n), if q == "" then "M" else q, Some(NameText(b)))
      case Err(e) => Err(e)
      case Ok(c) => Ok(Some(c))
  {
    var r, bs := NameText(n), "/" + NameText(b);
    var x := p + r + q;
    NameTextIsRoot(n);
    BassSpanAfter(x, b, r);
    ParseChordOfParts(p, r, q, bs, x + bs, |x|, NameText(b));
  }

  /** In prefix + root + quality + rest, `parseChord` finds the root and the quality where they
      stand, and looks them up with the bass text read after the quality. */
  lemma ParseChordOfParts(p: string, r: string, q: string, rest: string, s: string, qe: nat, bt: string)
    requires forall k :: 0 <= k < |p| ==> !IsNoteLetter(p[k])
    requires IsRootText(r) && IsQualityText(q)
    requires rest == "" || rest[0] == '/'
    requires s == p + r + q + rest && qe == |p| + |r| + |q|
    requires BassText(s, qe, r) == bt
    ensures ParseChord(s) ==
      match GetChordByName(r, if q == "" then "M" else q, Some(bt))
      case Err(e) => Err(e)
      case Ok(c) => Ok(Some(c))
  {
    ChordSpans(p, r, q, rest, s, |p|, |p| + |r|, qe);
    ParseChordOfSpans(s, |p|, |p| + |r|, qe, r, q, bt);
  }

  /** The spans `parseChord` reads in prefix + root + quality + rest. */
  lemma ChordSpans(p: string, r: string, q: string, rest: string, s: string, i: nat, m: nat, qe: nat)
    requires forall k :: 0 <= k < |p| ==> !IsNoteLetter(p[k])
    requires IsRootText(r) && IsQualityText(q)
    requires rest == "" || rest[0] == '/'
    requires s == p + r + q + rest
    requires i == |p| && m == i + |r| && qe == m + |q|
    ensures FindNoteLetter(s, 0) == Some(i)
    ensures SkipOptional(s, i + 1, ACCIDENTAL_CHARS) == m
    ensures m <= qe <= |s| && SkipOptional(s, SkipLetters(s, m), DIGITS) == qe
    ensures s[i..m] == r && s[m..qe] == q
  {
    ChordRootStart(p, r, q, rest, s);
    ChordRootEnd(p, r, q, rest, s);
    ChordQualityEnd(p, r, q, rest, s);
    SpansOf(p, r, q, rest, s, i, m, qe);
  }

  /** "/" and a note name after any text give that name as the bass. */
  lemma BassSpanAfter(x: string, b: NoteName, r: string)
    ensures BassText(x + ("/" + NameText(b)), |x|, r) == NameText(b)
  {
    var s := x + ("/" + NameText(b));
    assert s[|x|] == '/' && s[|x| + 1..] == NameText(b);
    BassSpan(s, |x|, b, r);
  }

  /** With "/bass" after the quality, `parseChord` builds the chord over that bass, failing as the
      chord constructor does when an inverted chord's bass is not one of its tones. */
  lemma ParseChordWithBass(p: string, n: NoteName, q: string, b: NoteName)
    requires forall k :: 0 <= k < |p| ==> !IsNoteLetter(p[k])
    requires IsQualityText(q)
    ensures ParseChord(p + NameText(n) + q + ("/" + NameText(b))) ==
      match MakeChord(Note(n, 4), if q == "" then "M" else q, Note(b, 4))
      case Err(e) => Err(e)
      case Ok(c) => Ok(Some(c))
  {
    ParseChordBassSpans(p, n, q, b);
    GetChordByNameOfNames(n, if q == "" then "M" else q, b);
  }

  lemma SpansOf(p: string, r: string, q: string, rest: string, s: string, i: nat, m: nat, qe: nat)
    requires s == p + r + q + rest
    requires i == |p| && m == i + |r| && qe == m + |q|
    ensures i <= m <= qe <= |s|
    ensures s[i..m] == r && s[m..qe] == q
  {
    SpansOfPrefix(p + r + q, p, r, q, rest);
  }

  lemma SpansOfPrefix(x: string, p: string, r: string, q: string, rest: string)
    requires x == p + r + q
    ensures (x + rest)[|p|..|p| + |r|] == r && (x + rest)[|p| + |r|..|x|] == q
  {
  }

  /** `parseChord` gives no chord exactly when the text has no letter A..G. */
  lemma ParseChordWithoutLetter(text: string)
    ensures ParseChord(text) == Ok(None) <==> forall k :: 0 <= k < |text| ==> !IsNoteLetter(text[k])
  {
    if FindNoteLetter(text, 0).Some? {
      match ParseChord(text)
      case Err(_) =>
      case Ok(c) => assert c.Some?;
    }
  }

  /** An unknown quality is accepted as long as no tones are needed, and throws once they are. */
  lemma UnknownQualityIsLazy()
    ensures ParseChord("Cxyz") ==
      Ok(Some(Chord(Note(NoteName(C, Natural), 4), "xyz", Note(NoteName(C, Natural), 4))))
    ensures ChordTones(Chord(Note(NoteName(C, Natural), 4), "xyz", Note(NoteName(C, Natural), 4))) ==
      Err(UnknownQuality("xyz"))
  {
    var n := NoteName(C, Natural);
    var root := Note(n, 4);
    assert "" + NameText(n) + "xyz" == "Cxyz";
    ParseChordNoBassSpans("", n, "xyz");
    GetChordByNameOfNames(n, "xyz", n);
    assert !IsInverted(Chord(root, "xyz", root)) by {
      assert EqualsIgnoreOctave(root, root);
    }
    MakeChordOutcome(root, "xyz", root);
    assert !IsQuality("xyz") by {
      if IsQuality("xyz") {
        QualityCharacters("xyz");
        assert false;
      }
    }
  }

  // ---------------------------------------------------------------------------------------
  // Documented examples

  /** Cb major is spelled Cb, Eb, Gb: the flat root pulls Gb and Cb spellings in. */
  lemma FlatRootSpelling()
    ensures ChordTones(Chord(Note(NoteName(C, Flat), 4), "M", Note(NoteName(C, Flat), 4))) ==
      Ok([Note(NoteName(C, Flat), 4), Note(NoteName(E, Flat), 4), Note(NoteName(G, Flat), 4)])
  {
    var root := Note(NoteName(C, Flat), 4);
    var t := RootPositionTones(root, [0, 4, 7]);
    assert JsRem(Number(root.name) + 4, 12) == 3 && JsRem(Number(root.name) + 7, 12) == 6;
    assert t == [root, SpellTone(Flat, 3), SpellTone(Flat, 6)];
    assert SpellTone(Flat, 3) == Note(NoteName(E, Flat), 4) by {
      StandardNote(3, 4);
    }
    assert SpellTone(Flat, 6) == Note(NoteName(G, Flat), 4) by {
      StandardNote(6, 4);
    }
  }

  /** Ddim in root position is spelled D, F, Ab: pitch 8 keeps its standard spelling Ab, since
      its alias G# does not carry the natural root's accidental either. */
  lemma DiminishedOnDTones()
    ensures RootPositionTones(Note(NoteName(D, Natural), 4), [0, 3, 6]) ==
      [Note(NoteName(D, Natural), 4), Note(NoteName(F, Natural), 4), Note(NoteName(A, Flat), 4)]
  {
    var root := Note(NoteName(D, Natural), 4);
    TriadTones(root, 3, 6);
    assert Tone(root, 3) == SpellTone(Natural, 5) && Tone(root, 6) == SpellTone(Natural, 8);
    NaturalSpellings();
  }

  /** Ddim/G# throws, whatever the bass's octave: the tones are D, F, Ab in some order, and a G#
      is none of them, notes being compared by name and octave. */
  lemma DdimOverGSharpThrows(d: Note, gs: Note)
    requires d == Note(NoteName(D, Natural), 4) && gs.name == NoteName(G, Sharp)
    ensures MakeChord(d, "dim", gs) == Err(InvalidBassNote("G#"))
  {
    DdimOverGSharpTones(d, gs);
    assert NameText(gs.name) == "G#";
  }

  /** The tones of Ddim over a G# are a rearrangement of D, F, Ab, so the G# is not among them. */
  lemma DdimOverGSharpTones(d: Note, gs: Note)
    requires d == Note(NoteName(D, Natural), 4) && gs.name == NoteName(G, Sharp)
    ensures IsInverted(Chord(d, "dim", gs)) && ChordTones(Chord(d, "dim", gs)).Ok?
    ensures gs !in ChordTones(Chord(d, "dim", gs)).value
  {
    var c := Chord(d, "dim", gs);
    var tones := [d, Note(NoteName(F, Natural), 4), Note(NoteName(A, Flat), 4)];
    IntervalsOf("dim", [0, 3, 6], 5);
    assert IsInverted(c);
    assert multiset(ChordTones(c).value) == multiset(tones) by {
      DiminishedOnDTones();
      SlashChordTones(c, [0, 3, 6]);
    }
    assert gs !in multiset(tones);
  }

  /** A three-note chord is its root and the tones of its second and third intervals. */
  lemma TriadTones(root: Note, second: int, third: int)
    ensures RootPositionTones(root, [0, second, third]) == [root, Tone(root, second), Tone(root, third)]
  {
  }

  /** On a natural root, pitch 5 is F and pitch 8 keeps its standard spelling Ab. */
  lemma NaturalSpellings()
    ensures SpellTone(Natural, 5) == Note(NoteName(F, Natural), 4)
    ensures SpellTone(Natural, 8) == Note(NoteName(A, Flat), 4)
  {
  }
}

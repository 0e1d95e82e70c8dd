/** Reverse chord lookup (chord-lookup.ts): sorts the notes upwards from the first one, then tries
    each left rotation in turn and matches its intervals exactly against the quality table. */
module ChordLookup {
  import opened Wrappers
  import opened Notes
  import opened Chords
  import Sorting

  // ---------------------------------------------------------------------------------------
  // Intervals

  /** Semitones from `base` up to `n`, within one octave. */
  function Offset(base: Note, n: Note): int
  {
    PitchKey(base)(n) - Number(base.name)
  }

  /** `getIntervals`: 0 for the first note, then each later note's offset above it. */
  function Intervals(notes: seq<Note>): (r: seq<int>)
    requires |notes| > 0
    ensures |r| == |notes| && r[0] == 0
  {
    [0] + seq(|notes| - 1, k requires 0 <= k < |notes| - 1 => Offset(notes[0], notes[k + 1]))
  }

  /** Interval lists start at 0, have one entry per note, and stay within 0..11; entry k is 0
      exactly when note k has the first note's pitch. */
  lemma IntervalsShape(notes: seq<Note>)
    requires |notes| > 0
    ensures var r := Intervals(notes);
      |r| == |notes| && r[0] == 0 &&
      (forall k :: 0 <= k < |r| ==> 0 <= r[k] <= 11) &&
      (forall k :: 0 <= k < |r| ==> (r[k] == 0 <==> Number(notes[k].name) == Number(notes[0].name)))
  {
    var r := Intervals(notes);
    forall k | 0 <= k < |r|
      ensures 0 <= r[k] <= 11
      ensures r[k] == 0 <==> Number(notes[k].name) == Number(notes[0].name)
    {
      PitchKeyRange(notes[0], notes[k]);
    }
  }

  /** `getIntervals`: pushes one offset per note after the first. */
  method GetIntervals(notes: array<Note>) returns (ints: seq<int>)
    requires notes.Length > 0
    ensures ints == Intervals(notes[..])
  {
    ints := [0];
    var base := Number(notes[0].name);
    var i := 1;
    while i < notes.Length
      invariant 1 <= i <= notes.Length
      invariant ints == Intervals(notes[..i])
    {
      var num := Number(notes[i].name);
      if num < base {
        num := num + 12;
      }
      assert notes[..i + 1][..i] == notes[..i];
      ints := ints + [num - base];
      i := i + 1;
    }
    assert notes[..i] == notes[..];
  }

  /** `compareIntervals`: element-by-element comparison with an early return. */
  method CompareIntervals(a: seq<int>, b: seq<int>) returns (r: bool)
    ensures r <==> a == b
  {
    if |a| == |b| {
      var i := 0;
      while i < |a|
        invariant 0 <= i <= |a|
        invariant a[..i] == b[..i]
      {
        if a[i] != b[i] {
          return false;
        }
        assert a[..i + 1] == a[..i] + [a[i]];
        assert b[..i + 1] == b[..i] + [b[i]];
        i := i + 1;
      }
      assert a == a[..i] && b == b[..i];
      return true;
    }
    return false;
  }

  // ---------------------------------------------------------------------------------------
  // Quality lookup

  /** The first index of a quality table, from `from` on, whose intervals are `ints`. */
  function FirstQualityIndex(table: seq<(string, seq<int>)>, ints: seq<int>, from: nat): (r: Option<nat>)
    ensures r.Some? ==> from <= r.value < |table| && table[r.value].1 == ints
    decreases |table| - from
  {
    if from >= |table| then None
    else if table[from].1 == ints then Some(from)
    else FirstQualityIndex(table, ints, from + 1)
  }

  /** No entry before the one found has these intervals; if none is found, no entry from
      `from` on has them. */
  lemma {:induction false} FirstQualityIndexFacts(table: seq<(string, seq<int>)>, ints: seq<int>, from: nat)
    ensures var r := FirstQualityIndex(table, ints, from);
      (r.Some? ==> forall k :: from <= k < r.value ==> table[k].1 != ints) &&
      (r.None? ==> forall k :: from <= k < |table| ==> table[k].1 != ints)
    decreases |table| - from
  {
    if from < |table| && table[from].1 != ints {
      FirstQualityIndexFacts(table, ints, from + 1);
    }
  }

  /** `lookupQualityByIntervals`: the quality whose intervals are exactly `ints`, if any. */
  function LookupQuality(ints: seq<int>): (r: Option<string>)
    ensures r.Some? ==> (r.value, ints) in CHORD_INTERVALS
    ensures r.None? <==> forall k :: 0 <= k < |CHORD_INTERVALS| ==> CHORD_INTERVALS[k].1 != ints
  {
    FirstQualityIndexFacts(CHORD_INTERVALS, ints, 0);
    match FirstQualityIndex(CHORD_INTERVALS, ints, 0)
    case None => None
    case Some(k) => Some(CHORD_INTERVALS[k].0)
  }

  /** In a table whose interval lists are distinct, the first match is the only one. */
  lemma FirstQualityIndexUnique(table: seq<(string, seq<int>)>, ints: seq<int>, k: int)
    requires forall i, j :: 0 <= i < j < |table| ==> table[i].1 != table[j].1
    requires 0 <= k < |table| && table[k].1 == ints
    ensures FirstQualityIndex(table, ints, 0) == Some(k)
  {
    FirstQualityIndexFacts(table, ints, 0);
  }

  /** The quality table's interval lists are distinct. */
  lemma IntervalListsDistinct()
    ensures forall i, j :: 0 <= i < j < |CHORD_INTERVALS| ==> CHORD_INTERVALS[i].1 != CHORD_INTERVALS[j].1
  {
    forall i, j | 0 <= i < j < |CHORD_INTERVALS| ensures CHORD_INTERVALS[i].1 != CHORD_INTERVALS[j].1 {
      IntervalTableDistinct(i, j);
    }
  }

  /** The lookup finds a quality exactly when some table entry has these intervals, and it is
      that entry's quality whatever order the table is walked in, since interval lists are
      distinct. */
  lemma LookupQualityExact(ints: seq<int>)
    ensures LookupQuality(ints).Some? <==> exists k :: 0 <= k < |CHORD_INTERVALS| && CHORD_INTERVALS[k].1 == ints
    ensures forall k :: 0 <= k < |CHORD_INTERVALS| && CHORD_INTERVALS[k].1 == ints ==>
      LookupQuality(ints) == Some(CHORD_INTERVALS[k].0)
    ensures LookupQuality(ints).Some? ==> GetChordIntervals(LookupQuality(ints).value) == Ok(ints)
  {
    var r := FirstQualityIndex(CHORD_INTERVALS, ints, 0);
    IntervalListsDistinct();
    forall k | 0 <= k < |CHORD_INTERVALS| && CHORD_INTERVALS[k].1 == ints
      ensures LookupQuality(ints) == Some(CHORD_INTERVALS[k].0)
    {
      FirstQualityIndexUnique(CHORD_INTERVALS, ints, k);
    }
    if r.Some? {
      GetChordIntervalsAt(r.value);
    }
  }

  /** Only the ninth chords' interval lists leave the octave. */
  lemma NinthsEndAbove(k: int)
    requires 0 <= k < |CHORD_INTERVALS|
    requires CHORD_INTERVALS[k].1[|CHORD_INTERVALS[k].1| - 1] <= 11
    ensures CHORD_INTERVALS[k].0 != "9" && CHORD_INTERVALS[k].0 != "M9" && CHORD_INTERVALS[k].0 != "m9"
  {
  }

  /** Interval lists reaching 14 (the qualities 9, M9 and m9) are never found from notes. */
  lemma NinthsNeverFound(notes: seq<Note>)
    requires |notes| > 0
    ensures LookupQuality(Intervals(notes)) !in {Some("9"), Some("M9"), Some("m9")}
  {
    var ints := Intervals(notes);
    IntervalsShape(notes);
    var r := FirstQualityIndex(CHORD_INTERVALS, ints, 0);
    if r.Some? {
      assert ints[|ints| - 1] <= 11;
      NinthsEndAbove(r.value);
    }
  }

  /** `lookupQualityByIntervals`: walks the table, returning the first quality that matches. */
  method LookupQualityByIntervals(ints: seq<int>) returns (r: Option<string>)
    ensures r == LookupQuality(ints)
  {
    var k := 0;
    while k < |CHORD_INTERVALS|
      invariant 0 <= k <= |CHORD_INTERVALS|
      invariant FirstQualityIndex(CHORD_INTERVALS, ints, 0) == FirstQualityIndex(CHORD_INTERVALS, ints, k)
    {
      var quality := CHORD_INTERVALS[k].0;
      GetChordIntervalsAt(k);
      var chordInts := GetChordIntervals(quality);
      var same := CompareIntervals(chordInts.value, ints);
      if same {
        return Some(quality);
      }
      k := k + 1;
    }
    return None;
  }

  // ---------------------------------------------------------------------------------------
  // Rotations

  /** `getNextPermutation`: the first note moves to the end, in place. */
  method NextPermutation(notes: array<Note>)
    requires notes.Length > 0
    modifies notes
    ensures notes[..] == RotateLeft(old(notes[..]), 1)
  {
    ghost var o := notes[..];
    var first := notes[0];
    var i := 0;
    assert notes[..] == o[1..1] + o[0..];
    while i < notes.Length - 1
      invariant 0 <= i <= notes.Length - 1
      invariant notes[..] == o[1..i + 1] + o[i..]
    {
      ShiftDown(notes[..], o, i);
      notes[i] := notes[i + 1];
      i := i + 1;
    }
    LastIntoPlace(notes[..], o, first);
    notes[i] := first;
  }

  /** One step of the shift: the place i takes its right neighbour's note. */
  lemma ShiftDown(s: seq<Note>, o: seq<Note>, i: int)
    requires 0 <= i < |o| - 1 && s == o[1..i + 1] + o[i..]
    ensures s[i + 1] == o[i + 1]
    ensures s[i := s[i + 1]] == o[1..i + 2] + o[i + 1..]
  {
    var t := s[i := s[i + 1]];
    var u := o[1..i + 2] + o[i + 1..];
    assert |t| == |u|;
    forall k | 0 <= k < |t| ensures t[k] == u[k] {
      if k < i {
        assert t[k] == s[k] == o[k + 1];
      } else if k > i {
        assert t[k] == s[k] == o[k];
      }
    }
  }

  /** The end of the shift: writing the first note into the last place completes the rotation. */
  lemma LastIntoPlace(s: seq<Note>, o: seq<Note>, first: Note)
    requires |o| > 0 && first == o[0] && s == o[1..|o|] + o[|o| - 1..]
    ensures s[|o| - 1 := first] == RotateLeft(o, 1)
  {
    assert s[|o| - 1 := first] == o[1..] + [o[0]];
  }

  /** The rotation rearranges the notes: it keeps every one of them. */
  lemma NextPermutationPermutes(s: seq<Note>)
    requires |s| > 0
    ensures multiset(RotateLeft(s, 1)) == multiset(s)
    ensures RotateLeft(s, 1) == s[1..] + [s[0]]
  {
    RotateLeftMultiset(s, 1);
  }

  /** The quality named by the intervals of the i-th left rotation, if any. */
  function QualityAt(s: seq<Note>, i: nat): Option<string>
    requires i < |s|
  {
    LookupQuality(Intervals(RotateLeft(s, i)))
  }

  /** The quality named by each rotation, in rotation order. */
  function Qualities(s: seq<Note>): (r: seq<Option<string>>)
    ensures |r| == |s|
    ensures forall i :: 0 <= i < |s| ==> r[i] == QualityAt(s, i)
  {
    seq(|s|, i requires 0 <= i < |s| => QualityAt(s, i))
  }

  /** The first place, from the j-th on, that holds a value: the one found holds a value and
      none before it does; if none is found, none from the j-th on does. */
  function FirstSome<T>(qs: seq<Option<T>>, j: nat): (r: Option<nat>)
    ensures r.Some? ==> j <= r.value < |qs| && qs[r.value].Some?
    ensures r.Some? ==> forall i :: j <= i < r.value ==> qs[i].None?
    ensures r.None? ==> forall i :: j <= i < |qs| ==> qs[i].None?
    decreases |qs| - j
  {
    if j >= |qs| then None
    else if qs[j].Some? then Some(j)
    else FirstSome(qs, j + 1)
  }

  // ---------------------------------------------------------------------------------------
  // getChordFromNotes

  /** The notes sorted upwards from the first one (`sortNotes`). */
  function SortedFromFirst(notes: seq<Note>): (r: seq<Note>)
    requires |notes| > 0
    ensures |r| == |notes| && multiset(r) == multiset(notes)
    ensures Sorting.SortedBy(r, PitchKey(notes[0]))
  {
    SortNotesPermutes(notes, notes[0]);
    Sorting.SortByPermutes(notes, PitchKey(notes[0]));
    Sorting.SortBy(notes, PitchKey(notes[0]))
  }

  /** `getChordFromNotes(...notes)`: no notes read `notes[0]` of an empty list; otherwise the
      chord of the first matching rotation, over the first input note, or none. */
  function ChordFromNotes(notes: seq<Note>): (r: Result<Option<Chord>>)
    ensures |notes| == 0 ==> r == Err(UndefinedAccess("notes[0].name"))
    ensures r.Ok? && r.value.Some? ==> IsQuality(r.value.value.quality) && r.value.value.root.octave == 4
  {
    if |notes| == 0 then Err(UndefinedAccess("notes[0].name"))
    else
      var sorted := SortedFromFirst(notes);
      var qs := Qualities(sorted);
      match FirstSome(qs, 0)
      case None => Ok(None)
      case Some(i) =>
        match GetChordByName(NameText(sorted[i].name), qs[i].value, Some(NameText(notes[0].name)))
        case Err(e) => Err(e)
        case Ok(c) => Ok(Some(c))
  }

  /** `getChordFromNotes(...names)`: each name is resolved with getNote first. */
  function ChordFromNames(names: seq<string>): (r: Result<Option<Chord>>)
    ensures |names| == 0 ==> r.Err?
    ensures r.Ok? ==> forall k :: 0 <= k < |names| ==> ParseNoteName(names[k]).Some?
    ensures r.Ok? && r.value.Some? ==> IsQuality(r.value.value.quality) && NameText(r.value.value.bass.name) == names[0]
  {
    match NotesOfNames(names)
    case Err(e) => Err(e)
    case Ok(notes) =>
      var r := ChordFromNotes(notes);
      if r.Ok? && r.value.Some? then
        ChordFromNotesFound(notes);
        r
      else
        r
  }

  function NotesOfNames(names: seq<string>): (r: Result<seq<Note>>)
    ensures r.Ok? ==> |r.value| == |names|
    ensures r.Ok? ==> forall k :: 0 <= k < |names| ==> GetNoteByName(names[k], 4) == Ok(r.value[k])
  {
    if |names| == 0 then Ok([])
    else
      match GetNoteByName(names[0], 4)
      case Err(e) => Err(e)
      case Ok(n) =>
        match NotesOfNames(names[1..])
        case Err(e) => Err(e)
        case Ok(rest) => Ok([n] + rest)
  }

  /** `getChordFromNotes`: copies and sorts the notes, then rotates them in place until a
      rotation's intervals name a quality, trying each rotation once. Called without notes it
      reads `notes[0]` of an empty list and throws. */
  method GetChordFromNotes(notes: seq<Note>) returns (r: Result<Option<Chord>>)
    ensures r == ChordFromNotes(notes)
    ensures |notes| == 0 ==> r == Err(UndefinedAccess("notes[0].name"))
  {
    if |notes| == 0 {
      return Err(UndefinedAccess("notes[0].name"));
    }
    var a := new Note[|notes|](k requires 0 <= k < |notes| => notes[k]);
    assert a[..] == notes;
    var bass := a[0].name;
    SortNotesFromFirst(a);
    ghost var sorted := a[..];
    assert sorted == SortedFromFirst(notes);
    var i, quality := FindRotation(a, sorted);
    if quality.None? {
      return Ok(None);
    }
    ChordFromNotesAt(notes, i);
    var c := GetChordByName(NameText(a[0].name), quality.value, Some(NameText(bass)));
    if c.Err? {
      return Err(c.error);
    }
    return Ok(Some(c.value));
  }

  /** The loop of `getChordFromNotes`: rotates the notes in place until a rotation's intervals
      name a quality, trying each rotation once; it stops at the first such rotation, or
      reports that there is none. */
  method FindRotation(a: array<Note>, ghost sorted: seq<Note>) returns (i: int, quality: Option<string>)
    requires a[..] == sorted && |sorted| > 0
    modifies a
    ensures quality.None? ==> FirstSome(Qualities(sorted), 0).None?
    ensures quality.Some? ==> 0 <= i < |sorted| && FirstSome(Qualities(sorted), 0) == Some(i)
    ensures quality.Some? ==> quality == Qualities(sorted)[i] && a[0] == sorted[i]
  {
    ghost var qs := Qualities(sorted);
    i := 0;
    assert a[..] == RotateLeft(sorted, 0);
    while i < a.Length
      invariant 0 <= i <= a.Length == |sorted|
      invariant a[..] == RotateLeft(sorted, i)
      invariant FirstSome(qs, 0) == FirstSome(qs, i)
    {
      var ints := GetIntervals(a);
      quality := LookupQualityByIntervals(ints);
      RotationAt(sorted, i);
      FirstSomeStep(qs, i);
      if quality.Some? {
        return;
      }
      NextPermutation(a);
      RotateLeftAgain(sorted, i);
      i := i + 1;
    }
    quality := None;
  }

  /** The i-th rotation starts at the i-th note and names the i-th quality. */
  lemma RotationAt(sorted: seq<Note>, i: nat)
    requires i < |sorted|
    ensures RotateLeft(sorted, i)[0] == sorted[i]
    ensures Qualities(sorted)[i] == LookupQuality(Intervals(RotateLeft(sorted, i)))
  {
  }

  /** Rotating the i-th rotation once more gives the next one. */
  lemma RotateLeftAgain<T>(s: seq<T>, i: nat)
    requires i < |s|
    ensures RotateLeft(RotateLeft(s, i), 1) == RotateLeft(s, i + 1)
  {
    RotateLeftStep(s, i);
    var r := RotateLeft(s, i);
    assert r[..1] == [r[0]];
  }

  /** One step of the search for the first place holding a value. */
  lemma FirstSomeStep<T>(qs: seq<Option<T>>, i: nat)
    requires i < |qs|
    ensures FirstSome(qs, i) == if qs[i].Some? then Some(i) else FirstSome(qs, i + 1)
  {
  }

  /** When the i-th rotation is the first to name a quality, the result is the chord of that
      quality on the rotation's first note, over the first input note. */
  lemma ChordFromNotesAt(notes: seq<Note>, i: int)
    requires |notes| > 0 && 0 <= i < |notes|
    requires FirstSome(Qualities(SortedFromFirst(notes)), 0) == FirstSome(Qualities(SortedFromFirst(notes)), i)
    requires Qualities(SortedFromFirst(notes))[i].Some?
    ensures var sorted := SortedFromFirst(notes);
      ChordFromNotes(notes) ==
        match GetChordByName(NameText(sorted[i].name), Qualities(sorted)[i].value, Some(NameText(notes[0].name)))
        case Err(e) => Err(e)
        case Ok(c) => Ok(Some(c))
  {
  }

  // ---------------------------------------------------------------------------------------
  // Properties

  /** A found chord is built at octave 4 from the first note of the first matching rotation
      of the sorted notes, with that rotation's intervals as its quality's, over the first
      input note. */
  lemma ChordFromNotesFound(notes: seq<Note>)
    requires ChordFromNotes(notes).Ok? && ChordFromNotes(notes).value.Some?
    ensures var c := ChordFromNotes(notes).value.value;
      var sorted := SortedFromFirst(notes);
      c.bass.name == notes[0].name && c.bass.octave == 4 && c.root.octave == 4 &&
      exists i :: 0 <= i < |sorted| &&
        (forall i' :: 0 <= i' < i ==> QualityAt(sorted, i').None?) &&
        c.root.name == sorted[i].name &&
        GetChordIntervals(c.quality) == Ok(Intervals(RotateLeft(sorted, i)))
  {
    var sorted := SortedFromFirst(notes);
    var i := FirstSome(Qualities(sorted), 0).value;
    var q := QualityAt(sorted, i).value;
    var c := ChordFromNotes(notes).value.value;
    FoundQualityIntervals(Intervals(RotateLeft(sorted, i)));
    GetChordByNameOfNames(sorted[i].name, q, notes[0].name);
    MadeChordValue(Note(sorted[i].name, 4), q, Note(notes[0].name, 4));
    assert c == Chord(Note(sorted[i].name, 4), q, Note(notes[0].name, 4));
    assert GetChordIntervals(c.quality) == Ok(Intervals(RotateLeft(sorted, i)));
  }

  /** A quality the lookup finds is not empty and has exactly the looked-up intervals. */
  lemma FoundQualityIntervals(ints: seq<int>)
    ensures LookupQuality(ints).Some? ==>
      LookupQuality(ints).value != "" && GetChordIntervals(LookupQuality(ints).value) == Ok(ints)
  {
    LookupQualityExact(ints);
  }

  /** A chord that is built holds the given root and bass, and the quality with "" read as M. */
  lemma MadeChordValue(root: Note, quality: string, bass: Note)
    ensures MakeChord(root, quality, bass).Ok? ==>
      MakeChord(root, quality, bass).value == Chord(root, if quality == "" then "M" else quality, bass)
  {
  }

  /** The result is none exactly when no rotation of the sorted notes matches, e.g. A, Ab. */
  lemma ChordFromNotesNone(notes: seq<Note>)
    requires |notes| > 0
    ensures ChordFromNotes(notes) == Ok(None) <==>
      forall i :: 0 <= i < |SortedFromFirst(notes)| ==> QualityAt(SortedFromFirst(notes), i).None?
  {
  }

  /** Each root-position tone's key is its interval above the root. */
  lemma RootPositionKeys(root: Note, ints: seq<int>, k: int)
    requires |ints| > 0 && 0 <= k < |ints| && forall i :: 0 <= i < |ints| ==> 0 <= ints[i] <= 11
    requires ints[0] == 0
    ensures PitchKey(root)(RootPositionTones(root, ints)[k]) == Number(root.name) + ints[k]
  {
    if k > 0 {
      RootPositionToneAt(root, ints, k);
      ToneFacts(root, ints[k]);
      KeyOfPitch(root, Tone(root, ints[k]), ints[k]);
    }
  }

  /** A note i half steps above the root, within the octave, has key root + i. */
  lemma KeyOfPitch(root: Note, n: Note, i: int)
    requires 0 <= i <= 11 && Number(n.name) == (Number(root.name) + i) % 12
    ensures PitchKey(root)(n) == Number(root.name) + i
  {
    NumberOfSpelling(root.name);
  }

  /** Interval lists that rise strictly from 0 within one octave. */
  predicate WithinOctave(ints: seq<int>)
  {
    |ints| > 0 && ints[0] == 0 &&
    (forall i :: 0 <= i < |ints| ==> 0 <= ints[i] <= 11) &&
    (forall i, j :: 0 <= i < j < |ints| ==> ints[i] < ints[j])
  }

  /** Root-position tones over such a list are already in order from the root. */
  lemma RootPositionSorted(root: Note, ints: seq<int>)
    requires WithinOctave(ints)
    ensures |RootPositionTones(root, ints)| > 0 && RootPositionTones(root, ints)[0] == root
    ensures SortedFromFirst(RootPositionTones(root, ints)) == RootPositionTones(root, ints)
  {
    RootPositionTonesShape(root, ints);
    var t := RootPositionTones(root, ints);
    forall i | 0 <= i < |t| ensures PitchKey(root)(t[i]) == Number(root.name) + ints[i] {
      RootPositionKeys(root, ints, i);
    }
    assert Sorting.SortedBy(t, PitchKey(root));
    Sorting.SortByOfSorted(t, PitchKey(root));
  }

  /** ... and their intervals are the list itself. */
  lemma RootPositionIntervals(root: Note, ints: seq<int>)
    requires WithinOctave(ints)
    ensures |RootPositionTones(root, ints)| > 0
    ensures Intervals(RootPositionTones(root, ints)) == ints
  {
    var t := RootPositionTones(root, ints);
    var iv := Intervals(t);
    forall i | 0 <= i < |ints| ensures iv[i] == ints[i] {
      if i > 0 {
        IntervalAt(t, i);
        RootPositionKeys(root, ints, i);
      }
    }
    SameElements(iv, ints);
  }

  /** Entry i of the interval list, after the first, is note i's offset above the first note. */
  lemma IntervalAt(notes: seq<Note>, i: int)
    requires 1 <= i < |notes|
    ensures Intervals(notes)[i] == Offset(notes[0], notes[i])
  {
  }

  /** Root-position tones at octave 4 over a list within one octave that names quality q are
      recognised as the chord q on the root. */
  lemma LookupOfWithinOctave(root: Note, q: string, ints: seq<int>)
    requires root.octave == 4 && WithinOctave(ints) && LookupQuality(ints) == Some(q) && q != ""
    ensures ChordFromNotes(RootPositionTones(root, ints)) == Ok(Some(Chord(root, q, root)))
  {
    var t := RootPositionTones(root, ints);
    RootPositionSorted(root, ints);
    RootPositionIntervals(root, ints);
    assert RotateLeft(t, 0) == t;
    assert QualityAt(t, 0) == Some(q);
    assert Qualities(t)[0] == Some(q);
    assert FirstSome(Qualities(t), 0) == Some(0);
    GetChordByNameOfNames(root.name, q, root.name);
  }

  /** Reverse lookup inverts tone derivation: the root-position tones of any quality that fits
      in one octave, rooted at octave 4, are recognised as that very chord. */
  lemma LookupOfRootPosition(r: NoteName, k: int)
    requires 0 <= k < |CHORD_INTERVALS| && CHORD_INTERVALS[k].0 !in {"9", "M9", "m9"}
    ensures var root := Note(r, 4);
      ChordFromNotes(RootPositionTones(root, CHORD_INTERVALS[k].1)) ==
        Ok(Some(Chord(root, CHORD_INTERVALS[k].0, root)))
  {
    IntervalTableShape(k);
    LookupQualityExact(CHORD_INTERVALS[k].1);
    LookupOfWithinOctave(Note(r, 4), CHORD_INTERVALS[k].0, CHORD_INTERVALS[k].1);
  }
}

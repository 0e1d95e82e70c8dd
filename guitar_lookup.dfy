/** The guitar lookup service (guitar/guitar-lookup-service.ts): the notes a tab sounds on a
    tuning, the chord shapes stored for a chord, and the chord a tab plays. */
module GuitarLookup {
  import opened Wrappers
  import opened Notes
  import opened Chords
  import ChordLookup
  import opened GuitarChords

  /** A lookup service: the chord table and the open notes, highest string first. */
  datatype Lookup = Lookup(positions: Positions, openNotes: seq<Note>)

  // ---------------------------------------------------------------------------------------
  // getNote and getNotes

  /** `getNote(str, fret)`: the open note of string `str` (0 for the highest) raised by `fret`
      semitones; reading a missing string throws. */
  function GetNote(l: Lookup, str: int, fret: int): (r: Result<Note>)
    ensures r.Ok? <==> 0 <= str < |l.openNotes|
    ensures r.Err? ==> r.error == UndefinedAccess("openNotes[str].transpose")
    ensures r.Ok? ==> MidiNumber(r.value) == MidiNumber(l.openNotes[str]) + fret
    ensures r.Ok? ==> Number(r.value.name) == (Number(l.openNotes[str].name) + fret) % 12
  {
    if 0 <= str < |l.openNotes| then
      TransposePitch(l.openNotes[str], fret);
      Ok(Transpose(l.openNotes[str], fret))
    else Err(UndefinedAccess("openNotes[str].transpose"))
  }

  /** A sequence back to front. */
  function Reversed<T>(s: seq<T>): (r: seq<T>)
    ensures |r| == |s|
  {
    seq(|s|, i requires 0 <= i < |s| => s[|s| - 1 - i])
  }

  lemma ReversedTwice<T>(s: seq<T>)
    ensures Reversed(Reversed(s)) == s
  {
  }

  /** Every sounding string of the tab is a string of the tuning: tab position j is string
      |tab| - 1 - j. */
  predicate Playable(l: Lookup, tab: Tab)
  {
    forall j :: 0 <= j < |tab| && tab[j] >= 0 ==> |tab| - 1 - j < |l.openNotes|
  }

  /** The notes a tab sounds, in tab order (lowest string first), None for a muted string; the
      lookup throws when a sounding position has no string. */
  function NotesOfTab(l: Lookup, tab: Tab): (r: Result<seq<Option<Note>>>)
    ensures r.Ok? <==> Playable(l, tab)
    ensures r.Err? ==> r.error == UndefinedAccess("openNotes[str].transpose")
    ensures r.Ok? ==> |r.value| == |tab|
    ensures r.Ok? ==> forall j :: 0 <= j < |tab| ==> (r.value[j].None? <==> tab[j] < 0)
    ensures r.Ok? ==> forall j :: 0 <= j < |tab| && tab[j] >= 0 ==>
      Ok(r.value[j].value) == GetNote(l, |tab| - 1 - j, tab[j])
  {
    if Playable(l, tab) then
      Ok(seq(|tab|, j requires 0 <= j < |tab| =>
        if tab[j] < 0 then None else Some(Transpose(l.openNotes[|tab| - 1 - j], tab[j]))))
    else Err(UndefinedAccess("openNotes[str].transpose"))
  }

  /** Each sounding position of a tab sounds its fret number of semitones above the open note
      of the string it stands for: the first position is the lowest string. */
  lemma NotesOfTabPitch(l: Lookup, tab: Tab, j: int)
    requires NotesOfTab(l, tab).Ok? && 0 <= j < |tab| && tab[j] >= 0
    ensures MidiNumber(NotesOfTab(l, tab).value[j].value) == MidiNumber(l.openNotes[|tab| - 1 - j]) + tab[j]
  {
  }

  /** `tab.reverse()`: the array reversed in place. */
  method ReverseInPlace(a: array<int>)
    modifies a
    ensures a[..] == Reversed(old(a[..]))
  {
    var i := 0;
    while i < a.Length / 2
      invariant 0 <= i <= a.Length / 2
      invariant forall k :: 0 <= k < i ==> a[k] == old(a[a.Length - 1 - k]) && a[a.Length - 1 - k] == old(a[k])
      invariant forall k :: i <= k < a.Length - i ==> a[k] == old(a[k])
    {
      a[i], a[a.Length - 1 - i] := a[a.Length - 1 - i], a[i];
      i := i + 1;
    }
  }

  /** `getNotes(tab)` as written: the caller's tab is reversed in place, mapped string by
      string, and only the notes are put back in tab order, so the tab stays reversed, also
      when a missing string throws. */
  method GetNotesAsWritten(l: Lookup, tab: array<int>) returns (r: Result<seq<Option<Note>>>)
    modifies tab
    ensures tab[..] == Reversed(old(tab[..]))
    ensures r == NotesOfTab(l, old(tab[..]))
  {
    ghost var orig := tab[..];
    ReverseInPlace(tab);
    ghost var rev := tab[..];
    ghost var expected := StringNotes(l, rev);
    var mapped: seq<Option<Note>> := [];
    for i := 0 to tab.Length
      invariant tab[..] == rev
      invariant mapped == expected[..i]
      invariant forall k :: 0 <= k < i ==> rev[k] < 0 || k < |l.openNotes|
    {
      var fret := tab[i];
      PrefixSnoc(expected, i);
      if fret >= 0 {
        var note := GetNote(l, i, fret);
        if note.Err? {
          MissingString(l, orig, i);
          return Err(note.error);
        }
        StringNoteAt(l, rev, i);
        mapped := mapped + [Some(note.value)];
      } else {
        mapped := mapped + [None];
      }
    }
    assert expected[..|expected|] == expected;
    assert mapped == expected;
    assert rev == Reversed(orig);
    MappedStrings(l, orig, mapped);
    r := Ok(Reversed(mapped));
  }

  /** A sounding string of the tuning has the note GetNote gives. */
  lemma StringNoteAt(l: Lookup, frets: seq<int>, i: int)
    requires 0 <= i < |frets| && 0 <= frets[i] && i < |l.openNotes|
    ensures GetNote(l, i, frets[i]) == Ok(StringNotes(l, frets)[i].value)
    ensures StringNotes(l, frets)[i].Some?
  {
  }

  /** A sounding position of the reversed tab past the last string makes the tab unplayable. */
  lemma MissingString(l: Lookup, tab: Tab, i: int)
    requires 0 <= i < |tab| && Reversed(tab)[i] >= 0 && i >= |l.openNotes|
    ensures !Playable(l, tab)
  {
    assert tab[|tab| - 1 - i] == Reversed(tab)[i];
  }

  /** The note of each string of a tab read from the highest string: None for a muted string
      or a string the tuning lacks. */
  ghost function StringNotes(l: Lookup, frets: seq<int>): (r: seq<Option<Note>>)
    ensures |r| == |frets|
  {
    seq(|frets|, k requires 0 <= k < |frets| =>
      if frets[k] < 0 || k >= |l.openNotes| then None else Some(Transpose(l.openNotes[k], frets[k])))
  }

  /** Mapping the reversed tab string by string and putting the notes back in tab order gives
      the notes of the tab. */
  lemma MappedStrings(l: Lookup, tab: Tab, mapped: seq<Option<Note>>)
    requires forall k :: 0 <= k < |tab| ==> Reversed(tab)[k] < 0 || k < |l.openNotes|
    requires mapped == StringNotes(l, Reversed(tab))
    ensures NotesOfTab(l, tab) == Ok(Reversed(mapped))
  {
    var rev := Reversed(tab);
    forall j | 0 <= j < |tab| && tab[j] >= 0 ensures |tab| - 1 - j < |l.openNotes| {
      assert rev[|tab| - 1 - j] == tab[j];
    }
    assert Playable(l, tab);
    var notes := NotesOfTab(l, tab).value;
    forall j | 0 <= j < |tab| ensures notes[j] == Reversed(mapped)[j] {
      assert rev[|tab| - 1 - j] == tab[j];
      assert Reversed(mapped)[j] == mapped[|tab| - 1 - j];
    }
    assert notes == Reversed(mapped);
  }

  /** The tab of the test for C major comes back from getNotes back to front. */
  lemma GetNotesReversesTab()
    ensures Reversed([-1, 3, 2, 0, 1, 0]) == [0, 1, 0, 2, 3, -1]
    ensures Reversed([-1, 3, 2, 0, 1, 0]) != [-1, 3, 2, 0, 1, 0]
  {
  }

  /** `getNotes(tab)` on a copy of the tab (`tab.slice().reverse()`): the same notes, and the
      caller's tab is left as it was. */
  method GetNotes(l: Lookup, tab: array<int>) returns (r: Result<seq<Option<Note>>>)
    ensures r == NotesOfTab(l, tab[..])
  {
    var copy := new int[tab.Length](i requires 0 <= i < tab.Length reads tab => tab[i]);
    assert copy[..] == tab[..];
    r := GetNotesAsWritten(l, copy);
  }

  // ---------------------------------------------------------------------------------------
  // Chord shapes by name

  /** The table key of a chord: the root's name and the quality, major written as "". */
  function ChordKey(name: string, quality: string): string
  {
    name + (if quality == "M" then "" else quality)
  }

  /** `getChordTabs(name, quality)`: the stored shapes, undefined for a chord not in the table. */
  function GetChordTabs(l: Lookup, name: string, quality: string): (r: Option<seq<Tab>>)
    ensures r.Some? <==> ChordKey(name, quality) in l.positions
    ensures r.Some? ==> r.value == l.positions[ChordKey(name, quality)]
  {
    var key := ChordKey(name, quality);
    if key in l.positions then Some(l.positions[key]) else None
  }

  /** `getChordTab(name, quality, variation)`: a copy of one stored shape, undefined for a chord
      not in the table or a variation it does not have. */
  function GetChordTab(l: Lookup, name: string, quality: string, variation: int): (r: Option<Tab>)
    ensures r.Some? <==> ChordKey(name, quality) in l.positions && 0 <= variation < |l.positions[ChordKey(name, quality)]|
    ensures r.Some? ==> r.value == l.positions[ChordKey(name, quality)][variation]
  {
    var key := ChordKey(name, quality);
    if key in l.positions && 0 <= variation < |l.positions[key]| then Some(l.positions[key][variation]) else None
  }

  /** `getChordVariationCount(name, quality)`: the number of stored shapes, 0 for a chord not in
      the table. */
  function GetChordVariationCount(l: Lookup, name: string, quality: string): (r: nat)
    ensures r == if ChordKey(name, quality) in l.positions then |l.positions[ChordKey(name, quality)]| else 0
  {
    match GetChordTabs(l, name, quality)
    case None => 0
    case Some(tabs) => |tabs|
  }

  /** "M" and "" both name the major chord, and a variation has a shape exactly when it is below
      the variation count; that shape is the count's list entry. */
  lemma ChordTabsAgree(l: Lookup, name: string, quality: string, variation: int)
    ensures GetChordTabs(l, name, "M") == GetChordTabs(l, name, "")
    ensures GetChordTab(l, name, "M", variation) == GetChordTab(l, name, "", variation)
    ensures GetChordTab(l, name, quality, variation).Some? <==> 0 <= variation < GetChordVariationCount(l, name, quality)
    ensures GetChordTab(l, name, quality, variation).Some? ==>
      GetChordTab(l, name, quality, variation).value == GetChordTabs(l, name, quality).value[variation]
  {
    assert ChordKey(name, "M") == ChordKey(name, "") by {
      assert name + "" == name;
    }
  }

  // ---------------------------------------------------------------------------------------
  // getChordFromTab

  /** `notes.findIndex(n1 => n1?.isSameAs(n))` from `from` on: the first sounding note of the
      same pitch class, -1 when there is none. */
  function FirstSame(notes: seq<Option<Note>>, n: Note, from: nat): (r: int)
    requires from <= |notes|
    ensures r == -1 <==> forall j :: from <= j < |notes| ==> !(notes[j].Some? && IsSameAs(notes[j].value, n))
    ensures r != -1 ==> from <= r < |notes| && notes[r].Some? && IsSameAs(notes[r].value, n)
    ensures r != -1 ==> forall j :: from <= j < r ==> !(notes[j].Some? && IsSameAs(notes[j].value, n))
    decreases |notes| - from
  {
    if from == |notes| then -1
    else if notes[from].Some? && IsSameAs(notes[from].value, n) then from
    else FirstSame(notes, n, from + 1)
  }

  /** The filter keeps the note at i: a sounding note that no earlier note repeats. */
  predicate Kept(notes: seq<Option<Note>>, i: int)
    requires 0 <= i < |notes|
  {
    notes[i].Some? && FirstSame(notes, notes[i].value, 0) == i
  }

  /** The kept notes among the first k, in order. */
  function Filtered(notes: seq<Option<Note>>, k: nat): (r: seq<Note>)
    requires k <= |notes|
    ensures |r| <= k
    decreases k
  {
    if k == 0 then []
    else Filtered(notes, k - 1) + (if Kept(notes, k - 1) then [notes[k - 1].value] else [])
  }

  /** The search depends only on the pitch class it looks for. */
  lemma FirstSameByNumber(notes: seq<Option<Note>>, a: Note, b: Note, from: nat)
    requires from <= |notes| && IsSameAs(a, b)
    ensures FirstSame(notes, a, from) == FirstSame(notes, b, from)
    decreases |notes| - from
  {
    if from < |notes| {
      FirstSameByNumber(notes, a, b, from + 1);
    }
  }

  /** Each kept note comes from a kept place before k, and a kept place before k gives its note. */
  lemma {:induction false} FilteredFrom(notes: seq<Option<Note>>, k: nat)
    requires k <= |notes|
    ensures forall x :: x in Filtered(notes, k) ==> exists i :: 0 <= i < k && Kept(notes, i) && notes[i].value == x
    ensures forall i :: 0 <= i < k && Kept(notes, i) ==> notes[i].value in Filtered(notes, k)
    decreases k
  {
    if k > 0 {
      FilteredFrom(notes, k - 1);
      var prev := Filtered(notes, k - 1);
      var add := if Kept(notes, k - 1) then [notes[k - 1].value] else [];
      assert Filtered(notes, k) == prev + add;
      forall x | x in Filtered(notes, k)
        ensures exists i :: 0 <= i < k && Kept(notes, i) && notes[i].value == x
      {
        if x in prev {
          var i :| 0 <= i < k - 1 && Kept(notes, i) && notes[i].value == x;
          assert 0 <= i < k;
        } else {
          assert x in add;
          assert Kept(notes, k - 1) && notes[k - 1].value == x;
        }
      }
      forall i | 0 <= i < k && Kept(notes, i)
        ensures notes[i].value in Filtered(notes, k)
      {
        if i < k - 1 {
          assert notes[i].value in prev;
        } else {
          assert notes[i].value in add;
        }
      }
    }
  }

  /** A kept note's pitch class is not among the notes kept before it. */
  lemma KeptIsNew(notes: seq<Option<Note>>, i: nat)
    requires i < |notes| && Kept(notes, i)
    ensures forall x :: x in Filtered(notes, i) ==> !IsSameAs(x, notes[i].value)
  {
    var n := notes[i].value;
    FilteredFrom(notes, i);
    forall x | x in Filtered(notes, i) ensures !IsSameAs(x, n) {
      var h :| 0 <= h < i && Kept(notes, h) && notes[h].value == x;
      assert !(notes[h].Some? && IsSameAs(notes[h].value, n));
    }
  }

  /** A note of a new pitch class extends a list without repeated pitch classes. */
  lemma AppendDistinct(prev: seq<Note>, n: Note)
    requires forall a, b :: 0 <= a < b < |prev| ==> !IsSameAs(prev[a], prev[b])
    requires forall x :: x in prev ==> !IsSameAs(x, n)
    ensures forall a, b :: 0 <= a < b < |prev + [n]| ==> !IsSameAs((prev + [n])[a], (prev + [n])[b])
  {
    var r := prev + [n];
    forall a, b | 0 <= a < b < |r| ensures !IsSameAs(r[a], r[b]) {
      assert r[a] == prev[a];
      if b < |prev| {
        assert r[b] == prev[b];
      } else {
        assert r[a] in prev;
      }
    }
  }

  /** No two kept notes are the same pitch class. */
  lemma {:induction false} FilteredDistinct(notes: seq<Option<Note>>, k: nat)
    requires k <= |notes|
    ensures forall a, b :: 0 <= a < b < |Filtered(notes, k)| ==> !IsSameAs(Filtered(notes, k)[a], Filtered(notes, k)[b])
    decreases k
  {
    if k > 0 {
      FilteredDistinct(notes, k - 1);
      var prev := Filtered(notes, k - 1);
      if Kept(notes, k - 1) {
        var n := notes[k - 1].value;
        KeptIsNew(notes, k - 1);
        assert Filtered(notes, k) == prev + [n];
        AppendDistinct(prev, n);
      } else {
        assert Filtered(notes, k) == prev + [];
      }
    }
  }

  /** What the filter makes of the notes: only sounding notes, no pitch class twice, every
      sounding pitch class once, and the lowest sounding note first. */
  lemma FilteredFacts(notes: seq<Option<Note>>)
    ensures forall x :: x in Filtered(notes, |notes|) ==> Some(x) in notes
    ensures forall a, b :: 0 <= a < b < |Filtered(notes, |notes|)| ==>
      !IsSameAs(Filtered(notes, |notes|)[a], Filtered(notes, |notes|)[b])
    ensures forall j :: 0 <= j < |notes| && notes[j].Some? ==>
      exists x :: x in Filtered(notes, |notes|) && IsSameAs(x, notes[j].value)
    ensures |Filtered(notes, |notes|)| == 0 <==> forall j :: 0 <= j < |notes| ==> notes[j].None?
  {
    FilteredSounding(notes);
    FilteredDistinct(notes, |notes|);
    FilteredCovers(notes);
    if forall j :: 0 <= j < |notes| ==> notes[j].None? {
      FilteredNone(notes, |notes|);
    }
  }

  /** Every kept note sounds on some string. */
  lemma FilteredSounding(notes: seq<Option<Note>>)
    ensures forall x :: x in Filtered(notes, |notes|) ==> Some(x) in notes
  {
    FilteredFrom(notes, |notes|);
    forall x | x in Filtered(notes, |notes|) ensures Some(x) in notes {
      var i :| 0 <= i < |notes| && Kept(notes, i) && notes[i].value == x;
      assert notes[i] == Some(x);
    }
  }

  /** Every sounding note's pitch class is kept. */
  lemma FilteredCovers(notes: seq<Option<Note>>)
    ensures forall j :: 0 <= j < |notes| && notes[j].Some? ==>
      exists x :: x in Filtered(notes, |notes|) && IsSameAs(x, notes[j].value)
  {
    FilteredFrom(notes, |notes|);
    forall j | 0 <= j < |notes| && notes[j].Some?
      ensures exists x :: x in Filtered(notes, |notes|) && IsSameAs(x, notes[j].value)
    {
      var f := FirstSame(notes, notes[j].value, 0);
      FirstSameByNumber(notes, notes[f].value, notes[j].value, 0);
      assert Kept(notes, f);
      assert notes[f].value in Filtered(notes, |notes|);
    }
  }

  /** The first kept note is the first sounding one, which becomes the chord's bass. */
  lemma {:induction false} FilteredBass(notes: seq<Option<Note>>, k: nat, j: nat)
    requires j < k <= |notes| && notes[j].Some?
    requires forall i :: 0 <= i < j ==> notes[i].None?
    ensures |Filtered(notes, k)| > 0 && Filtered(notes, k)[0] == notes[j].value
    decreases k
  {
    if k - 1 > j {
      FilteredBass(notes, k - 1, j);
      var before := Filtered(notes, k - 1);
      var last := if Kept(notes, k - 1) then [notes[k - 1].value] else [];
      assert Filtered(notes, k) == before + last;
      assert (before + last)[0] == before[0];
    } else {
      FilteredNone(notes, j);
      FirstSameAtFirst(notes, j);
      assert Kept(notes, j);
      assert Filtered(notes, k) == [] + [notes[j].value];
    }
  }

  /** The first sounding note is the first of its own pitch class. */
  lemma FirstSameAtFirst(notes: seq<Option<Note>>, j: nat)
    requires j < |notes| && notes[j].Some?
    requires forall i :: 0 <= i < j ==> notes[i].None?
    ensures FirstSame(notes, notes[j].value, 0) == j
  {
    var r := FirstSame(notes, notes[j].value, 0);
    assert IsSameAs(notes[j].value, notes[j].value);
    assert r != -1;
  }

  lemma {:induction false} FilteredNone(notes: seq<Option<Note>>, k: nat)
    requires k <= |notes|
    requires forall i :: 0 <= i < k ==> notes[i].None?
    ensures Filtered(notes, k) == []
    decreases k
  {
    if k > 0 {
      FilteredNone(notes, k - 1);
    }
  }

  /** `getChordFromTab(tab)`: the sounding notes without repeated pitch classes, lowest string
      first, looked up as a chord; with no sounding string the lookup throws. */
  function ChordFromTab(l: Lookup, tab: Tab): (r: Result<Option<Chord>>)
    ensures NotesOfTab(l, tab).Err? ==> r.Err?
    ensures r.Ok? && r.value.Some? ==> IsQuality(r.value.value.quality) && r.value.value.root.octave == 4
  {
    match NotesOfTab(l, tab)
    case Err(e) => Err(e)
    case Ok(notes) => ChordLookup.ChordFromNotes(Filtered(notes, |notes|))
  }

  /** A tab with every string muted has no notes to look up, and the lookup throws. */
  lemma ChordFromTabMuted(l: Lookup, tab: Tab)
    requires forall j :: 0 <= j < |tab| ==> tab[j] < 0
    ensures ChordFromTab(l, tab) == Err(UndefinedAccess("notes[0].name"))
  {
    var notes := NotesOfTab(l, tab).value;
    FilteredNone(notes, |notes|);
  }

  /** Otherwise the lowest sounding string's note is looked up first, so a chord found is over
      that note's name. */
  lemma ChordFromTabBass(l: Lookup, tab: Tab, j: int)
    requires NotesOfTab(l, tab).Ok? && 0 <= j < |tab| && tab[j] >= 0
    requires forall i :: 0 <= i < j ==> tab[i] < 0
    ensures var notes := NotesOfTab(l, tab).value;
      |Filtered(notes, |notes|)| > 0 && Filtered(notes, |notes|)[0] == Transpose(l.openNotes[|tab| - 1 - j], tab[j])
    ensures ChordFromTab(l, tab).Ok? && ChordFromTab(l, tab).value.Some? ==>
      ChordFromTab(l, tab).value.value.bass.name == Transpose(l.openNotes[|tab| - 1 - j], tab[j]).name
  {
    var notes := NotesOfTab(l, tab).value;
    FilteredBass(notes, |notes|, j);
    if ChordFromTab(l, tab).Ok? && ChordFromTab(l, tab).value.Some? {
      ChordLookup.ChordFromNotesFound(Filtered(notes, |notes|));
    }
  }

  /** `getChordFromTab(tab)`, reading the tab through the copying getNotes. */
  method GetChordFromTab(l: Lookup, tab: array<int>) returns (r: Result<Option<Chord>>)
    ensures r == ChordFromTab(l, tab[..])
  {
    var notes := GetNotes(l, tab);
    if notes.Err? {
      return Err(notes.error);
    }
    var distinct := Filtered(notes.value, |notes.value|);
    r := ChordLookup.GetChordFromNotes(distinct);
  }
}

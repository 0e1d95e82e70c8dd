/** Guitar chord tables (guitar/build-guitar-chords.ts): open chord shapes are copied into a
    table keyed by chord name, every barre shape is added under the twelve chords it makes on
    frets 0..11, and each list is then sorted from the top of the neck down. */
module GuitarChords {
  import opened Wrappers
  import opened Notes
  import opened Chords
  import Sorting

  /** Fret numbers in tab order, the sixth string first; a negative fret is a muted string. */
  type Tab = seq<int>

  /** A table of chord shapes by chord name. */
  type Positions = map<string, seq<Tab>>

  /** One root of the barre table with its (quality, shape) entries, in iteration order. */
  datatype BarreRoot = BarreRoot(root: string, shapes: seq<(string, Tab)>)

  /** One barre shape with the root and quality it plays. */
  datatype Shape = Shape(root: string, quality: string, tab: Tab)

  /** The table object the builder fills; its lists grow and are sorted in place. */
  class PositionTable {
    var entries: Positions

    constructor(entries: Positions)
      ensures this.entries == entries
    {
      this.entries := entries;
    }
  }

  // ---------------------------------------------------------------------------------------
  // moveBarreChord

  /** A shape moved up the neck by `amount` frets; muted strings stay muted. */
  function Moved(positions: Tab, amount: int): (r: Tab)
    ensures |r| == |positions|
  {
    seq(|positions|, i requires 0 <= i < |positions| => if positions[i] >= 0 then positions[i] + amount else -1)
  }

  /** Moving up by a and then by b is moving up by a + b. */
  lemma MovedCompose(positions: Tab, a: int, b: int)
    requires a >= 0
    ensures Moved(Moved(positions, a), b) == Moved(positions, a + b)
  {
  }

  /** `moveBarreChord(positions, amount)`: same length, every muted string -1 and every other
      fret raised by `amount`. */
  method MoveBarreChord(positions: Tab, amount: int) returns (r: Tab)
    ensures |r| == |positions|
    ensures forall i :: 0 <= i < |positions| ==> r[i] == (if positions[i] >= 0 then positions[i] + amount else -1)
    ensures r == Moved(positions, amount)
  {
    r := [];
    for i := 0 to |positions|
      invariant |r| == i
      invariant forall j :: 0 <= j < i ==> r[j] == (if positions[j] >= 0 then positions[j] + amount else -1)
    {
      var pos := positions[i];
      r := r + [if pos >= 0 then pos + amount else -1];
    }
  }

  // ---------------------------------------------------------------------------------------
  // getMinFret

  /** `Math.min(x, min)` for a fretted string, None standing for Number.MAX_VALUE. */
  function Lesser(min: Option<int>, x: int): Option<int>
  {
    if x <= 0 then min
    else match min
      case None => Some(x)
      case Some(y) => Some(if x < y then x else y)
  }

  /** The least fretted (positive) position, None when there is none. */
  function LeastPositive(s: seq<int>): Option<int>
    decreases |s|
  {
    if |s| == 0 then None else Lesser(LeastPositive(s[..|s| - 1]), s[|s| - 1])
  }

  lemma {:induction false} LeastPositiveIsLeast(s: seq<int>)
    ensures LeastPositive(s).None? <==> forall i :: 0 <= i < |s| ==> s[i] <= 0
    ensures LeastPositive(s).Some? ==> LeastPositive(s).value > 0 && LeastPositive(s).value in s
    ensures LeastPositive(s).Some? ==> forall i :: 0 <= i < |s| && s[i] > 0 ==> LeastPositive(s).value <= s[i]
    decreases |s|
  {
    if |s| > 0 {
      var p := s[..|s| - 1];
      LeastPositiveIsLeast(p);
      assert forall i :: 0 <= i < |p| ==> p[i] == s[i];
      if LeastPositive(p).Some? {
        assert LeastPositive(p).value in s by {
          var k :| 0 <= k < |p| && p[k] == LeastPositive(p).value;
          assert s[k] == p[k];
        }
      }
    }
  }

  /** The lowest fret of a tab: 0 when a string is open, otherwise the least fretted position,
      None when every string is muted. */
  function MinFretOf(chord: Tab): (r: Option<int>)
    ensures r == Some(0) <==> 0 in chord
    ensures r.Some? ==> r.value >= 0 && r.value in chord
  {
    LeastPositiveIsLeast(chord);
    if 0 in chord then Some(0) else LeastPositive(chord)
  }

  /** The lowest fret is 0 exactly when a string is open, missing exactly when every string is
      muted, and otherwise a fret of the tab at or below each sounding string's. */
  lemma MinFretOfIsLeast(chord: Tab)
    ensures MinFretOf(chord) == Some(0) <==> 0 in chord
    ensures MinFretOf(chord).None? <==> forall i :: 0 <= i < |chord| ==> chord[i] < 0
    ensures MinFretOf(chord).Some? ==> MinFretOf(chord).value >= 0 && MinFretOf(chord).value in chord
    ensures MinFretOf(chord).Some? ==> forall i :: 0 <= i < |chord| && chord[i] >= 0 ==> MinFretOf(chord).value <= chord[i]
  {
    LeastPositiveIsLeast(chord);
  }

  /** `getMinFret(chord)`: the loop with its early return on an open string. */
  method GetMinFret(chord: Tab) returns (r: Option<int>)
    ensures r == MinFretOf(chord)
  {
    var min: Option<int> := None;
    for i := 0 to |chord|
      invariant 0 !in chord[..i]
      invariant min == LeastPositive(chord[..i])
    {
      if chord[i] == 0 {
        return Some(0);
      }
      if chord[i] > 0 {
        min := Some(match min case None => chord[i] case Some(y) => if chord[i] < y then chord[i] else y);
      }
      assert chord[..i + 1][..i] == chord[..i];
    }
    assert chord[..|chord|] == chord;
    r := min;
  }

  /** Stands for Number.MAX_VALUE, the sort key of a tab with every string muted: above every
      fret a table holds. */
  const NO_FRET_KEY: int := 0x7FFF_FFFF

  /** The sort key `getMinFret(a) - getMinFret(b)` compares by. */
  function MinFretKey(t: Tab): int
  {
    match MinFretOf(t)
    case None => NO_FRET_KEY
    case Some(f) => f
  }

  // ---------------------------------------------------------------------------------------
  // addBarreChordPositions

  /** The list under a name, empty when the name is missing. */
  function Get(m: Positions, name: string): seq<Tab>
  {
    if name in m then m[name] else []
  }

  /** The chord a chord in root position moves to on a fret is again in root position. */
  lemma TransposeRootPosition(c: Chord, fret: int)
    requires !IsInverted(c)
    ensures TransposeChord(c, fret).Ok?
    ensures !IsInverted(TransposeChord(c, fret).value)
    ensures TransposeChord(c, fret).value.root == Transpose(c.root, fret)
  {
    TransposePitch(c.root, fret);
    TransposePitch(c.bass, fret);
    MakeRootPosition(Transpose(c.root, fret), c.quality, Transpose(c.bass, fret));
  }

  /** The name of the chord on a fret. */
  function TransposedName(c: Chord, fret: int): string
    requires !IsInverted(c)
  {
    TransposeRootPosition(c, fret);
    Name(TransposeChord(c, fret).value)
  }

  /** The chord on a fret is named by the standard spelling of the raised root and the
      quality, major left unwritten. */
  lemma TransposedNameIs(c: Chord, fret: int)
    requires !IsInverted(c)
    ensures TransposedName(c, fret) ==
      NameText(STANDARD_NOTE_NAMES[(Number(c.root.name) + fret) % 12]) + (if c.quality == "M" then "" else c.quality)
  {
    TransposeRootPosition(c, fret);
    TransposePitch(c.root, fret);
    var t := TransposeChord(c, fret).value;
    var a := NameText(t.root.name) + (if t.quality == "M" then "" else t.quality);
    assert a + "" == a;
  }

  /** The names of the chords a barre chord makes on frets 0..11. */
  function BarreNames(c: Chord): (r: seq<string>)
    requires !IsInverted(c)
    ensures |r| == 12
  {
    seq(12, f requires 0 <= f < 12 => TransposedName(c, f))
  }

  /** Twelve consecutive frets give twelve different pitch numbers. */
  lemma FretsDiffer(n: int, f: int, g: int)
    requires 0 <= f < g < 12
    ensures (n + f) % 12 != (n + g) % 12
  {
    var a, b := n + f, n + g;
    assert a == 12 * (a / 12) + a % 12;
    assert b == 12 * (b / 12) + b % 12;
  }

  /** Different note names print differently after a common suffix is added. */
  lemma NameTextSuffix(a: NoteName, b: NoteName, s: string)
    requires NameText(a) + s == NameText(b) + s
    ensures a == b
  {
    var x, y := NameText(a), NameText(b);
    assert |x| == |y|;
    assert x == (x + s)[..|x|];
    assert y == (y + s)[..|y|];
    ParseNoteNameIff(x, a);
    ParseNoteNameIff(x, b);
  }

  /** The twelve chords of a barre shape have twelve different names. */
  lemma BarreNamesDistinct(c: Chord, f: int, g: int)
    requires !IsInverted(c) && 0 <= f < g < 12
    ensures BarreNames(c)[f] != BarreNames(c)[g]
  {
    TransposeRootPosition(c, f);
    TransposeRootPosition(c, g);
    var cf, cg := TransposeChord(c, f).value, TransposeChord(c, g).value;
    var n := Number(c.root.name);
    TransposePitch(c.root, f);
    TransposePitch(c.root, g);
    FretsDiffer(n, f, g);
    assert cf.quality == cg.quality;
    assert Number(cf.root.name) != Number(cg.root.name);
    var s := if cf.quality == "M" then "" else cf.quality;
    var a, b := NameText(cf.root.name) + s, NameText(cg.root.name) + s;
    assert a + "" == a && b + "" == b;
    assert Name(cf) == a && Name(cg) == b;
    if a == b {
      NameTextSuffix(cf.root.name, cg.root.name, s);
    }
  }

  /** The table after adding the shape on the first k frets, each under its chord's name. */
  function AddShapes(m: Positions, names: seq<string>, positions: Tab, k: nat): Positions
    requires k <= |names|
    decreases k
  {
    if k == 0 then m
    else
      var prev := AddShapes(m, names, positions, k - 1);
      prev[names[k - 1] := Get(prev, names[k - 1]) + [Moved(positions, k - 1)]]
  }

  /** The shapes, in fret order, that the first k frets add under a name. */
  function ShapesFor(names: seq<string>, positions: Tab, k: nat, name: string): seq<Tab>
    requires k <= |names|
    decreases k
  {
    if k == 0 then []
    else ShapesFor(names, positions, k - 1, name) + (if names[k - 1] == name then [Moved(positions, k - 1)] else [])
  }

  /** Every list only grows, by the moved shapes of the frets whose chord bears its name. */
  lemma {:induction false} AddShapesAt(m: Positions, names: seq<string>, positions: Tab, k: nat, name: string)
    requires k <= |names|
    ensures Get(AddShapes(m, names, positions, k), name) == Get(m, name) + ShapesFor(names, positions, k, name)
    decreases k
  {
    if k > 0 {
      AddShapesAt(m, names, positions, k - 1, name);
    }
  }

  /** The names present afterwards are the old ones and those of the added chords. */
  lemma {:induction false} AddShapesKeys(m: Positions, names: seq<string>, positions: Tab, k: nat)
    requires k <= |names|
    ensures AddShapes(m, names, positions, k).Keys == m.Keys + set f | 0 <= f < k :: names[f]
    decreases k
  {
    if k > 0 {
      AddShapesKeys(m, names, positions, k - 1);
      assert (set f | 0 <= f < k :: names[f]) == (set f | 0 <= f < k - 1 :: names[f]) + {names[k - 1]};
    }
  }

  /** With twelve different names, each gets exactly its own fret's shape and any other
      name nothing. */
  lemma {:induction false} ShapesForDistinct(names: seq<string>, positions: Tab, k: nat, name: string)
    requires k <= |names|
    requires forall f, g :: 0 <= f < g < |names| ==> names[f] != names[g]
    ensures forall f :: 0 <= f < k && names[f] == name ==> ShapesFor(names, positions, k, name) == [Moved(positions, f)]
    ensures (forall f :: 0 <= f < k ==> names[f] != name) ==> ShapesFor(names, positions, k, name) == []
    decreases k
  {
    if k > 0 {
      ShapesForDistinct(names, positions, k - 1, name);
    }
  }

  /** `addBarreChordPositions(table, barreChord, positions)`: for frets 0..11, the shape moved
      to the fret is pushed onto the list of the chord there, the list created when missing. */
  method AddBarreChordPositions(table: PositionTable, barreChord: Chord, positions: Tab)
    requires !IsInverted(barreChord)
    modifies table
    ensures table.entries == AddShapes(old(table.entries), BarreNames(barreChord), positions, 12)
  {
    for fret := 0 to 12
      invariant table.entries == AddShapes(old(table.entries), BarreNames(barreChord), positions, fret)
    {
      TransposeRootPosition(barreChord, fret);
      var chord := TransposeChord(barreChord, fret);
      var name := Name(chord.value);
      assert name == BarreNames(barreChord)[fret] by {
        assert BarreNames(barreChord)[fret] == TransposedName(barreChord, fret);
      }
      var chords := if name in table.entries then table.entries[name] else [];
      var newPositions := MoveBarreChord(positions, fret);
      AddShapesStep(old(table.entries), BarreNames(barreChord), positions, fret);
      table.entries := table.entries[name := chords + [newPositions]];
    }
  }

  /** One more fret adds that fret's moved shape to the end of its name's list. */
  lemma AddShapesStep(m: Positions, names: seq<string>, positions: Tab, k: nat)
    requires k < |names|
    ensures var prev := AddShapes(m, names, positions, k);
      AddShapes(m, names, positions, k + 1) ==
        prev[names[k] := (if names[k] in prev then prev[names[k]] else []) + [Moved(positions, k)]]
  {
  }

  /** The twelve names of a barre shape are pairwise different. */
  lemma BarreNamesAllDistinct(c: Chord)
    requires !IsInverted(c)
    ensures forall f, g :: 0 <= f < g < |BarreNames(c)| ==> BarreNames(c)[f] != BarreNames(c)[g]
  {
    forall f, g | 0 <= f < g < 12 ensures BarreNames(c)[f] != BarreNames(c)[g] {
      BarreNamesDistinct(c, f, g);
    }
  }

  /** Adding shapes under pairwise different names puts exactly one shape onto each name's
      list and leaves every other list alone. */
  lemma AddDistinctOnePerName(m: Positions, names: seq<string>, positions: Tab, fret: int, name: string)
    requires 0 <= fret < |names|
    requires forall f, g :: 0 <= f < g < |names| ==> names[f] != names[g]
    ensures names[fret] in AddShapes(m, names, positions, |names|)
    ensures Get(AddShapes(m, names, positions, |names|), names[fret]) == Get(m, names[fret]) + [Moved(positions, fret)]
    ensures name !in names ==> Get(AddShapes(m, names, positions, |names|), name) == Get(m, name)
  {
    var k := |names|;
    AddShapesKeys(m, names, positions, k);
    AddShapesAt(m, names, positions, k, names[fret]);
    ShapesForDistinct(names, positions, k, names[fret]);
    AddShapesAt(m, names, positions, k, name);
    ShapesForDistinct(names, positions, k, name);
  }

  /** Adding a barre chord's shapes puts exactly one shape, the one for its fret, onto each of
      the twelve chords' lists, creating the missing ones, and leaves every other list alone. */
  lemma AddBarreOnePerChord(m: Positions, c: Chord, positions: Tab, fret: int, name: string)
    requires !IsInverted(c) && 0 <= fret < 12
    ensures BarreNames(c)[fret] in AddShapes(m, BarreNames(c), positions, 12)
    ensures Get(AddShapes(m, BarreNames(c), positions, 12), BarreNames(c)[fret]) ==
      Get(m, BarreNames(c)[fret]) + [Moved(positions, fret)]
    ensures name !in BarreNames(c) ==> Get(AddShapes(m, BarreNames(c), positions, 12), name) == Get(m, name)
  {
    BarreNamesAllDistinct(c);
    AddDistinctOnePerName(m, BarreNames(c), positions, fret, name);
  }

  // ---------------------------------------------------------------------------------------
  // sortGuitarChords

  /** The table with each list sorted, stably, by lowest fret. */
  function SortedTable(m: Positions): (r: Positions)
    ensures r.Keys == m.Keys
  {
    map n | n in m :: Sorting.SortBy(m[n], MinFretKey)
  }

  /** Sorting keeps the names and each list's shapes, and puts each list in order of lowest
      fret. */
  lemma SortedTableFacts(m: Positions, name: string)
    requires name in m
    ensures multiset(SortedTable(m)[name]) == multiset(m[name])
    ensures Sorting.SortedBy(SortedTable(m)[name], MinFretKey)
  {
    Sorting.SortByPermutes(m[name], MinFretKey);
    Sorting.SortBySorted(m[name], MinFretKey);
  }

  /** One list sorted in place by `getMinFret(a) - getMinFret(b)`. */
  method SortTabs(tabs: seq<Tab>) returns (r: seq<Tab>)
    ensures r == Sorting.SortBy(tabs, MinFretKey)
  {
    var a := new Tab[|tabs|](i requires 0 <= i < |tabs| => tabs[i]);
    assert a[..] == tabs;
    Sorting.InsertionSort(a, MinFretKey);
    r := a[..];
  }

  /** `sortGuitarChords(table)`: every list sorted in place, one name at a time. */
  method SortGuitarChords(table: PositionTable)
    modifies table
    ensures table.entries == SortedTable(old(table.entries))
  {
    ghost var original := table.entries;
    var pending := table.entries.Keys;
    while pending != {}
      invariant pending <= original.Keys && table.entries.Keys == original.Keys
      invariant forall n :: n in original ==>
        table.entries[n] == (if n in pending then original[n] else Sorting.SortBy(original[n], MinFretKey))
      decreases |pending|
    {
      var n :| n in pending;
      var sorted := SortTabs(table.entries[n]);
      table.entries := table.entries[n := sorted];
      pending := pending - {n};
    }
  }

  // ---------------------------------------------------------------------------------------
  // buildGuitarChords

  /** One root's shapes with the root attached. */
  function RootShapes(b: BarreRoot): (r: seq<Shape>)
    ensures |r| == |b.shapes|
  {
    seq(|b.shapes|, k requires 0 <= k < |b.shapes| => Shape(b.root, b.shapes[k].0, b.shapes[k].1))
  }

  /** All barre shapes in the order the nested loops visit them. */
  function Flatten(barre: seq<BarreRoot>): (r: seq<Shape>)
    ensures forall k :: 0 <= k < |r| ==> exists i :: 0 <= i < |barre| && r[k].root == barre[i].root
    decreases |barre|
  {
    if |barre| == 0 then []
    else
      var p, last := Flatten(barre[..|barre| - 1]), RootShapes(barre[|barre| - 1]);
      assert forall k :: 0 <= k < |last| ==> last[k].root == barre[|barre| - 1].root;
      p + last
  }

  /** The shapes of the first i roots come first among all shapes. */
  lemma {:induction false} FlattenPrefix(barre: seq<BarreRoot>, i: int)
    requires 0 <= i <= |barre|
    ensures Flatten(barre[..i]) <= Flatten(barre)
    decreases |barre|
  {
    if i < |barre| {
      var p := barre[..|barre| - 1];
      assert p[..i] == barre[..i];
      FlattenPrefix(p, i);
    } else {
      assert barre[..i] == barre;
    }
  }

  predicate ValidRoot(s: Shape)
  {
    ParseNoteName(s.root).Some?
  }

  predicate RootsValid(shapes: seq<Shape>)
  {
    forall k :: 0 <= k < |shapes| ==> ValidRoot(shapes[k])
  }

  /** The place of the first shape whose root is not a note name, if any. */
  function FirstInvalid(shapes: seq<Shape>, from: nat): (r: int)
    requires from <= |shapes|
    ensures r == -1 <==> forall k :: from <= k < |shapes| ==> ValidRoot(shapes[k])
    ensures r != -1 ==> from <= r < |shapes| && !ValidRoot(shapes[r])
    ensures r != -1 ==> forall k :: from <= k < r ==> ValidRoot(shapes[k])
    decreases |shapes| - from
  {
    if from == |shapes| then -1
    else if !ValidRoot(shapes[from]) then from
    else FirstInvalid(shapes, from + 1)
  }

  /** `getChord(rootName, quality)` for a valid root. */
  function BarreChord(s: Shape): (c: Chord)
    requires ValidRoot(s)
    ensures !IsInverted(c)
  {
    RootChord(ParseNoteName(s.root).value, s.quality)
  }

  /** The table after adding every shape in turn. */
  function FoldShapes(m: Positions, shapes: seq<Shape>): (r: Positions)
    requires RootsValid(shapes)
    ensures m.Keys <= r.Keys
    decreases |shapes|
  {
    if |shapes| == 0 then m
    else
      var last := shapes[|shapes| - 1];
      var before := FoldShapes(m, shapes[..|shapes| - 1]);
      AddShapesKeys(before, BarreNames(BarreChord(last)), last.tab, 12);
      AddShapes(before, BarreNames(BarreChord(last)), last.tab, 12)
  }

  /** What `buildGuitarChords(open, barre)` returns: getChord throws for the first root that is
      not a note name; otherwise the open table with every barre shape added, each list then
      sorted by lowest fret. */
  function Built(open: Positions, barre: seq<BarreRoot>): (r: Result<Positions>)
    ensures r.Err? <==> !RootsValid(Flatten(barre))
    ensures r.Err? ==> r.error.InvalidNoteName?
    ensures r.Ok? ==> open.Keys <= r.value.Keys
  {
    var shapes := Flatten(barre);
    var bad := FirstInvalid(shapes, 0);
    if bad != -1 then Err(InvalidNoteName(shapes[bad].root))
    else Ok(SortedTable(FoldShapes(open, shapes)))
  }

  /** Adding shapes keeps every name, and every list keeps its shapes at its front. */
  lemma {:induction false} FoldShapesFacts(m: Positions, shapes: seq<Shape>)
    requires RootsValid(shapes)
    ensures m.Keys <= FoldShapes(m, shapes).Keys
    ensures forall name :: name in m ==> m[name] <= FoldShapes(m, shapes)[name]
    decreases |shapes|
  {
    if |shapes| > 0 {
      var init := shapes[..|shapes| - 1];
      var last := shapes[|shapes| - 1];
      FoldShapesFacts(m, init);
      var prev := FoldShapes(m, init);
      var names := BarreNames(BarreChord(last));
      AddShapesKeys(prev, names, last.tab, 12);
      forall name | name in m
        ensures m[name] <= FoldShapes(m, shapes)[name]
      {
        AddShapesAt(prev, names, last.tab, 12, name);
      }
    }
  }

  /** A list holds the shapes of each of its prefixes. */
  lemma PrefixMultiset(before: seq<Tab>, after: seq<Tab>)
    requires before <= after
    ensures multiset(before) <= multiset(after)
  {
    assert after == before + after[|before|..];
  }

  /** Sorting a table that extends `m` keeps `m`'s names and their shapes. */
  lemma SortedExtends(m: Positions, folded: Positions)
    requires m.Keys <= folded.Keys
    requires forall name :: name in m ==> m[name] <= folded[name]
    ensures m.Keys <= SortedTable(folded).Keys
    ensures forall name :: name in m ==> multiset(m[name]) <= multiset(SortedTable(folded)[name])
    ensures forall name :: name in folded ==> Sorting.SortedBy(SortedTable(folded)[name], MinFretKey)
  {
    forall name | name in folded
      ensures name in m ==> multiset(m[name]) <= multiset(SortedTable(folded)[name])
      ensures Sorting.SortedBy(SortedTable(folded)[name], MinFretKey)
    {
      SortedTableFacts(folded, name);
      if name in m {
        PrefixMultiset(m[name], folded[name]);
      }
    }
  }

  /** A built table has every open chord's name with its open shapes among the chord's shapes,
      and every list in order of lowest fret. */
  lemma BuiltFacts(open: Positions, barre: seq<BarreRoot>)
    requires Built(open, barre).Ok?
    ensures open.Keys <= Built(open, barre).value.Keys
    ensures forall name :: name in open ==> multiset(open[name]) <= multiset(Built(open, barre).value[name])
    ensures forall name :: name in Built(open, barre).value ==> Sorting.SortedBy(Built(open, barre).value[name], MinFretKey)
  {
    var shapes := Flatten(barre);
    assert FirstInvalid(shapes, 0) == -1;
    var folded := FoldShapes(open, shapes);
    assert Built(open, barre).value == SortedTable(folded);
    FoldShapesFacts(open, shapes);
    SortedExtends(open, folded);
  }

  /** getChord on a barre root: the root-position chord, or the error for a root that is not
      a note name. */
  lemma BarreChordOutcome(s: Shape)
    ensures ValidRoot(s) ==> GetChordByName(s.root, s.quality, None) == Ok(BarreChord(s))
    ensures !ValidRoot(s) ==> GetChordByName(s.root, s.quality, None) == Err(InvalidNoteName(s.root))
  {
    if ValidRoot(s) {
      var name := ParseNoteName(s.root).value;
      ParseNoteNameIff(s.root, name);
      RootChordByName(name, s.quality);
    }
  }

  /** The shapes before shape j of root i, and that shape, begin the visiting order. */
  lemma FlattenAt(barre: seq<BarreRoot>, i: int, j: int)
    requires 0 <= i < |barre| && 0 <= j < |barre[i].shapes|
    ensures var done := Flatten(barre[..i]) + RootShapes(barre[i])[..j];
      done + [RootShapes(barre[i])[j]] == Flatten(barre[..i]) + RootShapes(barre[i])[..j + 1] &&
      done + [RootShapes(barre[i])[j]] <= Flatten(barre)
  {
    var rs := RootShapes(barre[i]);
    assert rs[..j + 1] == rs[..j] + [rs[j]];
    assert barre[..i + 1][..i] == barre[..i];
    assert Flatten(barre[..i + 1]) == Flatten(barre[..i]) + rs;
    FlattenPrefix(barre, i + 1);
  }

  /** The shapes of the first i + 1 roots are those of the first i, then root i's. */
  lemma FlattenNext(barre: seq<BarreRoot>, i: int)
    requires 0 <= i < |barre|
    ensures Flatten(barre[..i + 1]) == Flatten(barre[..i]) + RootShapes(barre[i])[..|barre[i].shapes|]
  {
    assert barre[..i + 1][..i] == barre[..i];
    assert RootShapes(barre[i])[..|barre[i].shapes|] == RootShapes(barre[i]);
  }

  /** Adding one more shape with a valid root. */
  lemma FoldShapesSnoc(m: Positions, done: seq<Shape>, s: Shape)
    requires RootsValid(done) && ValidRoot(s)
    ensures RootsValid(done + [s])
    ensures FoldShapes(m, done + [s]) == AddShapes(FoldShapes(m, done), BarreNames(BarreChord(s)), s.tab, 12)
  {
    var all := done + [s];
    assert all[..|all| - 1] == done;
    RootsValidSnoc(done, s, all);
    FoldShapesLast(m, all);
  }

  /** A valid root added to valid roots keeps them valid. */
  lemma RootsValidSnoc(done: seq<Shape>, s: Shape, all: seq<Shape>)
    requires RootsValid(done) && ValidRoot(s) && all == done + [s]
    ensures RootsValid(all)
  {
    assert forall k :: 0 <= k < |done| ==> all[k] == done[k];
  }

  /** The fold over a non-empty list adds the last shape to the fold over the rest. */
  lemma FoldShapesLast(m: Positions, all: seq<Shape>)
    requires |all| > 0 && RootsValid(all)
    ensures RootsValid(all[..|all| - 1])
    ensures FoldShapes(m, all) ==
      AddShapes(FoldShapes(m, all[..|all| - 1]), BarreNames(BarreChord(all[|all| - 1])), all[|all| - 1].tab, 12)
  {
  }

  /** The first shape whose root is not a note name makes the build fail with that root. */
  lemma BuiltErr(open: Positions, barre: seq<BarreRoot>, i: int, j: int)
    requires 0 <= i < |barre| && 0 <= j < |barre[i].shapes|
    requires RootsValid(Flatten(barre[..i]) + RootShapes(barre[i])[..j])
    requires !ValidRoot(RootShapes(barre[i])[j])
    ensures Built(open, barre) == Err(InvalidNoteName(barre[i].root))
  {
    var done := Flatten(barre[..i]) + RootShapes(barre[i])[..j];
    var all := Flatten(barre);
    FlattenAt(barre, i, j);
    assert all[|done|] == (done + [RootShapes(barre[i])[j]])[|done|];
    assert forall k :: 0 <= k < |done| ==> all[k] == done[k];
    assert FirstInvalid(all, 0) == |done|;
  }

  /** The body of the nested loops on one shape: getChord either throws for a root that is not a
      note name, or returns the shape's chord, whose twelve positions are then added. */
  method AddShape(table: PositionTable, ghost open: Positions, ghost done: seq<Shape>, s: Shape)
    returns (err: Option<Error>)
    requires RootsValid(done) && table.entries == FoldShapes(open, done)
    modifies table
    ensures err.Some? <==> !ValidRoot(s)
    ensures err.Some? ==> err.value == InvalidNoteName(s.root) && table.entries == old(table.entries)
    ensures err.None? ==> RootsValid(done + [s]) && table.entries == FoldShapes(open, done + [s])
  {
    BarreChordOutcome(s);
    var barreChord := GetChordByName(s.root, s.quality, None);
    if barreChord.Err? {
      return Some(barreChord.error);
    }
    AddBarreChordPositions(table, barreChord.value, s.tab);
    FoldShapesSnoc(open, done, s);
    err := None;
  }

  /** The inner loop of `buildGuitarChords` for root i: each of its shapes is added in turn,
      unless getChord throws, which ends the whole build with that error. */
  method AddRootShapes(table: PositionTable, ghost open: Positions, barre: seq<BarreRoot>, i: int)
    returns (err: Option<Error>)
    requires 0 <= i < |barre|
    requires RootsValid(Flatten(barre[..i])) && table.entries == FoldShapes(open, Flatten(barre[..i]))
    modifies table
    ensures err.Some? ==> Built(open, barre) == Err(err.value)
    ensures err.None? ==> RootsValid(Flatten(barre[..i + 1])) && table.entries == FoldShapes(open, Flatten(barre[..i + 1]))
  {
    var qualities := barre[i].shapes;
    ghost var done := Flatten(barre[..i]);
    assert RootShapes(barre[i])[..0] == [];
    for j := 0 to |qualities|
      invariant done == Flatten(barre[..i]) + RootShapes(barre[i])[..j]
      invariant RootsValid(done) && table.entries == FoldShapes(open, done)
    {
      var shape := Shape(barre[i].root, qualities[j].0, qualities[j].1);
      assert shape == RootShapes(barre[i])[j];
      err := AddShape(table, open, done, shape);
      if err.Some? {
        BuiltErr(open, barre, i, j);
        return;
      }
      FlattenAt(barre, i, j);
      done := done + [shape];
    }
    FlattenNext(barre, i);
    err := None;
  }

  /** `buildGuitarChords(openPositions, barrePositions)`: copy the open table, add each barre
      shape of each root in turn, then sort every list. */
  method BuildGuitarChords(open: Positions, barre: seq<BarreRoot>) returns (r: Result<Positions>)
    ensures r == Built(open, barre)
  {
    var table := new PositionTable(open);
    for i := 0 to |barre|
      invariant RootsValid(Flatten(barre[..i])) && table.entries == FoldShapes(open, Flatten(barre[..i]))
    {
      var err := AddRootShapes(table, open, barre, i);
      if err.Some? {
        return Err(err.value);
      }
    }
    assert barre[..|barre|] == barre;
    SortGuitarChords(table);
    r := Ok(table.entries);
  }
}

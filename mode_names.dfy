/** The seven mode names in circle-of-fifths order (circle-of-fifths.ts) and their interval
    rows (scales.ts, scales/music-scale.ts), shared by the scale signatures, the scale notes and
    the circle itself. */
module ModeNames {
  import opened Wrappers

  /** Mode names in circle-of-fifths order, beginning with lydian. */
  const MODE_NAMES: seq<string> := ["lydian", "ionian", "mixolydian", "dorian", "aeolian", "phrygian", "locrian"]

  /** A mode's position on the circle lies in 0..6; any other text has position -1. */
  lemma ModeIndexRange(mode: string)
    ensures -1 <= IndexOf(MODE_NAMES, mode) < 7
    ensures IndexOf(MODE_NAMES, mode) == -1 <==> mode !in MODE_NAMES
  {
  }

  /** Text that starts with none of the modes' first letters is not a mode. */
  lemma NotAModeName(s: string)
    requires |s| > 0 && s[0] !in {'l', 'i', 'm', 'd', 'a', 'p'}
    ensures s !in MODE_NAMES
  {
    assert MODE_NAMES[0][0] == 'l' && MODE_NAMES[1][0] == 'i' && MODE_NAMES[2][0] == 'm';
    assert MODE_NAMES[3][0] == 'd' && MODE_NAMES[4][0] == 'a' && MODE_NAMES[5][0] == 'p';
    assert MODE_NAMES[6][0] == 'l';
  }

  /** Each mode's position on the circle: lydian 0, ionian 1, ..., locrian 6. */
  lemma ModeIndex(k: int)
    requires 0 <= k < 7
    ensures IndexOf(MODE_NAMES, MODE_NAMES[k]) == k
  {
    if k == 0 {
      IndexOfAt(MODE_NAMES, "lydian", 0);
    } else if k == 1 {
      IndexOfAt(MODE_NAMES, "ionian", 1);
    } else if k == 2 {
      IndexOfAt(MODE_NAMES, "mixolydian", 2);
    } else if k == 3 {
      IndexOfAt(MODE_NAMES, "dorian", 3);
    } else if k == 4 {
      IndexOfAt(MODE_NAMES, "aeolian", 4);
    } else if k == 5 {
      IndexOfAt(MODE_NAMES, "phrygian", 5);
    } else {
      IndexOfAt(MODE_NAMES, "locrian", 6);
    }
  }

  /** The intervals of each mode, in the order of MODE_NAMES: the scale tables of scales.ts:16-24
      and scales/music-scale.ts:24-31 list the seven modes under exactly these keys, in this order. */
  const MODE_INTERVALS: seq<seq<int>> := [
    [0, 2, 4, 6, 7, 9, 11],
    [0, 2, 4, 5, 7, 9, 11],
    [0, 2, 4, 5, 7, 9, 10],
    [0, 2, 3, 5, 7, 9, 10],
    [0, 2, 3, 5, 7, 8, 10],
    [0, 1, 3, 5, 7, 8, 10],
    [0, 1, 3, 5, 6, 8, 10]]

  /** `SCALE_INTERVALS[mode]` for the seven modes: the row of the mode's circle position. */
  function ModeIntervals(mode: string): (r: Option<seq<int>>)
    ensures r.Some? ==> |r.value| == 7
  {
    var k := IndexOf(MODE_NAMES, mode);
    if 0 <= k < |MODE_INTERVALS| then RowShape(k); Some(MODE_INTERVALS[k]) else None
  }

  /** A seven-note row: it starts at 0, rises strictly and stays within the octave. */
  predicate IsModeRow(row: seq<int>)
  {
    |row| == 7 && row[0] == 0 && row[6] <= 11 &&
    forall i, j :: 0 <= i < j < 7 ==> row[i] < row[j]
  }

  /** Every mode has a row of seven rising intervals, and only the seven modes have one. */
  lemma ModeIntervalsShape(mode: string)
    ensures ModeIntervals(mode).Some? <==> mode in MODE_NAMES
    ensures ModeIntervals(mode).Some? ==> IsModeRow(ModeIntervals(mode).value)
  {
    ModeIndexRange(mode);
    var k := IndexOf(MODE_NAMES, mode);
    if k != -1 {
      RowShape(k);
    }
  }

  lemma RowShape(k: int)
    requires 0 <= k < 7
    ensures IsModeRow(MODE_INTERVALS[k])
  {
  }
}

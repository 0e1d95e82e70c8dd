/** The other blues scale of the newer hierarchy (scales/blues-scales.ts): signatures looked up
    by the tonic's name, in a table that only spells twelve of the names. */
module BluesScaleAlt {
  import opened Wrappers
  import opened Notes
  import LegacyScales

  /** Signatures of the major blues scales, by tonic name. */
  const MAJOR_BY_NAME: map<NoteName, LegacyScales.Signature> := map[
    NoteName(C, Natural) := LegacyScales.Signature("b", 1), NoteName(C, Sharp) := LegacyScales.Signature("#", 5),
    NoteName(D, Natural) := LegacyScales.Signature("#", 1), NoteName(E, Flat) := LegacyScales.Signature("b", 4),
    NoteName(E, Natural) := LegacyScales.Signature("#", 3), NoteName(F, Natural) := LegacyScales.Signature("b", 1),
    NoteName(F, Sharp) := LegacyScales.Signature("#", 6), NoteName(G, Natural) := LegacyScales.Signature("b", 1),
    NoteName(A, Flat) := LegacyScales.Signature("b", 4), NoteName(A, Natural) := LegacyScales.Signature("#", 2),
    NoteName(B, Flat) := LegacyScales.Signature("b", 3), NoteName(B, Natural) := LegacyScales.Signature("#", 4)]

  /** Signatures of the minor blues scales, by tonic name. */
  const MINOR_BY_NAME: map<NoteName, LegacyScales.Signature> := map[
    NoteName(C, Natural) := LegacyScales.Signature("b", 3), NoteName(C, Sharp) := LegacyScales.Signature("#", 4),
    NoteName(D, Natural) := LegacyScales.Signature("b", 1), NoteName(E, Flat) := LegacyScales.Signature("b", 6),
    NoteName(E, Natural) := LegacyScales.Signature("b", 1), NoteName(F, Natural) := LegacyScales.Signature("b", 3),
    NoteName(F, Sharp) := LegacyScales.Signature("#", 3), NoteName(G, Natural) := LegacyScales.Signature("b", 2),
    NoteName(A, Flat) := LegacyScales.Signature("b", 5), NoteName(A, Natural) := LegacyScales.Signature("b", 1),
    NoteName(B, Flat) := LegacyScales.Signature("b", 5), NoteName(B, Natural) := LegacyScales.Signature("#", 1)]

  /** `getSignature`: the entry for the tonic's name, which is missing (undefined) for a name
      the table does not spell; a mode other than major or minor has no table, and reading a
      name from it fails. */
  function Signature(tonic: Note, mode: string): (r: Result<Option<LegacyScales.Signature>>)
    ensures r.Ok? <==> mode in {"major", "minor"}
    ensures r.Err? ==> r.error == UndefinedAccess("BLUES_SIGNATURES[mode]")
  {
    if mode !in {"major", "minor"} then Err(UndefinedAccess("BLUES_SIGNATURES[mode]"))
    else
      var table := if mode == "major" then MAJOR_BY_NAME else MINOR_BY_NAME;
      Ok(if tonic.name in table then Some(table[tonic.name]) else None)
  }

  /** Exactly the twelve standard spellings have an entry: Db, D#, Gb, G#, A#, E#, Fb, B# and Cb
      have none. */
  lemma SignatureDefined(tonic: Note, mode: string)
    requires mode in {"major", "minor"}
    ensures Signature(tonic, mode).Ok?
    ensures Signature(tonic, mode).value.Some? <==> tonic.name == STANDARD_NOTE_NAMES[Number(tonic.name)]
  {
  }

  /** `getName`: "M" after the tonic for major, "m" for any other mode, then " Blues". */
  function Name(tonic: Note, mode: string): (r: string)
    ensures |r| > |NameText(tonic.name)| && r[0] == LetterChar(tonic.name.letter)
  {
    NameText(tonic.name) + (if mode == "major" then "M" else "m") + " Blues"
  }

  /** `getNormalizeMode`: blues_M for major, blues_m for any other mode. */
  function NormalizedMode(mode: string): (r: string)
    ensures r in {"blues_M", "blues_m"}
    ensures r == "blues_M" <==> mode == "major"
  {
    if mode == "major" then "blues_M" else "blues_m"
  }
}

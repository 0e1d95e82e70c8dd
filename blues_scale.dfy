/** The blues scale of the newer scale hierarchy (scales/blues-scale.ts): the mode check, the
    interval table and the key signatures indexed by the tonic's pitch number. */
module BluesScale {
  import opened Wrappers
  import opened Notes
  import LegacyScales

  /** The scale's own interval table, by mode: the six-note major and minor blues scales. */
  function Intervals(mode: string): (r: Option<seq<int>>)
    ensures r.Some? <==> mode in {"major", "minor"}
    ensures r.Some? ==> |r.value| == 6 && r.value[0] == 0
  {
    if mode == "major" then Some([0, 2, 3, 4, 7, 9])
    else if mode == "minor" then Some([0, 3, 5, 6, 7, 10])
    else None
  }

  /** The constructor's check: a mode without intervals is rejected. */
  function CheckMode(mode: string): (r: Result<string>)
    ensures r.Ok? <==> mode in {"major", "minor"}
    ensures r.Ok? ==> r.value == mode
    ensures r.Err? ==> r.error == InvalidBluesMode(mode)
  {
    if Intervals(mode).None? then Err(InvalidBluesMode(mode)) else Ok(mode)
  }

  /** Signatures of the major blues scales, by the tonic's pitch number (C first). */
  const MAJOR_SIGNATURES: seq<LegacyScales.Signature> := [
    LegacyScales.Signature("b", 1), LegacyScales.Signature("#", 4), LegacyScales.Signature("#", 1),
    LegacyScales.Signature("b", 3), LegacyScales.Signature("#", 3), LegacyScales.Signature("b", 1),
    LegacyScales.Signature("#", 5), LegacyScales.Signature("b", 1), LegacyScales.Signature("b", 3),
    LegacyScales.Signature("#", 2), LegacyScales.Signature("b", 2), LegacyScales.Signature("#", 4)]

  /** Signatures of the minor blues scales, by the tonic's pitch number (C first). */
  const MINOR_SIGNATURES: seq<LegacyScales.Signature> := [
    LegacyScales.Signature("b", 3), LegacyScales.Signature("#", 3), LegacyScales.Signature("b", 1),
    LegacyScales.Signature("b", 5), LegacyScales.Signature("b", 1), LegacyScales.Signature("b", 3),
    LegacyScales.Signature("#", 2), LegacyScales.Signature("b", 2), LegacyScales.Signature("b", 4),
    LegacyScales.Signature("b", 1), LegacyScales.Signature("b", 5), LegacyScales.Signature("#", 1)]

  /** The row of the table for the mode. */
  function Table(mode: string): (r: seq<LegacyScales.Signature>)
    requires mode in {"major", "minor"}
    ensures |r| == 12
  {
    if mode == "major" then MAJOR_SIGNATURES else MINOR_SIGNATURES
  }

  /** Every entry of both tables carries a sharp or a flat and between one and five of them. */
  lemma TableEntries(mode: string, i: int)
    requires mode in {"major", "minor"} && 0 <= i < 12
    ensures 1 <= Table(mode)[i].count <= 5
    ensures Table(mode)[i].accidental in {"#", "b"}
  {
  }

  /** `getSignature`: a copy of the entry at the tonic's pitch number, taking the tonic's
      accidental when the tonic has one that differs from the entry's. */
  function Signature(tonic: Note, mode: string): (r: LegacyScales.Signature)
    requires mode in {"major", "minor"}
    ensures 1 <= r.count <= 5
    ensures HasAccidental(tonic) ==> r.accidental == AccidentalText(AccidentalOf(tonic))
    ensures !HasAccidental(tonic) ==> r.accidental in {"#", "b"}
  {
    NumberOfSpelling(tonic.name);
    TableEntries(mode, NoteNumber(tonic));
    var ks := Table(mode)[NoteNumber(tonic)];
    if HasAccidental(tonic) && AccidentalText(AccidentalOf(tonic)) != ks.accidental
    then LegacyScales.Signature(AccidentalText(AccidentalOf(tonic)), ks.count)
    else ks
  }

  /** The count is always the table's, in 1..5; the accidental is the tonic's when it has one
      and the table's otherwise. */
  lemma SignatureRule(tonic: Note, mode: string)
    requires mode in {"major", "minor"}
    ensures 0 <= NoteNumber(tonic) < 12
    ensures Signature(tonic, mode).count == Table(mode)[NoteNumber(tonic)].count
    ensures 1 <= Signature(tonic, mode).count <= 5
    ensures HasAccidental(tonic) ==> Signature(tonic, mode).accidental == AccidentalText(AccidentalOf(tonic))
    ensures !HasAccidental(tonic) ==> Signature(tonic, mode) == Table(mode)[NoteNumber(tonic)]
  {
    NumberOfSpelling(tonic.name);
    TableEntries(mode, NoteNumber(tonic));
  }

  /** `getName`: "M" after the tonic for major, "m" for any other mode, then " Blues". */
  function Name(tonic: Note, mode: string): (r: string)
    ensures |r| > |NameText(tonic.name)| && r[0] == LetterChar(tonic.name.letter)
  {
    NameText(tonic.name) + (if mode == "major" then "M" else "m") + " Blues"
  }

  /** The name tells the scale apart: two blues scales share a name exactly when their tonics
      share a spelling and both or neither are major. */
  lemma {:induction false} NameDeterminesScale(t1: Note, m1: string, t2: Note, m2: string)
    ensures Name(t1, m1) == Name(t2, m2) <==> t1.name == t2.name && (m1 == "major" <==> m2 == "major")
  {
    var a, b := NameText(t1.name), NameText(t2.name);
    if Name(t1, m1) == Name(t2, m2) {
      assert |a| == |b|;
      assert a == Name(t1, m1)[..|a|] && b == Name(t2, m2)[..|b|];
      ParseNoteNameIff(a, t1.name);
      ParseNoteNameIff(b, t2.name);
      assert Name(t1, m1)[|a|] == (if m1 == "major" then 'M' else 'm');
      assert Name(t2, m2)[|b|] == (if m2 == "major" then 'M' else 'm');
    }
  }
}

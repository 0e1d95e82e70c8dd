/** The scale factory of the newer hierarchy (scales/index.ts): the subclass is chosen by the
    mode's prefix, and a scale can be parsed from a name such as "C#m". */
module ScaleFactory {
  import opened Wrappers
  import opened Notes
  import LegacyScales
  import opened MusicScaleBase

  /** `s.indexOf(prefix) === 0`: the text begins with the prefix. */
  predicate StartsWith(s: string, prefix: string)
  {
    |prefix| <= |s| && s[..|prefix|] == prefix
  }

  /** The subclass and the mode `getScale` constructs for a mode. */
  function Dispatch(mode: string): (r: (Family, string))
    ensures Admissible(r.0, r.1)
  {
    if StartsWith(mode, "blues") then (Blues, if mode == "blues_M" then "major" else "minor")
    else if StartsWith(mode, "pent") then (Pentatonic, if mode == "pent_m" then "minor" else "major")
    else (Diatonic, mode)
  }

  /** A mode starting with "blues" gives a blues scale, major exactly for "blues_M"; one starting
      with "pent" a pentatonic scale, minor exactly for "pent_m"; any other mode, the default
      "major" among them, a diatonic scale in that mode. */
  lemma DispatchByPrefix(mode: string)
    ensures Dispatch(mode).0 == Blues <==> StartsWith(mode, "blues")
    ensures Dispatch(mode).0 == Pentatonic <==> StartsWith(mode, "pent")
    ensures Dispatch(mode).0 == Blues ==> (Dispatch(mode).1 == "major" <==> mode == "blues_M")
    ensures Dispatch(mode).0 == Pentatonic ==> (Dispatch(mode).1 == "minor" <==> mode == "pent_m")
    ensures Dispatch(mode).0 == Diatonic ==> Dispatch(mode).1 == mode
    ensures Dispatch("major") == (Diatonic, "major")
  {
    if StartsWith(mode, "pent") {
      assert mode[0] == 'p';
      assert !StartsWith(mode, "blues");
    }
    assert !StartsWith("major", "blues") && !StartsWith("major", "pent") by {
      assert "major"[0] == 'm';
    }
  }

  /** `getScale(tonic, mode)` on a note: a fresh scale of the dispatched subclass. */
  method GetScale(tonic: Note, mode: string) returns (r: MusicScale)
    ensures fresh(r) && r.Valid()
    ensures r.family == Dispatch(mode).0 && r.tonic == tonic && r.mode == Dispatch(mode).1
    ensures r.signatureCache.None? && r.notesCache.None? && r.chordsCache.None?
  {
    var (family, m) := Dispatch(mode);
    r := new MusicScale(family, tonic, m);
  }

  /** `getScale(tonic, mode)` on a name: the name is resolved with getNote at octave 4, which
      fails for a name that is not a note. */
  method GetScaleByName(tonic: string, mode: string) returns (r: Result<MusicScale>)
    ensures r.Err? <==> ParseNoteName(tonic).None?
    ensures r.Err? ==> r.error == InvalidNoteName(tonic)
    ensures r.Ok? ==> fresh(r.value) && r.value.Valid()
    ensures r.Ok? ==> r.value.family == Dispatch(mode).0 && r.value.mode == Dispatch(mode).1
    ensures r.Ok? ==> r.value.tonic == Note(ParseNoteName(tonic).value, 4)
    ensures r.Ok? ==> r.value.signatureCache.None? && r.value.notesCache.None? && r.value.chordsCache.None?
  {
    var note := GetNoteByName(tonic, 4);
    if note.Err? {
      return Err(note.error);
    }
    var scale := GetScale(note.value, mode);
    r := Ok(scale);
  }

  /** `parseScale(text)`: no scale without a letter A..G; otherwise the diatonic scale of the
      first tonic in the text, minor when "m" follows it and major otherwise. The pattern also
      accepts '|' after the letter, and such a tonic is not a note name. */
  method ParseScale(text: string) returns (r: Result<Option<MusicScale>>)
    ensures LegacyScales.ParseTonicAndMode(text).None? ==> r == Ok(None)
    ensures LegacyScales.ParseTonicAndMode(text).Some? ==>
      (r.Err? <==> ParseNoteName(LegacyScales.ParseTonicAndMode(text).value.0).None?)
    ensures r.Ok? && r.value.Some? ==> LegacyScales.ParseTonicAndMode(text).Some?
    ensures r.Ok? && r.value.Some? ==> fresh(r.value.value) && r.value.value.Valid()
    ensures r.Ok? && r.value.Some? ==> r.value.value.family == Diatonic
    ensures r.Ok? && r.value.Some? ==>
      r.value.value.tonic == Note(ParseNoteName(LegacyScales.ParseTonicAndMode(text).value.0).value, 4)
    ensures r.Ok? && r.value.Some? ==>
      r.value.value.mode == (if LegacyScales.ParseTonicAndMode(text).value.1 then "minor" else "major")
  {
    var parsed := LegacyScales.ParseTonicAndMode(text);
    if parsed.None? {
      return Ok(None);
    }
    var tonic, minor := parsed.value.0, parsed.value.1;
    var m := if minor then "minor" else "major";
    assert !StartsWith(m, "blues") && !StartsWith(m, "pent") by {
      assert m[0] == 'm';
    }
    assert Dispatch(m) == (Diatonic, m);
    var scale := GetScaleByName(tonic, m);
    if scale.Err? {
      return Err(scale.error);
    }
    r := Ok(Some(scale.value));
  }
}

/** The pentatonic scale of the newer scale hierarchy (scales/pentatonic-scale.ts): its name,
    normalised mode and key signature. It has no mode alias and no chords. */
module PentatonicScale {
  import opened Notes
  import LegacyScales

  /** `getName`: "M" after the tonic for major, "m" for any other mode, then " Pentatonic". */
  function Name(tonic: Note, mode: string): (r: string)
    ensures |r| > |NameText(tonic.name)| && r[0] == LetterChar(tonic.name.letter)
  {
    NameText(tonic.name) + (if mode == "major" then "M" else "m") + " Pentatonic"
  }

  /** `getNormalizeMode`: pent_m for minor, pent_M for any other mode. */
  function NormalizedMode(mode: string): (r: string)
    ensures r in {"pent_M", "pent_m"}
    ensures r == "pent_m" <==> mode == "minor"
  {
    if mode == "minor" then "pent_m" else "pent_M"
  }

  /** Major and minor scales are named and normalised consistently, while any other mode is
      named as minor but normalised as major, since the two tests look for different words. */
  lemma NameAndModeOfPentatonic(tonic: Note, mode: string)
    ensures Name(tonic, "major") == NameText(tonic.name) + "M Pentatonic" && NormalizedMode("major") == "pent_M"
    ensures Name(tonic, "minor") == NameText(tonic.name) + "m Pentatonic" && NormalizedMode("minor") == "pent_m"
    ensures NormalizedMode(mode) == "pent_m" <==> mode == "minor"
    ensures mode !in {"major", "minor"} ==> Name(tonic, mode) == Name(tonic, "minor") && NormalizedMode(mode) == "pent_M"
  {
  }

  /** `getSignature`: the tonic's accidental with a count of zero. */
  function Signature(tonic: Note): (r: LegacyScales.Signature)
    ensures r.count == 0
    ensures r.accidental == CharAt(NameText(tonic.name), 1)
  {
    AccidentalIsSecondCharacter(tonic);
    LegacyScales.Signature(AccidentalText(AccidentalOf(tonic)), 0)
  }
}

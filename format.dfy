/** Accidental formatting (util/format.ts): ASCII `b` and `#` to the music signs `♭` and `♯`,
    and back. */
module Format {

  const FLAT_SIGN: char := '♭'
  const SHARP_SIGN: char := '♯'

  /** Every `from` in `s` replaced by `to` (a global regex replacement of one character). */
  function ReplaceAll(s: string, from: char, to: char): (r: string)
    ensures |r| == |s|
    ensures forall i :: 0 <= i < |s| ==> r[i] == (if s[i] == from then to else s[i])
  {
    if |s| == 0 then [] else [if s[0] == from then to else s[0]] + ReplaceAll(s[1..], from, to)
  }

  /** `formatAccidentals`: `b` becomes `♭`, then `#` becomes `♯`. */
  function FormatAccidentals(text: string): (r: string)
    ensures |r| == |text|
    ensures 'b' !in r && '#' !in r
  {
    ReplaceAll(ReplaceAll(text, 'b', FLAT_SIGN), '#', SHARP_SIGN)
  }

  /** `unformatAccidentals`: `♭` becomes `b`, then `♯` becomes `#`. */
  function UnformatAccidentals(text: string): (r: string)
    ensures |r| == |text|
    ensures FLAT_SIGN !in r && SHARP_SIGN !in r
  {
    ReplaceAll(ReplaceAll(text, FLAT_SIGN, 'b'), SHARP_SIGN, '#')
  }

  /** Formatting keeps the length, swaps exactly the two ASCII accidentals, and leaves no ASCII
      accidental behind. */
  lemma FormatCharacters(text: string)
    ensures |FormatAccidentals(text)| == |text|
    ensures forall i :: 0 <= i < |text| ==>
      FormatAccidentals(text)[i] == (if text[i] == 'b' then FLAT_SIGN else if text[i] == '#' then SHARP_SIGN else text[i])
    ensures 'b' !in FormatAccidentals(text) && '#' !in FormatAccidentals(text)
  {
  }

  /** Unformatting keeps the length, swaps exactly the two signs, and leaves no sign behind. */
  lemma UnformatCharacters(text: string)
    ensures |UnformatAccidentals(text)| == |text|
    ensures forall i :: 0 <= i < |text| ==>
      UnformatAccidentals(text)[i] == (if text[i] == FLAT_SIGN then 'b' else if text[i] == SHARP_SIGN then '#' else text[i])
    ensures FLAT_SIGN !in UnformatAccidentals(text) && SHARP_SIGN !in UnformatAccidentals(text)
  {
  }

  /** Formatting twice is formatting once. */
  lemma FormatIdempotent(text: string)
    ensures FormatAccidentals(FormatAccidentals(text)) == FormatAccidentals(text)
  {
    FormatCharacters(text);
    FormatCharacters(FormatAccidentals(text));
  }

  /** Text without the signs comes back from formatting unchanged. */
  lemma UnformatFormat(text: string)
    requires FLAT_SIGN !in text && SHARP_SIGN !in text
    ensures UnformatAccidentals(FormatAccidentals(text)) == text
  {
    FormatCharacters(text);
    UnformatCharacters(FormatAccidentals(text));
  }

  /** Text without ASCII accidentals comes back from unformatting unchanged. */
  lemma FormatUnformat(text: string)
    requires 'b' !in text && '#' !in text
    ensures FormatAccidentals(UnformatAccidentals(text)) == text
  {
    UnformatCharacters(text);
    FormatCharacters(UnformatAccidentals(text));
  }

  /** A slash chord's name in print. */
  lemma FormatExample()
    ensures FormatAccidentals("Bbm7/F#") == "B♭m7/F♯"
  {
    FormatCharacters("Bbm7/F#");
  }
}

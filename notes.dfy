/**
 * The note catalogue of the music tutor: the fixed note ranges of the two
 * clefs, the choice of a note for a clef from a random index, and the integer
 * part of the note-to-frequency mapping (the semitone distance from A4).
 */
module Notes {
  import opened Optional
  import opened Decimal

  /** The notes drawn for the treble clef, lowest first. */
  const TrebleRange: seq<string> := ["E4", "F4", "G4", "A4", "B4", "C5", "D5", "E5", "F5", "G5"]

  /** The notes drawn for the bass clef, lowest first. */
  const BassRange: seq<string> := ["G2", "A2", "B2", "C3", "D3", "E3", "F3", "G3", "A3", "B3"]

  /** The list a clef draws from: exactly "treble" selects the treble range, any other text the bass range. */
  function ClefRange(clef: string): (r: seq<string>)
    ensures |r| == 10
    ensures clef == "treble" ==> r == TrebleRange
    ensures clef != "treble" ==> r == BassRange
  {
    if clef == "treble" then TrebleRange else BassRange
  }

  /** A note of either range. */
  predicate InCatalogue(note: string) {
    note in TrebleRange || note in BassRange
  }

  /**
   * The note picked for `clef` when the random draw `floor(random() * length)`
   * yields `index`; a draw is always below the length of the list.
   */
  function NoteForClef(clef: string, index: nat): (note: string)
    requires index < |ClefRange(clef)|
    ensures note in ClefRange(clef) && InCatalogue(note)
    ensures clef == "treble" ==> note in TrebleRange
    ensures clef != "treble" ==> note in BassRange
  {
    ClefRange(clef)[index]
  }

  // ---------------------------------------------------------------------------
  // Note names and their semitone distance from A4

  /** A natural note: a letter A to G and an octave number. */
  datatype Pitch = Pitch(letter: char, octave: nat)

  predicate IsNoteLetter(c: char) {
    'A' <= c <= 'G'
  }

  /** The pattern `^[A-G][0-9]+$`: one letter A to G, then one or more decimal digits and nothing else. */
  predicate MatchesNotePattern(name: string) {
    && |name| >= 2
    && IsNoteLetter(name[0])
    && forall i :: 1 <= i < |name| ==> IsDigit(name[i])
  }

  /** Matches a name against `^([A-G])([0-9]+)$` and reads the octave in base 10. */
  function ParsePitch(name: string): (r: Option<Pitch>)
    ensures r.Some? <==> MatchesNotePattern(name)
    ensures r.Some? ==> IsNoteLetter(r.value.letter) && r.value.letter == name[0]
    ensures r.Some? ==> AllDigits(name[1..]) && r.value.octave == DigitsValue(name[1..])
  {
    if |name| >= 2 && IsNoteLetter(name[0]) && AllDigits(name[1..])
    then Some(Pitch(name[0], DigitsValue(name[1..])))
    else None
  }

  /** The canonical name of a pitch: its letter followed by the octave without leading zeros. */
  function PitchName(p: Pitch): (name: string)
    ensures |name| >= 2 && name[0] == p.letter
  {
    [p.letter] + NatToString(p.octave)
  }

  /** Semitones from the letter's note up or down to A in the same octave. */
  function LetterOffset(c: char): (r: int)
    requires IsNoteLetter(c)
    ensures -9 <= r <= 2
  {
    match c
    case 'C' => -9
    case 'D' => -7
    case 'E' => -5
    case 'F' => -4
    case 'G' => -2
    case 'A' => 0
    case 'B' => 2
  }

  /** The semitone distance of a natural note from A4. */
  function PitchOffset(p: Pitch): (d: int)
    requires IsNoteLetter(p.letter)
    ensures d >= -57
    ensures p.octave == 4 ==> -9 <= d <= 2
    ensures p.octave > 4 ==> d >= 3
    ensures p.octave < 4 ==> d <= -10
  {
    LetterOffset(p.letter) + (p.octave - 4) * 12
  }

  /**
   * The semitone distance of a note name from A4. A name that does not match
   * the pattern falls back to A4 itself, that is, to distance 0.
   */
  function SemitoneOffset(name: string): (d: int)
    ensures !MatchesNotePattern(name) ==> d == 0
    ensures d >= -57
  {
    match ParsePitch(name)
    case None => 0
    case Some(p) => PitchOffset(p)
  }

  // ---------------------------------------------------------------------------
  // Properties of names and offsets

  /** Parsing the canonical name of a pitch gives the pitch back. */
  lemma ParsePitchName(p: Pitch)
    requires IsNoteLetter(p.letter)
    ensures ParsePitch(PitchName(p)) == Some(p)
  {
    var name := PitchName(p);
    assert name[1..] == NatToString(p.octave);
  }

  /** A digit string without leading zeros is the decimal text of its value. */
  lemma {:induction false} CanonicalDigits(s: string)
    requires AllDigits(s) && |s| > 0 && (s[0] != '0' || |s| == 1)
    ensures NatToString(DigitsValue(s)) == s
  {
    if |s| > 1 {
      var t := s[..|s| - 1];
      CanonicalDigits(t);
      var v := DigitsValue(t);
      var d := DigitValue(s[|s| - 1]);
      assert DigitsValue(s) == v * 10 + d;
      AppendDigit(v, d);
      assert DigitChar(d) == s[|s| - 1];
      assert s == t + [s[|s| - 1]];
    } else {
      assert DigitChar(DigitValue(s[0])) == s[0];
    }
  }

  /** Appending a digit to the text of a positive number gives the text of ten times it plus the digit. */
  lemma AppendDigit(v: nat, d: nat)
    requires 0 < v && d < 10
    ensures NatToString(v * 10 + d) == NatToString(v) + [DigitChar(d)]
  {
    var n := v * 10 + d;
    assert n / 10 == v && n % 10 == d;
  }

  /** A name that parses and carries no leading zero in its octave is the canonical name of its pitch. */
  lemma PitchNameOfParse(name: string)
    requires ParsePitch(name).Some?
    requires name[1] != '0' || |name| == 2
    ensures PitchName(ParsePitch(name).value) == name
  {
    CanonicalDigits(name[1..]);
    assert name == [name[0]] + name[1..];
  }

  /** The distance of a well-formed name is the letter's offset plus twelve semitones per octave above 4. */
  lemma SemitoneOffsetOfName(p: Pitch)
    requires IsNoteLetter(p.letter)
    ensures SemitoneOffset(PitchName(p)) == LetterOffset(p.letter) + (p.octave - 4) * 12
  {
    ParsePitchName(p);
  }

  /** Raising the octave number by one raises the distance by exactly one octave. */
  lemma OctaveUp(p: Pitch)
    requires IsNoteLetter(p.letter)
    ensures SemitoneOffset(PitchName(Pitch(p.letter, p.octave + 1))) == SemitoneOffset(PitchName(p)) + 12
  {
    SemitoneOffsetOfName(p);
    SemitoneOffsetOfName(Pitch(p.letter, p.octave + 1));
  }

  /** Different natural notes lie at different distances from A4. */
  lemma PitchOffsetInjective(p: Pitch, q: Pitch)
    requires IsNoteLetter(p.letter) && IsNoteLetter(q.letter)
    requires PitchOffset(p) == PitchOffset(q)
    ensures p == q
  {
    var dp, dq := LetterOffset(p.letter), LetterOffset(q.letter);
    assert (p.octave - q.octave) * 12 == dq - dp;
    assert p.octave == q.octave;
  }

  /** Every name that matches the pattern gives its letter's offset plus 12 for each octave above 4. */
  lemma SemitoneOffsetOfMatch(name: string)
    requires MatchesNotePattern(name)
    ensures AllDigits(name[1..])
    ensures SemitoneOffset(name) == LetterOffset(name[0]) + (DigitsValue(name[1..]) - 4) * 12
  {
    assert ParsePitch(name).Some?;
  }

  /** The distance of a two-character name: a letter and one octave digit. */
  lemma OffsetOfShortName(name: string)
    requires |name| == 2 && IsNoteLetter(name[0]) && IsDigit(name[1])
    ensures ParsePitch(name).Some?
    ensures SemitoneOffset(name) == LetterOffset(name[0]) + (DigitValue(name[1]) - 4) * 12
  {
    var s := name[1..];
    assert s == [name[1]] && s[..0] == [];
    assert DigitsValue(s) == DigitValue(name[1]);
  }

  /** The reference points: A4 is 0, C4 is 9 below it and C5 3 above; names off the pattern read as A4. */
  lemma ReferenceOffsets()
    ensures SemitoneOffset("A4") == 0
    ensures SemitoneOffset("C4") == -9
    ensures SemitoneOffset("C5") == 3
    ensures SemitoneOffset("H4") == 0 && SemitoneOffset("C#4") == 0
    ensures SemitoneOffset("A") == 0 && SemitoneOffset("a4") == 0 && SemitoneOffset("") == 0
  {
    OffsetOfShortName("A4");
    OffsetOfShortName("C4");
    OffsetOfShortName("C5");
    assert !IsDigit("C#4"[1]);
  }

  /** The distances of the treble range, lowest note first. */
  const TrebleOffsets: seq<int> := [-5, -4, -2, 0, 2, 3, 5, 7, 8, 10]

  /** The distances of the bass range, lowest note first. */
  const BassOffsets: seq<int> := [-26, -24, -22, -21, -19, -17, -16, -14, -12, -10]

  lemma RangeOffsets()
    ensures forall i :: 0 <= i < 10 ==> ParsePitch(TrebleRange[i]).Some? && SemitoneOffset(TrebleRange[i]) == TrebleOffsets[i]
    ensures forall i :: 0 <= i < 10 ==> ParsePitch(BassRange[i]).Some? && SemitoneOffset(BassRange[i]) == BassOffsets[i]
  {
    forall i | 0 <= i < 10
      ensures ParsePitch(TrebleRange[i]).Some? && SemitoneOffset(TrebleRange[i]) == TrebleOffsets[i]
      ensures ParsePitch(BassRange[i]).Some? && SemitoneOffset(BassRange[i]) == BassOffsets[i]
    {
      OffsetOfShortName(TrebleRange[i]);
      OffsetOfShortName(BassRange[i]);
    }
  }

  /**
   * Each range is listed from low to high pitch without repeats, and the whole
   * bass range lies below the whole treble range.
   */
  lemma CatalogueAscending()
    ensures forall i, j :: 0 <= i < j < 10 ==> SemitoneOffset(TrebleRange[i]) < SemitoneOffset(TrebleRange[j])
    ensures forall i, j :: 0 <= i < j < 10 ==> SemitoneOffset(BassRange[i]) < SemitoneOffset(BassRange[j])
    ensures forall i, j :: 0 <= i < 10 && 0 <= j < 10 ==> SemitoneOffset(BassRange[i]) < SemitoneOffset(TrebleRange[j])
  {
    RangeOffsets();
  }

  /** Different draws pick different notes, so a uniform index gives a uniform note of the range. */
  lemma NoteForClefInjective(clef: string, i: nat, j: nat)
    requires i < |ClefRange(clef)| && j < |ClefRange(clef)|
    requires NoteForClef(clef, i) == NoteForClef(clef, j)
    ensures i == j
  {
    CatalogueAscending();
  }

  /** Every catalogue note is the canonical name of a pitch, and its first character is its letter. */
  lemma CatalogueNames(note: string)
    requires InCatalogue(note)
    ensures ParsePitch(note).Some? && PitchName(ParsePitch(note).value) == note
    ensures |note| > 0 && IsNoteLetter(note[0])
  {
    RangeOffsets();
    var i :| 0 <= i < 10 && (note == TrebleRange[i] || note == BassRange[i]);
    PitchNameOfParse(note);
  }
}

/** The harmony builders (main.py:97-113) and the derivation of the harmony
    root from the melody key (main.py:78). Both builders stack two thirds on
    the root: major third then minor third for the major chord, minor then
    major for the minor chord, so both span a perfect fifth. */
module Harmony {
  import opened Chords
  import opened Melody

  const MAJOR_INTERVAL: int := 4
  const MINOR_INTERVAL: int := 3

  /** The only offset the program picks before the octave shift. */
  const ROOT_INTERVAL: int := 0

  /** Every note of `notes` has velocity `volume`. */
  predicate SameVolume(notes: seq<Note>, volume: int) {
    forall i :: 0 <= i < |notes| ==> notes[i].volume == volume
  }

  /** Three notes at one volume: the root, `third` semitones above it and a
      perfect fifth (7 semitones) above it, in that order. */
  predicate IsTriad(c: ChordValue, third: int) {
    |c.notes| == 3 &&
    c.notes[1].key == c.notes[0].key + third &&
    c.notes[2].key == c.notes[0].key + 7 &&
    SameVolume(c.notes, c.notes[0].volume)
  }

  function MajorTritone(root: int, volume: int, instrument: int): (c: ChordValue)
    ensures Keys(c.notes) == [root, root + 4, root + 7]
    ensures SameVolume(c.notes, volume) && c.instrument == instrument
  {
    ChordValue([Note(root, volume),
                Note(root + MAJOR_INTERVAL, volume),
                Note(root + MAJOR_INTERVAL + MINOR_INTERVAL, volume)], instrument)
  }

  function MinorTritone(root: int, volume: int, instrument: int): (c: ChordValue)
    ensures Keys(c.notes) == [root, root + 3, root + 7]
    ensures SameVolume(c.notes, volume) && c.instrument == instrument
  {
    ChordValue([Note(root, volume),
                Note(root + MINOR_INTERVAL, volume),
                Note(root + MAJOR_INTERVAL + MINOR_INTERVAL, volume)], instrument)
  }

  /** A chord value is a major triad exactly when it is what the major
      builder returns for its own root, volume and instrument. */
  lemma MajorTritoneCharacterised(c: ChordValue)
    ensures IsTriad(c, 4) <==>
      |c.notes| > 0 && c == MajorTritone(c.notes[0].key, c.notes[0].volume, c.instrument)
  {
    if IsTriad(c, 4) {
      assert c.notes == [c.notes[0], c.notes[1], c.notes[2]];
    }
  }

  /** A chord value is a minor triad exactly when it is what the minor
      builder returns for its own root, volume and instrument. */
  lemma MinorTritoneCharacterised(c: ChordValue)
    ensures IsTriad(c, 3) <==>
      |c.notes| > 0 && c == MinorTritone(c.notes[0].key, c.notes[0].volume, c.instrument)
  {
    if IsTriad(c, 3) {
      assert c.notes == [c.notes[0], c.notes[1], c.notes[2]];
    }
  }

  /** The two builders agree on root and fifth and differ only in the
      middle note, the minor one a semitone lower. */
  lemma MajorMinorDifferInThird(root: int, volume: int, instrument: int)
    ensures var major, minor := MajorTritone(root, volume, instrument), MinorTritone(root, volume, instrument);
      |major.notes| == |minor.notes| == 3 &&
      major.notes[0] == minor.notes[0] && major.notes[2] == minor.notes[2] &&
      minor.notes[1] == Note(major.notes[1].key - 1, volume)
  {
  }

  /** The notes of `c` moved by `t` semitones. */
  function Transposed(c: ChordValue, t: int): ChordValue {
    ChordValue(seq(|c.notes|, i requires 0 <= i < |c.notes| => Note(c.notes[i].key + t, c.notes[i].volume)),
               c.instrument)
  }

  /** Building on a shifted root is transposing the built chord. */
  lemma TritonesCommuteWithTransposition(root: int, t: int, volume: int, instrument: int)
    ensures MajorTritone(root + t, volume, instrument) == Transposed(MajorTritone(root, volume, instrument), t)
    ensures MinorTritone(root + t, volume, instrument) == Transposed(MinorTritone(root, volume, instrument), t)
  {
  }

  /** The harmony root: the melody key plus the (always zero) interval, moved
      down by `octaveShift` octaves, one of -2, -1 or 0. */
  function HarmonyRoot(key: int, octaveShift: int): (root: int)
    requires -2 <= octaveShift <= 0
    ensures root == key || root == key - 12 || root == key - 24
    ensures root <= key && root % 12 == key % 12
  {
    key + ROOT_INTERVAL + octaveShift * 12
  }

  /** The harmony root of an in-scale melody key is in scale too. */
  lemma HarmonyRootInScale(key: int, octaveShift: int)
    requires -2 <= octaveShift <= 0
    requires InScale(key)
    ensures InScale(HarmonyRoot(key, octaveShift))
  {
    InScaleOctaveShift(key, octaveShift);
  }
}

# Procedural music generator — verified model of the note logic

This project models the core of a small procedural music generator (`main.py`).
The generator walks a melody over the scale C D E F G A B♭ B, pulling it toward
middle C. This scale contains B♭, although the comment at main.py:120 says the test keeps the melody in C major, which has no B♭.
On each melody note the generator builds a major three-note chord. A minor builder exists at main.py:106-113, but line 73 fixes `isMajor = True`, so the minor builder is never selected.
The generator plays both voices on a MIDI output port as MIDI 1.0 Channel Voice Messages:
Program Change `0xC0`, Note On `0x90`, and Note On at velocity 0 used as Note Off.

The Dafny project has four modules:

- `Midi` (`midi.dfy`) defines the message encodings. It models the output port as a class `MidiOut` whose field `sent` logs every message in order.
- `Chords` (`chords.dfy`) holds the `Note` value and the `ChordValue` value. It also holds the `Chord` class, which has mutable `notes` and `instrument` fields and the methods `Play` and `Stop`.
  - Both methods are proved against the functions `OnMessages`, `OffMessages` and `PlayMessages`.
  - A separate model of a receiving synthesiser (`Receive`/`Sounding`, a multiset of keys held down) shows that a play releases every key it pressed.
- `Melody` (`melody.dfy`) holds the scale test, the direction toward middle C and the rejection search.
  - The search is a function (`Redraw`, `FirstInScale`) and also a loop method (`SearchKey`) proved equal to it.
  - `NextMelodyNote` replaces the melody chord's notes in place.
- `Harmony` (`harmony.dfy`) holds the two chord builders and the harmony-root derivation.

Random samples are parameters:
- `initial` stands for `floor(gauss(key, 7))`.
- Each entry of `draws` stands for one `floor(gauss(0, 7))`, used by absolute value.
- `octaveShift` stands for the choice among -2, -1 and 0.

Pitches and volumes are unbounded integers, because the program never clamps a key.

Two facts about main.py shape the model:
- `play` reads `self.notes` once for the on phase (main.py:148) and once for the off phase (main.py:156), and takes no snapshot. In this sequential model nothing can change `notes` between the two reads, so both phases use the same notes.
- The rejection loop has no retry cap and no fallback. Here the search fails only when the finite draw sequence runs out. In that case the chord is left unchanged.
- The scale list keeps its entry `12`, as in the code, and `OffsetBelowTwelve` proves that entry can never match.

## Model

| member | source | states |
|---|---|---|
| `Midi.MidiOut.SendMessage` | main.py:146 | sending appends exactly that message to the port's log |
| `Chords.Chord.constructor` | main.py:139-142 | a chord holds the port, notes and instrument it was given |
| `Chords.Chord.Play` | main.py:144-153 | the log grows by the Program Change, then one Note On per note in order, then one Note Off per note in order; notes and instrument are unchanged |
| `Chords.Chord.SendOn` | main.py:148-150 | the on phase appends one Note On per note, in list order, at the note's volume |
| `Chords.Chord.Stop` | main.py:155-158 | the log grows by one Note Off per note in order and the chord is unchanged, so calling it twice sends the block twice |
| `Chords.OnMessageAt` | main.py:148-150 | the k-th Note On is `[0x90, key, volume]` of the k-th note |
| `Chords.OffMessageAt` | main.py:156-158 | the k-th Note Off is `[0x90, key, 0]` of the k-th note |
| `Chords.PlayMessagesLayout` | main.py:144-158 | one play sends `1 + 2*n` messages: `[0xC0, instrument]` first, then the note-ons at positions 1..n, then the note-offs at n+1..2n, in the same note order |
| `Chords.OnPressesKeys` | main.py:148-150 | at a receiver, the on phase presses exactly the multiset of the chord's keys |
| `Chords.OffReleasesKeys` | main.py:155-158 | at a receiver, the off phase releases exactly the multiset of the chord's keys |
| `Chords.PlayLeavesNothingHeld` | main.py:144-158 | a full play of a chord with non-zero volumes leaves the receiver's held keys as they were, so every note turned on is turned off |
| `Melody.OffsetBelowTwelve` | main.py:119-122 | the offset from the octave root `floor(n/12)*12` lies in [0, 12) and equals `n mod 12`, so the scale entry 12 is dead |
| `Melody.OctaveRoot` | main.py:119 | `floor(n/12)*12` is the multiple of 12 at or below n and within 12 of it, for negative keys too |
| `Melody.InScale` | main.py:122 | the loop test `n - floor(n/12)*12 in [0,2,4,5,7,9,10,11,12]` accepts a key exactly when its pitch class is one of 0, 2, 4, 5, 7, 9, 10, 11 |
| `Melody.CopySignOne` | main.py:121 | `copysign(1, x)` is +1 exactly when x >= 0, including zero, and -1 exactly when x < 0 |
| `Midi.ProgramChange` | main.py:145 | the instrument message is two bytes, status `0xC0` and then the program |
| `Midi.NoteOn` | main.py:149 | the note-on message is three bytes, status `0x90`, then the key, then the velocity |
| `Midi.NoteOff` | main.py:157 | the note-off message is three bytes, status `0x90`, then the key, then velocity 0 |
| `Melody.InScaleOctaveShift` | main.py:119-122 | moving a key by whole octaves does not change the scale test |
| `Melody.Direction` | main.py:121 | the direction is -1 exactly when the previous key is 60 or above, so a key of exactly 60 walks down, and +1 exactly when it is below 60 |
| `Melody.Candidate` | main.py:123 | a redrawn candidate is at or below the previous key from 60 upward, at or above it below 60, differs from it by the draw's magnitude, and equals it for a zero draw |
| `Melody.Redraw` | main.py:122-124 | an accepted redraw is in scale and on the middle-C side of the previous key; the search fails exactly when no draw gives an in-scale candidate |
| `Melody.FirstInScale` | main.py:117-124 | the result is in scale; an in-scale first sample is kept as is; otherwise the result is the redraw search's, which lies on the middle-C side of the previous key |
| `Melody.RedrawPicksFirstAccepted` | main.py:122-124 | the search returns the candidate of the first draw whose candidate is in scale |
| `Melody.RedrawResultIsFirstAccepted` | main.py:122-124 | every result of the search is the candidate of some draw that no earlier draw beat |
| `Melody.ZeroDrawEndsSearch` | main.py:122-123 | from an in-scale key, a zero draw is accepted and repeats the key, so a draw sequence containing a zero always ends the search |
| `Melody.SearchKey` | main.py:116-124 | the rejection loop returns exactly the first in-scale candidate given by `FirstInScale`, or failure when the draws run out |
| `Melody.NextMelodyNote` | main.py:115-127 | on success the melody chord holds exactly one note, whose key is the in-scale search result and whose volume is the previous first note's volume; otherwise the chord is unchanged |
| `Harmony.MajorTritone` | main.py:97-104 | three notes with keys root, root+4, root+7 in that order, all at the given volume, with the given instrument |
| `Harmony.MinorTritone` | main.py:106-113 | three notes with keys root, root+3, root+7 in that order, all at the given volume, with the given instrument |
| `Harmony.MajorTritoneCharacterised` | main.py:97-104 | a chord value is a root–major-third–fifth triad at one volume exactly when it equals the major builder's output for its own root, volume and instrument |
| `Harmony.MinorTritoneCharacterised` | main.py:106-113 | a chord value is a root–minor-third–fifth triad at one volume exactly when it equals the minor builder's output for its own root, volume and instrument |
| `Harmony.MajorMinorDifferInThird` | main.py:97-113 | the major and minor chords on one root share root and fifth and differ only in the middle note, by one semitone |
| `Harmony.TritonesCommuteWithTransposition` | main.py:97-113 | building on a root shifted by t equals transposing the built chord by t |
| `Harmony.HarmonyRoot` | main.py:78 | the harmony root is the melody key, or 12 or 24 below it, so it is never above the melody and has the same pitch class |
| `Harmony.HarmonyRootInScale` | main.py:78 | the harmony root of an in-scale melody key is in scale |

## Left out

- The output port is not opened: there is no search for available ports and no virtual-port fallback (main.py:48-54). A log of sent messages stands in for the device.
- Threads (main.py:84-90) are not modelled. `Play` and `Stop` run sequentially, so the model cannot express a concurrent reassignment of `notes` during a play.
- `time.sleep` (main.py:152) is a real-time delay with no logical effect. `Play` keeps its `duration` parameter but does nothing with it.
- `random.seed`, `gauss`, `choice` and `randint` are replaced by parameters. The model makes no claim about distributions.
- The driver loop of `main` (main.py:56-91) is not modelled, except the harmony-root expression at line 78, which `Harmony.HarmonyRoot` models: the 100-iteration budget, tempo, base beat, notes per measure, the major/minor switch and the durations are left out.
- The volume Gaussian walk and its clamp to [40, 150] (main.py:71-72) are float arithmetic and are not modelled. Volumes are integers here, whereas the source passes the float volume to the harmony builder.
- Melody keys are integers here. In the source, `copysign` returns a float, so a key produced by a redraw is an integral float. Only its integer value is modelled.
- `Melody.SearchKey` and `Melody.NextMelodyNote` return failure once the finite draw sequence is exhausted, where the source keeps drawing forever.
- The `Instruments` table and the default arguments of the `Chord` constructor (main.py:44-46, 139) are configuration and are not modelled.
- `NextMelodyNote` requires a non-empty note list. The source indexes `notes[0]` and would raise on an empty list.
- No class for a sequence of chords played back to back is modelled, because main.py has none.

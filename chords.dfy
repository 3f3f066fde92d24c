/** Notes and chords (main.py:131-158): a `Note` is a key/volume pair, a
    `Chord` owns a list of notes and an instrument and plays them on a shared
    output port. The messages a chord sends are specified as functions of its
    notes, and their effect is checked against a model of the receiver. */
module Chords {
  import opened Midi

  /** A pitch (MIDI key, not clamped) with its velocity. */
  datatype Note = Note(key: int, volume: int)

  /** The contents of a chord as a value: what the harmony builders return. */
  datatype ChordValue = ChordValue(notes: seq<Note>, instrument: int)

  /** The keys of `notes`, in list order. */
  function Keys(notes: seq<Note>): (ks: seq<int>)
    ensures |ks| == |notes|
    ensures forall i :: 0 <= i < |notes| ==> ks[i] == notes[i].key
  {
    if notes == [] then [] else [notes[0].key] + Keys(notes[1..])
  }

  /** One Note On per note, in list order, at the note's own volume. */
  function OnMessages(notes: seq<Note>): (ms: seq<seq<int>>)
    ensures |ms| == |notes|
  {
    if notes == [] then [] else [NoteOn(notes[0].key, notes[0].volume)] + OnMessages(notes[1..])
  }

  /** One Note Off (Note On at velocity 0) per note, in list order. */
  function OffMessages(notes: seq<Note>): (ms: seq<seq<int>>)
    ensures |ms| == |notes|
  {
    if notes == [] then [] else [NoteOff(notes[0].key)] + OffMessages(notes[1..])
  }

  /** The k-th Note On of a chord is for its k-th note. */
  lemma {:induction false} OnMessageAt(notes: seq<Note>, k: nat)
    requires k < |notes|
    ensures OnMessages(notes)[k] == NoteOn(notes[k].key, notes[k].volume)
    decreases k
  {
    if k > 0 {
      OnMessageAt(notes[1..], k - 1);
    }
  }

  /** The k-th Note Off of a chord is for its k-th note. */
  lemma {:induction false} OffMessageAt(notes: seq<Note>, k: nat)
    requires k < |notes|
    ensures OffMessages(notes)[k] == NoteOff(notes[k].key)
    decreases k
  {
    if k > 0 {
      OffMessageAt(notes[1..], k - 1);
    }
  }

  /** Pressing one more note appends one more Note On. */
  lemma {:induction false} OnMessagesSnoc(notes: seq<Note>, n: Note)
    ensures OnMessages(notes + [n]) == OnMessages(notes) + [NoteOn(n.key, n.volume)]
    decreases |notes|
  {
    if notes != [] {
      assert (notes + [n])[1..] == notes[1..] + [n];
      OnMessagesSnoc(notes[1..], n);
    }
  }

  /** Releasing one more note appends one more Note Off. */
  lemma {:induction false} OffMessagesSnoc(notes: seq<Note>, n: Note)
    ensures OffMessages(notes + [n]) == OffMessages(notes) + [NoteOff(n.key)]
    decreases |notes|
  {
    if notes != [] {
      assert (notes + [n])[1..] == notes[1..] + [n];
      OffMessagesSnoc(notes[1..], n);
    }
  }

  /** Everything one `play` sends: the instrument, every note on, every note off. */
  function PlayMessages(notes: seq<Note>, instrument: int): seq<seq<int>> {
    [ProgramChange(instrument)] + OnMessages(notes) + OffMessages(notes)
  }

  /** The messages of one play, position by position. */
  lemma PlayMessagesLayout(notes: seq<Note>, instrument: int)
    ensures |PlayMessages(notes, instrument)| == 1 + 2 * |notes|
    ensures PlayMessages(notes, instrument)[0] == [PROGRAM_CHANGE, instrument]
    ensures forall i :: 0 <= i < |notes| ==>
      PlayMessages(notes, instrument)[1 + i] == [NOTE_ON, notes[i].key, notes[i].volume] &&
      PlayMessages(notes, instrument)[1 + |notes| + i] == [NOTE_ON, notes[i].key, 0]
  {
    forall i | 0 <= i < |notes|
      ensures PlayMessages(notes, instrument)[1 + i] == [NOTE_ON, notes[i].key, notes[i].volume]
      ensures PlayMessages(notes, instrument)[1 + |notes| + i] == [NOTE_ON, notes[i].key, 0]
    {
      OnMessageAt(notes, i);
      OffMessageAt(notes, i);
    }
  }

  // ---------------------------------------------------------------------------
  // The receiving synthesiser, as an independent reading of the message log.

  /** The keys held down after the receiver handles message `m`: a Note On
      with non-zero velocity presses its key, one with velocity 0 releases
      one press of it, anything else changes nothing. */
  function Receive(down: multiset<int>, m: seq<int>): multiset<int> {
    if |m| == 3 && m[0] == NOTE_ON then
      if m[2] == 0 then down - multiset{m[1]} else down + multiset{m[1]}
    else down
  }

  /** The keys held down after the receiver handles `log` in order. */
  function Sounding(down: multiset<int>, log: seq<seq<int>>): multiset<int>
    decreases |log|
  {
    if log == [] then down else Sounding(Receive(down, log[0]), log[1..])
  }

  /** Handling two logs one after the other is handling their concatenation. */
  lemma {:induction false} SoundingAppend(down: multiset<int>, a: seq<seq<int>>, b: seq<seq<int>>)
    ensures Sounding(down, a + b) == Sounding(Sounding(down, a), b)
    decreases |a|
  {
    if a == [] {
      assert a + b == b;
    } else {
      assert (a + b)[0] == a[0];
      assert (a + b)[1..] == a[1..] + b;
      SoundingAppend(Receive(down, a[0]), a[1..], b);
    }
  }

  /** Every note is played at a non-zero velocity, so its Note On is not read
      as a Note Off. The generator's volumes (112 for the melody, at least 40
      for the harmony) all are. */
  predicate Audible(notes: seq<Note>) {
    forall i :: 0 <= i < |notes| ==> notes[i].volume > 0
  }

  /** The on phase presses exactly the chord's keys. */
  lemma {:induction false} OnPressesKeys(down: multiset<int>, notes: seq<Note>)
    requires Audible(notes)
    ensures Sounding(down, OnMessages(notes)) == down + multiset(Keys(notes))
    decreases |notes|
  {
    if notes != [] {
      var rest := OnMessages(notes[1..]);
      assert OnMessages(notes) == [NoteOn(notes[0].key, notes[0].volume)] + rest;
      assert ([NoteOn(notes[0].key, notes[0].volume)] + rest)[1..] == rest;
      OnPressesKeys(down + multiset{notes[0].key}, notes[1..]);
      assert Keys(notes) == [notes[0].key] + Keys(notes[1..]);
    }
  }

  /** The off phase releases exactly the chord's keys, when they are down. */
  lemma {:induction false} OffReleasesKeys(down: multiset<int>, notes: seq<Note>)
    requires multiset(Keys(notes)) <= down
    ensures Sounding(down, OffMessages(notes)) == down - multiset(Keys(notes))
    decreases |notes|
  {
    if notes != [] {
      var rest := OffMessages(notes[1..]);
      assert OffMessages(notes) == [NoteOff(notes[0].key)] + rest;
      assert ([NoteOff(notes[0].key)] + rest)[1..] == rest;
      assert Keys(notes) == [notes[0].key] + Keys(notes[1..]);
      OffReleasesKeys(down - multiset{notes[0].key}, notes[1..]);
    }
  }

  /** A whole play of an audible chord leaves the receiver as it found it:
      every key the play presses, it releases. */
  lemma PlayLeavesNothingHeld(down: multiset<int>, notes: seq<Note>, instrument: int)
    requires Audible(notes)
    ensures Sounding(down, PlayMessages(notes, instrument)) == down
  {
    var pc := [ProgramChange(instrument)];
    var keys := multiset(Keys(notes));
    assert Sounding(down, pc) == down;
    SoundingAppend(down, pc, OnMessages(notes));
    OnPressesKeys(down, notes);
    SoundingAppend(down, pc + OnMessages(notes), OffMessages(notes));
    OffReleasesKeys(down + keys, notes);
    assert (down + keys) - keys == down;
  }

  // ---------------------------------------------------------------------------

  /** A chord bound to an output port. `notes` and `instrument` are fields the
      program reassigns; the port is shared by every chord. */
  class Chord {
    const midiout: MidiOut
    var notes: seq<Note>
    var instrument: int

    constructor (midiout: MidiOut, notes: seq<Note>, instrument: int)
      ensures this.midiout == midiout && this.notes == notes && this.instrument == instrument
    {
      this.midiout := midiout;
      this.notes := notes;
      this.instrument := instrument;
    }

    /** Selects the instrument, presses every note in list order, holds for
        `duration` (a real-time delay, no logical effect here) and releases
        every note in the same order. */
    method Play(duration: real)
      modifies midiout
      ensures midiout.sent == old(midiout.sent) + PlayMessages(notes, instrument)
      ensures notes == old(notes) && instrument == old(instrument)
    {
      ghost var start := midiout.sent;
      midiout.SendMessage(ProgramChange(instrument));
      SendOn();
      ghost var held := midiout.sent;
      // time.sleep(duration) has no logical effect.
      Stop();
      assert held == start + ([ProgramChange(instrument)] + OnMessages(notes));
    }

    /** The on phase of `Play`: one Note On per note, in list order. */
    method SendOn()
      modifies midiout
      ensures midiout.sent == old(midiout.sent) + OnMessages(notes)
      ensures notes == old(notes) && instrument == old(instrument)
    {
      var ns := notes;
      for i := 0 to |ns|
        invariant midiout.sent == old(midiout.sent) + OnMessages(ns[..i])
      {
        OnMessagesSnoc(ns[..i], ns[i]);
        assert ns[..i + 1] == ns[..i] + [ns[i]];
        midiout.SendMessage(NoteOn(ns[i].key, ns[i].volume));
      }
      assert ns[..|ns|] == ns;
    }

    /** Releases every note in list order; the chord itself is unchanged, so
        a second call sends the same block again. */
    method Stop()
      modifies midiout
      ensures midiout.sent == old(midiout.sent) + OffMessages(notes)
      ensures notes == old(notes) && instrument == old(instrument)
    {
      for i := 0 to |notes|
        invariant midiout.sent == old(midiout.sent) + OffMessages(notes[..i])
      {
        OffMessagesSnoc(notes[..i], notes[i]);
        assert notes[..i + 1] == notes[..i] + [notes[i]];
        midiout.SendMessage(NoteOff(notes[i].key));
      }
      assert notes[..|notes|] == notes;
    }
  }
}

/** The MIDI 1.0 Channel Voice Messages the generator sends (section "Channel
    Voice Messages" of the MIDI 1.0 Detailed Specification), and the output
    port, modelled as the log of every message sent to it. Data bytes are kept
    as unbounded integers: the generator never clamps a key to 7 bits. */
module Midi {

  /** Status byte of a Program Change on channel 1. */
  const PROGRAM_CHANGE: int := 0xC0

  /** Status byte of a Note On on channel 1. */
  const NOTE_ON: int := 0x90

  /** Program Change: selects the instrument (two bytes). */
  function ProgramChange(program: int): (m: seq<int>)
    ensures |m| == 2 && m[0] == PROGRAM_CHANGE && m[1] == program
  {
    [PROGRAM_CHANGE, program]
  }

  /** Note On for `key` at `velocity` (three bytes). */
  function NoteOn(key: int, velocity: int): (m: seq<int>)
    ensures |m| == 3 && m[0] == NOTE_ON && m[1] == key && m[2] == velocity
  {
    [NOTE_ON, key, velocity]
  }

  /** A Note On with velocity 0, which MIDI 1.0 reads as a Note Off. */
  function NoteOff(key: int): (m: seq<int>)
    ensures |m| == 3 && m[0] == NOTE_ON && m[1] == key && m[2] == 0
  {
    NoteOn(key, 0)
  }

  /** The output port. Each `SendMessage` appends one message to `sent`;
      opening the port and the transport itself are not modelled. */
  class MidiOut {
    var sent: seq<seq<int>>

    constructor ()
      ensures sent == []
    {
      sent := [];
    }

    method SendMessage(message: seq<int>)
      modifies this
      ensures sent == old(sent) + [message]
    {
      sent := sent + [message];
    }
  }
}

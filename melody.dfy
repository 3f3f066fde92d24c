/** The melody step (main.py:115-127): a random walk quantised to the scale
    C D E F G A Bb B and pulled toward middle C. The random draws are
    parameters: `initial` stands for the first Gaussian sample around the
    current key (floor taken), and each of `draws` for one later sample of the
    step size (floor taken, used by absolute value). The source redraws
    forever; here the search fails once the draws run out. */
module Melody {
  import opened Chords

  datatype Option<T> = None | Some(value: T)

  /** Middle C, the pitch the walk is pulled toward. */
  const CENTER: int := 60

  /** Offsets above the octave root counted as in key. The last entry, 12,
      can never match (see `OffsetBelowTwelve`). */
  const SCALE_OFFSETS: seq<int> := [0, 2, 4, 5, 7, 9, 10, 11, 12]

  /** `floor(n / 12) * 12`: Dafny's `/` by a positive divisor rounds toward
      negative infinity, as `math.floor` does, also for negative keys. */
  function OctaveRoot(n: int): (root: int)
    ensures root % 12 == 0 && root <= n < root + 12
  {
    (n / 12) * 12
  }

  /** The scale test of the rejection loop. It depends on the pitch class
      only, and accepts exactly the eight classes C D E F G A Bb B. */
  predicate InScale(n: int)
    ensures InScale(n) <==> n % 12 in {0, 2, 4, 5, 7, 9, 10, 11}
  {
    n - OctaveRoot(n) in SCALE_OFFSETS
  }

  /** The offset from the octave root is a pitch class: never negative and
      never 12, so the entry 12 of the scale list is dead. */
  lemma OffsetBelowTwelve(n: int)
    ensures 0 <= n - OctaveRoot(n) < 12
    ensures n - OctaveRoot(n) == n % 12
  {
  }

  /** Moving by whole octaves does not change the scale test. */
  lemma InScaleOctaveShift(n: int, octaves: int)
    ensures InScale(n + 12 * octaves) <==> InScale(n)
  {
    assert (n + 12 * octaves) % 12 == n % 12;
  }

  /** `math.copysign(1, x)` for an integer-valued `x`: +1 for zero. */
  function CopySignOne(x: int): (s: int)
    ensures s == 1 <==> x >= 0
    ensures s == -1 <==> x < 0
  {
    if x >= 0 then 1 else -1
  }

  /** The step direction `-copysign(1, prev - 60)`: down from middle C and
      above (so exactly 60 walks down), up from below it. */
  function Direction(prev: int): (d: int)
    ensures d == -1 <==> prev >= CENTER
    ensures d == 1 <==> prev < CENTER
  {
    -CopySignOne(prev - CENTER)
  }

  function Abs(x: int): nat {
    if x < 0 then -x else x
  }

  /** A redrawn candidate: the previous key moved by the draw's magnitude in
      the direction of middle C. */
  function Candidate(prev: int, draw: int): (c: int)
    ensures prev >= CENTER ==> c <= prev
    ensures prev < CENTER ==> c >= prev
    ensures Abs(c - prev) == Abs(draw)
    ensures draw == 0 ==> c == prev
  {
    prev + Abs(draw) * Direction(prev)
  }

  /** The rejection loop after its first test: the first candidate drawn
      from `draws` that is in scale, or None if none is. */
  function Redraw(prev: int, draws: seq<int>): (r: Option<int>)
    ensures r.Some? ==> InScale(r.value)
    ensures r.Some? ==> (prev >= CENTER ==> r.value <= prev) && (prev < CENTER ==> r.value >= prev)
    ensures r.None? <==> forall i :: 0 <= i < |draws| ==> !InScale(Candidate(prev, draws[i]))
    decreases |draws|
  {
    if draws == [] then None
    else
      var c := Candidate(prev, draws[0]);
      if InScale(c) then Some(c) else Redraw(prev, draws[1..])
  }

  /** The whole search: the first sample is kept when it is in scale,
      otherwise the loop redraws toward middle C. */
  function FirstInScale(prev: int, initial: int, draws: seq<int>): (r: Option<int>)
    ensures r.Some? ==> InScale(r.value)
    ensures r.Some? && r.value != initial ==>
      (prev >= CENTER ==> r.value <= prev) && (prev < CENTER ==> r.value >= prev)
    ensures InScale(initial) ==> r == Some(initial)
    ensures !InScale(initial) ==> r == Redraw(prev, draws)
  {
    if InScale(initial) then Some(initial) else Redraw(prev, draws)
  }

  /** Redraw returns the candidate of the first accepted draw, so it skips
      every draw before it. */
  lemma {:induction false} RedrawPicksFirstAccepted(prev: int, draws: seq<int>, i: nat)
    requires i < |draws| && InScale(Candidate(prev, draws[i]))
    requires forall j :: 0 <= j < i ==> !InScale(Candidate(prev, draws[j]))
    ensures Redraw(prev, draws) == Some(Candidate(prev, draws[i]))
    decreases i
  {
    if i > 0 {
      assert !InScale(Candidate(prev, draws[0]));
      assert forall j :: 0 <= j < i - 1 ==> draws[1..][j] == draws[j + 1];
      RedrawPicksFirstAccepted(prev, draws[1..], i - 1);
    }
  }

  /** Conversely, whatever Redraw returns is the candidate of some draw that
      no earlier draw beat. */
  lemma {:induction false} RedrawResultIsFirstAccepted(prev: int, draws: seq<int>, key: int)
    requires Redraw(prev, draws) == Some(key)
    ensures exists i :: 0 <= i < |draws| && key == Candidate(prev, draws[i]) &&
                        forall j :: 0 <= j < i ==> !InScale(Candidate(prev, draws[j]))
    decreases |draws|
  {
    if InScale(Candidate(prev, draws[0])) {
      assert key == Candidate(prev, draws[0]);
    } else {
      RedrawResultIsFirstAccepted(prev, draws[1..], key);
      var i :| 0 <= i < |draws[1..]| && key == Candidate(prev, draws[1..][i]) &&
               forall j :: 0 <= j < i ==> !InScale(Candidate(prev, draws[1..][j]));
      assert forall j :: 1 <= j < i + 1 ==> draws[j] == draws[1..][j - 1];
      assert key == Candidate(prev, draws[i + 1]);
    }
  }

  /** From an in-scale key a zero draw is accepted and repeats the key, so
      the loop always has a way out: any draw sequence containing a zero ends
      the search, never further from middle C than the previous key. */
  lemma {:induction false} ZeroDrawEndsSearch(prev: int, draws: seq<int>, z: nat)
    requires InScale(prev)
    requires z < |draws| && draws[z] == 0
    ensures Redraw(prev, draws).Some?
    ensures Redraw(prev, [0] + draws) == Some(prev)
  {
    assert Candidate(prev, draws[z]) == prev;
    assert ([0] + draws)[0] == 0;
  }

  /** The search as the source runs it: test the first sample, then redraw
      until the candidate is in scale. */
  method SearchKey(prev: int, initial: int, draws: seq<int>) returns (r: Option<int>)
    ensures r == FirstInScale(prev, initial, draws)
    ensures r.Some? ==> InScale(r.value)
  {
    var newNote := initial;
    var octaveRoot := OctaveRoot(newNote);
    var i := 0;
    while !(newNote - octaveRoot in SCALE_OFFSETS)
      invariant 0 <= i <= |draws|
      invariant octaveRoot == OctaveRoot(newNote)
      invariant !InScale(newNote) ==> FirstInScale(prev, initial, draws) == Redraw(prev, draws[i..])
      invariant InScale(newNote) ==> FirstInScale(prev, initial, draws) == Some(newNote)
      decreases |draws| - i
    {
      if i == |draws| {
        return None;
      }
      assert draws[i..][1..] == draws[i + 1..];
      newNote := prev + Abs(draws[i]) * Direction(prev);
      octaveRoot := OctaveRoot(newNote);
      i := i + 1;
    }
    r := Some(newNote);
  }

  /** Advances the melody chord by one step: on success its notes become the
      single new note, at the volume of the previous first note; when the
      draws run out the chord is left as it was. */
  method NextMelodyNote(current: Chord, initial: int, draws: seq<int>) returns (accepted: bool)
    requires |current.notes| > 0
    modifies current`notes
    ensures var prev := old(current.notes[0]);
      accepted <==> FirstInScale(prev.key, initial, draws).Some?
    ensures var prev := old(current.notes[0]);
      accepted ==> current.notes == [Note(FirstInScale(prev.key, initial, draws).value, prev.volume)]
    ensures accepted ==> InScale(current.notes[0].key)
    ensures !accepted ==> current.notes == old(current.notes)
  {
    var prevNote := current.notes[0].key;
    var found := SearchKey(prevNote, initial, draws);
    match found
    case None =>
      accepted := false;
    case Some(newNote) =>
      current.notes := [Note(newNote, current.notes[0].volume)];
      accepted := true;
  }
}

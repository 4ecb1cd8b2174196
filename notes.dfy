/**
 * Note names, pitch classes and MIDI note numbers.
 *
 * NOTE_MAPPING is the ordered table from note name to pitch class; looking a
 * name up takes the first entry with that name and falls back to pitch class 0
 * (the note C) for an unknown name. A (name, octave) pair becomes the MIDI note
 * number 12 * (octave + 1) + pitch class, and the MIDI number becomes a
 * frequency through the equal-tempered tuning whose reference is MIDI 69 at
 * 440 Hz. The tuning itself is floating point, so it is a parameter here,
 * constrained only by the properties equal temperament has.
 */
module Notes {

  datatype Option<T> = None | Some(value: T)

  type NoteName = string

  /** NOTE_MAPPING: one entry per semitone, C through B. */
  const NoteMapping: seq<(NoteName, int)> := [
    ("C", 0), ("C#", 1), ("D", 2), ("D#", 3), ("E", 4), ("F", 5),
    ("F#", 6), ("G", 7), ("G#", 8), ("A", 9), ("A#", 10), ("B", 11)
  ]

  /** The MIDI number of A4, the 440 Hz reference pitch. */
  const ReferenceMidi: int := 69

  /** The index of the first entry of `table` named `name`, if there is one
      (the iterator `find` over the table). */
  function IndexOf(table: seq<(NoteName, int)>, name: NoteName): (r: Option<nat>)
    ensures r.Some? ==> r.value < |table| && table[r.value].0 == name
    ensures r.Some? ==> forall j :: 0 <= j < r.value ==> table[j].0 != name
    ensures r.None? <==> forall j :: 0 <= j < |table| ==> table[j].0 != name
  {
    if table == [] then None
    else if table[0].0 == name then Some(0)
    else match IndexOf(table[1..], name)
      case None => None
      case Some(i) => Some(i + 1)
  }

  /** The pitch class of a note name: the number of its table entry, or 0
      when the name is not in the table. */
  function PitchClass(note: NoteName): (pc: int)
    ensures 0 <= pc < 12
    ensures (forall j :: 0 <= j < |NoteMapping| ==> NoteMapping[j].0 != note) ==> pc == 0
  {
    match IndexOf(NoteMapping, note)
    case Some(i) => NoteMapping[i].1
    case None => 0
  }

  /** The MIDI note number of `note` in `octave`: its octave is `octave + 1`
      counted from MIDI 0, and its position within that octave is the pitch class. */
  function NoteToMidi(note: NoteName, octave: int): (m: int)
    ensures m / 12 == octave + 1
    ensures m % 12 == PitchClass(note)
  {
    12 * (octave + 1) + PitchClass(note)
  }

  /** The frequency of `note` in `octave` under the tuning `midiToFreq`. */
  function NoteToFrequency(midiToFreq: int -> real, note: NoteName, octave: int): real
  {
    midiToFreq(NoteToMidi(note, octave))
  }

  /** What the floating-point tuning promises: MIDI 69 is 440 Hz, a step of
      twelve semitones doubles the frequency, and every frequency is positive. */
  ghost predicate EqualTemperament(midiToFreq: int -> real)
  {
    && midiToFreq(ReferenceMidi) == 440.0
    && (forall m :: midiToFreq(m + 12) == 2.0 * midiToFreq(m))
    && (forall m :: midiToFreq(m) > 0.0)
  }

  /** No two table entries share a name, and entry i has pitch class i. */
  lemma NoteMappingWellFormed()
    ensures |NoteMapping| == 12
    ensures forall i :: 0 <= i < 12 ==> NoteMapping[i].1 == i
    ensures forall i, j :: 0 <= i < j < 12 ==> NoteMapping[i].0 != NoteMapping[j].0
  {
  }

  /** Looking up the name of entry i yields pitch class i. */
  lemma PitchClassOfEntry(i: nat)
    requires i < |NoteMapping|
    ensures PitchClass(NoteMapping[i].0) == i
  {
    NoteMappingWellFormed();
  }

  /** A name missing from the table falls back to pitch class 0: in every
      octave it sounds as the note C. */
  lemma UnknownNoteIsC(note: NoteName)
    requires forall j :: 0 <= j < |NoteMapping| ==> NoteMapping[j].0 != note
    ensures forall octave :: NoteToMidi(note, octave) == NoteToMidi("C", octave)
  {
    PitchClassOfEntry(0);
  }

  /** Raising the octave by one raises the MIDI number by exactly twelve. */
  lemma OctaveUpAddsTwelve(note: NoteName, octave: int)
    ensures NoteToMidi(note, octave + 1) == NoteToMidi(note, octave) + 12
  {
  }

  /** Every MIDI number is the number of exactly one (table name, octave) pair:
      the one whose pitch class is its remainder modulo 12. */
  lemma MidiRoundTrip(m: int)
    ensures NoteToMidi(NoteMapping[m % 12].0, m / 12 - 1) == m
    ensures forall i, o :: 0 <= i < |NoteMapping| && NoteToMidi(NoteMapping[i].0, o) == m ==>
      i == m % 12 && o == m / 12 - 1
  {
    PitchClassOfEntry(m % 12);
    forall i, o | 0 <= i < |NoteMapping| && NoteToMidi(NoteMapping[i].0, o) == m
      ensures i == m % 12 && o == m / 12 - 1
    {
      PitchClassOfEntry(i);
    }
  }

  /** A4 is the reference MIDI number 69, A3 is 57 and C4 (middle C) is 60. */
  lemma ReferenceNotes()
    ensures NoteToMidi("A", 4) == ReferenceMidi
    ensures NoteToMidi("A", 3) == 57
    ensures NoteToMidi("C", 4) == 60
  {
    PitchClassOfEntry(9);
    PitchClassOfEntry(0);
  }

  /** Under equal temperament A4 sounds at 440 Hz and A3 at 220 Hz. */
  lemma ReferenceFrequencies(midiToFreq: int -> real)
    requires EqualTemperament(midiToFreq)
    ensures NoteToFrequency(midiToFreq, "A", 4) == 440.0
    ensures NoteToFrequency(midiToFreq, "A", 3) == 220.0
  {
    ReferenceNotes();
    assert midiToFreq(57 + 12) == 2.0 * midiToFreq(57);
  }

  /** Under equal temperament one octave up doubles the frequency of a note,
      and every note has a positive frequency. */
  lemma OctaveUpDoubles(midiToFreq: int -> real, note: NoteName, octave: int)
    requires EqualTemperament(midiToFreq)
    ensures NoteToFrequency(midiToFreq, note, octave + 1) == 2.0 * NoteToFrequency(midiToFreq, note, octave)
    ensures NoteToFrequency(midiToFreq, note, octave) > 0.0
  {
    OctaveUpAddsTwelve(note, octave);
    assert midiToFreq(NoteToMidi(note, octave) + 12) == 2.0 * midiToFreq(NoteToMidi(note, octave));
  }
}

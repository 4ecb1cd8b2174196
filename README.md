# One-voice keyboard tone generator: a Dafny model

The program turns a computer keyboard into a one-voice instrument. Two keyboard
rows play the semitones from C up to the D an octave above. `z` and `x` move
the octave down and up within 0..8, starting from 3. Space silences, and Esc
quits. The audio callback fills each output buffer frame by frame. It draws
one sample per frame and copies it to every channel.

This project models the discrete logic of `src/main.rs`, in three modules:

- `Notes` (`notes.dfy`) holds the note table `NOTE_MAPPING`, the name lookup with
  its fallback to pitch class 0, and the MIDI arithmetic `12 * (octave + 1) + pitch
  class` of `note_to_frequency`. `midi_to_freq` is floating point, so the model
  takes it as a parameter `midiToFreq: int -> real`. The properties of equal
  temperament are stated as a predicate on that parameter: MIDI 69 is 440 Hz, twelve
  semitones up doubles the frequency, and every frequency is positive. The reference
  pitches are then proved from the predicate.
- `Keys` (`keys.dfy`) holds `KEY_MAP` and the `match code` of the control loop as a
  step function `Handle` on the state (current octave, requested note). The loop
  over a finite list of input events is written twice. `Listen` is the
  specification, and `InputLoop` is the imperative loop of `run`, proved equal to it.
  The requested frequency is `Silent` (the 0.0 of the source) or `Note(midi)`.
  Every note the keys can request has a positive frequency, so "freq > 0.0" on the
  audio side is the same as `Note?` (`SoundingIffNote`).
- `Output` (`output.dfy`) holds `write_data` as a method over an `array`. The sample
  generator is the sequence of values it yields, consumed in order. A frame-by-frame
  reference definition `Fill` gives the buffer's intended contents.

## Model

| member | source | states |
|---|---|---|
| Notes.IndexOf | src/main.rs:58-61 | the iterator `find`: when a name is found, the index is that of the FIRST entry with that name; `None` exactly when no entry has the name |
| Notes.PitchClass | src/main.rs:57-62 | the looked-up pitch class is always in 0..11, and it is 0 when the name is not in the table (the `unwrap_or(0)` fallback) |
| Notes.NoteToMidi | src/main.rs:64 | the MIDI number of (note, octave) lies in MIDI octave `octave + 1` (`m / 12`), at the note's pitch class within it (`m % 12`) |
| Notes.NoteMappingWellFormed | src/main.rs:15-28 | the table has exactly 12 entries with pitch classes 0..11 in order, and no two entries share a name |
| Notes.PitchClassOfEntry | src/main.rs:15-28 | looking up the name of table entry i gives pitch class i (C is 0 through B is 11) |
| Notes.UnknownNoteIsC | src/main.rs:58-62 | a name missing from the table sounds as C in every octave |
| Notes.OctaveUpAddsTwelve | src/main.rs:64 | for the same note, one octave up raises the MIDI number by exactly 12 |
| Notes.MidiRoundTrip | src/main.rs:64 | every MIDI number m is the number of the table note `m % 12` in octave `m / 12 - 1`, and of no other (table note, octave) pair (the decomposition of `NoteToMidi` inverts it) |
| Notes.NoteToFrequency | src/main.rs:57-66 | `note_to_frequency`: the tuning applied to the MIDI number; it has no ensures of its own, and its properties are stated by ReferenceFrequencies and OctaveUpDoubles |
| Notes.EqualTemperament | src/main.rs:53-55 | what `midi_to_freq` promises, as a predicate on the tuning parameter: MIDI 69 is 440 Hz, twelve semitones up doubles the frequency, every frequency is positive; it is assumed, not proved |
| Notes.ReferenceNotes | src/main.rs:53-65 | ("A", 4) is MIDI 69, the 440 Hz reference of `midi_to_freq`; ("A", 3) is 57; ("C", 4) is 60 |
| Notes.ReferenceFrequencies | src/main.rs:53-55 | under any equal-tempered tuning with A4 at 440 Hz, A4 sounds at 440 Hz and A3 at 220 Hz |
| Notes.OctaveUpDoubles | src/main.rs:53-55 | under such a tuning one octave up doubles a note's frequency, and every note's frequency is positive |
| Keys.KeyMap | src/main.rs:32-50 | the `KEY_MAP.get(&c)` lookup (used at line 166); it has no ensures of its own, and its contents are stated by KeyRowBindings, MappedKeysInRow and KeyMapWellFormed |
| Keys.Press | src/main.rs:165-170 | the KEY_MAP arm of the match; it has no ensures of its own, and its effect is stated by NoteKey and KeyboardLayout |
| Keys.Clamp | src/main.rs:155-164 | the octave clamp always lands in 0..8 and leaves an octave in 0..8 unchanged |
| Keys.Handle | src/main.rs:151-173 | one event stops the loop exactly when it is Esc; every other event keeps the octave within 0..8 |
| Keys.Listen | src/main.rs:149-175 | the loop over a finite event list reads events up to and including the first Esc and stops there, or reads them all when there is no Esc |
| Keys.InputLoop | src/main.rs:149-175 | the imperative control loop, starting from octave 3 and silence, ends in the state, event count and quit flag that `Listen` gives; its final octave is in 0..8 and any requested note is within MIDI 12..122 |
| Keys.KeyRowBindings | src/main.rs:32-50 | KEY_MAP binds the i-th key of `awsedftgyhujkol` to the table note of pitch class `i % 12` with octave offset `i / 12` |
| Keys.MappedKeysInRow | src/main.rs:32-50 | a key is mapped exactly when it is in that row, so Space, `z` and `x` are not mapped |
| Keys.KeyMapWellFormed | src/main.rs:32-50 | every mapped key names a note found in NOTE_MAPPING and has offset 0 or 1, so the pitch-class fallback never fires for a dispatched key |
| Keys.HandleChar | src/main.rs:165-170 | a character other than Space, `z` and `x` reaches the KEY_MAP arm of the match |
| Keys.KeyboardLayout | src/main.rs:32-50 | the i-th key of the row requests the note i semitones above C of the current octave, and keeps the octave |
| Keys.SpaceSilences | src/main.rs:152-154 | Space sets the request to silence and keeps the octave |
| Keys.OctaveKeys | src/main.rs:155-164 | from an octave in 0..8, `z` moves to `max(0, octave - 1)` and `x` to `min(8, octave + 1)`, and both keep the request |
| Keys.NoteKey | src/main.rs:165-170 | a mapped key requests the MIDI number of its note at `current_octave + offset` and keeps the octave |
| Keys.OtherEventsIgnored | src/main.rs:150-173 | unmapped characters, other key codes and non-key events or read errors change nothing |
| Keys.OctaveChanges | src/main.rs:155-164 | the octave changes exactly on `z` above octave 0 and on `x` below octave 8, and then by exactly one |
| Keys.RequestChanges | src/main.rs:152-170 | only Space and mapped keys can change the request |
| Keys.RequestedMidiBounds | src/main.rs:165-169 | through any events, every requested note stays within MIDI 12..122, well inside the source's 32-bit integers |
| Keys.OctaveStaysInRange | src/main.rs:155-164 | from an octave in 0..8, any sequence of events keeps the octave in 0..8 |
| Keys.InitialInRange | src/main.rs:102-107 | the loop starts at octave 3, which is in range, with silence requested |
| Keys.EscEndsSession | src/main.rs:171 | with Esc first at position k, the loop reads k + 1 events, quits, and ends in the state the k events before the Esc produce; nothing after the Esc has any effect |
| Keys.RequestedFrequency | src/main.rs:152-168 | the `f32` written to the shared cell: 0.0 for silence, the note's frequency otherwise; it has no ensures of its own, and SoundingIffNote states its sign |
| Keys.SoundingIffNote | src/main.rs:120 | under equal temperament the audio side's test `freq > 0.0` holds exactly when a note is requested |
| Output.FrameCount | src/main.rs:184 | the number of `chunks_mut(channels)` chunks is `len / channels` rounded up, counting a short final chunk |
| Output.FrameCountUnique | src/main.rs:184 | no other count has that ceiling property |
| Output.Fill | src/main.rs:184-189 | the reference fill has exactly the buffer's length |
| Output.FillAt | src/main.rs:184-189 | slot i of the fill holds generator value number `i / channels` |
| Output.FramesAreMonophonic | src/main.rs:185-188 | all slots of one frame hold the same value, so every channel carries the same signal |
| Output.WriteFrame | src/main.rs:186-188 | the inner loop writes the value into every slot of its frame and leaves the other slots alone |
| Output.WriteData | src/main.rs:180-190 | `write_data` draws exactly `ceil(len / channels)` values from the generator, in order, and leaves the buffer equal to the reference fill; its length is unchanged |

## Left out

- The envelope and oscillator closure `next_value` (`src/main.rs:110-135`) is left out. It is `f32` arithmetic and `sin`, and it does not clamp the amplitude, so a model over reals would misstate it. In `WriteData` its outputs are the sequence `samples`.
- `midi_to_freq` is floating point (`powf`). It is a parameter of the model. Its properties are stated as the `EqualTemperament` predicate and assumed wherever a lemma needs them. The `f64` to `f32` cast of the frequency is left out. `EqualTemperament` idealises `powf`: it takes doubling per octave as exact and every frequency as positive for every integer, whereas the program's `f32` frequency is only approximately doubled and rounds to 0.0 for MIDI numbers far below the range the keys reach (12..122, by `RequestedMidiBounds`), so `SoundingIffNote` describes the program for the notes the keys can request.
- The request keeps the MIDI number, not the frequency. `SoundingIffNote` links the two.
- The `Arc<Mutex<f32>>` shared between the audio callback and the control loop is left out because it is concurrency. The request is a plain variable of the dispatcher's state.
- Host, device and stream setup, the sample-format match, `build_output_stream` and `play` (`src/main.rs:70-96`, `139-147`) are left out because they are audio I/O.
- Terminal raw mode and the blocking `read()` are left out because they are terminal I/O. The input is a finite list of events. A list without Esc ends the model's loop, whereas the program would go on waiting for input.
- `lazy_static` initialisation, the diagnostics printed to the terminal, and the `T::from_sample` conversion are left out. The buffer's element type is an abstract `T`.
- WriteData: requires `channels > 0`, because `chunks_mut(0)` panics in the source. It also requires the generator sequence to hold at least one value per frame. The source's generator never runs out.
- NoteToMidi: uses unbounded integers where the source uses `i32`. `RequestedMidiBounds` shows that the notes the keys request stay within MIDI 12..122, so the source's arithmetic cannot overflow on them.

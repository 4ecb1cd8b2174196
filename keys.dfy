/**
 * The key dispatcher of the tone generator.
 *
 * The control loop reads one key event at a time and updates two pieces of
 * state: the current octave (initially 3, kept within 0..8) and the requested
 * note, which the audio side reads to decide what to play. Space silences,
 * `z` and `x` step the octave down and up, a character of KEY_MAP requests
 * that note at the current octave plus the key's offset, Esc ends the loop and
 * every other event is ignored. The requested frequency is 0.0 for silence and
 * the note's (positive) frequency otherwise; since the tuning is positive, the
 * request is modelled as Silent or the note's MIDI number.
 */
module Keys {
  import opened Notes

  /** The key codes the dispatcher distinguishes; `Other` stands for every
      other key code (Enter, arrows, function keys, ...). */
  datatype KeyCode = Char(c: char) | Esc | Other

  /** What one `read()` returns: a key event, or anything else (a mouse or
      resize event, or a read error), which the loop skips. */
  datatype InputEvent = Key(code: KeyCode) | Unread

  /** The requested frequency: 0.0 (silence) or the frequency of a MIDI note. */
  datatype Request = Silent | Note(midi: int)

  /** The dispatcher's state: `current_octave` and the requested frequency. */
  datatype Dispatcher = Dispatcher(octave: int, request: Request)

  /** What the loop does with one event: go on in a new state, or stop. */
  datatype Control = Continue(next: Dispatcher) | Break

  /** The result of a session over a finite list of events: the final state,
      how many events were read, and whether Esc ended the loop. */
  datatype Session = Session(state: Dispatcher, consumed: nat, quit: bool)

  const InitialOctave: int := 3
  const MinOctave: int := 0
  const MaxOctave: int := 8

  const Initial: Dispatcher := Dispatcher(InitialOctave, Silent)

  /** KEY_MAP's lookup: the two keyboard rows, from each key to a note name
      and an octave offset; None for a key that is not mapped. */
  function KeyMap(c: char): Option<(NoteName, int)>
  {
    match c
    case 'a' => Some(("C", 0))
    case 'w' => Some(("C#", 0))
    case 's' => Some(("D", 0))
    case 'e' => Some(("D#", 0))
    case 'd' => Some(("E", 0))
    case 'f' => Some(("F", 0))
    case 't' => Some(("F#", 0))
    case 'g' => Some(("G", 0))
    case 'y' => Some(("G#", 0))
    case 'h' => Some(("A", 0))
    case 'u' => Some(("A#", 0))
    case 'j' => Some(("B", 0))
    case 'k' => Some(("C", 1))
    case 'o' => Some(("C#", 1))
    case 'l' => Some(("D", 1))
    case _ => None
  }

  /** The mapped keys in the order of the semitones they play, counted from
      C of the current octave. */
  const KeyRow: string := "awsedftgyhujkol"

  ghost predicate InRange(s: Dispatcher)
  {
    MinOctave <= s.octave <= MaxOctave
  }

  /** The octave range's clamp: `max(0, min(8, o))`. */
  function Clamp(o: int): (r: int)
    ensures MinOctave <= r <= MaxOctave
    ensures MinOctave <= o <= MaxOctave ==> r == o
  {
    if o < MinOctave then MinOctave else if o > MaxOctave then MaxOctave else o
  }

  /** A character key: when KEY_MAP binds it, request the bound note at the
      current octave plus the binding's offset; otherwise change nothing. */
  function Press(s: Dispatcher, binding: Option<(NoteName, int)>): Dispatcher
  {
    match binding
    case Some((note, offset)) => Dispatcher(s.octave, Note(NoteToMidi(note, s.octave + offset)))
    case None => s
  }

  /** One arm of the `match code` in the control loop. */
  function Handle(s: Dispatcher, e: InputEvent): (r: Control)
    ensures r.Break? <==> e == Key(Esc)
    ensures r.Continue? && InRange(s) ==> InRange(r.next)
  {
    match e
    case Unread => Continue(s)
    case Key(code) =>
      match code
      case Char(' ') => Continue(Dispatcher(s.octave, Silent))
      case Char('z') => Continue(if s.octave > 0 then Dispatcher(s.octave - 1, s.request) else s)
      case Char('x') => Continue(if s.octave < 8 then Dispatcher(s.octave + 1, s.request) else s)
      case Char(c) => Continue(Press(s, KeyMap(c)))
      case Esc => Break
      case Other => Continue(s)
  }

  /** The session `Listen(s, events)` shifted by `k` events already read. */
  function After(r: Session, k: nat): Session
  {
    Session(r.state, r.consumed + k, r.quit)
  }

  /** The control loop over a finite list of events, from state `s`: it reads
      events up to and including the first Esc, or all of them when there is none. */
  function Listen(s: Dispatcher, events: seq<InputEvent>): (r: Session)
    ensures r.consumed <= |events|
    ensures r.quit ==> 0 < r.consumed && events[r.consumed - 1] == Key(Esc)
    ensures !r.quit ==> r.consumed == |events|
    ensures forall j :: 0 <= j < r.consumed - 1 ==> events[j] != Key(Esc)
    ensures !r.quit ==> forall j :: 0 <= j < |events| ==> events[j] != Key(Esc)
    decreases |events|
  {
    if events == [] then Session(s, 0, false)
    else match Handle(s, events[0])
      case Break => Session(s, 1, true)
      case Continue(t) => After(Listen(t, events[1..]), 1)
  }

  /** The control loop of `run`, reading `events` in order from the initial
      state; it returns the final octave and request, the number of events
      read and whether Esc ended it. */
  method InputLoop(events: seq<InputEvent>) returns (octave: int, request: Request, consumed: nat, quit: bool)
    ensures Session(Dispatcher(octave, request), consumed, quit) == Listen(Initial, events)
    ensures MinOctave <= octave <= MaxOctave
    ensures request.Note? ==> 12 <= request.midi <= 122
  {
    octave, request := InitialOctave, Silent;
    consumed, quit := 0, false;
    while consumed < |events|
      invariant consumed <= |events|
      invariant Listen(Initial, events) == After(Listen(Dispatcher(octave, request), events[consumed..]), consumed)
    {
      var e := events[consumed];
      ghost var before := Dispatcher(octave, request);
      ghost var rest := events[consumed..];
      assert rest[0] == e && rest[1..] == events[consumed + 1..];
      consumed := consumed + 1;
      if e.Key? {
        match e.code
        case Char(' ') =>
          request := Silent;
        case Char('z') =>
          if octave > 0 {
            octave := octave - 1;
          }
        case Char('x') =>
          if octave < 8 {
            octave := octave + 1;
          }
        case Char(c) =>
          var binding := KeyMap(c);
          if binding.Some? {
            request := Note(NoteToMidi(binding.value.0, octave + binding.value.1));
          }
        case Esc =>
          assert Listen(before, rest) == Session(before, 1, true);
          quit := true;
          break;
        case Other =>
      }
      assert Handle(before, e).Continue?;
      assert Handle(before, e).next.octave == octave;
      assert Handle(before, e).next.request == request;
      assert Listen(before, rest) == After(Listen(Dispatcher(octave, request), events[consumed..]), 1);
    }
    RequestedMidiBounds(Initial, events);
  }

  /** KEY_MAP binds the i-th key of the row to the note of pitch class
      `i % 12` with octave offset `i / 12`. */
  lemma KeyRowBindings()
    ensures forall i :: 0 <= i < |KeyRow| ==> KeyMap(KeyRow[i]) == Some((NoteMapping[i % 12].0, i / 12))
  {
  }

  /** The mapped keys are exactly those of the row, so Space, `z` and `x`
      are not mapped and their arms of the match come first harmlessly. */
  lemma MappedKeysInRow(c: char)
    ensures KeyMap(c).Some? <==> c in KeyRow
    ensures KeyMap(c).Some? ==> c != ' ' && c != 'z' && c != 'x'
  {
  }

  /** Every mapped key names a note of the table and has offset 0 or 1, so the
      pitch-class fallback never applies to a dispatched key. */
  lemma KeyMapWellFormed(c: char)
    requires KeyMap(c).Some?
    ensures IndexOf(NoteMapping, KeyMap(c).value.0).Some?
    ensures 0 <= KeyMap(c).value.1 <= 1
  {
    MappedKeysInRow(c);
    var i :| 0 <= i < |KeyRow| && KeyRow[i] == c;
    KeyRowBindings();
    assert NoteMapping[i % 12].0 == KeyMap(c).value.0;
  }

  /** A character other than Space, `z` and `x` goes to the KEY_MAP arm. */
  lemma HandleChar(s: Dispatcher, c: char)
    requires c != ' ' && c != 'z' && c != 'x'
    ensures Handle(s, Key(Char(c))) == Continue(Press(s, KeyMap(c)))
  {
  }

  /** The mapped keys play consecutive semitones: the i-th key of the row plays
      i semitones above C of the current octave. */
  lemma KeyboardLayout(s: Dispatcher, i: nat)
    requires i < |KeyRow|
    ensures KeyMap(KeyRow[i]).Some?
    ensures Handle(s, Key(Char(KeyRow[i]))).Continue?
    ensures Handle(s, Key(Char(KeyRow[i]))).next.octave == s.octave
    ensures Handle(s, Key(Char(KeyRow[i]))).next.request == Note(12 * (s.octave + 1) + i)
  {
    KeyRowBindings();
    PitchClassOfEntry(i % 12);
    NoteKey(s, KeyRow[i]);
  }

  /** Space requests silence and keeps the octave. */
  lemma SpaceSilences(s: Dispatcher)
    ensures Handle(s, Key(Char(' '))) == Continue(Dispatcher(s.octave, Silent))
  {
  }

  /** `z` and `x` move the octave down and up within 0..8 and keep the request. */
  lemma OctaveKeys(s: Dispatcher)
    requires InRange(s)
    ensures Handle(s, Key(Char('z'))) == Continue(Dispatcher(Clamp(s.octave - 1), s.request))
    ensures Handle(s, Key(Char('x'))) == Continue(Dispatcher(Clamp(s.octave + 1), s.request))
  {
  }

  /** A mapped key requests its note at the current octave plus its offset,
      and keeps the octave. */
  lemma NoteKey(s: Dispatcher, c: char)
    requires KeyMap(c).Some?
    ensures Handle(s, Key(Char(c))).Continue?
    ensures Handle(s, Key(Char(c))).next.octave == s.octave
    ensures Handle(s, Key(Char(c))).next.request == Note(NoteToMidi(KeyMap(c).value.0, s.octave + KeyMap(c).value.1))
  {
    MappedKeysInRow(c);
    HandleChar(s, c);
  }

  /** Unmapped characters, other key codes and non-key events change nothing. */
  lemma OtherEventsIgnored(s: Dispatcher, e: InputEvent)
    requires e == Unread || e == Key(Other) || (e.Key? && e.code.Char? && KeyMap(e.code.c).None? && e.code.c != ' ' && e.code.c != 'z' && e.code.c != 'x')
    ensures Handle(s, e) == Continue(s)
  {
  }

  /** The octave changes exactly on `z` above the lowest octave and on `x`
      below the highest, and then by one. */
  lemma OctaveChanges(s: Dispatcher, e: InputEvent)
    requires InRange(s) && e != Key(Esc)
    ensures Handle(s, e).next.octave != s.octave <==>
      (e == Key(Char('z')) && s.octave > MinOctave) || (e == Key(Char('x')) && s.octave < MaxOctave)
    ensures -1 <= Handle(s, e).next.octave - s.octave <= 1
  {
  }

  /** Only Space and the mapped keys change the request. */
  lemma RequestChanges(s: Dispatcher, e: InputEvent)
    requires e != Key(Esc)
    requires Handle(s, e).next.request != s.request
    ensures e == Key(Char(' ')) || (e.Key? && e.code.Char? && KeyMap(e.code.c).Some?)
  {
  }

  /** From a state in range, every requested note is a MIDI note between C0
      (12) and D9 (122), well inside the 32-bit integers of the source. */
  lemma {:induction false} RequestedMidiBounds(s: Dispatcher, events: seq<InputEvent>)
    requires InRange(s) && (s.request.Note? ==> 12 <= s.request.midi <= 122)
    ensures var t := Listen(s, events).state; InRange(t) && (t.request.Note? ==> 12 <= t.request.midi <= 122)
    decreases |events|
  {
    if events != [] && events[0] != Key(Esc) {
      var e := events[0];
      if e.Key? && e.code.Char? && KeyMap(e.code.c).Some? {
        MappedKeysInRow(e.code.c);
        var i :| 0 <= i < |KeyRow| && KeyRow[i] == e.code.c;
        KeyboardLayout(s, i);
      }
      RequestedMidiBounds(Handle(s, e).next, events[1..]);
    }
  }

  /** From any state whose octave is in 0..8, whatever its request, any
      events keep the octave within 0..8. Unlike RequestedMidiBounds it makes
      no assumption about the request the session starts with. */
  lemma {:induction false} OctaveStaysInRange(s: Dispatcher, events: seq<InputEvent>)
    requires InRange(s)
    ensures InRange(Listen(s, events).state)
    decreases |events|
  {
    if events != [] && events[0] != Key(Esc) {
      OctaveStaysInRange(Handle(s, events[0]).next, events[1..]);
    }
  }

  lemma InitialInRange()
    ensures InRange(Initial) && Initial.request == Silent
  {
  }

  /** Esc ends the loop: nothing after the first Esc is read, and the state
      afterwards is the one the events before it produced. */
  lemma {:induction false} EscEndsSession(s: Dispatcher, pre: seq<InputEvent>, post: seq<InputEvent>)
    requires forall j :: 0 <= j < |pre| ==> pre[j] != Key(Esc)
    ensures Listen(s, pre + [Key(Esc)] + post) == Session(Listen(s, pre).state, |pre| + 1, true)
    decreases |pre|
  {
    var events := pre + [Key(Esc)] + post;
    if pre == [] {
      assert events[0] == Key(Esc);
    } else {
      assert events[0] == pre[0];
      assert events[1..] == pre[1..] + [Key(Esc)] + post;
      EscEndsSession(Handle(s, pre[0]).next, pre[1..], post);
    }
  }

  /** The requested frequency the audio side reads: 0.0 for silence, the
      note's frequency under the tuning otherwise. */
  function RequestedFrequency(midiToFreq: int -> real, r: Request): real
  {
    match r
    case Silent => 0.0
    case Note(m) => midiToFreq(m)
  }

  /** Under equal temperament the audio side's test `freq > 0.0` holds exactly
      when a note is requested. */
  lemma SoundingIffNote(midiToFreq: int -> real, r: Request)
    requires EqualTemperament(midiToFreq)
    ensures RequestedFrequency(midiToFreq, r) > 0.0 <==> r.Note?
  {
  }
}

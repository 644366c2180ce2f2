/** The musical keyboard: a state machine that turns key presses and releases
    into optional note-on and note-off events. The transitions are first given
    as functions on a value of the keyboard's state; the class MusicalKeyboard
    then updates its fields in place and is proved to follow them. */
module Keyboard {
  import opened Notes

  const MIN_OCTAVE: int := -2
  const MAX_OCTAVE: int := 12
  const VELOCITY_STEP: real := 0.05

  /** The three fields of the keyboard: base octave, velocity, and for every
      held note key the absolute octave stored for it. */
  datatype KeyboardState = KeyboardState(octave: int, velocity: real, pressed: map<Key, int>)

  /** `maybe_note_on`: a note key is (re)inserted with its current absolute
      octave; a note-on is emitted only if the key was not held before. */
  function NoteOnStep(s: KeyboardState, key: Key): (KeyboardState, Option<NoteOn>) {
    match MaybeNote(key, s.octave)
    case None => (s, None)
    case Some((letter, octave)) =>
      (s.(pressed := s.pressed[key := octave]),
       if key in s.pressed then None else Some(NoteOn(letter, octave, s.velocity)))
  }

  /** `maybe_note_off` (and `key_released`, which only delegates to it): a note
      key is removed; the note-off carries the stored octave if there was one,
      otherwise the current absolute octave. */
  function NoteOffStep(s: KeyboardState, key: Key): (KeyboardState, Option<NoteOff>) {
    match MaybeNote(key, s.octave)
    case None => (s, None)
    case Some((letter, octave)) =>
      if key in s.pressed then
        (s.(pressed := s.pressed - {key}), Some(NoteOff(letter, s.pressed[key])))
      else
        (s, Some(NoteOff(letter, octave)))
  }

  /** `key_pressed`: the modifier keys step the octave or the velocity under a
      guard and emit nothing; every other key goes to `maybe_note_on`. */
  function PressStep(s: KeyboardState, key: Key): (KeyboardState, Option<NoteOn>) {
    match key
    case Z => (if s.octave > MIN_OCTAVE then s.(octave := s.octave - 1) else s, None)
    case X => (if s.octave < MAX_OCTAVE then s.(octave := s.octave + 1) else s, None)
    case C => (if s.velocity > 0.0 then s.(velocity := s.velocity - VELOCITY_STEP) else s, None)
    case V => (if s.velocity < 1.0 then s.(velocity := s.velocity + VELOCITY_STEP) else s, None)
    case _ => NoteOnStep(s, key)
  }

  /** A velocity in [0, 1] that is a whole multiple of the 0.05 step. */
  predicate OnVelocityGrid(v: real) {
    0.0 <= v <= 1.0 && (v * 20.0).Floor as real == v * 20.0
  }

  /** The base octave lies in [-2, 12]. */
  predicate OctaveInRange(s: KeyboardState) {
    MIN_OCTAVE <= s.octave <= MAX_OCTAVE
  }

  /** Only note keys are held; the modifier keys never enter the map. */
  predicate OnlyNoteKeys(s: KeyboardState) {
    forall k :: k in s.pressed ==> !IsModifier(k)
  }

  /** What holds of a keyboard started in range and on the velocity grid and
      stepped only by its own operations: the octave in [-2, 12], the velocity
      on the 0.05 grid in [0, 1], and only note keys held. */
  predicate Consistent(s: KeyboardState) {
    OctaveInRange(s) && OnVelocityGrid(s.velocity) && OnlyNoteKeys(s)
  }

  // ---------------------------------------------------------------------
  // Properties of single transitions

  /** Z lowers the octave by exactly one iff it is above -2, X raises it by
      exactly one iff it is below 12; otherwise the octave stays. Neither
      emits a note or touches the velocity or the held keys. */
  lemma OctaveKeys(s: KeyboardState)
    ensures var (down, r) := PressStep(s, Key.Z);
      r == None && down.velocity == s.velocity && down.pressed == s.pressed &&
      (down.octave == s.octave - 1 <==> s.octave > MIN_OCTAVE) &&
      (down.octave != s.octave - 1 ==> down.octave == s.octave)
    ensures var (up, r) := PressStep(s, Key.X);
      r == None && up.velocity == s.velocity && up.pressed == s.pressed &&
      (up.octave == s.octave + 1 <==> s.octave < MAX_OCTAVE) &&
      (up.octave != s.octave + 1 ==> up.octave == s.octave)
  {
  }

  /** Pressing any key keeps an in-range base octave in range; releasing a
      key never changes the octave. */
  lemma OctaveStaysInRange(s: KeyboardState, key: Key)
    requires OctaveInRange(s)
    ensures OctaveInRange(PressStep(s, key).0)
    ensures NoteOffStep(s, key).0.octave == s.octave
  {
  }

  /** C lowers the velocity by 0.05 iff it is above 0, V raises it by 0.05
      iff it is below 1; the guard is the only check and nothing is clamped.
      Neither emits a note or touches the octave or the held keys. */
  lemma VelocityKeys(s: KeyboardState)
    ensures var (down, r) := PressStep(s, Key.C);
      r == None && down.octave == s.octave && down.pressed == s.pressed &&
      down.velocity == (if s.velocity > 0.0 then s.velocity - VELOCITY_STEP else s.velocity)
    ensures var (up, r) := PressStep(s, Key.V);
      r == None && up.octave == s.octave && up.pressed == s.pressed &&
      up.velocity == (if s.velocity < 1.0 then s.velocity + VELOCITY_STEP else s.velocity)
  {
  }

  /** Without clamping, a velocity just below 1 overshoots to 1.04 and one
      just above 0 undershoots to -0.04. */
  lemma VelocityIsNotClamped()
    ensures PressStep(KeyboardState(2, 0.99, map[]), Key.V).0.velocity == 1.04
    ensures PressStep(KeyboardState(2, 0.01, map[]), Key.C).0.velocity == -0.04
  {
  }

  /** A modifier press emits nothing and leaves the held keys alone. */
  lemma ModifierPressKeepsHeldKeys(s: KeyboardState, key: Key)
    requires IsModifier(key)
    ensures PressStep(s, key).1 == None
    ensures PressStep(s, key).0.pressed == s.pressed
  {
  }

  /** A modifier release emits nothing and changes no state at all. */
  lemma ModifierReleaseChangesNothing(s: KeyboardState, key: Key)
    requires IsModifier(key)
    ensures NoteOffStep(s, key) == (s, None)
  {
  }

  /** Pressing a note key that is not held stores its absolute octave and
      emits a note-on with that octave and the current velocity; the octave,
      the velocity and every other held key are unchanged. */
  lemma FreshPress(s: KeyboardState, key: Key)
    requires !IsModifier(key) && key !in s.pressed
    ensures var (letter, octave) := MaybeNote(key, s.octave).value;
      var (next, r) := PressStep(s, key);
      r == Some(NoteOn(letter, octave, s.velocity)) &&
      octave == s.octave + (if Position(key) < 12 then 0 else 1) &&
      next.octave == s.octave && next.velocity == s.velocity &&
      next.pressed.Keys == s.pressed.Keys + {key} && next.pressed[key] == octave &&
      forall k :: k in s.pressed ==> next.pressed[k] == s.pressed[k]
  {
    MaybeNoteOffsets(key, s.octave);
  }

  /** Pressing a note key that is already held emits nothing, but the stored
      octave is overwritten with the current absolute octave (the map insert
      happens before the test). */
  lemma RepeatPress(s: KeyboardState, key: Key)
    requires !IsModifier(key) && key in s.pressed
    ensures var (next, r) := PressStep(s, key);
      r == None &&
      next == s.(pressed := s.pressed[key := MaybeNote(key, s.octave).value.1])
  {
  }

  /** Releasing a note key removes it and emits a note-off whose octave is the
      stored one if the key was held and the current absolute one if not;
      the octave, the velocity and every other held key are unchanged. */
  lemma ReleaseNote(s: KeyboardState, key: Key)
    requires !IsModifier(key)
    ensures var (letter, octave) := MaybeNote(key, s.octave).value;
      var (next, r) := NoteOffStep(s, key);
      r == Some(NoteOff(letter, if key in s.pressed then s.pressed[key] else octave)) &&
      next.octave == s.octave && next.velocity == s.velocity &&
      next.pressed.Keys == s.pressed.Keys - {key} &&
      forall k :: k in next.pressed ==> next.pressed[k] == s.pressed[k]
  {
  }

  /** A velocity on the grid stays on it under C and V, in exact arithmetic. */
  lemma VelocityStaysOnGrid(v: real)
    requires OnVelocityGrid(v)
    ensures v > 0.0 ==> OnVelocityGrid(v - VELOCITY_STEP)
    ensures v < 1.0 ==> OnVelocityGrid(v + VELOCITY_STEP)
  {
    var n := (v * 20.0).Floor;
    assert (v - VELOCITY_STEP) * 20.0 == (n - 1) as real;
    assert (v + VELOCITY_STEP) * 20.0 == (n + 1) as real;
  }

  /** Whatever the octave and velocity, both operations keep the modifier
      keys out of the map. */
  lemma StepsKeepOnlyNoteKeys(s: KeyboardState, key: Key)
    requires OnlyNoteKeys(s)
    ensures OnlyNoteKeys(PressStep(s, key).0)
    ensures OnlyNoteKeys(NoteOffStep(s, key).0)
  {
  }

  /** Both operations keep a consistent keyboard consistent. */
  lemma StepsPreserveConsistent(s: KeyboardState, key: Key)
    requires Consistent(s)
    ensures Consistent(PressStep(s, key).0)
    ensures Consistent(NoteOffStep(s, key).0)
  {
    VelocityStaysOnGrid(s.velocity);
  }

  /** The eighteen note keys. */
  const NOTE_KEYS: set<Key> :=
    {Key.A, Key.W, Key.S, Key.E, Key.D, Key.F, Key.T, Key.G, Key.Y, Key.H, Key.U, Key.J,
     Key.K, Key.O, Key.L, Key.P, Key.Semicolon, Key.Quote}

  lemma NoteKeysCount()
    ensures |NOTE_KEYS| == 18
  {
    var lower := {Key.A, Key.W, Key.S, Key.E, Key.D, Key.F, Key.T, Key.G, Key.Y, Key.H, Key.U, Key.J};
    var upper := {Key.K, Key.O, Key.L, Key.P, Key.Semicolon, Key.Quote};
    assert |lower| == 12;
    assert |upper| == 6;
    assert lower * upper == {};
    assert NOTE_KEYS == lower + upper;
  }

  lemma SubsetCardinality<T>(a: set<T>, b: set<T>)
    requires a <= b
    ensures |a| <= |b|
    decreases b
  {
    if a != {} {
      var x :| x in a;
      SubsetCardinality(a - {x}, b - {x});
    }
  }

  /** A keyboard that holds only note keys holds at most 18 of them. */
  lemma AtMostEighteenHeld(s: KeyboardState)
    requires OnlyNoteKeys(s)
    ensures |s.pressed| <= 18
  {
    NoteKeysCount();
    assert s.pressed.Keys <= NOTE_KEYS by {
      forall k | k in s.pressed ensures k in NOTE_KEYS {
        assert !IsModifier(k);
      }
    }
    SubsetCardinality(s.pressed.Keys, NOTE_KEYS);
  }

  // ---------------------------------------------------------------------
  // The keyboard object

  /** `MusicalKeyboard`: public fields that `key_pressed` and `key_released`
      update in place. */
  class MusicalKeyboard {
    var octave: int
    var velocity: real
    var currentlyPressedKeys: map<Key, int>

    /** The keyboard's fields as a value. */
    function State(): KeyboardState
      reads this
    {
      KeyboardState(octave, velocity, currentlyPressedKeys)
    }

    /** `new`: the given octave and velocity, unchecked, and nothing held. */
    constructor (octave: int, velocity: real)
      ensures this.octave == octave && this.velocity == velocity
      ensures currentlyPressedKeys == map[]
      ensures OnlyNoteKeys(State())
    {
      this.octave := octave;
      this.velocity := velocity;
      currentlyPressedKeys := map[];
    }

    /** `default`: octave 2, full velocity, nothing held. */
    constructor Default()
      ensures octave == 2 && velocity == 1.0 && currentlyPressedKeys == map[]
      ensures Consistent(State())
    {
      octave := 2;
      velocity := 1.0;
      currentlyPressedKeys := map[];
    }

    method KeyPressed(key: Key) returns (r: Option<NoteOn>)
      modifies this
      ensures (State(), r) == PressStep(old(State()), key)
      ensures OctaveInRange(old(State())) ==> OctaveInRange(State())
      ensures OnlyNoteKeys(old(State())) ==> OnlyNoteKeys(State())
      ensures Consistent(old(State())) ==> Consistent(State())
    {
      ghost var before := State();
      r := None;
      match key {
        case Z => if octave > MIN_OCTAVE { octave := octave - 1; }
        case X => if octave < MAX_OCTAVE { octave := octave + 1; }
        case C => if velocity > 0.0 { velocity := velocity - VELOCITY_STEP; }
        case V => if velocity < 1.0 { velocity := velocity + VELOCITY_STEP; }
        case _ => r := MaybeNoteOn(key);
      }
      if OnlyNoteKeys(before) {
        StepsKeepOnlyNoteKeys(before, key);
      }
      if OctaveInRange(before) {
        OctaveStaysInRange(before, key);
      }
      if Consistent(before) {
        StepsPreserveConsistent(before, key);
      }
    }

    method KeyReleased(key: Key) returns (r: Option<NoteOff>)
      modifies this
      ensures (State(), r) == NoteOffStep(old(State()), key)
      ensures State().octave == old(octave)
      ensures OnlyNoteKeys(old(State())) ==> OnlyNoteKeys(State())
      ensures Consistent(old(State())) ==> Consistent(State())
    {
      ghost var before := State();
      r := MaybeNoteOff(key);
      if OnlyNoteKeys(before) {
        StepsKeepOnlyNoteKeys(before, key);
      }
      if Consistent(before) {
        StepsPreserveConsistent(before, key);
      }
    }

    method MaybeNoteOn(key: Key) returns (r: Option<NoteOn>)
      modifies this
      ensures (State(), r) == NoteOnStep(old(State()), key)
    {
      match MaybeNote(key, octave) {
        case None => r := None;
        case Some((letter, noteOctave)) =>
          // a map insert that reports the value it replaced
          var replaced := if key in currentlyPressedKeys then Some(currentlyPressedKeys[key]) else None;
          currentlyPressedKeys := currentlyPressedKeys[key := noteOctave];
          match replaced {
            case Some(_) => r := None;
            case None => r := Some(NoteOn(letter, noteOctave, velocity));
          }
      }
    }

    method MaybeNoteOff(key: Key) returns (r: Option<NoteOff>)
      modifies this
      ensures (State(), r) == NoteOffStep(old(State()), key)
    {
      match MaybeNote(key, octave) {
        case None => r := None;
        case Some((letter, noteOctave)) =>
          // a map remove that reports the value it removed
          var removed := if key in currentlyPressedKeys then Some(currentlyPressedKeys[key]) else None;
          currentlyPressedKeys := currentlyPressedKeys - {key};
          match removed {
            case None =>
              assert currentlyPressedKeys == old(currentlyPressedKeys);
              r := Some(NoteOff(letter, noteOctave));
            case Some(oldOctave) => r := Some(NoteOff(letter, oldOctave));
          }
      }
    }
  }
}

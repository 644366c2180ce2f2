/** Properties of the keyboard over whole sequences of key events. */
module KeyboardProperties {
  import opened Notes
  import opened Keyboard

  /** One event delivered by the host. */
  datatype Event = Pressed(key: Key) | Released(key: Key)

  /** One event applied to the state, its output as a single note-event stream. */
  function Step(s: KeyboardState, e: Event): (KeyboardState, Option<NoteEvent>) {
    match e
    case Pressed(k) =>
      var (next, on) := PressStep(s, k);
      (next, if on.Some? then Some(On(on.value)) else None)
    case Released(k) =>
      var (next, off) := NoteOffStep(s, k);
      (next, if off.Some? then Some(Off(off.value)) else None)
  }

  /** A sequence of events applied in order: the final state and one output
      per event. */
  function Run(s: KeyboardState, events: seq<Event>): (r: (KeyboardState, seq<Option<NoteEvent>>))
    ensures |r.1| == |events|
    decreases |events|
  {
    if events == [] then (s, [])
    else
      var (next, out) := Step(s, events[0]);
      var (last, outs) := Run(next, events[1..]);
      (last, [out] + outs)
  }

  /** The keyboard built by `default`. */
  const DEFAULT := KeyboardState(2, 1.0, map[])

  /** Started consistent, the keyboard stays consistent under any events:
      the octave stays in [-2, 12], the velocity on the 0.05 grid in [0, 1]
      (in exact arithmetic), and only note keys are ever held. */
  lemma {:induction false} RunPreservesConsistent(s: KeyboardState, events: seq<Event>)
    requires Consistent(s)
    ensures Consistent(Run(s, events).0)
    decreases |events|
  {
    if events != [] {
      StepsPreserveConsistent(s, events[0].key);
      RunPreservesConsistent(Step(s, events[0]).0, events[1..]);
    }
  }

  /** From any octave and velocity, whatever the events, the map holds only
      note keys. */
  lemma {:induction false} RunKeepsOnlyNoteKeys(s: KeyboardState, events: seq<Event>)
    requires OnlyNoteKeys(s)
    ensures OnlyNoteKeys(Run(s, events).0)
    decreases |events|
  {
    if events != [] {
      StepsKeepOnlyNoteKeys(s, events[0].key);
      RunKeepsOnlyNoteKeys(Step(s, events[0]).0, events[1..]);
    }
  }

  /** Whatever the velocity and the events, an octave in [-2, 12] stays there. */
  lemma {:induction false} RunKeepsOctaveInRange(s: KeyboardState, events: seq<Event>)
    requires OctaveInRange(s)
    ensures OctaveInRange(Run(s, events).0)
    decreases |events|
  {
    if events != [] {
      OctaveStaysInRange(s, events[0].key);
      RunKeepsOctaveInRange(Step(s, events[0]).0, events[1..]);
    }
  }

  /** A keyboard made by `new`, with any octave and velocity, holds only note
      keys, and at most 18 of them, whatever the events. */
  lemma NewKeyboardHoldsAtMostEighteen(octave: int, velocity: real, events: seq<Event>)
    ensures var s := Run(KeyboardState(octave, velocity, map[]), events).0;
      OnlyNoteKeys(s) && |s.pressed| <= 18
  {
    RunKeepsOnlyNoteKeys(KeyboardState(octave, velocity, map[]), events);
    AtMostEighteenHeld(Run(KeyboardState(octave, velocity, map[]), events).0);
  }

  /** From `default`, whatever the events, the octave stays in [-2, 12], the
      velocity in [0, 1] (in exact arithmetic: the velocity is a real here,
      not the crate's `f32`), and at most the 18 note keys are held. */
  lemma DefaultStaysInRange(events: seq<Event>)
    ensures var s := Run(DEFAULT, events).0;
      MIN_OCTAVE <= s.octave <= MAX_OCTAVE && 0.0 <= s.velocity <= 1.0 &&
      (forall k :: k in s.pressed ==> !IsModifier(k)) && |s.pressed| <= 18
  {
    assert Consistent(DEFAULT);
    RunPreservesConsistent(DEFAULT, events);
    AtMostEighteenHeld(Run(DEFAULT, events).0);
  }

  /** An event that neither presses nor releases a held key keeps that key
      held with the same stored octave. */
  lemma {:induction false} OtherEventsKeepStoredOctave(s: KeyboardState, key: Key, events: seq<Event>)
    requires key in s.pressed
    requires forall i :: 0 <= i < |events| ==> events[i].key != key
    ensures key in Run(s, events).0.pressed
    ensures Run(s, events).0.pressed[key] == s.pressed[key]
    decreases |events|
  {
    if events != [] {
      var next := Step(s, events[0]).0;
      assert key in next.pressed && next.pressed[key] == s.pressed[key];
      OtherEventsKeepStoredOctave(next, key, events[1..]);
    }
  }

  /** Pairing: after a fresh press of a note key, any events that neither
      press nor release that key (octave and velocity changes included)
      leave the next release of the key emitting a note-off at exactly the
      letter and octave of the note-on. */
  lemma {:induction false} NoteOffMatchesNoteOn(s: KeyboardState, key: Key, events: seq<Event>)
    requires !IsModifier(key) && key !in s.pressed
    requires forall i :: 0 <= i < |events| ==> events[i].key != key
    ensures var (held, on) := PressStep(s, key);
      on.Some? &&
      NoteOffStep(Run(held, events).0, key).1 == Some(NoteOff(on.value.letter, on.value.octave))
  {
    var (held, on) := PressStep(s, key);
    OtherEventsKeepStoredOctave(held, key, events);
  }

  /** A held key stays held through any events that do not release it, so
      every further press of it is suppressed. */
  lemma {:induction false} HeldUntilReleased(s: KeyboardState, key: Key, events: seq<Event>)
    requires key in s.pressed
    requires Released(key) !in events
    ensures key in Run(s, events).0.pressed
    ensures PressStep(Run(s, events).0, key).1 == None
    decreases |events|
  {
    if events != [] {
      assert events[0] != Released(key);
      assert key in Step(s, events[0]).0.pressed;
      assert Released(key) !in events[1..] by {
        assert forall i :: 0 <= i < |events| - 1 ==> events[1..][i] == events[i + 1];
      }
      HeldUntilReleased(Step(s, events[0]).0, key, events[1..]);
    }
  }

  /** The same key pressed n times in a row. */
  function Presses(key: Key, n: nat): (r: seq<Event>)
    ensures |r| == n && forall i :: 0 <= i < n ==> r[i] == Pressed(key)
  {
    seq(n, _ => Pressed(key))
  }

  /** Repeat suppression: pressing a key that is not yet held n >= 1 times in a
      row (key repeat) yields exactly one note-on, from the first press. */
  lemma RepeatedPressesEmitOneNoteOn(s: KeyboardState, key: Key, n: nat)
    requires !IsModifier(key) && key !in s.pressed && n >= 1
    ensures var outs := Run(s, Presses(key, n)).1;
      outs[0].Some? && outs[0].value.On? &&
      forall i :: 1 <= i < n ==> outs[i] == None
  {
    var events := Presses(key, n);
    assert events == [Pressed(key)] + Presses(key, n - 1);
    var next := Step(s, Pressed(key)).0;
    HeldPressesEmitNothing(next, key, n - 1);
  }

  /** Any number of presses of a key that is already held emit nothing. */
  lemma {:induction false} HeldPressesEmitNothing(s: KeyboardState, key: Key, n: nat)
    requires key in s.pressed
    ensures forall i :: 0 <= i < n ==> Run(s, Presses(key, n)).1[i] == None
    decreases n
  {
    if n > 0 {
      var events := Presses(key, n);
      assert events[1..] == Presses(key, n - 1);
      var next := Step(s, Pressed(key)).0;
      assert key in next.pressed;
      HeldPressesEmitNothing(next, key, n - 1);
    }
  }

  /** Because a repeated press still overwrites the stored octave, a repeat
      after an octave change moves the note-off away from the note-on:
      press A, raise the octave, press A again, release A. */
  lemma RepeatAfterOctaveChangeMovesNoteOff()
    ensures Run(DEFAULT, [Pressed(Key.A), Pressed(Key.X), Pressed(Key.A), Released(Key.A)]).1 ==
      [Some(On(NoteOn(Letter.C, 2, 1.0))), None, None, Some(Off(NoteOff(Letter.C, 3)))]
  {
  }

  /** Releasing a key that was never pressed still emits a note-off, at the
      current absolute octave. */
  lemma SpuriousRelease()
    ensures Run(DEFAULT, [Released(Key.F)]).1 == [Some(Off(NoteOff(Letter.F, 2)))]
  {
  }
}

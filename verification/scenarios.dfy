/** A client of MusicalKeyboard: what a caller can conclude from the class's
    contracts alone, for a few short sessions on a default keyboard. */
module KeyboardScenarios {
  import opened Notes
  import opened Keyboard

  method PressAndRelease() {
    var kb := new MusicalKeyboard.Default();
    var on := kb.KeyPressed(Key.A);
    assert on == Some(NoteOn(Letter.C, 2, 1.0));
    var off := kb.KeyReleased(Key.A);
    assert off == Some(NoteOff(Letter.C, 2));
  }

  method KeyRepeatIsSuppressed() {
    var kb := new MusicalKeyboard.Default();
    var on := kb.KeyPressed(Key.A);
    on := kb.KeyPressed(Key.A);
    assert on == None;
    var off := kb.KeyReleased(Key.A);
    assert off == Some(NoteOff(Letter.C, 2));
  }

  method OctaveChangeWhileHeld() {
    // an octave change while held does not move the note-off
    var kb := new MusicalKeyboard.Default();
    var on := kb.KeyPressed(Key.A);
    assert on == Some(NoteOn(Letter.C, 2, 1.0));
    on := kb.KeyPressed(Key.X);
    assert on == None && kb.octave == 3;
    var off := kb.KeyReleased(Key.A);
    assert off == Some(NoteOff(Letter.C, 2));
  }

  method UpperOctaveAndSpuriousRelease() {
    // K is the C one octave above A
    var kb := new MusicalKeyboard.Default();
    var on := kb.KeyPressed(Key.K);
    assert on == Some(NoteOn(Letter.C, 3, 1.0));
    // a release without a press is reported at the current octave
    var off := kb.KeyReleased(Key.F);
    assert off == Some(NoteOff(Letter.F, 2));
  }

  method ModifierSessions() {
    var kb := new MusicalKeyboard.Default();
    // V is blocked at full velocity, C steps down by 0.05
    var on := kb.KeyPressed(Key.V);
    assert kb.velocity == 1.0;
    on := kb.KeyPressed(Key.C);
    assert kb.velocity == 0.95;
    on := kb.KeyPressed(Key.A);
    assert on == Some(NoteOn(Letter.C, 2, 0.95));

    // X stops at octave 12
    var top := new MusicalKeyboard(12, 1.0);
    on := top.KeyPressed(Key.X);
    on := top.KeyPressed(Key.X);
    assert top.octave == 12 && on == None;
  }
}

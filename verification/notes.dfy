/** Pitch vocabulary, keys and events of the musical keyboard, and the fixed
    table that lays two chromatic octaves over the home row and top row. */
module Notes {

  datatype Option<T> = None | Some(value: T)

  /** The twelve semitone letters of the Western chromatic scale, from C upward. */
  datatype Letter = C | Csh | D | Dsh | E | F | Fsh | G | Gsh | A | Ash | B

  /** Keys accepted by the keyboard, in declaration order: the 18 note keys,
      the two octave keys (Z down, X up) and the two velocity keys (C down, V up). */
  datatype Key =
    | A | W | S | E | D | F | T | G | Y | H | U | J
    | K | O | L | P | Semicolon | Quote
    | Z | X
    | C | V

  /** An octave is a signed integer; a velocity is modelled as an exact real. */
  datatype NoteOn = NoteOn(letter: Letter, octave: int, velocity: real)

  datatype NoteOff = NoteOff(letter: Letter, octave: int)

  /** The single event stream; the constructors On and Off are the two `From`
      conversions from NoteOn and NoteOff. */
  datatype NoteEvent = On(on: NoteOn) | Off(off: NoteOff)

  /** The four keys that adjust the octave or the velocity instead of sounding. */
  predicate IsModifier(key: Key) {
    key.Z? || key.X? || key.C? || key.V?
  }

  /** Position of a key in the declaration of Key. */
  function Position(key: Key): nat {
    match key
    case A => 0   case W => 1   case S => 2   case E => 3
    case D => 4   case F => 5   case T => 6   case G => 7
    case Y => 8   case H => 9   case U => 10  case J => 11
    case K => 12  case O => 13  case L => 14  case P => 15
    case Semicolon => 16  case Quote => 17
    case Z => 18  case X => 19  case C => 20  case V => 21
  }

  /** Number of semitones from C up to the letter within one octave. */
  function Semitone(letter: Letter): nat {
    match letter
    case C => 0   case Csh => 1  case D => 2   case Dsh => 3
    case E => 4   case F => 5    case Fsh => 6 case G => 7
    case Gsh => 8 case A => 9    case Ash => 10 case B => 11
  }

  lemma PositionInjective(k1: Key, k2: Key)
    requires Position(k1) == Position(k2)
    ensures k1 == k2
  {
  }

  /** The fixed table: each note key's octave offset relative to the base
      octave, and its letter. Key A is the C of the base octave, key K the C
      of the octave above. The modifier keys have no entry. */
  function NoteTable(key: Key): Option<(int, Letter)> {
    match key
    case A         => Some((0, Letter.C))
    case W         => Some((0, Letter.Csh))
    case S         => Some((0, Letter.D))
    case E         => Some((0, Letter.Dsh))
    case D         => Some((0, Letter.E))
    case F         => Some((0, Letter.F))
    case T         => Some((0, Letter.Fsh))
    case G         => Some((0, Letter.G))
    case Y         => Some((0, Letter.Gsh))
    case H         => Some((0, Letter.A))
    case U         => Some((0, Letter.Ash))
    case J         => Some((0, Letter.B))
    case K         => Some((1, Letter.C))
    case O         => Some((1, Letter.Csh))
    case L         => Some((1, Letter.D))
    case P         => Some((1, Letter.Dsh))
    case Semicolon => Some((1, Letter.E))
    case Quote     => Some((1, Letter.F))
    case _         => None
  }

  /** The letter and absolute octave a key sounds at the given base octave
      (`maybe_note` reads nothing of the keyboard but its base octave).
      The n-th note key sounds n semitones above the C of the base octave,
      so the 18 note keys cover two adjacent chromatic octaves from C to F. */
  function MaybeNote(key: Key, baseOctave: int): (r: Option<(Letter, int)>)
    ensures r.Some? <==> !IsModifier(key)
    ensures r.Some? ==>
      Position(key) < 18 &&
      Semitone(r.value.0) == Position(key) % 12 &&
      r.value.1 == baseOctave + Position(key) / 12
  {
    match NoteTable(key)
    case None => None
    case Some((offset, letter)) => Some((letter, offset + baseOctave))
  }

  /** No two note keys sound the same (letter, octave) pair. */
  lemma MaybeNoteInjective(k1: Key, k2: Key, baseOctave: int)
    requires MaybeNote(k1, baseOctave).Some?
    requires MaybeNote(k1, baseOctave) == MaybeNote(k2, baseOctave)
    ensures k1 == k2
  {
    PositionInjective(k1, k2);
  }

  /** Keys A to J sit in the base octave, keys K to Quote one octave above. */
  lemma MaybeNoteOffsets(key: Key, baseOctave: int)
    requires !IsModifier(key)
    ensures MaybeNote(key, baseOctave).Some?
    ensures MaybeNote(key, baseOctave).value.1 ==
      baseOctave + (if Position(key) < 12 then 0 else 1)
  {
  }
}

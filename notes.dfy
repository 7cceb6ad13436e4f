/** Pitches, octaves and durations, and the two lookup tables that turn them
    into a relay frequency and into a number of duration-clock ticks. */
module Notes {

  /** A frequency in Hertz. */
  type Hertz = nat

  /** An unsigned 8-bit integer, the type of a duration's tick count and of
      a player's duration counter. */
  type U8 = x: int | 0 <= x < 256

  datatype Option<T> = None | Some(value: T)

  /** The eight pitch classes the program knows about (Fs is F sharp). */
  datatype Pitch = C | D | E | F | Fs | G | A | B

  /** A pitch class played in a given octave. */
  datatype Note = Note(pitch: Pitch, octave: nat)

  datatype Duration = Whole | Half | OneFourth | OneEigth | OneSixteenth

  /** One entry of a melody: which note, and for how long. */
  type Entry = (Note, Duration)

  /** The melody of one channel, played in a loop. */
  type Track = seq<Entry>

  /** The relay frequency table. `None` stands for the arms that end in
      `todo!`, i.e. a panic. */
  function FrequencyTable(n: Note): (r: Option<Hertz>)
    ensures r.Some? ==> r.value > 0
  {
    match n.pitch
    case C => (match n.octave case 3 => Some(330) case 4 => Some(523) case 5 => Some(1045) case _ => None)
    case D => (match n.octave case 3 => Some(294) case 4 => Some(587) case 5 => Some(1174) case _ => None)
    case E => (match n.octave case 3 => Some(330) case 4 => Some(659) case _ => None)
    case F => (match n.octave case 3 => Some(350) case 4 => Some(698) case _ => None)
    case Fs => (match n.octave case 3 => Some(371) case 4 => Some(745) case _ => None)
    case G => (match n.octave case 3 => Some(393) case 4 => Some(784) case _ => None)
    case A => (match n.octave case 3 => Some(440) case 4 => Some(880) case _ => None)
    case B => (match n.octave case 3 => Some(394) case 4 => Some(989) case _ => None)
  }

  /** A note the frequency table has an entry for; looking up any other
      note panics. */
  predicate Supported(n: Note) {
    FrequencyTable(n).Some?
  }

  /** The frequency the relay of a channel is toggled at for note `n`. */
  function NoteToRelayFrequence(n: Note): (r: Hertz)
    requires Supported(n)
    ensures r > 0
    ensures FrequencyTable(n) == Some(r)
  {
    FrequencyTable(n).value
  }

  /** The number of duration-clock ticks a duration stands for. */
  function Ticks(d: Duration): (r: U8)
    ensures 1 <= r <= 16
  {
    match d
    case Whole => 16
    case Half => 8
    case OneFourth => 4
    case OneEigth => 2
    case OneSixteenth => 1
  }

  /** A track a player can play for ever without panicking: it is not empty
      (the index is reduced modulo its length and used unchecked) and every
      note in it has a frequency. */
  predicate WellFormed(t: Track) {
    |t| > 0 && forall i :: 0 <= i < |t| ==> Supported(t[i].0)
  }

  /** The table is defined on octaves 3 and 4 of every pitch and on octave 5
      of C and D, and nowhere else. */
  lemma SupportedDomain(n: Note)
    ensures Supported(n) <==>
      n.octave == 3 || n.octave == 4 || (n.octave == 5 && (n.pitch == C || n.pitch == D))
  {
  }

  /** For each pitch, a higher supported octave sounds strictly higher. */
  lemma OctaveRaisesFrequency(n: Note, m: Note)
    requires Supported(n) && Supported(m)
    requires n.pitch == m.pitch && n.octave < m.octave
    ensures NoteToRelayFrequence(n) < NoteToRelayFrequence(m)
  {
  }

  /** A few entries of the table, as written in the source. */
  lemma TableEntries()
    ensures NoteToRelayFrequence(Note(A, 3)) == 440
    ensures NoteToRelayFrequence(Note(A, 4)) == 880
    ensures NoteToRelayFrequence(Note(D, 5)) == 1174
    ensures NoteToRelayFrequence(Note(Fs, 3)) == 371
    ensures NoteToRelayFrequence(Note(C, 3)) == 330
    ensures NoteToRelayFrequence(Note(C, 4)) == 523
    ensures NoteToRelayFrequence(Note(C, 5)) == 1045
  {
  }

  /** The tick table, and the fact that each duration is twice the next
      shorter one. */
  lemma TicksTable()
    ensures Ticks(Whole) == 16 && Ticks(Half) == 8 && Ticks(OneFourth) == 4
    ensures Ticks(OneEigth) == 2 && Ticks(OneSixteenth) == 1
    ensures Ticks(Whole) == 2 * Ticks(Half)
    ensures Ticks(Half) == 2 * Ticks(OneFourth)
    ensures Ticks(OneFourth) == 2 * Ticks(OneEigth)
    ensures Ticks(OneEigth) == 2 * Ticks(OneSixteenth)
  {
  }
}

/** One relay channel: a state machine that toggles its relay each time its
    note timer elapses, at the frequency the timer was last started with, and
    moves through its track as the shared duration clock ticks. On a note
    change the timer is restarted with the frequency of the note being left,
    so after the first note each note sounds at its predecessor's frequency.
    The pure functions below say what one call does to the player's
    fields; the class `NotePlayer` does it in place and is proved to agree
    with them. */
module NotePlayers {
  import opened Notes

  datatype NotePlayerStatus = Start | Up | Down

  /** The mutable fields of a player. The pin is its output level (true is
      high); the note timer is represented by the frequency it was last
      started with. */
  datatype PlayerState = PlayerState(
    currentNoteIdx: nat,
    durationCounter: U8,
    status: NotePlayerStatus,
    pinHigh: bool,
    timerFrequency: Hertz)

  /** The fields of a freshly built player, which owns a pin at level
      `pinHigh` and a timer running at `timerFrequency`. */
  function Initial(pinHigh: bool, timerFrequency: Hertz): (s: PlayerState)
    ensures s.currentNoteIdx == 0 && s.durationCounter == 0 && s.status == Start
    ensures s.pinHigh == pinHigh && s.timerFrequency == timerFrequency
  {
    PlayerState(0, 0, Start, pinHigh, timerFrequency)
  }

  /** What a call to `tick` needs so that it neither reads outside the track,
      divides by a zero length, overflows the counter nor reaches the
      frequency table's `todo!`. */
  predicate CanTick(track: Track, s: PlayerState) {
    |track| > 0 && s.currentNoteIdx < |track| && s.durationCounter < 255 &&
    Supported(track[s.currentNoteIdx].0)
  }

  /** The invariant every player keeps between calls. */
  predicate Inv(track: Track, s: PlayerState) {
    && WellFormed(track)
    && s.currentNoteIdx < |track|
    && s.durationCounter <= Ticks(track[s.currentNoteIdx].1)
    // `Start` is only seen before the first tick
    && (s.status == Start ==> s.currentNoteIdx == 0 && s.durationCounter == 0)
    // once playing, the pin is high exactly in the `Up` half of the wave
    && (s.status != Start ==> (s.pinHigh <==> s.status == Up))
  }

  /** The note at the current position and its duration. */
  function CurrentNote(track: Track, s: PlayerState): (e: Entry)
    requires s.currentNoteIdx < |track|
    ensures e in track
  {
    track[s.currentNoteIdx]
  }

  /** The fields after `increment_note`: the next position, in a loop, and
      back to `Start` so that the timer is reprogrammed. */
  function AfterIncrementNote(track: Track, s: PlayerState): (r: PlayerState)
    requires |track| > 0
    ensures r.currentNoteIdx < |track|
    ensures s.currentNoteIdx < |track| ==>
      r.currentNoteIdx == if s.currentNoteIdx == |track| - 1 then 0 else s.currentNoteIdx + 1
    ensures r.status == Start
    ensures r.durationCounter == s.durationCounter && r.pinHigh == s.pinHigh
    ensures r.timerFrequency == s.timerFrequency
  {
    s.(currentNoteIdx := (s.currentNoteIdx + 1) % |track|, status := Start)
  }

  /** True when a tick with this duration signal moves to the next note: the
      player is past `Start`, the signal is set and the counter already
      equals the note's tick count (it is compared before it is
      incremented). */
  predicate Advances(track: Track, s: PlayerState, hasDurationWrapped: bool)
    requires s.currentNoteIdx < |track|
  {
    s.status != Start && hasDurationWrapped &&
    s.durationCounter == Ticks(CurrentNote(track, s).1)
  }

  /** The fields after `increment_note_if_timer_wrapped(duration, wrapped)`. */
  function AfterIncrementIfWrapped(track: Track, s: PlayerState, duration: Duration,
                                   hasDurationWrapped: bool): (r: PlayerState)
    requires |track| > 0 && s.durationCounter < 255
    ensures s.status == Start || !hasDurationWrapped ==> r == s
    ensures s.status != Start && hasDurationWrapped && s.durationCounter == Ticks(duration) ==>
      r == AfterIncrementNote(track, s).(durationCounter := 0)
    ensures s.status != Start && hasDurationWrapped && s.durationCounter != Ticks(duration) ==>
      r == s.(durationCounter := s.durationCounter + 1)
  {
    match s.status
    case Start => s
    case _ =>
      if hasDurationWrapped then
        if s.durationCounter == Ticks(duration) then
          AfterIncrementNote(track, s).(durationCounter := 0)
        else
          s.(durationCounter := s.durationCounter + 1)
      else s
  }

  /** The fields after `tick(hasDurationWrapped, noteTimerElapsed)`, where
      `noteTimerElapsed` is what the note timer's `wait` reports. The note is
      read before the position can advance. */
  function AfterTick(track: Track, s: PlayerState, hasDurationWrapped: bool,
                     noteTimerElapsed: bool): (r: PlayerState)
    requires CanTick(track, s)
    ensures r.status != Start
    ensures r.currentNoteIdx < |track|
    ensures Inv(track, s) ==> Inv(track, r)
  {
    var (note, duration) := CurrentNote(track, s);
    var s1 := AfterIncrementIfWrapped(track, s, duration, hasDurationWrapped);
    match s1.status
    case Start =>
      s1.(timerFrequency := NoteToRelayFrequence(note), pinHigh := true, status := Up)
    case Up =>
      if noteTimerElapsed then s1.(pinHigh := false, status := Down) else s1
    case Down =>
      if noteTimerElapsed then s1.(pinHigh := true, status := Up) else s1
  }

  lemma InvCanTick(track: Track, s: PlayerState)
    requires Inv(track, s)
    ensures CanTick(track, s)
  {
  }

  /** A player in `Start` ignores the duration signal and the note timer: it
      keeps its position and counter, starts the timer at the current note's
      frequency, drives the pin high and goes `Up`. */
  lemma StartTick(track: Track, s: PlayerState, hasDurationWrapped: bool, noteTimerElapsed: bool)
    requires CanTick(track, s) && s.status == Start
    ensures var r := AfterTick(track, s, hasDurationWrapped, noteTimerElapsed);
      && r.currentNoteIdx == s.currentNoteIdx
      && r.durationCounter == s.durationCounter
      && r.timerFrequency == NoteToRelayFrequence(CurrentNote(track, s).0)
      && r.pinHigh && r.status == Up
  {
  }

  /** The first tick of a new player over a well-formed track starts playing
      the first note, whatever the two inputs say. */
  lemma FirstTick(track: Track, pinHigh: bool, timerFrequency: Hertz,
                  hasDurationWrapped: bool, noteTimerElapsed: bool)
    requires WellFormed(track)
    ensures Inv(track, Initial(pinHigh, timerFrequency))
    ensures AfterTick(track, Initial(pinHigh, timerFrequency), hasDurationWrapped, noteTimerElapsed) ==
      PlayerState(0, 0, Up, true, NoteToRelayFrequence(track[0].0))
  {
  }

  /** The position moves, and the counter goes back to 0, exactly on the
      ticks that `Advances` names; on every other tick the counter counts the
      duration signal, unless the player is still in `Start`. */
  lemma CounterAndIndex(track: Track, s: PlayerState, hasDurationWrapped: bool, noteTimerElapsed: bool)
    requires CanTick(track, s)
    ensures var r := AfterTick(track, s, hasDurationWrapped, noteTimerElapsed);
      if Advances(track, s, hasDurationWrapped) then
        && r.currentNoteIdx == (if s.currentNoteIdx == |track| - 1 then 0 else s.currentNoteIdx + 1)
        && r.durationCounter == 0
      else
        && r.currentNoteIdx == s.currentNoteIdx
        && r.durationCounter ==
             if s.status != Start && hasDurationWrapped then s.durationCounter + 1 else s.durationCounter
  {
  }

  /** On a tick that moves to the next note the timer is restarted, but at
      the frequency of the note that was current before the move. */
  lemma AdvanceKeepsPreviousFrequency(track: Track, s: PlayerState, noteTimerElapsed: bool)
    requires CanTick(track, s) && Advances(track, s, true)
    ensures var r := AfterTick(track, s, true, noteTimerElapsed);
      && r.timerFrequency == NoteToRelayFrequence(CurrentNote(track, s).0)
      && r.pinHigh && r.status == Up
  {
  }

  /** Between note changes the pin flips, and the status with it, only when
      the note timer reports elapsed; the timer is not reprogrammed. */
  lemma ToggleOnTimer(track: Track, s: PlayerState, hasDurationWrapped: bool, noteTimerElapsed: bool)
    requires CanTick(track, s) && s.status != Start && !Advances(track, s, hasDurationWrapped)
    ensures var r := AfterTick(track, s, hasDurationWrapped, noteTimerElapsed);
      && r.timerFrequency == s.timerFrequency
      && (noteTimerElapsed ==> r.status == (if s.status == Up then Down else Up) && r.pinHigh == (s.status == Down))
      && (!noteTimerElapsed ==> r.status == s.status && r.pinHigh == s.pinHigh)
  {
  }

  /** A two-note track on which the first note change leaves the timer at
      the first note's 523 Hz while the player already sits on the second
      note, whose frequency is 587 Hz. */
  lemma StaleFrequencyExample()
    ensures var track: Track := [(Note(C, 4), OneSixteenth), (Note(D, 4), OneSixteenth)];
      var r := AfterTick(track, PlayerState(0, 1, Up, true, 523), true, false);
      r.currentNoteIdx == 1 && r.timerFrequency == 523 &&
      NoteToRelayFrequence(track[1].0) == 587
  {
  }

  /** The fields after feeding a player a sequence of (duration signal, note
      timer) inputs, one tick each. */
  function Run(track: Track, s: PlayerState, inputs: seq<(bool, bool)>): (r: PlayerState)
    requires Inv(track, s)
    ensures Inv(track, r)
    ensures inputs != [] ==> r.status != Start
    decreases |inputs|
  {
    if inputs == [] then s
    else Run(track, AfterTick(track, s, inputs[0].0, inputs[0].1), inputs[1..])
  }

  /** The number of ticks in `inputs` on which the duration clock had wrapped. */
  function Signals(inputs: seq<(bool, bool)>): (n: nat)
    ensures n <= |inputs|
  {
    if inputs == [] then 0 else (if inputs[0].0 then 1 else 0) + Signals(inputs[1..])
  }

  lemma {:induction false} SignalsAppend(a: seq<(bool, bool)>, b: seq<(bool, bool)>)
    ensures Signals(a + b) == Signals(a) + Signals(b)
  {
    if a == [] {
      assert a + b == b;
    } else {
      assert (a + b)[1..] == a[1..] + b;
      SignalsAppend(a[1..], b);
    }
  }

  /** Running `a` and then `b` is running `a + b`. */
  lemma {:induction false} RunAppend(track: Track, s: PlayerState, a: seq<(bool, bool)>, b: seq<(bool, bool)>)
    requires Inv(track, s)
    ensures Run(track, s, a + b) == Run(track, Run(track, s, a), b)
    decreases |a|
  {
    if a == [] {
      assert a + b == b;
    } else {
      assert (a + b)[1..] == a[1..] + b;
      RunAppend(track, AfterTick(track, s, a[0].0, a[0].1), a[1..], b);
    }
  }

  /** While the duration signals fed to a playing player do not carry its
      counter past the note's tick count, the player stays on the note, its
      counter counts exactly those signals and the timer keeps its
      frequency. */
  lemma {:induction false} HoldsNote(track: Track, s: PlayerState, inputs: seq<(bool, bool)>)
    requires Inv(track, s) && s.status != Start
    requires s.durationCounter + Signals(inputs) <= Ticks(CurrentNote(track, s).1)
    ensures var r := Run(track, s, inputs);
      && r.currentNoteIdx == s.currentNoteIdx
      && r.durationCounter == s.durationCounter + Signals(inputs)
      && r.timerFrequency == s.timerFrequency
      && r.status != Start
    decreases |inputs|
  {
    if inputs != [] {
      var s1 := AfterTick(track, s, inputs[0].0, inputs[0].1);
      CounterAndIndex(track, s, inputs[0].0, inputs[0].1);
      ToggleOnTimer(track, s, inputs[0].0, inputs[0].1);
      HoldsNote(track, s1, inputs[1..]);
    }
  }

  /** A note that starts with its counter at 0 lasts `Ticks + 1` duration
      signals: after any prefix of `inputs` holding at most `Ticks` of them
      the player is still on the note, and the next signal moves it on and
      restarts the timer at the old note's frequency. */
  lemma NoteLastsTicksPlusOne(track: Track, s: PlayerState, inputs: seq<(bool, bool)>,
                              noteTimerElapsed: bool)
    requires Inv(track, s) && s.status != Start && s.durationCounter == 0
    requires Signals(inputs) == Ticks(CurrentNote(track, s).1)
    ensures forall k :: 0 <= k <= |inputs| ==>
      Run(track, s, inputs[..k]).currentNoteIdx == s.currentNoteIdx &&
      Run(track, s, inputs[..k]).durationCounter == Signals(inputs[..k])
    ensures var r := Run(track, s, inputs + [(true, noteTimerElapsed)]);
      && r.currentNoteIdx == (if s.currentNoteIdx == |track| - 1 then 0 else s.currentNoteIdx + 1)
      && r.durationCounter == 0
      && r.timerFrequency == NoteToRelayFrequence(CurrentNote(track, s).0)
  {
    forall k | 0 <= k <= |inputs|
      ensures Run(track, s, inputs[..k]).currentNoteIdx == s.currentNoteIdx
      ensures Run(track, s, inputs[..k]).durationCounter == Signals(inputs[..k])
    {
      assert inputs == inputs[..k] + inputs[k..];
      SignalsAppend(inputs[..k], inputs[k..]);
      HoldsNote(track, s, inputs[..k]);
    }
    HoldsNote(track, s, inputs);
    var m := Run(track, s, inputs);
    RunAppend(track, s, inputs, [(true, noteTimerElapsed)]);
    CounterAndIndex(track, m, true, noteTimerElapsed);
    AdvanceKeepsPreviousFrequency(track, m, noteTimerElapsed);
  }

  /** A player over one track, owning one relay pin and one note timer. */
  class NotePlayer {
    const notes: Track
    var pinHigh: bool
    var timerFrequency: Hertz
    var durationCounter: U8
    var currentNoteIdx: nat
    var status: NotePlayerStatus

    function State(): PlayerState
      reads this
    {
      PlayerState(currentNoteIdx, durationCounter, status, pinHigh, timerFrequency)
    }

    predicate Valid()
      reads this
    {
      Inv(notes, State())
    }

    /** A player at the first note of `notes`, in `Start`. It keeps its
        invariant from here on exactly when the track is well formed. */
    constructor (notes: Track, pinHigh: bool, noteTimer: Hertz)
      ensures this.notes == notes
      ensures State() == Initial(pinHigh, noteTimer)
      ensures Valid() <==> WellFormed(notes)
    {
      this.notes := notes;
      this.pinHigh := pinHigh;
      this.timerFrequency := noteTimer;
      durationCounter := 0;
      currentNoteIdx := 0;
      status := Start;
    }

    method GetCurrentNote() returns (e: Entry)
      requires currentNoteIdx < |notes|
      ensures e == CurrentNote(notes, State())
    {
      e := notes[currentNoteIdx];
    }

    method IncrementNote()
      requires |notes| > 0
      modifies this
      ensures State() == AfterIncrementNote(notes, old(State()))
    {
      currentNoteIdx := (currentNoteIdx + 1) % |notes|;
      status := Start;
    }

    method IncrementNoteIfTimerWrapped(duration: Duration, hasDurationWrapped: bool)
      requires |notes| > 0 && durationCounter < 255
      modifies this
      ensures State() == AfterIncrementIfWrapped(notes, old(State()), duration, hasDurationWrapped)
    {
      if status == Start {
        return;
      }
      if hasDurationWrapped {
        if durationCounter == Ticks(duration) {
          IncrementNote();
          durationCounter := 0;
        } else {
          durationCounter := durationCounter + 1;
        }
      }
    }

    method Tick(hasDurationWrapped: bool, noteTimerElapsed: bool)
      requires CanTick(notes, State())
      modifies this
      ensures State() == AfterTick(notes, old(State()), hasDurationWrapped, noteTimerElapsed)
      ensures old(Valid()) ==> Valid()
    {
      var e := GetCurrentNote();
      var note, duration := e.0, e.1;
      IncrementNoteIfTimerWrapped(duration, hasDurationWrapped);
      match status {
        case Start =>
          timerFrequency := NoteToRelayFrequence(note);
          pinHigh := true;
          status := Up;
        case Up =>
          if noteTimerElapsed {
            pinHigh := false;
            status := Down;
          }
        case Down =>
          if noteTimerElapsed {
            pinHigh := true;
            status := Up;
          }
      }
    }
  }
}

/** The program's main loop: four players, built from the four channels of
    the song, ticked in turn with one duration-clock reading per pass. */
module Sequencer {
  import opened Notes
  import opened Songs
  import opened NotePlayers

  /** Every note timer is started at 1 Hz before the players are built. */
  const InitialTimerFrequency: Hertz := 1

  /** Relay pins are configured as push-pull outputs, which start low. */
  const InitialPinHigh := false

  /** Builds one player per channel of the song: player k from the k-th
      track, each with its own pin and note timer, all in their initial
      state and all able to play for ever. */
  method CreatePlayers() returns (p1: NotePlayer, p2: NotePlayer, p3: NotePlayer, p4: NotePlayer)
    ensures fresh(p1) && fresh(p2) && fresh(p3) && fresh(p4)
    ensures (p1.notes, p2.notes, p3.notes, p4.notes) == OdeToJoy()
    ensures p1.State() == Initial(InitialPinHigh, InitialTimerFrequency)
    ensures p2.State() == Initial(InitialPinHigh, InitialTimerFrequency)
    ensures p3.State() == Initial(InitialPinHigh, InitialTimerFrequency)
    ensures p4.State() == Initial(InitialPinHigh, InitialTimerFrequency)
    ensures p1.Valid() && p2.Valid() && p3.Valid() && p4.Valid()
  {
    var (channel1Notes, channel2Notes, channel3Notes, channel4Notes) := OdeToJoy();
    OdeToJoyWellFormed();
    p1 := new NotePlayer(channel1Notes, InitialPinHigh, InitialTimerFrequency);
    p2 := new NotePlayer(channel2Notes, InitialPinHigh, InitialTimerFrequency);
    p3 := new NotePlayer(channel3Notes, InitialPinHigh, InitialTimerFrequency);
    p4 := new NotePlayer(channel4Notes, InitialPinHigh, InitialTimerFrequency);
  }

  /** One pass of the main loop. `durationTimerWrapped` is the single reading
      of the duration clock taken at the top of the pass; `elapsed1` to
      `elapsed4` are what each player's own note timer reports when it is
      asked. Players 1 to 4 are ticked in that order, each exactly once and
      each with the same duration reading; a player's new state depends on
      its own track and state and on nothing of the other three. */
  method LoopIteration(p1: NotePlayer, p2: NotePlayer, p3: NotePlayer, p4: NotePlayer,
                       durationTimerWrapped: bool,
                       elapsed1: bool, elapsed2: bool, elapsed3: bool, elapsed4: bool)
    requires p1 != p2 && p1 != p3 && p1 != p4 && p2 != p3 && p2 != p4 && p3 != p4
    requires p1.Valid() && p2.Valid() && p3.Valid() && p4.Valid()
    modifies p1, p2, p3, p4
    ensures p1.State() == AfterTick(p1.notes, old(p1.State()), durationTimerWrapped, elapsed1)
    ensures p2.State() == AfterTick(p2.notes, old(p2.State()), durationTimerWrapped, elapsed2)
    ensures p3.State() == AfterTick(p3.notes, old(p3.State()), durationTimerWrapped, elapsed3)
    ensures p4.State() == AfterTick(p4.notes, old(p4.State()), durationTimerWrapped, elapsed4)
    ensures p1.Valid() && p2.Valid() && p3.Valid() && p4.Valid()
  {
    InvCanTick(p1.notes, p1.State());
    InvCanTick(p2.notes, p2.State());
    InvCanTick(p3.notes, p3.State());
    InvCanTick(p4.notes, p4.State());
    p1.Tick(durationTimerWrapped, elapsed1);
    p2.Tick(durationTimerWrapped, elapsed2);
    p3.Tick(durationTimerWrapped, elapsed3);
    p4.Tick(durationTimerWrapped, elapsed4);
  }

  /** The inputs one channel sees over several passes: the shared duration
      readings paired with its own note-timer readings. */
  function ChannelInputs(durationReadings: seq<bool>, timerReadings: seq<bool>): (r: seq<(bool, bool)>)
    requires |durationReadings| == |timerReadings|
    ensures |r| == |durationReadings|
    ensures forall i :: 0 <= i < |r| ==> r[i] == (durationReadings[i], timerReadings[i])
  {
    seq(|durationReadings|, i requires 0 <= i < |durationReadings| => (durationReadings[i], timerReadings[i]))
  }

  lemma ChannelInputsPrefix(d: seq<bool>, t: seq<bool>, i: nat)
    requires |d| == |t| && i < |d|
    ensures ChannelInputs(d, t)[..i + 1] == ChannelInputs(d, t)[..i] + [(d[i], t[i])]
  {
  }

  /** Where a channel is after the first `i` passes. */
  function ChannelAfter(track: Track, s: PlayerState, d: seq<bool>, t: seq<bool>, i: nat): (r: PlayerState)
    requires Inv(track, s) && |d| == |t| && i <= |d|
    ensures Inv(track, r)
  {
    Run(track, s, ChannelInputs(d, t)[..i])
  }

  /** One more pass extends a channel's run by one tick. */
  lemma {:induction false} ChannelStep(track: Track, s: PlayerState, d: seq<bool>, t: seq<bool>, i: nat)
    requires Inv(track, s) && |d| == |t| && i < |d|
    ensures ChannelAfter(track, s, d, t, i + 1) == AfterTick(track, ChannelAfter(track, s, d, t, i), d[i], t[i])
  {
    ChannelInputsPrefix(d, t, i);
    var before := ChannelAfter(track, s, d, t, i);
    RunAppend(track, s, ChannelInputs(d, t)[..i], [(d[i], t[i])]);
    assert Run(track, before, [(d[i], t[i])]) == AfterTick(track, before, d[i], t[i]);
  }

  /** After all passes a channel is where `Run` takes it on its inputs. */
  lemma ChannelAfterAll(track: Track, s: PlayerState, d: seq<bool>, t: seq<bool>)
    requires Inv(track, s) && |d| == |t|
    ensures ChannelAfter(track, s, d, t, |d|) == Run(track, s, ChannelInputs(d, t))
  {
    assert ChannelInputs(d, t)[..|d|] == ChannelInputs(d, t);
  }

  /** A bounded prefix of the main loop: one pass per duration reading. Each
      channel ends where its own track, its own timer readings and the
      shared duration readings take it, whatever the other channels play. */
  method Play(p1: NotePlayer, p2: NotePlayer, p3: NotePlayer, p4: NotePlayer,
              durationReadings: seq<bool>,
              timer1: seq<bool>, timer2: seq<bool>, timer3: seq<bool>, timer4: seq<bool>)
    requires p1 != p2 && p1 != p3 && p1 != p4 && p2 != p3 && p2 != p4 && p3 != p4
    requires p1.Valid() && p2.Valid() && p3.Valid() && p4.Valid()
    requires |timer1| == |timer2| == |timer3| == |timer4| == |durationReadings|
    modifies p1, p2, p3, p4
    ensures p1.Valid() && p2.Valid() && p3.Valid() && p4.Valid()
    ensures p1.State() == Run(p1.notes, old(p1.State()), ChannelInputs(durationReadings, timer1))
    ensures p2.State() == Run(p2.notes, old(p2.State()), ChannelInputs(durationReadings, timer2))
    ensures p3.State() == Run(p3.notes, old(p3.State()), ChannelInputs(durationReadings, timer3))
    ensures p4.State() == Run(p4.notes, old(p4.State()), ChannelInputs(durationReadings, timer4))
  {
    ghost var s1, s2, s3, s4 := p1.State(), p2.State(), p3.State(), p4.State();
    var i := 0;
    while i < |durationReadings|
      invariant 0 <= i <= |durationReadings|
      invariant p1.State() == ChannelAfter(p1.notes, s1, durationReadings, timer1, i)
      invariant p2.State() == ChannelAfter(p2.notes, s2, durationReadings, timer2, i)
      invariant p3.State() == ChannelAfter(p3.notes, s3, durationReadings, timer3, i)
      invariant p4.State() == ChannelAfter(p4.notes, s4, durationReadings, timer4, i)
    {
      ChannelStep(p1.notes, s1, durationReadings, timer1, i);
      ChannelStep(p2.notes, s2, durationReadings, timer2, i);
      ChannelStep(p3.notes, s3, durationReadings, timer3, i);
      ChannelStep(p4.notes, s4, durationReadings, timer4, i);
      LoopIteration(p1, p2, p3, p4, durationReadings[i], timer1[i], timer2[i], timer3[i], timer4[i]);
      i := i + 1;
    }
    ChannelAfterAll(p1.notes, s1, durationReadings, timer1);
    ChannelAfterAll(p2.notes, s2, durationReadings, timer2);
    ChannelAfterAll(p3.notes, s3, durationReadings, timer3);
    ChannelAfterAll(p4.notes, s4, durationReadings, timer4);
  }
}

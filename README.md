# relay-music, modelled in Dafny

The firmware plays "Ode to Joy" on four relays of a microcontroller. Each
relay is a channel driven by a `NotePlayer`. The player toggles its relay pin
whenever its own note timer elapses, at the frequency that timer was last
started with. The timer is restarted on every note change, but with the
frequency of the note being left, so from the second note on each note sounds
at the frequency of the one before it (see below). The player moves to the
next note of its track after a number of ticks of one duration clock, and
that clock is shared by all four channels. The main loop reads the duration
clock once per pass and ticks the four players with that reading.

The model has four modules, one per source file:

- `Notes` (`notes.dfy`, from `src/notes.rs`): pitches, durations, the
  relay-frequency table and the tick table. The table arms that end in
  `todo!` (a panic) are `None` in `FrequencyTable`. `Supported` is the domain
  of the table, and `NoteToRelayFrequence` requires it.
- `Songs` (`songs.dfy`, from `src/songs.rs`): the four constant tracks and
  lemmas about them. The program has no validation pass. These lemmas are
  what shows that playback never reaches `todo!` and never indexes an empty
  track.
- `NotePlayers` (`note_player.dfy`, from `src/note_player.rs`): the class
  `NotePlayer`, with the source's fields, updated in place by `Tick`,
  `IncrementNoteIfTimerWrapped` and `IncrementNote`. Each method is proved
  equal to a pure function over the field values (`PlayerState`):
  `AfterTick`, `AfterIncrementIfWrapped` and `AfterIncrementNote`. The
  lemmas are stated about these functions. `Run` folds `AfterTick` over a
  sequence of inputs.
- `Sequencer` (`sequencer.dfy`, from `src/main.rs`): building the four
  players (`CreatePlayers`), one pass of the main loop (`LoopIteration`), and
  a bounded number of passes (`Play`).

How the hardware is represented:

- A pin is a `bool` level, `pinHigh`.
- A note timer is the frequency it was last started with, `timerFrequency`.
- What the note timer's `wait()` reports is the second argument of `Tick`.
- The reading of the duration clock is the first argument of `Tick`. In the
  sequencer it is a parameter of each pass.

Two behaviours of the code are kept as written.

- A note lasts `Ticks + 1` duration signals. The counter is compared with the
  note's tick count before it is incremented (`src/note_player.rs:86-91`).
  See `NotePlayers.NoteLastsTicksPlusOne`.
- On the tick that moves to the next note, the timer is restarted at the
  frequency of the note that was current before the move. The note is read
  before the index can advance (`src/note_player.rs:47-53`). See
  `NotePlayers.AdvanceKeepsPreviousFrequency` and
  `NotePlayers.StaleFrequencyExample`.

Because of the first behaviour, one pass through a track takes
`TotalTicks(t) + |t|` duration signals, not `TotalTicks(t)`: 75 for the
melody (60 table ticks over 15 notes) and 69 for each accompaniment (64 over
5). `Songs.OdeToJoyLengths` states the table-tick sums and these totals;
`NotePlayers.NoteLastsTicksPlusOne` proves the extra signal per note.

Nothing checks the song data before playback starts; that every note of the
song is supported and every track non-empty is proved about the constant
data (`Songs.OdeToJoyWellFormed`).

## Model

| member | source | states |
|---|---|---|
| `Notes.FrequencyTable` | src/notes.rs:16-62 | every entry the table has is a strictly positive frequency; the `todo!` arms are `None` |
| `Notes.NoteToRelayFrequence` | src/notes.rs:16-62 | for a supported note, returns the table's strictly positive entry |
| `Notes.Ticks` | src/notes.rs:74-82 | every duration is between 1 and 16 ticks |
| `Notes.SupportedDomain` | src/notes.rs:17-59 | the table is defined exactly on octaves 3 and 4 of every pitch and octave 5 of C and D |
| `Notes.OctaveRaisesFrequency` | src/notes.rs:18-59 | for one pitch, a higher supported octave gives a strictly higher frequency |
| `Notes.TableEntries` | src/notes.rs:19-53 | C3=330, C4=523, C5=1045, A3=440, A4=880, D5=1174, Fs3=371 |
| `Notes.TicksTable` | src/notes.rs:76-80 | Whole=16, Half=8, OneFourth=4, OneEigth=2, OneSixteenth=1, and each is twice the next shorter one |
| `Songs.OdeToJoy` | src/songs.rs:3-8 | the song has four tracks, of lengths 15, 5, 5 and 5 |
| `Songs.AllSupportedMeans` | src/songs.rs:9-46 | the entry-by-entry check of a track holds exactly when every note of the track has a frequency |
| `Songs.AllSupportedAppend` | src/songs.rs:9-25 | a concatenation passes the check exactly when both parts do |
| `Songs.Durations` | src/songs.rs:9-46 | lists the durations of a track, in order, one per entry |
| `Songs.TotalTicks` | src/songs.rs:9-46 | the table ticks of a track's durations sum to at least one per entry |
| `Songs.TotalTicksAppend` | src/songs.rs:9-25 | the ticks of a concatenation are the sum of the ticks of its parts |
| `Songs.MelodyPhrases` | src/songs.rs:10-24 | each of the three five-note phrases that make up the melody sums to 20 table ticks and uses only supported notes |
| `Songs.MelodyWellFormed` | src/songs.rs:9-25 | the melody is non-empty and every note in it has a frequency |
| `Songs.OdeToJoyWellFormed` | src/songs.rs:9-46 | all four tracks are non-empty and use only supported notes, so no player can reach `todo!` |
| `Songs.AccompanimentRhythm` | src/songs.rs:26-46 | tracks 2 to 4 each have the rhythm Whole, Whole, Whole, Half, Half |
| `Songs.OdeToJoyLengths` | src/songs.rs:9-46 | the melody's durations sum to 60 table ticks and each accompaniment's to 64; adding one signal per note gives 75 signals per pass of the melody and 69 per pass of each accompaniment |
| `Songs.MelodyEnds` | src/songs.rs:10-24 | the melody starts with a quarter B4 and ends with a half A4 |
| `NotePlayers.Initial` | src/note_player.rs:35-44 | a new player is at index 0 with counter 0 in `Start`, its pin and timer as given |
| `NotePlayers.CurrentNote` | src/note_player.rs:72-74 | the current entry is an entry of the track |
| `NotePlayers.AfterIncrementNote` | src/note_player.rs:95-98 | the index moves to the next one, from the last back to 0, and stays in bounds; status becomes `Start`; nothing else changes |
| `NotePlayers.AfterIncrementIfWrapped` | src/note_player.rs:76-93 | in `Start` or without a signal nothing changes; with a signal, a counter equal to the note's ticks moves to the next note and resets to 0, any other counter goes up by one |
| `NotePlayers.AfterTick` | src/note_player.rs:46-70 | after a tick the status is never `Start`, the index is in bounds and the player invariant is kept (index and counter bounds, pin high exactly when `Up`) |
| `NotePlayers.InvCanTick` | src/note_player.rs:46-74 | a player that keeps its invariant can always be ticked without panicking |
| `NotePlayers.StartTick` | src/note_player.rs:50-56 | in `Start` the index and counter do not change, the timer is started at the current note's frequency, the pin goes high and the status `Up` |
| `NotePlayers.FirstTick` | src/note_player.rs:35-56 | a new player keeps the invariant and its first tick starts the first note, whatever the inputs |
| `NotePlayers.CounterAndIndex` | src/note_player.rs:81-98 | the index advances and the counter resets exactly when the player is past `Start`, the signal is set and the counter equals the note's ticks; otherwise the index stays and the counter counts the signal |
| `NotePlayers.AdvanceKeepsPreviousFrequency` | src/note_player.rs:47-55 | on a tick that moves to the next note the timer is started at the frequency of the note before the move |
| `NotePlayers.ToggleOnTimer` | src/note_player.rs:57-68 | between note changes `Up` goes to `Down` with the pin low, and `Down` to `Up` with the pin high, only when the timer reports elapsed; otherwise status, pin and timer stay |
| `NotePlayers.StaleFrequencyExample` | src/note_player.rs:47-55 | on a two-note track, the player moves to D4 with the timer still at C4's 523 Hz |
| `NotePlayers.Run` | src/note_player.rs:46-70 | a run of ticks keeps the invariant and, once at least one tick is made, is never in `Start` |
| `NotePlayers.Signals` | src/note_player.rs:85 | there are no more duration signals than ticks |
| `NotePlayers.SignalsAppend` | src/note_player.rs:85 | signals of a concatenation add up |
| `NotePlayers.RunAppend` | src/note_player.rs:46-70 | running two input sequences one after the other is running their concatenation |
| `NotePlayers.HoldsNote` | src/note_player.rs:85-91 | while the signals do not carry the counter past the note's ticks, the player stays on the note, counts exactly those signals and keeps its timer |
| `NotePlayers.NoteLastsTicksPlusOne` | src/note_player.rs:85-98 | from counter 0, the index does not move within the first `Ticks` signals and moves on the next one, restarting the timer at the old note's frequency |
| `NotePlayers.NotePlayer.constructor` | src/note_player.rs:35-44 | stores the track unchanged and starts at index 0, counter 0, `Start`; the invariant holds exactly when the track is well formed |
| `NotePlayers.NotePlayer.GetCurrentNote` | src/note_player.rs:72-74 | returns the entry at the current index |
| `NotePlayers.NotePlayer.IncrementNote` | src/note_player.rs:95-98 | updates the fields as `AfterIncrementNote` says |
| `NotePlayers.NotePlayer.IncrementNoteIfTimerWrapped` | src/note_player.rs:76-93 | updates the fields as `AfterIncrementIfWrapped` says |
| `NotePlayers.NotePlayer.Tick` | src/note_player.rs:46-70 | updates the fields as `AfterTick` says and keeps the invariant |
| `Sequencer.CreatePlayers` | src/main.rs:47-51 | player k is a new object built from the k-th track of the song, in its initial state, with the invariant |
| `Sequencer.LoopIteration` | src/main.rs:53-59 | each player is ticked once with the same duration reading and its own timer reading; each new state depends only on that player's old state and track |
| `Sequencer.ChannelInputs` | src/main.rs:53-58 | the inputs of one channel pair the shared duration readings with that channel's timer readings |
| `Sequencer.ChannelInputsPrefix` | src/main.rs:53-58 | one more pass adds one input at the end |
| `Sequencer.Play` | src/main.rs:53-59 | after a bounded number of passes each player is where `Run` takes it on its own inputs, and all invariants hold |
| `Sequencer.ChannelAfter` | src/main.rs:53-59 | a channel keeps its invariant after any number of passes |
| `Sequencer.ChannelStep` | src/main.rs:53-59 | one more pass moves a channel by exactly one tick with that pass's duration reading and its own timer reading |
| `Sequencer.ChannelAfterAll` | src/main.rs:53-59 | after all passes a channel is where `Run` takes it on its own inputs |

## Left out

- Peripheral, clock, pin and timer setup (`src/main.rs:14-45`) is hardware configuration. Only its results are used: pins start low and note timers at 1 Hz.
- Real timer behaviour is not modelled: `CountDown::start`, `wait`, the conversion to `Hertz`, the actual periods and the 9 Hz duration clock. The timer is the last programmed frequency, and what `wait` reports is an input.
- Pin write errors are discarded by the code (`let _ =`), so a pin is a plain level.
- `get_unchecked` is replaced by an index checked against the invariant `currentNoteIdx < |notes|`.
- The `loop` of `main` never ends. The model has one pass (`LoopIteration`) and any finite number of passes (`Play`).
- The order in which the four players are ticked within a pass is not observable in the model. The players share no state, so every order gives the same result.
- `Sequencer.LoopIteration`: the duration clock poll happens once per pass. It is modelled as the single boolean parameter of the pass, not as a call whose count is tracked.
- `NotePlayers.CanTick`: the precondition of a single tick has four parts. (1) The track is non-empty: `increment_note` reduces the index modulo the length (`src/note_player.rs:96`). (2) The index is below the length: `get_current_note` reads the entry with `get_unchecked` on every tick (`src/note_player.rs:47`, `:73`), so an empty track or an index out of range is undefined behaviour on every path. (3) The counter is below 255: `duration_counter += 1` (`src/note_player.rs:90`) would overflow the `u8`, a panic with overflow checks and a wrap to 0 without them; the model has neither outcome. (4) The current note is supported: otherwise the frequency lookup reaches `todo!` (`src/notes.rs:22` and the like). Part (4) is asked for on every tick, though the code looks the frequency up only on the `Start` branch. The player invariant `Inv` makes all four hold for every tick (the counter is at most 16), as `NotePlayers.InvCanTick` proves.
- The `defmt::Format` derive is logging support and has no behaviour to model.
- `Note`: the source has one enum variant per pitch, each carrying an octave. The model uses a pitch and an octave, which is the same information. The octave is unbounded rather than `usize`; it is only compared with constants.

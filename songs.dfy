/** The one song the program plays: "Ode to Joy" in four channels. */
module Songs {
  import opened Notes

  /** The melody is written as three phrases of five notes; together they
      are the fifteen entries of the first channel, in order. */
  const MelodyPhrase1: Track := [
    (Note(B, 4), OneFourth),
    (Note(B, 4), OneFourth),
    (Note(C, 5), OneFourth),
    (Note(D, 5), OneFourth),
    (Note(D, 5), OneFourth)
  ]

  const MelodyPhrase2: Track := [
    (Note(C, 5), OneFourth),
    (Note(B, 4), OneFourth),
    (Note(A, 4), OneFourth),
    (Note(G, 4), OneFourth),
    (Note(G, 4), OneFourth)
  ]

  const MelodyPhrase3: Track := [
    (Note(A, 4), OneFourth),
    (Note(B, 4), OneFourth),
    (Note(B, 4), OneEigth),
    (Note(A, 4), OneEigth),
    (Note(A, 4), Half)
  ]

  const Channel1Notes: Track := MelodyPhrase1 + MelodyPhrase2 + MelodyPhrase3

  const Channel2Notes: Track := [
    (Note(D, 4), Whole),
    (Note(D, 4), Whole),
    (Note(D, 4), Whole),
    (Note(D, 4), Half),
    (Note(D, 4), Half)
  ]

  const Channel3Notes: Track := [
    (Note(B, 3), Whole),
    (Note(A, 3), Whole),
    (Note(B, 3), Whole),
    (Note(B, 3), Half),
    (Note(A, 3), Half)
  ]

  const Channel4Notes: Track := [
    (Note(G, 3), Whole),
    (Note(Fs, 3), Whole),
    (Note(G, 3), Whole),
    (Note(G, 3), Half),
    (Note(Fs, 3), Half)
  ]

  /** The four channels of the song, melody first. */
  function OdeToJoy(): (r: (Track, Track, Track, Track))
    ensures |r.0| == 15 && |r.1| == 5 && |r.2| == 5 && |r.3| == 5
  {
    (Channel1Notes, Channel2Notes, Channel3Notes, Channel4Notes)
  }

  /** Every note of a track has a frequency, checked entry by entry. This is
      the `forall` in `WellFormed` restated by recursion, so that it can be
      proved for a concatenation a part at a time; `AllSupportedMeans` shows
      the two agree. */
  predicate AllSupported(t: Track) {
    t == [] || (Supported(t[0].0) && AllSupported(t[1..]))
  }

  lemma {:induction false} AllSupportedMeans(t: Track)
    ensures AllSupported(t) <==> forall i :: 0 <= i < |t| ==> Supported(t[i].0)
  {
    if t != [] {
      AllSupportedMeans(t[1..]);
      assert forall i :: 1 <= i < |t| ==> t[i] == t[1..][i - 1];
    }
  }

  lemma {:induction false} AllSupportedAppend(a: Track, b: Track)
    ensures AllSupported(a + b) <==> AllSupported(a) && AllSupported(b)
  {
    if a == [] {
      assert a + b == b;
    } else {
      assert (a + b)[1..] == a[1..] + b;
      AllSupportedAppend(a[1..], b);
    }
  }

  /** The durations of a track, in order. */
  function Durations(t: Track): (r: seq<Duration>)
    ensures |r| == |t| && forall i :: 0 <= i < |t| ==> r[i] == t[i].1
  {
    if t == [] then [] else [t[0].1] + Durations(t[1..])
  }

  /** The sum of the table ticks of a track's durations. A player holds each
      note for one signal more than its table ticks, so one pass through the
      track takes `TotalTicks(t) + |t|` duration signals. */
  function TotalTicks(t: Track): (r: nat)
    ensures r >= |t|
  {
    if t == [] then 0 else Ticks(t[0].1) + TotalTicks(t[1..])
  }

  lemma {:induction false} TotalTicksAppend(a: Track, b: Track)
    ensures TotalTicks(a + b) == TotalTicks(a) + TotalTicks(b)
  {
    if a == [] {
      assert a + b == b;
    } else {
      assert (a + b)[1..] == a[1..] + b;
      TotalTicksAppend(a[1..], b);
    }
  }

  /** The durations of each phrase of the melody sum to 20 table ticks, and
      each phrase uses only supported notes. */
  lemma MelodyPhrases()
    ensures TotalTicks(MelodyPhrase1) == 20 && TotalTicks(MelodyPhrase2) == 20
    ensures TotalTicks(MelodyPhrase3) == 20
    ensures AllSupported(MelodyPhrase1) && AllSupported(MelodyPhrase2) && AllSupported(MelodyPhrase3)
  {
  }

  lemma MelodyWellFormed()
    ensures WellFormed(Channel1Notes)
  {
    MelodyPhrases();
    AllSupportedAppend(MelodyPhrase1 + MelodyPhrase2, MelodyPhrase3);
    AllSupportedAppend(MelodyPhrase1, MelodyPhrase2);
    AllSupportedMeans(Channel1Notes);
  }

  /** All four tracks are non-empty and every note in them has a frequency,
      so every player built from them can be ticked for ever. */
  lemma OdeToJoyWellFormed()
    ensures WellFormed(OdeToJoy().0) && WellFormed(OdeToJoy().1)
    ensures WellFormed(OdeToJoy().2) && WellFormed(OdeToJoy().3)
  {
    MelodyWellFormed();
    assert forall i | 0 <= i < 5 :: Channel2Notes[i].0 == Note(D, 4);
    assert forall i | 0 <= i < 5 :: Channel3Notes[i].0 in {Note(A, 3), Note(B, 3)};
    assert forall i | 0 <= i < 5 :: Channel4Notes[i].0 in {Note(G, 3), Note(Fs, 3)};
  }

  /** The accompaniment channels share one rhythm. */
  lemma AccompanimentRhythm()
    ensures Durations(OdeToJoy().1) == [Whole, Whole, Whole, Half, Half]
    ensures Durations(OdeToJoy().2) == [Whole, Whole, Whole, Half, Half]
    ensures Durations(OdeToJoy().3) == [Whole, Whole, Whole, Half, Half]
  {
  }

  /** The melody's durations sum to 60 table ticks, each accompaniment's to
      64; with one extra signal per note, a pass through the melody takes 75
      duration signals and a pass through an accompaniment 69. */
  lemma OdeToJoyLengths()
    ensures TotalTicks(OdeToJoy().0) == 60
    ensures TotalTicks(OdeToJoy().1) == 64
    ensures TotalTicks(OdeToJoy().2) == 64
    ensures TotalTicks(OdeToJoy().3) == 64
    ensures TotalTicks(OdeToJoy().0) + |OdeToJoy().0| == 75
    ensures TotalTicks(OdeToJoy().1) + |OdeToJoy().1| == 69
    ensures TotalTicks(OdeToJoy().2) + |OdeToJoy().2| == 69
    ensures TotalTicks(OdeToJoy().3) + |OdeToJoy().3| == 69
  {
    MelodyPhrases();
    TotalTicksAppend(MelodyPhrase1 + MelodyPhrase2, MelodyPhrase3);
    TotalTicksAppend(MelodyPhrase1, MelodyPhrase2);
  }

  /** The melody opens on a quarter B4 and closes on a half A4. */
  lemma MelodyEnds()
    ensures OdeToJoy().0[0] == (Note(B, 4), OneFourth)
    ensures OdeToJoy().0[14] == (Note(A, 4), Half)
  {
  }
}

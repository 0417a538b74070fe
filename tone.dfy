/**
 * The tone synthesizer: the sizing of the single-cycle sample table and its
 * playback rate, and the life cycle of the one global playback handle.
 */
module Tone {
  import opened Board

  /** The nominal number of samples in one cycle of the sine table. */
  const TABLE_LENGTH := 100
  /** The largest sample rate the output is driven at. */
  const RATE_CEILING := 350000

  /** A looping stream of a sine table of `length` samples played at `rate` samples per second. */
  datatype Playback = Playback(frequency: nat, length: nat, rate: nat)

  lemma DivisionBounds(n: nat, d: nat)
    requires d > 0
    ensures (n / d) * d <= n < (n / d + 1) * d
  {
  }

  /**
   * The table `start_tone` builds for `frequency`: the longest table of at
   * most 100 samples whose sample rate (length times frequency) stays under
   * the ceiling, played at exactly that rate.
   */
  function TableFor(frequency: nat): (p: Playback)
    ensures p.frequency == frequency
    ensures p.length <= TABLE_LENGTH
    ensures p.rate == p.length * frequency
    ensures p.rate <= RATE_CEILING
    ensures p.length == TABLE_LENGTH || p.rate + frequency > RATE_CEILING
  {
    if TABLE_LENGTH * frequency > RATE_CEILING then
      DivisionBounds(RATE_CEILING, frequency);
      var length := RATE_CEILING / frequency;
      Playback(frequency, length, length * frequency)
    else
      Playback(frequency, TABLE_LENGTH, TABLE_LENGTH * frequency)
  }

  /** The ceiling never shortens the table of any tone this program plays. */
  lemma ProgramTonesUseFullTable(c: ChannelId)
    ensures TableFor(SIM[c].tone).length == TABLE_LENGTH
    ensures TableFor(WRONG_TONE).length == TABLE_LENGTH
  {
  }

  /**
   * The speaker: `sample` is the global handle (a live looping stream, or
   * none), `stray` counts streams still playing that no handle refers to.
   */
  datatype Speaker = Speaker(sample: Option<Playback>, stray: nat)

  const QUIET := Speaker(None, 0)

  /**
   * `start_tone` as written: a fresh output replaces the handle before its
   * `playing` flag is tested, so the test always passes and a stream that
   * was playing is left running with no handle.
   */
  function StartToneAsWritten(s: Speaker, frequency: nat): Speaker {
    Speaker(Some(TableFor(frequency)), if s.sample.Some? then s.stray + 1 else s.stray)
  }

  /** `start_tone` as its `playing` test intends: nothing changes while a stream plays. */
  function StartTone(s: Speaker, frequency: nat): Speaker {
    if s.sample.Some? then s else Speaker(Some(TableFor(frequency)), s.stray)
  }

  /** `stop_tone`: stops and releases the live stream, if there is one. */
  function StopTone(s: Speaker): Speaker {
    Speaker(None, s.stray)
  }

  /** Which `start_tone` a replay of tone calls uses. */
  datatype StartMode = AsWritten | Guarded

  function Apply(mode: StartMode, s: Speaker, e: Event): Speaker {
    match e
    case ToneStart(f) => if mode == AsWritten then StartToneAsWritten(s, f) else StartTone(s, f)
    case ToneStop => StopTone(s)
    case _ => s
  }

  /** The speaker after the tone calls among `events`, in order. */
  function Replay(mode: StartMode, s: Speaker, events: seq<Event>): Speaker
    decreases |events|
  {
    if events == [] then s else Apply(mode, Replay(mode, s, events[..|events| - 1]), events[|events| - 1])
  }

  lemma {:induction false} ReplayAppend(mode: StartMode, s: Speaker, a: seq<Event>, b: seq<Event>)
    ensures Replay(mode, s, a + b) == Replay(mode, Replay(mode, s, a), b)
    decreases |b|
  {
    if b == [] {
      assert a + b == a;
    } else {
      var b' := b[..|b| - 1];
      assert (a + b)[..|a + b| - 1] == a + b';
      ReplayAppend(mode, s, a, b');
    }
  }

  lemma ReplayOne(mode: StartMode, s: Speaker, e: Event)
    ensures Replay(mode, s, [e]) == Apply(mode, s, e)
  {
    assert [e][..0] == [];
  }

  lemma {:induction false} ReplayIgnoresSilent(mode: StartMode, s: Speaker, events: seq<Event>)
    requires forall k :: 0 <= k < |events| ==> Silent(events[k])
    ensures Replay(mode, s, events) == s
    decreases |events|
  {
    if events != [] {
      ReplayIgnoresSilent(mode, s, events[..|events| - 1]);
    }
  }

  /** Starting while a stream plays changes nothing; starting while quiet is audible. */
  lemma StartToneIdempotent(s: Speaker, f: nat, g: nat)
    ensures StartTone(StartTone(s, f), g) == StartTone(s, f)
    ensures s.sample.None? ==> StartTone(s, f).sample == Some(TableFor(f))
  {
  }

  /** Stopping is safe when nothing plays. */
  lemma StopToneWhenQuiet(s: Speaker)
    requires s.sample.None?
    ensures StopTone(s) == s
  {
  }

  /**
   * With the intended `start_tone`, no sequence of tone calls ever strands a
   * stream, while the speaker is heard after exactly the same calls as with
   * the start as written, with no more stranded streams. Which table is heard
   * can differ: a start while a stream plays keeps that stream under the
   * guard, where as written the new table plays (`StartWhilePlayingStrands`).
   */
  lemma {:induction false} SingleStream(s: Speaker, events: seq<Event>)
    ensures Replay(Guarded, s, events).stray == s.stray
    ensures Replay(Guarded, s, events).sample.Some? <==> Replay(AsWritten, s, events).sample.Some?
    ensures Replay(Guarded, s, events).stray <= Replay(AsWritten, s, events).stray
    decreases |events|
  {
    if events != [] {
      SingleStream(s, events[..|events| - 1]);
    }
  }

  /**
   * As written, a start while a stream plays strands that stream and plays the
   * new table; with the guard, the stream already playing goes on.
   */
  lemma StartWhilePlayingStrands(s: Speaker, f: nat)
    requires s.sample.Some?
    ensures StartToneAsWritten(s, f) == Speaker(Some(TableFor(f)), s.stray + 1)
    ensures StartTone(s, f) == s
  {
  }
}

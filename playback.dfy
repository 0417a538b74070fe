/**
 * The two output sequences of the game: the demonstration of the pattern
 * (`show_pattern`) and the mismatch feedback (`wrong_choice`), as the
 * hardware events they produce.
 */
module Playback {
  import opened Board
  import Tone

  /** One demonstrated entry: tone and light on, hold 2*speed, both off, gap of speed. */
  function EntryEvents(c: ChannelId, speed: int): seq<Event> {
    [ ToneStart(SIM[c].tone), SetPixel(SIM[c].light, SIM[c].color), Show, Sleep(2 * speed),
      ToneStop, SetPixel(SIM[c].light, BLACK), Show, Sleep(speed) ]
  }

  const ENTRY_SIZE := 8

  /** The events of `show_pattern` for `pattern` at `speed`. */
  function ShowEvents(pattern: seq<ChannelId>, speed: int): seq<Event>
    decreases |pattern|
  {
    if pattern == [] then []
    else ShowEvents(pattern[..|pattern| - 1], speed) + EntryEvents(pattern[|pattern| - 1], speed)
  }

  /** Eight events per entry of the pattern. */
  lemma {:induction false} ShowLength(pattern: seq<ChannelId>, speed: int)
    ensures |ShowEvents(pattern, speed)| == ENTRY_SIZE * |pattern|
    decreases |pattern|
  {
    if pattern != [] {
      ShowLength(pattern[..|pattern| - 1], speed);
    }
  }

  /** A slice inside the first part of a concatenation. */
  lemma SliceLeft(a: seq<Event>, b: seq<Event>, lo: nat, hi: nat)
    requires lo <= hi <= |a|
    ensures (a + b)[lo..hi] == a[lo..hi]
  {
  }

  /** The second part of a concatenation, sliced back out. */
  lemma SliceRight(a: seq<Event>, b: seq<Event>)
    ensures (a + b)[|a|..|a| + |b|] == b
  {
  }

  /** The demonstration visits the entries in pattern order, eight events per entry. */
  lemma {:induction false} ShowInOrder(pattern: seq<ChannelId>, speed: int, k: nat)
    requires k < |pattern|
    ensures |ShowEvents(pattern, speed)| == ENTRY_SIZE * |pattern|
    ensures ShowEvents(pattern, speed)[ENTRY_SIZE * k .. ENTRY_SIZE * k + ENTRY_SIZE] == EntryEvents(pattern[k], speed)
    decreases |pattern|
  {
    var n := |pattern| - 1;
    var front := pattern[..n];
    var shown, last := ShowEvents(front, speed), EntryEvents(pattern[n], speed);
    assert ShowEvents(pattern, speed) == shown + last;
    ShowLength(front, speed);
    if k < n {
      ShowInOrder(front, speed, k);
      assert front[k] == pattern[k];
      SliceLeft(shown, last, ENTRY_SIZE * k, ENTRY_SIZE * k + ENTRY_SIZE);
    } else {
      SliceRight(shown, last);
    }
  }

  /** After the demonstration the speaker is quiet again, with nothing stranded. */
  lemma {:induction false} ShowLeavesSpeakerQuiet(pattern: seq<ChannelId>, speed: int, s: Tone.Speaker)
    requires s.sample.None?
    ensures Tone.Replay(Tone.Guarded, s, ShowEvents(pattern, speed)) == s
    decreases |pattern|
  {
    if pattern != [] {
      var c := pattern[|pattern| - 1];
      var front := ShowEvents(pattern[..|pattern| - 1], speed);
      ShowLeavesSpeakerQuiet(pattern[..|pattern| - 1], speed, s);
      Tone.ReplayAppend(Tone.Guarded, s, front, EntryEvents(c, speed));
      var on: seq<Event> := [SetPixel(SIM[c].light, SIM[c].color), Show, Sleep(2 * speed)];
      var off: seq<Event> := [SetPixel(SIM[c].light, BLACK), Show, Sleep(speed)];
      assert EntryEvents(c, speed) == [ToneStart(SIM[c].tone)] + on + [ToneStop] + off;
      Tone.ReplayAppend(Tone.Guarded, s, [ToneStart(SIM[c].tone)] + on + [ToneStop], off);
      Tone.ReplayAppend(Tone.Guarded, s, [ToneStart(SIM[c].tone)] + on, [ToneStop]);
      Tone.ReplayAppend(Tone.Guarded, s, [ToneStart(SIM[c].tone)], on);
      Tone.ReplayOne(Tone.Guarded, s, ToneStart(SIM[c].tone));
      var playing := Tone.Replay(Tone.Guarded, s, [ToneStart(SIM[c].tone)]);
      Tone.ReplayIgnoresSilent(Tone.Guarded, playing, on);
      Tone.ReplayOne(Tone.Guarded, playing, ToneStop);
      Tone.ReplayIgnoresSilent(Tone.Guarded, Tone.StopTone(playing), off);
    }
  }

  /** `count` repetitions of `block`. */
  function Repeat(block: seq<Event>, count: nat): (r: seq<Event>)
    ensures |r| == count * |block|
  {
    if count == 0 then [] else Repeat(block, count - 1) + block
  }

  /** One blink of the correct channel's light over the cyan background, 0.25 s on, 0.25 s off. */
  function BlinkEvents(correct: ChannelId): seq<Event> {
    [ Fill(CYAN), SetPixel(SIM[correct].light, SIM[correct].color), Show, Sleep(25),
      Fill(BLACK), Show, Sleep(25) ]
  }

  /** The events of `wrong_choice(correct, _)`: the 300 Hz tone around five blinks. */
  function WrongChoiceEvents(correct: ChannelId): seq<Event> {
    [ToneStart(WRONG_TONE)] + Repeat(BlinkEvents(correct), BLINKS) + [ToneStop]
  }

  /** The single-pixel writes among `events`, in order. */
  function Highlights(events: seq<Event>): (r: seq<Event>)
    ensures |r| <= |events|
    ensures forall k :: 0 <= k < |r| ==> r[k].SetPixel?
    decreases |events|
  {
    if events == [] then []
    else Highlights(events[..|events| - 1]) + (if events[|events| - 1].SetPixel? then [events[|events| - 1]] else [])
  }

  lemma {:induction false} HighlightsAppend(a: seq<Event>, b: seq<Event>)
    ensures Highlights(a + b) == Highlights(a) + Highlights(b)
    decreases |b|
  {
    if b == [] {
      assert a + b == a;
    } else {
      var b' := b[..|b| - 1];
      assert (a + b)[..|a + b| - 1] == a + b';
      HighlightsAppend(a, b');
    }
  }

  lemma {:induction false} HighlightsRepeat(block: seq<Event>, count: nat)
    ensures Highlights(Repeat(block, count)) == Repeat(Highlights(block), count)
  {
    if count > 0 {
      HighlightsRepeat(block, count - 1);
      HighlightsAppend(Repeat(block, count - 1), block);
    }
  }

  /**
   * The mismatch feedback lights exactly one position, five times: the
   * correct channel's, in its own colour.
   */
  lemma WrongChoiceHighlightsCorrect(correct: ChannelId)
    ensures Highlights(WrongChoiceEvents(correct)) == Repeat([SetPixel(SIM[correct].light, SIM[correct].color)], BLINKS)
  {
    var body := Repeat(BlinkEvents(correct), BLINKS);
    HighlightsAppend([ToneStart(WRONG_TONE)] + body, [ToneStop]);
    HighlightsAppend([ToneStart(WRONG_TONE)], body);
    HighlightsRepeat(BlinkEvents(correct), BLINKS);
    BlinkHighlightsCorrect(correct);
    HighlightsNone([ToneStart(WRONG_TONE)]);
    HighlightsNone([ToneStop]);
  }

  lemma BlinkHighlightsCorrect(correct: ChannelId)
    ensures Highlights(BlinkEvents(correct)) == [SetPixel(SIM[correct].light, SIM[correct].color)]
  {
    var lit := SetPixel(SIM[correct].light, SIM[correct].color);
    var rest: seq<Event> := [Show, Sleep(25), Fill(BLACK), Show, Sleep(25)];
    assert BlinkEvents(correct) == [Fill(CYAN)] + [lit] + rest;
    HighlightsAppend([Fill(CYAN)] + [lit], rest);
    HighlightsAppend([Fill(CYAN)], [lit]);
    HighlightsNone(rest);
    HighlightsNone([Fill(CYAN)]);
    assert [lit][..0] == [];
  }

  lemma {:induction false} HighlightsNone(events: seq<Event>)
    requires forall k :: 0 <= k < |events| ==> !events[k].SetPixel?
    ensures Highlights(events) == []
    decreases |events|
  {
    if events != [] {
      HighlightsNone(events[..|events| - 1]);
    }
  }

  /** The mismatch feedback leaves the speaker quiet whatever it found. */
  lemma WrongChoiceLeavesSpeakerQuiet(correct: ChannelId, s: Tone.Speaker)
    ensures Tone.Replay(Tone.Guarded, s, WrongChoiceEvents(correct)) == Tone.Speaker(None, s.stray)
  {
    var body := Repeat(BlinkEvents(correct), BLINKS);
    var start: seq<Event> := [ToneStart(WRONG_TONE)];
    var stop: seq<Event> := [ToneStop];
    Tone.ReplayAppend(Tone.Guarded, s, start + body, stop);
    Tone.ReplayAppend(Tone.Guarded, s, start, body);
    SilentRepeat(BlinkEvents(correct), BLINKS);
    Tone.ReplayIgnoresSilent(Tone.Guarded, Tone.Replay(Tone.Guarded, s, start), body);
    assert stop[..0] == [];
  }

  /**
   * With `start_tone` as written, feedback that begins while a stream plays
   * strands that stream; it ends with the handle released.
   */
  lemma FeedbackWhilePlayingStrands(correct: ChannelId, s: Tone.Speaker)
    requires s.sample.Some?
    ensures Tone.Replay(Tone.AsWritten, s, WrongChoiceEvents(correct)) == Tone.Speaker(None, s.stray + 1)
  {
    var body := Repeat(BlinkEvents(correct), BLINKS);
    var start: seq<Event> := [ToneStart(WRONG_TONE)];
    var stop: seq<Event> := [ToneStop];
    Tone.ReplayAppend(Tone.AsWritten, s, start + body, stop);
    Tone.ReplayAppend(Tone.AsWritten, s, start, body);
    Tone.ReplayOne(Tone.AsWritten, s, ToneStart(WRONG_TONE));
    SilentRepeat(BlinkEvents(correct), BLINKS);
    Tone.ReplayIgnoresSilent(Tone.AsWritten, Tone.Replay(Tone.AsWritten, s, start), body);
    Tone.ReplayOne(Tone.AsWritten, Tone.Replay(Tone.AsWritten, s, start + body), ToneStop);
  }

  lemma {:induction false} SilentRepeat(block: seq<Event>, count: nat)
    requires forall k :: 0 <= k < |block| ==> Silent(block[k])
    ensures forall k :: 0 <= k < |Repeat(block, count)| ==> Silent(Repeat(block, count)[k])
  {
    if count > 0 {
      SilentRepeat(block, count - 1);
    }
  }
}

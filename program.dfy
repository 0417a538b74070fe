/**
 * The program's global state and its imperative procedures: the pattern,
 * the playback speed, the speaker handle, and the hardware output the
 * procedures produce. Each procedure is proved to do what the pure
 * definitions of the other modules say.
 */
module Program {
  import opened Board
  import Tone
  import Buttons
  import Playback
  import opened InputJudge
  import opened Rounds

  class Simon {
    /** The globals `pattern` and `sim_speed` (in hundredths of a second). */
    var pattern: seq<ChannelId>
    var simSpeed: int
    /** The global `_sample`, and the streams playing on the speaker. */
    var speaker: Tone.Speaker
    /** Every call made into the pixel strip, the speaker and the clock, in order. */
    var output: seq<Event>

    /** At most one stream plays, and it is the one the handle refers to: none is stranded. */
    ghost predicate Valid()
      reads this`speaker
    {
      speaker.stray == 0
    }

    constructor ()
      ensures Valid()
      ensures pattern == [] && simSpeed == INITIAL_SPEED && speaker == Tone.QUIET && output == []
    {
      pattern := [];
      simSpeed := INITIAL_SPEED;
      speaker := Tone.QUIET;
      output := [];
    }

    /** Pixel writes, commits and sleeps: recorded, and the speaker is untouched. */
    method Record(events: seq<Event>)
      requires Valid()
      modifies this`output, this`speaker
      ensures Valid()
      ensures output == old(output) + events && speaker == old(speaker)
    {
      output := output + events;
    }

    /**
     * `start_tone`: size the sine table and its rate, and start a looping
     * stream unless one is already playing.
     */
    method StartTone(frequency: nat)
      requires Valid()
      modifies this`output, this`speaker
      ensures Valid()
      ensures output == old(output) + [ToneStart(frequency)]
      ensures speaker == Tone.StartTone(old(speaker), frequency)
    {
      output := output + [ToneStart(frequency)];
      if speaker.sample.None? {
        var length := Tone.TABLE_LENGTH;
        if length * frequency > Tone.RATE_CEILING {
          length := Tone.RATE_CEILING / frequency;
        }
        speaker := Tone.Speaker(Some(Tone.Playback(frequency, length, length * frequency)), speaker.stray);
      }
    }

    /** `stop_tone`: stop and release the live stream, if any. */
    method StopTone()
      requires Valid()
      modifies this`output, this`speaker
      ensures Valid()
      ensures output == old(output) + [ToneStop]
      ensures speaker == Tone.StopTone(old(speaker))
    {
      output := output + [ToneStop];
      if speaker.sample.Some? {
        speaker := Tone.Speaker(None, speaker.stray);
      }
    }

    /** `make_pattern`: append the round's random choice. */
    method MakePattern(choice: int)
      requires 0 <= choice < |SIM|
      modifies this`pattern
      ensures pattern == old(pattern) + [choice]
    {
      pattern := pattern + [choice];
    }

    /** One demonstrated entry of `show_pattern`. */
    method ShowEntry(p: ChannelId)
      requires Valid()
      modifies this`output, this`speaker
      ensures Valid()
      ensures output == old(output) + Playback.EntryEvents(p, simSpeed)
      ensures speaker == Tone.Speaker(None, old(speaker).stray)
    {
      StartTone(SIM[p].tone);
      Record([SetPixel(SIM[p].light, SIM[p].color), Show, Sleep(simSpeed * 2)]);
      StopTone();
      Record([SetPixel(SIM[p].light, BLACK), Show, Sleep(simSpeed)]);
    }

    /** `show_pattern`: demonstrate every entry, in order, at the current speed. */
    method ShowPattern()
      requires Valid()
      modifies this`output, this`speaker
      ensures Valid()
      ensures output == old(output) + Playback.ShowEvents(pattern, simSpeed)
      ensures pattern != [] ==> speaker == Tone.Speaker(None, old(speaker).stray)
      ensures pattern == [] ==> speaker == old(speaker)
    {
      for k := 0 to |pattern|
        invariant Valid()
        invariant output == old(output) + Playback.ShowEvents(pattern[..k], simSpeed)
        invariant k > 0 ==> speaker == Tone.Speaker(None, old(speaker).stray)
        invariant k == 0 ==> speaker == old(speaker)
      {
        ShowEntry(pattern[k]);
        assert pattern[..k + 1][..k] == pattern[..k];
      }
      assert pattern[..|pattern|] == pattern;
    }

    /** One blink of `wrong_choice`. */
    method Blink(correct: ChannelId)
      requires Valid()
      modifies this`output, this`speaker
      ensures Valid()
      ensures output == old(output) + Playback.BlinkEvents(correct)
      ensures speaker == old(speaker)
    {
      Record([Fill(CYAN), SetPixel(SIM[correct].light, SIM[correct].color), Show, Sleep(25)]);
      Record([Fill(BLACK), Show, Sleep(25)]);
    }

    /**
     * `wrong_choice`: the 300 Hz tone while the correct channel's light
     * blinks five times; the wrong channel is not used.
     */
    method WrongChoice(correct: ChannelId, incorrect: ChannelId)
      requires Valid()
      modifies this`output, this`speaker
      ensures Valid()
      ensures output == old(output) + Playback.WrongChoiceEvents(correct)
      ensures speaker == Tone.Speaker(None, old(speaker).stray)
    {
      StartTone(WRONG_TONE);
      for i := 0 to BLINKS
        invariant Valid()
        invariant speaker == Tone.StartTone(old(speaker), WRONG_TONE)
        invariant output == old(output) + [ToneStart(WRONG_TONE)] + Playback.Repeat(Playback.BlinkEvents(correct), i)
      {
        Blink(correct);
      }
      StopTone();
    }

    /** A new press in `user_input_loop`: light only the pressed channel and start its tone. */
    method LightPress(c: ChannelId)
      requires Valid()
      modifies this`output, this`speaker
      ensures Valid()
      ensures output == old(output) + PressEvents(c)
      ensures speaker == Tone.StartTone(old(speaker), SIM[c].tone)
    {
      Record([Fill(BLACK), SetPixel(SIM[c].light, SIM[c].color), Show]);
      StartTone(SIM[c].tone);
    }

    /** A release in `user_input_loop`: lights out, tone off. */
    method LightsOut()
      requires Valid()
      modifies this`output, this`speaker
      ensures Valid()
      ensures output == old(output) + RELEASE_EVENTS
      ensures speaker == Tone.StopTone(old(speaker))
    {
      Record([Fill(BLACK), Show]);
      StopTone();
    }

    /** A wrong press in `user_input_loop`: the wrong tone is heard for a moment, then stopped. */
    method Reject()
      requires Valid()
      modifies this`output, this`speaker
      ensures Valid()
      ensures output == old(output) + [Sleep(WRONG_DELAY), ToneStop]
      ensures speaker == Tone.StopTone(old(speaker))
    {
      Record([Sleep(WRONG_DELAY)]);
      StopTone();
    }

    /**
     * One iteration of the polling loop of `user_input_loop` on the poll `x`,
     * taken in state (`last`, `place`): either the round goes on in state
     * (`last'`, `place'`), or it stops with `outcome`.
     */
    method HandlePoll(last: Option<ChannelId>, place: nat, x: Option<ChannelId>)
      returns (stop: bool, outcome: Outcome, last': Option<ChannelId>, place': nat)
      requires Valid() && place <= |pattern|
      modifies this`output, this`speaker
      ensures Valid() && place' <= |pattern|
      ensures Takes(StepPoll(pattern, last, place, x), stop, outcome, last', place')
      ensures output == old(output) + Emitted(StepPoll(pattern, last, place, x))
      // the tone plays after a new press unless it was rejected, and stops on a release
      ensures x == last ==> speaker == old(speaker)
      ensures x != last && x.None? ==> speaker.sample.None?
      ensures x != last && x.Some? ==> (speaker.sample.Some? <==> !(stop && outcome.Mismatch?))
      ensures x != last && x.Some? && !(stop && outcome.Mismatch?) ==>
        speaker == Tone.StartTone(old(speaker), SIM[x.value].tone)
      ensures !stop ==> last' == x
      ensures !stop && last'.None? ==> place' < |pattern| || (x == last && place' == place)
    {
      stop, outcome, last', place' := false, Success, last, place;
      if x == last {
        return;
      }
      if x.None? {
        // the button was released: lights out, and the round is won if the pattern is complete
        LightsOut();
        last' := None;
        if place == |pattern| {
          Record([Sleep(SETTLE)]);
          stop := true;
        }
        return;
      }
      var c := x.value;
      LightPress(c);
      last' := x;
      if place == |pattern| {
        // the program indexes `pattern` at its length here
        stop, outcome := true, PressAfterComplete(c);
      } else if pattern[place] == c {
        place' := place + 1;
      } else {
        Reject();
        stop, outcome := true, Mismatch(pattern[place], c);
      }
    }


    /**
     * One pass of the polling loop of `user_input_loop` over the `i`-th
     * reading, stated as the loop needs it: the round's verdict seen from
     * before the pass equals the verdict seen from after it, with the events
     * emitted by the pass moved to the front.
     */
    method PollOnce(reading: Reading, ghost polls: seq<Option<ChannelId>>, i: nat, last: Option<ChannelId>, place: nat,
                    ghost base: seq<Event>, ghost emitted: seq<Event>)
      returns (stop: bool, outcome: Outcome, last': Option<ChannelId>, place': nat, ghost emitted': seq<Event>)
      requires Valid() && place <= |pattern| && i < |polls| && polls[i] == Buttons.FirstActive(reading)
      requires output == base + emitted
      modifies this`output, this`speaker
      ensures Valid() && place' <= |pattern| && output == base + emitted'
      ensures stop && (outcome.Success? || outcome.Mismatch?) ==> speaker.sample.None?
      ensures stop ==> !outcome.Timeout? && !outcome.HeldAtTimeout?
      ensures stop && outcome.PressAfterComplete? ==> speaker.sample.Some?
      // while the round goes on, a tone plays exactly while a button is held
      ensures !stop ==> last' == polls[i]
      ensures !stop && (last.Some? <==> old(speaker).sample.Some?) ==> (last'.Some? <==> speaker.sample.Some?)
      ensures !stop && (place == |pattern| && |pattern| > 0 ==> last.Some?) ==>
        (place' == |pattern| && |pattern| > 0 ==> last'.Some?)
      ensures Prepend(emitted, JudgeFrom(pattern, polls[i..], last, place)) ==
        if stop then Verdict(outcome, emitted') else Prepend(emitted', JudgeFrom(pattern, polls[i + 1..], last', place'))
    {
      var x := Buttons.CheckButtonPress(reading);
      ghost var s := StepPoll(pattern, last, place, x);
      StepPollSpec(pattern, last, place, x);
      JudgeStep(pattern, polls, i, last, place, emitted);
      stop, outcome, last', place' := HandlePoll(last, place, x);
      emitted' := emitted + Emitted(s);
    }

    /**
     * The polling loop of `user_input_loop`: poll the buttons once per
     * reading until the round is decided or the readings (the time budget)
     * run out.
     */
    method PollButtons(readings: seq<Reading>) returns (outcome: Outcome)
      requires Valid()
      modifies this`output, this`speaker
      ensures Valid()
      ensures var v := Judge(pattern, Buttons.Scan(readings));
        outcome == v.outcome && output == old(output) + v.events
      ensures outcome.Success? || outcome.Mismatch? ==> speaker.sample.None?
      // at the timeout, a tone still plays exactly when the last poll found a button held
      ensures old(speaker).sample.None? && (outcome.Timeout? || outcome.HeldAtTimeout?) ==>
        (speaker.sample.Some? <==> |readings| > 0 && Buttons.Scan(readings)[|readings| - 1].Some?)
      // a complete reproduction that was never released: a button is still held and a tone plays
      ensures old(speaker).sample.None? && outcome.HeldAtTimeout? && |pattern| > 0 ==> speaker.sample.Some?
      ensures outcome.PressAfterComplete? ==> speaker.sample.Some?
    {
      ghost var polls := Buttons.Scan(readings);
      ghost var emitted: seq<Event> := [];
      var lastPress: Option<ChannelId> := None;
      var place: nat := 0;
      var i := 0;
      assert polls[0..] == polls;
      while i < |readings|
        invariant i <= |readings| && place <= |pattern|
        invariant Valid() && output == old(output) + emitted
        invariant Judge(pattern, polls) == Prepend(emitted, JudgeFrom(pattern, polls[i..], lastPress, place))
        invariant i == 0 ==> lastPress == None && speaker == old(speaker)
        invariant i > 0 ==> lastPress == polls[i - 1]
        invariant old(speaker).sample.None? ==> (lastPress.Some? <==> speaker.sample.Some?)
        invariant place == |pattern| && |pattern| > 0 ==> lastPress.Some?
        decreases |readings| - i
      {
        var stop;
        stop, outcome, lastPress, place, emitted := PollOnce(readings[i], polls, i, lastPress, place, old(output), emitted);
        if stop {
          return;
        }
        i := i + 1;
      }
      assert polls[i..] == [];
      if place < |pattern| {
        outcome := Timeout(pattern[place]);
      } else {
        // the program indexes `pattern` at its length here
        outcome := HeldAtTimeout;
      }
    }

    /**
     * `user_input_loop`: the polling loop, then, when it returns False on a
     * mismatch or a timeout, `wrong_choice` for the expected entry (the
     * program calls it right before each of those returns).
     */
    method UserInputLoop(readings: seq<Reading>) returns (outcome: Outcome)
      requires Valid()
      modifies this`output, this`speaker
      ensures Valid()
      ensures var v := Judge(pattern, Buttons.Scan(readings));
        outcome == v.outcome && output == old(output) + AllEvents(v)
      ensures outcome.Success? || outcome.Mismatch? || outcome.Timeout? ==> speaker.sample.None?
      // the IndexError at the timeout comes while a button is still held and a tone plays
      ensures old(speaker).sample.None? && outcome.HeldAtTimeout? ==>
        (speaker.sample.Some? <==> |readings| > 0 && Buttons.Scan(readings)[|readings| - 1].Some?)
      ensures old(speaker).sample.None? && outcome.HeldAtTimeout? && |pattern| > 0 ==> speaker.sample.Some?
      ensures outcome.PressAfterComplete? ==> speaker.sample.Some?
    {
      outcome := PollButtons(readings);
      ghost var v := Judge(pattern, Buttons.Scan(readings));
      AppendAssoc(old(output), v.events, Feedback(v.outcome));
      match outcome
      case Mismatch(correct, pressed) => WrongChoice(correct, pressed);
      case Timeout(correct) => WrongChoice(correct, 0);
      case _ =>
    }

    /** Round `i` of `main`: grow the pattern, demonstrate it, judge the input. */
    method PlayRound(choices: seq<ChannelId>, readings: seq<seq<Reading>>, i: nat) returns (outcome: Outcome)
      requires Valid() && WellFormed(choices, readings) && i < MAX_ROUNDS
      requires pattern == choices[..i] && simSpeed == Speed(i)
      modifies this
      ensures Valid() && pattern == PatternOf(choices, i) && simSpeed == Speed(i)
      ensures outcome == RoundOutcome(choices, readings, i)
      ensures output == old(output) + Round(choices, readings, i)
      ensures outcome.Success? || outcome.Mismatch? || outcome.Timeout? ==> speaker.sample.None?
      // the program's IndexError always comes while a tone plays
      ensures outcome.HeldAtTimeout? || outcome.PressAfterComplete? ==> speaker.sample.Some?
    {
      MakePattern(choices[i]);
      assert pattern == PatternOf(choices, i);
      ShowPattern();
      outcome := UserInputLoop(readings[i]);
      AppendAssoc(old(output), Playback.ShowEvents(PatternOf(choices, i), Speed(i)),
                  AllEvents(RoundVerdict(choices, readings, i)));
    }

    /** The trace bookkeeping of one won round: its events and the pause after it join what came before. */
    static lemma WonRoundTrace(start: seq<Event>, emitted: seq<Event>, round: seq<Event>, rest: GameRun)
      ensures (start + emitted + round) + [Sleep(WIN_PAUSE)] == start + (emitted + round + [Sleep(WIN_PAUSE)])
      ensures Then(emitted, Then(round + [Sleep(WIN_PAUSE)], rest)) == Then(emitted + round + [Sleep(WIN_PAUSE)], rest)
    {
      AppendAssoc(start, emitted + round, [Sleep(WIN_PAUSE)]);
      AppendAssoc(emitted, round, [Sleep(WIN_PAUSE)]);
      ThenTwice(emitted, round + [Sleep(WIN_PAUSE)], rest);
    }

    /**
     * One pass of the round loop of `main`: play round `i`, and after a won
     * round speed up and pause. `emitted` is what the game has emitted so far.
     */
    method RoundStep(choices: seq<ChannelId>, readings: seq<seq<Reading>>, i: nat,
                     ghost start: seq<Event>, ghost emitted: seq<Event>)
      returns (outcome: Outcome, ghost emitted': seq<Event>)
      requires Valid() && WellFormed(choices, readings) && i < MAX_ROUNDS
      requires pattern == choices[..i] && simSpeed == Speed(i)
      requires output == start + emitted
      modifies this
      ensures Valid() && output == start + emitted'
      ensures outcome == RoundOutcome(choices, readings, i)
      ensures outcome.Success? || outcome.Mismatch? || outcome.Timeout? ==> speaker.sample.None?
      ensures outcome.HeldAtTimeout? || outcome.PressAfterComplete? ==> speaker.sample.Some?
      ensures outcome == Success ==>
        pattern == choices[..i + 1] && simSpeed == Speed(i + 1) &&
        Then(emitted, PlayFrom(Results(choices, readings), i)) == Then(emitted', PlayFrom(Results(choices, readings), i + 1))
      ensures outcome != Success ==>
        pattern == PatternOf(choices, i) && simSpeed == Speed(i) &&
        Then(emitted, PlayFrom(Results(choices, readings), i)) == GameRun(EndOf(outcome), i, emitted')
    {
      outcome := PlayRound(choices, readings, i);
      ghost var round := Round(choices, readings, i);
      PlayFromUnfold(Results(choices, readings), i);
      AppendAssoc(start, emitted, round);
      if outcome != Success {
        emitted' := emitted + round;
        return;
      }
      // speed up after each won round
      simSpeed := simSpeed - SPEED_STEP;
      Record([Sleep(WIN_PAUSE)]);
      WonRoundTrace(start, emitted, round, PlayFrom(Results(choices, readings), i + 1));
      emitted' := emitted + round + [Sleep(WIN_PAUSE)];
    }

    /**
     * The round loop of `main`: rounds are played until one is not won or
     * MAX_ROUNDS have been won.
     */
    method PlayRounds(choices: seq<ChannelId>, readings: seq<seq<Reading>>) returns (end: GameEnd)
      requires Valid() && pattern == [] && simSpeed == INITIAL_SPEED
      requires WellFormed(choices, readings)
      modifies this
      ensures Valid()
      ensures var r := PlayFrom(Results(choices, readings), 0);
        end == r.end && output == old(output) + r.events
      ensures speaker.sample.Some? <==> end.Crashed?
      ensures end.Crashed? ==>
        var w := PlayFrom(Results(choices, readings), 0).won;
        w < MAX_ROUNDS && pattern == PatternOf(choices, w) && simSpeed == Speed(w)
    {
      ghost var emitted: seq<Event> := [];
      var i := 0;
      while i < MAX_ROUNDS
        invariant i <= MAX_ROUNDS
        invariant Valid() && pattern == choices[..i] && simSpeed == Speed(i)
        invariant output == old(output) + emitted
        invariant PlayFrom(Results(choices, readings), 0) == Then(emitted, PlayFrom(Results(choices, readings), i))
        invariant i > 0 ==> speaker.sample.None?
      {
        var outcome;
        outcome, emitted := RoundStep(choices, readings, i, old(output), emitted);
        if outcome != Success {
          end := EndOf(outcome);
          return;
        }
        i := i + 1;
      }
      assert emitted + [] == emitted;
      end := Completed;
    }

    /**
     * One game of `main`: up to MAX_ROUNDS rounds, then the reset of the
     * pattern and the speed, unless an IndexError ended the program.
     */
    method PlayGame(choices: seq<ChannelId>, readings: seq<seq<Reading>>) returns (end: GameEnd)
      requires Valid() && pattern == [] && simSpeed == INITIAL_SPEED
      requires WellFormed(choices, readings)
      modifies this
      ensures Valid()
      ensures var g := Game(choices, readings);
        end == g.end && output == old(output) + g.events
      ensures !end.Crashed? ==> pattern == [] && simSpeed == INITIAL_SPEED
      // a tone is left playing exactly when the program crashed
      ensures speaker.sample.Some? <==> end.Crashed?
      ensures end.Crashed? ==>
        var w := Game(choices, readings).won;
        w < MAX_ROUNDS && pattern == PatternOf(choices, w) && simSpeed == Speed(w)
    {
      end := PlayRounds(choices, readings);
      if end.Crashed? {
        return;
      }
      AppendAssoc(old(output), PlayFrom(Results(choices, readings), 0).events, [Sleep(RESET_PAUSE)]);
      pattern := [];
      simSpeed := INITIAL_SPEED;
      Record([Sleep(RESET_PAUSE)]);
    }
  }
}

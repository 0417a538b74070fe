/**
 * The input judge (`user_input_loop`): an edge-detecting state machine over
 * the polled button state, with the cursor `place` into the pattern and the
 * previous poll `last`. The round's time budget is the finite sequence of
 * polls taken within it; running out of polls is the timeout.
 */
module InputJudge {
  import opened Board
  import Playback
  import Tone

  /**
   * How a round's input phase ends. The last two are the two places where
   * the program indexes the pattern at its length and raises an IndexError:
   * a new press after the final correct one without a release in between,
   * and the time running out while the final correct press is still held.
   */
  datatype Outcome =
    | Success
    | Mismatch(correct: ChannelId, pressed: ChannelId)
    | Timeout(correct: ChannelId)
    | PressAfterComplete(pressed: ChannelId)
    | HeldAtTimeout

  /**
   * An outcome together with the hardware events the polling loop emitted
   * on the way (the feedback that follows a mismatch or a timeout is `Feedback`).
   */
  datatype Verdict = Verdict(outcome: Outcome, events: seq<Event>)

  /** The effect of one poll: go on in a new state, or end the round. */
  datatype Step =
    | Continue(last: Option<ChannelId>, place: nat, events: seq<Event>)
    | Stop(verdict: Verdict)

  /** Settle delay after the final release, and the delay before the mismatch feedback (hundredths). */
  const SETTLE := 60
  const WRONG_DELAY := 20

  /** A new press: clear the strip, light the pressed channel, start its tone. */
  function PressEvents(c: ChannelId): seq<Event> {
    [Fill(BLACK), SetPixel(SIM[c].light, SIM[c].color), Show, ToneStart(SIM[c].tone)]
  }

  /** A release: clear the strip and stop the tone. */
  const RELEASE_EVENTS: seq<Event> := [Fill(BLACK), Show, ToneStop]

  /** One iteration of the polling loop on the poll `x`. */
  function StepPoll(pattern: seq<ChannelId>, last: Option<ChannelId>, place: nat, x: Option<ChannelId>): Step
    requires place <= |pattern|
  {
    if x == last then Continue(last, place, [])
    else match x
      case None =>
        if place == |pattern| then Stop(Verdict(Success, RELEASE_EVENTS + [Sleep(SETTLE)]))
        else Continue(None, place, RELEASE_EVENTS)
      case Some(c) =>
        if place == |pattern| then Stop(Verdict(PressAfterComplete(c), PressEvents(c)))
        else if pattern[place] == c then Continue(x, place + 1, PressEvents(c))
        else Stop(Verdict(Mismatch(pattern[place], c),
                          PressEvents(c) + [Sleep(WRONG_DELAY), ToneStop]))
  }

  /** The events a step emits, whether the round goes on or stops. */
  function Emitted(s: Step): seq<Event> {
    if s.Continue? then s.events else s.verdict.events
  }

  /** After step `s` the polling loop holds `stop`, `outcome`, `last` and `place`. */
  predicate Takes(s: Step, stop: bool, outcome: Outcome, last: Option<ChannelId>, place: nat) {
    if s.Continue? then !stop && last == s.last && place == s.place
    else stop && outcome == s.verdict.outcome
  }

  /** What one poll does to the judge's state. */
  lemma StepPollSpec(pattern: seq<ChannelId>, last: Option<ChannelId>, place: nat, x: Option<ChannelId>)
    requires place <= |pattern|
    ensures var r := StepPoll(pattern, last, place, x);
      // edge triggering: a poll equal to the previous one changes nothing
      && (x == last ==> r == Continue(last, place, []))
      && (r.Continue? ==> r.last == x && r.place <= |pattern|)
      // the cursor moves by one, and only on a new press of the expected channel
      && (r.Continue? && r.place != place ==> r.place == place + 1 && x != last && x == Some(pattern[place]))
      && (x != last && place < |pattern| && x == Some(pattern[place]) ==> r.Continue? && r.place == place + 1)
      // success only on a release taken with the whole pattern entered
      && ((r.Stop? && r.verdict.outcome == Success) <==> (x.None? && x != last && place == |pattern|))
      // a new press of any other channel, even straight from another button, is a mismatch
      && ((r.Stop? && r.verdict.outcome.Mismatch?) <==> (x.Some? && x != last && place < |pattern| && x.value != pattern[place]))
      && (r.Stop? && r.verdict.outcome.Mismatch? ==> r.verdict.outcome == Mismatch(pattern[place], x.value))
      // a new press after the final correct one, with no release between, reaches the IndexError
      && ((r.Stop? && r.verdict.outcome.PressAfterComplete?) <==> (x.Some? && x != last && place == |pattern|))
      && (r.Stop? ==> !r.verdict.outcome.Timeout? && !r.verdict.outcome.HeldAtTimeout?)
  {
  }

  /**
   * The mismatch feedback that `user_input_loop` plays right before it
   * returns False: `wrong_choice` for the expected entry, on a mismatch and
   * on a timeout alike.
   */
  function Feedback(o: Outcome): seq<Event> {
    match o
    case Mismatch(correct, _) => Playback.WrongChoiceEvents(correct)
    case Timeout(correct) => Playback.WrongChoiceEvents(correct)
    case _ => []
  }

  /** Every hardware event of a round's input phase: the polling loop's, then the feedback. */
  function AllEvents(v: Verdict): seq<Event> {
    v.events + Feedback(v.outcome)
  }

  /** The polls ran out: the feedback for the expected entry, or the IndexError when there is none. */
  function TimeUp(pattern: seq<ChannelId>, place: nat): Verdict
    requires place <= |pattern|
  {
    if place < |pattern| then Verdict(Timeout(pattern[place]), [])
    else Verdict(HeldAtTimeout, [])
  }

  function Prepend(events: seq<Event>, v: Verdict): Verdict {
    Verdict(v.outcome, events + v.events)
  }

  /** The rest of the round from state (`last`, `place`) on the remaining `polls`. */
  function JudgeFrom(pattern: seq<ChannelId>, polls: seq<Option<ChannelId>>, last: Option<ChannelId>, place: nat): Verdict
    requires place <= |pattern|
    decreases |polls|
  {
    if polls == [] then TimeUp(pattern, place)
    else match StepPoll(pattern, last, place, polls[0])
      case Continue(last', place', events) => Prepend(events, JudgeFrom(pattern, polls[1..], last', place'))
      case Stop(v) => v
  }

  /** The polling loop's bookkeeping: one poll consumed, with the events it emits moved to the front. */
  lemma JudgeStep(pattern: seq<ChannelId>, polls: seq<Option<ChannelId>>, i: nat, last: Option<ChannelId>, place: nat,
                  emitted: seq<Event>)
    requires place <= |pattern| && i < |polls|
    ensures var s := StepPoll(pattern, last, place, polls[i]);
      Prepend(emitted, JudgeFrom(pattern, polls[i..], last, place)) ==
        if s.Continue? then Prepend(emitted + s.events, JudgeFrom(pattern, polls[i + 1..], s.last, s.place))
        else Prepend(emitted, s.verdict)
  {
    assert polls[i..][0] == polls[i] && polls[i..][1..] == polls[i + 1..];
    var s := StepPoll(pattern, last, place, polls[i]);
    if s.Continue? {
      PrependTwice(emitted, s.events, JudgeFrom(pattern, polls[i + 1..], s.last, s.place));
    }
  }

  /** One poll of the round, unfolded. */
  lemma JudgeFromUnfold(pattern: seq<ChannelId>, polls: seq<Option<ChannelId>>, last: Option<ChannelId>, place: nat)
    requires place <= |pattern| && polls != []
    ensures var step := StepPoll(pattern, last, place, polls[0]);
      JudgeFrom(pattern, polls, last, place) ==
        if step.Continue? then Prepend(step.events, JudgeFrom(pattern, polls[1..], step.last, step.place)) else step.verdict
  {
  }

  lemma PrependTwice(a: seq<Event>, b: seq<Event>, v: Verdict)
    ensures Prepend(a, Prepend(b, v)) == Prepend(a + b, v)
  {
  }

  /** A whole round's input phase: nothing pressed, cursor at the start. */
  function Judge(pattern: seq<ChannelId>, polls: seq<Option<ChannelId>>): Verdict {
    JudgeFrom(pattern, polls, None, 0)
  }

  // ---------------------------------------------------------------------
  // The reference reading of a poll sequence: its press and release edges.

  /** The channel newly pressed by poll `x` after poll `last`, if any. */
  function NewPress(last: Option<ChannelId>, x: Option<ChannelId>): seq<ChannelId> {
    if x != last && x.Some? then [x.value] else []
  }

  /** The channels newly pressed along `polls`, in order, starting after `last`. */
  function Presses(last: Option<ChannelId>, polls: seq<Option<ChannelId>>): seq<ChannelId>
    decreases |polls|
  {
    if polls == [] then [] else NewPress(last, polls[0]) + Presses(polls[0], polls[1..])
  }

  /** The poll before position `k`. */
  function Prev(polls: seq<Option<ChannelId>>, last: Option<ChannelId>, k: nat): Option<ChannelId>
    requires k <= |polls|
  {
    if k == 0 then last else polls[k - 1]
  }

  /** Poll `k` is a release edge. */
  predicate ReleaseAt(polls: seq<Option<ChannelId>>, last: Option<ChannelId>, k: nat) {
    k < |polls| && polls[k].None? && Prev(polls, last, k).Some?
  }

  /** Poll `k` is a press edge (possibly straight from another button). */
  predicate PressAt(polls: seq<Option<ChannelId>>, last: Option<ChannelId>, k: nat) {
    k < |polls| && polls[k].Some? && polls[k] != Prev(polls, last, k)
  }

  /** `presses` are the pattern entries from `place` on, in order. */
  predicate Matches(pattern: seq<ChannelId>, place: nat, presses: seq<ChannelId>) {
    place + |presses| <= |pattern| && presses == pattern[place..place + |presses|]
  }

  /** Poll `k` releases after presses that reproduce exactly the rest of the pattern. */
  predicate Completes(pattern: seq<ChannelId>, polls: seq<Option<ChannelId>>, last: Option<ChannelId>, place: nat, k: nat) {
    ReleaseAt(polls, last, k) && place <= |pattern| && Presses(last, polls[..k]) == pattern[place..]
  }

  /** Poll `k` presses `y` where `c` is expected, every earlier press having been correct. */
  predicate Deviates(pattern: seq<ChannelId>, polls: seq<Option<ChannelId>>, last: Option<ChannelId>, place: nat,
                     k: nat, c: ChannelId, y: ChannelId)
  {
    PressAt(polls, last, k) && polls[k] == Some(y) &&
    var done := Presses(last, polls[..k]);
    Matches(pattern, place, done) && place + |done| < |pattern| && pattern[place + |done|] == c && c != y
  }

  /** Poll `k` presses `y` after presses that already reproduced the whole rest of the pattern. */
  predicate Overruns(pattern: seq<ChannelId>, polls: seq<Option<ChannelId>>, last: Option<ChannelId>, place: nat,
                     k: nat, y: ChannelId)
  {
    PressAt(polls, last, k) && polls[k] == Some(y) && place <= |pattern| && Presses(last, polls[..k]) == pattern[place..]
  }

  // ---------------------------------------------------------------------
  // Shifting the reference reading by one poll.

  lemma PressesShift(last: Option<ChannelId>, polls: seq<Option<ChannelId>>, k: nat)
    requires 1 <= k <= |polls|
    ensures Presses(last, polls[..k]) == NewPress(last, polls[0]) + Presses(polls[0], polls[1..][..k - 1])
  {
    assert polls[..k][0] == polls[0];
    assert polls[..k][1..] == polls[1..][..k - 1];
  }

  lemma EdgeShift(last: Option<ChannelId>, polls: seq<Option<ChannelId>>, k: nat)
    requires 1 <= k
    requires polls != []
    ensures ReleaseAt(polls, last, k) <==> ReleaseAt(polls[1..], polls[0], k - 1)
    ensures PressAt(polls, last, k) <==> PressAt(polls[1..], polls[0], k - 1)
    ensures k < |polls| ==> polls[k] == polls[1..][k - 1]
  {
  }

  /** Consuming one entry of the expected rest of the pattern. */
  lemma MatchesShift(pattern: seq<ChannelId>, place: nat, c: ChannelId, rest: seq<ChannelId>)
    requires place < |pattern| && pattern[place] == c
    ensures Matches(pattern, place, [c] + rest) <==> Matches(pattern, place + 1, rest)
    ensures [c] + rest == pattern[place..] <==> rest == pattern[place + 1..]
  {
    assert pattern[place..] == [c] + pattern[place + 1..];
    if Matches(pattern, place + 1, rest) {
      assert pattern[place..place + 1 + |rest|] == [c] + pattern[place + 1..place + 1 + |rest|];
    }
    if Matches(pattern, place, [c] + rest) {
      assert pattern[place + 1..place + 1 + |rest|] == pattern[place..place + 1 + |rest|][1..];
    }
  }

  /**
   * How one continuing step relates the reference reading before and after
   * it: the press it emits, if any, is the entry at the cursor.
   */
  lemma ContinueEmits(pattern: seq<ChannelId>, last: Option<ChannelId>, place: nat, x: Option<ChannelId>)
    requires place <= |pattern|
    requires StepPoll(pattern, last, place, x).Continue?
    ensures var r := StepPoll(pattern, last, place, x);
      (NewPress(last, x) == [] && r.place == place) ||
      (r.place == place + 1 && place < |pattern| && NewPress(last, x) == [pattern[place]])
  {
  }

  /** Shifting each edge predicate past one continuing step. */
  lemma CompletesShift(pattern: seq<ChannelId>, polls: seq<Option<ChannelId>>, last: Option<ChannelId>, place: nat, k: nat)
    requires place <= |pattern| && polls != [] && 1 <= k
    requires StepPoll(pattern, last, place, polls[0]).Continue?
    ensures var r := StepPoll(pattern, last, place, polls[0]);
      Completes(pattern, polls, last, place, k) <==> Completes(pattern, polls[1..], r.last, r.place, k - 1)
  {
    var r := StepPoll(pattern, last, place, polls[0]);
    ContinueEmits(pattern, last, place, polls[0]);
    EdgeShift(last, polls, k);
    if k <= |polls| {
      PressesShift(last, polls, k);
      if r.place != place {
        MatchesShift(pattern, place, pattern[place], Presses(polls[0], polls[1..][..k - 1]));
      }
    }
  }

  lemma DeviatesShift(pattern: seq<ChannelId>, polls: seq<Option<ChannelId>>, last: Option<ChannelId>, place: nat, k: nat,
                      c: ChannelId, y: ChannelId)
    requires place <= |pattern| && polls != [] && 1 <= k
    requires StepPoll(pattern, last, place, polls[0]).Continue?
    ensures var r := StepPoll(pattern, last, place, polls[0]);
      Deviates(pattern, polls, last, place, k, c, y) <==> Deviates(pattern, polls[1..], r.last, r.place, k - 1, c, y)
  {
    var r := StepPoll(pattern, last, place, polls[0]);
    ContinueEmits(pattern, last, place, polls[0]);
    EdgeShift(last, polls, k);
    if k <= |polls| {
      PressesShift(last, polls, k);
      if r.place != place {
        MatchesShift(pattern, place, pattern[place], Presses(polls[0], polls[1..][..k - 1]));
      }
    }
  }

  lemma OverrunsShift(pattern: seq<ChannelId>, polls: seq<Option<ChannelId>>, last: Option<ChannelId>, place: nat, k: nat,
                      y: ChannelId)
    requires place <= |pattern| && polls != [] && 1 <= k
    requires StepPoll(pattern, last, place, polls[0]).Continue?
    ensures var r := StepPoll(pattern, last, place, polls[0]);
      Overruns(pattern, polls, last, place, k, y) <==> Overruns(pattern, polls[1..], r.last, r.place, k - 1, y)
  {
    var r := StepPoll(pattern, last, place, polls[0]);
    ContinueEmits(pattern, last, place, polls[0]);
    EdgeShift(last, polls, k);
    if k <= |polls| {
      PressesShift(last, polls, k);
      if r.place != place {
        MatchesShift(pattern, place, pattern[place], Presses(polls[0], polls[1..][..k - 1]));
      }
    }
  }

  /**
   * When the first poll is a new press that ends the round (a mismatch or
   * the IndexError), every later prefix starts with that wrong press.
   */
  lemma StopOnPressPresses(pattern: seq<ChannelId>, polls: seq<Option<ChannelId>>, last: Option<ChannelId>, place: nat, k: nat)
    requires place <= |pattern| && polls != [] && 1 <= k <= |polls|
    requires StepPoll(pattern, last, place, polls[0]).Stop?
    requires polls[0].Some?
    ensures var done := Presses(last, polls[..k]);
      done != [] && done[0] == polls[0].value && (place < |pattern| ==> done[0] != pattern[place])
  {
    PressesShift(last, polls, k);
  }

  // ---------------------------------------------------------------------
  // What the outcome means in terms of the press and release edges.

  /**
   * The round is won exactly when some release follows presses that
   * reproduce the pattern in order.
   */
  lemma {:induction false} SuccessIff(pattern: seq<ChannelId>, polls: seq<Option<ChannelId>>, last: Option<ChannelId>, place: nat)
    requires place <= |pattern|
    ensures JudgeFrom(pattern, polls, last, place).outcome == Success <==> exists k: nat :: Completes(pattern, polls, last, place, k)
    decreases |polls|
  {
    if polls != [] {
      var x, rest := polls[0], polls[1..];
      var r := StepPoll(pattern, last, place, x);
      assert polls[..0] == [];
      if r.Continue? {
        SuccessIff(pattern, rest, r.last, r.place);
        assert !Completes(pattern, polls, last, place, 0);
        if exists k: nat :: Completes(pattern, rest, r.last, r.place, k) {
          var k: nat :| Completes(pattern, rest, r.last, r.place, k);
          CompletesShift(pattern, polls, last, place, k + 1);
        }
        if exists k: nat :: Completes(pattern, polls, last, place, k) {
          var k: nat :| Completes(pattern, polls, last, place, k);
          CompletesShift(pattern, polls, last, place, k);
        }
      } else if r.verdict.outcome == Success {
        assert Completes(pattern, polls, last, place, 0);
      } else {
        forall k: nat ensures !Completes(pattern, polls, last, place, k) {
          if 1 <= k <= |polls| {
            StopOnPressPresses(pattern, polls, last, place, k);
            if place < |pattern| {
              assert pattern[place..][0] == pattern[place];
            }
          }
        }
      }
    }
  }

  /**
   * The round is lost on a mismatch against `c` with `y` exactly when some
   * press of `y` comes where `c` is expected, every earlier press correct.
   */
  lemma {:induction false} MismatchIff(pattern: seq<ChannelId>, polls: seq<Option<ChannelId>>, last: Option<ChannelId>, place: nat,
                                       c: ChannelId, y: ChannelId)
    requires place <= |pattern|
    ensures JudgeFrom(pattern, polls, last, place).outcome == Mismatch(c, y) <==>
            exists k: nat :: Deviates(pattern, polls, last, place, k, c, y)
    decreases |polls|
  {
    if polls != [] {
      var x, rest := polls[0], polls[1..];
      var r := StepPoll(pattern, last, place, x);
      assert polls[..0] == [];
      if r.Continue? {
        MismatchIff(pattern, rest, r.last, r.place, c, y);
        assert !Deviates(pattern, polls, last, place, 0, c, y);
        if exists k: nat :: Deviates(pattern, rest, r.last, r.place, k, c, y) {
          var k: nat :| Deviates(pattern, rest, r.last, r.place, k, c, y);
          DeviatesShift(pattern, polls, last, place, k + 1, c, y);
        }
        if exists k: nat :: Deviates(pattern, polls, last, place, k, c, y) {
          var k: nat :| Deviates(pattern, polls, last, place, k, c, y);
          DeviatesShift(pattern, polls, last, place, k, c, y);
        }
      } else {
        forall k: nat | 1 <= k ensures !Deviates(pattern, polls, last, place, k, c, y) {
          if k <= |polls| && x.Some? {
            StopOnPressPresses(pattern, polls, last, place, k);
          }
        }
        if r.verdict.outcome == Mismatch(c, y) {
          assert Deviates(pattern, polls, last, place, 0, c, y);
        }
      }
    }
  }

  /**
   * The time runs out against `c` exactly when every press made was correct
   * but fewer than the pattern needs, `c` being the first entry missing;
   * how many correct presses came before does not matter.
   */
  lemma {:induction false} TimeoutIff(pattern: seq<ChannelId>, polls: seq<Option<ChannelId>>, last: Option<ChannelId>, place: nat,
                                      c: ChannelId)
    requires place <= |pattern|
    ensures JudgeFrom(pattern, polls, last, place).outcome == Timeout(c) <==>
            var done := Presses(last, polls);
            Matches(pattern, place, done) && place + |done| < |pattern| && pattern[place + |done|] == c
    decreases |polls|
  {
    if polls != [] {
      var x, rest := polls[0], polls[1..];
      var r := StepPoll(pattern, last, place, x);
      JudgeFromUnfold(pattern, polls, last, place);
      assert Presses(last, polls) == NewPress(last, x) + Presses(x, rest);
      if r.Continue? {
        TimeoutIff(pattern, rest, r.last, r.place, c);
        ContinueEmits(pattern, last, place, x);
        assert JudgeFrom(pattern, polls, last, place).outcome == JudgeFrom(pattern, rest, r.last, r.place).outcome;
        if r.place != place {
          MatchesShift(pattern, place, pattern[place], Presses(x, rest));
        } else {
          assert Presses(last, polls) == Presses(x, rest);
        }
      } else if x.Some? {
        assert polls[..|polls|] == polls;
        StopOnPressPresses(pattern, polls, last, place, |polls|);
      }
    }
  }

  /**
   * The IndexError of a new press after the last correct one is raised only
   * by a press that follows presses which already reproduced the pattern;
   * and such a press ends the round in that error unless a release won the
   * round before it.
   */
  lemma {:induction false} PressAfterCompleteMeans(pattern: seq<ChannelId>, polls: seq<Option<ChannelId>>, last: Option<ChannelId>,
                                                   place: nat, y: ChannelId)
    requires place <= |pattern|
    ensures JudgeFrom(pattern, polls, last, place).outcome == PressAfterComplete(y) ==>
            exists k: nat :: Overruns(pattern, polls, last, place, k, y)
    ensures (exists k: nat :: Overruns(pattern, polls, last, place, k, y)) ==>
            JudgeFrom(pattern, polls, last, place).outcome in {Success, PressAfterComplete(y)}
    decreases |polls|
  {
    if polls != [] {
      var x, rest := polls[0], polls[1..];
      var r := StepPoll(pattern, last, place, x);
      assert polls[..0] == [];
      if r.Continue? {
        PressAfterCompleteMeans(pattern, rest, r.last, r.place, y);
        assert !Overruns(pattern, polls, last, place, 0, y);
        if exists k: nat :: Overruns(pattern, rest, r.last, r.place, k, y) {
          var k: nat :| Overruns(pattern, rest, r.last, r.place, k, y);
          OverrunsShift(pattern, polls, last, place, k + 1, y);
        }
        if exists k: nat :: Overruns(pattern, polls, last, place, k, y) {
          var k: nat :| Overruns(pattern, polls, last, place, k, y);
          OverrunsShift(pattern, polls, last, place, k, y);
        }
      } else if x.Some? {
        forall k: nat | 1 <= k ensures !Overruns(pattern, polls, last, place, k, y) {
          if k <= |polls| {
            StopOnPressPresses(pattern, polls, last, place, k);
            if place < |pattern| {
              assert pattern[place..][0] == pattern[place];
            }
          }
        }
        if r.verdict.outcome == PressAfterComplete(y) {
          assert Overruns(pattern, polls, last, place, 0, y);
        }
      }
    }
  }

  /** A round decided before the polls ran out. */
  predicate Decided(o: Outcome) {
    o.Success? || o.Mismatch? || o.PressAfterComplete?
  }

  /** Once decided, a round's verdict does not depend on any later poll. */
  lemma {:induction false} DecisionIgnoresLaterPolls(pattern: seq<ChannelId>, polls: seq<Option<ChannelId>>,
                                                     more: seq<Option<ChannelId>>, last: Option<ChannelId>, place: nat)
    requires place <= |pattern|
    requires Decided(JudgeFrom(pattern, polls, last, place).outcome)
    ensures JudgeFrom(pattern, polls + more, last, place) == JudgeFrom(pattern, polls, last, place)
    decreases |polls|
  {
    assert polls != [];
    assert (polls + more)[0] == polls[0];
    assert (polls + more)[1..] == polls[1..] + more;
    var r := StepPoll(pattern, last, place, polls[0]);
    if r.Continue? {
      DecisionIgnoresLaterPolls(pattern, polls[1..], more, r.last, r.place);
    }
  }

  /** A new press starts its channel's tone on a quiet speaker, in either form of `start_tone`. */
  lemma PressStartsTone(mode: Tone.StartMode, s: Tone.Speaker, c: ChannelId)
    requires s.sample.None?
    ensures var t := Tone.Replay(mode, s, PressEvents(c));
      t.sample == Some(Tone.TableFor(SIM[c].tone)) && t.stray == s.stray
    ensures Tone.Replay(mode, s, PressEvents(c)).sample.value.length == Tone.TABLE_LENGTH
  {
    Tone.ProgramTonesUseFullTable(c);
    var lit: seq<Event> := [Fill(BLACK), SetPixel(SIM[c].light, SIM[c].color), Show];
    assert PressEvents(c) == lit + [ToneStart(SIM[c].tone)];
    Tone.ReplayAppend(mode, s, lit, [ToneStart(SIM[c].tone)]);
    Tone.ReplayIgnoresSilent(mode, s, lit);
    Tone.ReplayOne(mode, s, ToneStart(SIM[c].tone));
  }

  /** A new press while a stream plays: kept under the guard, replaced and stranded as written. */
  lemma PressWhilePlaying(s: Tone.Speaker, c: ChannelId)
    requires s.sample.Some?
    ensures Tone.Replay(Tone.Guarded, s, PressEvents(c)) == s
    ensures Tone.Replay(Tone.AsWritten, s, PressEvents(c)) == Tone.Speaker(Some(Tone.TableFor(SIM[c].tone)), s.stray + 1)
  {
    var lit: seq<Event> := [Fill(BLACK), SetPixel(SIM[c].light, SIM[c].color), Show];
    assert PressEvents(c) == lit + [ToneStart(SIM[c].tone)];
    Tone.ReplayAppend(Tone.Guarded, s, lit, [ToneStart(SIM[c].tone)]);
    Tone.ReplayIgnoresSilent(Tone.Guarded, s, lit);
    Tone.ReplayOne(Tone.Guarded, s, ToneStart(SIM[c].tone));
    Tone.ReplayAppend(Tone.AsWritten, s, lit, [ToneStart(SIM[c].tone)]);
    Tone.ReplayIgnoresSilent(Tone.AsWritten, s, lit);
    Tone.ReplayOne(Tone.AsWritten, s, ToneStart(SIM[c].tone));
  }

  /** Pattern [0, 1], button A pressed, then button B straight away and held until the polls run out. */
  lemma SwitchHeldVerdict()
    ensures Judge([0, 1], [Some(0), Some(1)]) == Verdict(HeldAtTimeout, PressEvents(0) + PressEvents(1))
  {
    assert [Some(0), Some(1)][1..] == [Some(1)];
    assert [Some(1)][1..] == [];
  }

  /**
   * The IndexError at the timeout after a direct switch: under the guard the
   * first button's tone is still the one heard while the second is held; as
   * written the second button's tone plays and the first is stranded.
   */
  lemma SwitchHeldKeepsEarlierTone()
    ensures var v := Judge([0, 1], [Some(0), Some(1)]);
      && v.outcome == HeldAtTimeout
      && Tone.Replay(Tone.Guarded, Tone.QUIET, AllEvents(v)) == Tone.Speaker(Some(Tone.TableFor(SIM[0].tone)), 0)
      && Tone.Replay(Tone.AsWritten, Tone.QUIET, AllEvents(v)) == Tone.Speaker(Some(Tone.TableFor(SIM[1].tone)), 1)
  {
    SwitchHeldVerdict();
    var v := Judge([0, 1], [Some(0), Some(1)]);
    assert AllEvents(v) == PressEvents(0) + PressEvents(1);
    Tone.ReplayAppend(Tone.Guarded, Tone.QUIET, PressEvents(0), PressEvents(1));
    Tone.ReplayAppend(Tone.AsWritten, Tone.QUIET, PressEvents(0), PressEvents(1));
    PressStartsTone(Tone.Guarded, Tone.QUIET, 0);
    PressStartsTone(Tone.AsWritten, Tone.QUIET, 0);
    PressWhilePlaying(Tone.Replay(Tone.Guarded, Tone.QUIET, PressEvents(0)), 1);
    PressWhilePlaying(Tone.Replay(Tone.AsWritten, Tone.QUIET, PressEvents(0)), 1);
  }

  /** Pattern [0, 1], button A pressed and held until the polls run out. */
  lemma HeldTimeoutVerdict()
    ensures Judge([0, 1], [Some(0)]) == Verdict(Timeout(1), PressEvents(0))
  {
    assert [Some(0)][1..] == [];
  }

  /**
   * `start_tone` as written, inside a round: with pattern [0, 1], pressing
   * button A and holding it until the time runs out leaves A's tone playing
   * when the feedback starts its own, and that stream is stranded; with the
   * intended `start_tone` nothing is.
   */
  lemma HeldTimeoutStrandsTone()
    ensures var v := Judge([0, 1], [Some(0)]);
      && v.outcome == Timeout(1)
      && Tone.Replay(Tone.AsWritten, Tone.QUIET, AllEvents(v)).stray == 1
      && Tone.Replay(Tone.Guarded, Tone.QUIET, AllEvents(v)).stray == 0
  {
    HeldTimeoutVerdict();
    var v := Judge([0, 1], [Some(0)]);
    assert AllEvents(v) == PressEvents(0) + Playback.WrongChoiceEvents(1);
    Tone.ReplayAppend(Tone.AsWritten, Tone.QUIET, PressEvents(0), Playback.WrongChoiceEvents(1));
    PressStartsTone(Tone.AsWritten, Tone.QUIET, 0);
    Playback.FeedbackWhilePlayingStrands(1, Tone.Replay(Tone.AsWritten, Tone.QUIET, PressEvents(0)));
    Tone.SingleStream(Tone.QUIET, AllEvents(v));
  }
}

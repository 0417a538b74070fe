/**
 * The round director (`main`, one game): grow the pattern by the round's
 * random choice, demonstrate it, judge the input, speed up after a win,
 * and reset after a loss or after the last round.
 */
module Rounds {
  import opened Board
  import opened InputJudge
  import Playback
  import Buttons

  /** Pause after a won round and before the next game, in hundredths. */
  const WIN_PAUSE := 100
  const RESET_PAUSE := 300

  /** The playback speed after `won` won rounds of the current game. */
  function Speed(won: nat): (s: int)
    ensures won < MAX_ROUNDS ==> s >= INITIAL_SPEED - SPEED_STEP * (MAX_ROUNDS - 1) > 0
  {
    INITIAL_SPEED - SPEED_STEP * won
  }

  /** How a game ends: all rounds won, a mismatch or a timeout, or the IndexError propagating out of `main`. */
  datatype GameEnd = Completed | Lost(outcome: Outcome) | Crashed(outcome: Outcome)

  /** A game's end, its number of won rounds and its hardware events. */
  datatype GameRun = GameRun(end: GameEnd, won: nat, events: seq<Event>)

  function Then(events: seq<Event>, r: GameRun): GameRun {
    GameRun(r.end, r.won, events + r.events)
  }

  /**
   * The supplied inputs of one game: the random channel drawn in each round
   * and the button readings polled within each round's time budget.
   */
  predicate WellFormed(choices: seq<ChannelId>, readings: seq<seq<Reading>>) {
    |choices| == MAX_ROUNDS && |readings| == MAX_ROUNDS
  }

  /** The pattern played in round `i`. */
  function PatternOf(choices: seq<ChannelId>, i: nat): (p: seq<ChannelId>)
    requires i < |choices|
    ensures |p| == i + 1
    ensures forall j :: 0 <= j <= i ==> p[j] == choices[j]
  {
    choices[..i + 1]
  }

  /** The verdict of round `i`'s input phase. */
  function RoundVerdict(choices: seq<ChannelId>, readings: seq<seq<Reading>>, i: nat): Verdict
    requires WellFormed(choices, readings) && i < MAX_ROUNDS
  {
    Judge(PatternOf(choices, i), Buttons.Scan(readings[i]))
  }

  /** The outcome of round `i`'s input phase. */
  function RoundOutcome(choices: seq<ChannelId>, readings: seq<seq<Reading>>, i: nat): Outcome
    requires WellFormed(choices, readings) && i < MAX_ROUNDS
  {
    RoundVerdict(choices, readings, i).outcome
  }

  /** The hardware events of round `i`: the demonstration, then the judged input. */
  function Round(choices: seq<ChannelId>, readings: seq<seq<Reading>>, i: nat): seq<Event>
    requires WellFormed(choices, readings) && i < MAX_ROUNDS
  {
    Playback.ShowEvents(PatternOf(choices, i), Speed(i)) + AllEvents(RoundVerdict(choices, readings, i))
  }

  /** How a round that was not won ends the game. */
  function EndOf(o: Outcome): GameEnd
    requires !o.Success?
  {
    if o.Mismatch? || o.Timeout? then Lost(o) else Crashed(o)
  }

  /** What round `i` contributes to the game: its input outcome and every hardware event it causes. */
  datatype RoundResult = RoundResult(outcome: Outcome, events: seq<Event>)

  /** The results of all rounds of a game, as if every round were reached. */
  function Results(choices: seq<ChannelId>, readings: seq<seq<Reading>>): (rs: seq<RoundResult>)
    requires WellFormed(choices, readings)
    ensures |rs| == MAX_ROUNDS
    ensures forall i :: 0 <= i < MAX_ROUNDS ==> rs[i] == RoundResult(RoundOutcome(choices, readings, i), Round(choices, readings, i))
  {
    seq(MAX_ROUNDS, i requires 0 <= i < MAX_ROUNDS => RoundResult(RoundOutcome(choices, readings, i), Round(choices, readings, i)))
  }

  /**
   * Rounds `i` onwards: a won round is followed by the win pause and the
   * next round, the first round not won ends the game.
   */
  function PlayFrom(rs: seq<RoundResult>, i: nat): GameRun
    requires i <= |rs|
    decreases |rs| - i
  {
    if i == |rs| then GameRun(Completed, i, [])
    else if rs[i].outcome == Success then Then(rs[i].events + [Sleep(WIN_PAUSE)], PlayFrom(rs, i + 1))
    else GameRun(EndOf(rs[i].outcome), i, rs[i].events)
  }

  /** One unfolding of the round loop, as the imperative game takes it. */
  lemma PlayFromUnfold(rs: seq<RoundResult>, i: nat)
    requires i < |rs|
    ensures PlayFrom(rs, i) ==
      if rs[i].outcome == Success then Then(rs[i].events + [Sleep(WIN_PAUSE)], PlayFrom(rs, i + 1))
      else GameRun(EndOf(rs[i].outcome), i, rs[i].events)
  {
  }

  lemma ThenTwice(a: seq<Event>, b: seq<Event>, r: GameRun)
    ensures Then(a, Then(b, r)) == Then(a + b, r)
  {
    assert a + (b + r.events) == (a + b) + r.events;
  }

  /** One game from the reset state; unless it crashed it ends with the reset pause. */
  function Game(choices: seq<ChannelId>, readings: seq<seq<Reading>>): GameRun
    requires WellFormed(choices, readings)
  {
    var r := PlayFrom(Results(choices, readings), 0);
    if r.end.Crashed? then r else GameRun(r.end, r.won, r.events + [Sleep(RESET_PAUSE)])
  }

  /**
   * A game wins exactly the rounds before its first non-winning round; it
   * completes exactly when every round is won, and otherwise ends with that
   * round's outcome, as a loss for a mismatch or timeout and as a crash for
   * an IndexError.
   */
  lemma {:induction false} PlayFromWins(rs: seq<RoundResult>, i: nat)
    requires i <= |rs|
    ensures var r := PlayFrom(rs, i);
      && i <= r.won <= |rs|
      && (forall j :: i <= j < r.won ==> rs[j].outcome == Success)
      && (r.end == Completed <==> r.won == |rs|)
      && (r.won < |rs| ==> rs[r.won].outcome != Success && r.end == EndOf(rs[r.won].outcome))
    decreases |rs| - i
  {
    if i < |rs| && rs[i].outcome == Success {
      PlayFromWins(rs, i + 1);
    }
  }

  /** The game as a whole: the same facts from the first round, and the reset pause at the end unless it crashed. */
  lemma GameWins(choices: seq<ChannelId>, readings: seq<seq<Reading>>)
    requires WellFormed(choices, readings)
    ensures var g := Game(choices, readings);
      && g.won <= MAX_ROUNDS
      && (forall j :: 0 <= j < g.won ==> RoundOutcome(choices, readings, j) == Success)
      && (g.end == Completed <==> g.won == MAX_ROUNDS)
      && (g.won < MAX_ROUNDS ==>
            RoundOutcome(choices, readings, g.won) != Success && g.end == EndOf(RoundOutcome(choices, readings, g.won)))
      && (!g.end.Crashed? ==> |g.events| > 0 && g.events[|g.events| - 1] == Sleep(RESET_PAUSE))
  {
    var rs := Results(choices, readings);
    PlayFromWins(rs, 0);
    var r := PlayFrom(rs, 0);
    assert Game(choices, readings) == if r.end.Crashed? then r else GameRun(r.end, r.won, r.events + [Sleep(RESET_PAUSE)]);
  }
}

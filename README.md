# Simon Says (two onboard buttons) in Dafny

This project models the core of `SimonSays-Onboard-NoCPX.py`, a memory game
for a board with two buttons, a ring of RGB pixels and a speaker. Each round
the program appends a random channel to the pattern and plays the pattern
back (light and tone per entry). It then polls the buttons until the player
reproduces the pattern, presses a wrong button or runs out of time. After a
win it speeds up; after a loss, or after eight won rounds, it resets.

The model has seven modules:

- `Board` holds the fixed configuration. It has the colours, the two pixel
  positions, the channel registry `SIM` (button A: pixel 2, green, 360 Hz;
  button B: pixel 7, yellow, 390 Hz) and the game constants. It also defines
  the `Event` type. An event records one call into the hardware: a strip
  fill, a pixel write, a commit, a tone start or stop, or a sleep.
- `Buttons` models `check_button_press`: the lowest-numbered button that
  reads active, or none.
- `Tone` models `start_tone` and `stop_tone`. It covers the sizing of the
  sine table and its sample rate. It also covers the life cycle of the
  single global `_sample` handle, as a `Speaker` value that counts streams
  left playing with no handle.
- `Playback` gives the event sequences of `show_pattern` and `wrong_choice`.
- `InputJudge` models `user_input_loop` as a pure step function over polls.
  It is edge-triggered: it acts only when the poll differs from the previous
  one, with a cursor into the pattern. A round's ten-second budget becomes
  the finite sequence of polls taken within it, and running out of polls is
  the timeout. The module also gives an independent reading of a poll
  sequence as press and release edges, proved equivalent to the judge.
- `Rounds` models one game of `main`: the rounds, the speed, the pause after
  a win and the reset.
- `Program` holds the class `Simon`. Its fields are the globals `pattern`,
  `sim_speed` and `_sample`, plus the trace of hardware calls. Its methods
  are the program's procedures, with the same loops and branches, each
  proved to produce exactly the trace the pure modules define and to leave
  the speaker handle in the state those calls put it in: silent after a won,
  mismatched or timed-out round, and with a tone still playing when the
  program's IndexError ends a round. After a direct switch from one button
  to the next, that tone is the earlier button's (see
  `InputJudge.SwitchHeldKeepsEarlierTone`). One exception:
  the class's `start_tone` takes the guard as intended (start only when
  nothing plays). The start as written is modelled in `Tone` and in the
  Findings below.

Two places in `user_input_loop` index `pattern[pattern_place]` when the
cursor already equals the pattern's length:

- line 106, on a new press after the final correct press with no release in
  between (sliding from one button to the other);
- line 118, when the time runs out while the final correct button is still
  held.

Both raise an IndexError that ends the program. The model keeps them as the
outcomes `PressAfterComplete` and `HeldAtTimeout`, and a game that reaches
one ends as `Crashed`, with no reset.

On a timeout, the feedback blinks the pattern entry that was expected next,
`pattern[pattern_place]`. The `0` passed as the second argument of
`wrong_choice` on line 118 is never used. The model follows the code here,
not a reading in which channel 0 is blinked.

## Model

| member | source | states |
|---|---|---|
| `Buttons.FirstActiveFrom` | SimonSays-Onboard-NoCPX.py:123-126 | The scan from a given channel returns the first active channel at or after it, every channel before that one is inactive, and it returns none exactly when no channel from there on is active. |
| `Buttons.FirstActive` | SimonSays-Onboard-NoCPX.py:122-126 | The pressed channel is the lowest-numbered active button, and the result is none exactly when no button is active. |
| `Buttons.CheckButtonPress` | SimonSays-Onboard-NoCPX.py:122-126 | The loop over the registry returns exactly the lowest-numbered active button, or none. |
| `Buttons.Scan` | SimonSays-Onboard-NoCPX.py:81-82 | The polling loop yields one poll per reading taken within the time budget. |
| `Tone.StartToneAsWritten` | SimonSays-Onboard-NoCPX.py:180-192 | `start_tone` as written: the handle always ends up holding a new stream of the sized table, and a stream that was playing is counted as stranded. |
| `Tone.StartTone` | SimonSays-Onboard-NoCPX.py:180-192 | `start_tone` with its `playing` test applied to the existing handle: the speaker is unchanged while a stream plays, otherwise it plays the sized table. |
| `Tone.StopTone` | SimonSays-Onboard-NoCPX.py:194-199 | `stop_tone`: the handle is released, whether or not a stream was playing. |
| `Tone.TableFor` | SimonSays-Onboard-NoCPX.py:183-190 | The sine table has at most 100 samples and is played at length × frequency samples per second. That rate never exceeds 350000. The table is shortened only as far as the ceiling forces: 100 samples, or one more sample would pass the ceiling. |
| `Tone.ProgramTonesUseFullTable` | SimonSays-Onboard-NoCPX.py:183-185 | The two channel tones and the 300 Hz feedback tone all get the full 100-sample table. |
| `Tone.StartToneIdempotent` | SimonSays-Onboard-NoCPX.py:180-192 | With the intended `playing` test, a start while a stream plays changes nothing. A start on a quiet speaker plays the sized table. |
| `Tone.StopToneWhenQuiet` | SimonSays-Onboard-NoCPX.py:194-199 | `stop_tone` is safe when nothing plays: it changes nothing. |
| `Tone.SingleStream` | SimonSays-Onboard-NoCPX.py:180-199 | With the intended `start_tone`, no sequence of tone starts and stops ever leaves a stream playing without a handle. The speaker is heard after exactly the same calls as with the start as written, and never has more stranded streams. Which table is heard can differ: see `Tone.StartWhilePlayingStrands`. |
| `Tone.StartWhilePlayingStrands` | SimonSays-Onboard-NoCPX.py:187-192 | As written, a start while a stream plays leaves that stream playing with no handle and plays the new table. The intended guard changes nothing, so the earlier stream goes on being heard. |
| `Playback.EntryEvents` | SimonSays-Onboard-NoCPX.py:66-73 | One demonstrated entry: its tone and light on for twice the speed, then tone off and light black for one speed. |
| `Playback.ShowEvents` | SimonSays-Onboard-NoCPX.py:64-73 | `show_pattern`: the entries of the pattern demonstrated one after another, in pattern order. |
| `Playback.ShowInOrder` | SimonSays-Onboard-NoCPX.py:64-73 | The demonstration emits eight events per entry. Entry k's block, at offset 8k, turns on that channel's tone and light for twice the speed, then turns both off for one speed. |
| `Playback.ShowLeavesSpeakerQuiet` | SimonSays-Onboard-NoCPX.py:64-73 | The demonstration, started on a quiet speaker, ends with the speaker quiet and nothing stranded. |
| `Playback.BlinkEvents` | SimonSays-Onboard-NoCPX.py:134-140 | One blink of the feedback: cyan fill with the correct light, commit, 0.25 s; black fill, commit, 0.25 s. |
| `Playback.WrongChoiceEvents` | SimonSays-Onboard-NoCPX.py:129-141 | `wrong_choice`: the 300 Hz tone started, five blinks of the correct channel, the tone stopped. |
| `Playback.BlinkHighlightsCorrect` | SimonSays-Onboard-NoCPX.py:134-140 | One blink writes exactly one pixel: the correct channel's, in its own colour. |
| `Playback.WrongChoiceHighlightsCorrect` | SimonSays-Onboard-NoCPX.py:129-141 | The feedback writes exactly five pixels, each the correct channel's position in its colour. The pressed wrong channel is never shown. |
| `Playback.WrongChoiceLeavesSpeakerQuiet` | SimonSays-Onboard-NoCPX.py:129-141 | With the intended `start_tone`, the feedback leaves the handle released whatever it found, and strands nothing. |
| `Playback.FeedbackWhilePlayingStrands` | SimonSays-Onboard-NoCPX.py:129-141 | With `start_tone` as written, feedback that starts while a stream plays strands exactly that one stream. |
| `InputJudge.StepPoll` | SimonSays-Onboard-NoCPX.py:83-116 | One iteration of the polling loop: nothing on an unchanged poll; on a release, lights out and tone off, and success if the pattern is complete; on a new press, light and tone of that channel, then the IndexError, an advance of the cursor, or a mismatch after a 0.2 s sleep and a tone stop. |
| `InputJudge.TimeUp` | SimonSays-Onboard-NoCPX.py:117-118 | The polls ran out: a timeout against the expected entry, or the IndexError when the whole pattern was entered. |
| `InputJudge.JudgeFrom` | SimonSays-Onboard-NoCPX.py:81-119 | The polling loop from a given state over the remaining polls: steps until one stops the round, or times out when the polls run out; with the events of every step in order. |
| `InputJudge.Feedback` | SimonSays-Onboard-NoCPX.py:113-118 | The `wrong_choice` that follows a mismatch or a timeout, blinking the expected entry; nothing after a win or at an IndexError. |
| `InputJudge.AllEvents` | SimonSays-Onboard-NoCPX.py:76-119 | Everything `user_input_loop` sends to the hardware: the polling loop's events, then the feedback for its outcome. |
| `InputJudge.Judge` | SimonSays-Onboard-NoCPX.py:76-119 | The polling of `user_input_loop`: the loop from nothing pressed and the cursor at the start. |
| `InputJudge.StepPollSpec` | SimonSays-Onboard-NoCPX.py:83-116 | One poll is edge-triggered: an unchanged poll does nothing. The cursor moves by one exactly on a new press of the expected channel. Success comes exactly on a release with the whole pattern entered. A new press of another channel is a mismatch naming the expected and the pressed channel, even straight from another button. A new press with the whole pattern entered reaches the IndexError. No single poll times out. |
| `InputJudge.SuccessIff` | SimonSays-Onboard-NoCPX.py:81-95 | A round is won exactly when some release follows presses that reproduce the rest of the pattern in order. |
| `InputJudge.MismatchIff` | SimonSays-Onboard-NoCPX.py:98-114 | A round is lost to a mismatch (expected c, pressed y) exactly when some new press of y comes where c is expected, and every earlier press was correct. |
| `InputJudge.TimeoutIff` | SimonSays-Onboard-NoCPX.py:81-118 | The time runs out against c exactly when every press was correct but too few were made, c being the next expected entry. How many correct presses came first does not matter. |
| `InputJudge.PressAfterCompleteMeans` | SimonSays-Onboard-NoCPX.py:98-106 | The IndexError of line 106 comes only from a new press after presses that already reproduced the pattern. Such a press ends the round in that error unless a release won the round first. |
| `InputJudge.DecisionIgnoresLaterPolls` | SimonSays-Onboard-NoCPX.py:81-114 | Once a round is won, lost to a mismatch or crashed, later polls change neither the verdict nor the events. |
| `InputJudge.PressStartsTone` | SimonSays-Onboard-NoCPX.py:100-103 | A new press on a quiet speaker starts that channel's tone, with the table sized for its frequency. For every button that table is the full 100 samples. |
| `InputJudge.PressWhilePlaying` | SimonSays-Onboard-NoCPX.py:100-103 | A new press while a stream plays keeps that stream under the intended guard. As written, it plays the new button's table and strands the earlier stream. |
| `InputJudge.SwitchHeldKeepsEarlierTone` | SimonSays-Onboard-NoCPX.py:97-118 | Take pattern [0, 1]: press A, switch straight to B and hold B until the time runs out. The round reaches the line-118 IndexError. Under the guard A's tone is still heard with nothing stranded; as written B's tone plays and A's is stranded. |
| `InputJudge.HeldTimeoutStrandsTone` | SimonSays-Onboard-NoCPX.py:103-118 | Take pattern [0, 1], with button A held until the time runs out. The round times out against channel 1. As written, the feedback's tone strands A's tone. With the intended guard nothing is stranded. |
| `Rounds.Speed` | SimonSays-Onboard-NoCPX.py:157-158 | Across the eight rounds, the speed stays positive: at least 0.15 s. |
| `Rounds.PatternOf` | SimonSays-Onboard-NoCPX.py:148-149 | Round i plays a pattern of i + 1 entries, the first i + 1 random choices in order. |
| `Rounds.Round` | SimonSays-Onboard-NoCPX.py:149-151 | Round i's events: the demonstration of its pattern at its speed, then the judged input with its feedback. |
| `Rounds.EndOf` | SimonSays-Onboard-NoCPX.py:151-155 | Defined only for a round not won, which ends the game: a mismatch or timeout breaks the loop as a loss, and the IndexError ends the program as a crash. |
| `Rounds.PlayFrom` | SimonSays-Onboard-NoCPX.py:148-159 | The round loop from round i: a won round is followed by its 1 s pause and the next round; the first round not won ends the game with that round. |
| `Rounds.Game` | SimonSays-Onboard-NoCPX.py:144-164 | One game of `main`: the round loop from round 0, then the 3 s reset pause unless an IndexError ended the program. |
| `Rounds.PlayFromWins` | SimonSays-Onboard-NoCPX.py:148-159 | The game wins exactly the rounds before its first round not won. It completes exactly when every round is won; otherwise it ends with that round's outcome. |
| `Rounds.GameWins` | SimonSays-Onboard-NoCPX.py:144-164 | A game wins at most eight rounds, all of them before the first round not won. It completes exactly when it wins eight. A mismatch or timeout is a loss, and an IndexError a crash. Unless it crashed, the game ends with the three-second reset pause. |
| `Program.Simon.constructor` | SimonSays-Onboard-NoCPX.py:17-19 | The program starts with an empty pattern, speed 0.5 s, no speaker handle and no hardware calls. |
| `Program.Simon.StartTone` | SimonSays-Onboard-NoCPX.py:180-192 | `start_tone` records the call and sizes the table as `Tone.TableFor` does. It starts a stream only when none plays, which keeps the one-stream invariant. |
| `Program.Simon.StopTone` | SimonSays-Onboard-NoCPX.py:194-199 | `stop_tone` records the call and releases the handle, if there is one. |
| `Program.Simon.MakePattern` | SimonSays-Onboard-NoCPX.py:59-61 | `make_pattern` appends the chosen channel to the pattern and changes nothing else. |
| `Program.Simon.ShowEntry` | SimonSays-Onboard-NoCPX.py:66-73 | One entry of the demonstration emits exactly the entry's eight events at the current speed, and leaves the handle released. |
| `Program.Simon.ShowPattern` | SimonSays-Onboard-NoCPX.py:64-73 | The loop of `show_pattern` emits the demonstration of the whole pattern, entry by entry, at the current speed. After a non-empty pattern the handle is released; an empty pattern leaves the speaker as it was. |
| `Program.Simon.Blink` | SimonSays-Onboard-NoCPX.py:134-140 | One blink emits the cyan background with the correct light, then black. The speaker is left unchanged. |
| `Program.Simon.WrongChoice` | SimonSays-Onboard-NoCPX.py:129-141 | `wrong_choice` emits the 300 Hz tone around five blinks of the correct channel, and leaves the handle released. |
| `Program.Simon.LightPress` | SimonSays-Onboard-NoCPX.py:100-103 | A new press clears the strip, lights the pressed channel and starts its tone, the speaker taking the guarded start. |
| `Program.Simon.LightsOut` | SimonSays-Onboard-NoCPX.py:87-90 | A release clears the strip and stops the tone, releasing the handle. |
| `Program.Simon.Reject` | SimonSays-Onboard-NoCPX.py:111-112 | A wrong press lets its tone sound for 0.2 s, then stops it, releasing the handle. |
| `Program.Simon.HandlePoll` | SimonSays-Onboard-NoCPX.py:83-116 | One iteration of the polling loop takes exactly the step of `InputJudge.StepPoll`: the same new state or verdict, and the same events. An unchanged poll leaves the speaker alone and a release stops the tone. After a new press that is not rejected, the speaker is `start_tone` of that button's tone. When the round goes on, the remembered poll is this one, and after a new release the cursor is short of the pattern's end. |
| `Program.Simon.PollOnce` | SimonSays-Onboard-NoCPX.py:81-116 | One poll and its handling consume one reading, and leave the round's verdict unchanged. A poll that wins or mismatches leaves no tone playing, a press after a complete reproduction leaves one playing, and a poll never stops the round by timing out. When the round goes on, a tone plays exactly while the remembered poll is a press. |
| `Program.Simon.PollButtons` | SimonSays-Onboard-NoCPX.py:76-118 | The polling loop ends with the judge's outcome for the polls of the readings, and emits the judge's events. A won or mismatched round leaves no tone playing, and a press after a complete reproduction leaves one playing. When time runs out from a quiet speaker, a tone still plays exactly when the last poll found a button held; after a complete, unreleased reproduction it always does. |
| `Program.Simon.UserInputLoop` | SimonSays-Onboard-NoCPX.py:76-119 | `user_input_loop` returns the judge's outcome and emits the judge's events. A mismatch or a timeout is followed by the feedback for the expected entry, and then no tone plays. When the IndexError is reached, a tone is still playing. |
| `Program.Simon.PlayRound` | SimonSays-Onboard-NoCPX.py:149-151 | A round grows the pattern by its choice, demonstrates it at the round's speed and judges the input. After a win, a mismatch or a timeout no tone plays; when the IndexError is reached, a tone plays. |
| `Program.Simon.RoundStep` | SimonSays-Onboard-NoCPX.py:148-159 | One pass of the round loop plays the round. After a win it speeds up by 0.05 s and pauses 1 s, ready for the next round; otherwise the game ends with that round. A tone plays afterwards exactly when the IndexError was reached. |
| `Program.Simon.PlayRounds` | SimonSays-Onboard-NoCPX.py:148-159 | The round loop produces exactly the game's outcome and events up to the reset, and a tone plays afterwards exactly when it crashed. |
| `Program.Simon.PlayGame` | SimonSays-Onboard-NoCPX.py:144-164 | One game of `main` produces exactly the game's events, and leaves the pattern empty and the speed at 0.5 s. After an IndexError it instead leaves the crashed round's pattern and speed. A tone is left playing exactly when the IndexError ended the program. |

## Left out

- `setup` and `setup_audio` configure the button pulls and enable the speaker. Driver configuration is not part of this model, and neither are the strip's brightness and pixel count.
- `_sine_sample` computes the sample values of the sine table with floating point. The model keeps only the table's length and sample rate.
- The random choice of `make_pattern` (`randint`) is an input: the sequence of choices of a game is a parameter. The unused `level` argument is dropped.
- `time.monotonic` and the ten-second budget are replaced by the sequence of button readings taken within the budget. Running out of readings is the timeout. Sleeps are recorded as events in hundredths of a second, not performed.
- `print` calls are not modelled; they have no effect on the game.
- `main` repeats games forever. The model plays one game from the reset state and proves that the game ends back in that state, unless an IndexError ended the program.
- Speeds are integers in hundredths of a second. The floating-point subtraction of 0.05 per round is modelled as exact.
- The IndexError is an outcome (`Crashed`), not an exception. What the interpreter prints before stopping is not modelled.
- `Program.Simon.StartTone`: the class uses the guarded start (nothing happens while a stream plays), so the class and its one-stream invariant describe the program with `start_tone` as intended. The as-written start, which strands a playing stream, is modelled by `Tone.StartToneAsWritten` and exhibited inside a round by `InputJudge.HeldTimeoutStrandsTone`.
- `Program.Simon.UserInputLoop`: `wrong_choice` is called after the polling loop has returned, not from inside it. No hardware call falls between the two points, so the trace is the same.
- Pixels are recorded as the calls made (fill, single write, commit), not as the state of the strip's buffer.
- The speaker is modelled as the handle and a count of streams left with no handle. A stream, once started, plays until it is stopped. A driver refusing a second output on a busy pin is outside the model.

## Findings

| source | as written | input that shows it | evidently intended | confidence | as-written member | corrected member |
|---|---|---|---|---|---|---|
| SimonSays-Onboard-NoCPX.py:187-192 | `_sample` is replaced by a fresh output before `_sample.playing` is tested. The test always passes, so a new stream starts while the previous one plays, and the previous one keeps playing with no handle that `stop_tone` could stop. | Pattern [0, 1]: press button A and hold it until the time runs out. A's 360 Hz tone is playing when `wrong_choice` calls `start_tone(300)`. Switching straight from one button to the other shows it too. | Test `playing` on the existing handle, and start a stream only when none plays, so at most one stream ever plays. | medium, not executed | `InputJudge.HeldTimeoutStrandsTone` | `Tone.SingleStream` |

/**
 * The fixed configuration of the game: colours, pixel positions, the two
 * signal channels, the game constants, and the hardware events that the
 * program's driver calls are recorded as.
 */
module Board {

  datatype Option<T> = None | Some(value: T)

  /** An RGB triple as the pixel strip takes it. */
  datatype Color = Color(r: nat, g: nat, b: nat)

  const RED := Color(0x10, 0, 0)
  const YELLOW := Color(0x10, 0x10, 0)
  const GREEN := Color(0, 0x10, 0)
  const BLUE := Color(0, 0, 0x10)
  const BLACK := Color(0, 0, 0)
  /** The background fill of the mismatch feedback (written inline in the program). */
  const CYAN := Color(0, 0x10, 0x10)

  const PIXEL_LEFT := 2
  const PIXEL_RIGHT := 7

  /** One button paired with its light position, its colour and its tone frequency in Hz. */
  datatype Channel = Channel(light: nat, color: Color, tone: nat)

  /** The channel registry: button A on the left, button B on the right. */
  const SIM: seq<Channel> := [
    Channel(PIXEL_LEFT, GREEN, 360),
    Channel(PIXEL_RIGHT, YELLOW, 390)
  ]

  /** A valid index into the registry. */
  type ChannelId = c: nat | c < |SIM|

  /** One reading of every button of the registry, in registry order (true = active). */
  type Reading = s: seq<bool> | |s| == |SIM| witness [false, false]

  /** Round time budget in seconds; the model replaces it by a finite sequence of polls. */
  const MAX_TIME := 10
  const MAX_ROUNDS := 8

  /** Playback speed in hundredths of a second: 0.5 s initially, 0.05 s faster per won round. */
  const INITIAL_SPEED := 50
  const SPEED_STEP := 5

  /** The tone of the mismatch feedback, in Hz. */
  const WRONG_TONE := 300
  /** The number of blinks of the mismatch feedback. */
  const BLINKS := 5

  /**
   * One call into the hardware, in the order the program makes it:
   * pixel-strip fill, single-pixel write, commit, tone start and stop
   * requests, and a sleep given in hundredths of a second.
   */
  datatype Event =
    | Fill(color: Color)
    | SetPixel(index: nat, color: Color)
    | Show
    | ToneStart(frequency: nat)
    | ToneStop
    | Sleep(hundredths: int)

  /** Regrouping a trace made of three parts. */
  lemma AppendAssoc(a: seq<Event>, b: seq<Event>, c: seq<Event>)
    ensures (a + b) + c == a + (b + c)
  {
  }

  /** True of events that do not touch the speaker. */
  predicate Silent(e: Event) {
    !e.ToneStart? && !e.ToneStop?
  }
}

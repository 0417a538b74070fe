/** The button scan: which channel, if any, reads as pressed in one poll. */
module Buttons {
  import opened Board

  /** The lowest channel at or after `from` whose button reads active. */
  function FirstActiveFrom(reading: Reading, from: nat): (r: Option<ChannelId>)
    requires from <= |reading|
    ensures r.Some? ==> from <= r.value && reading[r.value]
    ensures r.Some? ==> forall j :: from <= j < r.value ==> !reading[j]
    ensures r.None? <==> forall j :: from <= j < |reading| ==> !reading[j]
    decreases |reading| - from
  {
    if from == |reading| then None
    else if reading[from] then Some(from)
    else FirstActiveFrom(reading, from + 1)
  }

  /** The lowest channel whose button reads active, or None when no button does. */
  function FirstActive(reading: Reading): (r: Option<ChannelId>)
    ensures r.Some? ==> reading[r.value] && forall j :: 0 <= j < r.value ==> !reading[j]
    ensures r.None? <==> forall j :: 0 <= j < |reading| ==> !reading[j]
  {
    FirstActiveFrom(reading, 0)
  }

  /** `check_button_press`: scans the buttons in registry order and stops at the first active one. */
  method CheckButtonPress(reading: Reading) returns (r: Option<ChannelId>)
    ensures r == FirstActive(reading)
  {
    for i := 0 to |reading|
      invariant forall j :: 0 <= j < i ==> !reading[j]
    {
      if reading[i] {
        return Some(i);
      }
    }
    return None;
  }

  /** The polls a sequence of readings yields. */
  function Scan(readings: seq<Reading>): (polls: seq<Option<ChannelId>>)
    ensures |polls| == |readings|
  {
    seq(|readings|, k requires 0 <= k < |readings| => FirstActive(readings[k]))
  }
}

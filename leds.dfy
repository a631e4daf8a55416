/** The five-entry LED parameter table that the touch state machine edits and
    the decision step reads. Entry k belongs to button k: 0 and 1 are the two
    touch buttons, 2 the short combo, 3 the long combo and 4 the lock
    indicator. */
module Leds {

  /** Number of entries in the table. */
  const LedCount := 5

  /** Largest duty cycle, in percent; the firmware also uses it for "off". */
  const FullDuty := 100

  /** One table entry: the duty cycle used for a short touch, the one used
      for a long touch, and a status flag (only entry 4's flag is used). */
  datatype Led = Led(passive: int, active: int, status: int)

  predicate InDutyRange(x: int) { 0 <= x <= FullDuty }

  /** Every brightness in the table is a valid duty cycle. */
  predicate ValidLeds(leds: seq<Led>)
  {
    |leds| == LedCount &&
    forall k :: 0 <= k < |leds| ==> InDutyRange(leds[k].passive) && InDutyRange(leds[k].active)
  }

  /** Every commanded duty cycle is a valid percentage. */
  predicate ValidDuty(duty: seq<int>)
  {
    |duty| == LedCount && forall k :: 0 <= k < |duty| ==> InDutyRange(duty[k])
  }
}

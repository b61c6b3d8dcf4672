/** Day-number arithmetic shared by the list, the renewal dialog and the renewal itself. */
module Dates {
  import opened Types

  /** The day a period of `duration` days starting on `start` ends (adding days to a date). */
  function CalculateEndDate(start: Day, duration: int): Day {
    start + duration
  }

  /**
   * The whole days a period ending on `end` still has left when counted from
   * `from`: their difference when `end` lies after `from`, and 0 otherwise.
   */
  function RemainingDays(end: Day, from: Day): (r: nat)
    ensures r >= end - from
    ensures r == 0 || r == end - from
    ensures r > 0 <==> end > from
  {
    if end > from then end - from else 0
  }

  /** Signed days from `today` to `end`: negative once the period is over. */
  function DaysRemaining(end: Day, today: Day): int {
    end - today
  }

  /** `Math.max(0, x)`. */
  function ClampNonNegative(x: int): (r: nat)
    ensures r >= x
    ensures r == 0 || r == x
  {
    if x < 0 then 0 else x
  }
}

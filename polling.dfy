/** The poll scheduling the standalone monitors of refer/ share. */
module Polling {
  import opened Base

  /** `Math.max(0, checkInterval - elapsed)`: the delay before the next poll. */
  function NextPoll(interval: int, elapsed: int): (d: int)
    ensures d >= 0
    ensures elapsed >= 0 && interval >= 0 ==> d <= interval
    ensures elapsed <= interval ==> d == interval - elapsed
  {
    Max(0, interval - elapsed)
  }
}

/** Time arithmetic shared by every Redis-backed component: instants and delays are whole milliseconds. */
module Clock {

  /** `Math.ceil(ms / 1000)`: the number of seconds handed to EXPIRE and SET EX. */
  function CeilSeconds(ms: nat): (s: nat)
    ensures ms <= s * 1000 < ms + 1000
  {
    (ms + 999) / 1000
  }
}

/**
 * Go's time arithmetic as the agent uses it, over integer nanoseconds:
 * time.Time as an unbounded instant, time.Duration as a signed 64-bit count,
 * Time.Sub saturating at the Duration bounds, Duration multiplication wrapping
 * around, and Duration division truncating toward zero.
 */
module Clock {

  /** An instant on the process's clock, in nanoseconds. */
  type Instant = int

  /** Go's time.Duration: a signed 64-bit count of nanoseconds. */
  type Duration = d: int | -0x8000_0000_0000_0000 <= d <= 0x7fff_ffff_ffff_ffff

  /** Go's int32, the type of the lease duration in a login response. */
  type Int32 = n: int | -0x8000_0000 <= n <= 0x7fff_ffff

  /** Go's int on a 64-bit platform, the type of the retry-delay setting. */
  type Int64 = n: int | -0x8000_0000_0000_0000 <= n <= 0x7fff_ffff_ffff_ffff

  const MinDuration: int := -0x8000_0000_0000_0000
  const MaxDuration: int := 0x7fff_ffff_ffff_ffff
  const Modulus: int := 0x1_0000_0000_0000_0000

  /** time.Second, in nanoseconds. */
  const Second: int := 1_000_000_000

  predicate InDurationRange(x: int) {
    MinDuration <= x <= MaxDuration
  }

  function Min(a: int, b: int): (m: int) { if a <= b then a else b }
  function Max(a: int, b: int): (m: int) { if a <= b then b else a }

  /** Two's-complement reduction of an exact product to 64 bits. */
  function Wrap64(x: int): (r: Duration)
    ensures (x - r) % Modulus == 0
    ensures InDurationRange(x) ==> r == x
  {
    var q := (x - MinDuration) / Modulus;
    assert x - MinDuration == q * Modulus + (x - MinDuration) % Modulus;
    (x - MinDuration) % Modulus + MinDuration
  }

  /** `time.Second * time.Duration(n)`: the product wraps around on overflow. */
  function SecondsToDuration(n: Int64): (d: Duration)
    ensures InDurationRange(n * Second) ==> d == n * Second
    ensures (n * Second - d) % Modulus == 0
  {
    Wrap64(Second * n)
  }

  /** `t.Sub(u)`: the exact difference, or the Duration bound it overshoots. */
  function Sub(t: Instant, u: Instant): (d: Duration)
    ensures d == t - u || (d == MaxDuration && t - u > d) || (d == MinDuration && t - u < d)
  {
    if t - u > MaxDuration then MaxDuration
    else if t - u < MinDuration then MinDuration
    else t - u
  }

  /** `d / 2` on a Duration: Go's integer division, which truncates toward zero. */
  function Half(d: Duration): (h: Duration)
    ensures 0 <= d ==> 0 <= h && 2 * h <= d <= 2 * h + 1
    ensures d < 0 ==> h <= 0 && 2 * h - 1 <= d <= 2 * h
  {
    var magnitude: int := if 0 <= d then d as int else 0 - d as int;
    if 0 <= d then magnitude / 2 else -(magnitude / 2)
  }

  /**
   * get_datetime_midpoint: half the distance from the earlier instant toward the
   * later one. `time2.After(time1)` is `time2 > time1`.
   */
  function Midpoint(time1: Instant, time2: Instant): (m: Instant)
    ensures Min(time1, time2) <= m <= Max(time1, time2)
  {
    if time2 > time1 then time1 + Half(Sub(time2, time1))
    else time2 + Half(Sub(time1, time2))
  }

  /**
   * `now.Add(time.Second * time.Duration(seconds))` for an int32 lease: the
   * 64-bit product never wraps, so the lease ends exactly `seconds` seconds on.
   */
  function LeaseEnd(now: Instant, seconds: Int32): (e: Instant)
    ensures e == now + seconds * Second
    ensures InDurationRange(e - now)
  {
    now + SecondsToDuration(seconds)
  }

  /** The clock after `time.Sleep(d)`: a delay that is not positive returns at once. */
  function AfterSleep(now: Instant, d: Duration): (t: Instant)
    ensures now <= t
    ensures t == now || t == now + d
    ensures 0 < d ==> t == now + d
  {
    if 0 < d then now + d else now
  }

  /**
   * The clock after wait_until_lease_is_expired: `time.Sleep(renewal.Sub(now))`.
   * It never goes backwards, and reaches the renewal time whenever that lies
   * within one Duration of now.
   */
  function WakeTime(now: Instant, renewal: Instant): (t: Instant)
    ensures now <= t
    ensures InDurationRange(renewal - now) ==> t == Max(now, renewal)
  {
    AfterSleep(now, Sub(renewal, now))
  }
}

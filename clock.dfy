/**
 * .NET `DateTime` values as ticks (100 ns units since 0001-01-01), and the Unix
 * second conversions every record class uses for `created`, `created_utc` and
 * `edited`.
 */
module Clock {

  /** Ticks of `new DateTime(1970, 1, 1, 0, 0, 0, 0)`. */
  const Epoch: int := 621355968000000000

  /** `TimeSpan.TicksPerSecond`. */
  const TicksPerSecond: int := 10000000

  /**
   * `ticks / 10000000` on `long`: C# truncates the quotient toward zero,
   * while Dafny's `/` is Euclidean.
   */
  function TruncSeconds(ticks: int): (q: int)
    ensures ticks >= 0 ==> 0 <= q * 10000000 <= ticks < q * 10000000 + 10000000
    ensures ticks < 0 ==> q * 10000000 - 10000000 < ticks <= q * 10000000 <= 0
  {
    if ticks >= 0 then ticks / 10000000 else -((-ticks) / 10000000)
  }

  /** `epoch.AddSeconds(n)` for a whole number of seconds. */
  function FromUnixSeconds(n: int): int
  {
    Epoch + n * TicksPerSecond
  }

  /** `t.Subtract(epoch).Ticks / 10000000`: whole seconds since the epoch. */
  function UnixSeconds(ticks: int): int
  {
    TruncSeconds(ticks - Epoch)
  }

  /** Setting a timestamp from Unix seconds and reading it back gives the same seconds. */
  lemma {:induction false} UnixSecondsRoundTrip(n: int)
    ensures UnixSeconds(FromUnixSeconds(n)) == n
  {
    var q := UnixSeconds(FromUnixSeconds(n));
    assert FromUnixSeconds(n) - Epoch == n * TicksPerSecond;
    if n >= 0 {
      assert q * TicksPerSecond <= n * TicksPerSecond < q * TicksPerSecond + TicksPerSecond;
    } else {
      assert q * TicksPerSecond - TicksPerSecond < n * TicksPerSecond <= q * TicksPerSecond;
    }
  }

  /**
   * Reading drops the sub-second part toward the epoch: after the epoch the
   * reported instant is at most `ticks` and less than a second before it; before
   * the epoch it is at least `ticks` and less than a second after it.
   */
  lemma WholeSeconds(ticks: int)
    ensures ticks >= Epoch ==>
      FromUnixSeconds(UnixSeconds(ticks)) <= ticks < FromUnixSeconds(UnixSeconds(ticks)) + TicksPerSecond
    ensures ticks < Epoch ==>
      FromUnixSeconds(UnixSeconds(ticks)) - TicksPerSecond < ticks <= FromUnixSeconds(UnixSeconds(ticks))
  {
  }
}

/**
 * The day arithmetic behind every deadline warning of the front end:
 * `Math.ceil((deadline - now) / (1000 * 60 * 60 * 24))` over the integer
 * milliseconds of two dates. A negative zero from `Math.ceil` compares like
 * zero in every test the code makes (`< 0`, `>= 0`, `=== 0`), so the integer
 * ceiling is exact for it.
 */
module Deadlines {

  const MsPerDay: int := 1000 * 60 * 60 * 24

  /** Whole days from `now` until `deadline`, rounded up. */
  function DaysUntil(deadline: int, now: int): (d: int)
    ensures (d - 1) * MsPerDay < deadline - now <= d * MsPerDay
  {
    var diff := deadline - now;
    var q := (-diff) / MsPerDay;
    assert q * MsPerDay + (-diff) % MsPerDay == -diff;
    -q
  }

  lemma DaysUntilUnique(deadline: int, now: int, d: int)
    requires (d - 1) * MsPerDay < deadline - now <= d * MsPerDay
    ensures DaysUntil(deadline, now) == d
  {
  }

  /** The day count is negative exactly when the deadline lies a full day or more before `now`. */
  lemma DaysNegative(deadline: int, now: int)
    ensures DaysUntil(deadline, now) < 0 <==> now - deadline >= MsPerDay
  {
    var d := DaysUntil(deadline, now);
    if d < 0 {
      assert d * MsPerDay <= -MsPerDay;
    } else {
      assert (d - 1) * MsPerDay >= -MsPerDay;
    }
  }

  /** The day count is at most `k` exactly when the deadline is at most `k` days ahead. */
  lemma DaysAtMost(deadline: int, now: int, k: int)
    ensures DaysUntil(deadline, now) <= k <==> deadline - now <= k * MsPerDay
  {
    var d := DaysUntil(deadline, now);
    if d <= k {
      assert d * MsPerDay <= k * MsPerDay;
    } else {
      assert (d - 1) * MsPerDay >= k * MsPerDay;
    }
  }

  /** The day count is zero exactly when the deadline is not after `now` and less than a day before it. */
  lemma DaysZero(deadline: int, now: int)
    ensures DaysUntil(deadline, now) == 0 <==> -MsPerDay < deadline - now <= 0
  {
    DaysNegative(deadline, now);
    DaysAtMost(deadline, now, 0);
  }
}

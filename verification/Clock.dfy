/** Fixed UTC windows and the Retry-After header, in nanoseconds since the Unix epoch. */
module Clock {

  const SECOND := 1_000_000_000
  const HOUR := 3_600 * SECOND
  const DAY := 24 * HOUR

  datatype WindowKind = Hour | Day

  function Length(w: WindowKind): (n: int)
    ensures n > 0
  {
    match w case Hour => HOUR case Day => DAY
  }

  /** `date_trunc` in SQL and `Truncate`/`Date` in Go: the latest multiple of the length, also before 1970. */
  function WindowStart(w: WindowKind, t: int): (start: int)
    ensures start <= t < start + Length(w)
    ensures start % Length(w) == 0
  {
    t - t % Length(w)
  }

  /** Whole seconds to the end of the window, rounded down, plus one. */
  function RetryAfterSeconds(now: int, w: WindowKind): (secs: int)
    ensures 1 <= secs <= Length(w) / SECOND + 1
    ensures now + (secs - 1) * SECOND <= WindowStart(w, now) + Length(w) < now + secs * SECOND
  {
    (WindowStart(w, now) + Length(w) - now) / SECOND + 1
  }

  /** The same in nanoseconds and in numbers: hours and days of UTC, 1 to 3601 and 1 to 86401 seconds. */
  lemma WindowsInNumbers(t: int)
    ensures var hour, day := WindowStart(Hour, t), WindowStart(Day, t);
      && hour % 3_600_000_000_000 == 0 && hour <= t < hour + 3_600_000_000_000
      && day % 86_400_000_000_000 == 0 && day <= t < day + 86_400_000_000_000
    ensures 1 <= RetryAfterSeconds(t, Hour) <= 3601 && 1 <= RetryAfterSeconds(t, Day) <= 86401
    ensures forall w :: var end := t + RetryAfterSeconds(t, w) * 1_000_000_000;
      WindowStart(w, t) + Length(w) < end <= WindowStart(w, t) + Length(w) + 1_000_000_000
  {
  }

  /** Windows do not go back as time goes on. */
  lemma WindowsAdvance(w: WindowKind, t: int, u: int)
    requires t <= u
    ensures WindowStart(w, t) <= WindowStart(w, u)
    ensures u >= WindowStart(w, t) + Length(w) ==> WindowStart(w, u) > WindowStart(w, t)
  {
    var n := Length(w);
    DivMod(n, t);
    DivMod(n, u);
    MultiplesAdvance(n, t / n, t % n, u / n, u % n);
  }

  lemma MultiplesAdvance(n: int, a: int, r: int, b: int, q: int)
    requires 0 <= r < n && 0 <= q < n && n * a + r <= n * b + q
    ensures n * a <= n * b
    ensures n * b + q >= n * a + n ==> n * b > n * a
  {
    if a > b {
      MulMonotone(n, b + 1, a);
    }
  }

  lemma MulMonotone(n: int, a: int, b: int)
    requires n > 0 && a <= b
    ensures n * a <= n * b
  {
  }

  /** A client that waits out the advertised seconds reads from a strictly later window. */
  lemma WaitingLeavesTheWindow(now: int, w: WindowKind, later: int)
    requires later >= now + RetryAfterSeconds(now, w) * SECOND
    ensures WindowStart(w, later) > WindowStart(w, now)
    ensures w.Day? ==> WindowStart(Hour, later) > WindowStart(Hour, now)
  {
    WindowsAdvance(w, now, later);
    if w.Day? {
      HourInsideDay(now);
      WindowsAdvance(Hour, now, later);
    }
  }

  lemma QuotientIsUnique(n: int, a: int, b: int, r: int)
    requires n > 0 && 0 <= r < n && n * b <= n * a + r < n * b + n
    ensures a == b
  {
    if a < b {
      MulMonotone(n, a + 1, b);
    } else if b < a {
      MulMonotone(n, b + 1, a);
    }
  }

  /** A start of the right kind that has t in its window is the start of t's window. */
  lemma StartIsUnique(w: WindowKind, t: int, start: int)
    requires start % Length(w) == 0 && start <= t < start + Length(w)
    ensures WindowStart(w, t) == start
  {
    var n := Length(w);
    DivMod(n, t);
    DivMod(n, start);
    QuotientIsUnique(n, t / n, start / n, t % n);
  }

  lemma EpochStartsAWindow(w: WindowKind)
    ensures WindowStart(w, 0) == 0
  {
    StartIsUnique(w, 0, 0);
  }

  lemma DivMod(n: int, t: int)
    requires n > 0
    ensures t == n * (t / n) + t % n
  {
  }

  /** Every day starts with an hour. */
  lemma DaysStartWithHours(day: int, k: int)
    requires day % DAY == 0
    ensures (day + k * HOUR) % HOUR == 0
  {
    var d := day / DAY;
    assert day == DAY * d;
    assert day + k * HOUR == HOUR * (24 * d + k);
  }

  /** An hour window lies inside the day window of every instant it contains. */
  lemma HourInsideDay(t: int)
    ensures WindowStart(Day, WindowStart(Hour, t)) == WindowStart(Day, t)
    ensures WindowStart(Day, t) <= WindowStart(Hour, t)
    ensures WindowStart(Hour, t) + HOUR <= WindowStart(Day, t) + DAY
  {
    var day := WindowStart(Day, t);
    var k := (t - day) / HOUR;
    var hour := day + k * HOUR;
    DaysStartWithHours(day, k);
    StartIsUnique(Hour, t, hour);
    StartIsUnique(Day, hour, day);
  }

  lemma LaterDayIsLaterHour(t: int, u: int)
    requires WindowStart(Day, u) > WindowStart(Day, t)
    ensures WindowStart(Hour, u) > WindowStart(Hour, t)
  {
    HourInsideDay(t);
    HourInsideDay(u);
    if WindowStart(Hour, u) <= WindowStart(Hour, t) {
      WindowsAdvance(Day, WindowStart(Hour, u), WindowStart(Hour, t));
      assert false;
    }
  }
}

/**
 Times as the timer compares and adds them (src/timer.c:10-19, 210-223).
 */
module Timespec {

  const GIGA: int := 1000000000

  datatype Time = Time(sec: int, nsec: int)

  /** timespec_comp */
  predicate Before(p: Time, q: Time) {
    if p.sec != q.sec then p.sec < q.sec else p.nsec < q.nsec
  }

  function Total(t: Time): int {
    t.sec * GIGA + t.nsec
  }

  predicate Normal(t: Time) {
    0 <= t.nsec < GIGA
  }

  /** The comparison is a strict total order on all times, normalized or not. */
  lemma BeforeIsStrictTotalOrder(p: Time, q: Time, r: Time)
    ensures !Before(p, p)
    ensures Before(p, q) && Before(q, r) ==> Before(p, r)
    ensures p == q || Before(p, q) || Before(q, p)
    ensures !(Before(p, q) && Before(q, p))
  {}

  /** On normalized times it is the order of the nanoseconds they stand for. */
  lemma BeforeComparesTotals(p: Time, q: Time)
    requires Normal(p) && Normal(q)
    ensures Before(p, q) <==> Total(p) < Total(q)
  {
    if p.sec < q.sec {
      assert (q.sec - p.sec) * GIGA >= GIGA;
    } else if q.sec < p.sec {
      assert (p.sec - q.sec) * GIGA >= GIGA;
    }
  }

  /** Without normalization it is not: one second is put after zero seconds and two billion
      nanoseconds. */
  lemma BeforeNeedsNormal()
    ensures Before(Time(0, 2 * GIGA), Time(1, 0)) && Total(Time(0, 2 * GIGA)) > Total(Time(1, 0))
  {}

  /** Division and remainder as C has them: toward zero. */
  function TruncDiv(a: int, b: int): int
    requires b > 0
  {
    if a >= 0 then a / b else -((-a) / b)
  }

  function TruncMod(a: int, b: int): int
    requires b > 0
  {
    a - TruncDiv(a, b) * b
  }

  /** The deadline of a sleep of `duration` from `cur`, with the carry of fiber_sleep. */
  function SleepUntil(cur: Time, duration: Time): Time {
    var nsec := cur.nsec + duration.nsec;
    Time(cur.sec + duration.sec + TruncDiv(nsec, GIGA), TruncMod(nsec, GIGA))
  }

  /** The carry loses nothing, for negative inputs too; the deadline is normal unless the
      nanoseconds are negative and no whole seconds. */
  lemma SleepUntilIsExact(cur: Time, duration: Time)
    ensures
      var t := SleepUntil(cur, duration);
      && Total(t) == Total(cur) + Total(duration)
      && -GIGA < t.nsec < GIGA
      && (Normal(t) <==> cur.nsec + duration.nsec >= 0 || (cur.nsec + duration.nsec) % GIGA == 0)
  {
    var nsec := cur.nsec + duration.nsec;
    CarryIsExact(nsec);
    assert Total(SleepUntil(cur, duration)) ==
           (cur.sec + duration.sec + TruncDiv(nsec, GIGA)) * GIGA + TruncMod(nsec, GIGA);
  }

  /** fiber_sleep, up to the call that sets the timeout. */
  method Deadline(now: Time, duration: Time) returns (cur: Time)
    ensures cur == SleepUntil(now, duration) && Total(cur) == Total(now) + Total(duration)
  {
    SleepUntilIsExact(now, duration);
    cur := now;
    cur := cur.(sec := cur.sec + duration.sec);
    cur := cur.(nsec := cur.nsec + duration.nsec);
    cur := cur.(sec := cur.sec + TruncDiv(cur.nsec, GIGA));
    cur := cur.(nsec := TruncMod(cur.nsec, GIGA));
  }

  lemma CarryIsExact(n: int)
    ensures TruncDiv(n, GIGA) * GIGA + TruncMod(n, GIGA) == n
    ensures -GIGA < TruncMod(n, GIGA) < GIGA
    ensures 0 <= TruncMod(n, GIGA) <==> n >= 0 || n % GIGA == 0
  {
    if n < 0 {
      assert (-n) == (-n) / GIGA * GIGA + (-n) % GIGA;
      assert TruncMod(n, GIGA) == -((-n) % GIGA);
      if (-n) % GIGA == 0 {
        assert n == -((-n) / GIGA) * GIGA;
      }
      if n % GIGA == 0 {
        assert -n == -(n / GIGA) * GIGA;
      }
    }
  }
}

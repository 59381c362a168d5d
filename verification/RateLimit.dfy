/** The token bucket of include/coro/rate_limit.hpp with exact integers and a fixed rate.
    Clock reads are parameters. */
module RateLimit {

  const TOKEN_SCALE: int := 1024
  const INT64_MAX: int := 0x7FFF_FFFF_FFFF_FFFF

  datatype Scaled = OutOfRange | Units(units: int)

  /** `rate_scale_tokens` */
  function ScaleTokens(n: nat): (r: Scaled)
    ensures r.Units? <==> n * TOKEN_SCALE <= INT64_MAX
    ensures r.Units? ==> r.units == n * TOKEN_SCALE
  {
    if n > INT64_MAX / TOKEN_SCALE then OutOfRange else Units(n * TOKEN_SCALE)
  }

  datatype Bucket = Bucket(tokens: int, capacity: int, refill: int, period: int, last: int)

  predicate Valid(b: Bucket) {
    0 <= b.tokens <= b.capacity && b.refill > 0 && b.period > 0
  }

  function Min(a: int, b: int): int {
    if a < b then a else b
  }

  /** Whole periods between two instants. */
  function Periods(from: int, to: int, period: int): (k: int)
    requires period > 0
    ensures k >= 0
    ensures to >= from ==> from + k * period <= to < from + (k + 1) * period
    ensures to < from ==> k == 0
  {
    if to < from then 0 else (to - from) / period
  }

  /** The balance after the periods that have passed: capped, and on the grid of `last`. */
  function Settle(b: Bucket, now: int): (r: Bucket)
    requires Valid(b)
    ensures Valid(r)
  {
    var k := Periods(b.last, now, b.period);
    b.(tokens := Min(b.capacity, b.tokens + b.refill * k), last := b.last + k * b.period)
  }

  /** Whole periods until `need` units are there. */
  function PeriodsFor(b: Bucket, need: int): int
    requires b.refill > 0
  {
    (need - b.tokens - 1) / b.refill + 1
  }

  class RateState {
    var tokens: int
    var lastUs: int
    const capacity: int
    const refill: int
    const period: int

    function Abs(): Bucket
      reads this
    {
      Bucket(tokens, capacity, refill, period, lastUs)
    }

    /** A full bucket: a cold start is not throttled. */
    constructor (capacity: int, refill: int, period: int, now: int)
      requires capacity > 0 && refill > 0 && period > 0
      ensures Abs() == Bucket(capacity, capacity, refill, period, now) && Valid(Abs())
    {
      tokens, lastUs := capacity, now;
      this.capacity, this.refill, this.period := capacity, refill, period;
    }

    method SettleAndPeek(now: int) returns (have: int)
      requires Valid(Abs())
      modifies this
      ensures Abs() == Settle(old(Abs()), now) && have == tokens
    {
      if refill > 0 && period > 0 && now > lastUs {
        var periods := (now - lastUs) / period;
        PeriodsUnique(lastUs, now, period, periods);
        if periods > 0 {
          var grown := tokens + refill * periods;
          tokens := if grown >= capacity then capacity else if grown < 0 then 0 else grown;
          lastUs := lastUs + periods * period;
        }
      }
      have := tokens;
    }

    method TryConsume(need: int, now: int) returns (ok: bool)
      requires Valid(Abs()) && need >= 0
      modifies this
      ensures ok <==> Settle(old(Abs()), now).tokens >= need
      ensures Abs() == if ok then Settle(old(Abs()), now).(tokens := Settle(old(Abs()), now).tokens - need)
                       else Settle(old(Abs()), now)
    {
      var have := SettleAndPeek(now);
      if have < need {
        return false;
      }
      tokens := have - need;
      return true;
    }

    /** `wait_us_for` with its two clock reads. */
    method WaitFor(need: int, now1: int, now2: int) returns (wait: int)
      requires Valid(Abs()) && need >= 0
      modifies this
      ensures Abs() == Settle(old(Abs()), now1) && wait == WaitTime(Abs(), need, now2)
    {
      var have := SettleAndPeek(now1);
      if have >= need {
        return 0;
      }
      var missing := need - have;
      var periods := (missing - 1) / refill + 1;
      var us := periods * period;
      if us >= INT64_MAX {
        return INT64_MAX;
      }
      wait := us;
      var elapsed := now2 - lastUs;
      if elapsed > 0 {
        var inPeriod := elapsed % period;
        wait := if wait > inPeriod then wait - inPeriod else 1;
      }
      wait := if wait < 1 then 1 else wait;
    }
  }

  /** How long `wait_us_for` says to sleep, seen from the second clock read. */
  function WaitTime(b: Bucket, need: int, now2: int): int
    requires Valid(b)
  {
    if b.tokens >= need then 0
    else
      var us := PeriodsFor(b, need) * b.period;
      if us >= INT64_MAX then INT64_MAX
      else
        var elapsed := now2 - b.last;
        var inPeriod := if elapsed > 0 then elapsed % b.period else 0;
        if us > inPeriod then us - inPeriod else 1
  }

  lemma PeriodsUnique(from: int, to: int, period: int, k: int)
    requires period > 0 && to >= from && from + k * period <= to < from + (k + 1) * period
    ensures Periods(from, to, period) == k
  {
    var j := Periods(from, to, period);
    if j < k {
      MulMonotone(j + 1, k, period);
    } else if j > k {
      MulMonotone(k + 1, j, period);
    }
  }

  lemma MulMonotone(a: int, b: int, p: int)
    requires a <= b && p >= 0
    ensures a * p <= b * p
  {
  }

  /** Periods add up when the first stop is on the grid. */
  lemma PeriodsAdd(from: int, mid: int, to: int, period: int)
    requires period > 0 && from <= mid <= to
    ensures var a := Periods(from, mid, period);
      Periods(from, to, period) == a + Periods(from + a * period, to, period)
  {
    var a := Periods(from, mid, period);
    var at := from + a * period;
    var b := Periods(at, to, period);
    assert at <= mid <= to;
    assert from + (a + b) * period == at + b * period;
    assert from + (a + b + 1) * period == at + (b + 1) * period;
    PeriodsUnique(from, to, period, a + b);
  }

  /** Settling early on the way changes nothing. */
  lemma SettleTwice(b: Bucket, t1: int, t2: int)
    requires Valid(b) && b.last <= t1 <= t2
    ensures Settle(Settle(b, t1), t2) == Settle(b, t2)
  {
    var a := Periods(b.last, t1, b.period);
    var c := Periods(b.last + a * b.period, t2, b.period);
    PeriodsAdd(b.last, t1, t2, b.period);
    assert b.refill * (a + c) == b.refill * a + b.refill * c;
    assert b.refill * c >= 0;
    assert (a + c) * b.period == a * b.period + c * b.period;
  }

  /** The bucket holds `need` units exactly from a known instant on. */
  lemma ReadyExactly(b: Bucket, need: int, t: int)
    requires Valid(b) && b.tokens < need <= b.capacity
    ensures PeriodsFor(b, need) >= 1
    ensures Settle(b, t).tokens >= need <==> t >= b.last + PeriodsFor(b, need) * b.period
  {
    var missing := need - b.tokens;
    var n := PeriodsFor(b, need);
    var k := Periods(b.last, t, b.period);
    EnoughPeriods(missing, b.refill, n, k);
    if k >= n {
      MulMonotone(n, k, b.period);
      assert k > 0 ==> t >= b.last;
    } else {
      MulMonotone(k + 1, n, b.period);
      if t < b.last {
        MulMonotone(0, n, b.period);
      }
    }
  }

  lemma EnoughPeriods(missing: int, refill: int, n: int, k: int)
    requires missing > 0 && refill > 0 && n == (missing - 1) / refill + 1
    ensures n >= 1 && (refill * k >= missing <==> k >= n)
  {
    var q := (missing - 1) / refill;
    assert refill * q <= missing - 1 < refill * (q + 1) by {
      DivBounds(missing - 1, refill);
    }
    if k >= n {
      MulMonotone(n, k, refill);
    } else {
      MulMonotone(k, q, refill);
    }
  }

  lemma DivBounds(x: int, d: int)
    requires d > 0 && x >= 0
    ensures d * (x / d) <= x < d * (x / d + 1) && x / d >= 0
  {
  }

  lemma ModOfGrid(elapsed: int, period: int)
    requires period > 0 && elapsed >= 0
    ensures 0 <= elapsed % period <= elapsed && elapsed % period < period
    ensures elapsed < period ==> elapsed % period == elapsed
  {
    if elapsed >= period {
      assert elapsed % period < period;
    }
  }

  /** The advised sleep is always long enough for a need within the capacity, and exact
      to the microsecond when both clock reads fall in one period. `b` is the bucket
      settled at the first read; the product stays inside 64 bits. */
  lemma WaitIsEnough(b: Bucket, need: int, now2: int, t: int)
    requires Valid(b) && b.tokens < need <= b.capacity && b.last <= now2
    requires PeriodsFor(b, need) * b.period < INT64_MAX
    ensures t >= now2 + WaitTime(b, need, now2) ==> Settle(b, t).tokens >= need
    ensures now2 < b.last + b.period ==>
      (Settle(b, t).tokens >= need <==> t >= now2 + WaitTime(b, need, now2))
  {
    ReadyExactly(b, need, t);
    var us := PeriodsFor(b, need) * b.period;
    MulMonotone(1, PeriodsFor(b, need), b.period);
    assert us >= b.period;
    ModOfGrid(now2 - b.last, b.period);
  }

  datatype Request = Request(need: nat, now: int)

  /** A run of `try_acquire` calls, with what they were granted. */
  datatype Account = Account(b: Bucket, granted: int)

  function Serve(a: Account, r: Request): (s: Account)
    requires Valid(a.b)
    ensures Valid(s.b)
    ensures s.b == a.b.(tokens := s.b.tokens, last := s.b.last)
  {
    var b := Settle(a.b, r.now);
    if b.tokens >= r.need then Account(b.(tokens := b.tokens - r.need), a.granted + r.need) else Account(b, a.granted)
  }

  function ServeAll(a: Account, rs: seq<Request>): (s: Account)
    requires Valid(a.b)
    ensures Valid(s.b)
    ensures s.b == a.b.(tokens := s.b.tokens, last := s.b.last)
  {
    if rs == [] then a else Serve(ServeAll(a, rs[..|rs| - 1]), rs[|rs| - 1])
  }

  /** What is left plus what was granted never outgrows what was there plus the refills
      of the periods passed; the balance stays on its grid. */
  lemma {:induction false} Budget(a: Account, rs: seq<Request>, until: int)
    requires Valid(a.b) && a.b.last <= until && forall i :: 0 <= i < |rs| ==> rs[i].now <= until
    ensures var s := ServeAll(a, rs); var k := Periods(a.b.last, s.b.last, a.b.period);
      && a.b.last <= s.b.last <= until && s.b.last == a.b.last + k * a.b.period
      && s.granted - a.granted + s.b.tokens <= a.b.tokens + a.b.refill * k
  {
    if rs == [] {
      PeriodsUnique(a.b.last, a.b.last, a.b.period, 0);
      assert a.b.refill * 0 == 0;
    } else {
      Budget(a, rs[..|rs| - 1], until);
      BudgetStep(a, ServeAll(a, rs[..|rs| - 1]), rs[|rs| - 1], until);
    }
  }

  lemma BudgetStep(a: Account, m: Account, r: Request, until: int)
    requires Valid(a.b) && Valid(m.b) && m.b == a.b.(tokens := m.b.tokens, last := m.b.last)
    requires a.b.last <= m.b.last <= until && r.now <= until
    requires m.b.last == a.b.last + Periods(a.b.last, m.b.last, a.b.period) * a.b.period
    requires m.granted - a.granted + m.b.tokens <= a.b.tokens + a.b.refill * Periods(a.b.last, m.b.last, a.b.period)
    ensures var s := Serve(m, r); var k := Periods(a.b.last, s.b.last, a.b.period);
      && a.b.last <= s.b.last <= until && s.b.last == a.b.last + k * a.b.period
      && s.granted - a.granted + s.b.tokens <= a.b.tokens + a.b.refill * k
  {
    var j := Periods(a.b.last, m.b.last, a.b.period);
    var i := Periods(m.b.last, r.now, a.b.period);
    var s := Serve(m, r);
    assert s.b.last == m.b.last + i * a.b.period;
    MulMonotone(0, i, a.b.period);
    assert (j + i) * a.b.period == j * a.b.period + i * a.b.period;
    assert (j + i + 1) * a.b.period == (j + i) * a.b.period + a.b.period;
    PeriodsUnique(a.b.last, s.b.last, a.b.period, j + i);
    assert a.b.refill * (j + i) == a.b.refill * j + a.b.refill * i;
  }

  /** From a full bucket: by time `until` at most the capacity plus one refill for every
      whole period since the start has been granted. */
  lemma GrantedByTime(capacity: int, refill: int, period: int, start: int, rs: seq<Request>, until: int)
    requires capacity > 0 && refill > 0 && period > 0 && start <= until
    requires forall i :: 0 <= i < |rs| ==> rs[i].now <= until
    ensures var b := Bucket(capacity, capacity, refill, period, start);
      var s := ServeAll(Account(b, 0), rs);
      0 <= s.b.tokens <= capacity && s.granted <= capacity + refill * Periods(start, until, period)
  {
    var b := Bucket(capacity, capacity, refill, period, start);
    Budget(Account(b, 0), rs, until);
    var s := ServeAll(Account(b, 0), rs);
    var (k, m) := (Periods(start, s.b.last, period), Periods(start, until, period));
    if k > m {
      MulMonotone(m + 1, k, period);
    }
    MulMonotone(k, m, refill);
  }

  lemma {:induction false} ServeAllFront(a: Account, rs: seq<Request>)
    requires Valid(a.b) && rs != []
    ensures ServeAll(a, rs) == ServeAll(Serve(a, rs[0]), rs[1..])
  {
    if |rs| > 1 {
      ServeAllFront(a, rs[..|rs| - 1]);
      assert rs[..|rs| - 1][1..] == rs[1..][..|rs| - 2];
    } else {
      assert rs[..0] == [] && rs[1..] == [];
    }
  }

  /** Any window: requests made in [from, until] are granted at most the capacity plus one
      refill for every period boundary of the bucket's grid inside the window, whatever
      happened before. */
  lemma {:induction false} GrantedInWindow(a: Account, rs: seq<Request>, from: int, until: int)
    requires Valid(a.b) && a.b.last <= from <= until
    requires forall i :: 0 <= i < |rs| ==> from <= rs[i].now <= until
    ensures ServeAll(a, rs).granted - a.granted <=
      a.b.capacity + a.b.refill * (Periods(a.b.last, until, a.b.period) - Periods(a.b.last, from, a.b.period))
  {
    var m := a.(b := Settle(a.b, from));
    var (p, q) := (Periods(a.b.last, from, a.b.period), Periods(a.b.last, until, a.b.period));
    PeriodsAdd(a.b.last, from, until, a.b.period);
    assert q >= p;
    MulMonotone(0, q - p, a.b.refill);
    if rs != [] {
      SettleTwice(a.b, from, rs[0].now);
      ServeAllFront(a, rs);
      ServeAllFront(m, rs);
      assert Serve(a, rs[0]) == Serve(m, rs[0]);
      Budget(m, rs, until);
      var s := ServeAll(m, rs);
      var k := Periods(m.b.last, s.b.last, a.b.period);
      if k > q - p {
        MulMonotone(q - p + 1, k, a.b.period);
      }
      MulMonotone(k, q - p, a.b.refill);
    }
  }

  /** `rate_acquire` alone on a bucket: when the first attempt fails, sleeping the advised
      time makes the second one succeed. */
  lemma SecondAttemptSucceeds(b: Bucket, need: int, now1: int, now2: int, later: int)
    requires Valid(b) && 0 < need <= b.capacity && b.last <= now1 <= now2
    requires Settle(b, now1).tokens < need
    requires PeriodsFor(Settle(b, now1), need) * b.period < INT64_MAX
    requires later >= now2 + WaitTime(Settle(b, now1), need, now2)
    ensures Settle(Settle(b, now1), later).tokens >= need
  {
    WaitIsEnough(Settle(b, now1), need, now2, later);
  }
}

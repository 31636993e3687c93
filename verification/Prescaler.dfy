/** The choice of a timer prescaler in src/avrtos/drivers/timer.c. */
module Prescaler {
  import opened Errno

  const WORD := 0x1_0000_0000

  /** The prescalers a timer supports, in the order of their register values 1, 2, ... */
  function Table(timer: nat): (t: seq<nat>)
    ensures |t| >= 5 && t[0] == 1 && t[|t| - 1] == 1024
  {
    if timer == 2 then [1, 8, 32, 64, 128, 256, 1024] else [1, 8, 64, 256, 1024]
  }

  predicate Is16Bit(timer: nat) {
    timer in {1, 3, 4, 5}
  }

  predicate Is8Bit(timer: nat) {
    timer in {0, 2}
  }

  function MaxCounter(timer: nat): nat {
    if Is16Bit(timer) then 0xFFFF else 0xFF
  }

  /** The cycles of a period as the 32 bit product gives them; mhz is F_CPU / 1000000. */
  function Cycles(mhz: nat, period: nat): nat {
    (mhz * period) % WORD
  }

  /** TIMER_CALC_COUNTER_VALUE: the subtraction wraps when the quotient is zero. */
  function Counter(cycles: nat, prescaler: nat): nat
    requires prescaler >= 1
  {
    (cycles / prescaler - 1) % WORD
  }

  /** The counter is in range. */
  predicate Fits(timer: nat, cycles: nat, prescaler: nat)
    requires prescaler >= 1
  {
    prescaler <= cycles < (MaxCounter(timer) + 2) * prescaler
  }

  lemma Quotient(cycles: nat, p: nat, top: nat)
    requires p >= 1
    ensures cycles / p >= 1 <==> cycles >= p
    ensures cycles / p < top <==> cycles < top * p
    ensures 0 <= cycles - p * (cycles / p) < p
  {
    var q, r := cycles / p, cycles % p;
    assert cycles == q * p + r;
    if q >= 1 {
      Times(1, q, p);
    }
    if q < top {
      Times(q + 1, top, p);
      assert (q + 1) * p == q * p + p;
    } else {
      Times(top, q, p);
    }
  }

  lemma {:induction false} Times(a: nat, b: nat, p: nat)
    requires a <= b
    ensures a * p <= b * p
  {
    if a < b {
      Times(a, b - 1, p);
      assert b * p == (b - 1) * p + p;
    }
  }

  lemma CounterFits(timer: nat, cycles: nat, p: nat)
    requires p >= 1 && cycles < WORD
    ensures Counter(cycles, p) <= MaxCounter(timer) <==> Fits(timer, cycles, p)
    ensures Fits(timer, cycles, p) ==> Counter(cycles, p) == cycles / p - 1
  {
    hide MaxCounter;
    Quotient(cycles, p, MaxCounter(timer) + 2);
    NoLarger(cycles, p);
    OneLess(cycles / p);
    CounterRange(timer);
  }

  lemma CounterRange(timer: nat)
    ensures MaxCounter(timer) + 2 < WORD
  {
  }

  lemma NoLarger(cycles: nat, p: nat)
    requires p >= 1
    ensures cycles / p <= cycles
  {
    var q := cycles / p;
    Times(1, p, q);
    assert p * q == q * p;
  }

  lemma OneLess(q: nat)
    requires q < WORD
    ensures (q - 1) % WORD == if q == 0 then WORD - 1 else q - 1
  {
  }

  /** timer_calc_prescaler: the register value of the first prescaler that fits, and the counter. */
  method Calculate(timer: nat, mhz: nat, period: nat) returns (ret: int, counter: nat)
    ensures ret == ENOTSUP || 1 <= ret <= |Table(timer)|
    ensures ret != ENOTSUP <==> 1 <= Cycles(mhz, period) < (MaxCounter(timer) + 2) * 1024
    ensures ret != ENOTSUP ==> var p := Table(timer)[ret - 1];
            p >= 1 && Fits(timer, Cycles(mhz, period), p) && counter == Cycles(mhz, period) / p - 1 <= MaxCounter(timer)
    ensures forall i :: 0 <= i < |Table(timer)| && (ret == ENOTSUP || i < ret - 1) ==>
              Table(timer)[i] >= 1 && !Fits(timer, Cycles(mhz, period), Table(timer)[i])
  {
    var table, max := Table(timer), MaxCounter(timer);
    var id := 0;
    var cycles := Cycles(mhz, period);
    SomeFits(timer, cycles);
    counter := 0;
    while true
      invariant 0 <= id <= |table|
      invariant forall i :: 0 <= i < id ==> table[i] >= 1 && !Fits(timer, cycles, table[i])
      decreases |table| - id
    {
      id := id + 1;
      if id > |table| {
        return ENOTSUP, 0;
      }
      counter := Counter(cycles, table[id - 1]);
      CounterFits(timer, cycles, table[id - 1]);
      if counter <= max {
        break;
      }
    }
    ret := id;
  }

  /** Some prescaler fits exactly when there is at least one cycle and not too many for 1024. */
  lemma SomeFits(timer: nat, cycles: nat)
    ensures (exists i :: 0 <= i < |Table(timer)| && Table(timer)[i] >= 1 && Fits(timer, cycles, Table(timer)[i])) <==>
            1 <= cycles < (MaxCounter(timer) + 2) * 1024
  {
    var t, m := Table(timer), MaxCounter(timer);
    if 1 <= cycles < (m + 2) * 1024 {
      var i := FirstFit(timer, cycles, |t| - 1);
    }
    forall i | 0 <= i < |t| && t[i] >= 1 && Fits(timer, cycles, t[i]) ensures 1 <= cycles < (m + 2) * 1024 {
      assert t[i] <= 1024;
      assert (m + 2) * t[i] <= (m + 2) * 1024;
    }
  }

  /** Neighbouring prescalers overlap, so there is no gap between their ranges. */
  lemma {:induction false} FirstFit(timer: nat, cycles: nat, n: nat) returns (i: nat)
    requires n < |Table(timer)| && 1 <= cycles < (MaxCounter(timer) + 2) * Table(timer)[n]
    ensures i <= n && Table(timer)[i] >= 1 && Fits(timer, cycles, Table(timer)[i])
  {
    var t, m := Table(timer), MaxCounter(timer);
    if t[n] <= cycles {
      i := n;
    } else {
      assert n > 0 && t[n] <= 8 * t[n - 1] <= (m + 2) * t[n - 1];
      i := FirstFit(timer, cycles, n - 1);
    }
  }

  /** timer_get_max_period_us, for a timer that exists. */
  function MaxPeriod(timer: nat, mhz: nat): nat
    requires mhz >= 1
  {
    if Is16Bit(timer) then (1024 * 0x10000) / mhz else if Is8Bit(timer) then (1024 * 0x100) / mhz else 0
  }

  /** Every nonzero period up to the reported maximum is within reach of some prescaler, and
      its cycle product does not wrap. */
  lemma MaxPeriodReached(timer: nat, mhz: nat, period: nat)
    requires mhz >= 1 && 1 <= period <= MaxPeriod(timer, mhz)
    ensures Cycles(mhz, period) == mhz * period
    ensures exists i :: 0 <= i < |Table(timer)| && Table(timer)[i] >= 1 && Fits(timer, Cycles(mhz, period), Table(timer)[i])
  {
    var m := MaxCounter(timer);
    var top := 1024 * (m + 1);
    assert MaxPeriod(timer, mhz) == top / mhz;
    Quotient(top, mhz, 0);
    Times(period, top / mhz, mhz);
    assert period * mhz == mhz * period && (top / mhz) * mhz == mhz * (top / mhz);
    Times(1, period, mhz);
    assert 1 <= mhz * period <= top < WORD;
    SomeFits(timer, mhz * period);
  }

  /** A call that succeeds is off by less than one prescaled tick exactly when the 32 bit
      product did not wrap. */
  lemma ErrorBound(timer: nat, mhz: nat, period: nat, p: nat)
    requires p >= 1 && Fits(timer, Cycles(mhz, period), p) && p <= 1024
    ensures var counter := Cycles(mhz, period) / p - 1;
            0 <= mhz * period - p * (counter + 1) < p <==> mhz * period < WORD
  {
    var c, n := Cycles(mhz, period), mhz * period;
    Quotient(c, p, 0);
    assert p * (c / p - 1 + 1) == p * (c / p);
    if n >= WORD {
      assert n == (n / WORD) * WORD + c && n / WORD >= 1;
      assert n - c >= WORD;
    }
  }

  /** A period of about four and a half minutes at 16 MHz, taken for one microsecond. */
  lemma LongPeriodWraps()
    ensures Cycles(16, 0x1000_0001) == 16 && Fits(1, Cycles(16, 0x1000_0001), 1)
  {
  }
}

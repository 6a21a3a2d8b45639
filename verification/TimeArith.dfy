/** Time values, their arithmetic and their comparison. */
module TimeArith {

  datatype Time = Time(sec: int, usec: int)

  const MICROS: int := 1000000
  const ZERO: Time := Time(0, 0)

  /** The number of microseconds that a value stands for. */
  function Total(t: Time): int { t.sec * MICROS + t.usec }

  /** The values that the arithmetic produces: a full second may stay in the microseconds. */
  predicate InRange(t: Time) { 0 <= t.usec <= MICROS }

  function Sum(a: Time, b: Time): (r: Time) {
    var r := Time(a.sec + b.sec, a.usec + b.usec);
    if r.usec > MICROS then Time(r.sec + 1, r.usec - MICROS) else r
  }

  function Difference(a: Time, b: Time): (r: Time) {
    var r := Time(a.sec - b.sec, a.usec - b.usec);
    if r.usec < 0 then Time(r.sec - 1, r.usec + MICROS) else r
  }

  const INT_RANGE: int := 0x1_0000_0000
  const INT_MAX: int := 0x7fff_ffff

  /** Storing a long in an int keeps it modulo 2^32. */
  function ToInt(x: int): (r: int)
    ensures -INT_MAX - 1 <= r <= INT_MAX
    ensures -INT_MAX - 1 <= x <= INT_MAX ==> r == x
  {
    (x + INT_MAX + 1) % INT_RANGE - INT_MAX - 1
  }

  predicate Fits(x: int) { -INT_MAX - 1 <= x <= INT_MAX }

  /** Negative, zero or positive as a is before, at or after b. */
  function Compare(a: Time, b: Time): (rc: int) {
    var rc := ToInt(a.sec - b.sec);
    if rc == 0 then ToInt(a.usec - b.usec) else rc
  }

  lemma {:induction false} SumTotal(a: Time, b: Time)
    requires InRange(a) && InRange(b)
    ensures Total(Sum(a, b)) == Total(a) + Total(b) && InRange(Sum(a, b))
  {
  }

  /** The sum of two proper times is proper, with less than a second in the microseconds, exactly when
      their microseconds do not add up to a second; then that second stays there. */
  lemma {:induction false} SumProper(a: Time, b: Time)
    requires 0 <= a.usec < MICROS && 0 <= b.usec < MICROS
    ensures Sum(a, b).usec < MICROS <==> a.usec + b.usec != MICROS
    ensures Sum(a, b).usec <= MICROS
  {
  }

  /** Twice half a second is no second and a million microseconds. */
  lemma {:induction false} SumKeepsSecond()
    ensures Sum(Time(0, 500_000), Time(0, 500_000)) == Time(0, 1_000_000)
  {
  }

  /** The difference of two proper times is proper. */
  lemma {:induction false} DifferenceProper(a: Time, b: Time)
    requires 0 <= a.usec < MICROS && 0 <= b.usec < MICROS
    ensures 0 <= Difference(a, b).usec < MICROS
  {
  }

  lemma {:induction false} DifferenceTotal(a: Time, b: Time)
    requires InRange(a) && InRange(b)
    ensures Total(Difference(a, b)) == Total(a) - Total(b) && InRange(Difference(a, b))
    ensures Total(a) >= Total(b) ==> Difference(a, b).sec >= 0 || Difference(a, b).usec == MICROS
  {
  }

  lemma {:induction false} RoundTrip(a: Time, b: Time)
    requires InRange(a) && InRange(b)
    ensures Total(Difference(Sum(a, b), b)) == Total(a)
  {
    SumTotal(a, b);
    DifferenceTotal(Sum(a, b), b);
  }

  /** Comparison never contradicts the order of the microseconds. */
  lemma {:induction false} CompareOrder(a: Time, b: Time)
    requires InRange(a) && InRange(b) && Fits(a.sec - b.sec)
    ensures Compare(a, b) < 0 ==> Total(a) <= Total(b)
    ensures Compare(a, b) > 0 ==> Total(a) >= Total(b)
    ensures Compare(a, b) == 0 ==> Total(a) == Total(b)
    ensures a.usec < MICROS && b.usec < MICROS ==> (Compare(a, b) < 0 <==> Total(a) < Total(b))
  {
  }

  /** A second apart by a multiple of 2^32 is not seen at all. */
  lemma {:induction false} CompareTruncates()
    ensures Compare(Time(INT_RANGE, 0), Time(0, 0)) == 0 && Total(Time(INT_RANGE, 0)) > Total(Time(0, 0))
  {
  }

  function Sign(x: int): int { if x < 0 then -1 else if x == 0 then 0 else 1 }

  predicate Right(a: Time, b: Time) { Sign(Compare(a, b)) == Sign(Total(a) - Total(b)) }

  lemma {:induction false} CompareRight(a: Time, b: Time)
    requires 0 <= a.usec < MICROS && 0 <= b.usec < MICROS && Sign(ToInt(a.sec - b.sec)) == Sign(a.sec - b.sec)
    ensures Right(a, b)
  {
  }

  /** A difference of seconds whose last 32 bits show its sign. */
  predicate Narrow(d: int) {
    d == 0 || (d > 0 && 0 < d % INT_RANGE <= INT_MAX) || (d < 0 && d % INT_RANGE > INT_MAX)
  }

  lemma {:induction false} NarrowSign(d: int)
    ensures Narrow(d) <==> Sign(ToInt(d)) == Sign(d)
  {
  }

  /** Two numbers of seconds compare as they should, whatever the microseconds, exactly when the
      last 32 bits of their difference show its sign. */
  lemma {:induction false} CompareExactly(x: int, y: int)
    ensures (forall u, v :: 0 <= u < MICROS && 0 <= v < MICROS ==> Right(Time(x, u), Time(y, v))) <==> Narrow(x - y)
  {
    hide Right, ToInt, Narrow;
    NarrowSign(x - y);
    if Narrow(x - y) {
      forall u, v | 0 <= u < MICROS && 0 <= v < MICROS ensures Right(Time(x, u), Time(y, v)) {
        CompareRight(Time(x, u), Time(y, v));
      }
    } else {
      CompareWrong(x, y);
    }
  }

  lemma {:induction false} CompareWrong(x: int, y: int)
    requires Sign(ToInt(x - y)) != Sign(x - y)
    ensures !Right(Time(x, 0), Time(y, 0))
  {
    hide ToInt;
    assert ToInt(0) == 0;
    assert Total(Time(x, 0)) - Total(Time(y, 0)) == (x - y) * MICROS;
  }

  /** A time structure that the arithmetic updates in place. */
  class TimeVal {
    var sec: int
    var usec: int

    function Value(): Time
      reads this
    {
      Time(sec, usec)
    }

    constructor (sec: int, usec: int)
      ensures Value() == Time(sec, usec)
    {
      this.sec, this.usec := sec, usec;
    }

    method Add(t2: Time)
      modifies this
      ensures Value() == Sum(old(Value()), t2)
    {
      sec := sec + t2.sec;
      usec := usec + t2.usec;
      if usec > MICROS {
        sec := sec + 1;
        usec := usec - MICROS;
      }
    }

    method Sub(t2: Time)
      modifies this
      ensures Value() == Difference(old(Value()), t2)
    {
      sec := sec - t2.sec;
      usec := usec - t2.usec;
      if usec < 0 {
        sec := sec - 1;
        usec := usec + MICROS;
      }
    }
  }
}

/**
 * Calendar arithmetic of the simulation: fixed 30-day months, numbered from
 * zero, with day 1 the first simulated day (utilities/py_tools.py).
 */
module Calendar {

  /** Number of days in every simulated month. */
  const DAYS_IN_MONTH: int := 30

  /**
   * Month of a day: day 0 is month 0, every other day d is month (d - 1) // 30
   * with Python's floor division. Dafny's `/` is Euclidean, which agrees with
   * floor division for the positive divisor 30, also for negative days.
   */
  function MonthByDay(day: int): (month: int)
    ensures day == 0 ==> month == 0
    ensures day >= 1 ==> 30 * month + 1 <= day <= 30 * month + 30
    ensures day >= 0 ==> month >= 0
  {
    if day == 0 then 0 else (day - 1) / DAYS_IN_MONTH
  }

  /** Days 30m+1 through 30m+30 are exactly the days of month m (for days from 1 on). */
  lemma MonthOfDay(day: int, month: int)
    requires day >= 1
    ensures MonthByDay(day) == month <==> 30 * month + 1 <= day <= 30 * month + 30
  {
    var m := MonthByDay(day);
    if m < month {
      assert 30 * m + 30 <= 30 * month;
    } else if m > month {
      assert 30 * month + 30 <= 30 * m;
    }
  }

  /** The first and last days of the first two months. */
  lemma MonthBoundaries()
    ensures MonthByDay(0) == 0 && MonthByDay(1) == 0 && MonthByDay(30) == 0
    ensures MonthByDay(31) == 1 && MonthByDay(60) == 1 && MonthByDay(61) == 2
  {
  }

  /** A later day never lies in an earlier month. */
  lemma MonthMonotone(d1: int, d2: int)
    requires d1 <= d2
    ensures MonthByDay(d1) <= MonthByDay(d2)
  {
    var m1, m2 := MonthByDay(d1), MonthByDay(d2);
    if d1 >= 1 {
      assert 30 * m1 + 1 <= d1 <= d2 <= 30 * m2 + 30;
    } else if d1 < 0 {
      var q1, q2 := (d1 - 1) / DAYS_IN_MONTH, (d2 - 1) / DAYS_IN_MONTH;
      assert 30 * q1 <= d1 - 1 < 30 * q1 + 30;
      assert 30 * q2 <= d2 - 1 < 30 * q2 + 30;
      assert q1 <= q2;
      if d2 == 0 {
        assert q1 < 0;
      } else if d2 >= 1 {
        assert m2 >= 0 && q1 < 0;
      }
    }
  }
}

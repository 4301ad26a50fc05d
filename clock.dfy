/** The simulation's global minute counter (src/system/clock.py).
    The source keeps the counter in a class attribute; here it is the field
    of one Clock object that callers pass around. */
module Clock {

  const MinutesInHour: nat := 60
  const MinutesInDay: nat := 24 * MinutesInHour

  /** Minute of the day at the given iteration count. */
  function MinuteInDayAt(iterations: nat): (m: nat)
    ensures m < MinutesInDay
  {
    iterations % MinutesInDay
  }

  /** Number of whole days elapsed at the given iteration count. */
  function DaysAt(iterations: nat): (d: nat)
    ensures d * MinutesInDay <= iterations < (d + 1) * MinutesInDay
  {
    iterations / MinutesInDay
  }

  class Clock {
    var iterations: nat

    constructor ()
      ensures iterations == 0
    {
      iterations := 0;
    }

    method Advance()
      modifies this
      ensures iterations == old(iterations) + 1
    {
      iterations := iterations + 1;
    }

    method Reset()
      modifies this
      ensures iterations == 0
    {
      iterations := 0;
    }

    function MinuteInDay(): (m: nat)
      reads `iterations
      ensures m < MinutesInDay
      ensures DaysAt(iterations) * MinutesInDay + m == iterations
    {
      MinuteInDayAt(iterations)
    }

    function MinuteInHour(): (m: nat)
      reads `iterations
      ensures m < MinutesInHour
      ensures HourInDay() * MinutesInHour + m == MinuteInDay()
    {
      MinuteInDay() % MinutesInHour
    }

    function HourInDay(): (h: nat)
      reads `iterations
      ensures h < 24
      ensures h * MinutesInHour <= MinuteInDay() < (h + 1) * MinutesInHour
    {
      MinuteInDay() / MinutesInHour
    }

    function Days(): (d: nat)
      reads `iterations
      ensures d * MinutesInDay + MinuteInDay() == iterations
    {
      DaysAt(iterations)
    }
  }

  /** A full day of advances moves the day counter by exactly one and
      leaves the minute of the day where it was. */
  lemma DayOfAdvances(iterations: nat)
    ensures DaysAt(iterations + MinutesInDay) == DaysAt(iterations) + 1
    ensures MinuteInDayAt(iterations + MinutesInDay) == MinuteInDayAt(iterations)
  {
    var d, m := DaysAt(iterations), MinuteInDayAt(iterations);
    assert iterations == d * MinutesInDay + m;
    assert iterations + MinutesInDay == (d + 1) * MinutesInDay + m;
  }
}

/** The second clock of the pacing package (src/system/budget_pacing/mystique/clock.py),
    whose day length comes from the configuration's iterations per day. */
module MystiqueClock {

  /** n_iterations_per_day of src/configuration.py. */
  const IterationsPerDay: nat := 1440

  class Clock {
    var iterations: nat

    constructor ()
      ensures iterations == 0
    {
      iterations := 0;
    }

    method Advance()
      modifies this
      ensures iterations == old(iterations) + 1
    {
      iterations := iterations + 1;
    }

    method Reset()
      modifies this
      ensures iterations == 0
    {
      iterations := 0;
    }

    function Minutes(): (m: nat)
      reads `iterations
      ensures m < IterationsPerDay
      ensures Days() * IterationsPerDay + m == iterations
    {
      iterations % IterationsPerDay
    }

    function Days(): (d: nat)
      reads `iterations
      ensures d * IterationsPerDay <= iterations < (d + 1) * IterationsPerDay
    {
      iterations / IterationsPerDay
    }
  }
}

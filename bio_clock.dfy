/** The home screen's greeting card picks one of four periods from the
    local hour. */
module BioClock {

  datatype TimeOfDay = Morning | Day | Evening | Night

  /** `getTimeOfDay` for the hour `new Date().getHours()` reports. */
  function TimeOfDayAt(hour: int): (t: TimeOfDay)
    requires 0 <= hour < 24
    ensures (hour - StartHour(t) + 24) % 24 < (StartHour(Next(t)) - StartHour(t) + 24) % 24
  {
    if 5 <= hour < 12 then Morning
    else if 12 <= hour < 17 then Day
    else if 17 <= hour < 21 then Evening
    else Night
  }

  /** The hour each period begins. */
  function StartHour(t: TimeOfDay): (h: int)
    ensures 0 <= h < 24
  {
    match t
    case Morning => 5
    case Day => 12
    case Evening => 17
    case Night => 21
  }

  /** The period that follows, round the clock. */
  function Next(t: TimeOfDay): (n: TimeOfDay)
    ensures n != t
  {
    match t
    case Morning => Day
    case Day => Evening
    case Evening => Night
    case Night => Morning
  }

  /** Hours since 5 o'clock, so that a day of periods reads in order. */
  function SinceMorning(hour: int): (d: int)
    requires 0 <= hour < 24
    ensures 0 <= d < 24
    ensures (d + 5) % 24 == hour
  {
    (hour + 19) % 24
  }

  /** Each period is the half-open run of hours from its start to the next
      period's start, counted round the clock; so every hour has exactly
      one period and the runs cover the day. */
  lemma PeriodIsRunFromStart(hour: int, t: TimeOfDay)
    requires 0 <= hour < 24
    ensures TimeOfDayAt(hour) == t <==>
      var len := (StartHour(Next(t)) - StartHour(t) + 24) % 24;
      (hour - StartHour(t) + 24) % 24 < len
  {
  }

  /** Read from 5 o'clock onwards, the period only moves forward through
      morning, day, evening and night. */
  lemma PeriodsInOrder(h1: int, h2: int)
    requires 0 <= h1 < 24 && 0 <= h2 < 24
    requires SinceMorning(h1) <= SinceMorning(h2)
    ensures Rank(TimeOfDayAt(h1)) <= Rank(TimeOfDayAt(h2))
  {
  }

  function Rank(t: TimeOfDay): int
  {
    match t
    case Morning => 0
    case Day => 1
    case Evening => 2
    case Night => 3
  }
}

/** `human_moon` (moon_sun_sim.py) from local clock readings: each instant
    (the observation and the eight quarter-moon events) is reduced to its
    local calendar date, as `.date()` does, before the classifier compares
    anything.  The ephemeris searches and the UTC-to-local conversion of
    `ephem.localtime` happen before this point and are inputs. */
module LocalDates {
  import opened Wrappers
  import opened MoonPhase

  /** A local clock reading, in seconds since midnight at the start of day 0. */
  type Timestamp = int

  const SecondsPerDay: int := 86400

  /** The local clock readings of the eight quarter-moon events surrounding
      the observation. */
  datatype Events = Events(
    nextFull: Timestamp,
    nextNew: Timestamp,
    nextLastQuarter: Timestamp,
    nextFirstQuarter: Timestamp,
    previousFull: Timestamp,
    previousNew: Timestamp,
    previousLastQuarter: Timestamp,
    previousFirstQuarter: Timestamp)

  /** Instant `ts` lies within local day `d`. */
  predicate OnDay(ts: Timestamp, d: Date) {
    d * SecondsPerDay <= ts < d * SecondsPerDay + SecondsPerDay
  }

  /** The calendar date of a local clock reading (time of day dropped). */
  function LocalDate(ts: Timestamp): (d: Date)
    ensures OnDay(ts, d)
  {
    ts / SecondsPerDay
  }

  /** Each instant lies in exactly one local day. */
  lemma OnOneDay(ts: Timestamp, d: Date)
    requires OnDay(ts, d)
    ensures LocalDate(ts) == d
  {
  }

  /** The local dates of the eight event instants. */
  function DatesOf(events: Events): (a: Anchors)
    ensures OnDay(events.nextFull, a.nextFull) && OnDay(events.previousFull, a.previousFull)
    ensures OnDay(events.nextNew, a.nextNew) && OnDay(events.previousNew, a.previousNew)
    ensures OnDay(events.nextFirstQuarter, a.nextFirstQuarter)
    ensures OnDay(events.previousFirstQuarter, a.previousFirstQuarter)
    ensures OnDay(events.nextLastQuarter, a.nextLastQuarter)
    ensures OnDay(events.previousLastQuarter, a.previousLastQuarter)
  {
    Anchors(
      LocalDate(events.nextFull), LocalDate(events.nextNew),
      LocalDate(events.nextLastQuarter), LocalDate(events.nextFirstQuarter),
      LocalDate(events.previousFull), LocalDate(events.previousNew),
      LocalDate(events.previousLastQuarter), LocalDate(events.previousFirstQuarter))
  }

  /** `human_moon`: the name of the bucket for the observation's local date,
      or `None` when no branch is taken. */
  function HumanMoon(target: Timestamp, events: Events): (r: Option<string>)
    ensures r.Some? ==> r.value in PhaseNames
    ensures r.None? <==> Classify(LocalDate(target), DatesOf(events)).None?
    ensures r.Some? ==> r.value == Name(Classify(LocalDate(target), DatesOf(events)).value)
  {
    match Classify(LocalDate(target), DatesOf(events))
    case Some(p) => Some(Name(p))
    case None => None
  }

  /** Only the calendar dates matter: two observations on the same local day,
      against events on the same local days, get the same answer. */
  lemma TimeOfDayIrrelevant(t1: Timestamp, ev1: Events, t2: Timestamp, ev2: Events, d: Date)
    requires OnDay(t1, d) && OnDay(t2, d)
    requires DatesOf(ev1) == DatesOf(ev2)
    ensures HumanMoon(t1, ev1) == HumanMoon(t2, ev2)
  {
  }
}

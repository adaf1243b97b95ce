# Moon-phase classifier of `moon_sun_sim.py`

The script `moon_sun_sim.py` prints the positions of the Moon and the Sun for a
place and a local date and time. The only logic it contains beyond library
calls is `human_moon`, which names the Moon's phase as one of eight buckets:
`Full`, `New`, `First quarter`, `Last quarter`, `Waxing crescent`,
`Waxing gibbous`, `Waning gibbous`, `Waning crescent`.

`human_moon` reads nine local calendar dates:
- the date of the observation;
- the dates of the next and the previous new, first-quarter, full and
  last-quarter moons.

It then runs an if/elif chain. First come four exact-date tests, in the order
Full, New, First quarter, Last quarter. Then come four strict chains of
comparisons over the previous and next event dates. When no branch is taken,
Python returns `None`.

This project models that decision procedure as pure Dafny functions.
- `wrappers.dfy`: `Option`, whose `None` stands for Python's implicit `None`.
- `moon_phase.dfy`, module `MoonPhase`: the buckets (`Phase`), the eight event
  dates (`Anchors`), the test of each branch (`Guard`), the chain itself
  (`Classify`), and lemmas about precedence, mutual exclusion and
  self-consistent inputs.
- `local_dates.dfy`, module `LocalDates`: local clock readings in seconds
  (the observation, and the eight events as an `Events` record) are reduced
  to calendar dates, as `.date()` does, before `Classify` runs. `HumanMoon`
  returns the bucket's string, as the source does.

Dates are `int` day numbers. A local clock reading is an `int` count of
seconds since midnight at the start of day 0. Its date is the floor of the
reading divided by 86400.

Python's chained comparison `a < b < c < d < e` compares each adjacent pair.
The model writes it the same way, as the recursive predicate `Ascending`, and
proves it equal to "every earlier date is strictly before every later one".
`OrderingChains` then shows that each ordering test is exactly the chain the
source writes.

The four ordering chains are modelled exactly as written. Although
`previous_first_quarter` is compared with next-event dates in the
`Waxing gibbous` chain, that chain follows the same cyclic pattern as the
other three: the previous event of one kind, then the next four events in
cycle order, ending with the next event of that same kind.
`OrderingGuardsExclusive` proves the four chains exclude one another.

## Model

| member | source | states |
|---|---|---|
| `MoonPhase.Name` | moon_sun_sim.py:39-53 | every string the classifier returns is one of the eight literal bucket names |
| `MoonPhase.NameInjective` | moon_sun_sim.py:39-53 | distinct buckets have distinct names, so the returned string identifies the bucket |
| `MoonPhase.Rank` | moon_sun_sim.py:38-53 | the position of each bucket's test in the chain; the four exact-date buckets come first |
| `MoonPhase.RankInjective` | moon_sun_sim.py:38-53 | each position in the chain belongs to exactly one bucket |
| `MoonPhase.Ascending` | moon_sun_sim.py:46-53 | a Python chained comparison of adjacent pairs holds exactly when every earlier date is strictly before every later one |
| `MoonPhase.ChainOfFive` | moon_sun_sim.py:46 | a five-date chain as the source writes it is the conjunction of its four adjacent comparisons |
| `MoonPhase.OrderingChains` | moon_sun_sim.py:46-53 | the ordering tests are exactly the four comparison chains at lines 46, 48, 50 and 52 |
| `MoonPhase.Guard` | moon_sun_sim.py:38-52 | the test the source makes before returning each bucket; for an event bucket it holds exactly when the date equals that kind's next or previous event date |
| `MoonPhase.OnAnchorDate` | moon_sun_sim.py:38-44 | the target is on an event date exactly when one of the four exact-date tests holds |
| `MoonPhase.Classify` | moon_sun_sim.py:38-53 | a returned bucket's own test holds; an in-between bucket or `None` is returned only when the date is on none of the eight event dates |
| `MoonPhase.FullWins` | moon_sun_sim.py:38-39 | a date equal to the next or previous full-moon date gives `Full`, whatever the other dates are |
| `MoonPhase.ClassifyIsFirstGuard` | moon_sun_sim.py:38-53 | bucket `p` is returned if and only if its test holds and no test earlier in the chain holds |
| `MoonPhase.ExactMatchWins` | moon_sun_sim.py:38-45 | on an event date the result is an event bucket whose date matches, and the earliest matching kind in the order Full, New, First quarter, Last quarter |
| `MoonPhase.OrderingGuardsExclusive` | moon_sun_sim.py:46-53 | no two of the four ordering chains hold for the same dates |
| `MoonPhase.OrderingBucketIff` | moon_sun_sim.py:38-53 | an in-between bucket is returned if and only if the date is on no event date and that bucket's own chain holds |
| `MoonPhase.NoClassificationIff` | moon_sun_sim.py:25-53 | the result is `None` if and only if the date is on no event date and none of the four chains holds |
| `MoonPhase.ConsistentIsClassified` | moon_sun_sim.py:25-53 | with self-consistent event dates the chain never returns `None`; off event dates it returns the bucket fixed by the next event due |
| `LocalDates.LocalDate` | moon_sun_sim.py:29 | `.date()` of a local clock reading is the day the reading lies in |
| `LocalDates.OnOneDay` | moon_sun_sim.py:29-37 | each clock reading lies in exactly one local day |
| `LocalDates.DatesOf` | moon_sun_sim.py:30-37 | each event date is the local day in which the event instant lies |
| `LocalDates.HumanMoon` | moon_sun_sim.py:25-53 | `human_moon` returns `None` exactly when the classifier does, and otherwise one of the eight names, the name of the classified bucket |
| `LocalDates.TimeOfDayIrrelevant` | moon_sun_sim.py:28-37 | two observations on the same local day, with events on the same local days, get the same answer |

## Left out

- Command-line parsing, the reassignment of module-level settings, and the
  `int(...)` conversions (moon_sun_sim.py:55-84): argument plumbing.
- The Figlet banner and every `print` (moon_sun_sim.py:57-58, 83-87, 95-96,
  111-152): output only.
- Geocoding with Nominatim (moon_sun_sim.py:89-90): a network service.
- The `ephem` Moon and Sun computations, rise and set times, illumination,
  and the rounding of radians to degrees (moon_sun_sim.py:101-134): a foreign
  library and floating point.
- The skyfield recomputation, including loading `de421.bsp`
  (moon_sun_sim.py:138-152): file I/O, a foreign library and floating point.
- The `ephem.next_*` and `ephem.previous_*` event searches inside
  `human_moon` (moon_sun_sim.py:30-37): their results come from a foreign
  library, so the eight event instants are inputs. `ConsistentIsClassified`
  states, as a hypothesis, what a self-consistent ephemeris supplies.
- The UTC-to-local conversion of `ephem.localtime` (moon_sun_sim.py:29-37):
  it depends on the system time zone, so instants are given already on the
  local clock.

/** The moon-phase classifier of `human_moon` (moon_sun_sim.py): given the
    local calendar date of the observation and the local calendar dates of the
    next and previous new, first-quarter, full and last-quarter moons, name the
    phase as one of eight buckets.  The dates are day numbers; the ephemeris
    searches that produce them are inputs. */
module MoonPhase {
  import opened Wrappers

  /** A local calendar date as a day number: consecutive days differ by one. */
  type Date = int

  /** The eight buckets, in the order the source tests them. */
  datatype Phase =
    | Full
    | New
    | FirstQuarter
    | LastQuarter
    | WaxingCrescent
    | WaxingGibbous
    | WaningGibbous
    | WaningCrescent
  {
    /** The four buckets named after a quarter-moon event, tested by exact date. */
    predicate IsAnchorKind() {
      Full? || New? || FirstQuarter? || LastQuarter?
    }
  }

  /** The local dates of the eight quarter-moon events surrounding the target. */
  datatype Anchors = Anchors(
    nextFull: Date,
    nextNew: Date,
    nextLastQuarter: Date,
    nextFirstQuarter: Date,
    previousFull: Date,
    previousNew: Date,
    previousLastQuarter: Date,
    previousFirstQuarter: Date)

  /** The strings the source returns. */
  const PhaseNames: set<string> := {
    "Full", "New", "First quarter", "Last quarter",
    "Waxing crescent", "Waxing gibbous", "Waning gibbous", "Waning crescent"
  }

  /** The literal the source returns for a bucket. */
  function Name(p: Phase): (s: string)
    ensures s in PhaseNames
  {
    match p
    case Full => "Full"
    case New => "New"
    case FirstQuarter => "First quarter"
    case LastQuarter => "Last quarter"
    case WaxingCrescent => "Waxing crescent"
    case WaxingGibbous => "Waxing gibbous"
    case WaningGibbous => "Waning gibbous"
    case WaningCrescent => "Waning crescent"
  }

  /** Position of a bucket's test in the if/elif chain (0 is tested first). */
  function Rank(p: Phase): (k: nat)
    ensures k < 8
    ensures k < 4 <==> p.IsAnchorKind()
  {
    match p
    case Full => 0
    case New => 1
    case FirstQuarter => 2
    case LastQuarter => 3
    case WaxingCrescent => 4
    case WaxingGibbous => 5
    case WaningGibbous => 6
    case WaningCrescent => 7
  }

  /** A Python chained comparison `x0 < x1 < ... < xn`: each adjacent pair
      is compared.  It holds exactly when the dates are strictly increasing. */
  predicate Ascending(xs: seq<Date>)
    ensures Ascending(xs) <==> forall i, j :: 0 <= i < j < |xs| ==> xs[i] < xs[j]
  {
    |xs| <= 1 || (xs[0] < xs[1] && Ascending(xs[1..]))
  }

  /** A chain of five dates, as the four ordering tests write it, is the
      conjunction of its four adjacent comparisons. */
  lemma ChainOfFive(v: Date, w: Date, x: Date, y: Date, z: Date)
    ensures Ascending([v, w, x, y, z]) <==> v < w && w < x && x < y && y < z
  {
    var xs := [v, w, x, y, z];
    if v < w && w < x && x < y && y < z {
      assert forall i, j :: 0 <= i < j < |xs| ==> xs[i] < xs[j];
    }
    if Ascending(xs) {
      assert xs[0] < xs[1] && xs[1] < xs[2] && xs[2] < xs[3] && xs[3] < xs[4];
    }
  }

  /** The four ordering tests, each as a chain of adjacent comparisons. */
  lemma OrderingChains(t: Date, a: Anchors)
    ensures Guard(WaxingCrescent, t, a) <==>
      a.previousNew < a.nextFirstQuarter < a.nextFull < a.nextLastQuarter < a.nextNew
    ensures Guard(WaxingGibbous, t, a) <==>
      a.previousFirstQuarter < a.nextFull < a.nextLastQuarter < a.nextNew < a.nextFirstQuarter
    ensures Guard(WaningGibbous, t, a) <==>
      a.previousFull < a.nextLastQuarter < a.nextNew < a.nextFirstQuarter < a.nextFull
    ensures Guard(WaningCrescent, t, a) <==>
      a.previousLastQuarter < a.nextNew < a.nextFirstQuarter < a.nextFull < a.nextLastQuarter
  {
    ChainOfFive(a.previousNew, a.nextFirstQuarter, a.nextFull, a.nextLastQuarter, a.nextNew);
    ChainOfFive(a.previousFirstQuarter, a.nextFull, a.nextLastQuarter, a.nextNew, a.nextFirstQuarter);
    ChainOfFive(a.previousFull, a.nextLastQuarter, a.nextNew, a.nextFirstQuarter, a.nextFull);
    ChainOfFive(a.previousLastQuarter, a.nextNew, a.nextFirstQuarter, a.nextFull, a.nextLastQuarter);
  }

  /** The test the source makes before returning bucket `p` on date `t`:
      an exact date match for the four event kinds, a strict chain of the
      previous and next event dates for the four in-between buckets. */
  predicate Guard(p: Phase, t: Date, a: Anchors)
    ensures p.IsAnchorKind() ==>
      (Guard(p, t, a) <==> t == NextOf(p, a) || t == PreviousOf(p, a))
  {
    match p
    case Full => t in [a.nextFull, a.previousFull]
    case New => t in [a.nextNew, a.previousNew]
    case FirstQuarter => t in [a.nextFirstQuarter, a.previousFirstQuarter]
    case LastQuarter => t in [a.nextLastQuarter, a.previousLastQuarter]
    case WaxingCrescent =>
      Ascending([a.previousNew, a.nextFirstQuarter, a.nextFull, a.nextLastQuarter, a.nextNew])
    case WaxingGibbous =>
      Ascending([a.previousFirstQuarter, a.nextFull, a.nextLastQuarter, a.nextNew, a.nextFirstQuarter])
    case WaningGibbous =>
      Ascending([a.previousFull, a.nextLastQuarter, a.nextNew, a.nextFirstQuarter, a.nextFull])
    case WaningCrescent =>
      Ascending([a.previousLastQuarter, a.nextNew, a.nextFirstQuarter, a.nextFull, a.nextLastQuarter])
  }

  /** The target date falls on one of the eight event dates. */
  predicate OnAnchorDate(t: Date, a: Anchors)
    ensures OnAnchorDate(t, a) <==>
      Guard(Full, t, a) || Guard(New, t, a) || Guard(FirstQuarter, t, a) || Guard(LastQuarter, t, a)
  {
    || t == a.nextFull || t == a.previousFull
    || t == a.nextNew || t == a.previousNew
    || t == a.nextFirstQuarter || t == a.previousFirstQuarter
    || t == a.nextLastQuarter || t == a.previousLastQuarter
  }

  /** The if/elif chain of `human_moon`: the first bucket whose test holds,
      or `None` when the chain falls off its end. */
  function Classify(t: Date, a: Anchors): (r: Option<Phase>)
    ensures r.Some? ==> Guard(r.value, t, a)
    ensures r.Some? && !r.value.IsAnchorKind() ==> !OnAnchorDate(t, a)
    ensures r.None? ==> !OnAnchorDate(t, a)
  {
    if Guard(Full, t, a) then Some(Full)
    else if Guard(New, t, a) then Some(New)
    else if Guard(FirstQuarter, t, a) then Some(FirstQuarter)
    else if Guard(LastQuarter, t, a) then Some(LastQuarter)
    else if Guard(WaxingCrescent, t, a) then Some(WaxingCrescent)
    else if Guard(WaxingGibbous, t, a) then Some(WaxingGibbous)
    else if Guard(WaningGibbous, t, a) then Some(WaningGibbous)
    else if Guard(WaningCrescent, t, a) then Some(WaningCrescent)
    else None
  }

  // ---------------------------------------------------------------------
  // Precedence of the chain

  lemma RankInjective(p: Phase, q: Phase)
    ensures Rank(p) == Rank(q) <==> p == q
  {
  }

  /** Distinct buckets are reported under distinct names. */
  lemma NameInjective(p: Phase, q: Phase)
    ensures Name(p) == Name(q) <==> p == q
  {
  }

  /** A target on the date of the next or the previous full moon is `Full`,
      whatever the other seven dates are. */
  lemma FullWins(t: Date, a: Anchors)
    requires t == a.nextFull || t == a.previousFull
    ensures Classify(t, a) == Some(Full)
  {
  }

  /** `Classify` returns `p` exactly when the test of `p` holds and no test
      that comes before it in the chain does. */
  lemma ClassifyIsFirstGuard(t: Date, a: Anchors, p: Phase)
    ensures Classify(t, a) == Some(p) <==>
      Guard(p, t, a) && forall q :: Rank(q) < Rank(p) ==> !Guard(q, t, a)
  {
  }

  /** When the target falls on an event date, the result is an event bucket,
      and it is the earliest of the matching kinds in the order Full, New,
      First quarter, Last quarter. */
  lemma ExactMatchWins(t: Date, a: Anchors, p: Phase)
    requires p.IsAnchorKind() && Guard(p, t, a)
    ensures Classify(t, a).Some?
    ensures Classify(t, a).value.IsAnchorKind()
    ensures Guard(Classify(t, a).value, t, a)
    ensures Rank(Classify(t, a).value) <= Rank(p)
  {
  }

  // ---------------------------------------------------------------------
  // The four ordering chains

  /** No two of the four ordering chains hold together: each puts the four
      next-event dates in a strict cyclic order that contradicts the others. */
  lemma OrderingGuardsExclusive(t: Date, a: Anchors, p: Phase, q: Phase)
    requires !p.IsAnchorKind() && !q.IsAnchorKind() && p != q
    ensures !(Guard(p, t, a) && Guard(q, t, a))
  {
    OrderingChains(t, a);
  }

  /** An in-between bucket is returned exactly when the target is on none of
      the eight event dates and that bucket's own chain holds; the chains
      tested before it need not be mentioned. */
  lemma OrderingBucketIff(t: Date, a: Anchors, p: Phase)
    requires !p.IsAnchorKind()
    ensures Classify(t, a) == Some(p) <==> !OnAnchorDate(t, a) && Guard(p, t, a)
  {
    OrderingChains(t, a);
  }

  /** The chain falls off its end exactly when the target is on no event date
      and none of the four ordering chains holds. */
  lemma NoClassificationIff(t: Date, a: Anchors)
    ensures Classify(t, a) == None <==>
      !OnAnchorDate(t, a) && forall p: Phase :: !p.IsAnchorKind() ==> !Guard(p, t, a)
  {
  }

  // ---------------------------------------------------------------------
  // Self-consistent ephemeris

  /** What a self-consistent ephemeris supplies: every previous event falls on
      or before the target date, every next one on or after it, and the next
      four events come in the lunar cycle's order New, First quarter, Full,
      Last quarter, starting from whichever is due first. */
  predicate Consistent(t: Date, a: Anchors) {
    && a.previousFull <= t && a.previousNew <= t
    && a.previousFirstQuarter <= t && a.previousLastQuarter <= t
    && t <= a.nextFull && t <= a.nextNew
    && t <= a.nextFirstQuarter && t <= a.nextLastQuarter
    && CycleOrdered(a)
  }

  /** The next four event dates are a rotation of New < First quarter < Full < Last quarter. */
  predicate CycleOrdered(a: Anchors) {
    || a.nextNew < a.nextFirstQuarter < a.nextFull < a.nextLastQuarter
    || a.nextFirstQuarter < a.nextFull < a.nextLastQuarter < a.nextNew
    || a.nextFull < a.nextLastQuarter < a.nextNew < a.nextFirstQuarter
    || a.nextLastQuarter < a.nextNew < a.nextFirstQuarter < a.nextFull
  }

  /** The event kind whose next date comes first (ties go to the earlier of
      First quarter, Full, Last quarter, New). */
  function DueNext(a: Anchors): (k: Phase)
    ensures k.IsAnchorKind()
    ensures a.nextFirstQuarter >= NextOf(k, a) && a.nextFull >= NextOf(k, a)
    ensures a.nextLastQuarter >= NextOf(k, a) && a.nextNew >= NextOf(k, a)
  {
    var m := Min(Min(a.nextFirstQuarter, a.nextFull), Min(a.nextLastQuarter, a.nextNew));
    if a.nextFirstQuarter == m then FirstQuarter
    else if a.nextFull == m then Full
    else if a.nextLastQuarter == m then LastQuarter
    else New
  }

  function Min(x: int, y: int): int {
    if x <= y then x else y
  }

  /** The next date of an event kind. */
  function NextOf(k: Phase, a: Anchors): Date
    requires k.IsAnchorKind()
  {
    match k
    case Full => a.nextFull
    case New => a.nextNew
    case FirstQuarter => a.nextFirstQuarter
    case LastQuarter => a.nextLastQuarter
  }

  /** The previous date of an event kind. */
  function PreviousOf(k: Phase, a: Anchors): Date
    requires k.IsAnchorKind()
  {
    match k
    case Full => a.previousFull
    case New => a.previousNew
    case FirstQuarter => a.previousFirstQuarter
    case LastQuarter => a.previousLastQuarter
  }

  /** Reference meaning of the four in-between buckets: the Moon is waxing
      crescent while first quarter is the next event due, waxing gibbous
      while full is, waning gibbous while last quarter is, and waning
      crescent while new is. */
  function Between(a: Anchors): (p: Phase)
    ensures !p.IsAnchorKind()
  {
    match DueNext(a)
    case FirstQuarter => WaxingCrescent
    case Full => WaxingGibbous
    case LastQuarter => WaningGibbous
    case New => WaningCrescent
  }

  /** With self-consistent dates the chain never falls off its end: on an
      event date it names an event bucket whose date matches, and otherwise
      it names the bucket fixed by the next event due. */
  lemma ConsistentIsClassified(t: Date, a: Anchors)
    requires Consistent(t, a)
    ensures Classify(t, a).Some?
    ensures OnAnchorDate(t, a) ==> Classify(t, a).value.IsAnchorKind()
    ensures !OnAnchorDate(t, a) ==> Classify(t, a) == Some(Between(a))
  {
    OrderingChains(t, a);
  }
}

/**
 * The strategy hook `makeSwap`: a description of the fixed-vs-floating swap that the
 * helper would build. Term-fixing helpers build a vanilla swap whose floating leg pays at
 * the index tenor; overnight helpers build an overnight-indexed swap whose floating leg
 * pays annually and averages the daily fixings.
 */
module SwapBuilder {
  import opened Wrappers
  import opened Market

  /** The arguments of a schedule; the dates themselves are generated by the library. */
  datatype Schedule = Schedule(
    effectiveDate: Date,
    terminationDate: Date,
    tenor: Period,
    calendar: Calendar,
    convention: BusinessDayConvention,
    terminationConvention: BusinessDayConvention,
    rule: DateGeneration,
    endOfMonth: bool)

  /** The instrument-specific part of the floating leg. */
  datatype FloatingLeg =
    | IborLeg(dayCounter: DayCounter)
    | OvernightLeg(
        paymentLag: int,
        paymentConvention: BusinessDayConvention,
        paymentCalendar: Calendar,
        telescopicValueDates: bool,
        averaging: RateAveraging)

  /** The swap that would be built: `VanillaSwap` for an Ibor leg, `OvernightIndexedSwap` otherwise. */
  datatype SwapDesc = SwapDesc(
    swapType: SwapType,
    nominal: real,
    fixedSchedule: Schedule,
    fixedRate: real,
    fixedDayCounter: DayCounter,
    floatingSchedule: Schedule,
    index: Index,
    spread: real,
    floatingLeg: FloatingLeg)

  /** The helper fields that `makeSwap` reads. */
  datatype SwapTerms = SwapTerms(
    startDate: Date,
    endDate: Date,
    fixedLegTenor: Period,
    index: Index,
    nominal: real,
    fixedLegDayCounter: DayCounter,
    floatingLegDayCounter: DayCounter)

  /**
   * The concrete helper. `OvernightStrategy` carries the overnight subclass's own
   * `index_` member, which hides the base class's index and is the one its `makeSwap`
   * reads; `None` is an unset pointer.
   */
  datatype Strategy =
    | TermStrategy
    | OvernightStrategy(ownIndex: Option<Index>, averaging: RateAveraging)

  /** The averaging method an overnight helper uses when none is given. */
  const DefaultAveraging: RateAveraging := Compound

  /**
   * The overnight subclass part as the source's three overnight constructors leave it:
   * they initialise the averaging method and never the subclass's own index member.
   */
  function OvernightAsDeclared(averaging: RateAveraging): (s: Strategy)
    ensures s.OvernightStrategy? && s.averaging == averaging
    ensures forall t :: IndexSeenBy(s, t) == None
  {
    OvernightStrategy(None, averaging)
  }

  /** The evidently intended overnight subclass part: its own index is the index passed in. */
  function OvernightInitialised(index: Index, averaging: RateAveraging): (s: Strategy)
    ensures s.OvernightStrategy? && s.averaging == averaging
    ensures forall t :: IndexSeenBy(s, t) == Some(index)
  {
    OvernightStrategy(Some(index), averaging)
  }

  /** Both legs are generated forward over [start, end], without end-of-month rule. */
  predicate Spans(s: Schedule, t: SwapTerms, index: Index)
  {
    s.effectiveDate == t.startDate && s.terminationDate == t.endDate
    && s.calendar == index.fixingCalendar
    && s.convention == index.convention && s.terminationConvention == index.convention
    && s.rule == Forward && !s.endOfMonth
  }

  function ScheduleOver(t: SwapTerms, tenor: Period, index: Index): (s: Schedule)
    ensures Spans(s, t, index) && s.tenor == tenor
  {
    Schedule(t.startDate, t.endDate, tenor, index.fixingCalendar,
             index.convention, index.convention, Forward, false)
  }

  /**
   * The library's schedule constructor raises unless both dates are set and the
   * effective date comes strictly before the termination date.
   */
  predicate SchedulableDates(t: SwapTerms)
  {
    t.startDate != NullDate && t.endDate != NullDate && t.startDate < t.endDate
  }

  /** The index the strategy's `makeSwap` dereferences, if it is set. */
  function IndexSeenBy(strategy: Strategy, t: SwapTerms): (index: Option<Index>)
  {
    match strategy
    case TermStrategy => Some(t.index)
    case OvernightStrategy(own, _) => own
  }

  /**
   * `makeSwap(type, fixedRate)`. The index is dereferenced for the first schedule's
   * calendar, so an unset index fails first; then the first schedule raises when the
   * dates cannot be scheduled. Otherwise the swap has the requested direction and fixed rate, the helper's
   * nominal, zero floating spread and both schedules over [start, end] with the
   * index's calendar and convention; only the floating tenor and leg depend on the
   * strategy.
   */
  function MakeSwap(strategy: Strategy, t: SwapTerms, swapType: SwapType, fixedRate: real): (r: Result<SwapDesc, Error>)
    ensures r.Success? <==> IndexSeenBy(strategy, t).Some? && SchedulableDates(t)
    ensures IndexSeenBy(strategy, t).None? ==> r == Failure(NullIndexDereference)
    ensures IndexSeenBy(strategy, t).Some? && !SchedulableDates(t) ==>
      r == Failure(InvalidScheduleDates(t.startDate, t.endDate))
    ensures r.Success? ==>
      var index := IndexSeenBy(strategy, t).value;
      && r.value.swapType == swapType && r.value.fixedRate == fixedRate
      && r.value.nominal == t.nominal && r.value.spread == 0.0 && r.value.index == index
      && r.value.fixedDayCounter == t.fixedLegDayCounter
      && Spans(r.value.fixedSchedule, t, index) && r.value.fixedSchedule.tenor == t.fixedLegTenor
      && Spans(r.value.floatingSchedule, t, index)
  {
    match strategy
    case TermStrategy =>
      if !SchedulableDates(t) then Failure(InvalidScheduleDates(t.startDate, t.endDate))
      else
      Success(SwapDesc(swapType, t.nominal,
                       ScheduleOver(t, t.fixedLegTenor, t.index), fixedRate, t.fixedLegDayCounter,
                       ScheduleOver(t, t.index.tenor, t.index), t.index, 0.0,
                       IborLeg(t.floatingLegDayCounter)))
    case OvernightStrategy(own, averaging) =>
      if own.None? then Failure(NullIndexDereference)
      else if !SchedulableDates(t) then Failure(InvalidScheduleDates(t.startDate, t.endDate))
      else
        var index := own.value;
        Success(SwapDesc(swapType, t.nominal,
                         ScheduleOver(t, t.fixedLegTenor, index), fixedRate, t.fixedLegDayCounter,
                         ScheduleOver(t, AnnualPeriod, index), index, 0.0,
                         OvernightLeg(0, Following, NullCalendar, true, averaging)))
  }

  /**
   * The term variant builds whenever its dates can be scheduled; its floating leg pays
   * at the index tenor and counts days with the helper's floating day counter.
   */
  lemma TermSwapFloatingLeg(t: SwapTerms, swapType: SwapType, fixedRate: real)
    ensures MakeSwap(TermStrategy, t, swapType, fixedRate).Success? <==> SchedulableDates(t)
    ensures SchedulableDates(t) ==>
      var s := MakeSwap(TermStrategy, t, swapType, fixedRate).value;
      s.floatingSchedule.tenor == t.index.tenor && s.floatingLeg == IborLeg(t.floatingLegDayCounter)
  {
  }

  /**
   * With its own index set, the overnight variant pays annually whatever the index
   * tenor, averages with the configured method, and ignores the helper's floating
   * day counter.
   */
  lemma OvernightSwapFloatingLeg(index: Index, averaging: RateAveraging, t: SwapTerms, swapType: SwapType, fixedRate: real, dc: DayCounter)
    ensures MakeSwap(OvernightInitialised(index, averaging), t, swapType, fixedRate).Success? <==> SchedulableDates(t)
    ensures MakeSwap(OvernightInitialised(index, averaging), t.(floatingLegDayCounter := dc), swapType, fixedRate)
              == MakeSwap(OvernightInitialised(index, averaging), t, swapType, fixedRate)
    ensures SchedulableDates(t) ==>
      var s := MakeSwap(OvernightInitialised(index, averaging), t, swapType, fixedRate).value;
      && s.floatingSchedule.tenor == AnnualPeriod
      && s.floatingLeg == OvernightLeg(0, Following, NullCalendar, true, averaging)
  {
  }

  /**
   * The two variants, reading the same index, fail alike on dates that cannot be
   * scheduled, and otherwise build the same swap except for the floating tenor and the
   * floating-leg kind.
   */
  lemma VariantsDifferOnlyInFloatingLeg(t: SwapTerms, averaging: RateAveraging, swapType: SwapType, fixedRate: real)
    ensures
      var term := MakeSwap(TermStrategy, t, swapType, fixedRate);
      var overnight := MakeSwap(OvernightInitialised(t.index, averaging), t, swapType, fixedRate);
      && (term.Success? <==> overnight.Success?)
      && (term.Failure? ==> term == overnight)
      && (term.Success? ==>
            && term.value.(floatingSchedule := overnight.value.floatingSchedule, floatingLeg := overnight.value.floatingLeg) == overnight.value
            && term.value.floatingSchedule.(tenor := AnnualPeriod) == overnight.value.floatingSchedule)
  {
  }

  /**
   * Changing the averaging method of an overnight helper changes the swap's averaging
   * and nothing else, the schedule dates and the build's failure in particular.
   */
  lemma AveragingChangesOnlyAveraging(index: Index, a1: RateAveraging, a2: RateAveraging, t: SwapTerms, swapType: SwapType, fixedRate: real)
    ensures
      var r1 := MakeSwap(OvernightInitialised(index, a1), t, swapType, fixedRate);
      var r2 := MakeSwap(OvernightInitialised(index, a2), t, swapType, fixedRate);
      && (r1.Success? <==> r2.Success?)
      && (r1.Failure? ==> r1 == r2)
    ensures SchedulableDates(t) ==>
      var s1 := MakeSwap(OvernightInitialised(index, a1), t, swapType, fixedRate).value;
      var s2 := MakeSwap(OvernightInitialised(index, a2), t, swapType, fixedRate).value;
      && s1.floatingLeg.averaging == a1 && s2.floatingLeg.averaging == a2
      && s1.(floatingLeg := s2.floatingLeg) == s2
  {
  }

  /** An overnight helper built without an averaging method compounds the daily fixings. */
  lemma DefaultAveragingCompounds(index: Index, t: SwapTerms, swapType: SwapType, fixedRate: real)
    ensures SchedulableDates(t) ==>
      MakeSwap(OvernightInitialised(index, DefaultAveraging), t, swapType, fixedRate).value.floatingLeg.averaging == Compound
  {
  }

  /**
   * As written, an overnight helper never builds a swap: its constructors leave its
   * own index unset, and `makeSwap` dereferences that index for every direction, rate
   * and set of dates.
   */
  lemma OvernightAsDeclaredNeverBuilds(averaging: RateAveraging, t: SwapTerms, swapType: SwapType, fixedRate: real)
    ensures MakeSwap(OvernightAsDeclared(averaging), t, swapType, fixedRate) == Failure(NullIndexDereference)
  {
  }

  /**
   * With its own index initialised to the overnight index it was given (which is also
   * the base class's index), no build fails with the null-index error: every build on
   * dates that can be scheduled succeeds, over that index.
   */
  lemma OvernightInitialisedBuilds(averaging: RateAveraging, t: SwapTerms, swapType: SwapType, fixedRate: real)
    ensures
      var r := MakeSwap(OvernightInitialised(t.index, averaging), t, swapType, fixedRate);
      && (r.Success? <==> SchedulableDates(t))
      && (r.Failure? ==> r.error == InvalidScheduleDates(t.startDate, t.endDate))
      && (r.Success? ==> r.value.index == t.index && r.value.floatingLeg.averaging == averaging)
  {
  }
}

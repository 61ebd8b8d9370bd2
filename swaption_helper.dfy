/**
 * The helper object. Its `const` members are the configuration fixed at construction;
 * its `var` members are the cache that the lazy recalculation refills, the engine the
 * swaption currently carries and the engine set by the calibration driver. Every method
 * is proved to follow the corresponding function of module HelperSemantics.
 *
 * The two concrete helpers of the source are one class here: `strategy` says which
 * `makeSwap` runs. The term-fixing helper adds no state and takes the three base
 * constructors as they are; the overnight helper adds the averaging method and its own
 * index member, both carried by `OvernightStrategy`.
 */
module SwaptionHelpers {
  import opened Wrappers
  import opened Market
  import opened SwapBuilder
  import opened HelperSemantics
  import DateResolution

  /** The caller's ordered list of times that `AddTimesTo` appends to. */
  class TimeList {
    var items: seq<real>

    constructor (items: seq<real>)
      ensures this.items == items
    {
      this.items := items;
    }
  }

  class FixedVsFloatingSwaptionHelper {
    const exerciseDate: Date
    const fixedLegTenor: Period
    const index: Index
    const termStructure: Curve
    const fixedLegDayCounter: DayCounter
    const floatingLegDayCounter: DayCounter
    const strike: Option<real>
    const nominal: real
    const settlementDays: Option<nat>
    const volatilityType: VolatilityType
    const shift: real
    const errorType: CalibrationErrorType
    const strategy: Strategy
    const pricing: Pricing

    var dirty: bool
    var startDate: Date
    var endDate: Date
    var exerciseRate: Option<real>
    var swap: Option<SwapDesc>
    var swapEngine: Engine
    var swaption: Option<SwaptionDesc>
    var swaptionEngine: Engine
    var engine: Engine

    function Configuration(): (c: Config)
    {
      Config(exerciseDate, fixedLegTenor, index, termStructure, fixedLegDayCounter, floatingLegDayCounter,
             strike, nominal, settlementDays, volatilityType, shift, errorType, strategy)
    }

    function Snapshot(): (s: State)
      reads this
    {
      State(dirty, startDate, endDate, exerciseRate, swap, swapEngine, swaption, swaptionEngine, engine)
    }

    ghost predicate Valid()
      reads this
    {
      ValidFor(Configuration(), Snapshot())
    }

    /** The canonical form: explicit exercise and end dates. */
    constructor FromDates(exerciseDate: Date, endDate: Date, index: Index, fixedLegTenor: Period,
                          fixedLegDayCounter: DayCounter, floatingLegDayCounter: DayCounter,
                          termStructure: Curve, options: Options, strategy: Strategy,
                          conventions: Conventions, pricing: Pricing)
      requires strategy.OvernightStrategy? && strategy.ownIndex.Some? ==> strategy.ownIndex.value == index
      ensures Valid() && this.pricing == pricing
      ensures Configuration() == Configure(exerciseDate, index, fixedLegTenor, fixedLegDayCounter, floatingLegDayCounter,
                                 termStructure, options, strategy)
      ensures Snapshot() == Initial(DateResolution.ByDates(conventions, index, exerciseDate, endDate, options.settlementDays))
    {
      this.exerciseDate, this.fixedLegTenor, this.index, this.termStructure := exerciseDate, fixedLegTenor, index, termStructure;
      this.fixedLegDayCounter, this.floatingLegDayCounter := fixedLegDayCounter, floatingLegDayCounter;
      this.strike, this.nominal, this.settlementDays := options.strike, options.nominal, options.settlementDays;
      this.volatilityType, this.shift, this.errorType := options.volatilityType, options.shift, options.errorType;
      this.strategy, this.pricing := strategy, pricing;
      this.endDate := endDate;
      if options.settlementDays.None? {
        startDate := conventions.valueDate(index, exerciseDate);
      } else {
        startDate := conventions.advance(index.fixingCalendar, exerciseDate,
                                         Period(options.settlementDays.value, Days), index.convention);
      }
      dirty, exerciseRate, swap, swapEngine := true, None, None, NoEngine;
      swaption, swaptionEngine, engine := None, NoEngine, NoEngine;
    }

    /** The (exercise date, length) form: the canonical form with a null end date, then the end date from the start date. */
    constructor FromLength(exerciseDate: Date, length: Period, index: Index, fixedLegTenor: Period,
                           fixedLegDayCounter: DayCounter, floatingLegDayCounter: DayCounter,
                           termStructure: Curve, options: Options, strategy: Strategy,
                           conventions: Conventions, pricing: Pricing)
      requires strategy.OvernightStrategy? && strategy.ownIndex.Some? ==> strategy.ownIndex.value == index
      ensures Valid() && this.pricing == pricing
      ensures Configuration() == Configure(exerciseDate, index, fixedLegTenor, fixedLegDayCounter, floatingLegDayCounter,
                                 termStructure, options, strategy)
      ensures Snapshot() == Initial(DateResolution.ByLength(conventions, index, exerciseDate, length, options.settlementDays))
    {
      this.exerciseDate, this.fixedLegTenor, this.index, this.termStructure := exerciseDate, fixedLegTenor, index, termStructure;
      this.fixedLegDayCounter, this.floatingLegDayCounter := fixedLegDayCounter, floatingLegDayCounter;
      this.strike, this.nominal, this.settlementDays := options.strike, options.nominal, options.settlementDays;
      this.volatilityType, this.shift, this.errorType := options.volatilityType, options.shift, options.errorType;
      this.strategy, this.pricing := strategy, pricing;
      endDate := NullDate;
      var start: Date;
      if options.settlementDays.None? {
        start := conventions.valueDate(index, exerciseDate);
      } else {
        start := conventions.advance(index.fixingCalendar, exerciseDate,
                                     Period(options.settlementDays.value, Days), index.convention);
      }
      startDate := start;
      endDate := conventions.advance(index.fixingCalendar, start, length, index.convention);
      dirty, exerciseRate, swap, swapEngine := true, None, None, NoEngine;
      swaption, swaptionEngine, engine := None, NoEngine, NoEngine;
    }

    /** The (maturity, length) form: the exercise date is the curve's reference date advanced by the maturity. */
    constructor FromTenor(maturity: Period, length: Period, index: Index, fixedLegTenor: Period,
                          fixedLegDayCounter: DayCounter, floatingLegDayCounter: DayCounter,
                          termStructure: Curve, options: Options, strategy: Strategy,
                          conventions: Conventions, pricing: Pricing)
      requires strategy.OvernightStrategy? && strategy.ownIndex.Some? ==> strategy.ownIndex.value == index
      ensures Valid() && this.pricing == pricing
      ensures Configuration() == Configure(DateResolution.ExerciseDateFor(conventions, index, termStructure, maturity),
                                 index, fixedLegTenor, fixedLegDayCounter, floatingLegDayCounter,
                                 termStructure, options, strategy)
      ensures Snapshot() == Initial(DateResolution.ByTenor(conventions, index, termStructure, maturity, length, options.settlementDays))
    {
      var exercise := conventions.advance(index.fixingCalendar, termStructure.referenceDate, maturity, index.convention);
      this.exerciseDate, this.fixedLegTenor, this.index, this.termStructure := exercise, fixedLegTenor, index, termStructure;
      this.fixedLegDayCounter, this.floatingLegDayCounter := fixedLegDayCounter, floatingLegDayCounter;
      this.strike, this.nominal, this.settlementDays := options.strike, options.nominal, options.settlementDays;
      this.volatilityType, this.shift, this.errorType := options.volatilityType, options.shift, options.errorType;
      this.strategy, this.pricing := strategy, pricing;
      endDate := NullDate;
      var start: Date;
      if options.settlementDays.None? {
        start := conventions.valueDate(index, exercise);
      } else {
        start := conventions.advance(index.fixingCalendar, exercise,
                                     Period(options.settlementDays.value, Days), index.convention);
      }
      startDate := start;
      endDate := conventions.advance(index.fixingCalendar, start, length, index.convention);
      dirty, exerciseRate, swap, swapEngine := true, None, None, NoEngine;
      swaption, swaptionEngine, engine := None, NoEngine, NoEngine;
    }

    /** The engine the calibration driver sets for `ModelValue`. */
    method SetPricingEngine(e: Engine)
      requires Valid()
      modifies this
      ensures Valid() && Snapshot() == old(Snapshot()).(engine := e)
    {
      engine := e;
    }

    /** A change notification from the index or the curve: the cache becomes stale. */
    method Invalidate()
      requires Valid()
      modifies this
      ensures Valid() && Snapshot() == old(Snapshot()).(dirty := true)
    {
      dirty := true;
    }

    /** Rebuild the swap and the swaption from the current dates and market. */
    method PerformCalculations() returns (o: Outcome<Error>)
      requires Valid()
      modifies this
      ensures Valid()
      ensures var r := Recalculated(Configuration(), pricing, old(Snapshot()));
        && (r.Success? ==> o == Pass && Snapshot() == r.value)
        && (r.Failure? ==> o == Fail(r.error) && Snapshot() == old(Snapshot()))
    {
      var terms := SwapTerms(startDate, endDate, fixedLegTenor, index, nominal, fixedLegDayCounter, floatingLegDayCounter);
      var discounting := DiscountingSwapEngine(termStructure, false);
      var trial := MakeSwap(strategy, terms, Receiver, 0.0);
      if trial.Failure? {
        return Fail(trial.error);
      }
      var forward := pricing.fairRate(trial.value, discounting);
      if forward.Failure? {
        return Fail(forward.error);
      }
      var swapType := Receiver;
      if strike.None? {
        exerciseRate := Some(forward.value);
      } else {
        exerciseRate := Some(strike.value);
        swapType := if strike.value <= forward.value then Receiver else Payer;
      }
      var built := MakeSwap(strategy, terms, swapType, exerciseRate.value);
      swap, swapEngine := Some(built.value), discounting;
      swaption, swaptionEngine := Some(SwaptionDesc(built.value, EuropeanExercise(exerciseDate))), NoEngine;
      o := Pass;
    }

    /** The lazy object's `calculate()`: recalculate only when stale; stay stale if it raises. */
    method Calculate() returns (o: Outcome<Error>)
      requires Valid()
      modifies this
      ensures Valid()
      ensures (Snapshot(), o) == Calculated(Configuration(), pricing, old(Snapshot()))
    {
      if !dirty {
        return Pass;
      }
      o := PerformCalculations();
      if o.Pass? {
        dirty := false;
      }
    }

    method ModelValue() returns (r: Result<real, Error>)
      requires Valid()
      modifies this
      ensures Valid()
      ensures (Snapshot(), r) == ModelValued(Configuration(), pricing, old(Snapshot()))
    {
      var o := Calculate();
      if o.Fail? {
        return Failure(o.error);
      }
      swaptionEngine := engine;
      r := pricing.npv(swaption.value, swaptionEngine);
    }

    method BlackPrice(sigma: real) returns (r: Result<real, Error>)
      requires Valid()
      modifies this
      ensures Valid()
      ensures (Snapshot(), r) == BlackPriced(Configuration(), pricing, old(Snapshot()), sigma)
    {
      var o := Calculate();
      if o.Fail? {
        return Failure(o.error);
      }
      var temporary: Engine;
      match volatilityType {
        case ShiftedLognormal =>
          temporary := BlackSwaptionEngine(termStructure, sigma, Actual365Fixed, shift);
        case Normal =>
          temporary := BachelierSwaptionEngine(termStructure, sigma, Actual365Fixed);
        case OtherVolatilityType(code) =>
          return Failure(UnsupportedVolatilityType(code));
      }
      swaptionEngine := temporary;
      r := pricing.npv(swaption.value, swaptionEngine);
      if r.Failure? {
        return;  // the pricing raised: nothing puts the external engine back
      }
      swaptionEngine := engine;
    }

    method AddTimesTo(times: TimeList) returns (o: Outcome<Error>)
      requires Valid()
      modifies this, times
      ensures Valid()
      ensures var r := AddedTimes(Configuration(), pricing, old(Snapshot()), old(times.items));
        && Snapshot() == r.0
        && (r.1.Success? ==> o == Pass && times.items == r.1.value)
        && (r.1.Failure? ==> o == Fail(r.1.error) && times.items == old(times.items))
    {
      o := Calculate();
      if o.Fail? {
        return;
      }
      var swaptionTimes := pricing.mandatoryTimes(swaption.value, termStructure.referenceDate, termStructure.dayCounter);
      times.items := times.items + swaptionTimes;
    }

    method Swaption() returns (r: Result<SwaptionDesc, Error>)
      requires Valid()
      modifies this
      ensures Valid()
      ensures (Snapshot(), r) == SwaptionQueried(Configuration(), pricing, old(Snapshot()))
    {
      var o := Calculate();
      if o.Fail? {
        return Failure(o.error);
      }
      r := Success(swaption.value);
    }

    method UnderlyingSwap() returns (r: Result<SwapDesc, Error>)
      requires Valid()
      modifies this
      ensures Valid()
      ensures (Snapshot(), r) == UnderlyingSwapQueried(Configuration(), pricing, old(Snapshot()))
    {
      var o := Calculate();
      if o.Fail? {
        return Failure(o.error);
      }
      r := Success(swap.value);
    }
  }
}

/** Two helpers that resolve to the same dates build the same instruments. */
module HelperClients {
  import opened Wrappers
  import opened Market
  import opened SwapBuilder
  import opened HelperSemantics
  import opened SwaptionHelpers
  import DateResolution

  /**
   * A helper built from (maturity, length) and one built from (exercise date, length),
   * with the exercise date the first one computes, hand out the same underlying swap,
   * or raise the same error.
   */
  method TenorAndExerciseDateFormsAgree(maturity: Period, length: Period, index: Index, fixedLegTenor: Period,
                                        fixedLegDayCounter: DayCounter, floatingLegDayCounter: DayCounter,
                                        termStructure: Curve, options: Options, strategy: Strategy,
                                        conventions: Conventions, pricing: Pricing)
    returns (viaTenor: Result<SwapDesc, Error>, viaExerciseDate: Result<SwapDesc, Error>)
    requires strategy.OvernightStrategy? && strategy.ownIndex.Some? ==> strategy.ownIndex.value == index
    ensures viaTenor == viaExerciseDate
  {
    var byTenor := new FixedVsFloatingSwaptionHelper.FromTenor(
      maturity, length, index, fixedLegTenor, fixedLegDayCounter, floatingLegDayCounter,
      termStructure, options, strategy, conventions, pricing);
    var exercise := DateResolution.ExerciseDateFor(conventions, index, termStructure, maturity);
    var byExerciseDate := new FixedVsFloatingSwaptionHelper.FromLength(
      exercise, length, index, fixedLegTenor, fixedLegDayCounter, floatingLegDayCounter,
      termStructure, options, strategy, conventions, pricing);
    viaTenor := byTenor.UnderlyingSwap();
    viaExerciseDate := byExerciseDate.UnderlyingSwap();
  }
}

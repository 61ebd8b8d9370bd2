/**
 * The swaption helper as a state machine on values. `Config` is what the helper fixes
 * at construction (its `const` members); `State` is its lazily refilled cache together
 * with the engine the swaption currently carries and the externally set engine. Each
 * operation of the helper is a function from the old state to the new state and its
 * result; the class in module SwaptionHelpers is proved to follow these functions.
 */
module HelperSemantics {
  import opened Wrappers
  import opened Market
  import opened SwapBuilder
  import DateResolution

  /** The trailing constructor arguments. */
  datatype Options = Options(
    errorType: CalibrationErrorType,
    strike: Option<real>,          // None: at the money
    nominal: real,
    volatilityType: VolatilityType,
    shift: real,
    settlementDays: Option<nat>)   // None: the index's own value-date rule

  /** The default values of the trailing constructor arguments. */
  const DefaultOptions: Options := Options(RelativePriceError, None, 1.0, ShiftedLognormal, 0.0, None)

  /** Everything the helper fixes at construction and never changes afterwards. */
  datatype Config = Config(
    exerciseDate: Date,
    fixedLegTenor: Period,
    index: Index,
    termStructure: Curve,
    fixedLegDayCounter: DayCounter,
    floatingLegDayCounter: DayCounter,
    strike: Option<real>,
    nominal: real,
    settlementDays: Option<nat>,
    volatilityType: VolatilityType,
    shift: real,
    errorType: CalibrationErrorType,
    strategy: Strategy)

  /** The pricing engines the helper attaches to its instruments. */
  datatype Engine =
    | NoEngine                                  // a null engine pointer
    | ExternalEngine(id: nat)                   // an engine set by the calibration driver
    | DiscountingSwapEngine(curve: Curve, includeSettlementDateFlows: bool)
    | BlackSwaptionEngine(curve: Curve, vol: real, dayCounter: DayCounter, displacement: real)
    | BachelierSwaptionEngine(curve: Curve, vol: real, dayCounter: DayCounter)

  datatype Exercise = EuropeanExercise(date: Date)

  datatype SwaptionDesc = SwaptionDesc(underlying: SwapDesc, exercise: Exercise)

  /**
   * The library's pricing, left uninterpreted: the fair fixed rate of a swap under a
   * swap engine, the NPV of a swaption under a swaption engine (either may raise), and
   * the mandatory times of a discretized swaption measured from a reference date.
   */
  datatype Pricing = Pricing(
    fairRate: (SwapDesc, Engine) -> Result<real, Error>,
    npv: (SwaptionDesc, Engine) -> Result<real, Error>,
    mandatoryTimes: (SwaptionDesc, Date, DayCounter) -> seq<real>)

  /** The configuration a constructor stores, from its leading arguments and its options. */
  function Configure(exerciseDate: Date, index: Index, fixedLegTenor: Period,
                     fixedLegDayCounter: DayCounter, floatingLegDayCounter: DayCounter,
                     termStructure: Curve, options: Options, strategy: Strategy): (c: Config)
    ensures c.exerciseDate == exerciseDate && c.index == index && c.strategy == strategy
    ensures c.strike == options.strike && c.settlementDays == options.settlementDays
  {
    Config(exerciseDate, fixedLegTenor, index, termStructure, fixedLegDayCounter, floatingLegDayCounter,
           options.strike, options.nominal, options.settlementDays, options.volatilityType,
           options.shift, options.errorType, strategy)
  }

  /** The mutable part of the helper. */
  datatype State = State(
    dirty: bool,                   // the lazy object's cache is stale
    startDate: Date,
    endDate: Date,
    exerciseRate: Option<real>,    // None until the first recalculation
    swap: Option<SwapDesc>,
    swapEngine: Engine,            // the engine attached to the cached swap
    swaption: Option<SwaptionDesc>,
    swaptionEngine: Engine,        // the engine the cached swaption currently carries
    engine: Engine)                // the engine set from outside, used by modelValue

  /** The state right after construction: dates resolved, nothing built yet, cache stale. */
  function Initial(d: DateResolution.ResolvedDates): (s: State)
    ensures s.dirty && s.swaption.None? && s.startDate == d.startDate && s.endDate == d.endDate
  {
    State(true, d.startDate, d.endDate, None, None, NoEngine, None, NoEngine, NoEngine)
  }

  /**
   * The cache invariant: a swaption is only ever built around the cached swap with a
   * European exercise at the exercise date; the cached swap covers [startDate, endDate]
   * at the cached exercise rate; and a fresh cache holds a swaption.
   */
  predicate ValidFor(c: Config, s: State)
  {
    && (s.swaption.Some? ==>
          s.swap.Some? && s.swaption.value == SwaptionDesc(s.swap.value, EuropeanExercise(c.exerciseDate)))
    && (s.swap.Some? ==>
          && s.exerciseRate.Some? && s.swap.value.fixedRate == s.exerciseRate.value
          && s.swap.value.fixedSchedule.effectiveDate == s.startDate
          && s.swap.value.fixedSchedule.terminationDate == s.endDate)
    && (!s.dirty ==> s.swaption.Some?)
  }

  function Terms(c: Config, s: State): (t: SwapTerms)
  {
    SwapTerms(s.startDate, s.endDate, c.fixedLegTenor, c.index, c.nominal,
              c.fixedLegDayCounter, c.floatingLegDayCounter)
  }

  /** The swap engine of a recalculation: discounting on the helper's curve, no settlement-date flows. */
  function SwapEngineFor(c: Config): (e: Engine)
    ensures e.DiscountingSwapEngine? && e.curve == c.termStructure && !e.includeSettlementDateFlows
  {
    DiscountingSwapEngine(c.termStructure, false)
  }

  /** The trial swap priced to find the forward rate: a receiver swap paying a zero fixed rate. */
  function TrialSwap(c: Config, s: State): (r: Result<SwapDesc, Error>)
    ensures r.Success? ==> r.value.swapType == Receiver && r.value.fixedRate == 0.0
    ensures r.Success? <==> IndexSeenBy(c.strategy, Terms(c, s)).Some? && SchedulableDates(Terms(c, s))
  {
    MakeSwap(c.strategy, Terms(c, s), Receiver, 0.0)
  }

  /** The forward swap rate: the fair rate of the trial swap under the swap engine. */
  function Forward(c: Config, p: Pricing, s: State): (r: Result<real, Error>)
    ensures IndexSeenBy(c.strategy, Terms(c, s)).None? ==> r == Failure(NullIndexDereference)
    ensures IndexSeenBy(c.strategy, Terms(c, s)).Some? && !SchedulableDates(Terms(c, s)) ==>
      r == Failure(InvalidScheduleDates(s.startDate, s.endDate))
    ensures IndexSeenBy(c.strategy, Terms(c, s)).Some? && SchedulableDates(Terms(c, s)) ==>
      r == p.fairRate(MakeSwap(c.strategy, Terms(c, s), Receiver, 0.0).value, DiscountingSwapEngine(c.termStructure, false))
  {
    var trial :- TrialSwap(c, s);
    p.fairRate(trial, SwapEngineFor(c))
  }

  /**
   * The default trailing arguments describe an at-the-money swaption on a nominal of
   * one, quoted as a shifted-lognormal volatility with zero shift, whose start date is
   * the index's own value date.
   */
  lemma DefaultOptionsMeanAtTheMoneyLognormal(exerciseDate: Date, index: Index, fixedLegTenor: Period,
                                              fixedLegDayCounter: DayCounter, floatingLegDayCounter: DayCounter,
                                              termStructure: Curve, strategy: Strategy,
                                              p: Pricing, s: State, sigma: real, conv: Conventions)
    requires ValidFor(Configure(exerciseDate, index, fixedLegTenor, fixedLegDayCounter, floatingLegDayCounter,
                                termStructure, DefaultOptions, strategy), s)
    ensures var c := Configure(exerciseDate, index, fixedLegTenor, fixedLegDayCounter, floatingLegDayCounter,
                               termStructure, DefaultOptions, strategy);
      && c.errorType == RelativePriceError
      && DateResolution.StartDateFor(conv, index, exerciseDate, c.settlementDays) == conv.valueDate(index, exerciseDate)
      && BlackEngineFor(c, sigma) == Success(BlackSwaptionEngine(termStructure, sigma, Actual365Fixed, 0.0))
      && (Recalculated(c, p, s).Success? ==>
            && Recalculated(c, p, s).value.exerciseRate == Some(Forward(c, p, s).value)
            && Recalculated(c, p, s).value.swap.value.swapType == Receiver
            && Recalculated(c, p, s).value.swap.value.nominal == 1.0)
  {
  }

  datatype ExerciseChoice = ExerciseChoice(swapType: SwapType, rate: real)

  /** A receiver swaption is out of the money when its strike is at most the forward; a payer one when it is at least. */
  predicate OutOfTheMoneyOrAtm(swapType: SwapType, rate: real, forward: real)
  {
    match swapType
    case Receiver => rate <= forward
    case Payer => rate >= forward
  }

  /**
   * Strike and direction of the calibrated swaption: the given strike or, when there is
   * none, the forward; the direction that makes the swaption out of (or at) the money,
   * receiver at the money.
   */
  function ChooseExercise(strike: Option<real>, forward: real): (e: ExerciseChoice)
    ensures e.rate == (if strike.Some? then strike.value else forward)
    ensures e.swapType == Receiver <==> strike.None? || strike.value <= forward
    ensures OutOfTheMoneyOrAtm(e.swapType, e.rate, forward)
    ensures e.rate == forward ==> e.swapType == Receiver
  {
    if strike.None? then ExerciseChoice(Receiver, forward)
    else ExerciseChoice(if strike.value <= forward then Receiver else Payer, strike.value)
  }

  /**
   * The choice is the only one that uses the given strike (the forward at the money),
   * is out of or at the money, and picks receiver at the money.
   */
  lemma ChooseExerciseUnique(strike: Option<real>, forward: real, e: ExerciseChoice)
    requires e.rate == (if strike.Some? then strike.value else forward)
    requires OutOfTheMoneyOrAtm(e.swapType, e.rate, forward)
    requires e.rate == forward ==> e.swapType == Receiver
    ensures e == ChooseExercise(strike, forward)
  {
    if e.swapType == Payer {
      assert e.rate > forward;
    }
  }

  /**
   * `performCalculations`: price the trial swap to get the forward, choose rate and
   * direction, build the swap at that rate and direction with the discounting engine,
   * and wrap it into a swaption exercisable once, at the exercise date, that carries no
   * engine yet. A failure of either the trial build or the pricing leaves the state as
   * it was; the dates, the stale flag and the external engine never change here.
   */
  function Recalculated(c: Config, p: Pricing, s: State): (r: Result<State, Error>)
    requires ValidFor(c, s)
    ensures r.Success? <==> Forward(c, p, s).Success?
    ensures r.Failure? ==> r.error == Forward(c, p, s).error
    ensures r.Success? ==>
      var forward := Forward(c, p, s).value;
      var cached := r.value;
      && ValidFor(c, cached)
      && cached.exerciseRate == Some(if c.strike.Some? then c.strike.value else forward)
      && cached.swap.Some?
      && (cached.swap.value.swapType == Receiver <==> c.strike.None? || c.strike.value <= forward)
      && cached.swap == Some(MakeSwap(c.strategy, Terms(c, s), cached.swap.value.swapType, cached.exerciseRate.value).value)
      && cached.swapEngine == SwapEngineFor(c)
      && cached.swaption == Some(SwaptionDesc(cached.swap.value, EuropeanExercise(c.exerciseDate)))
      && cached.swaptionEngine == NoEngine
      && cached.dirty == s.dirty && cached.startDate == s.startDate && cached.endDate == s.endDate
      && cached.engine == s.engine
  {
    var forward :- Forward(c, p, s);
    var choice := ChooseExercise(c.strike, forward);
    var swap := MakeSwap(c.strategy, Terms(c, s), choice.swapType, choice.rate).value;
    Success(s.(exerciseRate := Some(choice.rate),
               swap := Some(swap),
               swapEngine := SwapEngineFor(c),
               swaption := Some(SwaptionDesc(swap, EuropeanExercise(c.exerciseDate))),
               swaptionEngine := NoEngine))
  }

  /**
   * `calculate()`: a fresh cache is served as it is; a stale one is recalculated and
   * becomes fresh, unless the recalculation raises, which leaves the state untouched
   * and still stale.
   */
  function Calculated(c: Config, p: Pricing, s: State): (r: (State, Outcome<Error>))
    requires ValidFor(c, s)
    ensures ValidFor(c, r.0)
    ensures r.1.Pass? <==> !r.0.dirty
    ensures !s.dirty ==> r == (s, Pass)
    ensures r.1.Fail? ==>
      s.dirty && r.0 == s && Recalculated(c, p, s).Failure? && r.1.error == Recalculated(c, p, s).error
    ensures s.dirty && r.1.Pass? ==>
      Recalculated(c, p, s).Success? && r.0 == Recalculated(c, p, s).value.(dirty := false)
  {
    if !s.dirty then (s, Pass)
    else match Recalculated(c, p, s)
      case Success(rebuilt) => (rebuilt.(dirty := false), Pass)
      case Failure(e) => (s, Fail(e))
  }

  /**
   * `modelValue()`: recalculate, install the external engine on the swaption and price
   * it. Once the recalculation has succeeded the swaption carries the external engine,
   * whether or not pricing raises.
   */
  function ModelValued(c: Config, p: Pricing, s: State): (r: (State, Result<real, Error>))
    requires ValidFor(c, s)
    ensures ValidFor(c, r.0)
    ensures r.0.engine == s.engine && r.0.startDate == s.startDate && r.0.endDate == s.endDate
    ensures var (settled, o) := Calculated(c, p, s);
      && (o.Fail? ==> r == (settled, Failure(o.error)))
      && (o.Pass? ==> r.0 == settled.(swaptionEngine := s.engine) && r.1 == p.npv(settled.swaption.value, s.engine))
  {
    var (settled, o) := Calculated(c, p, s);
    if o.Fail? then (settled, Failure(o.error))
    else
      var installed := settled.(swaptionEngine := settled.engine);
      (installed, p.npv(installed.swaption.value, installed.engine))
  }

  /**
   * The temporary engine of `blackPrice(sigma)`: a Black engine with the helper's shift
   * for shifted-lognormal quotes, a Bachelier engine for normal quotes, both on the
   * helper's curve with an Actual/365 (Fixed) day counter and the volatility fixed at
   * sigma; any other volatility type is refused with an error naming it.
   */
  function BlackEngineFor(c: Config, sigma: real): (r: Result<Engine, Error>)
    ensures r.Failure? <==> c.volatilityType.OtherVolatilityType?
    ensures r.Failure? ==> r.error == UnsupportedVolatilityType(c.volatilityType.code)
    ensures r.Success? ==>
      && (r.value.BlackSwaptionEngine? || r.value.BachelierSwaptionEngine?)
      && r.value.curve == c.termStructure && r.value.vol == sigma && r.value.dayCounter == Actual365Fixed
      && (r.value.BlackSwaptionEngine? <==> c.volatilityType == ShiftedLognormal)
      && (r.value.BlackSwaptionEngine? ==> r.value.displacement == c.shift)
  {
    match c.volatilityType
    case ShiftedLognormal => Success(BlackSwaptionEngine(c.termStructure, sigma, Actual365Fixed, c.shift))
    case Normal => Success(BachelierSwaptionEngine(c.termStructure, sigma, Actual365Fixed))
    case OtherVolatilityType(code) => Failure(UnsupportedVolatilityType(code))
  }

  /**
   * `blackPrice(sigma)`: recalculate, choose the temporary engine, price the swaption
   * under it and put the external engine back. The engine is put back on normal return
   * only: when pricing raises, the swaption keeps the temporary engine. An unsupported
   * volatility type raises before any engine is touched.
   */
  function BlackPriced(c: Config, p: Pricing, s: State, sigma: real): (r: (State, Result<real, Error>))
    requires ValidFor(c, s)
    ensures ValidFor(c, r.0)
    ensures r.0.engine == s.engine && r.0.startDate == s.startDate && r.0.endDate == s.endDate
    ensures var (settled, o) := Calculated(c, p, s);
      var temporary := BlackEngineFor(c, sigma);
      && (o.Fail? ==> r == (settled, Failure(o.error)))
      && (o.Pass? && temporary.Failure? ==> r == (settled, Failure(temporary.error)))
      && (o.Pass? && temporary.Success? ==> r.1 == p.npv(settled.swaption.value, temporary.value))
      && (r.1.Success? ==> r.0 == settled.(swaptionEngine := s.engine))
      && (o.Pass? && temporary.Success? && r.1.Failure? ==> r.0 == settled.(swaptionEngine := temporary.value))
  {
    var (settled, o) := Calculated(c, p, s);
    if o.Fail? then (settled, Failure(o.error))
    else match BlackEngineFor(c, sigma)
      case Failure(e) => (settled, Failure(e))
      case Success(temporary) =>
        var value := p.npv(settled.swaption.value, temporary);
        if value.Failure? then (settled.(swaptionEngine := temporary), value)
        else (settled.(swaptionEngine := settled.engine), value)
  }

  /**
   * `addTimesTo(times)`: recalculate and append the swaption's mandatory times, measured
   * from the curve's reference date with the curve's day counter, after the caller's
   * times. The caller's times are kept, in order, as a prefix; nothing is appended when
   * the recalculation raises.
   */
  function AddedTimes(c: Config, p: Pricing, s: State, times: seq<real>): (r: (State, Result<seq<real>, Error>))
    requires ValidFor(c, s)
    ensures r.0 == Calculated(c, p, s).0
    ensures r.1.Success? <==> Calculated(c, p, s).1.Pass?
    ensures r.1.Failure? ==> r.1.error == Calculated(c, p, s).1.error
    ensures r.1.Success? ==>
      && |times| <= |r.1.value| && r.1.value[..|times|] == times
      && r.1.value[|times|..] == p.mandatoryTimes(r.0.swaption.value, c.termStructure.referenceDate, c.termStructure.dayCounter)
  {
    var (settled, o) := Calculated(c, p, s);
    if o.Fail? then (settled, Failure(o.error))
    else (settled, Success(times + p.mandatoryTimes(settled.swaption.value, c.termStructure.referenceDate, c.termStructure.dayCounter)))
  }

  /**
   * `swaption()`: recalculate and return the cached swaption, which wraps the cached
   * swap with a single European exercise at the exercise date.
   */
  function SwaptionQueried(c: Config, p: Pricing, s: State): (r: (State, Result<SwaptionDesc, Error>))
    requires ValidFor(c, s)
    ensures r.0 == Calculated(c, p, s).0
    ensures r.1.Success? <==> Calculated(c, p, s).1.Pass?
    ensures r.1.Failure? ==> r.1.error == Calculated(c, p, s).1.error
    ensures r.1.Success? ==>
      r.0.swaption == Some(r.1.value) && r.0.swap == Some(r.1.value.underlying)
      && r.1.value.exercise == EuropeanExercise(c.exerciseDate)
  {
    var (settled, o) := Calculated(c, p, s);
    if o.Fail? then (settled, Failure(o.error)) else (settled, Success(settled.swaption.value))
  }

  /**
   * `underlyingSwap()`: recalculate and return the cached swap, which pays the cached
   * exercise rate over [startDate, endDate].
   */
  function UnderlyingSwapQueried(c: Config, p: Pricing, s: State): (r: (State, Result<SwapDesc, Error>))
    requires ValidFor(c, s)
    ensures r.0 == Calculated(c, p, s).0
    ensures r.1.Success? <==> Calculated(c, p, s).1.Pass?
    ensures r.1.Failure? ==> r.1.error == Calculated(c, p, s).1.error
    ensures r.1.Success? ==>
      && r.0.swap == Some(r.1.value) && r.0.exerciseRate == Some(r.1.value.fixedRate)
      && r.1.value.fixedSchedule.effectiveDate == s.startDate && r.1.value.fixedSchedule.terminationDate == s.endDate
  {
    var (settled, o) := Calculated(c, p, s);
    if o.Fail? then (settled, Failure(o.error)) else (settled, Success(settled.swap.value))
  }

  /** Asking for the model value twice in a row changes nothing the second time. */
  lemma ModelValueIdempotent(c: Config, p: Pricing, s: State)
    requires ValidFor(c, s)
    ensures ModelValued(c, p, ModelValued(c, p, s).0) == ModelValued(c, p, s)
  {
  }

  /** Asking for the Black price at the same volatility twice in a row changes nothing the second time. */
  lemma BlackPriceIdempotent(c: Config, p: Pricing, s: State, sigma: real)
    requires ValidFor(c, s)
    ensures BlackPriced(c, p, BlackPriced(c, p, s, sigma).0, sigma) == BlackPriced(c, p, s, sigma)
  {
  }

  /**
   * The model value is the same before and after a Black price, even one whose pricing
   * raised and left the temporary engine on the swaption: `modelValue` installs the
   * external engine itself.
   */
  lemma ModelValueUnaffectedByBlackPrice(c: Config, p: Pricing, s: State, sigma: real)
    requires ValidFor(c, s)
    ensures ModelValued(c, p, BlackPriced(c, p, s, sigma).0).1 == ModelValued(c, p, s).1
  {
  }

  /**
   * An overnight helper as its constructors leave it never prices anything: the first
   * recalculation dereferences the unset overnight index.
   */
  lemma AsDeclaredOvernightNeverPrices(c: Config, p: Pricing, s: State, averaging: RateAveraging, sigma: real)
    requires ValidFor(c, s) && s.dirty && c.strategy == OvernightAsDeclared(averaging)
    ensures ModelValued(c, p, s) == (s, Failure(NullIndexDereference))
    ensures BlackPriced(c, p, s, sigma) == (s, Failure(NullIndexDereference))
    ensures SwaptionQueried(c, p, s) == (s, Failure(NullIndexDereference))
  {
  }

  /**
   * The explicit-dates constructor lets through an end date that is not after the
   * start date; such a helper, with its index set, raises at its first recalculation,
   * from the schedule constructor, and never gets a swap.
   */
  lemma UnschedulableDatesNeverPrice(c: Config, p: Pricing, s: State, sigma: real)
    requires ValidFor(c, s) && s.dirty
    requires IndexSeenBy(c.strategy, Terms(c, s)).Some? && s.endDate <= s.startDate
    ensures ModelValued(c, p, s) == (s, Failure(InvalidScheduleDates(s.startDate, s.endDate)))
    ensures BlackPriced(c, p, s, sigma) == (s, Failure(InvalidScheduleDates(s.startDate, s.endDate)))
    ensures UnderlyingSwapQueried(c, p, s) == (s, Failure(InvalidScheduleDates(s.startDate, s.endDate)))
  {
  }
}

/**
 * The market objects the swaption helper reads but does not own: dates, periods,
 * calendars, day counters, the rate index and the discount curve. Calendar arithmetic
 * and value-date rules belong to library code that is not part of this model; they
 * enter as the uninterpreted functions of a `Conventions` value.
 */
module Market {

  /** A date as the library stores it: a serial day number. Serial 0 is the null date. */
  type Date = int

  /** `Null<Date>()`: the placeholder end date of the (exercise date, length) form. */
  const NullDate: Date := 0

  datatype TimeUnit = Days | Weeks | Months | Years

  datatype Period = Period(length: int, units: TimeUnit)

  /** `Period(Annual)`: a frequency of once a year is a period of one year. */
  const AnnualPeriod: Period := Period(1, Years)

  datatype BusinessDayConvention =
    | Following
    | ModifiedFollowing
    | Preceding
    | ModifiedPreceding
    | Unadjusted

  /** A holiday calendar; `NullCalendar` is the default-constructed `Calendar()`. */
  datatype Calendar = NullCalendar | NamedCalendar(name: string)

  datatype DayCounter = Actual365Fixed | NamedDayCounter(name: string)

  datatype DateGeneration = Forward | Backward

  /**
   * A rate index as the helper sees it: its tenor, its fixing calendar and its
   * business-day convention. Term-fixing and overnight indexes share this shape.
   */
  datatype Index = Index(
    name: string,
    tenor: Period,
    fixingCalendar: Calendar,
    convention: BusinessDayConvention)

  /** The discount curve: its reference date and the day counter that turns dates into times. */
  datatype Curve = Curve(name: string, referenceDate: Date, dayCounter: DayCounter)

  datatype SwapType = Receiver | Payer

  /**
   * The quoting convention of the volatility. `OtherVolatilityType` stands for any
   * value of the enumeration the helper does not support (a cast integer).
   */
  datatype VolatilityType = ShiftedLognormal | Normal | OtherVolatilityType(code: int)

  datatype CalibrationErrorType = RelativePriceError | PriceError | ImpliedVolError

  datatype RateAveraging = Simple | Compound

  /** The exceptions and faults the helper can run into. */
  datatype Error =
    | NullIndexDereference          // a member access through an unset index pointer
    | UnsupportedVolatilityType(code: int)
    | PricingFailure(reason: string) // raised by a pricing engine or the discount curve
    | InvalidScheduleDates(startDate: Date, endDate: Date) // raised by the schedule constructor

  /**
   * Calendar and index rules of the library, left uninterpreted:
   * `advance(calendar, date, period, convention)` moves a date by a period and rolls it
   * to a business day; `valueDate(index, fixingDate)` is the index's own settlement rule.
   */
  datatype Conventions = Conventions(
    advance: (Calendar, Date, Period, BusinessDayConvention) -> Date,
    valueDate: (Index, Date) -> Date)
}

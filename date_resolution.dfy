/**
 * How the three constructor forms of the helper fix the exercise, start and end dates.
 * All three end in the canonical (exercise date, end date) form: the (exercise date,
 * length) form calls it with a null end date and then replaces the end date, and the
 * (maturity, length) form computes the exercise date and calls the (exercise date,
 * length) form.
 */
module DateResolution {
  import opened Wrappers
  import opened Market

  datatype ResolvedDates = ResolvedDates(exerciseDate: Date, startDate: Date, endDate: Date)

  /** The exercise date of the (maturity, length) form: the curve's reference date advanced by the maturity. */
  function ExerciseDateFor(conv: Conventions, index: Index, curve: Curve, maturity: Period): (d: Date)
    ensures d == conv.advance(index.fixingCalendar, curve.referenceDate, maturity, index.convention)
  {
    conv.advance(index.fixingCalendar, curve.referenceDate, maturity, index.convention)
  }

  /**
   * The start date: the index's own value date for the exercise date when no settlement
   * days are given, otherwise the exercise date advanced by that many calendar business
   * days.
   */
  function StartDateFor(conv: Conventions, index: Index, exerciseDate: Date, settlementDays: Option<nat>): (d: Date)
    ensures settlementDays.None? ==> d == conv.valueDate(index, exerciseDate)
    ensures settlementDays.Some? ==>
      d == conv.advance(index.fixingCalendar, exerciseDate, Period(settlementDays.value, Days), index.convention)
  {
    match settlementDays
    case None => conv.valueDate(index, exerciseDate)
    case Some(n) => conv.advance(index.fixingCalendar, exerciseDate, Period(n, Days), index.convention)
  }

  /**
   * The canonical form: exercise and end dates are taken as given, without any check
   * of their order against the start date.
   */
  function ByDates(conv: Conventions, index: Index, exerciseDate: Date, endDate: Date, settlementDays: Option<nat>): (r: ResolvedDates)
    ensures r.exerciseDate == exerciseDate && r.endDate == endDate
    ensures r.startDate == StartDateFor(conv, index, exerciseDate, settlementDays)
  {
    ResolvedDates(exerciseDate, StartDateFor(conv, index, exerciseDate, settlementDays), endDate)
  }

  /** The (exercise date, length) form. */
  function ByLength(conv: Conventions, index: Index, exerciseDate: Date, length: Period, settlementDays: Option<nat>): (r: ResolvedDates)
    ensures r.exerciseDate == exerciseDate
    ensures r.startDate == ByDates(conv, index, exerciseDate, NullDate, settlementDays).startDate
    ensures r.endDate == conv.advance(index.fixingCalendar, r.startDate, length, index.convention)
  {
    var d := ByDates(conv, index, exerciseDate, NullDate, settlementDays);
    d.(endDate := conv.advance(index.fixingCalendar, d.startDate, length, index.convention))
  }

  /** The (maturity, length) form. */
  function ByTenor(conv: Conventions, index: Index, curve: Curve, maturity: Period, length: Period, settlementDays: Option<nat>): (r: ResolvedDates)
    ensures r.exerciseDate == ExerciseDateFor(conv, index, curve, maturity)
    ensures r == ByLength(conv, index, r.exerciseDate, length, settlementDays)
  {
    ByLength(conv, index, ExerciseDateFor(conv, index, curve, maturity), length, settlementDays)
  }

  /**
   * The start date does not depend on the end date, so the null placeholder the
   * (exercise date, length) form passes on is harmless: that form resolves to the
   * canonical form given the end date it computes from the resolved start date.
   */
  lemma LengthFormIsCanonical(conv: Conventions, index: Index, exerciseDate: Date, length: Period, settlementDays: Option<nat>)
    ensures
      var start := StartDateFor(conv, index, exerciseDate, settlementDays);
      ByLength(conv, index, exerciseDate, length, settlementDays)
        == ByDates(conv, index, exerciseDate, conv.advance(index.fixingCalendar, start, length, index.convention), settlementDays)
  {
  }

  /**
   * The (maturity, length) form resolves to the canonical form at the computed exercise
   * date, so a helper built either way from the same dates holds the same dates.
   */
  lemma TenorFormIsCanonical(conv: Conventions, index: Index, curve: Curve, maturity: Period, length: Period, settlementDays: Option<nat>)
    ensures
      var exercise := ExerciseDateFor(conv, index, curve, maturity);
      var start := StartDateFor(conv, index, exercise, settlementDays);
      ByTenor(conv, index, curve, maturity, length, settlementDays)
        == ByDates(conv, index, exercise, conv.advance(index.fixingCalendar, start, length, index.convention), settlementDays)
  {
    LengthFormIsCanonical(conv, index, ExerciseDateFor(conv, index, curve, maturity), length, settlementDays);
  }
}

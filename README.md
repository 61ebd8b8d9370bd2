# Swaption calibration helper

This project models QuantLib's swaption calibration helper (`FixedVsFloatingSwaptionHelper`) and its two concrete helpers, `SwaptionHelper` and `OvernightIndexedSwaptionHelper`. A helper turns a quoted swaption volatility into a price that a model calibration can compare with a model price. It does three things:

- It resolves the swaption's exercise, start and end dates.
- Lazily, it builds a fixed-vs-floating swap and a European swaption on it. If no strike is given, the swaption is struck at the forward rate. The direction is the one that keeps the swaption out of the money, with receiver at the money.
- It prices that swaption under the driver's engine (`modelValue`) or under a temporary Black or Bachelier engine (`blackPrice`).

The calendar rules, the index's value-date rule, schedule generation and all pricing come from library code that is not part of this model. They are uninterpreted functions: `Market.Conventions` holds the date rules and `HelperSemantics.Pricing` holds the pricing. So the model covers the helper's decisions and state changes, not the numbers.

Modules:

- `Wrappers` (wrappers.dfy): the `Option`, `Result` and `Outcome` types. They model the library's `Null` sentinels and its exceptions.
- `Market` (market.dfy): the shared objects that the helper reads but does not own. It also holds the error values.
- `SwapBuilder` (swap_builder.dfy): the `makeSwap` strategy hook, as a description of the swap that would be built.
- `DateResolution` (date_resolution.dfy): the three constructor forms, as functions from their arguments to the resolved dates.
- `HelperSemantics` (helper_semantics.dfy): the helper as a state machine on values. `Config` is the helper's members fixed at construction. `State` is its `mutable` cache, plus the engine the swaption carries and the driver's engine. There is one function per operation.
- `HelperTraces` (helper_traces.dfy): sequences of calls and change notifications on one helper.
- `SwaptionHelpers` (swaption_helper.dfy): the helper as a class. The configuration is in `const` fields and the cache is in `var` fields. Each method is proved to follow the matching `HelperSemantics` function. `TimeList` is the caller's list that `addTimesTo` appends to in place.
- `HelperClients` (swaption_helper.dfy): a client showing that two construction routes reaching the same dates give the same swap.

The two concrete helpers are one class with a `strategy` field:

- `TermStrategy` is `SwaptionHelper`. It adds no state and takes the three base constructors as they are.
- `OvernightStrategy(ownIndex, averaging)` is `OvernightIndexedSwaptionHelper`. Its `ownIndex` is the subclass's own `index_` member, which hides the base class's index.

The source's overnight constructors leave that member unset. They correspond to `SwapBuilder.OvernightAsDeclared(averaging)`. The evidently intended helper corresponds to `SwapBuilder.OvernightInitialised(index, averaging)` (see Findings). The class constructors take the strategy as a parameter, so both can be built. A strategy whose own index is set must have the helper's index as that index, so the constructors build only these two overnight forms.

Default arguments are the constants `HelperSemantics.DefaultOptions` and `SwapBuilder.DefaultAveraging`:

- error type `RelativePriceError`
- no strike (at the money)
- nominal 1.0
- `ShiftedLognormal`
- shift 0.0
- no settlement days
- `Compound` averaging

The members the source declares `const` are Dafny `const` fields, so the language itself guarantees they never change after construction.

Three places where the code does less than a reader might assume:

- `blackPrice` puts the driver's engine back on normal return only. When the NPV computation raises, the swaption keeps the temporary Black or Bachelier engine. `HelperSemantics.BlackPriced` states both cases. `HelperSemantics.ModelValueUnaffectedByBlackPrice` shows that `modelValue` is unaffected anyway, because it reinstalls the engine itself.
- The explicit (exercise date, end date) constructor does not check that the start date comes before the end date. `DateResolution.ByDates` and `FixedVsFloatingSwaptionHelper.FromDates` have no such requirement. Such a helper raises only at its first recalculation, when the library's schedule constructor rejects the dates (`HelperSemantics.UnschedulableDatesNeverPrice`).
- `startDate_` and `endDate_` are declared `mutable`, but only the constructors assign them. No recalculation recomputes them (`HelperTraces.RunKeepsDates`).

## Model

| member | source | states |
|---|---|---|
| `DateResolution.ExerciseDateFor` | ql/models/shortrate/calibrationhelpers/swaptionhelper.cpp:47-49 | The exercise date of the tenor form is the curve's reference date advanced by the maturity on the index's fixing calendar, with the index's convention. |
| `DateResolution.StartDateFor` | ql/models/shortrate/calibrationhelpers/swaptionhelper.cpp:118-119 | Without settlement days, the start date is the index's value date for the exercise date. Otherwise it is the exercise date advanced by that many days on the fixing calendar, with the index's convention. |
| `DateResolution.ByDates` | ql/models/shortrate/calibrationhelpers/swaptionhelper.cpp:94-122 | The canonical form keeps the exercise and end dates as given, with no ordering check. It resolves the start date by the settlement rule. |
| `DateResolution.ByLength` | ql/models/shortrate/calibrationhelpers/swaptionhelper.cpp:63-93 | The (exercise date, length) form takes its start date from the canonical form called with a null end date. Its end date is that resolved start date advanced by the length. |
| `DateResolution.ByTenor` | ql/models/shortrate/calibrationhelpers/swaptionhelper.cpp:32-62 | The exercise date is the curve's reference date advanced by the maturity. Apart from that, the form is exactly the (exercise date, length) form. |
| `DateResolution.LengthFormIsCanonical` | ql/models/shortrate/calibrationhelpers/swaptionhelper.cpp:78-92 | The null end-date placeholder is harmless. The length form equals the canonical form given the end date it computes. |
| `DateResolution.TenorFormIsCanonical` | ql/models/shortrate/calibrationhelpers/swaptionhelper.cpp:47-62 | The tenor form equals the canonical form at the computed exercise date and end date. |
| `SwapBuilder.MakeSwap` | ql/models/shortrate/calibrationhelpers/swaptionhelper.cpp:180-195 | The build fails with the null-index error exactly when the index it dereferences is unset. With the index set, it fails with the schedule error exactly when a date is null or the start date is not before the end date. Otherwise the swap has the requested direction and fixed rate, the nominal and zero spread. Both schedules run forward over [start, end] on the index's calendar and convention, without end-of-month rule. The fixed leg uses the fixed tenor and day counter. |
| `SwapBuilder.TermSwapFloatingLeg` | ql/models/shortrate/calibrationhelpers/swaptionhelper.cpp:186-193 | The term helper builds exactly when its dates can be scheduled. Its floating leg pays at the index tenor and uses the helper's floating day counter. |
| `SwapBuilder.OvernightSwapFloatingLeg` | ql/models/shortrate/calibrationhelpers/swaptionhelper.cpp:290-297 | The overnight leg pays annually whatever the index tenor. It has no payment lag, a Following payment convention, the null payment calendar, telescopic value dates and the configured averaging. Replacing the floating day counter by any other leaves the swap unchanged. |
| `SwapBuilder.OvernightAsDeclared` | ql/models/shortrate/calibrationhelpers/swaptionhelper.cpp:212-283 | The overnight constructors store the averaging method and leave the subclass's own index unset (hpp:174), so `makeSwap` sees no index for any terms. |
| `SwapBuilder.OvernightInitialised` | ql/models/shortrate/calibrationhelpers/swaptionhelper.hpp:174 | With the subclass's own index initialised, `makeSwap` sees the given index for any terms, with the given averaging. |
| `SwapBuilder.DefaultAveragingCompounds` | ql/models/shortrate/calibrationhelpers/swaptionhelper.hpp:137 | The default averaging method (`DefaultAveraging`) makes the overnight leg compound its fixings whenever the swap is built. |
| `SwapBuilder.VariantsDifferOnlyInFloatingLeg` | ql/models/shortrate/calibrationhelpers/swaptionhelper.cpp:284-298 | On the same index and terms, the two variants fail alike on dates that cannot be scheduled. Otherwise they build the same swap except for the floating tenor and the leg kind. |
| `SwapBuilder.AveragingChangesOnlyAveraging` | ql/models/shortrate/calibrationhelpers/swaptionhelper.cpp:297 | Changing the averaging method changes only the swap's averaging, not its schedules and not whether the build fails. |
| `SwapBuilder.OvernightAsDeclaredNeverBuilds` | ql/models/shortrate/calibrationhelpers/swaptionhelper.hpp:174 | As the constructors leave it, the overnight helper's own index is unset. Its `makeSwap` fails for every input. |
| `SwapBuilder.OvernightInitialisedBuilds` | ql/models/shortrate/calibrationhelpers/swaptionhelper.cpp:284-298 | When the overnight helper's own index is set to the index it was given, no build fails with the null-index error. A build succeeds exactly when the dates can be scheduled, over that index with the configured averaging. |
| `HelperSemantics.SwapEngineFor` | ql/models/shortrate/calibrationhelpers/swaptionhelper.cpp:162 | The swap engine of a recalculation discounts on the helper's curve and excludes settlement-date flows. |
| `HelperSemantics.Forward` | ql/models/shortrate/calibrationhelpers/swaptionhelper.cpp:164-166 | The forward is the fair rate of the zero-rate receiver swap under the discounting engine. It fails with a null-index error when the strategy's index is unset, and with the schedule error when the dates cannot be scheduled. |
| `HelperSemantics.DefaultOptionsMeanAtTheMoneyLognormal` | ql/models/shortrate/calibrationhelpers/swaptionhelper.hpp:48-54 | Under the default arguments (`DefaultOptions`), the error type is relative price. The start date is the index's value date. The Black price uses a shifted-lognormal engine with zero shift. Recalculation strikes at the forward, as a receiver swap on a nominal of 1.0. |
| `HelperSemantics.TrialSwap` | ql/models/shortrate/calibrationhelpers/swaptionhelper.cpp:164 | The forward is found on a receiver swap paying a zero fixed rate. |
| `HelperSemantics.ChooseExercise` | ql/models/shortrate/calibrationhelpers/swaptionhelper.cpp:167-173 | The rate is the strike, or the forward when there is no strike. The direction is receiver exactly when there is no strike or strike <= forward, so it is receiver at equality. The choice is always out of or at the money. |
| `HelperSemantics.ChooseExerciseUnique` | ql/models/shortrate/calibrationhelpers/swaptionhelper.cpp:167-172 | Only one choice uses the given strike, is out of or at the money, and breaks ties towards receiver. `ChooseExercise` makes that choice. |
| `HelperSemantics.Recalculated` | ql/models/shortrate/calibrationhelpers/swaptionhelper.cpp:161-179 | Recalculation fails exactly when the trial build or its pricing fails, and then changes nothing. Otherwise: the exercise rate is the strike or the forward; the swap is the strategy's swap at that rate and direction with the discounting engine; the swaption wraps it with a European exercise at the exercise date and has no engine yet; the dates and the driver's engine are unchanged. |
| `HelperSemantics.Calculated` | ql/models/shortrate/calibrationhelpers/swaptionhelper.hpp:91-99 | A fresh cache is served unchanged. A stale cache is recalculated and becomes fresh. A recalculation that raises leaves the state untouched and stale. |
| `HelperSemantics.ModelValued` | ql/models/shortrate/calibrationhelpers/swaptionhelper.cpp:134-138 | After a successful recalculation, the swaption carries the driver's engine, even if pricing then raises. The value is the NPV under that engine. |
| `HelperSemantics.BlackEngineFor` | ql/models/shortrate/calibrationhelpers/swaptionhelper.cpp:141-155 | ShiftedLognormal gives a Black engine with the helper's shift. Normal gives a Bachelier engine. Both use sigma, the curve and Actual/365 (Fixed). Any other type raises an error naming it. |
| `HelperSemantics.BlackPriced` | ql/models/shortrate/calibrationhelpers/swaptionhelper.cpp:139-160 | The value is the NPV under the temporary engine. The driver's engine is back on normal return only: if pricing raises, the temporary engine stays. An unsupported type raises before any engine is touched. |
| `HelperSemantics.AddedTimes` | ql/models/shortrate/calibrationhelpers/swaptionhelper.cpp:123-133 | The caller's times stay in place as a prefix. The swaption's mandatory times, measured from the curve's reference date and day counter, follow them. Nothing is appended if recalculation raises. |
| `HelperSemantics.SwaptionQueried` | ql/models/shortrate/calibrationhelpers/swaptionhelper.hpp:91 | `swaption()` recalculates first. It then returns the cached swaption, built on the cached swap and exercisable at the exercise date. |
| `HelperSemantics.UnderlyingSwapQueried` | ql/models/shortrate/calibrationhelpers/swaptionhelper.hpp:92-95 | `underlyingSwap()` recalculates first. It then returns the cached swap, which pays the cached exercise rate over [startDate, endDate]. |
| `HelperSemantics.ModelValueIdempotent` | ql/models/shortrate/calibrationhelpers/swaptionhelper.cpp:134-138 | A second `modelValue` in a row returns the same result and changes nothing. |
| `HelperSemantics.BlackPriceIdempotent` | ql/models/shortrate/calibrationhelpers/swaptionhelper.cpp:139-160 | A second `blackPrice` at the same volatility returns the same result and changes nothing. |
| `HelperSemantics.ModelValueUnaffectedByBlackPrice` | ql/models/shortrate/calibrationhelpers/swaptionhelper.cpp:134-160 | The model value is the same before and after any `blackPrice`, including one that raised. |
| `HelperSemantics.AsDeclaredOvernightNeverPrices` | ql/models/shortrate/calibrationhelpers/swaptionhelper.cpp:284-298 | An overnight helper as constructed fails `modelValue`, `blackPrice` and `swaption()` with a null-index dereference. |
| `HelperSemantics.UnschedulableDatesNeverPrice` | ql/models/shortrate/calibrationhelpers/swaptionhelper.cpp:161-166 | A stale helper with its index set whose end date is not after its start date fails `modelValue`, `blackPrice` and `underlyingSwap()` with the schedule error. The state is left unchanged. |
| `HelperTraces.After` | ql/models/shortrate/calibrationhelpers/swaptionhelper.hpp:100-111 | No call moves the dates. Only the driver's setter replaces the driver's engine. On a fresh cache, every call except a change notification keeps the instruments. A notification makes the cache stale. |
| `HelperTraces.Run` | ql/models/shortrate/calibrationhelpers/swaptionhelper.hpp:100-111 | Every sequence of calls and notifications keeps the cache invariant: the swaption wraps the cached swap, which pays the cached rate over the cached dates. |
| `HelperTraces.RunKeepsDates` | ql/models/shortrate/calibrationhelpers/swaptionhelper.hpp:101-102 | The `mutable` start and end dates are never recomputed by any sequence of calls. |
| `HelperTraces.RunKeepsFreshCache` | ql/models/shortrate/calibrationhelpers/swaptionhelper.cpp:120-121 | Without a change notification, a fresh cache stays fresh and its instruments stay the same. |
| `HelperTraces.RunKeepsExternalEngine` | ql/models/shortrate/calibrationhelpers/swaptionhelper.cpp:136-158 | The helper only reads the driver's engine. Only the driver replaces it. |
| `HelperTraces.ModelValueLeavesExternalEngine` | ql/models/shortrate/calibrationhelpers/swaptionhelper.cpp:136 | After any sequence ending in a successful `modelValue` recalculation, the swaption carries the driver's engine. |
| `SwaptionHelpers.FixedVsFloatingSwaptionHelper.FromDates` | ql/models/shortrate/calibrationhelpers/swaptionhelper.cpp:94-122 | The constructor stores the configuration and the canonical dates. The cache starts stale and empty. |
| `SwaptionHelpers.FixedVsFloatingSwaptionHelper.FromLength` | ql/models/shortrate/calibrationhelpers/swaptionhelper.cpp:63-93 | The constructor stores the null end date, then replaces it by the resolved start date advanced by the length. |
| `SwaptionHelpers.FixedVsFloatingSwaptionHelper.FromTenor` | ql/models/shortrate/calibrationhelpers/swaptionhelper.cpp:32-62 | The constructor's exercise date is the curve's reference date advanced by the maturity. Its dates are those of the tenor form. |
| `SwaptionHelpers.FixedVsFloatingSwaptionHelper.PerformCalculations` | ql/models/shortrate/calibrationhelpers/swaptionhelper.cpp:161-179 | The method updates the cache in place, exactly as `Recalculated` says. |
| `SwaptionHelpers.FixedVsFloatingSwaptionHelper.Calculate` | ql/models/shortrate/calibrationhelpers/swaptionhelper.hpp:91-99 | The method follows `Calculated`. |
| `SwaptionHelpers.FixedVsFloatingSwaptionHelper.ModelValue` | ql/models/shortrate/calibrationhelpers/swaptionhelper.cpp:134-138 | The method follows `ModelValued`. |
| `SwaptionHelpers.FixedVsFloatingSwaptionHelper.BlackPrice` | ql/models/shortrate/calibrationhelpers/swaptionhelper.cpp:139-160 | The method follows `BlackPriced`, including leaving the temporary engine in place when pricing raises. |
| `SwaptionHelpers.FixedVsFloatingSwaptionHelper.AddTimesTo` | ql/models/shortrate/calibrationhelpers/swaptionhelper.cpp:123-133 | The method appends to the caller's list in place, as `AddedTimes` says. On failure the list is unchanged. |
| `SwaptionHelpers.FixedVsFloatingSwaptionHelper.Swaption` | ql/models/shortrate/calibrationhelpers/swaptionhelper.hpp:91 | The method follows `SwaptionQueried`. |
| `SwaptionHelpers.FixedVsFloatingSwaptionHelper.UnderlyingSwap` | ql/models/shortrate/calibrationhelpers/swaptionhelper.hpp:92-95 | The method follows `UnderlyingSwapQueried`. |
| `SwaptionHelpers.FixedVsFloatingSwaptionHelper.Invalidate` | ql/models/shortrate/calibrationhelpers/swaptionhelper.cpp:120-121 | A change notification from the index or the curve marks the cache stale and changes nothing else. |
| `HelperClients.TenorAndExerciseDateFormsAgree` | ql/models/shortrate/calibrationhelpers/swaptionhelper.cpp:47-62 | A helper built from (maturity, length) and one built from (computed exercise date, length) hand out the same underlying swap, or raise the same error. |

## Left out

- Calendar arithmetic, the index's value-date rule and schedule generation are library code outside this model. They are the uninterpreted functions `Conventions.advance` and `Conventions.valueDate`; a schedule is only its arguments.
- DateResolution.StartDateFor uses a total `valueDate`. The library's `valueDate` raises when its argument is not a valid fixing date of the index, for example a holiday of the fixing calendar. Without settlement days, which is the default, the (exercise date, length) and (exercise date, end date) constructors call it on the exercise date (swaptionhelper.cpp:118-119). So a constructor call that raises in the source builds a helper in the model.
- SwapBuilder.MakeSwap models one exception of the library's schedule and swap constructors: a null date, or a start date not before the end date. Other checks those constructors make are not modelled, because their code is not part of this model.
- Pricing is left as the uninterpreted functions of `Pricing`: the discounting swap engine's fair rate, the swaption NPV under the driver's or the Black/Bachelier engine, and the discretized swaption's mandatory times. Only which engine is used, and whether pricing raises, are modelled.
- `Pricing.npv` is not tied to a failure under `NoEngine`. The library's instrument raises when it has no pricing engine, so a `modelValue` before the driver sets an engine raises in the source but may succeed in the model. No proved property depends on that case.
- `Null<Real>()` and `Null<Size>()` are modelled as `Option`. A caller passing the sentinel value itself as a strike or a settlement-day count gets the default behaviour in the source; the model cannot express that.
- The lazy-object and observer framework is not modelled. It is reduced to the `dirty` flag, `Calculate` and an explicit `Invalidate`. Freezing and notification of further observers are not modelled. The market data behind the curve and the index is fixed in `Pricing`, so an upstream change is only its notification.
- The base class's own recalculation step, which computes the market value through `blackPrice` of the quoted volatility, and the calibration-error arithmetic are not modelled. Their code is not part of this model. The volatility quote handle is therefore not stored.
- HelperSemantics.Recalculated and HelperSemantics.Calculated describe the recalculation without that base step (swaptionhelper.cpp:178), so they miss three of its consequences in the source. (a) After a successful recalculation the swaption carries the driver's engine, which `blackPrice` restores; the model says it carries no engine yet. (b) An unsupported volatility type makes every `calculate()` fail, so `modelValue`, `swaption()`, `underlyingSwap()` and `addTimesTo` fail too; in the model they succeed. (c) If that Black NPV raises, `calculate()` raises after the exercise rate, the swap and the swaption have already been overwritten; in the model a failed recalculation changes nothing.
- SwaptionHelpers.FixedVsFloatingSwaptionHelper.Swaption and SwaptionHelpers.FixedVsFloatingSwaptionHelper.UnderlyingSwap return values. The source returns shared pointers to the cached instruments, so a caller's change through them, such as setting an engine, reaches the helper's cached swaption. The model cannot express that aliasing.
- `SetPricingEngine` stands for the base class's engine setter, which is not part of this model. It only replaces the driver's engine.
- A null shared pointer dereference is modelled as the error `NullIndexDereference`. In the source it is undefined behaviour, not an exception.
- ql/indexes/swap/usdsofrswap.hpp declares a constructor and has no logic to model.

## Findings

| source | as written | input that shows it | evidently intended | confidence | as-written member | corrected member |
|---|---|---|---|---|---|---|
| ql/models/shortrate/calibrationhelpers/swaptionhelper.hpp:174 | `OvernightIndexedSwaptionHelper` declares its own `index_`, which hides the base one. None of its constructors (swaptionhelper.cpp:212-225, 241-254, 270-283) initialises it, and its `makeSwap` dereferences it (swaptionhelper.cpp:286-297). | Any overnight helper, then `swaption()`, `modelValue()` or `blackPrice(sigma)`. The first recalculation dereferences a null pointer. | The member is initialised with the overnight index passed to the constructor, which the base class also receives. | high, not executed | `SwapBuilder.OvernightAsDeclaredNeverBuilds` | `SwapBuilder.OvernightInitialisedBuilds` |

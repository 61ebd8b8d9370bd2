/**
 * Sequences of calls on one helper. The lazy-object contract of the source is about
 * what stays true across calls: the cache is rebuilt only after a change notification,
 * the start and end dates are fixed at construction even though they are declared
 * `mutable`, and the externally set engine is only replaced by the driver.
 */
module HelperTraces {
  import opened Wrappers
  import opened Market
  import opened HelperSemantics

  /** A call on the helper, or a notification from the index or the curve. */
  datatype Event =
    | AskModelValue
    | AskBlackPrice(sigma: real)
    | AskAddTimes(times: seq<real>)
    | AskSwaption
    | AskUnderlyingSwap
    | Invalidate
    | SetPricingEngine(engine: Engine)

  /** The built instruments and the rate they were built at. */
  predicate SameCache(a: State, b: State)
  {
    a.exerciseRate == b.exerciseRate && a.swap == b.swap && a.swapEngine == b.swapEngine && a.swaption == b.swaption
  }

  /**
   * The state after one event. No event moves the dates; only the driver's setter
   * replaces the external engine; on a fresh cache, every event but a notification
   * keeps the cache fresh and the instruments as they are.
   */
  function After(c: Config, p: Pricing, s: State, e: Event): (r: State)
    requires ValidFor(c, s)
    ensures ValidFor(c, r)
    ensures r.startDate == s.startDate && r.endDate == s.endDate
    ensures !e.SetPricingEngine? ==> r.engine == s.engine
    ensures !s.dirty && !e.Invalidate? ==> !r.dirty && SameCache(r, s)
    ensures e.Invalidate? ==> r.dirty
  {
    match e
    case AskModelValue => ModelValued(c, p, s).0
    case AskBlackPrice(sigma) => BlackPriced(c, p, s, sigma).0
    case AskAddTimes(times) => AddedTimes(c, p, s, times).0
    case AskSwaption => SwaptionQueried(c, p, s).0
    case AskUnderlyingSwap => UnderlyingSwapQueried(c, p, s).0
    case Invalidate => s.(dirty := true)
    case SetPricingEngine(engine) => s.(engine := engine)
  }

  /** The state after a sequence of events; every state on the way keeps the cache invariant. */
  function Run(c: Config, p: Pricing, s: State, events: seq<Event>): (r: State)
    requires ValidFor(c, s)
    ensures ValidFor(c, r)
    decreases |events|
  {
    if events == [] then s else Run(c, p, After(c, p, s, events[0]), events[1..])
  }

  /** The start and end dates are never recomputed, whatever happens to the helper. */
  lemma {:induction false} RunKeepsDates(c: Config, p: Pricing, s: State, events: seq<Event>)
    requires ValidFor(c, s)
    ensures Run(c, p, s, events).startDate == s.startDate
    ensures Run(c, p, s, events).endDate == s.endDate
    decreases |events|
  {
    if events != [] {
      RunKeepsDates(c, p, After(c, p, s, events[0]), events[1..]);
    }
  }

  /**
   * Without a change notification, a fresh cache stays fresh and holds the same
   * instruments, whatever is asked of the helper and whichever engine the driver sets.
   */
  lemma {:induction false} RunKeepsFreshCache(c: Config, p: Pricing, s: State, events: seq<Event>)
    requires ValidFor(c, s) && !s.dirty
    requires forall i | 0 <= i < |events| :: !events[i].Invalidate?
    ensures !Run(c, p, s, events).dirty
    ensures SameCache(Run(c, p, s, events), s)
    decreases |events|
  {
    if events != [] {
      var next := After(c, p, s, events[0]);
      assert forall i | 0 <= i < |events[1..]| :: events[1..][i] == events[i + 1];
      RunKeepsFreshCache(c, p, next, events[1..]);
    }
  }

  /** Only the driver's setter replaces the external engine; the helper only ever reads it. */
  lemma {:induction false} RunKeepsExternalEngine(c: Config, p: Pricing, s: State, events: seq<Event>)
    requires ValidFor(c, s)
    requires forall i | 0 <= i < |events| :: !events[i].SetPricingEngine?
    ensures Run(c, p, s, events).engine == s.engine
    decreases |events|
  {
    if events != [] {
      assert forall i | 0 <= i < |events[1..]| :: events[1..][i] == events[i + 1];
      RunKeepsExternalEngine(c, p, After(c, p, s, events[0]), events[1..]);
    }
  }

  /**
   * A run of calls that ends by asking for the model value, after which the swaption
   * has been built, leaves the swaption carrying the external engine, whatever Black
   * prices were asked on the way and whether or not they raised.
   */
  lemma ModelValueLeavesExternalEngine(c: Config, p: Pricing, s: State, events: seq<Event>)
    requires ValidFor(c, s)
    requires !Run(c, p, s, events + [AskModelValue]).dirty
    ensures Run(c, p, s, events + [AskModelValue]).swaptionEngine == Run(c, p, s, events).engine
  {
    RunAppend(c, p, s, events, AskModelValue);
  }

  /** Running one more event is one more step after the run. */
  lemma {:induction false} RunAppend(c: Config, p: Pricing, s: State, events: seq<Event>, e: Event)
    requires ValidFor(c, s)
    ensures Run(c, p, s, events + [e]) == After(c, p, Run(c, p, s, events), e)
    decreases |events|
  {
    if events == [] {
      assert events + [e] == [e];
    } else {
      assert (events + [e])[0] == events[0];
      assert (events + [e])[1..] == events[1..] + [e];
      RunAppend(c, p, After(c, p, s, events[0]), events[1..], e);
    }
  }
}

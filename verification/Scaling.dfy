/** The CPU quota feedback of pkg/podmanager/resource_controller.go:43-139: two sliding windows,
    an adaptive safety margin, a rollback after a scale-down that throttled, and a rescale at
    most once a second. */
module Scaling {
  import opened Options
  import opened Words
  import opened Sample

  const USAGE_WINDOW := 50
  const THROTTLE_WINDOW := 10
  const NANOS_PER_SECOND := 1_000_000_000

  /** What gonum's standard deviation returns: NaN, or a non-negative number. */
  datatype Deviation = NaN | Spread(value: real)

  predicate Possible(d: Deviation) {
    d.Spread? ==> d.value >= 0.0
  }

  type Measured = d: Deviation | Possible(d) witness NaN

  /** Microseconds between two samples, by which the usage is divided. */
  type Interval = d: int | 0 < d witness 1

  /** The value of one `CPUMetrics`: both windows, both remembered quotas, the feedback state. */
  datatype Feedback = Feedback(
    lastQuota: Word,
    currentQuota: Word,
    scaleDown: bool,
    margin: real,
    lastScale: int,
    usage: seq<real>,
    throttled: seq<real>)

  /** One call of `dynCalculateQuota`: the state it leaves, the quota in cores before the
      0.1-core floor, and which of its three reactions fired. */
  datatype Outcome = Outcome(
    after: Feedback,
    quota: real,
    rolledBack: bool,
    scaledUp: bool,
    scaledDown: bool)

  function Cores(quota: Word): real {
    quota as real / DEFAULT_CPU_PERIOD as real
  }

  function Flushed(window: seq<real>): seq<real> {
    PushAll(window, THROTTLE_WINDOW, Zeros(THROTTLE_WINDOW))
  }

  /** Throttling was seen after a scale-down: undo it. */
  predicate RollbackDue(f: Feedback, target: real) {
    MeanOf(f.throttled) > 3.0 * target && f.scaleDown
  }

  function RolledBack(f: Feedback, target: real): Feedback {
    f.(margin := f.margin + MeanOf(f.throttled) - target,
       throttled := Flushed(f.throttled),
       scaleDown := false)
  }

  /** The proposal `max + stdev * margin`, in which the margin is counted twice: once as it
      was and once as it has just become. NaN poisons it. */
  function Proposed(usageMax: real, oldMargin: real, d: Deviation, newMargin: real): Deviation {
    if d.NaN? then NaN else Spread(usageMax + oldMargin * d.value * newMargin)
  }

  function Growth(current: real, excess: real): real {
    current * (1.0 + excess)
  }

  function NewMargin(margin: real, rate: real, target: real): real {
    MaxReal(0.0, margin + (rate - target))
  }

  /** The once-a-second half of a call, from its new margin and its proposal. */
  function Landed(f: Feedback, quota: real, target: real, now: int, margin: real, proposed: Deviation): Outcome {
    var rate := MeanOf(f.throttled);
    var current := Cores(f.currentQuota);
    var up := rate > 3.0 * target;
    var down := !up && proposed.Spread? && proposed.value <= 0.9 * current;
    Outcome(
      f.(margin := margin, scaleDown := down, throttled := Flushed(f.throttled), lastScale := now),
      if up then Growth(current, rate - 3.0 * target)
      else if down then MaxReal(0.5 * current, proposed.value)
      else quota,
      false, up, down)
  }

  function Rescaled(f: Feedback, quota: real, target: real, now: int, d: Deviation): Outcome {
    var margin := NewMargin(f.margin, MeanOf(f.throttled), target);
    Landed(f, quota, target, now, margin, Proposed(MaxOf(f.usage), f.margin, d, margin))
  }

  function AfterRollback(f: Feedback, target: real): Feedback {
    if RollbackDue(f, target) then RolledBack(f, target) else f
  }

  function NextFeedback(f: Feedback, target: real, now: int, d: Deviation): Outcome {
    var rollback := RollbackDue(f, target);
    var g := AfterRollback(f, target);
    var quota := if rollback then 2.0 * Cores(f.lastQuota) - Cores(f.currentQuota)
                 else Cores(f.currentQuota);
    if now - f.lastScale >= NANOS_PER_SECOND
    then Rescaled(g, quota, target, now, d).(rolledBack := rollback)
    else Outcome(g, quota, rollback, false, false)
  }

  /** The quota in microseconds per period that a call returns, before the cast to `uint64`. */
  function Returned(o: Outcome): int {
    Ceil(MaxReal(0.1, o.quota) * DEFAULT_CPU_PERIOD as real)
  }

  ghost predicate WellFormed(f: Feedback) {
    && f.margin >= 0.0
    && |f.usage| <= USAGE_WINDOW
    && |f.throttled| <= THROTTLE_WINDOW
    && NonNegative(f.usage)
    && NonNegative(f.throttled)
  }

  lemma FlushedIsZeros(w: seq<real>)
    requires |w| <= THROTTLE_WINDOW
    ensures Flushed(w) == Zeros(THROTTLE_WINDOW) && MeanOf(Flushed(w)) == 0.0
  {
    FlushLeavesZeros(w, THROTTLE_WINDOW);
  }

  /** A rollback and a scale-up never happen in the same call, because the rollback empties
      the window the scale-up looks at; and whenever any reaction fires, exactly ten zeros
      are left in that window, so no later call reacts to the same throttling twice. */
  lemma RollbackExcludesScaleUp(f: Feedback, target: real, now: int, d: Deviation)
    requires |f.throttled| <= THROTTLE_WINDOW && target >= 0.0
    ensures var o := NextFeedback(f, target, now, d);
            && !(o.rolledBack && o.scaledUp)
            && (o.rolledBack || o.scaledUp || o.scaledDown ==>
                  o.after.throttled == Zeros(THROTTLE_WINDOW) && !RollbackDue(o.after, target))
  {
    FlushedIsZeros(f.throttled);
    FlushedIsZeros(Zeros(THROTTLE_WINDOW));
  }

  /** One call keeps the margin non-negative and the windows bounded and non-negative. */
  lemma CallKeepsWellFormed(f: Feedback, target: real, now: int, d: Deviation)
    requires WellFormed(f) && target >= 0.0
    ensures WellFormed(NextFeedback(f, target, now, d).after)
  {
    FlushedIsZeros(f.throttled);
    FlushedIsZeros(Zeros(THROTTLE_WINDOW));
  }

  lemma ProductNonNegative(a: real, b: real, c: real)
    requires a >= 0.0 && b >= 0.0 && c >= 0.0
    ensures a * b * c >= 0.0
  {
    assert a * b >= 0.0;
  }

  /** A scale-down lands between half and nine tenths of the current quota and never below the
      largest usage in the window. */
  lemma ScaleDownIsBounded(f: Feedback, target: real, now: int, d: Deviation)
    requires WellFormed(f) && target >= 0.0 && Possible(d)
    requires NextFeedback(f, target, now, d).scaledDown
    ensures var q := NextFeedback(f, target, now, d).quota;
            && 0.5 * Cores(f.currentQuota) <= q <= 0.9 * Cores(f.currentQuota)
            && forall u :: u in f.usage ==> u <= q
  {
    var g := AfterRollback(f, target);
    assert g.margin >= 0.0;
    RescaleDownIsBounded(g, NextFeedback(f, target, now, d).quota, target, now, d);
  }

  lemma RescaleDownIsBounded(g: Feedback, quota: real, target: real, now: int, d: Deviation)
    requires g.margin >= 0.0 && Possible(d)
    requires Rescaled(g, quota, target, now, d).scaledDown
    ensures var q := Rescaled(g, quota, target, now, d).quota;
            && 0.5 * Cores(g.currentQuota) <= q <= 0.9 * Cores(g.currentQuota)
            && forall u :: u in g.usage ==> u <= q
  {
    MaxIsAttained(g.usage);
    ProductNonNegative(g.margin, d.value, Rescaled(g, quota, target, now, d).after.margin);
  }

  lemma GrowthIsStrict(current: real, excess: real)
    requires current > 0.0 && excess > 0.0
    ensures Growth(current, excess) > current
  {
    assert current * excess > 0.0;
  }

  /** Scaling up multiplies the current quota by more than one. */
  lemma ScaleUpGrows(f: Feedback, target: real, now: int, d: Deviation)
    requires WellFormed(f) && target >= 0.0
    requires NextFeedback(f, target, now, d).scaledUp && f.currentQuota > 0
    ensures NextFeedback(f, target, now, d).quota > Cores(f.currentQuota)
  {
    RollbackExcludesScaleUp(f, target, now, d);
    GrowthIsStrict(Cores(f.currentQuota), MeanOf(f.throttled) - 3.0 * target);
  }

  /** Every call returns at least a tenth of a core, and at least half the current quota
      unless the call ended in a plain rollback. */
  lemma ReturnedIsBoundedBelow(f: Feedback, target: real, now: int, d: Deviation)
    requires WellFormed(f) && target >= 0.0
    ensures var o := NextFeedback(f, target, now, d);
            && 10000 <= Returned(o)
            && (!o.rolledBack || o.scaledDown ==> f.currentQuota <= 2 * Returned(o))
  {
    var o := NextFeedback(f, target, now, d);
    if o.scaledUp && f.currentQuota > 0 {
      ScaleUpGrows(f, target, now, d);
    }
    if !o.rolledBack || o.scaledDown {
      assert o.quota >= 0.5 * Cores(f.currentQuota);
      assert MaxReal(0.1, o.quota) * 100000.0 >= 0.5 * f.currentQuota as real;
    }
  }

  // ----- one call in plain numbers

  /** What one call leaves of the record, in plain numbers. `seen` is the throttling that is left
      after a rollback, which empties the window, and `m` the margin after it. */
  lemma OneCallKeepsBooks(f: Feedback, target: real, now: int, d: Deviation)
    requires |f.throttled| <= 10 && target >= 0.0
    ensures var o := NextFeedback(f, target, now, d);
            var rate, due := MeanOf(f.throttled), now - f.lastScale >= 1_000_000_000;
            var back := f.scaleDown && rate > 3.0 * target;
            var seen, m := if back then 0.0 else rate, if back then f.margin + rate - target else f.margin;
            && o.rolledBack == back
            && o.after.margin == (if !due then m else if m + seen <= target then 0.0 else m + seen - target)
            && o.after.scaleDown == (if due then o.scaledDown else f.scaleDown && !back)
            && o.after.lastScale == (if due then now else f.lastScale)
            && o.after.throttled == (if back || due then Zeros(10) else f.throttled)
            && o.after.usage == f.usage
            && o.after.lastQuota == f.lastQuota && o.after.currentQuota == f.currentQuota
  {
    FlushedIsZeros(f.throttled);
    FlushedIsZeros(Zeros(10));
  }

  ghost predicate ScalesUp(o: Outcome, quota: real) {
    o.scaledUp && !o.scaledDown && o.quota == quota
  }

  /** The largest recent usage `u` and a safety distance, in which the margin counts twice: as it
      was and as it has become. A spread that is not a number leaves no proposal. */
  ghost function Proposal(u: real, margin: real, d: Deviation, newMargin: real): Option<real> {
    match d
    case NaN => None
    case Spread(spread) => Some(u + margin * spread * newMargin)
  }

  /** A call scales down to its proposal, or to half the current quota, when the proposal is at
      most nine tenths of that quota; otherwise it returns `kept`. */
  ghost predicate MayScaleDown(o: Outcome, proposal: Option<real>, current: real, kept: real) {
    && !o.scaledUp
    && (o.scaledDown <==> proposal.Some? && proposal.value <= 0.9 * current)
    && o.quota == if !o.scaledDown then kept
                  else if 0.5 * current <= proposal.value then proposal.value
                  else 0.5 * current
  }

  lemma LandingInNumbers(f: Feedback, quota: real, target: real, now: int, margin: real, proposed: Deviation,
                         back: bool)
    ensures var o := Landed(f, quota, target, now, margin, proposed).(rolledBack := back);
            var current := f.currentQuota as real / 100000.0;
            && o.after.margin == margin
            && (if MeanOf(f.throttled) > 3.0 * target then
                  ScalesUp(o, current * (1.0 + (MeanOf(f.throttled) - 3.0 * target)))
                else MayScaleDown(o, if proposed.Spread? then Some(proposed.value) else None, current, quota))
  {
  }

  /** The rescaling half of a call, whether or not it comes after a rollback. */
  lemma RescalingInNumbers(f: Feedback, quota: real, target: real, now: int, d: Deviation, back: bool)
    ensures var o := Rescaled(f, quota, target, now, d).(rolledBack := back);
            var current := f.currentQuota as real / 100000.0;
            if MeanOf(f.throttled) > 3.0 * target then
              ScalesUp(o, current * (1.0 + (MeanOf(f.throttled) - 3.0 * target)))
            else MayScaleDown(o, Proposal(MaxOf(f.usage), f.margin, d, o.after.margin), current, quota)
  {
    var margin := NewMargin(f.margin, MeanOf(f.throttled), target);
    LandingInNumbers(f, quota, target, now, margin, Proposed(MaxOf(f.usage), f.margin, d, margin), back);
  }

  /** A call that is not due to rescale, in plain numbers. */
  lemma EarlyCallInNumbers(f: Feedback, target: real, now: int, d: Deviation)
    requires now - f.lastScale < 1_000_000_000
    ensures var o := NextFeedback(f, target, now, d);
            var current, last := f.currentQuota as real / 100000.0, f.lastQuota as real / 100000.0;
            && o.rolledBack == (f.scaleDown && MeanOf(f.throttled) > 3.0 * target)
            && !o.scaledUp && !o.scaledDown
            && o.quota == if o.rolledBack then 2.0 * last - current else current
  {
  }

  /** What a due call does after its rollback half, which leaves `g` and this quota. */
  lemma DueCallRescales(f: Feedback, g: Feedback, quota: real, target: real, now: int, d: Deviation)
    requires now - f.lastScale >= 1_000_000_000 && g == AfterRollback(f, target)
    requires quota == if RollbackDue(f, target) then 2.0 * Cores(f.lastQuota) - Cores(f.currentQuota)
                      else Cores(f.currentQuota)
    ensures NextFeedback(f, target, now, d)
         == Rescaled(g, quota, target, now, d).(rolledBack := RollbackDue(f, target))
  {
  }

  /** A call that is due and finds nothing to roll back. */
  lemma DueCallInNumbers(f: Feedback, target: real, now: int, d: Deviation)
    requires now - f.lastScale >= 1_000_000_000
    requires !(f.scaleDown && MeanOf(f.throttled) > 3.0 * target)
    ensures var o, current := NextFeedback(f, target, now, d), f.currentQuota as real / 100000.0;
            && !o.rolledBack
            && (if MeanOf(f.throttled) > 3.0 * target then
                  ScalesUp(o, current * (1.0 + (MeanOf(f.throttled) - 3.0 * target)))
                else
                  MayScaleDown(o, Proposal(MaxOf(f.usage), f.margin, d, o.after.margin), current, current))
  {
    DueCallRescales(f, f, Cores(f.currentQuota), target, now, d);
    RescalingInNumbers(f, Cores(f.currentQuota), target, now, d, false);
  }

  /** A call that rolls back and is due: the rollback has emptied the window, so that it can only
      scale down, with the margin that the rollback has raised. */
  lemma DueRollbackInNumbers(f: Feedback, target: real, now: int, d: Deviation)
    requires now - f.lastScale >= 1_000_000_000 && |f.throttled| <= 10 && target >= 0.0
    requires f.scaleDown && MeanOf(f.throttled) > 3.0 * target
    ensures var o, current := NextFeedback(f, target, now, d), f.currentQuota as real / 100000.0;
            && o.rolledBack
            && var proposal := Proposal(MaxOf(f.usage), f.margin + MeanOf(f.throttled) - target, d, o.after.margin);
               MayScaleDown(o, proposal, current, 2.0 * (f.lastQuota as real / 100000.0) - current)
  {
    FlushedIsZeros(f.throttled);
    var quota := 2.0 * Cores(f.lastQuota) - Cores(f.currentQuota);
    DueCallRescales(f, RolledBack(f, target), quota, target, now, d);
    RescalingInNumbers(RolledBack(f, target), quota, target, now, d, true);
  }

  /** What a call returns: its quota, but at least a tenth of a core, in microseconds per period
      of 100000, rounded up. */
  lemma WhatACallReturns(o: Outcome)
    ensures var q := if o.quota >= 0.1 then o.quota else 0.1;
            q * 100000.0 <= Returned(o) as real < q * 100000.0 + 1.0
  {
  }

  // ----- runs

  /** What can happen to one record: a usage sample arrives, the quota is recalculated, or the
      controller's update moves the remembered quotas. */
  datatype Event =
    | Sampled(throttled: Word, usageUsec: Word, durationUsec: int)
    | Calculated(target: real, now: int, deviation: Deviation)
    | QuotasMoved(last: Word, current: Word)

  ghost predicate Legal(e: Event) {
    match e
    case Sampled(_, _, duration) => duration > 0
    case Calculated(target, _, deviation) => target >= 0.0 && Possible(deviation)
    case QuotasMoved(_, _) => true
  }

  function Observed(f: Feedback, throttled: Word, usageUsec: Word, durationUsec: int): Feedback
    requires durationUsec > 0
  {
    f.(throttled := Push(f.throttled, THROTTLE_WINDOW, throttled as real),
       usage := Push(f.usage, USAGE_WINDOW, usageUsec as real / durationUsec as real))
  }

  function Step(f: Feedback, e: Event): Feedback
    requires e.Sampled? ==> e.durationUsec > 0
  {
    match e
    case Sampled(t, u, duration) => Observed(f, t, u, duration)
    case Calculated(target, now, d) => NextFeedback(f, target, now, d).after
    case QuotasMoved(last, current) => f.(lastQuota := last, currentQuota := current)
  }

  ghost function Run(f: Feedback, es: seq<Event>): Feedback
    requires forall e :: e in es ==> Legal(e)
  {
    if es == [] then f
    else
      assert Legal(es[|es| - 1]);
      Step(Run(f, es[..|es| - 1]), es[|es| - 1])
  }

  lemma RunExtends(f: Feedback, es: seq<Event>, e: Event)
    requires Legal(e) && forall x :: x in es ==> Legal(x)
    ensures forall x :: x in es + [e] ==> Legal(x)
    ensures Run(f, es + [e]) == Step(Run(f, es), e)
  {
    assert (es + [e])[..|es|] == es;
  }

  lemma {:induction false} RunContinues(f: Feedback, es: seq<Event>, more: seq<Event>)
    requires forall x :: x in es || x in more ==> Legal(x)
    ensures forall x :: x in es + more ==> Legal(x)
    ensures Run(f, es + more) == Run(Run(f, es), more)
  {
    if more == [] {
      assert es + more == es;
    } else {
      var front, e := more[..|more| - 1], more[|more| - 1];
      assert e in more && forall x :: x in front ==> x in more;
      RunContinues(f, es, front);
      RunExtends(f, es + front, e);
      assert es + front + [e] == es + more;
    }
  }

  function Fresh(now: int): Feedback {
    Feedback(0, 0, false, 0.0, now, [], [])
  }

  /** A call in the first second of a record changes nothing. */
  lemma FirstSecondIsQuiet(start: int, target: real, now: int, d: Deviation)
    requires now - start < 1_000_000_000
    ensures NextFeedback(Fresh(start), target, now, d).after == Fresh(start)
    ensures now - start == 999_999_999 ==>
              NextFeedback(Fresh(start), target, now + 1, d).after.lastScale == now + 1
  {
  }

  /** A sample goes to the end of both windows, and the oldest leaves a full one. */
  lemma SampleFeedsWindows(f: Feedback, t: Word, u: Word, duration: int)
    requires duration > 0
    ensures var g := Step(f, Sampled(t, u, duration));
            && g == f.(usage := g.usage, throttled := g.throttled)
            && g.usage == Suffix(f.usage + [u as real / duration as real], 50)
            && g.throttled == Suffix(f.throttled + [t as real], 10)
  {
  }

  /** Every reachable record has a non-negative margin and bounded, non-negative windows. */
  lemma {:induction false} RunsStayWellFormed(now: int, es: seq<Event>)
    requires forall e :: e in es ==> Legal(e)
    ensures WellFormed(Run(Fresh(now), es))
  {
    if es != [] {
      var e := es[|es| - 1];
      assert e in es;
      RunsStayWellFormed(now, es[..|es| - 1]);
      var f := Run(Fresh(now), es[..|es| - 1]);
      match e
      case Sampled(t, u, duration) =>
        assert u as real / duration as real >= 0.0;
      case Calculated(target, at, d) =>
        CallKeepsWellFormed(f, target, at, d);
      case QuotasMoved(_, _) =>
    }
  }

  // ----- what the windows hold

  /** The usage samples of a run: microseconds used by microseconds passed. */
  ghost function UsageSamples(es: seq<Event>): seq<real>
    requires forall e :: e in es ==> Legal(e)
  {
    if es == [] then []
    else
      var e := es[|es| - 1];
      assert Legal(e);
      UsageSamples(es[..|es| - 1])
      + match e
        case Sampled(_, usageUsec, durationUsec) => [usageUsec as real / durationUsec as real]
        case _ => []
  }

  /** What a run feeds the throttling window: the samples, and ten zeros whenever a call reacts. */
  ghost function ThrottleInputs(f: Feedback, es: seq<Event>): seq<real>
    requires forall e :: e in es ==> Legal(e)
  {
    if es == [] then []
    else
      var e, before := es[|es| - 1], Run(f, es[..|es| - 1]);
      ThrottleInputs(f, es[..|es| - 1])
      + match e
        case Sampled(t, _, _) => [t as real]
        case Calculated(target, now, _) =>
          if (before.scaleDown && MeanOf(before.throttled) > 3.0 * target)
             || now - before.lastScale >= 1_000_000_000
          then Zeros(10) else []
        case QuotasMoved(_, _) => []
  }

  /** Over every run the windows hold the last fifty usage samples, and the last ten of the
      throttling samples and flushed zeros. */
  lemma {:induction false} WindowsHoldTheLast(start: int, es: seq<Event>)
    requires forall e :: e in es ==> Legal(e)
    ensures Run(Fresh(start), es).usage == Suffix(UsageSamples(es), 50)
    ensures Run(Fresh(start), es).throttled == Suffix(ThrottleInputs(Fresh(start), es), 10)
  {
    if es != [] {
      var front, e := es[..|es| - 1], es[|es| - 1];
      assert e in es;
      WindowsHoldTheLast(start, front);
      RunsStayWellFormed(start, front);
      var f := Run(Fresh(start), front);
      match e
      case Sampled(t, u, duration) =>
        SampleFeedsWindows(f, t, u, duration);
        PushSuffix(UsageSamples(front), 50, u as real / duration as real);
        PushSuffix(ThrottleInputs(Fresh(start), front), 10, t as real);
      case Calculated(target, now, d) =>
        OneCallKeepsBooks(f, target, now, d);
        assert Suffix(ThrottleInputs(Fresh(start), front) + Zeros(10), 10) == Zeros(10);
        assert UsageSamples(front) + [] == UsageSamples(front);
        assert ThrottleInputs(Fresh(start), front) + [] == ThrottleInputs(Fresh(start), front);
      case QuotasMoved(_, _) =>
        assert UsageSamples(front) + [] == UsageSamples(front);
        assert ThrottleInputs(Fresh(start), front) + [] == ThrottleInputs(Fresh(start), front);
    }
  }

  // ----- what the margin is

  /** What one call adds to the margin before it is cut off at zero: once when it rolls back,
      and once when it rescales. */
  function Increments(f: Feedback, target: real, now: int): seq<real> {
    var g := AfterRollback(f, target);
    (if RollbackDue(f, target) then [MeanOf(f.throttled) - target] else [])
    + (if now - f.lastScale >= NANOS_PER_SECOND then [MeanOf(g.throttled) - target] else [])
  }

  /** All of them over a run, in order: the excess of measured throttling over its target. */
  ghost function Excesses(f: Feedback, es: seq<Event>): seq<real>
    requires forall e :: e in es ==> Legal(e)
  {
    if es == [] then []
    else
      var e := es[|es| - 1];
      Excesses(f, es[..|es| - 1])
      + if e.Calculated? then Increments(Run(f, es[..|es| - 1]), e.target, e.now) else []
  }

  /** `m` is the largest sum of a suffix of `s`, the empty suffix included. */
  ghost predicate IsLargestSuffixSum(m: real, s: seq<real>) {
    && (exists j :: 0 <= j <= |s| && m == SumOf(s[j..]))
    && (forall j :: 0 <= j <= |s| ==> SumOf(s[j..]) <= m)
  }

  lemma SuffixSumOfAppended(s: seq<real>, x: real, j: nat)
    requires j <= |s|
    ensures SumOf((s + [x])[j..]) == SumOf(s[j..]) + x
  {
    var t := (s + [x])[j..];
    assert t[..|t| - 1] == s[j..];
  }

  lemma LargestSuffixSumExtends(m: real, s: seq<real>, x: real)
    requires IsLargestSuffixSum(m, s)
    ensures IsLargestSuffixSum(MaxReal(0.0, m + x), s + [x])
  {
    var t := s + [x];
    var k :| 0 <= k <= |s| && m == SumOf(s[k..]);
    SuffixSumOfAppended(s, x, k);
    assert SumOf(t[|t|..]) == 0.0;
    forall j | 0 <= j <= |t|
      ensures SumOf(t[j..]) <= MaxReal(0.0, m + x)
    {
      if j <= |s| {
        SuffixSumOfAppended(s, x, j);
      }
    }
    assert MaxReal(0.0, m + x) == if 0.0 <= m + x then SumOf(t[k..]) else SumOf(t[|t|..]);
  }

  lemma MarginAfterCall(f: Feedback, target: real, now: int, d: Deviation)
    ensures var g := AfterRollback(f, target);
            NextFeedback(f, target, now, d).after.margin
            == if now - f.lastScale >= NANOS_PER_SECOND then NewMargin(g.margin, MeanOf(g.throttled), target)
               else g.margin
  {
  }

  lemma RollbackMovesMargin(f: Feedback, target: real, s: seq<real>)
    requires f.margin >= 0.0 && target >= 0.0 && IsLargestSuffixSum(f.margin, s)
    ensures IsLargestSuffixSum(AfterRollback(f, target).margin,
                               s + if RollbackDue(f, target) then [MeanOf(f.throttled) - target] else [])
  {
    if RollbackDue(f, target) {
      LargestSuffixSumExtends(f.margin, s, MeanOf(f.throttled) - target);
      assert MaxReal(0.0, f.margin + (MeanOf(f.throttled) - target)) == AfterRollback(f, target).margin;
    } else {
      assert s + [] == s;
    }
  }

  lemma CallMovesMargin(f: Feedback, target: real, now: int, d: Deviation, s: seq<real>)
    requires f.margin >= 0.0 && target >= 0.0 && IsLargestSuffixSum(f.margin, s)
    ensures IsLargestSuffixSum(NextFeedback(f, target, now, d).after.margin, s + Increments(f, target, now))
  {
    var g := AfterRollback(f, target);
    var first := if RollbackDue(f, target) then [MeanOf(f.throttled) - target] else [];
    RollbackMovesMargin(f, target, s);
    MarginAfterCall(f, target, now, d);
    if now - f.lastScale >= NANOS_PER_SECOND {
      LargestSuffixSumExtends(g.margin, s + first, MeanOf(g.throttled) - target);
      assert s + Increments(f, target, now) == s + first + [MeanOf(g.throttled) - target];
    } else {
      assert Increments(f, target, now) == first;
    }
  }

  /** Over every run the margin is the largest total excess of throttling over its target that
      any stretch of calls up to now has accumulated: it forgets good times at zero and never
      forgets a bad stretch that is still going on. */
  lemma {:induction false} MarginIsWorstStretch(start: int, es: seq<Event>)
    requires forall e :: e in es ==> Legal(e)
    ensures IsLargestSuffixSum(Run(Fresh(start), es).margin, Excesses(Fresh(start), es))
  {
    if es == [] {
      var none: seq<real> := [];
      assert none[0..] == none && SumOf(none[0..]) == 0.0;
    } else {
      var front, e := es[..|es| - 1], es[|es| - 1];
      assert e in es;
      MarginIsWorstStretch(start, front);
      RunsStayWellFormed(start, front);
      if e.Calculated? {
        CallMovesMargin(Run(Fresh(start), front), e.target, e.now, e.deviation, Excesses(Fresh(start), front));
      } else {
        assert Excesses(Fresh(start), es) == Excesses(Fresh(start), front);
      }
    }
  }

  // ----- the margin when the target is zero

  lemma {:induction false} SuffixSumsAreSmaller(s: seq<real>, j: nat)
    requires NonNegative(s) && j <= |s|
    ensures 0.0 <= SumOf(s[j..]) <= SumOf(s)
  {
    if s == [] {
      assert s[j..] == s;
    } else {
      var front, x := s[..|s| - 1], s[|s| - 1];
      assert s == front + [x] && x in s && s[|s|..] == [];
      SuffixSumsAreSmaller(front, if j < |s| then j else 0);
      if j < |s| {
        SuffixSumOfAppended(front, x, j);
      }
      assert front[0..] == front;
    }
  }

  /** Without a target every call measures an excess that is not negative. */
  lemma ZeroTargetIncrements(f: Feedback, now: int)
    requires WellFormed(f)
    ensures NonNegative(Increments(f, 0.0, now))
  {
    MeanOfNonNegative(f.throttled);
    FlushedIsZeros(f.throttled);
  }

  lemma {:induction false} ZeroTargetExcesses(start: int, es: seq<Event>)
    requires forall e :: e in es ==> Legal(e) && (e.Calculated? ==> e.target == 0.0)
    ensures NonNegative(Excesses(Fresh(start), es))
  {
    if es != [] {
      var front, e := es[..|es| - 1], es[|es| - 1];
      assert e in es;
      ZeroTargetExcesses(start, front);
      RunsStayWellFormed(start, front);
      if e.Calculated? {
        ZeroTargetIncrements(Run(Fresh(start), front), e.now);
      }
    }
  }

  /** When every call of a run has target zero the worst stretch is the whole run. */
  lemma MarginIsTotal(start: int, es: seq<Event>)
    requires forall e :: e in es ==> Legal(e) && (e.Calculated? ==> e.target == 0.0)
    ensures Run(Fresh(start), es).margin == SumOf(Excesses(Fresh(start), es))
  {
    var s := Excesses(Fresh(start), es);
    MarginIsWorstStretch(start, es);
    ZeroTargetExcesses(start, es);
    var k :| 0 <= k <= |s| && Run(Fresh(start), es).margin == SumOf(s[k..]);
    SuffixSumsAreSmaller(s, k);
    assert s[0..] == s;
  }

  lemma ZeroTargetCallGrows(f: Feedback, now: int, d: Deviation)
    requires WellFormed(f)
    ensures f.margin <= NextFeedback(f, 0.0, now, d).after.margin
  {
    MeanOfNonNegative(f.throttled);
    OneCallKeepsBooks(f, 0.0, now, d);
  }

  lemma ZeroTargetStepGrows(f: Feedback, e: Event)
    requires WellFormed(f) && Legal(e) && (e.Calculated? ==> e.target == 0.0)
    ensures WellFormed(Step(f, e)) && f.margin <= Step(f, e).margin
  {
    match e
    case Sampled(t, u, duration) =>
      assert u as real / duration as real >= 0.0;
    case Calculated(_, now, d) =>
      CallKeepsWellFormed(f, 0.0, now, d);
      ZeroTargetCallGrows(f, now, d);
    case QuotasMoved(_, _) =>
  }

  /** And it never comes down. */
  lemma {:induction false} ZeroTargetMarginGrows(f: Feedback, es: seq<Event>)
    requires WellFormed(f) && forall e :: e in es ==> Legal(e) && (e.Calculated? ==> e.target == 0.0)
    ensures WellFormed(Run(f, es)) && f.margin <= Run(f, es).margin
  {
    if es != [] {
      var front, e := es[..|es| - 1], es[|es| - 1];
      assert e in es;
      ZeroTargetMarginGrows(f, front);
      ZeroTargetStepGrows(Run(f, front), e);
    }
  }

  // ----- what a rollback undoes

  /** Event `i` of a run is a call with this outcome. */
  ghost function OutcomeAt(f: Feedback, es: seq<Event>, i: nat): Option<Outcome>
    requires i < |es| && forall e :: e in es ==> Legal(e)
  {
    if es[i].Calculated? then
      Some(NextFeedback(Run(f, es[..i]), es[i].target, es[i].now, es[i].deviation))
    else None
  }

  /** No call from event `i` on has rescaled or rolled back. */
  ghost predicate Undisturbed(f: Feedback, es: seq<Event>, i: nat)
    requires i <= |es| && forall e :: e in es ==> Legal(e)
  {
    forall j :: i <= j < |es| && OutcomeAt(f, es, j).Some? ==>
                  var o := OutcomeAt(f, es, j).value;
                  !o.rolledBack && o.after.lastScale == Run(f, es[..j]).lastScale
  }

  lemma PrefixOutcome(f: Feedback, es: seq<Event>, n: nat, i: nat)
    requires i < n <= |es| && forall e :: e in es ==> Legal(e)
    ensures OutcomeAt(f, es[..n], i) == OutcomeAt(f, es, i)
  {
    assert es[..n][..i] == es[..i];
  }

  /** A call leaves the mark set only by scaling down, or by letting an earlier mark be. */
  lemma MarkAfterCall(f: Feedback, target: real, now: int, d: Deviation)
    requires NextFeedback(f, target, now, d).after.scaleDown
    ensures var o := NextFeedback(f, target, now, d);
            if o.scaledDown then o.after.lastScale == now
            else f.scaleDown && !o.rolledBack && o.after.lastScale == f.lastScale
  {
  }

  lemma UndisturbedExtends(f: Feedback, es: seq<Event>, i: nat)
    requires i < |es| && forall e :: e in es ==> Legal(e)
    requires Undisturbed(f, es[..|es| - 1], i)
    requires var last := OutcomeAt(f, es, |es| - 1);
             last.Some? ==> !last.value.rolledBack
                            && last.value.after.lastScale == Run(f, es[..|es| - 1]).lastScale
    ensures Undisturbed(f, es, i)
  {
    var n := |es| - 1;
    forall j | i <= j < n
      ensures OutcomeAt(f, es, j) == OutcomeAt(f, es[..n], j) && Run(f, es[..j]) == Run(f, es[..n][..j])
    {
      PrefixOutcome(f, es, n, j);
      assert es[..n][..j] == es[..j];
    }
  }

  /** If a run leaves the scale-down mark set, some call of it scaled down, and no call after
      that one has rescaled or rolled back. */
  lemma {:induction false} MarkHasOrigin(start: int, es: seq<Event>) returns (i: nat)
    requires forall e :: e in es ==> Legal(e)
    requires Run(Fresh(start), es).scaleDown
    ensures i < |es| && OutcomeAt(Fresh(start), es, i).Some? && OutcomeAt(Fresh(start), es, i).value.scaledDown
    ensures Undisturbed(Fresh(start), es, i + 1)
    ensures Run(Fresh(start), es).lastScale == es[i].now
  {
    var f, n := Fresh(start), |es| - 1;
    var front, e := es[..n], es[n];
    assert e in es;
    if e.Calculated? {
      MarkAfterCall(Run(f, front), e.target, e.now, e.deviation);
    }
    if e.Calculated? && OutcomeAt(f, es, n).value.scaledDown {
      i := n;
    } else {
      i := MarkHasOrigin(start, front);
      PrefixOutcome(f, es, n, i);
      UndisturbedExtends(f, es, i + 1);
    }
  }

  /** A rollback only ever undoes a scale-down: when a call rolls back after any run, the last
      rescaling of that run was a scale-down, and nothing has been rolled back since. */
  lemma RollbackUndoesScaleDown(start: int, es: seq<Event>, target: real, now: int, d: Deviation) returns (i: nat)
    requires forall e :: e in es ==> Legal(e)
    requires NextFeedback(Run(Fresh(start), es), target, now, d).rolledBack
    ensures i < |es| && OutcomeAt(Fresh(start), es, i).Some? && OutcomeAt(Fresh(start), es, i).value.scaledDown
    ensures Undisturbed(Fresh(start), es, i + 1)
  {
    i := MarkHasOrigin(start, es);
  }

  // ----- the object

  class CpuMetrics {
    var lastQuota: Word
    var currentQuota: Word
    var scaleDown: bool
    var margin: real
    var lastScaleTimestamp: int
    const usageHistory: FixLengthSample
    const throttledRateHistory: FixLengthSample

    ghost predicate Valid()
      reads this, usageHistory, throttledRateHistory
    {
      && usageHistory != throttledRateHistory
      && usageHistory.Valid() && usageHistory.maxLength == USAGE_WINDOW
      && throttledRateHistory.Valid() && throttledRateHistory.maxLength == THROTTLE_WINDOW
    }

    ghost function View(): Feedback
      reads this, usageHistory, throttledRateHistory
    {
      Feedback(lastQuota, currentQuota, scaleDown, margin, lastScaleTimestamp,
               usageHistory.values, throttledRateHistory.values)
    }

    constructor (now: int)
      ensures Valid() && fresh(usageHistory) && fresh(throttledRateHistory)
      ensures View() == Fresh(now) == Feedback(0, 0, false, 0.0, now, [], [])
    {
      lastQuota, currentQuota := 0, 0;
      scaleDown, margin := false, 0.0;
      lastScaleTimestamp := now;
      usageHistory := new FixLengthSample(USAGE_WINDOW);
      throttledRateHistory := new FixLengthSample(THROTTLE_WINDOW);
    }

    /** The two window updates at the top of a tick. Both arguments are differences of
        monotone kernel counters taken as `uint64`. */
    method Observe(throttled: Word, usageUsec: Word, durationUsec: int)
      requires Valid() && durationUsec > 0
      modifies usageHistory, throttledRateHistory
      ensures Valid()
      ensures View() == Observed(old(View()), throttled, usageUsec, durationUsec)
    {
      throttledRateHistory.Update(throttled as real);
      usageHistory.Update(usageUsec as real / durationUsec as real);
    }

    method FlushThrottled()
      requires Valid()
      modifies throttledRateHistory
      ensures Valid()
      ensures throttledRateHistory.values == Flushed(old(throttledRateHistory.values))
    {
      ghost var start := throttledRateHistory.history;
      for i := 0 to 10
        invariant Valid()
        invariant throttledRateHistory.history == start + Zeros(i)
      {
        throttledRateHistory.Update(0.0);
        assert Zeros(i + 1) == Zeros(i) + [0.0];
        assert start + Zeros(i) + [0.0] == start + Zeros(i + 1);
      }
      WindowRefinesHistory(start, THROTTLE_WINDOW, Zeros(10));
    }

    /** The rollback arm of `dynCalculateQuota` (lines 98-112). */
    method RollbackIfDue(throttleTarget: real) returns (quota: real, ghost fired: bool)
      requires Valid()
      modifies this, throttledRateHistory
      ensures Valid()
      ensures fired == RollbackDue(old(View()), throttleTarget)
      ensures View() == if fired then RolledBack(old(View()), throttleTarget) else old(View())
      ensures quota == if fired then 2.0 * Cores(lastQuota) - Cores(currentQuota) else Cores(currentQuota)
    {
      var throttledRate := throttledRateHistory.Mean();
      quota := Cores(currentQuota);
      fired := false;
      if throttledRate > 3.0 * throttleTarget && scaleDown {
        quota := 2.0 * Cores(lastQuota) - Cores(currentQuota);
        margin := margin + throttledRate - throttleTarget;
        FlushThrottled();
        scaleDown := false;
        fired := true;
      }
    }

    /** The once-a-second arm of `dynCalculateQuota` (lines 115-133), from the quota so far. */
    method Rescale(quota: real, throttleTarget: real, now: int, stdev: Deviation) returns (scaled: real)
      requires Valid()
      modifies this, throttledRateHistory
      ensures Valid()
      ensures View() == Rescaled(old(View()), quota, throttleTarget, now, stdev).after
      ensures scaled == Rescaled(old(View()), quota, throttleTarget, now, stdev).quota
    {
      var throttledRate := throttledRateHistory.Mean();
      var usageMax := usageHistory.Max();
      var oldMargin := margin;
      scaled := quota;
      margin := NewMargin(oldMargin, throttledRate, throttleTarget);
      scaleDown := false;
      if throttledRate > 3.0 * throttleTarget {
        scaled := Growth(Cores(currentQuota), throttledRate - 3.0 * throttleTarget);
      } else {
        var proposed := Proposed(usageMax, oldMargin, stdev, margin);
        if proposed.Spread? && proposed.value <= 0.9 * Cores(currentQuota) {
          scaled := MaxReal(0.5 * Cores(currentQuota), proposed.value);
          scaleDown := true;
        }
      }
      FlushThrottled();
      lastScaleTimestamp := now;
    }

    /** `dynCalculateQuota`. The clock reading and gonum's deviation come from outside;
        `wild` is what `uint64` makes of a value that does not fit. */
    method DynCalculateQuota(throttleTarget: real, now: int, stdev: Deviation, wild: Word)
      returns (result: Word)
      requires Valid()
      modifies this, throttledRateHistory
      ensures Valid()
      ensures View() == NextFeedback(old(View()), throttleTarget, now, stdev).after
      ensures var r := Returned(NextFeedback(old(View()), throttleTarget, now, stdev));
              result == if r < WORD then r else wild
    {
      var quota, fired := RollbackIfDue(throttleTarget);
      if now - lastScaleTimestamp >= NANOS_PER_SECOND {
        quota := Rescale(quota, throttleTarget, now, stdev);
      }
      quota := MaxReal(0.1, quota);
      result := ToWord(Ceil(quota * DEFAULT_CPU_PERIOD as real) as real, wild);
    }
  }
}

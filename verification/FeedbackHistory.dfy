/** The quota feedback of one pod's record over any number of ticks: it is a run of `Scaling` over
    exactly what the record has been fed. */
module FeedbackHistory {
  import opened Classifier
  import NodeTick
  import opened PodHistory
  import Sample
  import Scaling

  /** What the feedback goes through in one turn: the sample the turn takes, the quotas it reads
      back, the call if its arm makes one, and the quotas its update leaves. */
  function TurnEvents(m: Moment): seq<Scaling.Event>
    requires m.totals.cores >= 1
  {
    if !FeedsWindows(m) || After(m).metrics.None? then []
    else
      var v, left := m.view.value, After(m).metrics.value.cpu;
      var looked := Refreshed(v, m.before.metrics.value, m.before.cgroup.cpuMax).cpu;
      [Scaling.Sampled(v.throttled, v.usageUsec, v.sinceLastUsec),
       Scaling.QuotasMoved(looked.lastQuota, looked.currentQuota)]
      + Calls(m)
      + [Scaling.QuotasMoved(left.lastQuota, left.currentQuota)]
  }

  /** Only two arms recalculate, and always with throttle target zero. */
  function Calls(m: Moment): seq<Scaling.Event> {
    if TakenArm(m) in {Steady, Speeding}
    then [Scaling.Calculated(0.0, m.view.value.now, m.view.value.deviation)]
    else []
  }

  /** In the words of the labels: a turn that feeds the windows samples once, and it recalculates
      exactly when the pod is outside MIX, ready, and running or at full speed. */
  lemma WhenATurnRecalculates(m: Moment)
    requires Plausible(m) && FeedsWindows(m) && After(m).metrics.Some?
    ensures var v := m.view.value;
            && TurnEvents(m)[0] == Scaling.Sampled(v.throttled, v.usageUsec, v.sinceLastUsec)
            && (forall i :: 0 < i < |TurnEvents(m)| ==> !TurnEvents(m)[i].Sampled?)
            && ((exists e :: e in TurnEvents(m) && e.Calculated?) <==>
                  && !OwnMix(v) && IsReady(v) && (InState(v, "Ready-Running") || InState(v, "Ready-FullSpeed")))
  {
    SetInWords(m.view.value);
    ArmInWords(m.view.value);
    TextsDiffer();
    if TakenArm(m) in {Steady, Speeding} {
      assert TurnEvents(m)[2] == Scaling.Calculated(0.0, m.view.value.now, m.view.value.deviation);
    }
  }

  /** The quotas a turn reads back and leaves: as long as the record has no last quota the current
      one is the kernel's, or the largest number when that cannot be read; and a turn that acts
      leaves the current one as the last, and none. */
  lemma WhatQuotasATurnSees(m: Moment)
    requires Plausible(m) && FeedsWindows(m) && After(m).metrics.Some?
    ensures var v, es, cpu := m.view.value, TurnEvents(m), m.before.metrics.value.cpu;
            var current := if cpu.lastQuota != 0 then cpu.currentQuota
                           else if v.quotaReadable then m.before.cgroup.cpuMax
                           else 0xFFFF_FFFF_FFFF_FFFF;
            && |es| >= 3
            && es[1] == Scaling.QuotasMoved(cpu.lastQuota, current)
            && es[|es| - 1] == if ActedOn(m) then Scaling.QuotasMoved(current, 0)
                               else Scaling.QuotasMoved(cpu.lastQuota, current)
  {
    var d := Classify(m.view.value, m.before);
    ActionNeedsRecord(m.view.value, m.before);
    if ActedOn(m) {
      ActedQuota(m.before.(metrics := d.metrics), d.action.value, m.totals, m.fate);
    } else {
      UnactedQuota(m.view.value, m.before, m.totals, m.fate);
    }
  }

  ghost predicate AllLegal(es: seq<Scaling.Event>) {
    forall e :: e in es ==> Scaling.Legal(e)
  }

  /** Every call in the run has throttle target zero. */
  ghost predicate ZeroTarget(es: seq<Scaling.Event>) {
    forall e :: e in es && e.Calculated? ==> e.target == 0.0
  }

  lemma RunOfThree(f: Scaling.Feedback, a: Scaling.Event, b: Scaling.Event, calls: seq<Scaling.Event>, c: Scaling.Event)
    requires Scaling.Legal(a) && Scaling.Legal(b) && Scaling.Legal(c) && AllLegal(calls) && |calls| <= 1
    ensures AllLegal([a, b] + calls + [c])
    ensures var g := Scaling.Step(Scaling.Step(f, a), b);
            Scaling.Run(f, [a, b] + calls + [c])
            == Scaling.Step(if calls == [] then g else assert calls[0] in calls; Scaling.Step(g, calls[0]), c)
  {
    Scaling.RunExtends(f, [], a);
    Scaling.RunExtends(f, [a], b);
    assert [] + [a] == [a] && [a] + [b] == [a, b] && Scaling.Run(f, []) == f;
    if calls == [] {
      assert [a, b] + calls == [a, b];
    } else {
      assert calls == [calls[0]];
      Scaling.RunExtends(f, [a, b], calls[0]);
    }
    Scaling.RunExtends(f, [a, b] + calls, c);
  }

  /** The feedback a turn starts from: the record's, or that of the record it creates. */
  function FeedbackBefore(m: Moment): Scaling.Feedback {
    if m.before.metrics.Some? then m.before.metrics.value.cpu else Scaling.Fresh(Clock(m))
  }

  function Clock(m: Moment): int {
    if m.view.Some? then m.view.value.now else 0
  }

  lemma ActedFeedback(tr: Track, a: UpdateAction, t: NodeTick.Totals, f: NodeTick.Fate)
    requires t.cores >= 1 && tr.metrics.Some?
    ensures var g := NodeTick.Acted(tr, a, t, f).metrics;
            && g.Some? && g.value.exist == tr.metrics.value.exist
            && g.value.cpu == tr.metrics.value.cpu.(lastQuota := g.value.cpu.lastQuota,
                                                    currentQuota := g.value.cpu.currentQuota)
  {
  }

  /** What a turn makes of the feedback, before and after the quotas its update leaves. */
  lemma FeedbackMoves(m: Moment)
    requires Plausible(m) && m.view.Some? && !m.missed && After(m).metrics.Some?
    ensures var left := After(m).metrics.value.cpu;
            if FeedsWindows(m) then
              var looked := Refreshed(m.view.value, m.before.metrics.value, m.before.cgroup.cpuMax).cpu;
              left == Recalculated(TakenArm(m), m.view.value, looked)
                        .(lastQuota := left.lastQuota, currentQuota := left.currentQuota)
            else left == FeedbackBefore(m)
  {
    var d := Classify(m.view.value, m.before);
    ActionNeedsRecord(m.view.value, m.before);
    if d.action.Some? {
      ActedFeedback(m.before.(metrics := d.metrics), d.action.value, m.totals, m.fate);
    }
  }

  /** The run over one turn's events, in terms of what the turn reads and leaves. */
  lemma FedRun(m: Moment)
    requires m.totals.cores >= 1 && FeedsWindows(m) && After(m).metrics.Some?
    ensures AllLegal(TurnEvents(m)) && ZeroTarget(TurnEvents(m))
    ensures var left := After(m).metrics.value.cpu;
            var looked := Refreshed(m.view.value, m.before.metrics.value, m.before.cgroup.cpuMax).cpu;
            Scaling.Run(FeedbackBefore(m), TurnEvents(m))
            == Recalculated(TakenArm(m), m.view.value, looked)
                 .(lastQuota := left.lastQuota, currentQuota := left.currentQuota)
  {
    var v, left := m.view.value, After(m).metrics.value.cpu;
    var looked := Refreshed(v, m.before.metrics.value, m.before.cgroup.cpuMax).cpu;
    RunOfThree(FeedbackBefore(m), Scaling.Sampled(v.throttled, v.usageUsec, v.sinceLastUsec),
               Scaling.QuotasMoved(looked.lastQuota, looked.currentQuota), Calls(m),
               Scaling.QuotasMoved(left.lastQuota, left.currentQuota));
  }

  /** One turn runs the feedback through its events. */
  lemma TurnRunsFeedback(m: Moment)
    requires Plausible(m) && After(m).metrics.Some?
    ensures AllLegal(TurnEvents(m)) && ZeroTarget(TurnEvents(m))
    ensures After(m).metrics.value.cpu == Scaling.Run(FeedbackBefore(m), TurnEvents(m))
  {
    if !m.missed && m.view.Some? {
      FeedbackMoves(m);
      if FeedsWindows(m) {
        FedRun(m);
      }
    }
  }

  /** All a record has been through up to turn `n`, from the turn that created it. */
  ghost function Seen(h: seq<Moment>, n: nat): seq<Scaling.Event>
    requires IsHistory(h) && n < |h|
  {
    (if n > 0 && h[n].before.metrics.Some? then Seen(h, n - 1) else []) + TurnEvents(h[n])
  }

  /** The clock when the record of turn `n` was created. */
  ghost function Born(h: seq<Moment>, n: nat): int
    requires IsHistory(h) && n < |h|
  {
    if n > 0 && h[n].before.metrics.Some? then Born(h, n - 1) else Clock(h[n])
  }

  lemma {:induction false} SeenRunsFeedback(h: seq<Moment>, n: nat)
    requires IsHistory(h) && n < |h| && After(h[n]).metrics.Some?
    ensures AllLegal(Seen(h, n)) && ZeroTarget(Seen(h, n))
    ensures After(h[n]).metrics.value.cpu == Scaling.Run(Scaling.Fresh(Born(h, n)), Seen(h, n))
  {
    TurnRunsFeedback(h[n]);
    if n > 0 && h[n].before.metrics.Some? {
      assert Continues(h[n - 1], h[n]);
      SeenRunsFeedback(h, n - 1);
      Scaling.RunContinues(Scaling.Fresh(Born(h, n)), Seen(h, n - 1), TurnEvents(h[n]));
    } else {
      assert [] + TurnEvents(h[n]) == TurnEvents(h[n]);
    }
  }

  /** In every history the quota feedback of a record is the run of `Scaling`, from the moment the
      record was created, over exactly what its turns have fed it: everything proved of such runs
      holds of it. Its margin is the worst stretch of throttling the record has seen; and because
      the target is always zero, that stretch is the whole life of the record, so that the margin
      is the sum of all the excesses measured in it. */
  lemma FeedbackIsScalingRun(h: seq<Moment>, n: nat)
    requires IsHistory(h) && n < |h| && After(h[n]).metrics.Some?
    ensures AllLegal(Seen(h, n)) && ZeroTarget(Seen(h, n))
    ensures var start, cpu := Scaling.Fresh(Born(h, n)), After(h[n]).metrics.value.cpu;
            && cpu == Scaling.Run(start, Seen(h, n))
            && Scaling.WellFormed(cpu)
            && Scaling.IsLargestSuffixSum(cpu.margin, Scaling.Excesses(start, Seen(h, n)))
            && cpu.margin == Sample.SumOf(Scaling.Excesses(start, Seen(h, n)))
  {
    SeenRunsFeedback(h, n);
    Scaling.RunsStayWellFormed(Born(h, n), Seen(h, n));
    Scaling.MarginIsWorstStretch(Born(h, n), Seen(h, n));
    Scaling.MarginIsTotal(Born(h, n), Seen(h, n));
  }

  /** The margin of a record never comes down again. */
  lemma {:induction false} MarginNeverFalls(h: seq<Moment>, a: nat, n: nat)
    requires IsHistory(h) && a <= n < |h| && After(h[a]).metrics.Some? && After(h[n]).metrics.Some?
    requires forall i :: a < i <= n ==> h[i].before.metrics.Some?
    ensures After(h[a]).metrics.value.cpu.margin <= After(h[n]).metrics.value.cpu.margin
    decreases n - a
  {
    if a < n {
      assert Continues(h[n - 1], h[n]);
      MarginNeverFalls(h, a, n - 1);
      FeedbackIsScalingRun(h, n - 1);
      TurnRunsFeedback(h[n]);
      Scaling.ZeroTargetMarginGrows(h[n].before.metrics.value.cpu, TurnEvents(h[n]));
    }
  }
}

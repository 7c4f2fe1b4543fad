/** How many pods are active: no pass overshoots on current lists, exactly when one does on old
    lists, and why the label writes come to an end and where. */
module Convergence {
  import opened Options
  import opened SwiftLabels
  import opened LabelProtocol
  import opened ApiServer
  import opened DeploymentController

  /** The newest labels of every pod. */
  type Store = map<string, Labels>

  function Latest(h: Histories): (s: Store)
    requires Populated(h)
    ensures s.Keys == h.Keys
  {
    map k | k in h :: h[k][|h[k]| - 1]
  }

  function Those(s: Store, p: Labels -> bool): set<string> {
    set k | k in s && p(s[k])
  }

  function ActiveCount(s: Store): nat {
    |Those(s, Active)|
  }

  /** Pods waiting for their swiftlet: `runnable`, or `sleeping` and not done. */
  predicate Waiting(l: Labels) {
    Reaction(l) != NoProcess
  }

  predicate Unlabelled(l: Labels) {
    l.state == NoState
  }

  predicate Eligible(l: Labels) {
    !l.state.Foreign?
  }

  predicate IsSleeping(l: Labels) {
    l.state == Sleeping
  }

  function Distance(a: int, b: int): nat {
    if a <= b then b - a else a - b
  }

  /** The distance from rest: every label write brings it down. */
  function Measure(s: Store, desired: int): nat {
    2 * Distance(ActiveCount(s), desired) + |Those(s, Waiting)| + 3 * |Those(s, Unlabelled)|
  }

  // ----- single writes on current labels

  /** A successful label write: a controller's command or a swiftlet's publication. */
  datatype LabelWrite = Commanding(command: Command, pod: string) | Publishing(pod: string)

  /** When a party that sees the current labels may make a write: the controller suspends only
      above the desired count and activates only below it. */
  predicate Permitted(s: Store, w: LabelWrite, desired: int) {
    w.pod in s &&
    match w
    case Commanding(Adopt, k) => Applies(Adopt, s[k])
    case Commanding(Suspend, k) => Applies(Suspend, s[k]) && ActiveCount(s) > desired
    case Commanding(Activate, k) => Applies(Activate, s[k]) && ActiveCount(s) < desired
    case Publishing(k) => Waiting(s[k])
  }

  function Performed(s: Store, w: LabelWrite): Store
    requires w.pod in s
  {
    s[w.pod := if w.Commanding? then Commanded(w.command, s[w.pod]) else Published(s[w.pod])]
  }

  lemma PutCounts(s: Store, k: string, l: Labels, p: Labels -> bool)
    requires k in s
    ensures |Those(s[k := l], p)| == |Those(s, p)| - (if p(s[k]) then 1 else 0) + (if p(l) then 1 else 0)
  {
    assert Those(s[k := l], p) == if p(l) then Those(s, p) + {k} else Those(s, p) - {k};
  }

  /** Every permitted write brings the measure down. */
  lemma WriteDecreases(s: Store, w: LabelWrite, desired: int)
    requires Permitted(s, w, desired)
    ensures Measure(Performed(s, w), desired) < Measure(s, desired)
  {
    var l := Performed(s, w)[w.pod];
    PutCounts(s, w.pod, l, Active);
    PutCounts(s, w.pod, l, Waiting);
    PutCounts(s, w.pod, l, Unlabelled);
  }

  ghost predicate PermittedRun(s: Store, ws: seq<LabelWrite>, desired: int)
    decreases |ws|
  {
    ws != [] ==> Permitted(s, ws[0], desired) && PermittedRun(Performed(s, ws[0]), ws[1..], desired)
  }

  function AfterRun(s: Store, ws: seq<LabelWrite>): Store
    decreases |ws|
  {
    if ws == [] || ws[0].pod !in s then s else AfterRun(Performed(s, ws[0]), ws[1..])
  }

  /** However the parties take turns, there are no more writes than the measure was at first. */
  lemma {:induction false} RunsAreShort(s: Store, ws: seq<LabelWrite>, desired: int)
    requires PermittedRun(s, ws, desired)
    ensures |ws| + Measure(AfterRun(s, ws), desired) <= Measure(s, desired)
    decreases |ws|
  {
    if ws != [] {
      WriteDecreases(s, ws[0], desired);
      RunsAreShort(Performed(s, ws[0]), ws[1..], desired);
    }
  }

  ghost predicate Quiet(s: Store, desired: int) {
    forall w :: !Permitted(s, w, desired)
  }

  function Clamp(desired: int, most: nat): nat {
    if desired < 0 then 0 else if desired < most then desired else most
  }

  ghost predicate AtRest(s: Store) {
    forall k :: k in s ==> s[k].state == Running || Asleep(s[k]) || s[k].state.Foreign?
  }

  lemma EligibleSplits(s: Store)
    requires forall k :: k in s ==> s[k].state != NoState
    ensures |Those(s, Eligible)| == ActiveCount(s) + |Those(s, IsSleeping)|
  {
    assert Those(s, Eligible) == Those(s, Active) + Those(s, IsSleeping);
  }

  lemma QuietIsAtRest(s: Store, desired: int)
    requires Quiet(s, desired)
    ensures AtRest(s)
  {
    forall k | k in s
      ensures s[k].state == Running || Asleep(s[k]) || s[k].state.Foreign?
    {
      assert !Permitted(s, Publishing(k), desired);
      assert !Permitted(s, Commanding(Adopt, k), desired);
    }
  }

  /** Where no write is possible any more: exactly when every pod is `running` or fully asleep,
      apart from pods whose state label is none of the controller's, and as many are active as
      desired, or all there are. */
  lemma QuietIsConverged(s: Store, desired: int)
    ensures Quiet(s, desired) <==> AtRest(s) && ActiveCount(s) == Clamp(desired, |Those(s, Eligible)|)
  {
    if Quiet(s, desired) {
      QuietIsAtRest(s, desired);
      EligibleSplits(s);
      if ActiveCount(s) > desired && ActiveCount(s) > 0 {
        var k :| k in Those(s, Active);
        assert Permitted(s, Commanding(Suspend, k), desired);
      }
      if ActiveCount(s) < desired && |Those(s, IsSleeping)| > 0 {
        var k :| k in Those(s, IsSleeping);
        assert Permitted(s, Commanding(Activate, k), desired);
      }
    }
    if AtRest(s) && ActiveCount(s) == Clamp(desired, |Those(s, Eligible)|) {
      EligibleSplits(s);
      forall w: LabelWrite | w.pod in s
        ensures !Permitted(s, w, desired)
      {
        assert Active(s[w.pod]) ==> w.pod in Those(s, Active);
        assert IsSleeping(s[w.pod]) ==> w.pod in Those(s, IsSleeping);
      }
    }
  }

  /** No permitted write makes a pod's state label foreign, or takes that away. */
  lemma WriteKeepsEligible(s: Store, w: LabelWrite, desired: int)
    requires Permitted(s, w, desired)
    ensures Those(Performed(s, w), Eligible) == Those(s, Eligible)
  {
    assert Eligible(s[w.pod]) && Eligible(Performed(s, w)[w.pod]);
  }

  lemma {:induction false} RunKeepsEligible(s: Store, ws: seq<LabelWrite>, desired: int)
    requires PermittedRun(s, ws, desired)
    ensures Those(AfterRun(s, ws), Eligible) == Those(s, Eligible)
    decreases |ws|
  {
    if ws != [] {
      WriteKeepsEligible(s, ws[0], desired);
      RunKeepsEligible(Performed(s, ws[0]), ws[1..], desired);
    }
  }

  /** However the parties take turns, when no write is possible any more the active count is the
      one that can be told from the start: the desired one, clamped to the pods whose state label
      is not foreign. */
  lemma RunsSettleCount(s: Store, ws: seq<LabelWrite>, desired: int)
    requires PermittedRun(s, ws, desired) && Quiet(AfterRun(s, ws), desired)
    ensures ActiveCount(AfterRun(s, ws)) == Clamp(desired, |Those(s, Eligible)|)
  {
    RunKeepsEligible(s, ws, desired);
    QuietIsConverged(AfterRun(s, ws), desired);
  }

  /** From every store and for every desired count there is such a run. */
  lemma {:induction false} RunsCanSettle(s: Store, desired: int) returns (ws: seq<LabelWrite>)
    ensures PermittedRun(s, ws, desired) && Quiet(AfterRun(s, ws), desired)
    decreases Measure(s, desired)
  {
    ws := [];
    if w :| Permitted(s, w, desired) {
      WriteDecreases(s, w, desired);
      var rest := RunsCanSettle(Performed(s, w), desired);
      ws := [w] + rest;
      assert ws[1..] == rest;
    }
  }

  // ----- batches

  function StoreAll(s: Store, c: Command, pods: seq<Pod>): Store {
    if pods == [] then s
    else
      var p := pods[|pods| - 1];
      var before := StoreAll(s, c, pods[..|pods| - 1]);
      if p.name in before then before[p.name := Commanded(c, before[p.name])] else before
  }

  /** The pods of a batch whose write takes effect: read at the newest version and not dropped. */
  function Accepted(h: Histories, pods: seq<Pod>, deliver: string -> Delivery): seq<Pod> {
    if pods == [] then []
    else
      var p := pods[|pods| - 1];
      var front := Accepted(h, pods[..|pods| - 1], deliver);
      if IsNewest(h, p) && deliver(p.name) != Dropped then front + [p] else front
  }

  lemma {:induction false} AcceptedMember(h: Histories, pods: seq<Pod>, deliver: string -> Delivery)
    ensures |Accepted(h, pods, deliver)| <= |pods|
    ensures forall p :: p in Accepted(h, pods, deliver) <==> p in pods && IsNewest(h, p) && deliver(p.name) != Dropped
    ensures UniqueNames(pods) ==> UniqueNames(Accepted(h, pods, deliver))
  {
    if pods != [] {
      var front, p := pods[..|pods| - 1], pods[|pods| - 1];
      AcceptedMember(h, front, deliver);
      assert pods == front + [p];
    }
  }

  lemma {:induction false} WritesKeepPopulated(h: Histories, c: Command, pods: seq<Pod>, deliver: string -> Delivery)
    requires Populated(h)
    ensures Populated(WriteAll(h, c, pods, deliver)) && WriteAll(h, c, pods, deliver).Keys == h.Keys
  {
    if pods != [] {
      WritesKeepPopulated(h, c, pods[..|pods| - 1], deliver);
    }
  }

  lemma LatestAfterUpdate(h: Histories, p: Pod, d: Delivery)
    requires Populated(h) && p.name in h
    ensures Populated(Updated(h, p, d))
    ensures Latest(Updated(h, p, d))
         == if p.version == |h[p.name]| - 1 && d != Dropped then Latest(h)[p.name := p.labels] else Latest(h)
  {
    assert Updated(h, p, d)[p.name] == Commit(h[p.name], WriteOf(p), d);
  }

  lemma LatestAfterCommand(h: Histories, before: Histories, c: Command, p: Pod, d: Delivery)
    requires Populated(before) && p.name in before && IsVersion(h, p) && before[p.name] == h[p.name]
    ensures var after := Updated(before, CopyFor(c, p), d);
            && Populated(after)
            && Latest(after) == if IsNewest(h, p) && d != Dropped
                                then Latest(before)[p.name := Commanded(c, Latest(before)[p.name])]
                                else Latest(before)
  {
    LatestAfterUpdate(before, CopyFor(c, p), d);
  }

  lemma AcceptedStep(h: Histories, pods: seq<Pod>, deliver: string -> Delivery, s: Store, c: Command)
    requires pods != []
    ensures var p, front := pods[|pods| - 1], pods[..|pods| - 1];
            var before := StoreAll(s, c, Accepted(h, front, deliver));
            StoreAll(s, c, Accepted(h, pods, deliver))
            == if IsNewest(h, p) && deliver(p.name) != Dropped && p.name in before
               then before[p.name := Commanded(c, before[p.name])] else before
  {
    var p, front := pods[|pods| - 1], pods[..|pods| - 1];
    var accepted := Accepted(h, front, deliver) + [p];
    assert accepted[..|accepted| - 1] == Accepted(h, front, deliver);
  }

  /** The effect of a batch on the newest labels is that of its accepted writes. */
  lemma {:induction false} LatestAfterWrites(h: Histories, c: Command, pods: seq<Pod>, deliver: string -> Delivery)
    requires Populated(h) && UniqueNames(pods) && forall p :: p in pods ==> IsVersion(h, p)
    ensures Populated(WriteAll(h, c, pods, deliver))
    ensures Latest(WriteAll(h, c, pods, deliver)) == StoreAll(Latest(h), c, Accepted(h, pods, deliver))
  {
    WritesKeepPopulated(h, c, pods, deliver);
    if pods != [] {
      var front, p := pods[..|pods| - 1], pods[|pods| - 1];
      assert forall q :: q in front ==> q in pods;
      LatestAfterWrites(h, c, front, deliver);
      WritesProject(h, c, front, deliver, p.name);
      NamedMember(front, p.name);
      assert p in pods;
      LatestAfterCommand(h, WriteAll(h, c, front, deliver), c, p, deliver(p.name));
      AcceptedStep(h, pods, deliver, Latest(h), c);
    }
  }

  /** `pods` are distinct pods of `s`, shown with their current labels, for which `c` is meant. */
  ghost predicate Shown(s: Store, c: Command, pods: seq<Pod>) {
    UniqueNames(pods) && forall p :: p in pods ==> p.name in s && s[p.name] == p.labels && Applies(c, p.labels)
  }

  lemma {:induction false} StoreAllProjects(s: Store, c: Command, pods: seq<Pod>, k: string)
    requires UniqueNames(pods)
    ensures StoreAll(s, c, pods).Keys == s.Keys
    ensures k in s ==> StoreAll(s, c, pods)[k] == if Named(pods, k).Some? then Commanded(c, s[k]) else s[k]
  {
    if pods != [] {
      StoreAllProjects(s, c, pods[..|pods| - 1], k);
      NamedMember(pods[..|pods| - 1], k);
    }
  }

  /** The active count after a batch of suspensions or activations. */
  lemma {:induction false} BatchCounts(s: Store, c: Command, pods: seq<Pod>)
    requires Shown(s, c, pods) && c != Adopt
    ensures ActiveCount(StoreAll(s, c, pods)) == ActiveCount(s) + if c == Activate then |pods| else -|pods|
  {
    if pods != [] {
      var front, p := pods[..|pods| - 1], pods[|pods| - 1];
      assert forall q :: q in front ==> q in pods;
      BatchCounts(s, c, front);
      StoreAllProjects(s, c, front, p.name);
      NamedMember(front, p.name);
      assert p in pods;
      PutCounts(StoreAll(s, c, front), p.name, Commanded(c, p.labels), Active);
    }
  }

  lemma {:induction false} RunExtends(s: Store, ws: seq<LabelWrite>, w: LabelWrite, desired: int)
    requires PermittedRun(s, ws, desired) && Permitted(AfterRun(s, ws), w, desired)
    ensures PermittedRun(s, ws + [w], desired)
    ensures AfterRun(s, ws + [w]) == Performed(AfterRun(s, ws), w)
    decreases |ws|
  {
    if ws != [] {
      RunExtends(Performed(s, ws[0]), ws[1..], w, desired);
      assert (ws + [w])[1..] == ws[1..] + [w];
    }
  }

  /** A batch no longer than the gap is a run of permitted writes: no write in it is made at or
      beyond the desired count. */
  lemma {:induction false} BatchIsPermittedRun(s: Store, c: Command, pods: seq<Pod>, desired: int)
    returns (ws: seq<LabelWrite>)
    requires Shown(s, c, pods)
    requires c == Suspend ==> |pods| <= ActiveCount(s) - desired
    requires c == Activate ==> |pods| <= desired - ActiveCount(s)
    ensures |ws| == |pods| && PermittedRun(s, ws, desired) && AfterRun(s, ws) == StoreAll(s, c, pods)
  {
    ws := [];
    if pods != [] {
      var front, p := pods[..|pods| - 1], pods[|pods| - 1];
      assert forall q :: q in front ==> q in pods;
      ws := BatchIsPermittedRun(s, c, front, desired);
      if c != Adopt {
        BatchCounts(s, c, front);
      }
      StoreAllProjects(s, c, front, p.name);
      NamedMember(front, p.name);
      assert p in pods;
      RunExtends(s, ws, Commanding(c, p.name), desired);
      ws := ws + [Commanding(c, p.name)];
    }
  }

  // ----- a pass of syncRunningPod

  /** A list that shows every pod once, at its newest version. */
  ghost predicate IsCurrent(h: Histories, pods: seq<Pod>) {
    && UniqueNames(pods)
    && (forall p :: p in pods ==> IsNewest(h, p))
    && (forall k :: k in h ==> Named(pods, k).Some?)
  }

  function Names(pods: seq<Pod>): set<string> {
    set p | p in pods :: p.name
  }

  lemma {:induction false} DistinctNames(pods: seq<Pod>)
    requires UniqueNames(pods)
    ensures |Names(pods)| == |pods|
  {
    if pods != [] {
      var front, p := pods[..|pods| - 1], pods[|pods| - 1];
      DistinctNames(front);
      assert pods == front + [p];
      assert Names(pods) == Names(front) + {p.name};
      assert forall q :: q in front ==> q.name != p.name;
    }
  }

  lemma SelectionIsShown(h: Histories, c: Command, pods: seq<Pod>)
    requires Populated(h) && IsCurrent(h, pods)
    ensures Shown(Latest(h), c, Select(c, pods))
  {
    SelectionKeepsUnique(c, pods);
  }

  lemma SelectionNames(h: Histories, c: Command, pods: seq<Pod>, p: Labels -> bool)
    requires Populated(h) && IsCurrent(h, pods) && forall l :: p(l) <==> Applies(c, l)
    ensures Names(Select(c, pods)) == Those(Latest(h), p)
  {
    forall k | k in Those(Latest(h), p)
      ensures k in Names(Select(c, pods))
    {
      NamedMember(pods, k);
      assert Named(pods, k).value in Select(c, pods);
    }
    forall k | k in Names(Select(c, pods))
      ensures k in Those(Latest(h), p)
    {
      var q :| q in Select(c, pods) && q.name == k;
      assert IsNewest(h, q);
    }
  }

  /** On a current list the selected pods are the pods the command is for, each once. */
  lemma SelectionCounts(h: Histories, c: Command, pods: seq<Pod>, p: Labels -> bool)
    requires Populated(h) && IsCurrent(h, pods) && forall l :: p(l) <==> Applies(c, l)
    ensures |Select(c, pods)| == |Those(Latest(h), p)|
    ensures Shown(Latest(h), c, Select(c, pods))
  {
    SelectionIsShown(h, c, pods);
    SelectionNames(h, c, pods, p);
    DistinctNames(Select(c, pods));
  }

  lemma ShownPart(s: Store, c: Command, pods: seq<Pod>, part: seq<Pod>)
    requires Shown(s, c, pods) && UniqueNames(part) && forall p :: p in part ==> p in pods
    ensures Shown(s, c, part)
  {
  }

  /** What a pass plans on current lists: never more than the gap, all of it when there are
      enough pods. */
  lemma PlanFitsGap(h: Histories, forRunning: seq<Pod>, forSleeping: seq<Pod>, desired: int)
    requires Populated(h) && IsCurrent(h, forRunning) && IsCurrent(h, forSleeping)
    ensures var plan, s := SyncPlan(forRunning, forSleeping, desired), Latest(h);
            && Shown(s, plan.command, plan.pods)
            && (forall p :: p in plan.pods ==> IsNewest(h, p))
            && (ActiveCount(s) > desired ==>
                  plan.command == Suspend && |plan.pods| == ActiveCount(s) - Clamp(desired, ActiveCount(s)))
            && (ActiveCount(s) < desired ==>
                  plan.command == Activate
                  && |plan.pods| == Clamp(desired - ActiveCount(s), |Those(s, IsSleeping)|))
            && (ActiveCount(s) == desired ==> plan.pods == [])
  {
    var plan, s := SyncPlan(forRunning, forSleeping, desired), Latest(h);
    SelectionCounts(h, Suspend, forRunning, Active);
    SelectionCounts(h, Activate, forSleeping, IsSleeping);
    var from := if ActiveCount(s) > desired then Select(Suspend, forRunning) else Select(Activate, forSleeping);
    if ActiveCount(s) != desired {
      assert plan.pods <= from;
      ShownPart(s, plan.command, from, plan.pods);
    }
  }

  function PassResult(h: Histories, forRunning: seq<Pod>, forSleeping: seq<Pod>, desired: int,
                      deliver: string -> Delivery): Histories {
    var plan := SyncPlan(forRunning, forSleeping, desired);
    WriteAll(h, plan.command, plan.pods, deliver)
  }

  /** A pass on current lists never overshoots, whichever of its writes are lost: it moves the
      active count towards the desired one and not past it, and touches only the pods it
      selected. It is a run of permitted writes, so it brings the measure down by at least one
      for every write that got through. */
  lemma SyncNeverOvershoots(h: Histories, forRunning: seq<Pod>, forSleeping: seq<Pod>, desired: int,
                            deliver: string -> Delivery)
    returns (ws: seq<LabelWrite>)
    requires Populated(h) && IsCurrent(h, forRunning) && IsCurrent(h, forSleeping)
    ensures var after := PassResult(h, forRunning, forSleeping, desired, deliver);
            && Populated(after) && after.Keys == h.Keys
            && var s, t := Latest(h), Latest(after);
               && (ActiveCount(s) >= desired ==> desired <= ActiveCount(t) <= ActiveCount(s))
               && (ActiveCount(s) <= desired ==> ActiveCount(s) <= ActiveCount(t) <= desired)
               && (forall k :: k in h && Named(SyncPlan(forRunning, forSleeping, desired).pods, k).None? ==>
                     t[k] == s[k])
               && PermittedRun(s, ws, desired) && t == AfterRun(s, ws)
  {
    var plan, s := SyncPlan(forRunning, forSleeping, desired), Latest(h);
    var accepted := Accepted(h, plan.pods, deliver);
    PlanFitsGap(h, forRunning, forSleeping, desired);
    AcceptedMember(h, plan.pods, deliver);
    LatestAfterWrites(h, plan.command, plan.pods, deliver);
    ShownPart(s, plan.command, plan.pods, accepted);
    if plan.command != Adopt {
      BatchCounts(s, plan.command, accepted);
    }
    ws := BatchIsPermittedRun(s, plan.command, accepted, desired);
    UnselectedAreKept(s, plan.command, accepted, plan.pods);
    WritesKeepPopulated(h, plan.command, plan.pods, deliver);
  }

  lemma UnselectedAreKept(s: Store, c: Command, accepted: seq<Pod>, pods: seq<Pod>)
    requires UniqueNames(accepted) && forall p :: p in accepted ==> p in pods
    ensures forall k :: k in s && Named(pods, k).None? ==>
              k in StoreAll(s, c, accepted) && StoreAll(s, c, accepted)[k] == s[k]
  {
    forall k | k in s && Named(pods, k).None?
      ensures k in StoreAll(s, c, accepted) && StoreAll(s, c, accepted)[k] == s[k]
    {
      StoreAllProjects(s, c, accepted, k);
      NamedMember(pods, k);
      NamedMember(accepted, k);
    }
  }

  lemma {:induction false} AllAccepted(h: Histories, pods: seq<Pod>, deliver: string -> Delivery)
    requires forall p :: p in pods ==> IsNewest(h, p) && deliver(p.name) != Dropped
    ensures Accepted(h, pods, deliver) == pods
  {
    if pods != [] {
      var front, p := pods[..|pods| - 1], pods[|pods| - 1];
      assert forall q :: q in front ==> q in pods;
      assert p in pods;
      AllAccepted(h, front, deliver);
      assert pods == front + [p];
    }
  }

  /** When no write is lost, one pass reaches the desired count or uses up its pods, and the
      next pass, on any current lists, plans nothing. */
  lemma OnePassSuffices(h: Histories, forRunning: seq<Pod>, forSleeping: seq<Pod>, desired: int,
                        deliver: string -> Delivery, nextRunning: seq<Pod>, nextSleeping: seq<Pod>)
    requires Populated(h) && IsCurrent(h, forRunning) && IsCurrent(h, forSleeping)
    requires forall k :: deliver(k) != Dropped
    requires var after := PassResult(h, forRunning, forSleeping, desired, deliver);
             IsCurrent(after, nextRunning) && IsCurrent(after, nextSleeping)
    ensures var after := PassResult(h, forRunning, forSleeping, desired, deliver);
            && Populated(after)
            && ActiveCount(Latest(after)) == Clamp(desired, ActiveCount(Latest(h)) + |Those(Latest(h), IsSleeping)|)
            && SyncPlan(nextRunning, nextSleeping, desired).pods == []
  {
    var plan, s := SyncPlan(forRunning, forSleeping, desired), Latest(h);
    var after := PassResult(h, forRunning, forSleeping, desired, deliver);
    PlanFitsGap(h, forRunning, forSleeping, desired);
    AllAccepted(h, plan.pods, deliver);
    LatestAfterWrites(h, plan.command, plan.pods, deliver);
    BatchCounts(s, plan.command, plan.pods);
    if ActiveCount(s) < desired {
      SleepersAfterActivation(s, plan.pods);
    }
    PlanFitsGap(after, nextRunning, nextSleeping, desired);
  }

  lemma {:induction false} SleepersAfterActivation(s: Store, pods: seq<Pod>)
    requires Shown(s, Activate, pods)
    ensures |Those(StoreAll(s, Activate, pods), IsSleeping)| == |Those(s, IsSleeping)| - |pods|
  {
    if pods != [] {
      var front, p := pods[..|pods| - 1], pods[|pods| - 1];
      assert forall q :: q in front ==> q in pods;
      SleepersAfterActivation(s, front);
      StoreAllProjects(s, Activate, front, p.name);
      NamedMember(front, p.name);
      assert p in pods;
      PutCounts(StoreAll(s, Activate, front), p.name, Commanded(Activate, p.labels), IsSleeping);
    }
  }

  /** A pass on lists of any age changes the active count by the writes it makes from versions
      that are still the newest and that are not lost. */
  lemma PassMovesCount(h: Histories, forRunning: seq<Pod>, forSleeping: seq<Pod>, desired: int,
                       deliver: string -> Delivery)
    requires Populated(h) && UniqueNames(forRunning) && UniqueNames(forSleeping)
    requires forall p :: p in forRunning || p in forSleeping ==> IsVersion(h, p)
    ensures var plan := SyncPlan(forRunning, forSleeping, desired);
            var after := PassResult(h, forRunning, forSleeping, desired, deliver);
            var effective := |Accepted(h, plan.pods, deliver)|;
            && Populated(after)
            && ActiveCount(Latest(after))
               == ActiveCount(Latest(h)) + if plan.command == Activate then effective else -effective
  {
    var plan, s := SyncPlan(forRunning, forSleeping, desired), Latest(h);
    PlanIsUnique(forRunning, forSleeping, desired);
    PlanIsDrawnFromLists(forRunning, forSleeping, desired);
    LatestAfterWrites(h, plan.command, plan.pods, deliver);
    AcceptedMember(h, plan.pods, deliver);
    BatchCounts(s, plan.command, Accepted(h, plan.pods, deliver));
  }

  /** A pass that suspends to below the desired count, or activates to above it. */
  ghost predicate Overshoots(h: Histories, forRunning: seq<Pod>, forSleeping: seq<Pod>, desired: int,
                             deliver: string -> Delivery)
    requires Populated(h)
  {
    var plan := SyncPlan(forRunning, forSleeping, desired);
    WritesKeepPopulated(h, plan.command, plan.pods, deliver);
    var before := ActiveCount(Latest(h));
    var now := ActiveCount(Latest(PassResult(h, forRunning, forSleeping, desired, deliver)));
    (now < before && now < desired) || (now > before && now > desired)
  }

  /** The pods of a list that are still at the version it shows. */
  function UpToDate(h: Histories, pods: seq<Pod>): seq<Pod> {
    Accepted(h, pods, _ => Delivered)
  }

  lemma {:induction false} AcceptedIsUpToDate(h: Histories, pods: seq<Pod>, deliver: string -> Delivery)
    ensures |Accepted(h, pods, deliver)| <= |UpToDate(h, pods)|
  {
    if pods != [] {
      AcceptedIsUpToDate(h, pods[..|pods| - 1], deliver);
    }
  }

  /** The distance still to go in the direction of a command, zero when there is none. */
  function Gap(c: Command, active: nat, desired: int): nat {
    match c
    case Suspend => if active > desired then active - desired else 0
    case _ => if active < desired then desired - active else 0
  }

  /** On lists of any age a pass can overshoot, whatever becomes of its writes, exactly when it
      plans more pods that are still at the version it has seen than the gap is now. */
  lemma WhenAPassOvershoots(h: Histories, forRunning: seq<Pod>, forSleeping: seq<Pod>, desired: int)
    requires Populated(h) && UniqueNames(forRunning) && UniqueNames(forSleeping)
    requires forall p :: p in forRunning || p in forSleeping ==> IsVersion(h, p)
    ensures var plan := SyncPlan(forRunning, forSleeping, desired);
            (exists deliver :: Overshoots(h, forRunning, forSleeping, desired, deliver))
            <==> |UpToDate(h, plan.pods)| > Gap(plan.command, ActiveCount(Latest(h)), desired)
  {
    var plan := SyncPlan(forRunning, forSleeping, desired);
    var all: string -> Delivery := _ => Delivered;
    PassMovesCount(h, forRunning, forSleeping, desired, all);
    AcceptedIsUpToDate(h, plan.pods, all);
    assert Accepted(h, plan.pods, all) == UpToDate(h, plan.pods) by {
      SameDeliveries(h, plan.pods, all, _ => Delivered);
    }
    if deliver :| Overshoots(h, forRunning, forSleeping, desired, deliver) {
      PassMovesCount(h, forRunning, forSleeping, desired, deliver);
      AcceptedIsUpToDate(h, plan.pods, deliver);
    }
    if |UpToDate(h, plan.pods)| > Gap(plan.command, ActiveCount(Latest(h)), desired) {
      assert Overshoots(h, forRunning, forSleeping, desired, all);
    }
  }

  lemma {:induction false} SameDeliveries(h: Histories, pods: seq<Pod>, d: string -> Delivery, e: string -> Delivery)
    requires forall k :: d(k) == e(k)
    ensures Accepted(h, pods, d) == Accepted(h, pods, e)
  {
    if pods != [] {
      SameDeliveries(h, pods[..|pods| - 1], d, e);
    }
  }

  function FirstVersion(name: string, l: Labels): Pod {
    Pod(name, "node", 0, l)
  }

  lemma FreshSuspension(h: Histories, p: Pod)
    requires Populated(h) && p.name in h && h[p.name] == [p.labels] && p.version == 0 && Active(p.labels)
    ensures var after := Updated(h, CopyFor(Suspend, p), Delivered);
            && after == h[p.name := [p.labels, Commanded(Suspend, p.labels)]]
            && Populated(after) && ActiveCount(Latest(after)) == ActiveCount(Latest(h)) - 1
  {
    assert Commit(h[p.name], WriteOf(CopyFor(Suspend, p)), Delivered) == [p.labels, Commanded(Suspend, p.labels)];
    LatestAfterUpdate(h, CopyFor(Suspend, p), Delivered);
    PutCounts(Latest(h), p.name, Commanded(Suspend, p.labels), Active);
  }

  lemma ThreeRun(l: Labels)
    requires l.state == Running
    ensures var h := map["a" := [l], "b" := [l], "c" := [l]];
            Populated(h) && ActiveCount(Latest(h)) == 3
  {
    var h := map["a" := [l], "b" := [l], "c" := [l]];
    assert "a"[0] == 'a' && "b"[0] == 'b' && "c"[0] == 'c';
    assert Those(Latest(h), Active) == {"a", "b", "c"};
  }

  /** And it happens: three pods run and two are wanted. A first pass, on a current list, suspends
      the first pod of its list. A second pass looks at the same versions in another order,
      suspends another pod, and leaves one active. */
  lemma StaleListOvershoots(l: Labels)
    requires l.state == Running
    ensures var a, b, c := FirstVersion("a", l), FirstVersion("b", l), FirstVersion("c", l);
            var h := map["a" := [l], "b" := [l], "c" := [l]];
            var once := PassResult(h, [a, b, c], [], 2, _ => Delivered);
            && Populated(once) && ActiveCount(Latest(once)) == 2
            && Overshoots(once, [b, a, c], [], 2, _ => Delivered)
  {
    var a, b, c := FirstVersion("a", l), FirstVersion("b", l), FirstVersion("c", l);
    var h := map["a" := [l], "b" := [l], "c" := [l]];
    ThreeRun(l);
    SuspendsFirst(h, a, b, c, _ => Delivered);
    FreshSuspension(h, a);
    SecondPassOvershoots(Updated(h, CopyFor(Suspend, a), Delivered), a, b, c);
  }

  lemma SecondPassOvershoots(h: Histories, a: Pod, b: Pod, c: Pod)
    requires Populated(h) && b.name in h && h[b.name] == [b.labels] && b.version == 0
    requires Active(a.labels) && Active(b.labels) && Active(c.labels) && ActiveCount(Latest(h)) == 2
    ensures Overshoots(h, [b, a, c], [], 2, _ => Delivered)
  {
    SuspendsFirst(h, b, a, c, _ => Delivered);
    FreshSuspension(h, b);
  }

  lemma SuspendsFirst(h: Histories, a: Pod, b: Pod, c: Pod, deliver: string -> Delivery)
    requires Active(a.labels) && Active(b.labels) && Active(c.labels)
    ensures PassResult(h, [a, b, c], [], 2, deliver) == Updated(h, CopyFor(Suspend, a), deliver(a.name))
  {
    SelectStep(Suspend, a, [b, c]);
    SelectPair(Suspend, b, c);
    assert [a] + [b, c] == [a, b, c] && [b] + [c] == [b, c];
    assert SyncPlan([a, b, c], [], 2) == Plan(Suspend, [a]) by {
      assert [a, b, c][..1] == [a];
    }
    OneWrite(h, Suspend, a, deliver);
  }

  lemma OneWrite(h: Histories, c: Command, p: Pod, deliver: string -> Delivery)
    ensures WriteAll(h, c, [p], deliver) == Updated(h, CopyFor(c, p), deliver(p.name))
  {
    assert [p][..0] == [];
  }

  /** The unclamped number shows in the count: after a lossless pass over labelled pods more than
      `replicas` pods are active exactly when more are asked for and that many were there before
      the pass, awake or asleep. */
  lemma SettledCountIgnoresReplicas(h: Histories, forRunning: seq<Pod>, forSleeping: seq<Pod>, desired: int,
                                    deliver: string -> Delivery, replicas: nat)
    requires Populated(h) && IsCurrent(h, forRunning) && IsCurrent(h, forSleeping)
    requires forall k :: deliver(k) != Dropped
    requires forall k :: k in h ==> Latest(h)[k].state != NoState
    ensures var after := PassResult(h, forRunning, forSleeping, desired, deliver);
            && Populated(after)
            && (ActiveCount(Latest(after)) > replicas
                <==> desired > replicas && |Those(Latest(h), Eligible)| > replicas)
  {
    SettledAfterPass(h, forRunning, forSleeping, desired, deliver);
  }

  // ----- the other two kinds of writes

  /** One more pod of the labelling loop: nothing, or one permitted write. */
  lemma AdoptionStep(h: Histories, before: Histories, p: Pod, d: Delivery, desired: int)
    requires Populated(before) && IsNewest(h, p) && p.name in before && before[p.name] == h[p.name]
    requires p.labels.state == NoState
    ensures var after, w := Updated(before, CopyFor(Adopt, p), d), Commanding(Adopt, p.name);
            && Populated(after) && after.Keys == before.Keys
            && (d == Dropped ==> after == before)
            && (d != Dropped ==> Permitted(Latest(before), w, desired) && Latest(after) == Performed(Latest(before), w))
            && (d != Dropped ==> after[p.name][|after[p.name]| - 1].state == Running)
  {
    LatestAfterCommand(h, before, Adopt, p, d);
    if d == Dropped {
      assert Updated(before, CopyFor(Adopt, p), d) == before;
    }
  }

  /** The labelling loop on a current list, failing anywhere, is a run of permitted writes too. */
  lemma {:induction false} AdoptionIsPermittedRun(h: Histories, pods: seq<Pod>, deliver: string -> Delivery,
                                                  desired: int)
    returns (ws: seq<LabelWrite>)
    requires Populated(h) && UniqueNames(pods) && forall p :: p in pods ==> IsNewest(h, p)
    ensures var after := Adopted(h, pods, deliver).0;
            && Populated(after) && after.Keys == h.Keys
            && (forall k :: k in h && Named(pods, k).None? ==> after[k] == h[k])
            && PermittedRun(Latest(h), ws, desired) && AfterRun(Latest(h), ws) == Latest(after)
  {
    ws := [];
    if pods != [] {
      var front, p := pods[..|pods| - 1], pods[|pods| - 1];
      assert p in pods && forall q :: q in front ==> q in pods;
      ws := AdoptionIsPermittedRun(h, front, deliver, desired);
      NamedMember(front, p.name);
      var (before, ok) := Adopted(h, front, deliver);
      if ok && p.labels.state == NoState {
        AdoptionStep(h, before, p, deliver(p.name), desired);
        if deliver(p.name) != Dropped {
          RunExtends(Latest(h), ws, Commanding(Adopt, p.name), desired);
          ws := ws + [Commanding(Adopt, p.name)];
        }
      }
    }
  }

  predicate LabelledIn(h: Histories, k: string) {
    k in h && h[k] != [] && h[k][|h[k]| - 1].state != NoState
  }

  /** When adoption reports success, no pod of the list is left without a state label. */
  lemma {:induction false} AdoptionLabelsAll(h: Histories, pods: seq<Pod>, deliver: string -> Delivery, k: string)
    requires Populated(h) && UniqueNames(pods) && forall p :: p in pods ==> IsNewest(h, p)
    requires Adopted(h, pods, deliver).1 && Named(pods, k).Some?
    ensures LabelledIn(Adopted(h, pods, deliver).0, k)
  {
    var front, p := pods[..|pods| - 1], pods[|pods| - 1];
    assert p in pods && forall q :: q in front ==> q in pods;
    if p.name == k {
      AdoptionLabelsLast(h, pods, deliver);
    } else {
      AdoptionLabelsAll(h, front, deliver, k);
    }
  }

  lemma AdoptionLabelsLast(h: Histories, pods: seq<Pod>, deliver: string -> Delivery)
    requires Populated(h) && UniqueNames(pods) && pods != [] && forall p :: p in pods ==> IsNewest(h, p)
    requires Adopted(h, pods, deliver).1
    ensures LabelledIn(Adopted(h, pods, deliver).0, pods[|pods| - 1].name)
  {
    var front, p := pods[..|pods| - 1], pods[|pods| - 1];
    assert p in pods && forall q :: q in front ==> q in pods;
    NamedMember(front, p.name);
    var ws := AdoptionIsPermittedRun(h, front, deliver, 0);
    if p.labels.state == NoState {
      AdoptionStep(h, Adopted(h, front, deliver).0, p, deliver(p.name), 0);
    }
  }

  lemma PassKeepsEligible(s: Store, c: Command, pods: seq<Pod>)
    requires UniqueNames(pods)
    requires forall p :: p in pods ==> p.name in s && s[p.name].state != NoState && Applies(c, s[p.name])
    ensures StoreAll(s, c, pods).Keys == s.Keys
    ensures Those(StoreAll(s, c, pods), Eligible) == Those(s, Eligible)
    ensures forall k :: k in s && s[k].state != NoState ==> StoreAll(s, c, pods)[k].state != NoState
  {
    StoreAllProjects(s, c, pods, "");
    forall k
      ensures k in s ==> (Eligible(StoreAll(s, c, pods)[k]) <==> Eligible(s[k]))
      ensures k in s && s[k].state != NoState ==> StoreAll(s, c, pods)[k].state != NoState
    {
      StoreAllProjects(s, c, pods, k);
      NamedMember(pods, k);
    }
  }

  lemma {:induction false} AdoptionSucceeds(h: Histories, pods: seq<Pod>, deliver: string -> Delivery)
    requires Populated(h) && UniqueNames(pods) && forall p :: p in pods ==> IsNewest(h, p)
    requires forall k :: deliver(k) == Delivered
    ensures Adopted(h, pods, deliver).1
  {
    if pods != [] {
      var front, p := pods[..|pods| - 1], pods[|pods| - 1];
      assert p in pods && forall q :: q in front ==> q in pods;
      AdoptionSucceeds(h, front, deliver);
      NamedMember(front, p.name);
      var ws := AdoptionIsPermittedRun(h, front, deliver, 0);
    }
  }

  /** One whole sync on current lists, with nothing lost or failing and all replicas available,
      labels every pod and brings the active count to the desired one, or as near as there are
      pods with no foreign state label. */
  lemma HandlerSettlesCount(h: Histories, r: Reading, deliver: string -> Delivery)
    requires Populated(h) && Adjusts(r) && forall k :: deliver(k) == Delivered
    requires r.allPods.Some? && IsCurrent(h, r.allPods.value)
    requires var adopted := Adopted(h, r.allPods.value, deliver).0;
             IsCurrent(adopted, r.forRunning.value) && IsCurrent(adopted, r.forSleeping.value)
    ensures var (after, ok) := Synced(h, r, deliver, deliver);
            && ok && Populated(after)
            && Those(Latest(after), Unlabelled) == {}
            && ActiveCount(Latest(after)) == Clamp(r.runningReplicas, |Those(Latest(h), Eligible)|)
  {
    var pods, desired := r.allPods.value, r.runningReplicas;
    var adopted := Adopted(h, pods, deliver).0;
    var ws := AdoptionIsPermittedRun(h, pods, deliver, desired);
    RunKeepsEligible(Latest(h), ws, desired);
    AdoptionSucceeds(h, pods, deliver);
    forall k | k in adopted
      ensures Latest(adopted)[k].state != NoState
    {
      AdoptionLabelsAll(h, pods, deliver, k);
    }
    SettledAfterPass(adopted, r.forRunning.value, r.forSleeping.value, desired, deliver);
  }

  lemma SettledAfterPass(h: Histories, forRunning: seq<Pod>, forSleeping: seq<Pod>, desired: int,
                         deliver: string -> Delivery)
    requires Populated(h) && IsCurrent(h, forRunning) && IsCurrent(h, forSleeping)
    requires forall k :: deliver(k) != Dropped
    requires forall k :: k in h ==> Latest(h)[k].state != NoState
    ensures var after := PassResult(h, forRunning, forSleeping, desired, deliver);
            && Populated(after)
            && Those(Latest(after), Unlabelled) == {}
            && ActiveCount(Latest(after)) == Clamp(desired, |Those(Latest(h), Eligible)|)
  {
    var plan, s := SyncPlan(forRunning, forSleeping, desired), Latest(h);
    PlanFitsGap(h, forRunning, forSleeping, desired);
    AllAccepted(h, plan.pods, deliver);
    LatestAfterWrites(h, plan.command, plan.pods, deliver);
    BatchCounts(s, plan.command, plan.pods);
    PassKeepsEligible(s, plan.command, plan.pods);
    EligibleSplits(s);
  }

  /** A swiftlet that starts on the newest version and gets its write through, with nobody
      writing in between, performs a permitted publication or has nothing to do. */
  lemma SwiftletPublishes(m: Machine, s: Store, k: string, desired: int, d: Delivery)
    requires Valid(m) && m.pending == None && m.cached == |m.history| - 1 && d != Dropped
    requires k in s && s[k] == Stored(m)
    ensures var after := Step(Step(m, SwiftletStarts), SwiftletFinishes(d));
            if Waiting(s[k])
            then Permitted(s, Publishing(k), desired) && Performed(s, Publishing(k)) == s[k := Stored(after)]
            else after == m
  {
  }
}

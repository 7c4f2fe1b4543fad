/** The SwiftDeployment controller's dealings with pod labels
    (pkg/controller/swiftdeployment/swiftdeployment_controller.go:373-454). Pod lists come from
    an informer: in any order and possibly out of date. */
module DeploymentController {
  import opened Options
  import opened SwiftLabels
  import opened LabelProtocol
  import opened ApiServer
  import Strategy

  /** The pods of a list that a command is for, in list order: the selector behind
      `getRunningPodsFromDeployment` for `Suspend`, `getSleepingPodsFromDeployment` for `Activate`. */
  function Select(c: Command, pods: seq<Pod>): (r: seq<Pod>)
    ensures forall p :: p in r <==> p in pods && Applies(c, p.labels)
  {
    if pods == [] then []
    else if Applies(c, pods[0].labels) then [pods[0]] + Select(c, pods[1..]) else Select(c, pods[1..])
  }

  /** The copy of a pod that a command writes back. */
  function CopyFor(c: Command, p: Pod): Pod {
    p.(labels := Commanded(c, p.labels))
  }

  function WriteAll(h: Histories, c: Command, pods: seq<Pod>, deliver: string -> Delivery): Histories {
    if pods == [] then h
    else
      var p := pods[|pods| - 1];
      Updated(WriteAll(h, c, pods[..|pods| - 1], deliver), CopyFor(c, p), deliver(p.name))
  }

  /** What one pass of `syncRunningPod` decides to do. */
  datatype Plan = Plan(command: Command, pods: seq<Pod>)

  function SyncPlan(forRunning: seq<Pod>, forSleeping: seq<Pod>, runningReplicas: int): Plan {
    var r, s := Select(Suspend, forRunning), Select(Activate, forSleeping);
    if |r| > runningReplicas then Plan(Suspend, Strategy.InOrder(r, |r| - runningReplicas))
    else if |r| < runningReplicas then Plan(Activate, Strategy.InOrder(s, runningReplicas - |r|))
    else Plan(Suspend, [])
  }

  /** The labelling loop: pods without a state label, up to and including the first failure. */
  function Adopted(h: Histories, pods: seq<Pod>, deliver: string -> Delivery): (Histories, bool) {
    if pods == [] then (h, true)
    else
      var p := pods[|pods| - 1];
      var (before, ok) := Adopted(h, pods[..|pods| - 1], deliver);
      if !ok || p.labels.state != NoState then (before, ok)
      else
        (Updated(before, CopyFor(Adopt, p), deliver(p.name)),
         p.name in before && p.version == |before[p.name]| - 1 && deliver(p.name) == Delivered)
  }

  lemma {:induction false} FailureEndsAdoption(h: Histories, pods: seq<Pod>, deliver: string -> Delivery, i: nat)
    requires i <= |pods| && !Adopted(h, pods[..i], deliver).1
    ensures Adopted(h, pods, deliver) == Adopted(h, pods[..i], deliver)
    decreases |pods| - i
  {
    if i == |pods| {
      assert pods[..i] == pods;
    } else {
      assert pods[..i + 1][..i] == pods[..i];
      FailureEndsAdoption(h, pods, deliver, i + 1);
    }
  }

  /** The two numbers of a Deployment that a sync looks at. */
  datatype Deployment = Deployment(replicas: int, available: int)

  /** What one sync of a SwiftDeployment reads: the two numbers asked for, the deployment, the
      deployment that an update of it returns, and the results of its three pod lists. An update or
      list that fails yields nothing. */
  datatype Reading = Reading(
    replicas: int,
    runningReplicas: int,
    deployment: Deployment,
    updated: Option<Deployment>,
    allPods: Option<seq<Pod>>,
    forRunning: Option<seq<Pod>>,
    forSleeping: Option<seq<Pod>>)

  /** Lines 390-403: the deployment a sync goes on with, updated first if it is not as asked. */
  function Adjusted(r: Reading): Option<Deployment> {
    if r.replicas != r.deployment.replicas then r.updated else Some(r.deployment)
  }

  /** Whether a sync that has adopted its pods goes on to adjust the active ones. */
  predicate Adjusts(r: Reading) {
    Adjusted(r).Some? && Adjusted(r).value.available == Adjusted(r).value.replicas
    && r.forRunning.Some? && r.forSleeping.Some?
  }

  /** What a sync does to the pods, and whether it gets as far as the status update. */
  function Synced(h: Histories, r: Reading, deliverAdoption: string -> Delivery,
                  deliverSync: string -> Delivery): (Histories, bool)
  {
    if r.allPods.None? then (h, false)
    else
      var (adopted, ok) := Adopted(h, r.allPods.value, deliverAdoption);
      if !ok || !Adjusts(r) then
        (adopted, ok && Adjusted(r).Some? && Adjusted(r).value.available != Adjusted(r).value.replicas)
      else
        var plan := SyncPlan(r.forRunning.value, r.forSleeping.value, r.runningReplicas);
        (WriteAll(adopted, plan.command, plan.pods, deliverSync), true)
  }

  class Controller {
    const api: Server

    constructor (api: Server)
      ensures this.api == api
    {
      this.api := api;
    }

    /** Lines 373-388. The first failing write ends the sync. */
    method AdoptPods(pods: seq<Pod>, deliver: string -> Delivery) returns (ok: bool)
      modifies api
      ensures (api.history, ok) == Adopted(old(api.history), pods, deliver)
    {
      for i := 0 to |pods|
        invariant (api.history, true) == Adopted(old(api.history), pods[..i], deliver)
      {
        assert pods[..i + 1][..i] == pods[..i];
        if pods[i].labels.state == NoState {
          var podCopy := pods[i].(labels := pods[i].labels.(state := Running));
          ok := api.Update(podCopy, deliver(podCopy.name));
          if !ok {
            FailureEndsAdoption(old(api.history), pods, deliver, i + 1);
            return;
          }
        }
      }
      assert pods[..|pods|] == pods;
      ok := true;
    }

    /** Lines 438-443; errors are ignored. */
    method SuspendPods(podsToSuspend: seq<Pod>, deliver: string -> Delivery)
      modifies api
      ensures api.history == WriteAll(old(api.history), Suspend, podsToSuspend, deliver)
    {
      for i := 0 to |podsToSuspend|
        invariant api.history == WriteAll(old(api.history), Suspend, podsToSuspend[..i], deliver)
      {
        assert podsToSuspend[..i + 1][..i] == podsToSuspend[..i];
        var podCopy := podsToSuspend[i];
        podCopy := podCopy.(labels := podCopy.labels.(state := Sleeping));
        podCopy := podCopy.(labels := podCopy.labels.(sleep := Wait));
        var _ := api.Update(podCopy, deliver(podCopy.name));
      }
      assert podsToSuspend[..|podsToSuspend|] == podsToSuspend;
    }

    /** Lines 447-451; errors are ignored. */
    method ActivatePods(podsToActivate: seq<Pod>, deliver: string -> Delivery)
      modifies api
      ensures api.history == WriteAll(old(api.history), Activate, podsToActivate, deliver)
    {
      for i := 0 to |podsToActivate|
        invariant api.history == WriteAll(old(api.history), Activate, podsToActivate[..i], deliver)
      {
        assert podsToActivate[..i + 1][..i] == podsToActivate[..i];
        var podCopy := podsToActivate[i].(labels := podsToActivate[i].labels.(state := Runnable));
        var _ := api.Update(podCopy, deliver(podCopy.name));
      }
      assert podsToActivate[..|podsToActivate|] == podsToActivate;
    }

    /** `syncRunningPod`; `forRunning` and `forSleeping` are what its two list calls return. */
    method SyncRunningPod(forRunning: Option<seq<Pod>>, forSleeping: Option<seq<Pod>>, runningReplicas: int,
                          deliver: string -> Delivery)
      returns (ok: bool)
      modifies api
      ensures ok <==> forRunning.Some? && forSleeping.Some?
      ensures api.history
           == if ok then
                var plan := SyncPlan(forRunning.value, forSleeping.value, runningReplicas);
                WriteAll(old(api.history), plan.command, plan.pods, deliver)
              else old(api.history)
    {
      if forRunning.None? || forSleeping.None? {
        return false;
      }
      var rPods := Select(Suspend, forRunning.value);
      var sPods := Select(Activate, forSleeping.value);
      var curRunningPodNumber := |rPods|;
      if curRunningPodNumber > runningReplicas {
        var podsToSuspend := Strategy.GetPodInOrder(rPods, curRunningPodNumber - runningReplicas);
        SuspendPods(podsToSuspend, deliver);
      } else if curRunningPodNumber < runningReplicas {
        var podsToActivate := Strategy.GetPodInOrder(sPods, runningReplicas - curRunningPodNumber);
        ActivatePods(podsToActivate, deliver);
      }
      ok := true;
    }

    /** The part of `syncHandler` that touches pods (lines 373-411): adopt, bring the deployment to
        the replicas asked for, and adjust, but only when every replica is available. The two
        writes a pod may get fare independently. */
    method SyncHandler(r: Reading, deliverAdoption: string -> Delivery, deliverSync: string -> Delivery)
      returns (ok: bool)
      modifies api
      ensures (api.history, ok) == Synced(old(api.history), r, deliverAdoption, deliverSync)
    {
      if r.allPods.None? {
        return false;
      }
      ok := AdoptPods(r.allPods.value, deliverAdoption);
      if !ok {
        return;
      }
      var deployment := r.deployment;
      if r.replicas != deployment.replicas {
        if r.updated.None? {
          return false;
        }
        deployment := r.updated.value;
      }
      if deployment.available == deployment.replicas {
        ok := SyncRunningPod(r.forRunning, r.forSleeping, r.runningReplicas, deliverSync);
      }
    }
  }

  /** What a sync does, case by case. It fails, with the pods adopted as far as it got, when a list,
      adoption or a needed update of the deployment fails. While the deployment it goes on with,
      the updated one if an update was needed, is short of replicas, it adopts and nothing else. */
  lemma WhenSyncAdjusts(h: Histories, r: Reading, deliverAdoption: string -> Delivery,
                        deliverSync: string -> Delivery)
    requires r.allPods.Some?
    ensures var (adopted, labelled) := Adopted(h, r.allPods.value, deliverAdoption);
            var (after, ok) := Synced(h, r, deliverAdoption, deliverSync);
            var stale := r.replicas != r.deployment.replicas;
            && (!labelled || (stale && r.updated.None?) ==> after == adopted && !ok)
            && (labelled && (stale ==> r.updated.Some?) ==>
                  var d := if stale then r.updated.value else r.deployment;
                  && (d.available != d.replicas ==> after == adopted && ok)
                  && (d.available == d.replicas ==>
                        && (ok <==> r.forRunning.Some? && r.forSleeping.Some?)
                        && (!ok ==> after == adopted)
                        && (ok ==>
                              var plan := SyncPlan(r.forRunning.value, r.forSleeping.value, r.runningReplicas);
                              after == WriteAll(adopted, plan.command, plan.pods, deliverSync))))
  {
  }

  /** A selection takes the pods the command is for out of every part of a list, in order. */
  lemma {:induction false} SelectDistributes(c: Command, a: seq<Pod>, b: seq<Pod>)
    ensures Select(c, a + b) == Select(c, a) + Select(c, b)
  {
    if a == [] {
      assert a + b == b && [] + Select(c, b) == Select(c, b);
    } else {
      var p, rest := a[0], a[1..];
      assert a == [p] + rest && a + b == [p] + (rest + b);
      SelectDistributes(c, rest, b);
      SelectStep(c, p, rest + b);
      SelectStep(c, p, rest);
      Regroup(if Applies(c, p.labels) then [p] else [], Select(c, rest), Select(c, b));
    }
  }

  lemma Regroup(x: seq<Pod>, y: seq<Pod>, z: seq<Pod>)
    ensures x + (y + z) == x + y + z
  {
  }

  // ----- the clamp that is dropped

  ghost predicate SameWrites(p: Plan, q: Plan) {
    p.pods == q.pods && (p.pods != [] ==> p.command == q.command)
  }

  /** `syncHandler` (lines 316-320) clamps `RunningReplicas` to `Replicas` in a copy that it then
      drops. The clamped number would lead to the same writes exactly when it is the same number,
      or when the listed active and sleeping pods are no more than `Replicas` anyway. */
  lemma WhenClampMatters(forRunning: seq<Pod>, forSleeping: seq<Pod>, runningReplicas: int, replicas: nat)
    ensures var clamped := if runningReplicas > replicas then replicas else runningReplicas;
            SameWrites(SyncPlan(forRunning, forSleeping, runningReplicas), SyncPlan(forRunning, forSleeping, clamped))
            <==> runningReplicas <= replicas
                 || |Select(Suspend, forRunning)| + |Select(Activate, forSleeping)| <= replicas
  {
    if runningReplicas > replicas {
      var p, q := SyncPlan(forRunning, forSleeping, runningReplicas), SyncPlan(forRunning, forSleeping, replicas);
      var r, s := |Select(Suspend, forRunning)|, |Select(Activate, forSleeping)|;
      if r > replicas {
        assert q.command == Suspend && |q.pods| == r - replicas;
        assert r > runningReplicas ==> |p.pods| == r - runningReplicas;
      } else {
        assert |p.pods| == if runningReplicas - r <= s then runningReplicas - r else s;
        assert |q.pods| == if r == replicas then 0 else if replicas - r <= s then replicas - r else s;
      }
    }
  }

  /** One replica is asked for and available, and two running replicas. */
  function Listed(pods: seq<Pod>, runningReplicas: int): Reading {
    Reading(1, runningReplicas, Deployment(1, 1), None, Some(pods), Some(pods), Some(pods))
  }

  /** A sync whose lists show two sleeping pods, as while one of them terminates, gets past the
      test for available replicas, and activates both where the clamped number would activate
      only the first. */
  lemma ClampIsDropped(h: Histories, a: Pod, b: Pod, deliver: string -> Delivery)
    requires IsNewest(h, a) && IsNewest(h, b) && a.name != b.name && forall k :: deliver(k) == Delivered
    requires a.labels.state == Sleeping && b.labels.state == Sleeping
    ensures var after := Synced(h, Listed([a, b], 2), deliver, deliver);
            && after.1 && after.0.Keys == h.Keys
            && after.0[a.name] == h[a.name] + [Commanded(Activate, a.labels)]
            && after.0[b.name] == h[b.name] + [Commanded(Activate, b.labels)]
    ensures var after := Synced(h, Listed([a, b], 1), deliver, deliver);
            && after.1 && after.0.Keys == h.Keys
            && after.0[a.name] == h[a.name] + [Commanded(Activate, a.labels)]
            && after.0[b.name] == h[b.name]
  {
    SelectPair(Activate, a, b);
    SelectPair(Suspend, a, b);
    AdoptsNone(h, a, b, deliver);
    assert [a, b][..1] == [a] && [a, b][..2] == [a, b];
    assert SyncPlan([a, b], [a, b], 2) == Plan(Activate, [a, b]);
    assert SyncPlan([a, b], [a, b], 1) == Plan(Activate, [a]);
    assert WriteAll(h, Activate, [a], deliver) == Updated(h, CopyFor(Activate, a), Delivered) by {
      assert [a][..0] == [];
    }
  }

  lemma AdoptsNone(h: Histories, a: Pod, b: Pod, deliver: string -> Delivery)
    requires a.labels.state != NoState && b.labels.state != NoState
    ensures Adopted(h, [a, b], deliver) == (h, true)
  {
    assert [a, b][..1] == [a] && [a][..0] == [];
    assert Adopted(h, [a], deliver) == (h, true);
  }

  lemma SelectStep(c: Command, p: Pod, rest: seq<Pod>)
    ensures Select(c, [p] + rest) == (if Applies(c, p.labels) then [p] else []) + Select(c, rest)
  {
    assert ([p] + rest)[1..] == rest;
  }

  lemma SelectPair(c: Command, a: Pod, b: Pod)
    ensures Select(c, [a, b]) == (if Applies(c, a.labels) then [a] else []) + (if Applies(c, b.labels) then [b] else [])
  {
    SelectStep(c, a, [b]);
    SelectStep(c, b, []);
    assert [a] + [b] == [a, b] && [b] + [] == [b];
  }

  // ----- what the writes do to one pod, from however old a list

  ghost predicate UniqueNames(pods: seq<Pod>) {
    forall i, j :: 0 <= i < j < |pods| ==> pods[i].name != pods[j].name
  }

  /** The pod of that name in a list of distinct pods. */
  function Named(pods: seq<Pod>, k: string): Option<Pod> {
    if pods == [] then None
    else if pods[|pods| - 1].name == k then Some(pods[|pods| - 1])
    else Named(pods[..|pods| - 1], k)
  }

  lemma {:induction false} NamedMember(pods: seq<Pod>, k: string)
    ensures Named(pods, k).Some? ==> Named(pods, k).value in pods && Named(pods, k).value.name == k
    ensures Named(pods, k).None? <==> forall i :: 0 <= i < |pods| ==> pods[i].name != k
  {
    if pods != [] {
      NamedMember(pods[..|pods| - 1], k);
    }
  }

  /** The history of pod `k` after a batch of writes: at most one write was attempted on it. */
  lemma {:induction false} WritesProject(h: Histories, c: Command, pods: seq<Pod>, deliver: string -> Delivery,
                                         k: string)
    requires UniqueNames(pods)
    ensures WriteAll(h, c, pods, deliver).Keys == h.Keys
    ensures k in h ==>
              WriteAll(h, c, pods, deliver)[k]
              == var p := Named(pods, k);
                 if p.Some? then Commit(h[k], WriteOf(CopyFor(c, p.value)), deliver(k)) else h[k]
  {
    if pods != [] {
      var front, p := pods[..|pods| - 1], pods[|pods| - 1];
      WritesProject(h, c, front, deliver, k);
      NamedMember(front, k);
    }
  }

  /** What a pass plans: as many of the listed active pods as there are too many, or as many of the
      listed sleeping ones as are missing, or all there are, from the front of their own list. */
  lemma PlanInWords(forRunning: seq<Pod>, forSleeping: seq<Pod>, runningReplicas: int)
    ensures var plan := SyncPlan(forRunning, forSleeping, runningReplicas);
            var active, asleep := Select(Suspend, forRunning), Select(Activate, forSleeping);
            if |active| > runningReplicas then
              && plan.command == Suspend && plan.pods <= active
              && |plan.pods| == if runningReplicas >= 0 then |active| - runningReplicas else |active|
            else if |active| < runningReplicas then
              && plan.command == Activate && plan.pods <= asleep
              && |plan.pods| == if |asleep| + |active| >= runningReplicas then runningReplicas - |active| else |asleep|
            else plan.pods == []
  {
  }

  lemma PlanIsDrawnFromLists(forRunning: seq<Pod>, forSleeping: seq<Pod>, runningReplicas: int)
    ensures var plan := SyncPlan(forRunning, forSleeping, runningReplicas);
            forall p :: p in plan.pods ==>
              Applies(plan.command, p.labels) && (p in forRunning || p in forSleeping)
  {
  }

  lemma {:induction false} SelectionKeepsUnique(c: Command, pods: seq<Pod>)
    requires UniqueNames(pods)
    ensures UniqueNames(Select(c, pods))
  {
    if pods != [] {
      SelectionKeepsUnique(c, pods[1..]);
    }
  }

  lemma PlanIsUnique(forRunning: seq<Pod>, forSleeping: seq<Pod>, runningReplicas: int)
    requires UniqueNames(forRunning) && UniqueNames(forSleeping)
    ensures UniqueNames(SyncPlan(forRunning, forSleeping, runningReplicas).pods)
  {
    SelectionKeepsUnique(Suspend, forRunning);
    SelectionKeepsUnique(Activate, forSleeping);
  }

  /** Whatever versions its lists hold, a pass of `syncRunningPod` does to every pod either
      nothing or one controller step of the label protocol, so the protocol's safety covers it. */
  lemma SyncIsProtocolStep(h: Histories, forRunning: seq<Pod>, forSleeping: seq<Pod>, runningReplicas: int,
                           deliver: string -> Delivery, m: Machine, k: string)
    requires UniqueNames(forRunning) && UniqueNames(forSleeping)
    requires forall p :: p in forRunning || p in forSleeping ==> IsVersion(h, p)
    requires k in h && m.history == h[k] && Valid(m)
    ensures var plan := SyncPlan(forRunning, forSleeping, runningReplicas);
            var after := WriteAll(h, plan.command, plan.pods, deliver);
            && after.Keys == h.Keys
            && (after[k] == h[k]
                || exists base :: after[k] == Step(m, ControllerWrites(base, plan.command, deliver(k))).history)
  {
    var plan := SyncPlan(forRunning, forSleeping, runningReplicas);
    PlanIsUnique(forRunning, forSleeping, runningReplicas);
    PlanIsDrawnFromLists(forRunning, forSleeping, runningReplicas);
    WritesProject(h, plan.command, plan.pods, deliver, k);
    NamedMember(plan.pods, k);
    var p := Named(plan.pods, k);
    if p.Some? {
      CommandIsStep(h, m, plan.command, p.value, deliver(k));
      assert WriteAll(h, plan.command, plan.pods, deliver)[k]
          == Step(m, ControllerWrites(p.value.version, plan.command, deliver(k))).history;
    }
  }

  /** And what it stores of a pod, if anything, is a move from the pod's newest version: the other
      labels stay as they were. */
  lemma PassStoresMoves(h: Histories, forRunning: seq<Pod>, forSleeping: seq<Pod>, runningReplicas: int,
                        deliver: string -> Delivery, k: string)
    requires UniqueNames(forRunning) && UniqueNames(forSleeping)
    requires forall p :: p in forRunning || p in forSleeping ==> IsVersion(h, p)
    requires k in h && h[k] != []
    ensures var plan := SyncPlan(forRunning, forSleeping, runningReplicas);
            var after := WriteAll(h, plan.command, plan.pods, deliver);
            k in after && Adds(h[k], after[k], None)
  {
    var plan := SyncPlan(forRunning, forSleeping, runningReplicas);
    PlanIsUnique(forRunning, forSleeping, runningReplicas);
    PlanIsDrawnFromLists(forRunning, forSleeping, runningReplicas);
    WritesProject(h, plan.command, plan.pods, deliver, k);
    NamedMember(plan.pods, k);
    var p := Named(plan.pods, k);
    if p.Some? {
      WriteStoresMove(h, plan.command, p.value, deliver(k));
    }
  }

  lemma WriteStoresMove(h: Histories, c: Command, p: Pod, d: Delivery)
    requires IsVersion(h, p) && Applies(c, p.labels)
    ensures Adds(h[p.name], Commit(h[p.name], WriteOf(CopyFor(c, p)), d), None)
  {
    CommandIsMove(c, p.labels);
  }

  /** A single write of a controller is its step in the protocol. */
  lemma CommandIsStep(h: Histories, m: Machine, c: Command, p: Pod, d: Delivery)
    requires IsVersion(h, p) && Applies(c, p.labels) && m.history == h[p.name] && Valid(m)
    ensures Commit(h[p.name], WriteOf(CopyFor(c, p)), d) == Step(m, ControllerWrites(p.version, c, d)).history
  {
  }

  lemma {:induction false} AdoptionIsProtocolStep(h: Histories, pods: seq<Pod>, deliver: string -> Delivery,
                                                  m: Machine, k: string)
    requires UniqueNames(pods) && forall p :: p in pods ==> IsVersion(h, p)
    requires k in h && m.history == h[k] && Valid(m)
    ensures var after := Adopted(h, pods, deliver).0;
            && after.Keys == h.Keys
            && (Named(pods, k).None? ==> after[k] == h[k])
            && (after[k] == h[k]
                || exists base :: after[k] == Step(m, ControllerWrites(base, Adopt, deliver(k))).history)
  {
    if pods != [] {
      var front, p := pods[..|pods| - 1], pods[|pods| - 1];
      AdoptionIsProtocolStep(h, front, deliver, m, k);
      NamedMember(front, k);
      if p.name == k {
        var before := Adopted(h, front, deliver).0;
        assert before[k] == h[k];
        if p.labels.state == NoState {
          assert p in pods;
          CommandIsStep(h, m, Adopt, p, deliver(k));
          assert Updated(before, CopyFor(Adopt, p), deliver(k))[k]
              == Step(m, ControllerWrites(p.version, Adopt, deliver(k))).history;
        }
      }
    }
  }

  /** So neither writer of the controller can break the protocol's invariant, whatever old
      lists it works from. */
  lemma ControllerKeepsInv(h: Histories, allPods: seq<Pod>, forRunning: seq<Pod>, forSleeping: seq<Pod>,
                           runningReplicas: int, deliver: string -> Delivery, m: Machine, k: string)
    requires UniqueNames(allPods) && UniqueNames(forRunning) && UniqueNames(forSleeping)
    requires forall p :: p in allPods || p in forRunning || p in forSleeping ==> IsVersion(h, p)
    requires k in h && m.history == h[k] && Inv(m)
    ensures var plan := SyncPlan(forRunning, forSleeping, runningReplicas);
            var synced, adopted := WriteAll(h, plan.command, plan.pods, deliver), Adopted(h, allPods, deliver).0;
            && k in synced && Inv(m.(history := synced[k]))
            && k in adopted && Inv(m.(history := adopted[k]))
  {
    var plan := SyncPlan(forRunning, forSleeping, runningReplicas);
    var synced, adopted := WriteAll(h, plan.command, plan.pods, deliver), Adopted(h, allPods, deliver).0;
    SyncIsProtocolStep(h, forRunning, forSleeping, runningReplicas, deliver, m, k);
    AdoptionIsProtocolStep(h, allPods, deliver, m, k);
    CommandHistoryKeepsInv(m, synced[k], plan.command, deliver(k));
    CommandHistoryKeepsInv(m, adopted[k], Adopt, deliver(k));
  }

  lemma CommandHistoryKeepsInv(m: Machine, history: seq<Labels>, c: Command, d: Delivery)
    requires Inv(m)
    requires history == m.history || exists base :: history == Step(m, ControllerWrites(base, c, d)).history
    ensures Inv(m.(history := history))
  {
    if history != m.history {
      var base :| history == Step(m, ControllerWrites(base, c, d)).history;
      CommandKeepsInv(m, base, c, d);
      assert Step(m, ControllerWrites(base, c, d)) == m.(history := history);
    } else {
      assert m.(history := history) == m;
    }
  }
}

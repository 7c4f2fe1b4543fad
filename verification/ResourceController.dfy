/** The PodManager's resource calls and the controller's tick as they run, statement by
    statement, each proved against the functions of `NodeTick`
    (pkg/podmanager/resource.go, pkg/podmanager/resource_controller.go). */
module ResourceController {
  import opened Options
  import opened Words
  import opened PodLabels
  import opened Cpuset
  import opened Classifier
  import opened NodeTick
  import opened TickProjection
  import TickRuns
  import PodHistory
  import Scaling

  /** The pods the manager knows and their cgroups, by namespaced name. */
  class PodManager {
    const cores: Word
    var infos: map<string, CpuState>
    var kernel: map<string, Cgroup>

    constructor (cores: Word)
      ensures this.cores == cores && infos == map[] && kernel == map[]
    {
      this.cores := cores;
      infos, kernel := map[], map[];
    }

    method UpdatePodCPUSet(key: string, cpus: seq<Word>, f: Fate) returns (ok: bool)
      requires key in kernel
      modifies this`kernel
      ensures ok <==> cpus == [] || f.cpuset
      ensures kernel == old(kernel)[key := WithCpus(old(kernel[key]), cpus, f)]
    {
      var text := CpusetString(cpus);
      CpusetTextRoundTrip(cpus);
      ok := true;
      if text != "" {
        ok := f.cpuset;
        if ok {
          kernel := kernel[key := kernel[key].(cpuset := text)];
        }
      }
    }

    method UpdatePodCPUSetFromLower(key: string, number: Word, f: Fate) returns (ok: bool)
      requires key in kernel
      modifies this`kernel
      ensures ok <==> number == 0 || (number <= cores && f.cpuset)
      ensures kernel == old(kernel)[key := FromLower(old(kernel[key]), cores, number, f)]
      ensures kernel[key] == if 0 < number <= cores && f.cpuset
                             then old(kernel[key]).(cpuset := CpusetText(Span(0, number))) else old(kernel[key])
    {
      if number > cores {
        return false;
      }
      var cpus: seq<Word>, i: Word := [], 0;
      while i < number
        invariant i <= number && cpus == Span(0, i)
      {
        cpus := cpus + [i];
        i := Add64(i, 1);
      }
      ok := UpdatePodCPUSet(key, cpus, f);
    }

    /** The loop runs while `i <= end` on 64-bit words, so it ends only if `end` is below the
        largest word. */
    method UpdatePodCPUSetRange(key: string, start: Word, end: Word, f: Fate) returns (ok: bool)
      requires key in kernel && end < MAX_WORD
      modifies this`kernel
      ensures ok <==> start <= end && f.cpuset
      ensures kernel == old(kernel)[key := FromRange(old(kernel[key]), start, end, f)]
      ensures kernel[key] == if start <= end && f.cpuset
                             then old(kernel[key]).(cpuset := CpusetText(Span(start, end + 1))) else old(kernel[key])
    {
      if start > end {
        return false;
      }
      var cpus: seq<Word>, i := [], start;
      while i <= end
        invariant start <= i <= end + 1 && cpus == Span(start, i)
        decreases end + 1 - i
      {
        cpus := cpus + [i];
        i := Add64(i, 1);
      }
      ok := UpdatePodCPUSet(key, cpus, f);
    }

    method UpdatePodCPUSetFromUpper(key: string, number: Word, f: Fate) returns (ok: bool)
      requires key in kernel
      modifies this`kernel
      ensures ok <==> number == 0 || (number <= cores && f.cpuset)
      ensures kernel == old(kernel)[key := FromUpper(old(kernel[key]), cores, number, f)]
      ensures kernel[key] == if 0 < number <= cores && f.cpuset
                             then old(kernel[key]).(cpuset := CpusetText(Span(cores - number, cores)))
                             else old(kernel[key])
    {
      if number > cores {
        return false;
      }
      var cpus: seq<Word>, i: Word := [], 0;
      while i < number
        invariant i <= number && cpus == UpperCpus(cores, i)
      {
        assert UpperCpus(cores, i + 1) == [cores - 1 - i] + UpperCpus(cores, i);
        cpus := [Sub64(Sub64(cores, 1), i)] + cpus;
        i := Add64(i, 1);
      }
      ok := UpdatePodCPUSet(key, cpus, f);
    }

    method UpdatePodCPUQuota(key: string, quota: Word, f: Fate) returns (ok: bool)
      requires key in kernel
      modifies this`kernel
      ensures ok == f.cpuMax
      ensures kernel == if ok then old(kernel)[key := old(kernel[key]).(cpuMax := KernelQuota(quota))] else old(kernel)
      ensures ok ==> kernel[key].cpuMax == if 0 < quota < 0x8000_0000_0000_0000 then quota else 0
    {
      var int64Quota := if quota < 0x8000_0000_0000_0000 then quota else quota - WORD;
      var cpuMax: Word := if int64Quota > 0 then int64Quota else 0;
      ok := f.cpuMax;
      if ok {
        kernel := kernel[key := kernel[key].(cpuMax := cpuMax)];
      }
    }

    method UpdatePodMemoryHigh(key: string, value: int, f: Fate) returns (ok: bool)
      requires key in kernel
      modifies this`kernel
      ensures ok == f.memoryHigh
      ensures kernel == if ok then old(kernel)[key := old(kernel[key]).(memoryHigh := value)] else old(kernel)
    {
      ok := f.memoryHigh;
      if ok {
        kernel := kernel[key := kernel[key].(memoryHigh := value)];
      }
    }
  }

  ghost predicate Tracks(n: Node, k: string) {
    k in n.metrics && k in n.infos && k in n.kernel
  }

  ghost predicate TracksAll(n: Node, actions: seq<UpdateAction>) {
    forall a :: a in actions ==> Tracks(n, a.key)
  }

  lemma {:induction false} PicksMember(actions: seq<UpdateAction>, a: UpdateAction)
    requires a in actions
    ensures a in Picks(actions, a.key)
  {
    if actions[|actions| - 1] != a {
      assert actions == actions[..|actions| - 1] + [actions[|actions| - 1]];
      PicksMember(actions[..|actions| - 1], a);
    }
  }

  /** Classification leaves every pod it acts on with a record, an entry and a cgroup. */
  lemma ActionsAreTracked(n: Node, views: seq<PodView>)
    requires WellFormed(n) && UniqueKeys(views)
    ensures TracksAll(ClassifyAll(n, views).node, ClassifyAll(n, views).actions)
  {
    var c := ClassifyAll(n, views);
    forall a | a in c.actions
      ensures Tracks(c.node, a.key)
    {
      PicksMember(c.actions, a);
      ClassificationProjects(n, views, a.key);
      var v := ViewOf(views, a.key);
      PodHistory.ActionNeedsRecord(v.value, Lookup(n, a.key));
    }
  }

  lemma ActOneTracks(n: Node, a: UpdateAction, r: Region, t: Totals, fate: string -> Fate, k: string)
    requires t.cores >= 1 && Tracks(n, k)
    ensures Tracks(ActOne(n, a, r, t, fate), k)
  {
  }

  lemma StoreTwice(n: Node, k: string, t: Track, u: Track)
    requires Tracks(n, k) && t.metrics.Some? && t.info.Some?
    ensures Tracks(Store(n, k, t), k) && Lookup(Store(n, k, t), k) == t
    ensures Store(Store(n, k, t), k, u) == Store(n, k, u)
  {
    var once := Store(n, k, t);
    assert Store(once, k, u).metrics == Store(n, k, u).metrics;
    assert Store(once, k, u).infos == Store(n, k, u).infos;
    assert Store(once, k, u).kernel == Store(n, k, u).kernel;
  }

  /** `update` and the cpuset write touch different files, so their order does not matter. */
  lemma CpusetAndUpdateCommute(tr: Track, a: UpdateAction, t: Totals, f: Fate)
    requires t.cores >= 1 && Managed(a.region) && tr.metrics.Some? && tr.info.Some?
    ensures Updated(tr.(cgroup := RegionCpuset(tr.cgroup, a.region, t, f)), a.state, CPU_QUOTA_UNLIMITED, a.high, f)
         == Acted(tr, a, t, f)
  {
  }

  class Controller {
    const podmanager: PodManager
    var metrics: map<string, PodMetrics>
    var prevTotalRequestLCCores: Word
    var prevTotalRequestMixCores: Word

    function State(): Node
      reads this, podmanager
    {
      Node(metrics, podmanager.infos, podmanager.kernel)
    }

    constructor (podmanager: PodManager)
      ensures this.podmanager == podmanager && metrics == map[]
      ensures prevTotalRequestLCCores == 0 && prevTotalRequestMixCores == 0
    {
      this.podmanager := podmanager;
      metrics := map[];
      prevTotalRequestLCCores, prevTotalRequestMixCores := 0, 0;
    }

    /** The first half of `update`: lines 173-183. */
    method UpdateQuota(action: UpdateAction, f: Fate)
      requires Tracks(State(), action.key)
      modifies this`metrics, podmanager`infos, podmanager`kernel
      ensures Tracks(State(), action.key)
      ensures State() == Store(old(State()), action.key,
                               QuotaUpdated(Lookup(old(State()), action.key), action.state, action.quota, f))
    {
      var key := action.key;
      ghost var before := State();
      if action.quota != metrics[key].cpu.currentQuota {
        var _ := podmanager.UpdatePodCPUQuota(key, action.quota, f);
      }
      podmanager.infos := podmanager.infos[key := action.state];
      var cpu := metrics[key].cpu;
      cpu := cpu.(lastQuota := cpu.currentQuota);
      cpu := cpu.(currentQuota := action.quota);
      metrics := metrics[key := metrics[key].(cpu := cpu)];
      ghost var after := QuotaUpdated(Lookup(before, key), action.state, action.quota, f);
      assert podmanager.kernel == before.kernel[key := after.cgroup];
      assert metrics == before.metrics[key := after.metrics.value];
    }

    /** The second half: lines 185-207. */
    method UpdateMemory(action: UpdateAction, f: Fate)
      requires Tracks(State(), action.key)
      modifies this`metrics, podmanager`kernel
      ensures State()
           == Store(old(State()), action.key, MemoryUpdated(Lookup(old(State()), action.key), action.high, f))
    {
      var key := action.key;
      ghost var before := State();
      ghost var after := MemoryUpdated(Lookup(before, key), action.high, f);
      if action.high != metrics[key].currentHigh {
        var ok := podmanager.UpdatePodMemoryHigh(key, action.high, f);
        if !ok {
          assert State() == Store(before, key, after);
          return;
        }
      }
      metrics := metrics[key := metrics[key].(currentHigh := action.high)];
      assert podmanager.kernel == before.kernel[key := after.cgroup];
      assert metrics == before.metrics[key := after.metrics.value];
      assert podmanager.infos == before.infos[key := before.infos[key]];
    }

    /** `update`. */
    method Update(action: UpdateAction, f: Fate)
      requires Tracks(State(), action.key)
      modifies this`metrics, podmanager`infos, podmanager`kernel
      ensures Tracks(State(), action.key)
      ensures State() == Store(old(State()), action.key,
                               Updated(Lookup(old(State()), action.key), action.state, action.quota, action.high, f))
    {
      ghost var t := QuotaUpdated(Lookup(State(), action.key), action.state, action.quota, f);
      StoreTwice(State(), action.key, t, MemoryUpdated(t, action.high, f));
      UpdateQuota(action, f);
      UpdateMemory(action, f);
    }

    /** `cleanupMetrics`: Go's map order is arbitrary, so the copied key list is in any order. */
    method CleanupMetrics()
      modifies this`metrics
      ensures metrics == Sweep(old(metrics))
    {
      var keys := metrics.Keys;
      while keys != {}
        invariant keys <= metrics.Keys <= old(metrics).Keys
        invariant forall k :: k in keys ==> metrics[k] == old(metrics)[k]
        invariant forall k :: k in old(metrics) && k !in keys ==>
                                (k in metrics <==> old(metrics)[k].exist)
                                && (k in metrics ==> metrics[k] == old(metrics)[k].(exist := false))
        decreases |keys|
      {
        var k :| k in keys;
        if metrics[k].exist {
          metrics := metrics[k := metrics[k].(exist := false)];
        } else {
          metrics := metrics - {k};
        }
        keys := keys - {k};
      }
    }

    method AllContainersReady(containersReady: seq<bool>) returns (allReady: bool)
      ensures allReady <==> forall i :: 0 <= i < |containersReady| ==> containersReady[i]
    {
      allReady := true;
      for i := 0 to |containersReady|
        invariant allReady
        invariant forall j :: 0 <= j < i ==> containersReady[j]
      {
        if !containersReady[i] {
          allReady := false;
          break;
        }
      }
    }

    /** Feeding the windows and reading the quota again (lines 357-380). */
    method RefreshRecord(v: PodView, metrics: PodMetrics, cpuMax: Word) returns (m: PodMetrics)
      ensures m == Refreshed(v, metrics, cpuMax)
    {
      m := metrics.(cpu := Scaling.Observed(metrics.cpu, v.throttled, v.usageUsec, v.sinceLastUsec));
      if m.cpu.lastQuota == 0 {
        var currentQuota := if v.quotaReadable then cpuMax else MAX_WORD;
        m := m.(cpu := m.cpu.(currentQuota := currentQuota));
        m := m.(cpu := m.cpu.(lastQuota := CPU_QUOTA_UNLIMITED));
      }
    }

    /** The readiness test and state switch (lines 399-559) on one record. */
    method SwitchOnState(v: PodView, cpuset: Region, allReady: bool, metrics: PodMetrics)
      returns (m: PodMetrics, action: Option<UpdateAction>)
      requires allReady == AllReady(v.containersReady)
      ensures m == Switched(PodArm(v), v, metrics)
      ensures action == ArmAction(PodArm(v), v, cpuset, metrics.napSince)
    {
      var request := PodRequest(v);
      var endpoint := GetPodEndpointState(v.labels);
      m := metrics;
      action := None;
      if allReady {
        match GetPodState(v.labels) {
          case Running =>
            m := m.(napSince := None);
            m := m.(cpu := Scaling.NextFeedback(m.cpu, 0.0, v.now, v.deviation).after);
            action := Some(UpdateAction(v.key, request, DynamicOverprovision, cpuset, request, DEFAULT_MEMORY_HIGH));
          case Initializing =>
            m := m.(napSince := None);
            action := Some(UpdateAction(v.key, request, CpuMax, BE, CPU_QUOTA_UNLIMITED, DEFAULT_MEMORY_HIGH));
          case WarmingUp =>
            m := m.(napSince := None);
            action := Some(UpdateAction(v.key, request, CpuMax, LC, MaxQuota(), DEFAULT_MEMORY_HIGH));
          case FullSpeed =>
            m := m.(napSince := None);
            m := m.(cpu := Scaling.NextFeedback(m.cpu, 0.0, v.now, v.deviation).after);
            action := Some(UpdateAction(v.key, request, CpuMax, LC, request, DEFAULT_MEMORY_HIGH));
          case CatNap =>
            m := m.(napSince := None);
            if endpoint == Down {
              action := Some(UpdateAction(v.key, request, DynamicResourceEfficient, BE, CPU_QUOTA_UNLIMITED,
                                          DEFAULT_MEMORY_HIGH));
            } else {
              action := Some(UpdateAction(v.key, request, CpuMax, cpuset, CPU_QUOTA_UNLIMITED, DEFAULT_MEMORY_HIGH));
            }
          case LongNap =>
            if endpoint == Down {
              var memoryHigh := DEFAULT_MEMORY_HIGH;
              if m.napSince.Some? && v.now - m.napSince.value > 3_000_000_000 {
                memoryHigh := 0;
              }
              if m.napSince == None {
                m := m.(napSince := Some(v.now));
              }
              action := Some(UpdateAction(v.key, request, DynamicResourceEfficient, BE, CPU_QUOTA_UNLIMITED,
                                          memoryHigh));
            } else {
              m := m.(napSince := None);
              action := Some(UpdateAction(v.key, request, CpuMax, cpuset, CPU_QUOTA_UNLIMITED, DEFAULT_MEMORY_HIGH));
            }
          case UnknownState =>
        }
      } else {
        m := m.(napSince := None);
        action := Some(UpdateAction(v.key, request, CpuMax, BE, CPU_QUOTA_UNLIMITED, DEFAULT_MEMORY_HIGH));
      }
    }

    /** The part of the classification loop's body after the lookup (lines 345-561). */
    method JudgePod(v: PodView, cpuset: Region, allReady: bool) returns (action: Option<UpdateAction>)
      requires v.key in metrics && allReady == AllReady(v.containersReady)
      requires v.key in podmanager.kernel
      modifies this`metrics
      ensures var d := Judge(v, old(metrics[v.key]), cpuset, podmanager.kernel[v.key].cpuMax);
              && metrics == Put(old(metrics), v.key, d.metrics)
              && action == d.action
    {
      var m := metrics[v.key];
      var previous := m.sampled;
      m := m.(sampled := v.statOk);
      action := None;
      if v.statOk && previous {
        m := RefreshRecord(v, m, podmanager.kernel[v.key].cpuMax);
        if cpuset == MIX {
          action := Some(MixAction(v));
        } else {
          m, action := SwitchOnState(v, cpuset, allReady, m);
        }
      }
      metrics := metrics[v.key := m];
    }

    /** The body of the classification loop on one pod. */
    method ClassifyPod(v: PodView) returns (action: Option<UpdateAction>, listing: BeListing)
      requires WellFormed(State())
      modifies this`metrics
      ensures var d := Classify(v, Lookup(old(State()), v.key));
              && metrics == Put(old(metrics), v.key, d.metrics)
              && action == d.action && listing == d.listing
    {
      var key := v.key;
      action, listing := None, NotListed;
      if key !in podmanager.infos {
        metrics := metrics - {key};
        return;
      }
      var serviceType := PodService(v);
      var cpuset := PodRegion(v);
      if cpuset.None? {
        assert metrics == Put(metrics, key, Lookup(State(), key).metrics);
        return;
      }
      if serviceType == BeService {
        metrics := metrics - {key};
        if cpuset.value == BE {
          listing := BePod;
        } else if cpuset.value == MIX {
          listing := BeMixPod;
        }
        return;
      }
      var allReady := AllContainersReady(v.containersReady);
      action := JudgeListed(v, cpuset.value, allReady);
    }

    /** The metrics lookup (lines 330-343) and what follows it. */
    method JudgeListed(v: PodView, cpuset: Region, allReady: bool) returns (action: Option<UpdateAction>)
      requires allReady == AllReady(v.containersReady) && v.key in podmanager.kernel
      modifies this`metrics
      ensures var d := Judge(v, LookedUp(Lookup(old(State()), v.key).metrics, v.now), cpuset,
                             podmanager.kernel[v.key].cpuMax);
              && metrics == Put(old(metrics), v.key, d.metrics)
              && action == d.action
    {
      var key := v.key;
      if key in metrics {
        metrics := metrics[key := metrics[key].(exist := true)];
      } else {
        metrics := metrics[key := NewMetrics(v.now)];
      }
      action := JudgePod(v, cpuset, allReady);
    }

    method ClassifyPods(views: seq<PodView>)
      returns (actions: seq<UpdateAction>, bePods: seq<string>, beMixPods: seq<string>)
      requires WellFormed(State())
      modifies this`metrics
      ensures Classified(State(), actions, bePods, beMixPods) == ClassifyAll(old(State()), views)
    {
      actions, bePods, beMixPods := [], [], [];
      for i := 0 to |views|
        invariant podmanager.infos == old(podmanager.infos) && podmanager.kernel == old(podmanager.kernel)
        invariant Classified(State(), actions, bePods, beMixPods) == ClassifyAll(old(State()), views[..i])
      {
        assert views[..i + 1][..i] == views[..i];
        ghost var before := State();
        var key := views[i].key;
        var action, listing := ClassifyPod(views[i]);
        ghost var track := Lookup(before, key);
        assert State() == Store(before, key, track.(metrics := Classify(views[i], track).metrics));
        if action.Some? {
          actions := actions + [action.value];
        }
        if listing == BePod {
          bePods := bePods + [key];
        } else if listing == BeMixPod {
          beMixPods := beMixPods + [key];
        }
      }
      assert views[..|views|] == views;
    }

    method SumRequests(actions: seq<UpdateAction>) returns (lc: real, mix: real)
      ensures lc == RegionDemand(actions, LC) && mix == RegionDemand(actions, MIX)
    {
      lc, mix := 0.0, 0.0;
      for i := 0 to |actions|
        invariant lc == RegionDemand(actions[..i], LC) && mix == RegionDemand(actions[..i], MIX)
      {
        assert actions[..i + 1][..i] == actions[..i];
        var allocateCores := actions[i].quota as real / DEFAULT_CPU_PERIOD as real;
        var requestCores := actions[i].request as real / DEFAULT_CPU_PERIOD as real;
        match actions[i].region
        case MIX => mix := mix + MinReal(requestCores, allocateCores);
        case LC => lc := lc + MinReal(requestCores, allocateCores);
        case _ =>
      }
      assert actions[..|actions|] == actions;
    }

    /** The cpuset write of one of the three loops over the actions. */
    method WriteRegionCpuset(key: string, r: Region, t: Totals, f: Fate)
      requires Tracks(State(), key) && Managed(r)
      requires Sound(t) && t.cores == podmanager.cores
      modifies podmanager`kernel
      ensures Tracks(State(), key)
      ensures podmanager.kernel == old(podmanager.kernel)[key := RegionCpuset(old(podmanager.kernel[key]), r, t, f)]
    {
      MixRangeUnderWraparound(t.cores, t.lc, t.mix);
      match r {
        case LC =>
          if t.lc != t.prevLc {
            var _ := podmanager.UpdatePodCPUSetFromLower(key, t.lc, f);
          }
        case MIX =>
          var end := MixRangeEnd(t.cores, t.lc, t.mix);
          if end >= t.lc {
            if t.mix != t.prevMix || t.lc != t.prevLc {
              var _ := podmanager.UpdatePodCPUSetRange(key, t.lc, end, f);
            }
          } else if t.lc != t.prevLc {
            var _ := podmanager.UpdatePodCPUSetFromLower(key, t.lc, f);
          }
        case BE =>
          if t.mix != t.prevMix || t.lc != t.prevLc {
            var _ := podmanager.UpdatePodCPUSetFromUpper(key, MixCores(t.cores, t.lc), f);
          }
      }
    }

    /** Act on one pod: quota to unlimited, `update`, and the cpuset of its set. The LC loop
        updates first, the other two write the cpuset first. */
    method Act(action: UpdateAction, t: Totals, f: Fate)
      requires Tracks(State(), action.key) && Managed(action.region)
      requires Sound(t) && t.cores == podmanager.cores
      modifies this`metrics, podmanager`infos, podmanager`kernel
      ensures State() == Store(old(State()), action.key, Acted(Lookup(old(State()), action.key), action, t, f))
    {
      var key := action.key;
      ghost var before := State();
      if action.region == LC {
        Update(action.(quota := CPU_QUOTA_UNLIMITED), f);
        WriteRegionCpuset(key, action.region, t, f);
      } else {
        CpusetAndUpdateCommute(Lookup(before, key), action, t, f);
        WriteRegionCpuset(key, action.region, t, f);
        Update(action.(quota := CPU_QUOTA_UNLIMITED), f);
      }
      ghost var after := Acted(Lookup(before, key), action, t, f);
      assert podmanager.kernel == before.kernel[key := after.cgroup];
      assert metrics == before.metrics[key := after.metrics.value];
    }

    /** One of the three loops over the actions. */
    method ActOnRegion(actions: seq<UpdateAction>, r: Region, t: Totals, fate: string -> Fate)
      requires TracksAll(State(), actions) && Managed(r)
      requires Sound(t) && t.cores == podmanager.cores
      modifies this`metrics, podmanager`infos, podmanager`kernel
      ensures State() == ActAll(old(State()), actions, r, t, fate)
      ensures TracksAll(State(), actions)
    {
      for i := 0 to |actions|
        invariant State() == ActAll(old(State()), actions[..i], r, t, fate)
        invariant TracksAll(State(), actions)
      {
        assert actions[..i + 1][..i] == actions[..i];
        ghost var before := State();
        if actions[i].region == r {
          Act(actions[i], t, fate(actions[i].key));
        }
        forall a | a in actions
          ensures Tracks(State(), a.key)
        {
          ActOneTracks(before, actions[i], r, t, fate, a.key);
        }
      }
      assert actions[..|actions|] == actions;
    }

    method ConfineOne(key: string, listing: BeListing, number: Word, t: Totals, fate: string -> Fate)
      requires key in podmanager.kernel
      requires t.cores == podmanager.cores >= 1 && !listing.NotListed?
      requires number == if listing.BePod? then BeCores(t.cores, t.lc, t.mix) else MixCores(t.cores, t.lc)
      modifies podmanager`kernel
      ensures State() == ListOne(old(State()), key, listing, t, fate)
    {
      ghost var before := State();
      if t.mix != t.prevMix || t.lc != t.prevLc {
        var _ := podmanager.UpdatePodCPUSetFromUpper(key, number, fate(key));
      }
      ghost var after := ListedBe(Lookup(before, key), listing, t, fate(key));
      assert podmanager.kernel == before.kernel[key := after.cgroup];
      assert metrics == Put(before.metrics, key, after.metrics);
      assert podmanager.infos == Put(before.infos, key, after.info);
    }

    /** The loops over best-effort pods: they only ever get a cpuset. */
    method ConfineListed(keys: seq<string>, listing: BeListing, number: Word, t: Totals, fate: string -> Fate)
      requires forall k :: k in keys ==> k in podmanager.kernel
      requires t.cores == podmanager.cores >= 1 && !listing.NotListed?
      requires number == if listing.BePod? then BeCores(t.cores, t.lc, t.mix) else MixCores(t.cores, t.lc)
      modifies podmanager`kernel
      ensures State() == ListAll(old(State()), keys, listing, t, fate)
      ensures podmanager.kernel.Keys == old(podmanager.kernel).Keys
    {
      for i := 0 to |keys|
        invariant State() == ListAll(old(State()), keys[..i], listing, t, fate)
        invariant podmanager.kernel.Keys == old(podmanager.kernel).Keys
      {
        assert keys[..i + 1][..i] == keys[..i];
        ConfineOne(keys[i], listing, number, t, fate);
      }
      assert keys[..|keys|] == keys;
    }

    /** Lines 585-645: the three loops over the actions and the two over best-effort pods. */
    method Balance(actions: seq<UpdateAction>, bePods: seq<string>, beMixPods: seq<string>, t: Totals,
                   fate: string -> Fate)
      requires WellFormed(State()) && TracksAll(State(), actions)
      requires Sound(t) && t.cores == podmanager.cores
      requires forall k :: k in bePods || k in beMixPods ==> k in podmanager.kernel
      modifies this`metrics, podmanager`infos, podmanager`kernel
      ensures State() == ListAll(ListAll(ActThrice(old(State()), actions, t, fate), beMixPods, BeMixPod, t, fate),
                                 bePods, BePod, t, fate)
    {
      LoopsActOnce(State(), actions, t, fate, "");
      ActOnRegion(actions, LC, t, fate);
      ActOnRegion(actions, MIX, t, fate);
      ActOnRegion(actions, BE, t, fate);
      ConfineListed(beMixPods, BeMixPod, MixCores(t.cores, t.lc), t, fate);
      ConfineListed(bePods, BePod, BeCores(t.cores, t.lc, t.mix), t, fate);
    }

    /** One turn of the main loop whose listing succeeded. */
    method Tick(views: seq<PodView>, fate: string -> Fate)
      requires podmanager.cores >= 1 && WellFormed(State()) && UniqueKeys(views)
      modifies this, podmanager`infos, podmanager`kernel
      ensures var t := TickTotals(old(State()), views, podmanager.cores,
                                  old(prevTotalRequestLCCores), old(prevTotalRequestMixCores));
              && State() == TickNode(old(State()), views, t, fate)
              && prevTotalRequestLCCores == t.lc && prevTotalRequestMixCores == t.mix
      ensures WellFormed(State())
    {
      ghost var start := State();
      ActionsAreTracked(start, views);
      ListedAreKnown(start, views);
      var actions, bePods, beMixPods := ClassifyPods(views);
      var lcDemand, mixDemand := SumRequests(actions);
      DemandIsNonNegative(actions, LC);
      MixDemandIsZero(start, views);
      if lcDemand > podmanager.cores as real {
        lcDemand := podmanager.cores as real;
      }
      var t := Totals(podmanager.cores, Ceil(lcDemand), Ceil(mixDemand),
                      prevTotalRequestLCCores, prevTotalRequestMixCores);
      Balance(actions, bePods, beMixPods, t, fate);
      prevTotalRequestLCCores, prevTotalRequestMixCores := t.lc, t.mix;
      CleanupMetrics();
      TickRuns.KernelKeepsKeys(start, views, t, fate);
    }
  }
}

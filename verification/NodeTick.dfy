/** One tick of the resource controller as a function of the node's state, and its effect on a
    single pod (pkg/podmanager/resource_controller.go:262-651). */
module NodeTick {
  import opened Options
  import opened Words
  import opened PodLabels
  import opened Cpuset
  import opened Classifier

  /** `metrics` is the controller's table, `infos` the pods the pod manager knows, `kernel` the
      cgroups themselves. */
  datatype Node = Node(
    metrics: map<string, PodMetrics>,
    infos: map<string, CpuState>,
    kernel: map<string, Cgroup>)

  /** Whether each of the three kernel writes of a pod would succeed in this tick. */
  datatype Fate = Fate(cpuset: bool, cpuMax: bool, memoryHigh: bool)

  /** The totals of this tick and of the one before. */
  datatype Totals = Totals(cores: Word, lc: Word, mix: Word, prevLc: Word, prevMix: Word)

  ghost predicate Sound(t: Totals) {
    t.cores >= 1 && t.lc + t.mix <= t.cores
  }

  predicate LcMoved(t: Totals) {
    t.lc != t.prevLc
  }

  predicate Moved(t: Totals) {
    t.mix != t.prevMix || t.lc != t.prevLc
  }

  const NO_CGROUP := Cgroup("", 0, 0)

  // ----- one pod's share of the node

  function Lookup(n: Node, k: string): Track {
    Track(
      if k in n.metrics then Some(n.metrics[k]) else None,
      if k in n.infos then Some(n.infos[k]) else None,
      if k in n.kernel then n.kernel[k] else NO_CGROUP)
  }

  function Put<V>(m: map<string, V>, k: string, v: Option<V>): map<string, V> {
    if v.Some? then m[k := v.value] else m - {k}
  }

  function Store(n: Node, k: string, t: Track): Node {
    Node(Put(n.metrics, k, t.metrics), Put(n.infos, k, t.info),
         if k in n.kernel then n.kernel[k := t.cgroup] else n.kernel)
  }

  ghost predicate WellFormed(n: Node) {
    n.infos.Keys <= n.kernel.Keys
  }

  lemma StoreLookup(n: Node, k: string, t: Track, j: string)
    requires t.cgroup == Lookup(n, k).cgroup || k in n.kernel
    ensures Lookup(Store(n, k, t), j) == if j == k then t else Lookup(n, j)
    ensures Store(n, k, t).kernel.Keys == n.kernel.Keys
  {
  }

  // ----- the pieces of a tick on one pod

  /** `UpdatePodCPUQuota`: the cast to `int64` makes zero and anything above 2^63 mean `max`. */
  function KernelQuota(quota: Word): Word {
    if 0 < quota < 0x8000_0000_0000_0000 then quota else 0
  }

  /** The first half of `update`: write `cpu.max` unless the shadow already agrees, and shift the
      shadow whether or not that worked. */
  function QuotaUpdated(t: Track, state: CpuState, quota: Word, f: Fate): Track
    requires t.metrics.Some?
  {
    var m := t.metrics.value;
    Track(
      Some(m.(cpu := m.cpu.(lastQuota := m.cpu.currentQuota, currentQuota := quota))),
      Some(state),
      if quota != m.cpu.currentQuota && f.cpuMax then t.cgroup.(cpuMax := KernelQuota(quota)) else t.cgroup)
  }

  /** The second half: write `memory.high` unless its shadow agrees, and move that shadow only
      on success. */
  function MemoryUpdated(t: Track, high: int, f: Fate): Track
    requires t.metrics.Some?
  {
    var m := t.metrics.value;
    if high == m.currentHigh || !f.memoryHigh then t
    else t.(metrics := Some(m.(currentHigh := high)), cgroup := t.cgroup.(memoryHigh := high))
  }

  /** `update`. */
  function Updated(t: Track, state: CpuState, quota: Word, high: int, f: Fate): Track
    requires t.metrics.Some?
  {
    MemoryUpdated(QuotaUpdated(t, state, quota, f), high, f)
  }

  /** `UpdatePodCPUSet`. The cgroup library writes no file for an empty list and reports success
      (vendor/github.com/containerd/cgroups/v3/cgroup2/cpu.go:70-75), so the cgroup then keeps
      the cores it had. */
  function WithCpus(g: Cgroup, cpus: seq<Word>, f: Fate): Cgroup {
    if cpus != [] && f.cpuset then g.(cpuset := CpusetText(cpus)) else g
  }

  /** `UpdatePodCPUSetFromLower`; asking for more cores than there are is refused. */
  function FromLower(g: Cgroup, cores: Word, number: Word, f: Fate): Cgroup {
    if number <= cores then WithCpus(g, LowerCpus(number), f) else g
  }

  /** `UpdatePodCPUSetFromUpper`. */
  function FromUpper(g: Cgroup, cores: Word, number: Word, f: Fate): Cgroup {
    if number <= cores then WithCpus(g, UpperCpus(cores, number), f) else g
  }

  /** `UpdatePodCPUSetRange`. */
  function FromRange(g: Cgroup, start: Word, end: Word, f: Fate): Cgroup {
    if start <= end then WithCpus(g, Span(start, end + 1), f) else g
  }

  /** The cpuset write of the LC loop. */
  function LcCpuset(g: Cgroup, t: Totals, f: Fate): Cgroup {
    if LcMoved(t) then FromLower(g, t.cores, t.lc, f) else g
  }

  /** The cpuset write of the MIX loop: a range when it is not empty, the LC set otherwise. */
  function MixCpuset(g: Cgroup, t: Totals, f: Fate): Cgroup {
    var end := MixRangeEnd(t.cores, t.lc, t.mix);
    if end >= t.lc then
      if Moved(t) then FromRange(g, t.lc, end, f) else g
    else LcCpuset(g, t, f)
  }

  /** The cpuset write for a latency-critical pod on the BE set, and for a BE pod on the MIX set. */
  function UpperCpuset(g: Cgroup, t: Totals, f: Fate): Cgroup
    requires t.cores >= 1
  {
    if Moved(t) then FromUpper(g, t.cores, MixCores(t.cores, t.lc), f) else g
  }

  /** The cpuset write for a best-effort pod. */
  function BeCpuset(g: Cgroup, t: Totals, f: Fate): Cgroup
    requires t.cores >= 1
  {
    if Moved(t) then FromUpper(g, t.cores, BeCores(t.cores, t.lc, t.mix), f) else g
  }

  predicate Managed(r: Region) {
    !r.Unmanaged?
  }

  function RegionCpuset(g: Cgroup, r: Region, t: Totals, f: Fate): Cgroup
    requires t.cores >= 1
  {
    match r
    case LC => LcCpuset(g, t, f)
    case MIX => MixCpuset(g, t, f)
    case BE => UpperCpuset(g, t, f)
    case Unmanaged(_) => g
  }

  /** What an action does to its pod: nothing for a cpuset the controller does not manage;
      otherwise the quota is replaced by `unlimited` before the update. */
  function Acted(tr: Track, a: UpdateAction, t: Totals, f: Fate): Track
    requires t.cores >= 1
  {
    if !Managed(a.region) || tr.metrics.None? || tr.info.None? then tr
    else
      var u := Updated(tr, a.state, CPU_QUOTA_UNLIMITED, a.high, f);
      u.(cgroup := RegionCpuset(u.cgroup, a.region, t, f))
  }

  function ListedBe(tr: Track, listing: BeListing, t: Totals, f: Fate): Track
    requires t.cores >= 1
  {
    match listing
    case NotListed => tr
    case BePod => tr.(cgroup := BeCpuset(tr.cgroup, t, f))
    case BeMixPod => tr.(cgroup := UpperCpuset(tr.cgroup, t, f))
  }

  /** `cleanupMetrics` on one record: unmark it, or drop it if nothing marked it. */
  function Swept(m: Option<PodMetrics>): Option<PodMetrics> {
    if m.Some? && m.value.exist then Some(m.value.(exist := false)) else None
  }

  /** A whole tick as one pod experiences it; `v` is absent when the pod is not listed. */
  function PodTick(tr: Track, v: Option<PodView>, t: Totals, f: Fate): Track
    requires t.cores >= 1
  {
    if v.None? then tr.(metrics := Swept(tr.metrics))
    else
      var d := Classify(v.value, tr);
      var classified := tr.(metrics := d.metrics);
      var acted := if d.action.Some? then Acted(classified, d.action.value, t, f) else classified;
      var listed := ListedBe(acted, d.listing, t, f);
      listed.(metrics := Swept(listed.metrics))
  }

  // ----- the node

  datatype Classified = Classified(
    node: Node,
    actions: seq<UpdateAction>,
    bePods: seq<string>,
    beMixPods: seq<string>)

  function ClassifyOne(c: Classified, v: PodView): Classified {
    var tr := Lookup(c.node, v.key);
    var d := Classify(v, tr);
    Classified(
      Store(c.node, v.key, tr.(metrics := d.metrics)),
      if d.action.Some? then c.actions + [d.action.value] else c.actions,
      if d.listing.BePod? then c.bePods + [v.key] else c.bePods,
      if d.listing.BeMixPod? then c.beMixPods + [v.key] else c.beMixPods)
  }

  function ClassifyAll(n: Node, views: seq<PodView>): Classified {
    if views == [] then Classified(n, [], [], [])
    else ClassifyOne(ClassifyAll(n, views[..|views| - 1]), views[|views| - 1])
  }

  /** One of the three loops over the actions: it acts on those in region `r`. */
  function ActOne(n: Node, a: UpdateAction, r: Region, t: Totals, fate: string -> Fate): Node
    requires t.cores >= 1
  {
    if a.region == r then Store(n, a.key, Acted(Lookup(n, a.key), a, t, fate(a.key))) else n
  }

  function ActAll(n: Node, actions: seq<UpdateAction>, r: Region, t: Totals, fate: string -> Fate): Node
    requires t.cores >= 1
  {
    if actions == [] then n
    else ActOne(ActAll(n, actions[..|actions| - 1], r, t, fate), actions[|actions| - 1], r, t, fate)
  }

  function ListOne(n: Node, k: string, listing: BeListing, t: Totals, fate: string -> Fate): Node
    requires t.cores >= 1
  {
    Store(n, k, ListedBe(Lookup(n, k), listing, t, fate(k)))
  }

  function ListAll(n: Node, keys: seq<string>, listing: BeListing, t: Totals, fate: string -> Fate): Node
    requires t.cores >= 1
  {
    if keys == [] then n
    else ListOne(ListAll(n, keys[..|keys| - 1], listing, t, fate), keys[|keys| - 1], listing, t, fate)
  }

  function Sweep(m: map<string, PodMetrics>): map<string, PodMetrics> {
    map k | k in m && m[k].exist :: m[k].(exist := false)
  }

  /** Lines 579-583 and 596: cap the LC total at the machine and round both totals up. */
  function WholeCores(demand: real, cores: Word): (n: int)
    ensures demand >= cores as real ==> n == cores
    ensures demand <= cores as real ==> demand <= n as real < demand + 1.0
  {
    Ceil(MinReal(demand, cores as real))
  }

  lemma {:induction false} DemandIsNonNegative(actions: seq<UpdateAction>, r: Region)
    ensures RegionDemand(actions, r) >= 0.0
  {
    if actions != [] {
      DemandIsNonNegative(actions[..|actions| - 1], r);
    }
  }

  ghost predicate UniqueKeys(views: seq<PodView>) {
    forall i, j :: 0 <= i < j < |views| ==> views[i].key != views[j].key
  }

  /** The totals a tick computes on node `n`. */
  function TickTotals(n: Node, views: seq<PodView>, cores: Word, prevLc: Word, prevMix: Word): (t: Totals)
    requires cores >= 1
    ensures Sound(t) && t.cores == cores && t.mix == 0
  {
    var actions := ClassifyAll(n, views).actions;
    DemandIsNonNegative(actions, LC);
    MixDemandIsZero(n, views);
    Totals(cores, WholeCores(RegionDemand(actions, LC), cores), Ceil(RegionDemand(actions, MIX)), prevLc, prevMix)
  }

  function TickNode(n: Node, views: seq<PodView>, t: Totals, fate: string -> Fate): Node
    requires t.cores >= 1
  {
    var c := ClassifyAll(n, views);
    var lc := ActAll(c.node, c.actions, LC, t, fate);
    var mix := ActAll(lc, c.actions, MIX, t, fate);
    var be := ActAll(mix, c.actions, BE, t, fate);
    var beMix := ListAll(be, c.beMixPods, BeMixPod, t, fate);
    var last := ListAll(beMix, c.bePods, BePod, t, fate);
    last.(metrics := Sweep(last.metrics))
  }

  /** No pod list makes the MIX total anything but zero. */
  lemma {:induction false} MixDemandIsZero(n: Node, views: seq<PodView>)
    ensures RegionDemand(ClassifyAll(n, views).actions, MIX) == 0.0
  {
    if views != [] {
      var v := views[|views| - 1];
      var before := ClassifyAll(n, views[..|views| - 1]);
      MixDemandIsZero(n, views[..|views| - 1]);
      ClassifiedDemand(v, Lookup(before.node, v.key));
      DemandOfAppended(before, v, MIX);
    }
  }

  lemma DemandOfAppended(before: Classified, v: PodView, r: Region)
    ensures RegionDemand(ClassifyOne(before, v).actions, r)
         == RegionDemand(before.actions, r) + VerdictDemand(Classify(v, Lookup(before.node, v.key)), r)
  {
    var d := Classify(v, Lookup(before.node, v.key));
    if d.action.Some? {
      var actions := before.actions + [d.action.value];
      assert actions[..|actions| - 1] == before.actions;
    }
  }
}

/** How one tick of the resource controller looks at one pod
    (pkg/podmanager/resource_controller.go:277-562): which record it keeps, which update it
    asks for, and what it demands of the node. */
module Classifier {
  import opened Options
  import opened Words
  import opened PodLabels
  import Scaling

  const DEFAULT_MAX_CPU_LIMIT := 3.0
  const DEFAULT_MEMORY_HIGH := 10 * 1024 * 1024 * 1024
  const CPU_QUOTA_UNLIMITED: Word := 0
  const DEFAULT_CPU_REQUEST: Word := 3000

  /** `PodInfo.CPUState`. */
  datatype CpuState = CpuUnknown | DynamicOverprovision | DynamicResourceEfficient | CpuMax

  /** The kernel side of a pod's cgroup. `cpuMax == 0` stands for the kernel's `max`; `cpuset`
      is the text last written to `cpuset.cpus`. */
  datatype Cgroup = Cgroup(cpuset: string, cpuMax: Word, memoryHigh: int)

  /** `PerPodMetrics`. `sampled` says that the previous tick's statistics are at hand; `cpu` is
      the value of its `CPUMetrics`; `napSince` is `RLNTimestamp` in nanoseconds. */
  datatype PodMetrics = PodMetrics(
    exist: bool,
    sampled: bool,
    cpu: Scaling.Feedback,
    currentHigh: int,
    napSince: Option<int>)

  function NewMetrics(now: int): PodMetrics {
    PodMetrics(true, false, Scaling.Fresh(now), -1, None)
  }

  /** What one tick sees of one listed pod: its labels, the labels and container readiness of
      the pod manager's own copy, whether the cgroup could be read, the differences of its
      counters since the previous reading, and the clock. */
  datatype PodView = PodView(
    key: string,
    labels: Labels,
    infoLabels: Labels,
    containersReady: seq<bool>,
    statOk: bool,
    quotaReadable: bool,
    throttled: Word,
    usageUsec: Word,
    sinceLastUsec: Scaling.Interval,
    deviation: Scaling.Measured,
    now: int,
    wildRequest: Word)

  /** Everything the controller and the kernel hold for one pod; `info` is the pod manager's
      entry, absent when it does not know the pod. */
  datatype Track = Track(metrics: Option<PodMetrics>, info: Option<CpuState>, cgroup: Cgroup)

  datatype UpdateAction = UpdateAction(
    key: string,
    request: Word,
    state: CpuState,
    region: Region,
    quota: Word,
    high: int)

  /** Best-effort pods are only listed, by the set they share. */
  datatype BeListing = NotListed | BePod | BeMixPod

  /** What the classification loop does with one pod. */
  datatype Verdict = Verdict(metrics: Option<PodMetrics>, action: Option<UpdateAction>, listing: BeListing)

  /** The arm of the readiness test and state switch that a pod takes. */
  datatype Arm =
    | Steady
    | Starting
    | Warming
    | Speeding
    | NapDown
    | NapUp
    | LongNapDown
    | LongNapUp
    | Unready
    | NoArm

  function AllReady(containersReady: seq<bool>): bool {
    forall i :: 0 <= i < |containersReady| ==> containersReady[i]
  }

  function ArmOf(ready: bool, state: PodState, endpoint: Endpoint): Arm {
    if !ready then Unready
    else match state
      case Running => Steady
      case Initializing => Starting
      case WarmingUp => Warming
      case FullSpeed => Speeding
      case CatNap => if endpoint == Down then NapDown else NapUp
      case LongNap => if endpoint == Down then LongNapDown else LongNapUp
      case UnknownState => NoArm
  }

  function PodArm(v: PodView): Arm {
    ArmOf(AllReady(v.containersReady), GetPodState(v.labels), GetPodEndpointState(v.labels))
  }

  function PodService(v: PodView): ServiceType {
    GetPodServiceType(v.infoLabels)
  }

  function PodRegion(v: PodView): Option<Region> {
    GetRegion(v.labels, PodService(v))
  }

  /** `uint64(requestQuota)`: the requested CPU time per period. */
  function PodRequest(v: PodView): Word {
    ToWord(GetPodCPURequestOrDefault(v.labels, DEFAULT_CPU_REQUEST) as real / 1000.0
           * DEFAULT_CPU_PERIOD as real, v.wildRequest)
  }

  /** `uint64(math.Ceil(DefaultCPUPeriod * DefaultMaxCPULimit))`. */
  function MaxQuota(): Word {
    Ceil(DEFAULT_CPU_PERIOD as real * DEFAULT_MAX_CPU_LIMIT)
  }

  /** Lines 370-380: an empty `LastQuota` forces the real quota to be read again; an unreadable
      one is replaced by a value no request can equal. */
  function Reread(m: PodMetrics, readable: bool, cpuMax: Word): PodMetrics {
    if m.cpu.lastQuota == 0 then
      m.(cpu := m.cpu.(currentQuota := if readable then cpuMax else MAX_WORD, lastQuota := CPU_QUOTA_UNLIMITED))
    else m
  }

  /** The arms of the switch that call `dynCalculateQuota`; they overwrite what it returns. */
  function Recalculated(arm: Arm, v: PodView, cpu: Scaling.Feedback): (r: Scaling.Feedback)
    ensures r.lastQuota == cpu.lastQuota && r.currentQuota == cpu.currentQuota
  {
    if arm == Steady || arm == Speeding then Scaling.NextFeedback(cpu, 0.0, v.now, v.deviation).after else cpu
  }

  predicate NapExpired(napSince: Option<int>, now: int) {
    napSince.Some? && now - napSince.value > 3_000_000_000
  }

  function NapSinceAfter(arm: Arm, napSince: Option<int>, now: int): Option<int> {
    match arm
    case LongNapDown => if napSince == None then Some(now) else napSince
    case NoArm => napSince
    case _ => None
  }

  function ArmAction(arm: Arm, v: PodView, region: Region, napSince: Option<int>): Option<UpdateAction> {
    var r := PodRequest(v);
    var high := DEFAULT_MEMORY_HIGH;
    match arm
    case Steady => Some(UpdateAction(v.key, r, DynamicOverprovision, region, r, high))
    case Starting => Some(UpdateAction(v.key, r, CpuMax, BE, CPU_QUOTA_UNLIMITED, high))
    case Warming => Some(UpdateAction(v.key, r, CpuMax, LC, MaxQuota(), high))
    case Speeding => Some(UpdateAction(v.key, r, CpuMax, LC, r, high))
    case NapDown => Some(UpdateAction(v.key, r, DynamicResourceEfficient, BE, CPU_QUOTA_UNLIMITED, high))
    case NapUp => Some(UpdateAction(v.key, r, CpuMax, region, CPU_QUOTA_UNLIMITED, high))
    case LongNapDown =>
      Some(UpdateAction(v.key, r, DynamicResourceEfficient, BE, CPU_QUOTA_UNLIMITED,
                        if NapExpired(napSince, v.now) then 0 else high))
    case LongNapUp => Some(UpdateAction(v.key, r, CpuMax, region, CPU_QUOTA_UNLIMITED, high))
    case Unready => Some(UpdateAction(v.key, r, CpuMax, BE, CPU_QUOTA_UNLIMITED, high))
    case NoArm => None
  }

  /** A MIX action leaves `request` at its zero value. */
  function MixAction(v: PodView): UpdateAction {
    UpdateAction(v.key, 0, CpuMax, MIX, MaxQuota(), DEFAULT_MEMORY_HIGH)
  }

  /** Whether the tick gets as far as looking the pod up in the metrics table. */
  predicate ReachesLookup(v: PodView, info: Option<CpuState>) {
    info.Some? && PodRegion(v).Some? && PodService(v) != BeService
  }

  function LookedUp(m: Option<PodMetrics>, now: int): PodMetrics {
    if m.Some? then m.value.(exist := true) else NewMetrics(now)
  }

  /** Lines 357-380: both windows are fed, and the quota is read again if need be. */
  function Refreshed(v: PodView, m: PodMetrics, cpuMax: Word): PodMetrics {
    Reread(m.(cpu := Scaling.Observed(m.cpu, v.throttled, v.usageUsec, v.sinceLastUsec)), v.quotaReadable, cpuMax)
  }

  /** Lines 399-559: what the readiness test and state switch leave of the record. */
  function Switched(arm: Arm, v: PodView, m: PodMetrics): PodMetrics {
    m.(napSince := NapSinceAfter(arm, m.napSince, v.now), cpu := Recalculated(arm, v, m.cpu))
  }

  /** The part of the loop body that follows the lookup: `m` is the record just marked. */
  function Judge(v: PodView, m: PodMetrics, region: Region, cpuMax: Word): Verdict {
    if !v.statOk then Verdict(Some(m.(sampled := false)), None, NotListed)
    else if !m.sampled then Verdict(Some(m.(sampled := true)), None, NotListed)
    else
      var r := Refreshed(v, m, cpuMax);
      if region == MIX then Verdict(Some(r), Some(MixAction(v)), NotListed)
      else Verdict(Some(Switched(PodArm(v), v, r)), ArmAction(PodArm(v), v, region, r.napSince), NotListed)
  }

  /** The loop body on one pod. */
  function Classify(v: PodView, t: Track): Verdict {
    if t.info.None? then Verdict(None, None, NotListed)
    else if PodRegion(v).None? then Verdict(t.metrics, None, NotListed)
    else if PodService(v) == BeService then
      Verdict(None, None, match PodRegion(v).value case BE => BePod case MIX => BeMixPod case _ => NotListed)
    else Judge(v, LookedUp(t.metrics, v.now), PodRegion(v).value, t.cgroup.cpuMax)
  }

  // ----- in the words of the labels

  predicate InState(v: PodView, text: string) {
    Says(v.labels, "swiftkube.io/state", text)
  }

  predicate EndpointIsDown(v: PodView) {
    Says(v.labels, "swiftkube.io/endpoint", "Down")
  }

  predicate OfService(v: PodView, text: string) {
    Says(v.infoLabels, "swiftkube.io/service-type", text)
  }

  predicate IsReady(v: PodView) {
    !exists i :: 0 <= i < |v.containersReady| && !v.containersReady[i]
  }

  /** The set is the one the cpuset label names or, without that label, its service's own. */
  predicate OwnSet(v: PodView, text: string, service: string) {
    Says(v.labels, "swiftkube.io/cpuset", text)
    || ("swiftkube.io/cpuset" !in v.labels && OfService(v, service))
  }

  predicate OwnLc(v: PodView) {
    OwnSet(v, "lc-cpuset", "lc-service")
  }

  predicate OwnBe(v: PodView) {
    OwnSet(v, "be-cpuset", "be-service")
  }

  predicate OwnMix(v: PodView) {
    Says(v.labels, "swiftkube.io/cpuset", "mix-cpuset")
  }

  /** The pods the controller keeps records of: they have a set and are not best effort. */
  predicate IsRecorded(v: PodView) {
    ("swiftkube.io/cpuset" in v.labels || OfService(v, "lc-service")) && !OfService(v, "be-service")
  }

  lemma TextsDiffer()
    ensures "Ready-FullSpeed" != "Ready-CatNap" && "Ready-FullSpeed" != "Ready-Running"
    ensures "Ready-CatNap" != "Ready-Running" && "Ready-LongNap" != "Ready-Running"
    ensures "Ready-FullSpeed" != "Ready-LongNap" && "Ready-CatNap" != "Ready-LongNap"
    ensures "Initializing" != "WarmingUp" && "Initializing"[0] == 'I' && "WarmingUp"[0] == 'W'
    ensures "Ready-FullSpeed"[0] == "Ready-CatNap"[0] == "Ready-Running"[0] == "Ready-LongNap"[0] == 'R'
    ensures "be-service" != "lc-service" && "Down" != "Up"
    ensures "lc-cpuset" != "be-cpuset" && "lc-cpuset" != "mix-cpuset" && "be-cpuset" != "mix-cpuset"
  {
    assert |"Ready-FullSpeed"| == 15 && |"Ready-CatNap"| == 12 && |"Ready-Running"| == |"Ready-LongNap"| == 13;
    assert "Ready-LongNap"[6] == 'L' && "Ready-Running"[6] == 'R' && |"Up"| == 2 && |"Down"| == 4;
    assert "be-service"[0] == 'b' && "lc-service"[0] == 'l';
    assert "lc-cpuset"[0] == 'l' && "be-cpuset"[0] == 'b' && "mix-cpuset"[0] == 'm';
  }

  /** How a pod's service and set are read. */
  lemma SetInWords(v: PodView)
    ensures PodService(v) == BeService <==> OfService(v, "be-service")
    ensures PodService(v) == LcService <==> OfService(v, "lc-service")
    ensures PodRegion(v) == Some(LC) <==> OwnLc(v)
    ensures PodRegion(v) == Some(BE) <==> OwnBe(v)
    ensures PodRegion(v) == Some(MIX) <==> OwnMix(v)
    ensures forall info :: ReachesLookup(v, info) <==> info.Some? && IsRecorded(v)
  {
    TextsDiffer();
  }

  /** How a pod's readiness, state and endpoint are read: which arm it takes. */
  lemma ArmInWords(v: PodView)
    ensures PodArm(v) == Unready <==> exists i :: 0 <= i < |v.containersReady| && !v.containersReady[i]
    ensures PodArm(v) == Steady <==> IsReady(v) && InState(v, "Ready-Running")
    ensures PodArm(v) == Starting <==> IsReady(v) && InState(v, "Initializing")
    ensures PodArm(v) == Warming <==> IsReady(v) && InState(v, "WarmingUp")
    ensures PodArm(v) == Speeding <==> IsReady(v) && InState(v, "Ready-FullSpeed")
    ensures PodArm(v) == NapDown <==> IsReady(v) && InState(v, "Ready-CatNap") && EndpointIsDown(v)
    ensures PodArm(v) == NapUp <==> IsReady(v) && InState(v, "Ready-CatNap") && !EndpointIsDown(v)
    ensures PodArm(v) == LongNapDown <==> IsReady(v) && InState(v, "Ready-LongNap") && EndpointIsDown(v)
    ensures PodArm(v) == LongNapUp <==> IsReady(v) && InState(v, "Ready-LongNap") && !EndpointIsDown(v)
  {
    TextsDiffer();
  }

  // ----- demand

  /** What one action adds to the total of its own set: the smaller of request and quota. */
  function ActionCores(a: UpdateAction): (r: real)
    ensures 100000.0 * r == (if a.request <= a.quota then a.request else a.quota) as real
  {
    MinReal(a.request as real / DEFAULT_CPU_PERIOD as real, a.quota as real / DEFAULT_CPU_PERIOD as real)
  }

  function RegionDemand(actions: seq<UpdateAction>, region: Region): real {
    if actions == [] then 0.0
    else
      var a := actions[|actions| - 1];
      RegionDemand(actions[..|actions| - 1], region) + if a.region == region then ActionCores(a) else 0.0
  }

  /** The latency-critical demand of one pod, read off its labels: a ready pod outside the MIX
      set demands its request when it runs in the LC set or at full speed, at most three cores
      when it warms up, and nothing in every other case. */
  function PodDemand(v: PodView, t: Track): real {
    if t.info.None? || !IsRecorded(v) || !v.statOk || t.metrics.None? || !t.metrics.value.sampled then 0.0
    else LabelDemand(v)
  }

  function LabelDemand(v: PodView): real {
    var request := PodRequest(v) as real / 100000.0;
    if OwnMix(v) || exists i :: 0 <= i < |v.containersReady| && !v.containersReady[i] then 0.0
    else if InState(v, "Ready-Running") then (if OwnLc(v) then request else 0.0)
    else if InState(v, "Ready-FullSpeed") then request
    else if InState(v, "WarmingUp") then (if request <= 3.0 then request else 3.0)
    else 0.0
  }

  function VerdictDemand(d: Verdict, region: Region): real {
    if d.action.Some? && d.action.value.region == region then ActionCores(d.action.value) else 0.0
  }

  lemma ArmDemand(v: PodView, napSince: Option<int>)
    requires PodRegion(v).Some? && PodRegion(v).value != MIX
    ensures var a := ArmAction(PodArm(v), v, PodRegion(v).value, napSince);
            && VerdictDemand(Verdict(None, a, NotListed), MIX) == 0.0
            && VerdictDemand(Verdict(None, a, NotListed), LC) == LabelDemand(v) >= 0.0
            && (a.Some? ==> a.value.key == v.key)
  {
    SetInWords(v);
    ArmInWords(v);
    TextsDiffer();
    assert MaxQuota() as real / DEFAULT_CPU_PERIOD as real == 3.0;
  }

  /** The label-level reading of demand is what classification and summing add up to; a MIX
      action never adds anything. */
  lemma ClassifiedDemand(v: PodView, t: Track)
    ensures VerdictDemand(Classify(v, t), LC) == PodDemand(v, t) >= 0.0
    ensures VerdictDemand(Classify(v, t), MIX) == 0.0
    ensures Classify(v, t).action.Some? ==> Classify(v, t).action.value.key == v.key
  {
    SetInWords(v);
    if PodRegion(v).Some? && PodRegion(v).value != MIX {
      ArmDemand(v, LookedUp(t.metrics, v.now).napSince);
    }
  }

  lemma RequestScales(v: PodView)
    ensures var n: int := GetPodCPURequestOrDefault(v.labels, 3000);
            PodRequest(v) == if 100 * n < 0x1_0000_0000_0000_0000 then 100 * n else v.wildRequest
  {
    var n: int := GetPodCPURequestOrDefault(v.labels, DEFAULT_CPU_REQUEST);
    assert n as real / 1000.0 * DEFAULT_CPU_PERIOD as real == (100 * n) as real;
  }

  /** A request label of `n` millicores asks for `100 n` microseconds of every period, as long as
      that fits 64 bits. */
  lemma RequestIsExact(v: PodView, n: nat)
    requires Says(v.labels, "swiftkube.io/cpu-request", Decimal(n)) && n < 0x1_0000_0000_0000_0000
    ensures PodRequest(v) == if 100 * n < 0x1_0000_0000_0000_0000 then 100 * n else v.wildRequest
  {
    RequestLabelReads(v.labels, 3000, n);
    RequestScales(v);
  }

  /** Without a label that is made of digits a pod asks for three cores. */
  lemma RequestByDefault(v: PodView)
    requires var key := "swiftkube.io/cpu-request";
             key in v.labels ==>
               v.labels[key] == "" || exists i :: 0 <= i < |v.labels[key]| && !IsDigit(v.labels[key][i])
    ensures PodRequest(v) == 300000
  {
    NoRequestLabel(v.labels, 3000);
    RequestScales(v);
  }
}

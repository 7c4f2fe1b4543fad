/** Short histories of one pod, in a node of four cores, that reach what `PodHistory` and
    `MemoryHistory` describe: wrong cpusets while the totals stand still, a memory shadow misled by
    a replacement, and a pod that stays reclaimed. */
module PodScenarios {
  import opened Options
  import opened PodLabels
  import opened Cpuset
  import opened Classifier
  import opened NodeTick
  import opened PodHistory
  import opened MemoryHistory
  import TickRuns
  import ZeroDemand

  /** Nothing is demanded; then three cores are; and then they still are. */
  const IDLE := Totals(4, 0, 0, 0, 0)
  const RISING := Totals(4, 3, 0, 0, 0)
  const STILL := Totals(4, 3, 0, 3, 0)

  const ALL_FAIL := Fate(false, false, false)

  /** A pod without a record, as the kubelet has set it up. */
  function Unseen(cpuset: string, high: int): Track {
    Track(None, Some(CpuUnknown), Cgroup(cpuset, 0, high))
  }

  function Turn(tr: Track, v: PodView, t: Totals): Moment {
    Moment(tr, false, Some(v), t, ZeroDemand.ALL_OK)
  }

  /** A running pod of the LC service, asking for three cores. */
  function Busy(): PodView {
    ZeroDemand.LcView("Ready-Running")
  }

  function Unready(): PodView {
    Busy().(containersReady := [false])
  }

  lemma Reads()
    ensures PodService(Busy()) == PodService(Unready()) == LcService
    ensures PodRegion(Busy()) == PodRegion(Unready()) == Some(LC)
    ensures PodArm(Busy()) == Steady && PodArm(Unready()) == Arm.Unready
  {
    ZeroDemand.LcReads("Ready-Running");
    assert !Unready().containersReady[0];
  }

  lemma Targets()
    ensures Target(LC, RISING) == Target(LC, STILL) == [0, 1, 2]
    ensures Target(BE, RISING) == Target(BE, STILL) == [3]
  {
    assert MinBeCores(4) == 1;
    BeSetStart(4, 3);
    assert LowerCpus(3) == [0, 1, 2] && UpperCpus(4, 1) == [3];
  }

  lemma Follows(m: Moment, v: PodView, u: Totals)
    requires Plausible(m) && !m.missed && m.view.Some?
    requires Sound(u) && u.mix == 0 && u.prevMix == 0 && u.prevLc == m.totals.lc && u.cores == m.totals.cores
    ensures Plausible(Turn(After(m), v, u)) && Continues(m, Turn(After(m), v, u))
  {
    TickRuns.PodSweepIsExact(m.before, m.view, m.totals, m.fate);
  }

  /** One more turn of a history. */
  lemma Extends(h: seq<Moment>, m: Moment)
    requires IsHistory(h) && h != [] && Plausible(m) && Continues(h[|h| - 1], m)
    ensures IsHistory(h + [m])
  {
  }

  /** The turn that creates a record does nothing else. */
  lemma Creates(m: Moment)
    requires Plausible(m) && !m.missed && m.view.Some? && m.before.metrics.None? && m.view.value.statOk
    requires ReachesLookup(m.view.value, m.before.info)
    ensures After(m).cgroup == m.before.cgroup && After(m).info == m.before.info
    ensures After(m).metrics.Some? && After(m).metrics.value.sampled
            && After(m).metrics.value.currentHigh == -1 && After(m).metrics.value.napSince == None
  {
  }

  ghost predicate GetsToSwitch(m: Moment) {
    Plausible(m) && FeedsWindows(m) && PodRegion(m.view.value).value != MIX && PodArm(m.view.value) != NoArm
  }

  /** What a turn decides for a pod it has a sample of. */
  lemma Decides(m: Moment)
    requires GetsToSwitch(m)
    ensures TakenArm(m) == PodArm(m.view.value)
    ensures var v := m.view.value;
            Decision(m) == ArmAction(PodArm(v), v, PodRegion(v).value,
                                     m.before.metrics.value.napSince)
  {
  }

  /** Its record is then ready for the next turn. */
  lemma KeepsSample(m: Moment)
    requires GetsToSwitch(m)
    ensures After(m).metrics.Some? && After(m).metrics.value.sampled && After(m).info.Some?
  {
    Decides(m);
    ZeroDemand.DecidedTurnKeepsSample(m);
  }

  // ----- cpusets

  /** A pod that joins after the totals last moved keeps the cores it came with. */
  lemma LateJoinerKeepsItsList(cpuset: string, high: int) returns (h: seq<Moment>)
    ensures IsHistory(h) && |h| == 2 && SameCgroup(h, 0, 1) && h[1].fate == ZeroDemand.ALL_OK
    ensures Placement(h[1]) == Some(LC) && Target(LC, h[1].totals) == [0, 1, 2]
    ensures After(h[1]).cgroup.cpuset == cpuset
  {
    Reads();
    Targets();
    var one := Turn(Unseen(cpuset, high), Busy(), STILL);
    var two := Turn(After(one), Busy(), STILL);
    Follows(one, Busy(), STILL);
    Creates(one);
    Decides(two);
    h := [one, two];
    UnwrittenKeepsItsList(h, 0, 1);
  }

  /** A pod's first two turns, the second of which places it in LC as the demand rises. */
  lemma Rises(cpuset: string, high: int, f: Fate) returns (h: seq<Moment>)
    ensures IsHistory(h) && |h| == 2 && h[0].fate == ZeroDemand.ALL_OK && h[1].fate == f
    ensures h[1].totals == RISING && !h[1].missed && h[1].view == Some(Busy())
    ensures h[1].before.cgroup == After(h[0]).cgroup && h[1].before.cgroup.cpuset == cpuset
    ensures Placement(h[1]) == Some(LC)
    ensures After(h[1]).metrics.Some? && After(h[1]).metrics.value.sampled && After(h[1]).info.Some?
  {
    Reads();
    var one := Turn(Unseen(cpuset, high), Busy(), IDLE);
    var two := Turn(After(one), Busy(), RISING).(fate := f);
    Follows(one, Busy(), RISING);
    Creates(one);
    Decides(two);
    KeepsSample(two);
    h := [one, two];
  }

  /** And the third, in which the totals stand still. */
  lemma StandsStill(h: seq<Moment>, v: PodView) returns (g: seq<Moment>)
    requires IsHistory(h) && |h| == 2 && h[1].totals == RISING && !h[1].missed && h[1].view == Some(Busy())
    requires After(h[1]).metrics.Some? && After(h[1]).metrics.value.sampled && After(h[1]).info.Some?
    requires v == Busy() || v == Unready()
    ensures g == h + [Turn(After(h[1]), v, STILL)] && IsHistory(g)
    ensures Placement(g[2]) == Some(if v == Busy() then LC else BE)
  {
    Reads();
    var three := Turn(After(h[1]), v, STILL);
    Follows(h[1], v, STILL);
    Decides(three);
    Extends(h, three);
    g := h + [three];
  }

  /** A pod that gets its LC cores, and then stops being ready, keeps them although it is now
      placed with best effort. */
  lemma DemotedPodKeepsLcCores(cpuset: string, high: int) returns (h: seq<Moment>)
    ensures IsHistory(h) && |h| == 3 && SameCgroup(h, 1, 2) && forall m :: m in h ==> m.fate == ZeroDemand.ALL_OK
    ensures Placement(h[2]) == Some(BE) && Target(BE, h[2].totals) == [3]
    ensures ParseCpus(After(h[2]).cgroup.cpuset) == [0, 1, 2]
  {
    Targets();
    h := Rises(cpuset, high, ZeroDemand.ALL_OK);
    h := StandsStill(h, Unready());
    ChangingSetsKeepsTheList(h, 1, 2);
    CpusetTextRoundTrip([0, 1, 2]);
  }

  /** A pod whose write fails when the totals move keeps its old list, although every later write
      would succeed. */
  lemma FailedWriteIsNotRepeated(cpuset: string, high: int) returns (h: seq<Moment>)
    ensures IsHistory(h) && |h| == 3 && SameCgroup(h, 1, 2)
    ensures h[1].fate == ALL_FAIL && h[2].fate == ZeroDemand.ALL_OK
    ensures Placement(h[1]) == Placement(h[2]) == Some(LC) && Target(LC, h[2].totals) == [0, 1, 2]
    ensures After(h[2]).cgroup.cpuset == cpuset
  {
    Targets();
    h := Rises(cpuset, high, ALL_FAIL);
    h := StandsStill(h, Busy());
    UnwrittenKeepsItsList(h, 1, 2);
  }

  // ----- memory

  /** After its second turn the controller remembers the limit that it has set. */
  lemma Settles(cpuset: string, high: int) returns (h: seq<Moment>)
    ensures IsHistory(h) && |h| == 2 && !h[1].missed && h[1].view.Some? && h[1].totals == STILL
    ensures var t := After(h[1]); t.info.Some? && t.metrics.Some? && t.metrics.value.sampled
    ensures After(h[1]).metrics.value.currentHigh == After(h[1]).cgroup.memoryHigh == DEFAULT_MEMORY_HIGH
  {
    Reads();
    var one := Turn(Unseen(cpuset, high), Busy(), STILL);
    var two := Turn(After(one), Busy(), STILL);
    Follows(one, Busy(), STILL);
    Creates(one);
    Decides(two);
    KeepsSample(two);
    h := [one, two];
    ShadowIsCoherent(h, 1);
    TurnMovesMemory(two);
    TurnMovesShadow(two, -1);
  }

  /** A running pod is replaced under its record by another of the same name, and the new pod runs
      with its own `memory.high`, whatever it is, although every write would succeed. */
  lemma ReplacementMisleads(cpuset: string, high: int, own: int) returns (h: seq<Moment>, g: seq<Moment>)
    ensures Replaced(h, g) && |h| == 2 && |g| == 1 && g[0].fate == ZeroDemand.ALL_OK
    ensures ActedOn(g[0]) && Decision(g[0]).value.high == DEFAULT_MEMORY_HIGH
    ensures After(g[0]).cgroup.memoryHigh == own && (Coherent(After(g[0])) <==> own == DEFAULT_MEMORY_HIGH)
  {
    h := Settles(cpuset, high);
    g := [Turn(After(h[1]).(cgroup := Cgroup(cpuset, 0, own)), Busy(), STILL)];
    Reads();
    Follows(h[1], Busy(), STILL);
    Decides(g[0]);
    KeepsSample(g[0]);
    IncoherentShadowPersists(h, g, 0);
    ReplacementAndShadow(h, g, 0);
  }

  // ----- reclaim

  /** A pod with a cpuset label that the controller does not manage. */
  function Unlimited(labels: map<string, string>, now: int): PodView {
    ZeroDemand.View("pod", labels[CPUSET_LABEL := "ulimited-cpuset"], "lc-service").(now := now)
  }

  function Napping(now: int): PodView {
    Unlimited(map[STATE_LABEL := "Ready-LongNap", ENDPOINT_LABEL := "Down"], now)
  }

  function Awake(now: int): PodView {
    Unlimited(map[STATE_LABEL := "Ready-Running"], now)
  }

  lemma UnlimitedReads(now: int)
    ensures PodService(Napping(now)) == PodService(Awake(now)) == LcService
    ensures PodRegion(Napping(now)) == PodRegion(Awake(now)) == Some(Region.Unmanaged("ulimited-cpuset"))
    ensures PodArm(Napping(now)) == LongNapDown && PodArm(Awake(now)) == Steady
  {
    ZeroDemand.KeysDiffer();
    assert |"ulimited-cpuset"| == 15 && |"lc-cpuset"| == |"be-cpuset"| == 9 && |"mix-cpuset"| == 10;
    assert |"Ready-LongNap"| == 13 && |"Ready-FullSpeed"| == 15 && |"Ready-CatNap"| == 12;
    assert "Ready-LongNap"[6] == 'L' && "Ready-Running"[6] == 'R';
    assert AllReady([true]);
  }

  /** A history up to a turn that has left the pod with a record to act on. */
  ghost predicate Prepared(h: seq<Moment>, n: nat) {
    && IsHistory(h) && |h| == n + 1 && SameCgroup(h, 0, n) && (forall m :: m in h ==> m.fate == ZeroDemand.ALL_OK)
    && !h[n].missed && h[n].view.Some? && h[n].totals == IDLE
    && After(h[n]).info.Some? && After(h[n]).metrics.Some? && After(h[n]).metrics.value.sampled
  }

  lemma Found(cpuset: string, high: int) returns (h: seq<Moment>)
    ensures Prepared(h, 0) && After(h[0]).metrics.value.napSince == None
  {
    UnlimitedReads(0);
    var one := Turn(Unseen(cpuset, high), Napping(0), IDLE);
    Creates(one);
    h := [one];
  }

  /** One more turn of a prepared history. */
  lemma Proceeds(h: seq<Moment>, n: nat, v: PodView) returns (g: seq<Moment>)
    requires Prepared(h, n) && v.statOk && ReachesLookup(v, After(h[n]).info)
    requires PodRegion(v).value != MIX && PodArm(v) != NoArm
    ensures g == h + [Turn(After(h[n]), v, IDLE)] && Prepared(g, n + 1)
    ensures TakenArm(g[n + 1]) == PodArm(v)
    ensures Decision(g[n + 1]) == ArmAction(PodArm(v), v, PodRegion(v).value, After(h[n]).metrics.value.napSince)
  {
    var m := Turn(After(h[n]), v, IDLE);
    Follows(h[n], v, IDLE);
    Decides(m);
    KeepsSample(m);
    Extends(h, m);
    StaysPrepared(h, n, m);
    g := h + [m];
  }

  lemma StaysPrepared(h: seq<Moment>, n: nat, m: Moment)
    requires Prepared(h, n) && IsHistory(h + [m]) && m.before == After(h[n])
    requires m.fate == ZeroDemand.ALL_OK && !m.missed && m.view.Some? && m.totals == IDLE
    requires After(m).info.Some? && After(m).metrics.Some? && After(m).metrics.value.sampled
    ensures Prepared(h + [m], n + 1)
  {
    var g := h + [m];
    assert forall i, j :: 0 <= i < j <= n && j == i + 1 ==> g[i] == h[i] && g[j] == h[j];
  }

  /** It naps for more than three seconds and is reclaimed. */
  lemma Reclaimed(cpuset: string, high: int) returns (h: seq<Moment>)
    ensures Prepared(h, 2) && SetsMemory(h[2]) && Decision(h[2]).value.high == 0
  {
    UnlimitedReads(1_000_000_000);
    UnlimitedReads(5_000_000_000);
    var one := Found(cpuset, high);
    var two := Proceeds(one, 0, Napping(1_000_000_000));
    NapSinceMoves(two[1]);
    h := Proceeds(two, 1, Napping(5_000_000_000));
  }

  /** And then it runs again: its `memory.high` is still zero, and `UnmanagedStaysReclaimed` keeps
      it there. */
  lemma AwakePodStaysReclaimed(cpuset: string, high: int) returns (h: seq<Moment>)
    ensures IsHistory(h) && |h| == 4 && SameCgroup(h, 0, 3) && forall m :: m in h ==> m.fate == ZeroDemand.ALL_OK
    ensures SetsMemory(h[2]) && Decision(h[2]).value.high == 0
    ensures h[3].view == Some(Awake(6_000_000_000)) && RunsUnmanaged(h[3]) && Decision(h[3]).Some?
    ensures After(h[3]).cgroup.memoryHigh == 0
  {
    UnlimitedReads(6_000_000_000);
    var napped := Reclaimed(cpuset, high);
    h := Proceeds(napped, 2, Awake(6_000_000_000));
    UnmanagedStaysReclaimed(h, 2, 3);
  }
}

/** What holds of one pod over any number of ticks of the resource controller: which cores it
    ends up with, whether its kernel quota recovers, when its endpoint may come up, and when its
    memory may be reclaimed. */
module PodHistory {
  import opened Options
  import opened Words
  import opened PodLabels
  import opened Cpuset
  import opened Classifier
  import opened NodeTick

  /** One turn of the main loop for one pod. `missed` is a turn whose pod listing failed;
      `view` is absent when the pod was not listed. */
  datatype Moment = Moment(before: Track, missed: bool, view: Option<PodView>, totals: Totals, fate: Fate)

  function After(m: Moment): Track
    requires m.totals.cores >= 1
  {
    if m.missed then m.before else PodTick(m.before, m.view, m.totals, m.fate)
  }

  ghost predicate Plausible(m: Moment) {
    && Sound(m.totals) && m.totals.mix == 0 && m.totals.prevMix == 0
    && (m.missed ==> !Moved(m.totals))
    && (m.view.Some? && m.before.metrics.Some? ==> !m.before.metrics.value.exist)
  }

  /** Between two turns nobody but the controller writes to a cgroup it has a record for.
      A pod without a record may be replaced by another of the same name. */
  ghost predicate Continues(m: Moment, next: Moment)
    requires m.totals.cores >= 1
  {
    && next.before.metrics == After(m).metrics
    && (After(m).metrics.Some? ==> next.before.cgroup == After(m).cgroup)
    && next.totals.prevLc == m.totals.lc
    && next.totals.cores == m.totals.cores
  }

  /** Turns that follow one another, from whatever state. */
  ghost predicate IsStretch(h: seq<Moment>) {
    && (forall i :: 0 <= i < |h| ==> Plausible(h[i]))
    && (forall i, j :: 0 <= i < j < |h| && j == i + 1 ==> Continues(h[i], h[j]))
  }

  /** A stretch that begins with the controller, when it has no records. */
  ghost predicate IsHistory(h: seq<Moment>) {
    && IsStretch(h)
    && (h != [] ==> h[0].before.metrics == None)
  }

  /** The pod's cgroup is not replaced from turn `a` on. */
  ghost predicate SameCgroup(h: seq<Moment>, a: nat, b: nat)
    requires IsStretch(h) && a <= b < |h|
  {
    forall i, j :: a <= i < j <= b && j == i + 1 ==> h[j].before.cgroup == After(h[i]).cgroup
  }

  function Decision(m: Moment): Option<UpdateAction> {
    if m.missed || m.view.None? then None else Classify(m.view.value, m.before).action
  }

  // ----- cpusets

  /** The set a pod is placed in by this turn. */
  function Placement(m: Moment): Option<Region> {
    if m.missed || m.view.None? then None
    else
      var d := Classify(m.view.value, m.before);
      if d.action.Some? && Managed(d.action.value.region) then Some(d.action.value.region)
      else if !d.listing.NotListed? then Some(BE)
      else None
  }

  /** The cores an unconditional recomputation gives to a set. */
  function Target(r: Region, t: Totals): seq<Word>
    requires Sound(t)
  {
    match r
    case LC => LowerCpus(t.lc)
    case MIX => if t.lc == 0 then Span(0, t.cores) else LowerCpus(t.lc)
    case BE => UpperCpus(t.cores, MinWord(t.cores, BeCores(t.cores, t.lc, 0)))
    case Unmanaged(_) => []
  }

  lemma RegionWritesTarget(g: Cgroup, r: Region, t: Totals, f: Fate)
    requires Sound(t) && t.mix == 0 && t.prevMix == 0 && Managed(r)
    ensures RegionCpuset(g, r, t, f)
         == if Moved(t) && f.cpuset && Target(r, t) != [] then g.(cpuset := CpusetText(Target(r, t))) else g
    ensures r == BE ==> BeCpuset(g, t, f) == RegionCpuset(g, r, t, f)
  {
    BeSetStart(t.cores, t.lc);
    MixRangeUnderWraparound(t.cores, t.lc, 0);
  }

  /** An action's effect on the cgroup splits into the region's cpuset write and the quota and
      memory writes, which do not look at the cpuset. */
  lemma ActedCpuset(tr: Track, a: UpdateAction, t: Totals, f: Fate)
    requires Sound(t) && t.mix == 0 && t.prevMix == 0
    requires tr.metrics.Some? && tr.info.Some?
    ensures Acted(tr, a, t, f).cgroup.cpuset
         == if Managed(a.region) && Moved(t) && f.cpuset && Target(a.region, t) != []
            then CpusetText(Target(a.region, t)) else tr.cgroup.cpuset
  {
    if Managed(a.region) {
      RegionWritesTarget(Updated(tr, a.state, CPU_QUOTA_UNLIMITED, a.high, f).cgroup, a.region, t, f);
    }
  }

  /** An action exists only for a known pod that keeps a record. */
  lemma ActionNeedsRecord(v: PodView, tr: Track)
    ensures Classify(v, tr).action.Some? ==>
              tr.info.Some? && Classify(v, tr).metrics.Some? && Classify(v, tr).listing == NotListed
  {
  }

  /** A turn that writes the pod's cpuset: the pod is placed in a set that has cores, the totals
      moved, and the write goes through. */
  predicate Writes(m: Moment)
    requires Plausible(m)
  {
    && Placement(m).Some? && Moved(m.totals) && m.fate.cpuset
    && Target(Placement(m).value, m.totals) != []
  }

  /** Only the LC set is ever without cores, when nothing is demanded. */
  lemma EmptyTarget(t: Totals, r: Region)
    requires Sound(t) && t.mix == 0 && Managed(r)
    ensures Target(r, t) == [] <==> r == LC && t.lc == 0
  {
    BeSetStart(t.cores, t.lc);
  }

  /** One turn either writes the cores of the pod's set or leaves the cpuset as it was. */
  lemma TurnWritesTarget(m: Moment)
    requires Plausible(m)
    ensures After(m).cgroup.cpuset
         == if Writes(m) then CpusetText(Target(Placement(m).value, m.totals)) else m.before.cgroup.cpuset
  {
    if !m.missed && m.view.Some? {
      var d := Classify(m.view.value, m.before);
      var classified := m.before.(metrics := d.metrics);
      ActionNeedsRecord(m.view.value, m.before);
      if d.action.Some? {
        ActedCpuset(classified, d.action.value, m.totals, m.fate);
      } else if !d.listing.NotListed? {
        RegionWritesTarget(m.before.cgroup, BE, m.totals, m.fate);
      }
    }
  }

  /** The last turn from `a` to `n` that wrote the pod's cpuset. */
  function LastWrite(h: seq<Moment>, a: nat, n: nat): (i: Option<nat>)
    requires a <= n < |h| && forall j :: 0 <= j < |h| ==> Plausible(h[j])
    ensures i.Some? ==> a <= i.value <= n && Writes(h[i.value])
    ensures forall j :: (if i.Some? then i.value + 1 else a) <= j <= n ==> !Writes(h[j])
    decreases n - a
  {
    if Writes(h[n]) then Some(n) else if n == a then None else LastWrite(h, a, n - 1)
  }

  /** The list a pod holds after turn `n`: that of the last turn that wrote it, or the one it
      had before turn `a`. */
  function Held(h: seq<Moment>, a: nat, n: nat): string
    requires a <= n < |h| && forall j :: 0 <= j < |h| ==> Plausible(h[j])
  {
    match LastWrite(h, a, n)
    case Some(i) => CpusetText(Target(Placement(h[i]).value, h[i].totals))
    case None => h[a].before.cgroup.cpuset
  }

  lemma {:induction false} HoldsLastWrite(h: seq<Moment>, a: nat, n: nat)
    requires IsHistory(h) && a <= n < |h| && SameCgroup(h, a, n)
    ensures After(h[n]).cgroup.cpuset == Held(h, a, n)
    decreases n - a
  {
    TurnWritesTarget(h[n]);
    if a < n {
      HoldsLastWrite(h, a, n - 1);
    }
  }

  /** What skipping writes does, at every turn and for every pod. The pod holds what the last
      turn that wrote it gave it, or its initial list if none did: because it joined after the
      totals last moved, because its write failed then, or because its set had no cores. Where
      a turn that rewrote unconditionally would write, the pod already holds that list exactly
      when the cores it was given then are those its set has now, or, if it was given none, its
      initial list already names them. */
  lemma SkippedWritesAreStillRight(h: seq<Moment>, a: nat, n: nat)
    requires IsHistory(h) && a <= n < |h| && SameCgroup(h, a, n)
    ensures After(h[n]).cgroup.cpuset == Held(h, a, n)
    ensures Placement(h[n]).Some? ==>
              var entitled, last := Target(Placement(h[n]).value, h[n].totals), LastWrite(h, a, n);
              (After(h[n]).cgroup.cpuset == CpusetText(entitled)
               <==> if last.Some? then Target(Placement(h[last.value]).value, h[last.value].totals) == entitled
                    else h[a].before.cgroup.cpuset == CpusetText(entitled))
  {
    HoldsLastWrite(h, a, n);
    var last := LastWrite(h, a, n);
    if Placement(h[n]).Some? && last.Some? {
      var held := Target(Placement(h[last.value]).value, h[last.value].totals);
      var entitled := Target(Placement(h[n]).value, h[n].totals);
      if CpusetText(held) == CpusetText(entitled) {
        SameTextSameCores(held, entitled);
      }
    }
  }

  lemma {:induction false} StillTotals(h: seq<Moment>, a: nat, n: nat)
    requires IsHistory(h) && a <= n < |h|
    requires forall i :: a < i <= n ==> !Moved(h[i].totals)
    ensures LastWrite(h, a, n) == LastWrite(h, a, a)
    ensures h[n].totals.lc == h[a].totals.lc && h[n].totals.cores == h[a].totals.cores
    decreases n - a
  {
    if a < n {
      StillTotals(h, a, n - 1);
      assert Continues(h[n - 1], h[n]);
    }
  }

  /** A pod that was written when the totals last moved, and has perhaps changed sets since: it
      holds what its present set is entitled to exactly when the two sets coincide. */
  lemma ChangingSetsKeepsTheList(h: seq<Moment>, a: nat, n: nat)
    requires IsHistory(h) && a <= n < |h| && SameCgroup(h, a, n)
    requires Writes(h[a]) && forall i :: a < i <= n ==> !Moved(h[i].totals)
    requires Placement(h[n]).Some?
    ensures var t, was, now := h[a].totals, Placement(h[a]).value, Placement(h[n]).value;
            && After(h[n]).cgroup.cpuset == CpusetText(Target(was, t))
            && (After(h[n]).cgroup.cpuset == CpusetText(Target(now, h[n].totals)) <==> Target(was, t) == Target(now, t))
  {
    StillTotals(h, a, n);
    SkippedWritesAreStillRight(h, a, n);
    var r, t, u := Placement(h[n]).value, h[a].totals, h[n].totals;
    assert t.lc == u.lc && t.cores == u.cores && t.mix == u.mix;
  }

  /** In particular a pod that stays in its set holds what that set is entitled to now. */
  lemma StayingPutIsRight(h: seq<Moment>, a: nat, n: nat)
    requires IsHistory(h) && a <= n < |h| && SameCgroup(h, a, n)
    requires Writes(h[a]) && forall i :: a < i <= n ==> !Moved(h[i].totals)
    requires Placement(h[n]) == Placement(h[a])
    ensures After(h[n]).cgroup.cpuset == CpusetText(Target(Placement(h[n]).value, h[n].totals))
  {
    ChangingSetsKeepsTheList(h, a, n);
  }

  /** A pod that the turn in which the totals last moved did not write, because the pod was not
      there yet or its write failed: it keeps the list it had, whatever its set is entitled to. */
  lemma UnwrittenKeepsItsList(h: seq<Moment>, a: nat, n: nat)
    requires IsHistory(h) && a <= n < |h| && SameCgroup(h, a, n)
    requires !Writes(h[a]) && forall i :: a < i <= n ==> !Moved(h[i].totals)
    ensures After(h[n]).cgroup.cpuset == h[a].before.cgroup.cpuset
  {
    StillTotals(h, a, n);
    HoldsLastWrite(h, a, n);
  }

  /** Which two sets are entitled to the same cores: the LC and BE sets only on a node of one core
      that is fully demanded, the only node of which three percent, rounded up, is all of it; MIX
      follows LC except on an idle node, where it is the whole machine and so is BE. */
  lemma WhenSetsCoincide(t: Totals)
    requires Sound(t) && t.mix == 0
    ensures Target(LC, t) == Target(BE, t) <==> t.lc == t.cores == 1
    ensures Target(MIX, t) == Target(LC, t) <==> t.lc > 0
    ensures Target(MIX, t) == Target(BE, t) <==> t.lc == 0 || t.lc == t.cores == 1
  {
    BeSetStart(t.cores, t.lc);
    ThreePercentIsUnique(t.cores, t.cores);
    assert |Target(LC, t)| == t.lc;
    assert Target(BE, t)[|Target(BE, t)| - 1] == t.cores - 1;
    assert |Target(MIX, t)| == if t.lc == 0 then t.cores else t.lc;
    assert Target(BE, t)[0] == t.cores - |Target(BE, t)|;
  }

  /** The first core of best effort: the end of the demand, or `minBe` cores below the top. */
  function BeStart(t: Totals, minBe: int): int {
    if t.lc <= t.cores - minBe then t.lc else t.cores - minBe
  }

  lemma TargetSpans(t: Totals, minBe: int)
    requires Sound(t) && t.mix == 0 && IsThreePercent(minBe, t.cores)
    ensures 0 <= BeStart(t, minBe) < t.cores
    ensures Target(LC, t) == Span(0, t.lc) && Target(BE, t) == Span(BeStart(t, minBe), t.cores)
  {
    ThreePercentIsUnique(t.cores, minBe);
    BeSetStart(t.cores, t.lc);
  }

  /** Best effort has everything from the end of the demand on, or the top `minBe` cores. While
      something is demanded the lower list has the cores demanded; the two lists cover the node,
      and they share a core exactly when the demand runs into those `minBe` cores. */
  ghost predicate SplitNode(lower: seq<int>, upper: seq<int>, t: Totals, minBe: int) {
    var from := if t.lc <= t.cores - minBe then t.lc else t.cores - minBe;
    && 0 <= from < t.cores && upper == Span(from, t.cores)
    && (t.lc > 0 ==>
          && lower == Span(0, t.lc)
          && (forall c: Word :: c < t.cores <==> c in lower || c in upper)
          && ((exists c :: c in lower && c in upper) <==> t.lc + minBe > t.cores))
  }

  lemma SpansSplitNode(lower: seq<int>, upper: seq<int>, t: Totals, minBe: int)
    requires Sound(t) && IsThreePercent(minBe, t.cores) && 0 <= BeStart(t, minBe) < t.cores
    requires upper == Span(BeStart(t, minBe), t.cores)
    requires t.lc > 0 ==> lower == Span(0, t.lc)
    ensures SplitNode(lower, upper, t, minBe)
  {
    var from := BeStart(t, minBe);
    forall c: Word | from <= c < t.cores
      ensures c in upper
    {
      assert upper[c - from] == c;
    }
    if t.lc > 0 {
      forall c: Word | c < t.lc
        ensures c in lower
      {
        assert lower[c] == c;
      }
      if from < t.lc {
        assert from in lower && from in upper;
      }
    }
  }

  lemma WrittenLc(p: Moment)
    requires Plausible(p) && Moved(p.totals) && p.fate.cpuset && Placement(p) == Some(LC)
    ensures if p.totals.lc > 0 then ParseCpus(After(p).cgroup.cpuset) == Span(0, p.totals.lc)
            else After(p).cgroup.cpuset == p.before.cgroup.cpuset
  {
    EmptyTarget(p.totals, LC);
    TurnWritesTarget(p);
    CpusetTextRoundTrip(Target(LC, p.totals));
  }

  lemma WrittenBe(q: Moment, minBe: int)
    requires Plausible(q) && Moved(q.totals) && q.fate.cpuset && Placement(q) == Some(BE)
    requires IsThreePercent(minBe, q.totals.cores)
    ensures 0 <= BeStart(q.totals, minBe) < q.totals.cores
    ensures ParseCpus(After(q).cgroup.cpuset) == Span(BeStart(q.totals, minBe), q.totals.cores)
  {
    TargetSpans(q.totals, minBe);
    EmptyTarget(q.totals, BE);
    TurnWritesTarget(q);
    CpusetTextRoundTrip(Target(BE, q.totals));
  }

  /** What a pod of the LC set and a pod of the BE set hold after a turn in which the totals
      moved, `minBe` being three percent of the node: the two lists split it. When the demand has
      dropped to zero the BE pod gets the whole node, and the LC pod keeps its old list, every
      core of which best effort may now use as well. */
  lemma WrittenSetsSplitNode(p: Moment, q: Moment, minBe: int)
    requires Plausible(p) && Plausible(q) && p.totals == q.totals && Moved(p.totals)
    requires p.fate.cpuset && q.fate.cpuset
    requires Placement(p) == Some(LC) && Placement(q) == Some(BE)
    requires 100 * (minBe - 1) < 3 * p.totals.cores <= 100 * minBe
    ensures SplitNode(ParseCpus(After(p).cgroup.cpuset), ParseCpus(After(q).cgroup.cpuset), p.totals, minBe)
    ensures p.totals.lc == 0 ==>
              && After(p).cgroup.cpuset == p.before.cgroup.cpuset
              && ParseCpus(After(q).cgroup.cpuset) == Span(0, p.totals.cores)
  {
    WrittenLc(p);
    WrittenBe(q, minBe);
    SpansSplitNode(ParseCpus(After(p).cgroup.cpuset), ParseCpus(After(q).cgroup.cpuset), p.totals, minBe);
  }

  // ----- who gets what

  predicate Naps(v: PodView) {
    InState(v, "Ready-CatNap") || InState(v, "Ready-LongNap")
  }

  predicate HasKnownState(v: PodView) {
    || Naps(v) || InState(v, "Ready-Running") || InState(v, "Ready-FullSpeed")
    || InState(v, "Initializing") || InState(v, "WarmingUp")
  }

  /** A turn decides on a pod exactly when the pod is listed and known to the pod manager, has a
      set, is not best effort, was and is now readable, and is in the MIX set, or not ready, or in
      one of the six states. */
  lemma WhenATurnDecides(m: Moment)
    requires Plausible(m)
    ensures Decision(m).Some? <==>
              && !m.missed && m.view.Some? && m.before.info.Some?
              && var v := m.view.value;
                 && IsRecorded(v) && v.statOk && m.before.metrics.Some? && m.before.metrics.value.sampled
                 && (OwnMix(v) || !IsReady(v) || HasKnownState(v))
  {
    if m.view.Some? {
      SetInWords(m.view.value);
      ArmInWords(m.view.value);
    }
  }

  /** A turn that reaches the metrics lookup leaves a record, sampled if its statistics could be
      read; any other turn leaves none. */
  lemma WhatATurnRemembers(m: Moment)
    requires Plausible(m) && !m.missed && m.view.Some?
    ensures After(m).metrics.Some? <==> m.before.info.Some? && IsRecorded(m.view.value)
    ensures After(m).metrics.Some? ==> After(m).metrics.value.sampled == m.view.value.statOk
  {
    var d := Classify(m.view.value, m.before);
    SetInWords(m.view.value);
    ActionNeedsRecord(m.view.value, m.before);
    if d.action.Some? {
      ActedKeepsRecord(m.before.(metrics := d.metrics), d.action.value, m.totals, m.fate);
    }
  }

  lemma ActedKeepsRecord(tr: Track, a: UpdateAction, t: Totals, f: Fate)
    requires t.cores >= 1 && tr.metrics.Some?
    ensures var g := Acted(tr, a, t, f);
            g.metrics.Some? && g.metrics.value.sampled == tr.metrics.value.sampled
            && g.metrics.value.exist == tr.metrics.value.exist
  {
  }

  /** What a turn asks for: the pod's set, its state for the endpoint loop, and its memory limit. */
  lemma WhatATurnAsks(m: Moment)
    requires Plausible(m) && Decision(m).Some?
    ensures var v, a := m.view.value, Decision(m).value;
            && a.key == v.key
            && a.region == (if OwnMix(v) then MIX
                            else if !IsReady(v) || InState(v, "Initializing") || (Naps(v) && EndpointIsDown(v)) then BE
                            else if InState(v, "WarmingUp") || InState(v, "Ready-FullSpeed") then LC
                            else PodRegion(v).value)
            && a.state == (if OwnMix(v) || !IsReady(v) then CpuState.CpuMax
                           else if InState(v, "Ready-Running") then DynamicOverprovision
                           else if Naps(v) && EndpointIsDown(v) then DynamicResourceEfficient
                           else CpuState.CpuMax)
            && a.high == if AsksToReclaim(m) then 0 else 10_737_418_240
  {
    SetInWords(m.view.value);
    ArmInWords(m.view.value);
    TextsDiffer();
  }

  /** The pod is ready, in its long nap, out of its endpoints, and has been for over three
      seconds by the record. */
  predicate AsksToReclaim(m: Moment) {
    && m.view.Some? && m.before.metrics.Some? && m.before.metrics.value.napSince.Some?
    && !OwnMix(m.view.value) && IsReady(m.view.value)
    && InState(m.view.value, "Ready-LongNap") && EndpointIsDown(m.view.value)
    && m.view.value.now - m.before.metrics.value.napSince.value > 3_000_000_000
  }

  /** The cores kept for latency-critical work go to a pod exactly when it is outside MIX, all its
      containers are ready, and it warms up or runs at full speed, or its own set is LC and it runs
      or naps in its endpoints. Pods that are not ready, initialize, or nap out of their endpoints
      are confined with best effort. */
  lemma WhoHoldsLcCores(m: Moment)
    requires Plausible(m) && Decision(m).Some?
    ensures var v := m.view.value;
            && (Placement(m) == Some(LC) <==>
                  && !OwnMix(v) && (forall i :: 0 <= i < |v.containersReady| ==> v.containersReady[i])
                  && (InState(v, "WarmingUp") || InState(v, "Ready-FullSpeed")
                      || (OwnLc(v) && (InState(v, "Ready-Running") || (Naps(v) && !EndpointIsDown(v))))))
            && (Placement(m) == Some(BE) <==>
                  && !OwnMix(v)
                  && ((exists i :: 0 <= i < |v.containersReady| && !v.containersReady[i])
                      || InState(v, "Initializing") || (Naps(v) && EndpointIsDown(v))
                      || (OwnBe(v) && (InState(v, "Ready-Running") || (Naps(v) && !EndpointIsDown(v))))))
            && (Placement(m) == Some(MIX) <==> OwnMix(v))
  {
    WhatATurnAsks(m);
    WhenATurnDecides(m);
    SetInWords(m.view.value);
    TextsDiffer();
  }

  /** Best-effort pods are placed with best effort, also those of the MIX set. */
  lemma WhereBestEffortGoes(m: Moment)
    requires Plausible(m) && !m.missed && m.view.Some? && m.before.info.Some? && OfService(m.view.value, "be-service")
    ensures Placement(m) == if OwnBe(m.view.value) || OwnMix(m.view.value) then Some(BE) else None
  {
    SetInWords(m.view.value);
  }

  /** A turn that decides on a pod opens the gate that the pod's endpoint loop waits for
      (pkg/podmanager/server.go:298-334) whether or not its kernel writes succeed; for a running
      pod only if it is ready and in the LC or BE set. In the MIX set, or unready, the gate is
      shut, and in a set the controller does not manage it stays as it was. */
  lemma EndpointGate(m: Moment)
    requires Plausible(m) && Decision(m).Some?
    ensures var v, left := m.view.value, After(m).info;
            && (InState(v, "WarmingUp") || InState(v, "Ready-FullSpeed") ==> left == Some(CpuState.CpuMax))
            && (InState(v, "Ready-Running") ==>
                  left == if OwnMix(v) || exists i :: 0 <= i < |v.containersReady| && !v.containersReady[i]
                          then Some(CpuState.CpuMax)
                          else if OwnLc(v) || OwnBe(v) then Some(DynamicOverprovision)
                          else m.before.info)
            && (!OwnMix(v) && IsReady(v) && Naps(v) && EndpointIsDown(v) ==> left == Some(DynamicResourceEfficient))
  {
    var v := m.view.value;
    ActionNeedsRecord(v, m.before);
    ActedInfo(m.before.(metrics := Classify(v, m.before).metrics), Decision(m).value, m.totals, m.fate);
    WhatATurnAsks(m);
    SetInWords(v);
    TextsDiffer();
  }

  lemma ActedInfo(tr: Track, a: UpdateAction, t: Totals, f: Fate)
    requires t.cores >= 1 && tr.metrics.Some? && tr.info.Some?
    ensures Acted(tr, a, t, f).info == if Managed(a.region) then Some(a.state) else tr.info
  {
  }

  // ----- cpu.max

  /** A pod acted on in one of the three managed sets. */
  predicate ActedOn(m: Moment) {
    Decision(m).Some? && Managed(Decision(m).value.region)
  }

  /** The shadow can mislead the next update: the kernel is limited, but the controller neither
      remembers that nor will look. */
  ghost predicate Blind(t: Track) {
    && t.cgroup.cpuMax != 0 && t.metrics.Some?
    && t.metrics.value.cpu.lastQuota != 0 && t.metrics.value.cpu.currentQuota == 0
  }

  lemma ActedQuota(tr: Track, a: UpdateAction, t: Totals, f: Fate)
    requires t.cores >= 1 && Managed(a.region) && tr.metrics.Some? && tr.info.Some?
    ensures var m, g := tr.metrics.value, Acted(tr, a, t, f);
            && g.cgroup.cpuMax == (if m.cpu.currentQuota != 0 && f.cpuMax then 0 else tr.cgroup.cpuMax)
            && g.metrics.Some?
            && g.metrics.value.cpu.lastQuota == m.cpu.currentQuota && g.metrics.value.cpu.currentQuota == 0
            && g.metrics.value.exist == m.exist
  {
  }

  /** One acted turn whose write goes through lifts the kernel quota, except exactly when the
      shadow was blind; and a blind shadow sees again afterwards. */
  lemma OneTurnHeals(m: Moment)
    requires Plausible(m) && ActedOn(m) && m.fate.cpuMax
    ensures After(m).cgroup.cpuMax == 0 <==> !Blind(m.before)
    ensures Blind(m.before) ==> After(m).metrics.Some? && After(m).metrics.value.cpu.lastQuota == 0
  {
    var v := m.view.value;
    var d := Classify(v, m.before);
    ActionNeedsRecord(v, m.before);
    ActedQuota(m.before.(metrics := d.metrics), d.action.value, m.totals, m.fate);
  }

  /** Turns never set a limit: they leave the kernel quota or lift it. */
  lemma TurnsNeverLimit(m: Moment)
    requires Plausible(m)
    ensures After(m).cgroup.cpuMax == m.before.cgroup.cpuMax || After(m).cgroup.cpuMax == 0
    ensures !ActedOn(m) ==> After(m).cgroup.cpuMax == m.before.cgroup.cpuMax
    ensures !ActedOn(m) && After(m).metrics.Some? ==>
              After(m).metrics.value.cpu.lastQuota == 0
              || (m.before.metrics.Some?
                  && After(m).metrics.value.cpu.lastQuota == m.before.metrics.value.cpu.lastQuota)
  {
    if !m.missed && m.view.Some? {
      var d := Classify(m.view.value, m.before);
      ActionNeedsRecord(m.view.value, m.before);
      if ActedOn(m) {
        ActedQuota(m.before.(metrics := d.metrics), d.action.value, m.totals, m.fate);
      } else {
        UnactedQuota(m.view.value, m.before, m.totals, m.fate);
      }
    }
  }

  lemma UnactedQuota(v: PodView, tr: Track, t: Totals, f: Fate)
    requires t.cores >= 1
    requires Classify(v, tr).action.Some? ==> !Managed(Classify(v, tr).action.value.region)
    ensures var after := PodTick(tr, Some(v), t, f);
            && after.cgroup.cpuMax == tr.cgroup.cpuMax
            && after.metrics == Swept(Classify(v, tr).metrics)
  {
  }

  /** Nothing hides a limit from the controller: the kernel is unlimited, or there is no record,
      or the record will read the quota again. */
  ghost predicate Seeing(t: Track) {
    t.cgroup.cpuMax == 0 || t.metrics.None? || t.metrics.value.cpu.lastQuota == 0
  }

  lemma {:induction false} StaysSeeing(h: seq<Moment>, a: nat, b: nat)
    requires IsHistory(h) && a <= b < |h| && SameCgroup(h, a, b)
    requires ActedOn(h[a]) && forall i :: a <= i <= b ==> h[i].fate.cpuMax
    ensures Seeing(After(h[b]))
    decreases b - a
  {
    if a == b {
      OneTurnHeals(h[a]);
    } else {
      StaysSeeing(h, a, b - 1);
      TurnsNeverLimit(h[b]);
      if ActedOn(h[b]) {
        OneTurnHeals(h[b]);
      }
    }
  }

  lemma {:induction false} StaysUnlimited(h: seq<Moment>, a: nat, b: nat)
    requires IsHistory(h) && a <= b < |h| && SameCgroup(h, a, b)
    requires After(h[a]).cgroup.cpuMax == 0
    ensures After(h[b]).cgroup.cpuMax == 0
    decreases b - a
  {
    if a < b {
      StaysUnlimited(h, a, b - 1);
      TurnsNeverLimit(h[b]);
    }
  }

  /** A wrong `cpu.max` heals: whatever failed before, once writes succeed two acted turns are
      enough to lift the kernel quota, and it stays lifted whatever fails later. */
  lemma QuotaHeals(h: seq<Moment>, a: nat, b: nat, n: nat)
    requires IsHistory(h) && a < b <= n < |h| && SameCgroup(h, a, n)
    requires ActedOn(h[a]) && ActedOn(h[b])
    requires forall i :: a <= i <= b ==> h[i].fate.cpuMax
    ensures After(h[n]).cgroup.cpuMax == 0
  {
    StaysSeeing(h, a, b - 1);
    OneTurnHeals(h[b]);
    StaysUnlimited(h, b, n);
  }

  // ----- the endpoint gate over a history

  /** From turn `a` to turn `n` only turns set the CPU state: the pod manager keeps its entry. */
  ghost predicate SameInfo(h: seq<Moment>, a: nat, n: nat)
    requires IsHistory(h) && a <= n < |h|
  {
    forall i, j :: a <= i < j <= n && j == i + 1 ==> h[j].before.info == After(h[i]).info
  }

  lemma TurnMovesInfo(m: Moment)
    requires Plausible(m)
    ensures After(m).info == if ActedOn(m) then Some(Decision(m).value.state) else m.before.info
  {
    if !m.missed && m.view.Some? {
      ActionNeedsRecord(m.view.value, m.before);
      if Decision(m).Some? {
        ActedInfo(m.before.(metrics := Classify(m.view.value, m.before).metrics), Decision(m).value, m.totals, m.fate);
      }
    }
  }

  /** The turn that opens the gate of a running pod: it acts on the pod, outside the MIX set,
      and finds it ready and running. */
  predicate OpensGate(m: Moment) {
    ActedOn(m) && PodRegion(m.view.value).value != MIX && PodArm(m.view.value) == Steady
  }

  lemma OnlySteadyOpens(m: Moment)
    requires ActedOn(m)
    ensures Decision(m).value.state == DynamicOverprovision <==> OpensGate(m)
  {
  }

  /** The last index from `a` to `n` that is marked. */
  function LastMarked(marks: seq<bool>, a: nat, n: nat): (i: Option<nat>)
    requires a <= n < |marks|
    ensures i.Some? ==> a <= i.value <= n && marks[i.value]
    ensures forall j :: (if i.Some? then i.value + 1 else a) <= j <= n ==> !marks[j]
    decreases n - a
  {
    if marks[n] then Some(n) else if n == a then None else LastMarked(marks, a, n - 1)
  }

  /** The last turn from `a` to `n` that acted on the pod. */
  function LastActed(h: seq<Moment>, a: nat, n: nat): Option<nat>
    requires a <= n < |h|
  {
    LastMarked(seq(|h|, i requires 0 <= i < |h| => ActedOn(h[i])), a, n)
  }

  /** After any number of turns the state for which a running pod's endpoint waits is set exactly
      when the last turn that acted on the pod opened the gate, or none acted and it was set to
      begin with. */
  lemma {:induction false} GateAfterHistory(h: seq<Moment>, a: nat, n: nat)
    requires IsHistory(h) && a <= n < |h| && SameInfo(h, a, n)
    ensures After(h[n]).info == Some(DynamicOverprovision)
            <==> match LastActed(h, a, n)
                 case Some(i) => OpensGate(h[i])
                 case None => h[a].before.info == Some(DynamicOverprovision)
    decreases n - a
  {
    TurnMovesInfo(h[n]);
    if ActedOn(h[n]) {
      OnlySteadyOpens(h[n]);
    } else if a < n {
      GateAfterHistory(h, a, n - 1);
    }
  }

  /** So the endpoint loop of a running pod that is in the MIX set whenever it is listed waits
      for ever. */
  lemma MixPodNeverOpensGate(h: seq<Moment>, a: nat, n: nat)
    requires IsHistory(h) && a <= n < |h| && SameInfo(h, a, n)
    requires h[a].before.info != Some(DynamicOverprovision)
    requires forall i :: a <= i <= n && h[i].view.Some? ==> PodRegion(h[i].view.value) == Some(MIX)
    ensures After(h[n]).info != Some(DynamicOverprovision)
  {
    GateAfterHistory(h, a, n);
  }

  // ----- reclaim

  /** A turn that gets as far as feeding the windows of the pod's record. */
  predicate FeedsWindows(m: Moment) {
    && !m.missed && m.view.Some? && ReachesLookup(m.view.value, m.before.info) && m.view.value.statOk
    && m.before.metrics.Some? && m.before.metrics.value.sampled
  }

  /** The arm of the state switch that a turn takes, if it gets there. */
  function TakenArm(m: Moment): Arm {
    if FeedsWindows(m) && PodRegion(m.view.value).value != MIX then PodArm(m.view.value) else NoArm
  }

  /** What a turn does to the start of the long nap, as long as it keeps the record. */
  lemma NapSinceMoves(m: Moment)
    requires Plausible(m) && After(m).metrics.Some?
    ensures var since := if m.before.metrics.Some? then m.before.metrics.value.napSince else None;
            var now := if m.view.Some? then m.view.value.now else 0;
            After(m).metrics.value.napSince == NapSinceAfter(TakenArm(m), since, now)
  {
    if !m.missed && m.view.Some? {
      var d := Classify(m.view.value, m.before);
      ActionNeedsRecord(m.view.value, m.before);
      if d.action.Some? {
        ActedKeepsNap(m.before.(metrics := d.metrics), d.action.value, m.totals, m.fate);
      }
    }
  }

  lemma ActedKeepsNap(tr: Track, a: UpdateAction, t: Totals, f: Fate)
    requires t.cores >= 1 && tr.metrics.Some?
    ensures var g := Acted(tr, a, t, f);
            g.metrics.Some? && g.metrics.value.napSince == tr.metrics.value.napSince
            && g.metrics.value.exist == tr.metrics.value.exist
  {
  }

  /** Turn `j` kept the pod's record, and took the long-nap-down arm or none. */
  ghost predicate NapsAt(h: seq<Moment>, j: nat)
    requires IsHistory(h) && j < |h|
  {
    After(h[j]).metrics.Some? && TakenArm(h[j]) in {LongNapDown, NoArm}
  }

  /** So did every turn from `i` up to, not including, `n`. */
  ghost predicate NappedThroughout(h: seq<Moment>, i: nat, n: nat)
    requires IsHistory(h) && i <= n <= |h|
  {
    forall j :: i <= j < n ==> NapsAt(h, j)
  }

  /** A nap start that a turn leaves behind was there before, or the turn set it. */
  lemma NapSinceSource(m: Moment) returns (kept: bool)
    requires Plausible(m) && After(m).metrics.Some? && After(m).metrics.value.napSince.Some?
    ensures TakenArm(m) in {LongNapDown, NoArm}
    ensures kept ==> m.before.metrics.Some? && m.before.metrics.value.napSince == After(m).metrics.value.napSince
    ensures !kept ==> TakenArm(m) == LongNapDown && m.view.Some?
                      && After(m).metrics.value.napSince.value == m.view.value.now
  {
    NapSinceMoves(m);
    kept := m.before.metrics.Some? && m.before.metrics.value.napSince.Some?;
  }

  /** The turn before one that finds a nap start. */
  lemma NapBefore(h: seq<Moment>, n: nat) returns (kept: bool)
    requires IsHistory(h) && n < |h|
    requires h[n].before.metrics.Some? && h[n].before.metrics.value.napSince.Some?
    ensures n > 0 && NapsAt(h, n - 1)
    ensures kept ==> h[n - 1].before.metrics.Some?
                     && h[n - 1].before.metrics.value.napSince == h[n].before.metrics.value.napSince
    ensures !kept ==> TakenArm(h[n - 1]) == LongNapDown && h[n - 1].view.Some?
                      && h[n].before.metrics.value.napSince.value == h[n - 1].view.value.now
  {
    assert Continues(h[n - 1], h[n]);
    kept := NapSinceSource(h[n - 1]);
  }

  lemma NappedOneMore(h: seq<Moment>, i: nat, n: nat)
    requires IsHistory(h) && i <= n < |h| && NappedThroughout(h, i, n)
    requires NapsAt(h, n)
    ensures NappedThroughout(h, i, n + 1)
  {
  }

  /** Where a recorded nap start comes from. */
  lemma {:induction false} NapHasOrigin(h: seq<Moment>, n: nat, since: int) returns (i: nat)
    requires IsHistory(h) && n < |h|
    requires h[n].before.metrics.Some? && h[n].before.metrics.value.napSince == Some(since)
    ensures i < n && TakenArm(h[i]) == LongNapDown && NappedThroughout(h, i, n)
    ensures h[i].view.Some? && h[i].view.value.now == since
  {
    var kept := NapBefore(h, n);
    i := n - 1;
    if kept {
      i := NapHasOrigin(h, n - 1, since);
    }
    NappedOneMore(h, i, n - 1);
  }

  /** Memory is asked to be reclaimed only from a pod that is napping now and has been for more
      than three seconds: some earlier turn of the same record took the long-nap-down arm, and
      no turn in between took any other. */
  lemma ReclaimNeedsLongNap(h: seq<Moment>, n: nat) returns (i: nat)
    requires IsHistory(h) && n < |h|
    requires Decision(h[n]).Some? && Decision(h[n]).value.high == 0
    ensures i < n && TakenArm(h[i]) == LongNapDown == TakenArm(h[n]) && NappedThroughout(h, i, n)
    ensures h[i].view.Some? && h[n].view.Some?
    ensures h[n].view.value.now - h[i].view.value.now > 3_000_000_000
  {
    i := NapHasOrigin(h, n, h[n].before.metrics.value.napSince.value);
  }

  ghost predicate ClockIsMonotone(h: seq<Moment>) {
    forall i, j :: 0 <= i < j < |h| && h[i].view.Some? && h[j].view.Some? ==> h[i].view.value.now <= h[j].view.value.now
  }

  lemma NapIsFound(h: seq<Moment>, i: nat)
    requires IsHistory(h) && i + 1 < |h|
    ensures h[i + 1].before.metrics == After(h[i]).metrics
  {
    assert Continues(h[i], h[i + 1]);
  }

  lemma NapIsKeptAt(h: seq<Moment>, i: nat, since: Option<int>)
    requires IsHistory(h) && i + 1 < |h| && NapsAt(h, i) && since.Some?
    requires h[i].before.metrics.Some? && h[i].before.metrics.value.napSince == since
    ensures h[i + 1].before.metrics.Some? && h[i + 1].before.metrics.value.napSince == since
  {
    NapIsFound(h, i);
    NapIsKept(h[i]);
  }

  /** A nap start that turn `i` finds is found by turn `n` if there are only naps in between. */
  lemma {:induction false} NapSurvives(h: seq<Moment>, i: nat, n: nat, since: Option<int>)
    requires IsHistory(h) && i <= n < |h| && since.Some? && NappedThroughout(h, i, n)
    requires h[i].before.metrics.Some? && h[i].before.metrics.value.napSince == since
    ensures h[n].before.metrics.Some? && h[n].before.metrics.value.napSince == since
    decreases n
  {
    if i < n {
      NapSurvives(h, i, n - 1, since);
      assert NapsAt(h, n - 1);
      NapIsKeptAt(h, n - 1, since);
    }
  }

  lemma NapIsRemembered(h: seq<Moment>, i: nat, n: nat)
    requires IsHistory(h) && ClockIsMonotone(h) && i < n < |h|
    requires TakenArm(h[i]) == LongNapDown && NappedThroughout(h, i, n)
    ensures h[i].view.Some? && h[n].before.metrics.Some?
    ensures var since := h[n].before.metrics.value.napSince;
            since.Some? && since.value <= h[i].view.value.now
  {
    assert NapsAt(h, i);
    NapIsSet(h, i);
    NapIsFound(h, i);
    NapSurvives(h, i + 1, n, h[i + 1].before.metrics.value.napSince);
  }

  lemma NapIsKept(m: Moment)
    requires Plausible(m) && After(m).metrics.Some? && TakenArm(m) in {LongNapDown, NoArm}
    requires m.before.metrics.Some? && m.before.metrics.value.napSince.Some?
    ensures After(m).metrics.value.napSince == m.before.metrics.value.napSince
  {
    NapSinceMoves(m);
  }

  lemma NapIsSet(h: seq<Moment>, i: nat)
    requires IsHistory(h) && ClockIsMonotone(h) && i < |h|
    requires TakenArm(h[i]) == LongNapDown && After(h[i]).metrics.Some?
    ensures h[i].view.Some?
    ensures var since := After(h[i]).metrics.value.napSince;
            since.Some? && since.value <= h[i].view.value.now
  {
    assert h[i].view.Some?;
    if h[i].before.metrics.value.napSince.Some? {
      var origin := NapHasOrigin(h, i, h[i].before.metrics.value.napSince.value);
      NapIsKept(h[i]);
    } else {
      NapSinceMoves(h[i]);
    }
  }

  /** The converse: a nap of more than three seconds that is still going on is reclaimed. */
  lemma LongNapIsReclaimed(h: seq<Moment>, i: nat, n: nat)
    requires IsHistory(h) && ClockIsMonotone(h) && i < n < |h|
    requires TakenArm(h[i]) == LongNapDown == TakenArm(h[n]) && NappedThroughout(h, i, n)
    requires h[i].view.Some? && h[n].view.Some? && h[n].view.value.now - h[i].view.value.now > 3_000_000_000
    ensures Decision(h[n]).Some? && Decision(h[n]).value.high == 0
  {
    NapIsRemembered(h, i, n);
  }
}

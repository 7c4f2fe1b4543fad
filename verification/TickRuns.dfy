/** Runs of the resource controller over a whole node, and their projection onto one pod. */
module TickRuns {
  import opened Options
  import opened Words
  import opened Classifier
  import opened NodeTick
  import opened TickProjection
  import opened PodHistory

  /** The controller between two turns: the node and the totals of the last tick. */
  datatype Controller = Controller(node: Node, prevLc: Word, prevMix: Word)

  /** A turn of the main loop, or one whose pod listing failed. */
  datatype Turn = Missed | Listed(views: seq<PodView>, fate: string -> Fate)

  /** A turn together with what the pod manager's workers and the kubelet did just before it. */
  datatype Round = Round(infos: map<string, CpuState>, kernel: map<string, Cgroup>, turn: Turn)

  const START := Controller(Node(map[], map[], map[]), 0, 0)

  /** Pods come and go freely, except that nobody replaces or writes a cgroup for which the
      controller still holds a record. A listing names every pod once. */
  ghost predicate Legal(c: Controller, r: Round) {
    && r.infos.Keys <= r.kernel.Keys
    && (forall k :: k in c.node.metrics ==> k in r.kernel && k in c.node.kernel && r.kernel[k] == c.node.kernel[k])
    && (r.turn.Listed? ==> UniqueKeys(r.turn.views))
  }

  function Churned(c: Controller, r: Round): Node {
    Node(c.node.metrics, r.infos, r.kernel)
  }

  function RoundTotals(c: Controller, r: Round, cores: Word): (t: Totals)
    requires cores >= 1
    ensures t.cores == cores
  {
    match r.turn
    case Missed => Totals(cores, c.prevLc, c.prevMix, c.prevLc, c.prevMix)
    case Listed(views, _) => TickTotals(Churned(c, r), views, cores, c.prevLc, c.prevMix)
  }

  function Next(c: Controller, r: Round, cores: Word): Controller
    requires cores >= 1
  {
    match r.turn
    case Missed => c.(node := Churned(c, r))
    case Listed(views, fate) =>
      var t := RoundTotals(c, r, cores);
      Controller(TickNode(Churned(c, r), views, t, fate), t.lc, t.mix)
  }

  function Run(rounds: seq<Round>, cores: Word): Controller
    requires cores >= 1
  {
    if rounds == [] then START else Next(Run(rounds[..|rounds| - 1], cores), rounds[|rounds| - 1], cores)
  }

  ghost predicate LegalRun(rounds: seq<Round>, cores: Word)
    requires cores >= 1
  {
    forall i :: 0 <= i < |rounds| ==> Legal(Run(rounds[..i], cores), rounds[i])
  }

  /** What holds between any two turns. */
  ghost predicate Invariant(c: Controller, cores: Word) {
    && WellFormed(c.node)
    && c.node.metrics.Keys <= c.node.kernel.Keys
    && (forall k :: k in c.node.metrics ==> !c.node.metrics[k].exist)
    && c.prevLc <= cores && c.prevMix == 0
  }

  // ----- the metrics table

  /** The keys of the pods of a listing that get as far as the metrics lookup. */
  ghost function ReachedKeys(n: Node, views: seq<PodView>): set<string> {
    set v | v in views && ReachesLookup(v, Lookup(n, v.key).info) :: v.key
  }

  lemma ViewIsItself(views: seq<PodView>, v: PodView)
    requires UniqueKeys(views) && v in views
    ensures ViewOf(views, v.key) == Some(v)
  {
    ViewOfMember(views, v.key);
  }

  /** On one pod, marking and sweeping keep exactly the records that the turn looked up. */
  lemma PodSweepIsExact(tr: Track, v: Option<PodView>, t: Totals, f: Fate)
    requires t.cores >= 1 && (tr.metrics.Some? ==> !tr.metrics.value.exist)
    ensures var after := PodTick(tr, v, t, f).metrics;
            && (after.Some? <==> v.Some? && ReachesLookup(v.value, tr.info))
            && (after.Some? ==> !after.value.exist)
  {
    if v.Some? {
      var d := Classify(v.value, tr);
      ActionNeedsRecord(v.value, tr);
      if d.action.Some? {
        ActedKeepsNap(tr.(metrics := d.metrics), d.action.value, t, f);
      }
    }
  }

  /** Mark and sweep is exact: after a tick the table holds precisely the pods that reached the
      lookup in it, none of them marked. */
  lemma SweepIsExact(n: Node, views: seq<PodView>, t: Totals, fate: string -> Fate)
    requires WellFormed(n) && UniqueKeys(views) && t.cores >= 1
    requires forall k :: k in n.metrics ==> !n.metrics[k].exist
    ensures TickNode(n, views, t, fate).metrics.Keys == ReachedKeys(n, views)
    ensures forall k :: k in TickNode(n, views, t, fate).metrics ==> !TickNode(n, views, t, fate).metrics[k].exist
  {
    var after := TickNode(n, views, t, fate);
    forall k
      ensures k in after.metrics <==> k in ReachedKeys(n, views)
      ensures k in after.metrics ==> !after.metrics[k].exist
    {
      TickProjects(n, views, t, fate, k);
      PodSweepIsExact(Lookup(n, k), ViewOf(views, k), t, fate(k));
      ViewOfMember(views, k);
      if k in ReachedKeys(n, views) {
        var v :| v in views && ReachesLookup(v, Lookup(n, v.key).info) && v.key == k;
        ViewIsItself(views, v);
      }
    }
  }

  // ----- the invariant

  lemma KernelKeepsKeys(n: Node, views: seq<PodView>, t: Totals, fate: string -> Fate)
    requires WellFormed(n) && UniqueKeys(views) && t.cores >= 1
    ensures TickNode(n, views, t, fate).kernel.Keys == n.kernel.Keys
    ensures WellFormed(TickNode(n, views, t, fate))
  {
    var c := ClassifyAll(n, views);
    ClassificationProjects(n, views, "");
    ListedAreKnown(n, views);
    LoopsActOnce(c.node, c.actions, t, fate, "");
    var be := ActThrice(c.node, c.actions, t, fate);
    ListingsProject(be, c.beMixPods, BeMixPod, t, fate, "");
    var beMix := ListAll(be, c.beMixPods, BeMixPod, t, fate);
    ListingsProject(beMix, c.bePods, BePod, t, fate, "");
    var after := TickNode(n, views, t, fate);
    forall k | k in after.infos
      ensures k in after.kernel
    {
      TickProjects(n, views, t, fate, k);
      if k !in n.infos {
        UnknownStaysUnknown(Lookup(n, k), ViewOf(views, k), t, fate(k));
      }
    }
  }

  lemma UnknownStaysUnknown(tr: Track, v: Option<PodView>, t: Totals, f: Fate)
    requires t.cores >= 1 && tr.info.None?
    ensures PodTick(tr, v, t, f).info.None?
  {
  }

  lemma NextKeepsInvariant(c: Controller, r: Round, cores: Word)
    requires cores >= 1 && Invariant(c, cores) && Legal(c, r)
    ensures Invariant(Next(c, r, cores), cores)
  {
    if r.turn.Listed? {
      var n := Churned(c, r);
      var t := RoundTotals(c, r, cores);
      SweepIsExact(n, r.turn.views, t, r.turn.fate);
      KernelKeepsKeys(n, r.turn.views, t, r.turn.fate);
      forall k | k in ReachedKeys(n, r.turn.views)
        ensures k in n.kernel
      {
      }
    }
  }

  lemma {:induction false} RunKeepsInvariant(rounds: seq<Round>, cores: Word)
    requires cores >= 1 && LegalRun(rounds, cores)
    ensures Invariant(Run(rounds, cores), cores)
  {
    if rounds != [] {
      var front := rounds[..|rounds| - 1];
      PrefixIsLegal(rounds, |rounds| - 1, cores);
      RunKeepsInvariant(front, cores);
      LastRoundKeepsInvariant(rounds, cores);
    }
  }

  lemma LastRoundKeepsInvariant(rounds: seq<Round>, cores: Word)
    requires cores >= 1 && LegalRun(rounds, cores) && rounds != []
    requires Invariant(Run(rounds[..|rounds| - 1], cores), cores)
    ensures Invariant(Run(rounds, cores), cores)
  {
    NextKeepsInvariant(Run(rounds[..|rounds| - 1], cores), rounds[|rounds| - 1], cores);
  }

  lemma PrefixIsLegal(rounds: seq<Round>, n: nat, cores: Word)
    requires cores >= 1 && LegalRun(rounds, cores) && n <= |rounds|
    ensures LegalRun(rounds[..n], cores)
  {
    forall i | 0 <= i < n
      ensures Legal(Run(rounds[..n][..i], cores), rounds[..n][i])
    {
      assert rounds[..n][..i] == rounds[..i];
    }
  }

  ghost predicate TableIsExact(n: Node, views: seq<PodView>, table: map<string, PodMetrics>) {
    table.Keys == ReachedKeys(n, views) && forall k :: k in table ==> !table[k].exist
  }

  lemma NextTableIsExact(c: Controller, r: Round, cores: Word)
    requires cores >= 1 && Invariant(c, cores) && Legal(c, r) && r.turn.Listed?
    ensures TableIsExact(Churned(c, r), r.turn.views, Next(c, r, cores).node.metrics)
  {
    SweepIsExact(Churned(c, r), r.turn.views, RoundTotals(c, r, cores), r.turn.fate);
  }

  /** The same along every run: after each listed turn the table is exactly what it reached. */
  lemma TableIsExactInRuns(rounds: seq<Round>, cores: Word)
    requires cores >= 1 && LegalRun(rounds, cores) && rounds != []
    requires rounds[|rounds| - 1].turn.Listed?
    ensures var r := rounds[|rounds| - 1];
            TableIsExact(Churned(Run(rounds[..|rounds| - 1], cores), r), r.turn.views, Run(rounds, cores).node.metrics)
  {
    PrefixIsLegal(rounds, |rounds| - 1, cores);
    RunKeepsInvariant(rounds[..|rounds| - 1], cores);
    NextTableIsExact(Run(rounds[..|rounds| - 1], cores), rounds[|rounds| - 1], cores);
  }

  // ----- projection onto one pod

  function MomentOf(c: Controller, r: Round, cores: Word, k: string): Moment
    requires cores >= 1
  {
    Moment(
      Lookup(Churned(c, r), k),
      r.turn.Missed?,
      if r.turn.Listed? then ViewOf(r.turn.views, k) else None,
      RoundTotals(c, r, cores),
      if r.turn.Listed? then r.turn.fate(k) else Fate(true, true, true))
  }

  function HistoryOf(rounds: seq<Round>, cores: Word, k: string): (h: seq<Moment>)
    requires cores >= 1
    ensures |h| == |rounds|
  {
    seq(|rounds|, i requires 0 <= i < |rounds| => MomentOf(Run(rounds[..i], cores), rounds[i], cores, k))
  }

  /** One round does to pod `k` what its moment says. */
  lemma RoundProjects(c: Controller, r: Round, cores: Word, k: string)
    requires cores >= 1 && Invariant(c, cores) && Legal(c, r)
    ensures Plausible(MomentOf(c, r, cores, k))
    ensures After(MomentOf(c, r, cores, k)) == Lookup(Next(c, r, cores).node, k)
    ensures MomentOf(c, r, cores, k).totals.lc == Next(c, r, cores).prevLc
  {
    if r.turn.Listed? {
      TickProjects(Churned(c, r), r.turn.views, RoundTotals(c, r, cores), r.turn.fate, k);
    }
  }

  lemma RoundsChain(c: Controller, r: Round, next: Round, cores: Word, k: string)
    requires cores >= 1 && Invariant(c, cores) && Legal(c, r) && Legal(Next(c, r, cores), next)
    ensures After(MomentOf(c, r, cores, k)) == Lookup(Next(c, r, cores).node, k)
    ensures Continues(MomentOf(c, r, cores, k), MomentOf(Next(c, r, cores), next, cores, k))
  {
    RoundProjects(c, r, cores, k);
  }

  /** Moment `i` of a run's history, and its link to the next one. */
  lemma MomentFits(rounds: seq<Round>, cores: Word, k: string, i: nat)
    requires cores >= 1 && LegalRun(rounds, cores) && i < |rounds|
    ensures var h := HistoryOf(rounds, cores, k);
            && Plausible(h[i])
            && After(h[i]) == Lookup(Run(rounds[..i + 1], cores).node, k)
            && (i + 1 < |rounds| ==> Continues(h[i], h[i + 1]))
  {
    var c := Run(rounds[..i], cores);
    PrefixIsLegal(rounds, i, cores);
    RunKeepsInvariant(rounds[..i], cores);
    RoundProjects(c, rounds[i], cores, k);
    assert rounds[..i + 1][..i] == rounds[..i];
    assert Run(rounds[..i + 1], cores) == Next(c, rounds[i], cores);
    if i + 1 < |rounds| {
      RoundsChain(c, rounds[i], rounds[i + 1], cores, k);
    }
  }

  lemma MomentsArePlausible(rounds: seq<Round>, cores: Word, k: string)
    requires cores >= 1 && LegalRun(rounds, cores)
    ensures var h := HistoryOf(rounds, cores, k);
            forall i :: 0 <= i < |h| ==> Plausible(h[i])
  {
    var h := HistoryOf(rounds, cores, k);
    forall i | 0 <= i < |h|
      ensures Plausible(h[i])
    {
      MomentFits(rounds, cores, k, i);
    }
  }

  lemma MomentsAreLinked(rounds: seq<Round>, cores: Word, k: string)
    requires cores >= 1 && LegalRun(rounds, cores)
    ensures var h := HistoryOf(rounds, cores, k);
            forall i :: 0 < i < |h| ==> Continues(h[i - 1], h[i])
  {
    var h := HistoryOf(rounds, cores, k);
    forall i | 0 < i < |h|
      ensures Continues(h[i - 1], h[i])
    {
      MomentFollows(rounds, cores, k, i);
    }
  }

  lemma MomentFollows(rounds: seq<Round>, cores: Word, k: string, i: nat)
    requires cores >= 1 && LegalRun(rounds, cores) && 0 < i < |rounds|
    ensures HistoryOf(rounds, cores, k)[i - 1].totals.cores >= 1
    ensures Continues(HistoryOf(rounds, cores, k)[i - 1], HistoryOf(rounds, cores, k)[i])
  {
    MomentFits(rounds, cores, k, i - 1);
  }

  lemma FirstMomentIsEmpty(rounds: seq<Round>, cores: Word, k: string)
    requires cores >= 1 && rounds != []
    ensures HistoryOf(rounds, cores, k)[0].before.metrics == None
    ensures var t := HistoryOf(rounds, cores, k)[0].totals;
            t.prevLc == t.prevMix == 0
  {
    assert Run(rounds[..0], cores) == START;
  }

  /** Every legal run of the controller is, for every pod, a history in the sense of
      `PodHistory`, so that everything proved there holds of every pod of every run; and the
      last moment of the history is what the run leaves of the pod. */
  lemma RunIsHistory(rounds: seq<Round>, cores: Word, k: string)
    requires cores >= 1 && LegalRun(rounds, cores)
    ensures IsHistory(HistoryOf(rounds, cores, k))
    ensures rounds != [] ==>
              After(HistoryOf(rounds, cores, k)[|rounds| - 1]) == Lookup(Run(rounds, cores).node, k)
  {
    MomentsArePlausible(rounds, cores, k);
    MomentsAreLinked(rounds, cores, k);
    if rounds != [] {
      FirstMomentIsEmpty(rounds, cores, k);
      MomentFits(rounds, cores, k, |rounds| - 1);
      assert rounds[..|rounds|] == rounds;
    }
  }
}

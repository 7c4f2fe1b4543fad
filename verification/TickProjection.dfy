/** A tick of the whole node, seen from one pod, is `PodTick`: the loops over the lists touch
    every pod exactly as if it were alone, given the totals. */
module TickProjection {
  import opened Options
  import opened Words
  import opened PodLabels
  import Cpuset
  import opened Classifier
  import opened NodeTick

  function ViewOf(views: seq<PodView>, k: string): Option<PodView> {
    if views == [] then None
    else if views[|views| - 1].key == k then Some(views[|views| - 1])
    else ViewOf(views[..|views| - 1], k)
  }

  /** The actions of a list that concern pod `k`, in order. */
  function Picks(actions: seq<UpdateAction>, k: string): seq<UpdateAction> {
    if actions == [] then []
    else
      var front := Picks(actions[..|actions| - 1], k);
      if actions[|actions| - 1].key == k then front + [actions[|actions| - 1]] else front
  }

  function Hits(keys: seq<string>, k: string): nat {
    if keys == [] then 0
    else Hits(keys[..|keys| - 1], k) + if keys[|keys| - 1] == k then 1 else 0
  }

  lemma {:induction false} ViewOfMember(views: seq<PodView>, k: string)
    ensures ViewOf(views, k).Some? ==> ViewOf(views, k).value in views && ViewOf(views, k).value.key == k
    ensures ViewOf(views, k).None? <==> forall i :: 0 <= i < |views| ==> views[i].key != k
  {
    if views != [] {
      ViewOfMember(views[..|views| - 1], k);
    }
  }

  /** The verdict on pod `k` of a list, on node `n`. */
  function VerdictOf(n: Node, views: seq<PodView>, k: string): Option<Verdict> {
    var v := ViewOf(views, k);
    if v.Some? then Some(Classify(v.value, Lookup(n, k))) else None
  }

  ghost predicate ProjectsClassification(n: Node, views: seq<PodView>, k: string) {
    var c := ClassifyAll(n, views);
    var d := VerdictOf(n, views, k);
    && c.node.infos == n.infos && c.node.kernel == n.kernel
    && Lookup(c.node, k) == (if d.Some? then Lookup(n, k).(metrics := d.value.metrics) else Lookup(n, k))
    && Picks(c.actions, k) == (if d.Some? && d.value.action.Some? then [d.value.action.value] else [])
    && Hits(c.bePods, k) == (if d.Some? && d.value.listing.BePod? then 1 else 0)
    && Hits(c.beMixPods, k) == (if d.Some? && d.value.listing.BeMixPod? then 1 else 0)
  }

  lemma AppendedLists(c: Classified, v: PodView, k: string)
    ensures var d := ClassifyOne(c, v);
            var verdict := Classify(v, Lookup(c.node, v.key));
            var mine := v.key == k;
            && Picks(d.actions, k)
               == Picks(c.actions, k) + (if mine && verdict.action.Some? then [verdict.action.value] else [])
            && Hits(d.bePods, k) == Hits(c.bePods, k) + (if mine && verdict.listing.BePod? then 1 else 0)
            && Hits(d.beMixPods, k) == Hits(c.beMixPods, k) + (if mine && verdict.listing.BeMixPod? then 1 else 0)
  {
    var verdict := Classify(v, Lookup(c.node, v.key));
    ClassifiedDemand(v, Lookup(c.node, v.key));
    if verdict.action.Some? {
      var a := c.actions + [verdict.action.value];
      assert a[..|a| - 1] == c.actions;
    }
    var h, g := c.bePods + [v.key], c.beMixPods + [v.key];
    assert h[..|h| - 1] == c.bePods && g[..|g| - 1] == c.beMixPods;
  }

  lemma {:induction false} ClassificationProjects(n: Node, views: seq<PodView>, k: string)
    requires UniqueKeys(views)
    ensures ProjectsClassification(n, views, k)
  {
    if views != [] {
      var front, v := views[..|views| - 1], views[|views| - 1];
      ClassificationProjects(n, front, k);
      var c := ClassifyAll(n, front);
      AppendedLists(c, v, k);
      if v.key == k {
        ViewOfMember(front, k);
      }
      StoresRecord(c.node, v.key, Classify(v, Lookup(c.node, v.key)).metrics, k);
    }
  }

  /** Storing back only a changed record leaves the rest of the node alone. */
  lemma StoresRecord(n: Node, k: string, m: Option<PodMetrics>, j: string)
    ensures var s := Store(n, k, Lookup(n, k).(metrics := m));
            && s.infos == n.infos && s.kernel == n.kernel
            && Lookup(s, j) == if j == k then Lookup(n, k).(metrics := m) else Lookup(n, j)
  {
    var s := Store(n, k, Lookup(n, k).(metrics := m));
    assert s.infos == n.infos;
    assert s.kernel == n.kernel;
  }

  lemma {:induction false} ActionsProject(n: Node, actions: seq<UpdateAction>, r: Region, t: Totals,
                                          fate: string -> Fate, k: string)
    requires WellFormed(n) && t.cores >= 1
    ensures WellFormed(ActAll(n, actions, r, t, fate))
    ensures ActAll(n, actions, r, t, fate).kernel.Keys == n.kernel.Keys
    ensures Picks(actions, k) == [] ==> Lookup(ActAll(n, actions, r, t, fate), k) == Lookup(n, k)
    ensures |Picks(actions, k)| == 1 ==>
              Lookup(ActAll(n, actions, r, t, fate), k)
              == if Picks(actions, k)[0].region == r then Acted(Lookup(n, k), Picks(actions, k)[0], t, fate(k))
                 else Lookup(n, k)
  {
    if actions != [] {
      var front, a := actions[..|actions| - 1], actions[|actions| - 1];
      ActionsProject(n, front, r, t, fate, k);
      var before := ActAll(n, front, r, t, fate);
      StoreLookup(before, a.key, Acted(Lookup(before, a.key), a, t, fate(a.key)), k);
    }
  }

  lemma {:induction false} ListingsProject(n: Node, keys: seq<string>, listing: BeListing, t: Totals,
                                           fate: string -> Fate, k: string)
    requires t.cores >= 1
    requires forall x :: x in keys ==> x in n.kernel
    ensures ListAll(n, keys, listing, t, fate).kernel.Keys == n.kernel.Keys
    ensures Hits(keys, k) == 0 ==> Lookup(ListAll(n, keys, listing, t, fate), k) == Lookup(n, k)
    ensures Hits(keys, k) == 1 ==>
              Lookup(ListAll(n, keys, listing, t, fate), k) == ListedBe(Lookup(n, k), listing, t, fate(k))
  {
    if keys != [] {
      var front, x := keys[..|keys| - 1], keys[|keys| - 1];
      ListingsProject(n, front, listing, t, fate, k);
      var before := ListAll(n, front, listing, t, fate);
      StoreLookup(before, x, ListedBe(Lookup(before, x), listing, t, fate(x)), k);
    }
  }

  lemma {:induction false} HitsMember(keys: seq<string>, k: string)
    ensures k in keys <==> Hits(keys, k) > 0
  {
    if keys != [] {
      HitsMember(keys[..|keys| - 1], k);
      assert keys == keys[..|keys| - 1] + [keys[|keys| - 1]];
    }
  }

  /** Only pods the pod manager knows are listed as best-effort. */
  lemma ListedAreKnown(n: Node, views: seq<PodView>)
    requires WellFormed(n) && UniqueKeys(views)
    ensures var c := ClassifyAll(n, views);
            && (forall x :: x in c.bePods ==> x in n.kernel)
            && (forall x :: x in c.beMixPods ==> x in n.kernel)
  {
    var c := ClassifyAll(n, views);
    forall x | x in c.bePods || x in c.beMixPods
      ensures x in n.kernel
    {
      HitsMember(c.bePods, x);
      HitsMember(c.beMixPods, x);
      ClassificationProjects(n, views, x);
    }
  }

  function ActThrice(n: Node, actions: seq<UpdateAction>, t: Totals, fate: string -> Fate): Node
    requires t.cores >= 1
  {
    ActAll(ActAll(ActAll(n, actions, LC, t, fate), actions, MIX, t, fate), actions, BE, t, fate)
  }

  /** The three loops together act once on a pod that has one action. */
  lemma LoopsActOnce(n: Node, actions: seq<UpdateAction>, t: Totals, fate: string -> Fate, k: string)
    requires WellFormed(n) && t.cores >= 1
    ensures ActThrice(n, actions, t, fate).kernel.Keys == n.kernel.Keys
    ensures Picks(actions, k) == [] ==> Lookup(ActThrice(n, actions, t, fate), k) == Lookup(n, k)
    ensures |Picks(actions, k)| == 1 ==>
              Lookup(ActThrice(n, actions, t, fate), k) == Acted(Lookup(n, k), Picks(actions, k)[0], t, fate(k))
  {
    ActionsProject(n, actions, LC, t, fate, k);
    var lc := ActAll(n, actions, LC, t, fate);
    ActionsProject(lc, actions, MIX, t, fate, k);
    ActionsProject(ActAll(lc, actions, MIX, t, fate), actions, BE, t, fate, k);
  }

  /** Likewise the two loops over best-effort pods. */
  lemma ListsCountOnce(n: Node, beMix: seq<string>, be: seq<string>, t: Totals, fate: string -> Fate,
                       k: string, listing: BeListing)
    requires t.cores >= 1
    requires forall x :: x in be || x in beMix ==> x in n.kernel
    requires Hits(be, k) == (if listing.BePod? then 1 else 0)
    requires Hits(beMix, k) == (if listing.BeMixPod? then 1 else 0)
    ensures Lookup(ListAll(ListAll(n, beMix, BeMixPod, t, fate), be, BePod, t, fate), k)
         == ListedBe(Lookup(n, k), listing, t, fate(k))
  {
    ListingsProject(n, beMix, BeMixPod, t, fate, k);
    ListingsProject(ListAll(n, beMix, BeMixPod, t, fate), be, BePod, t, fate, k);
  }

  /** The projection: whatever else is on the node, a tick does to pod `k` what `PodTick` says. */
  lemma TickProjects(n: Node, views: seq<PodView>, t: Totals, fate: string -> Fate, k: string)
    requires WellFormed(n) && UniqueKeys(views) && t.cores >= 1
    ensures Lookup(TickNode(n, views, t, fate), k) == PodTick(Lookup(n, k), ViewOf(views, k), t, fate(k))
  {
    var c := ClassifyAll(n, views);
    ClassificationProjects(n, views, k);
    ListedAreKnown(n, views);
    LoopsActOnce(c.node, c.actions, t, fate, k);
    var d := VerdictOf(n, views, k);
    var be := ActThrice(c.node, c.actions, t, fate);
    ListsCountOnce(be, c.beMixPods, c.bePods, t, fate, k, if d.Some? then d.value.listing else NotListed);
    SweepProjects(ListAll(ListAll(be, c.beMixPods, BeMixPod, t, fate), c.bePods, BePod, t, fate), k);
  }

  lemma SweepProjects(n: Node, k: string)
    ensures var tr := Lookup(n, k);
            Lookup(n.(metrics := Sweep(n.metrics)), k) == tr.(metrics := Swept(tr.metrics))
  {
  }

  // ----- demand of the whole list

  function TotalDemand(n: Node, views: seq<PodView>): real {
    if views == [] then 0.0
    else
      var v := views[|views| - 1];
      TotalDemand(n, views[..|views| - 1]) + PodDemand(v, Lookup(n, v.key))
  }

  /** Classifying every pod and then summing the actions of the LC set computes the label-level
      demand of the listed pods, each judged by the state it had when the tick began. */
  lemma {:induction false} LcTotalIsDemand(n: Node, views: seq<PodView>)
    requires UniqueKeys(views)
    ensures RegionDemand(ClassifyAll(n, views).actions, LC) == TotalDemand(n, views)
  {
    if views != [] {
      var front, v := views[..|views| - 1], views[|views| - 1];
      LcTotalIsDemand(n, front);
      ClassificationProjects(n, front, v.key);
      ViewOfMember(front, v.key);
      ClassifiedDemand(v, Lookup(n, v.key));
      DemandOfAppended(ClassifyAll(n, front), v, LC);
    }
  }

  /** The number of LC cores a tick works with. */
  lemma LcCoresOfTick(n: Node, views: seq<PodView>, cores: Word, prevLc: Word, prevMix: Word)
    requires UniqueKeys(views) && cores >= 1
    ensures var t := TickTotals(n, views, cores, prevLc, prevMix);
            && t.mix == 0
            && t.lc == Ceil(MinReal(TotalDemand(n, views), cores as real))
            && (TotalDemand(n, views) <= cores as real ==> TotalDemand(n, views) <= t.lc as real)
  {
    LcTotalIsDemand(n, views);
  }

  /** Every core count a tick passes on is within the machine: no cpuset call is refused. */
  lemma NoCpusetCallIsRefused(n: Node, views: seq<PodView>, cores: Word, prevLc: Word, prevMix: Word)
    requires cores >= 1
    ensures var t := TickTotals(n, views, cores, prevLc, prevMix);
            && t.lc <= t.cores
            && Cpuset.BeCores(t.cores, t.lc, t.mix) <= t.cores && Cpuset.MixCores(t.cores, t.lc) <= t.cores
            && Sub64(Sub64(t.cores, t.lc), t.mix) == t.cores - t.lc - t.mix
  {
    var t := TickTotals(n, views, cores, prevLc, prevMix);
    Cpuset.BeSetStart(cores, t.lc);
  }
}

/** What holds of the memory limit of one pod over any number of ticks: whether the controller's
    shadow of it can be trusted, also when the pod is replaced under the record, and what the
    kernel's `memory.high` is. */
module MemoryHistory {
  import opened Options
  import opened Classifier
  import NodeTick
  import opened PodHistory

  /** The shadow of `memory.high` is either unset or the truth. */
  ghost predicate Coherent(t: Track) {
    t.metrics.Some? ==> t.metrics.value.currentHigh == -1 || t.metrics.value.currentHigh == t.cgroup.memoryHigh
  }

  /** One turn keeps the shadow coherent, whatever fails; an acted turn leaves the kernel at the
      requested value, or else the write failed and the shadow still differs, so that the next
      request for this value is written. */
  lemma TurnKeepsCoherence(m: Moment)
    requires Plausible(m) && Coherent(m.before)
    ensures Coherent(After(m))
    ensures ActedOn(m) && After(m).cgroup.memoryHigh != Decision(m).value.high ==>
              !m.fate.memoryHigh && After(m).metrics.Some?
              && After(m).metrics.value.currentHigh != Decision(m).value.high
  {
    if !m.missed && m.view.Some? {
      ActionNeedsRecord(m.view.value, m.before);
      RequestsAreNotUnset(m.view.value, m.before);
      if ActedOn(m) {
        var d := Classify(m.view.value, m.before);
        ActedMemory(m.before.(metrics := d.metrics), d.action.value, m.totals, m.fate);
      }
    }
  }

  lemma RequestsAreNotUnset(v: PodView, tr: Track)
    ensures var d := Classify(v, tr);
            && (d.action.Some? ==> d.action.value.high == 0 || d.action.value.high == DEFAULT_MEMORY_HIGH)
            && (d.metrics.Some? ==>
                  if tr.metrics.Some? then d.metrics.value.currentHigh == tr.metrics.value.currentHigh
                  else d.metrics.value.currentHigh == -1)
  {
  }

  lemma ActedMemory(tr: Track, a: UpdateAction, t: NodeTick.Totals, f: NodeTick.Fate)
    requires t.cores >= 1 && NodeTick.Managed(a.region) && tr.metrics.Some? && tr.info.Some?
    ensures var shadow, g := tr.metrics.value.currentHigh, NodeTick.Acted(tr, a, t, f);
            && g.metrics.Some? && g.metrics.value.exist == tr.metrics.value.exist
            && g.metrics.value.currentHigh == (if a.high == shadow || f.memoryHigh then a.high else shadow)
            && g.cgroup.memoryHigh == (if a.high != shadow && f.memoryHigh then a.high else tr.cgroup.memoryHigh)
  {
  }

  /** In every history the shadow is coherent at every turn. */
  lemma {:induction false} ShadowIsCoherent(h: seq<Moment>, n: nat)
    requires IsHistory(h) && n < |h|
    ensures Coherent(h[n].before) && Coherent(After(h[n]))
  {
    if n > 0 {
      ShadowIsCoherent(h, n - 1);
      assert Continues(h[n - 1], h[n]);
    }
    TurnKeepsCoherence(h[n]);
  }

  // ----- a pod replaced under its record

  /** A turn that asks for something else than a shadow of `s` and gets its write through. */
  predicate Overrides(m: Moment, s: int) {
    ActedOn(m) && Decision(m).value.high != s && m.fate.memoryHigh
  }

  lemma TurnMovesShadow(m: Moment, s: int)
    requires Plausible(m) && m.before.metrics.Some? && After(m).metrics.Some?
    requires m.before.metrics.value.currentHigh == s
    ensures Overrides(m, s) ==> Coherent(After(m))
    ensures !Overrides(m, s) ==>
              After(m).metrics.value.currentHigh == s && After(m).cgroup.memoryHigh == m.before.cgroup.memoryHigh
  {
    if !m.missed && m.view.Some? {
      ActionNeedsRecord(m.view.value, m.before);
      RequestsAreNotUnset(m.view.value, m.before);
      if ActedOn(m) {
        var d := Classify(m.view.value, m.before);
        ActedMemory(m.before.(metrics := d.metrics), Decision(m).value, m.totals, m.fate);
      }
    }
  }

  ghost predicate Recorded(h: seq<Moment>, a: nat, n: nat)
    requires IsStretch(h) && a <= n < |h|
  {
    SameCgroup(h, a, n) && h[a].before.metrics.Some? && forall i :: a <= i <= n ==> After(h[i]).metrics.Some?
  }

  ghost predicate Overridden(h: seq<Moment>, a: nat, n: nat, s: int)
    requires n < |h|
  {
    exists i :: a <= i <= n && Overrides(h[i], s)
  }

  /** From any state: until a turn overrides the shadow `s`, both it and the kernel's value stay
      as they were. */
  lemma {:induction false} ShadowStays(h: seq<Moment>, a: nat, n: nat, s: int)
    requires IsStretch(h) && a <= n < |h| && Recorded(h, a, n)
    requires h[a].before.metrics.value.currentHigh == s && !Overridden(h, a, n, s)
    ensures After(h[n]).metrics.value.currentHigh == s
    ensures After(h[n]).cgroup.memoryHigh == h[a].before.cgroup.memoryHigh
    decreases n - a
  {
    if a < n {
      ShadowStays(h, a, n - 1, s);
      assert Continues(h[n - 1], h[n]);
    }
    TurnMovesShadow(h[n], s);
  }

  lemma {:induction false} CoherenceLasts(h: seq<Moment>, a: nat, n: nat)
    requires IsStretch(h) && a <= n < |h| && SameCgroup(h, a, n)
    requires Coherent(After(h[a])) && forall i :: a <= i <= n ==> After(h[i]).metrics.Some?
    ensures Coherent(After(h[n]))
    decreases n - a
  {
    if a < n {
      CoherenceLasts(h, a, n - 1);
      assert Continues(h[n - 1], h[n]);
      TurnKeepsCoherence(h[n]);
    }
  }

  /** From then on the shadow is coherent. */
  lemma {:induction false} ShadowRecovers(h: seq<Moment>, a: nat, i: nat, n: nat, s: int)
    requires IsStretch(h) && a <= i <= n < |h| && Recorded(h, a, n)
    requires h[a].before.metrics.value.currentHigh == s && Overrides(h[i], s)
    ensures Coherent(After(h[n]))
    decreases i
  {
    if a < i && Overridden(h, a, i - 1, s) {
      var j :| a <= j <= i - 1 && Overrides(h[j], s);
      ShadowRecovers(h, a, j, n, s);
    } else {
      if a < i {
        ShadowStays(h, a, i - 1, s);
        assert Continues(h[i - 1], h[i]);
      }
      TurnMovesShadow(h[i], s);
      CoherenceLasts(h, i, n);
    }
  }

  /** Over any stretch of turns, from whatever state with shadow `s`, the shadow is right in the
      end exactly when it was right to begin with or some turn asked for something else than `s`
      and got its write through. */
  lemma WhenShadowIsRight(h: seq<Moment>, a: nat, n: nat)
    requires IsStretch(h) && a <= n < |h| && Recorded(h, a, n)
    ensures Coherent(After(h[n]))
            <==> Coherent(h[a].before)
                 || exists i :: a <= i <= n && Overrides(h[i], h[a].before.metrics.value.currentHigh)
  {
    var s := h[a].before.metrics.value.currentHigh;
    if i :| a <= i <= n && Overrides(h[i], s) {
      ShadowRecovers(h, a, i, n, s);
    } else {
      ShadowStays(h, a, n, s);
    }
  }

  /** The turns `g` follow the history `h`, except that the pod behind the record was replaced in
      between by another of the same name. */
  ghost predicate Replaced(h: seq<Moment>, g: seq<Moment>) {
    && IsHistory(h) && IsStretch(g) && h != [] && g != []
    && After(h[|h| - 1]).metrics.Some?
    && g[0].before.metrics == After(h[|h| - 1]).metrics
  }

  /** Exactly when the shadow is right again after such a replacement: the record had not set
      `memory.high` yet, or the new pod came with the value the old one had, or some turn asked
      for something else than the shadow and got its write through. */
  lemma ReplacementAndShadow(h: seq<Moment>, g: seq<Moment>, n: nat)
    requires Replaced(h, g) && n < |g| && Recorded(g, 0, n)
    ensures var was, own := After(h[|h| - 1]), g[0].before.cgroup.memoryHigh;
            var s := was.metrics.value.currentHigh;
            Coherent(After(g[n]))
            <==> s == -1 || own == was.cgroup.memoryHigh || exists i :: 0 <= i <= n && Overrides(g[i], s)
  {
    ShadowIsCoherent(h, |h| - 1);
    WhenShadowIsRight(g, 0, n);
  }

  /** So as long as the requests repeat what the shadow remembers, the replacement's own
      `memory.high` is never overwritten. */
  lemma IncoherentShadowPersists(h: seq<Moment>, g: seq<Moment>, n: nat)
    requires Replaced(h, g) && n < |g| && Recorded(g, 0, n)
    requires forall i :: 0 <= i <= n && ActedOn(g[i]) ==>
               Decision(g[i]).value.high == g[0].before.metrics.value.currentHigh
    ensures After(g[n]).cgroup.memoryHigh == g[0].before.cgroup.memoryHigh
  {
    ShadowStays(g, 0, n, g[0].before.metrics.value.currentHigh);
  }

  // ----- what the kernel holds

  /** A turn that acts on the pod, and whose memory write would go through. */
  predicate SetsMemory(m: Moment) {
    ActedOn(m) && m.fate.memoryHigh
  }

  /** The last such turn from `a` to `n`. */
  function LastSet(h: seq<Moment>, a: nat, n: nat): Option<nat>
    requires a <= n < |h|
  {
    LastMarked(seq(|h|, i requires 0 <= i < |h| => SetsMemory(h[i])), a, n)
  }

  /** With a coherent shadow a turn leaves the kernel at its request, or as it was. */
  lemma TurnMovesMemory(m: Moment)
    requires Plausible(m) && Coherent(m.before)
    ensures After(m).cgroup.memoryHigh == if SetsMemory(m) then Decision(m).value.high else m.before.cgroup.memoryHigh
  {
    if !m.missed && m.view.Some? {
      ActionNeedsRecord(m.view.value, m.before);
      RequestsAreNotUnset(m.view.value, m.before);
      if ActedOn(m) {
        var d := Classify(m.view.value, m.before);
        ActedMemory(m.before.(metrics := d.metrics), Decision(m).value, m.totals, m.fate);
      }
    }
  }

  /** In every history the kernel's `memory.high` is what the last turn asked for that acted on
      the pod with a working write, although most turns write nothing; or what it was at first. */
  lemma {:induction false} MemoryIsLastRequest(h: seq<Moment>, a: nat, n: nat)
    requires IsHistory(h) && a <= n < |h| && SameCgroup(h, a, n)
    ensures After(h[n]).cgroup.memoryHigh
         == match LastSet(h, a, n)
            case Some(i) => Decision(h[i]).value.high
            case None => h[a].before.cgroup.memoryHigh
    decreases n - a
  {
    ShadowIsCoherent(h, n);
    TurnMovesMemory(h[n]);
    if a < n && !SetsMemory(h[n]) {
      MemoryIsLastRequest(h, a, n - 1);
    }
  }

  /** A turn that sees the pod ready, out of its nap, and with a cpuset label of its own. */
  predicate RunsUnmanaged(m: Moment) {
    m.view.Some? ==> var v := m.view.value; PodRegion(v).Some? && PodRegion(v).value.Unmanaged?
                                            && PodArm(v) in {Steady, NapUp, LongNapUp}
  }

  /** No loop of the controller acts on such a pod. */
  lemma UnmanagedKeepsMemory(m: Moment)
    requires Plausible(m) && Coherent(m.before) && RunsUnmanaged(m)
    ensures After(m).cgroup.memoryHigh == m.before.cgroup.memoryHigh
  {
    assert !ActedOn(m);
    TurnMovesMemory(m);
  }

  lemma {:induction false} UnmanagedKeepsMemoryLong(h: seq<Moment>, a: nat, n: nat)
    requires IsHistory(h) && a <= n < |h| && SameCgroup(h, a, n)
    requires forall i :: a < i <= n ==> RunsUnmanaged(h[i])
    ensures After(h[n]).cgroup.memoryHigh == After(h[a]).cgroup.memoryHigh
    decreases n - a
  {
    if a < n {
      UnmanagedKeepsMemoryLong(h, a, n - 1);
      ShadowIsCoherent(h, n);
      UnmanagedKeepsMemory(h[n]);
    }
  }

  /** So once it has been reclaimed in a long nap, its `memory.high` stays zero when it wakes up,
      for as long as it runs like that. */
  lemma UnmanagedStaysReclaimed(h: seq<Moment>, a: nat, n: nat)
    requires IsHistory(h) && a <= n < |h| && SameCgroup(h, a, n)
    requires SetsMemory(h[a]) && Decision(h[a]).value.high == 0
    requires forall i :: a < i <= n ==> RunsUnmanaged(h[i])
    ensures After(h[n]).cgroup.memoryHigh == 0
  {
    ShadowIsCoherent(h, a);
    TurnMovesMemory(h[a]);
    UnmanagedKeepsMemoryLong(h, a, n);
  }
}

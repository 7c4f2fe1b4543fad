/** The parties of the suspend/activate protocol together: one API server, a swiftlet on every node
    with a cache of its own, and the deployment controller. For each pod a run of all of them is a
    run of `LabelProtocol`, so the protocol's safety holds of the whole system. */
module Cluster {
  import opened Options
  import opened SwiftLabels
  import LabelProtocol
  import opened ApiServer
  import opened DeploymentController
  import Swiftlet

  /** `home` is the node a pod is bound to, sooner or later. */
  datatype System = System(
    history: Histories,
    home: map<string, string>,
    desks: map<string, Swiftlet.Desk>)

  datatype Happening =
    | PodCreated(name: string, node: string, labels: Labels)
    | PodSeen(node: string, pod: Pod)
    | SyncBegins(node: string, key: string)
    | SyncFinishes(node: string, delivery: LabelProtocol.Delivery)
    | ControllerWrites(pod: Pod, command: Command, delivery: LabelProtocol.Delivery)
    | OthersWrite(name: string, rest: map<string, string>)

  const START := System(map[], map[], map[])

  function DeskOf(s: System, node: string): Swiftlet.Desk {
    if node in s.desks then s.desks[node] else Swiftlet.EMPTY
  }

  /** A pod object names no node before the pod is bound, and its home afterwards. */
  predicate MayName(s: System, p: Pod) {
    p.name in s.home && (p.node == "" || p.node == s.home[p.name])
  }

  /** What can happen. Nodes have names; informers deliver no version older than the last; the
      controller acts on any version it has read. */
  predicate CanHappen(s: System, e: Happening) {
    match e
    case PodCreated(name, node, _) => name !in s.history && node != ""
    case PodSeen(node, p) =>
      && node != "" && IsVersion(s.history, p) && MayName(s, p)
      && (p.name in DeskOf(s, node).cache ==> DeskOf(s, node).cache[p.name].version <= p.version)
    case SyncBegins(node, _) => node != ""
    case SyncFinishes(node, _) => node != ""
    case ControllerWrites(p, c, _) => IsVersion(s.history, p) && Applies(c, p.labels)
    case OthersWrite(name, _) => name in s.history && s.history[name] != []
  }

  function Next(s: System, e: Happening): System {
    if !CanHappen(s, e) then s
    else match e
      case PodCreated(name, node, l) => s.(history := s.history[name := [l]], home := s.home[name := node])
      case PodSeen(node, p) => s.(desks := s.desks[node := Swiftlet.Observed(DeskOf(s, node), p)])
      case SyncBegins(node, key) => s.(desks := s.desks[node := Swiftlet.Begun(DeskOf(s, node), node, key)])
      case SyncFinishes(node, d) =>
        s.(history := Swiftlet.Sent(s.history, DeskOf(s, node), d),
           desks := s.desks[node := Swiftlet.Finished(DeskOf(s, node))])
      case ControllerWrites(p, c, d) => s.(history := Updated(s.history, CopyFor(c, p), d))
      case OthersWrite(name, rest) =>
        var h := s.history[name];
        s.(history := s.history[name := h + [h[|h| - 1].(rest := rest)]])
  }

  function RunFrom(s: System, es: seq<Happening>): System {
    if es == [] then s else Next(RunFrom(s, es[..|es| - 1]), es[|es| - 1])
  }

  lemma RunFromExtends(s: System, es: seq<Happening>, e: Happening)
    ensures RunFrom(s, es + [e]) == Next(RunFrom(s, es), e)
  {
    assert (es + [e])[..|es|] == es;
  }

  lemma {:induction false} RunFromContinues(s: System, es: seq<Happening>, more: seq<Happening>)
    ensures RunFrom(s, es + more) == RunFrom(RunFrom(s, es), more)
  {
    if more == [] {
      assert es + more == es;
    } else {
      var front, e := more[..|more| - 1], more[|more| - 1];
      RunFromContinues(s, es, front);
      RunFromExtends(s, es + front, e);
      assert es + front + [e] == es + more;
    }
  }

  // ----- what holds in every run

  /** The desk of a node holds only objects of pods that exist, and has begun work only on pods
      that are bound to the node. */
  ghost predicate Tidy(s: System, node: string, d: Swiftlet.Desk) {
    && Swiftlet.Sound(s.history, d)
    && (forall k :: k in d.cache ==> MayName(s, d.cache[k]))
    && (d.pending.Some? ==> s.home[d.pending.value.name] == node)
    && (forall k :: k in d.latest ==> s.home[k] == node)
  }

  ghost predicate Invariant(s: System) {
    && s.home.Keys == s.history.Keys && Populated(s.history)
    && (forall node :: node in s.desks ==> node != "" && Tidy(s, node, s.desks[node]))
  }

  /** Versions are never rewritten and pods never disappear. */
  ghost predicate Grows(s: System, t: System) {
    && (forall k :: k in s.history ==> k in t.history && s.history[k] <= t.history[k])
    && (forall k :: k in s.home ==> k in t.home && s.home[k] == t.home[k])
  }

  lemma TidyLasts(s: System, t: System, node: string, d: Swiftlet.Desk)
    requires s.home.Keys == s.history.Keys && Tidy(s, node, d) && Grows(s, t)
    ensures Tidy(t, node, d)
  {
  }

  lemma OthersStayTidy(s: System, t: System, node: string)
    requires Invariant(s) && Grows(s, t) && t.home.Keys == t.history.Keys && Populated(t.history)
    requires node != "" && t.desks == s.desks[node := DeskOf(t, node)] && Tidy(t, node, DeskOf(t, node))
    ensures Invariant(t)
  {
    forall other | other in t.desks
      ensures other != "" && Tidy(t, other, t.desks[other])
    {
      if other != node {
        TidyLasts(s, t, other, s.desks[other]);
      }
    }
  }

  lemma SameDesksStayTidy(s: System, t: System)
    requires Invariant(s) && Grows(s, t) && t.home.Keys == t.history.Keys && Populated(t.history)
    requires t.desks == s.desks
    ensures Invariant(t)
  {
    forall node | node in t.desks
      ensures node != "" && Tidy(t, node, t.desks[node])
    {
      TidyLasts(s, t, node, s.desks[node]);
    }
  }

  lemma UpdateGrows(h: Histories, p: Pod, d: LabelProtocol.Delivery)
    requires Populated(h)
    ensures var after := Updated(h, p, d);
            after.Keys == h.Keys && Populated(after) && forall k :: k in h ==> h[k] <= after[k]
  {
  }

  lemma DeskIsTidy(s: System, node: string)
    requires Invariant(s)
    ensures Tidy(s, node, DeskOf(s, node))
  {
  }

  ghost predicate SwiftletOnly(e: Happening) {
    e.PodSeen? || e.SyncBegins? || e.SyncFinishes?
  }

  lemma FinishIsTidy(s: System, node: string, d: LabelProtocol.Delivery)
    requires Invariant(s) && node != ""
    ensures var t := Next(s, SyncFinishes(node, d));
            && Grows(s, t) && t.history.Keys == s.history.Keys && Populated(t.history)
            && Tidy(t, node, DeskOf(t, node))
  {
    var desk, t := DeskOf(s, node), Next(s, SyncFinishes(node, d));
    DeskIsTidy(s, node);
    if desk.pending.Some? {
      UpdateGrows(s.history, desk.pending.value, d);
    }
    TidyLasts(s, t, node, desk);
  }

  lemma SeenIsTidy(s: System, node: string, p: Pod)
    requires Invariant(s) && CanHappen(s, PodSeen(node, p))
    ensures Tidy(s, node, Swiftlet.Observed(DeskOf(s, node), p))
  {
    DeskIsTidy(s, node);
  }

  lemma BeginIsTidy(s: System, node: string, key: string)
    requires Invariant(s) && node != ""
    ensures Tidy(s, node, Swiftlet.Begun(DeskOf(s, node), node, key))
  {
    DeskIsTidy(s, node);
  }

  lemma SwiftletStepIsTidy(s: System, e: Happening)
    requires Invariant(s) && CanHappen(s, e) && SwiftletOnly(e)
    ensures var t := Next(s, e);
            && Grows(s, t) && t.home == s.home && t.history.Keys == s.history.Keys && Populated(t.history)
            && t.desks == s.desks[e.node := DeskOf(t, e.node)] && Tidy(t, e.node, DeskOf(t, e.node))
  {
    match e
    case SyncFinishes(node, d) => FinishIsTidy(s, node, d);
    case PodSeen(node, p) =>
      SeenIsTidy(s, node, p);
      TidyLasts(s, Next(s, e), node, Swiftlet.Observed(DeskOf(s, node), p));
    case SyncBegins(node, key) =>
      BeginIsTidy(s, node, key);
      TidyLasts(s, Next(s, e), node, Swiftlet.Begun(DeskOf(s, node), node, key));
  }

  /** Every happening keeps the invariant and rewrites nothing. */
  lemma NextKeepsInvariant(s: System, e: Happening)
    requires Invariant(s)
    ensures Invariant(Next(s, e)) && Grows(s, Next(s, e))
  {
    if CanHappen(s, e) {
      if SwiftletOnly(e) {
        SwiftletStepIsTidy(s, e);
        OthersStayTidy(s, Next(s, e), e.node);
      } else {
        if e.ControllerWrites? {
          UpdateGrows(s.history, CopyFor(e.command, e.pod), e.delivery);
        }
        SameDesksStayTidy(s, Next(s, e));
      }
    }
  }

  lemma {:induction false} RunKeepsInvariant(es: seq<Happening>)
    ensures Invariant(RunFrom(START, es))
  {
    if es != [] {
      RunKeepsInvariant(es[..|es| - 1]);
      NextKeepsInvariant(RunFrom(START, es[..|es| - 1]), es[|es| - 1]);
    }
  }

  // ----- each pod's part of a run

  /** A pod and the swiftlet of its node. */
  ghost function PodMachine(s: System, k: string): LabelProtocol.Machine
    requires k in s.history && k in s.home
  {
    Swiftlet.MachineOf(s.history, DeskOf(s, s.home[k]), k)
  }

  /** What a happening is to pod `k`: an event of its protocol, or nothing. */
  function EventFor(s: System, e: Happening, k: string): Option<LabelProtocol.Event>
    requires k in s.home
  {
    if !CanHappen(s, e) then None
    else match e
      case PodCreated(_, _, _) => None
      case PodSeen(node, p) =>
        if node == s.home[k] && p.name == k then Some(LabelProtocol.CacheMoves(p.version)) else None
      case SyncBegins(node, key) =>
        var desk := DeskOf(s, node);
        if node == s.home[k] && key == k && desk.pending.None? && k in desk.cache && desk.cache[k].node == node
        then Some(LabelProtocol.SwiftletStarts) else None
      case SyncFinishes(node, d) =>
        var desk := DeskOf(s, node);
        if desk.pending.Some? && desk.pending.value.name == k then Some(LabelProtocol.SwiftletFinishes(d)) else None
      case ControllerWrites(p, c, d) =>
        if p.name == k then Some(LabelProtocol.ControllerWrites(p.version, c, d)) else None
      case OthersWrite(name, rest) =>
        if name == k then Some(LabelProtocol.OtherWrites(rest)) else None
  }

  ghost predicate Moves(m: LabelProtocol.Machine, e: Option<LabelProtocol.Event>, n: LabelProtocol.Machine) {
    LabelProtocol.Valid(m) && n == if e.Some? then LabelProtocol.Step(m, e.value) else m
  }

  /** A swiftlet that has moved to desk `d`, and perhaps written, moves the pods of its own node
      only. */
  lemma DeskMovesPod(s: System, t: System, node: string, k: string)
    requires Invariant(s) && k in s.history && k in t.history && t.home == s.home
    requires t.desks == s.desks[node := DeskOf(t, node)]
    ensures PodMachine(t, k)
         == Swiftlet.MachineOf(t.history, if node == s.home[k] then DeskOf(t, node) else DeskOf(s, s.home[k]), k)
  {
  }

  lemma SeenMovesPod(s: System, node: string, p: Pod, k: string)
    requires Invariant(s) && k in s.history && CanHappen(s, PodSeen(node, p))
    ensures var e := PodSeen(node, p);
            Moves(PodMachine(s, k), EventFor(s, e, k), PodMachine(Next(s, e), k))
  {
    DeskIsTidy(s, node);
    DeskIsTidy(s, s.home[k]);
    DeskMovesPod(s, Next(s, PodSeen(node, p)), node, k);
    Swiftlet.ObserveIsStep(s.history, DeskOf(s, node), p, k);
  }

  lemma BeginMovesPod(s: System, node: string, key: string, k: string)
    requires Invariant(s) && k in s.history && CanHappen(s, SyncBegins(node, key))
    ensures var e := SyncBegins(node, key);
            Moves(PodMachine(s, k), EventFor(s, e, k), PodMachine(Next(s, e), k))
  {
    DeskIsTidy(s, node);
    DeskIsTidy(s, s.home[k]);
    DeskMovesPod(s, Next(s, SyncBegins(node, key)), node, k);
    Swiftlet.BeginIsStep(s.history, DeskOf(s, node), node, key, k);
  }

  lemma FinishMovesPod(s: System, node: string, d: LabelProtocol.Delivery, k: string)
    requires Invariant(s) && k in s.history && CanHappen(s, SyncFinishes(node, d))
    ensures var e := SyncFinishes(node, d);
            k in Next(s, e).history && Moves(PodMachine(s, k), EventFor(s, e, k), PodMachine(Next(s, e), k))
  {
    FinishIsTidy(s, node, d);
    DeskIsTidy(s, node);
    DeskIsTidy(s, s.home[k]);
    DeskMovesPod(s, Next(s, SyncFinishes(node, d)), node, k);
    Swiftlet.FinishIsStep(s.history, DeskOf(s, node), d, k);
  }

  /** A happening outside the swiftlets moves pod `k` at most by a write to it. */
  lemma WriteMovesPod(s: System, e: Happening, k: string)
    requires Invariant(s) && k in s.history && CanHappen(s, e) && !SwiftletOnly(e)
    ensures k in Next(s, e).history && k in Next(s, e).home
    ensures Moves(PodMachine(s, k), EventFor(s, e, k), PodMachine(Next(s, e), k))
  {
    DeskIsTidy(s, s.home[k]);
  }

  /** Everything that happens is to each pod one event of its protocol or nothing, whichever node
      it happens on. */
  lemma NextIsProtocolStep(s: System, e: Happening, k: string)
    requires Invariant(s) && k in s.history
    ensures k in Next(s, e).history && k in Next(s, e).home
    ensures Moves(PodMachine(s, k), EventFor(s, e, k), PodMachine(Next(s, e), k))
  {
    DeskIsTidy(s, s.home[k]);
    if CanHappen(s, e) {
      match e
      case PodSeen(node, p) => SeenMovesPod(s, node, p, k);
      case SyncBegins(node, key) => BeginMovesPod(s, node, key, k);
      case SyncFinishes(node, d) => FinishMovesPod(s, node, d, k);
      case _ => WriteMovesPod(s, e, k);
    }
  }

  lemma CreationIsProtocolStart(s: System, e: Happening, k: string)
    requires Invariant(s) && k !in s.history && k in Next(s, e).history
    ensures e.PodCreated? && k in Next(s, e).home && PodMachine(Next(s, e), k) == LabelProtocol.Created(e.labels)
  {
    DeskIsTidy(s, e.node);
  }

  /** A run of the whole system is for each pod in it a run of the protocol, from the labels the
      pod was created with. */
  lemma {:induction false} RunIsProtocolRun(es: seq<Happening>, k: string) returns (ps: seq<LabelProtocol.Event>)
    requires k in RunFrom(START, es).history
    ensures var s := RunFrom(START, es);
            k in s.home && s.history[k] != [] && PodMachine(s, k) == LabelProtocol.Run(s.history[k][0], ps)
  {
    var s, e := RunFrom(START, es[..|es| - 1]), es[|es| - 1];
    RunKeepsInvariant(es[..|es| - 1]);
    if k in s.history {
      ps := RunIsProtocolRun(es[..|es| - 1], k);
      NextIsProtocolStep(s, e, k);
      NextKeepsInvariant(s, e);
      if EventFor(s, e, k).Some? {
        LabelProtocol.RunAppend(s.history[k][0], ps, EventFor(s, e, k).value);
        ps := ps + [EventFor(s, e, k).value];
      }
    } else {
      CreationIsProtocolStart(s, e, k);
      ps := [];
    }
  }

  /** The safety of the whole system: in every run, with any number of nodes and pods, however old
      what each party reads and whichever writes are lost, a pod that was not created asleep is
      never stored as `running` after its suspension, nor as asleep without it. */
  lemma SystemIsSafe(es: seq<Happening>, k: string)
    requires var h := RunFrom(START, es).history; k in h && h[k] != [] && !Asleep(h[k][0])
    ensures k in RunFrom(START, es).home
    ensures var m := PodMachine(RunFrom(START, es), k);
            LabelProtocol.Valid(m) && LabelProtocol.Matches(m)
  {
    var ps := RunIsProtocolRun(es, k);
    LabelProtocol.StoredStateMatchesProcess(RunFrom(START, es).history[k][0], ps);
  }

  // ----- what a stored version can differ in from the one before

  lemma MachineSendsPublications(es: seq<Happening>, k: string)
    requires k in RunFrom(START, es).history
    ensures k in RunFrom(START, es).home
    ensures LabelProtocol.SendsPublications(PodMachine(RunFrom(START, es), k))
  {
    var ps := RunIsProtocolRun(es, k);
    LabelProtocol.RunSendsPublications(RunFrom(START, es).history[k][0], ps);
  }

  /** Somebody outside the protocol wrote version `j + 1` of pod `k`, in happening `i`. */
  ghost predicate WroteOther(es: seq<Happening>, k: string, i: nat, j: nat) {
    && i < |es| && es[i].OthersWrite? && es[i].name == k
    && var before, after := RunFrom(START, es[..i]).history, RunFrom(START, es[..i + 1]).history;
       && k in before && |before[k]| == j + 1 && k in after && |after[k]| == j + 2
       && after[k][j + 1] == after[k][j].(rest := es[i].rest)
  }

  function OtherLabels(e: Happening, k: string): Option<map<string, string>> {
    if e.OthersWrite? && e.name == k then Some(e.rest) else None
  }

  lemma EventForOthers(s: System, e: Happening, k: string)
    requires k in s.home && EventFor(s, e, k).Some?
    ensures LabelProtocol.OtherLabels(EventFor(s, e, k).value) == OtherLabels(e, k)
  {
  }

  lemma MoveAdds(m: LabelProtocol.Machine, e: Option<LabelProtocol.Event>, n: LabelProtocol.Machine,
                 rest: Option<map<string, string>>)
    requires LabelProtocol.SendsPublications(m) && Moves(m, e, n)
    requires e.Some? ==> rest == LabelProtocol.OtherLabels(e.value)
    ensures LabelProtocol.Adds(m.history, n.history, rest)
  {
    if e.Some? {
      LabelProtocol.EventAddsMove(m, e.value);
    }
  }

  /** What a happening adds to a pod's history. */
  lemma HappeningAddsMove(es: seq<Happening>, e: Happening, k: string)
    requires k in RunFrom(START, es).history && RunFrom(START, es).history[k] != []
    ensures var s := RunFrom(START, es);
            k in Next(s, e).history && LabelProtocol.Adds(s.history[k], Next(s, e).history[k], OtherLabels(e, k))
  {
    var s := RunFrom(START, es);
    RunKeepsInvariant(es);
    MachineSendsPublications(es, k);
    NextIsProtocolStep(s, e, k);
    if EventFor(s, e, k).Some? {
      EventForOthers(s, e, k);
    }
    MoveAdds(PodMachine(s, k), EventFor(s, e, k), PodMachine(Next(s, e), k), OtherLabels(e, k));
  }

  lemma WroteOtherBefore(es: seq<Happening>, k: string, i: nat, j: nat)
    requires es != [] && WroteOther(es[..|es| - 1], k, i, j)
    ensures WroteOther(es, k, i, j)
  {
    var front := es[..|es| - 1];
    assert es[..i] == front[..i] && es[..i + 1] == front[..i + 1];
  }

  /** The version that the last happening adds. */
  lemma LastVersionIsMove(es: seq<Happening>, k: string, j: nat)
    requires es != [] && k in RunFrom(START, es[..|es| - 1]).history && k in RunFrom(START, es).history
    requires j + 1 == |RunFrom(START, es[..|es| - 1]).history[k]| < |RunFrom(START, es).history[k]|
    ensures var h := RunFrom(START, es).history[k];
            LabelProtocol.IsMove(h[j], h[j + 1]) || WroteOther(es, k, |es| - 1, j)
  {
    var front, e := es[..|es| - 1], es[|es| - 1];
    HappeningAddsMove(front, e, k);
    LabelProtocol.LastVersionAdded(RunFrom(START, front).history[k], RunFrom(START, es).history[k],
                                   OtherLabels(e, k), j);
    assert es[..|es|] == es;
  }

  /** In every run of the system each stored version of a pod is a move of the protocol away from
      the one before, or was written by somebody outside it. So whatever the deployment controller
      and the swiftlets do, they never touch another label, and `sleep` only with a suspension. */
  lemma {:induction false} VersionsAreMoves(es: seq<Happening>, k: string, j: nat)
    requires k in RunFrom(START, es).history && j + 1 < |RunFrom(START, es).history[k]|
    ensures var h := RunFrom(START, es).history[k];
            LabelProtocol.IsMove(h[j], h[j + 1]) || exists i: nat :: WroteOther(es, k, i, j)
  {
    var front, e := es[..|es| - 1], es[|es| - 1];
    var s := RunFrom(START, front);
    RunKeepsInvariant(front);
    if k !in s.history {
      CreationIsProtocolStart(s, e, k);
    } else {
      HappeningAddsMove(front, e, k);
      if j + 1 < |s.history[k]| {
        VersionsAreMoves(front, k, j);
        if i: nat :| WroteOther(front, k, i, j) {
          WroteOtherBefore(es, k, i, j);
        }
      } else {
        LastVersionIsMove(es, k, j);
      }
    }
  }

  // ----- the deployment controller's syncs

  ghost predicate OnlyWrites(es: seq<Happening>) {
    forall e :: e in es ==> e.ControllerWrites?
  }

  ghost predicate AllVersions(h: Histories, pods: seq<Pod>) {
    forall p :: p in pods ==> IsVersion(h, p)
  }

  /** A batch of writes is a row of single ones. */
  lemma {:induction false} WritesAreSteps(s: System, c: Command, pods: seq<Pod>,
                                          deliver: string -> LabelProtocol.Delivery)
    returns (es: seq<Happening>)
    requires AllVersions(s.history, pods) && forall p :: p in pods ==> Applies(c, p.labels)
    ensures OnlyWrites(es) && RunFrom(s, es) == s.(history := WriteAll(s.history, c, pods, deliver))
    ensures forall p :: IsVersion(s.history, p) ==> IsVersion(RunFrom(s, es).history, p)
  {
    es := [];
    if pods != [] {
      var front, p := pods[..|pods| - 1], pods[|pods| - 1];
      assert p in pods && forall q :: q in front ==> q in pods;
      es := WritesAreSteps(s, c, front, deliver);
      RunFromExtends(s, es, ControllerWrites(p, c, deliver(p.name)));
      es := es + [ControllerWrites(p, c, deliver(p.name))];
    }
  }

  lemma {:induction false} AdoptionIsSteps(s: System, pods: seq<Pod>, deliver: string -> LabelProtocol.Delivery)
    returns (es: seq<Happening>)
    requires AllVersions(s.history, pods)
    ensures OnlyWrites(es) && RunFrom(s, es) == s.(history := Adopted(s.history, pods, deliver).0)
    ensures forall p :: IsVersion(s.history, p) ==> IsVersion(RunFrom(s, es).history, p)
  {
    es := [];
    if pods != [] {
      var front, p := pods[..|pods| - 1], pods[|pods| - 1];
      assert p in pods && forall q :: q in front ==> q in pods;
      es := AdoptionIsSteps(s, front, deliver);
      if Adopted(s.history, front, deliver).1 && p.labels.state == NoState {
        RunFromExtends(s, es, ControllerWrites(p, Adopt, deliver(p.name)));
        es := es + [ControllerWrites(p, Adopt, deliver(p.name))];
      }
    }
  }

  /** A whole sync of the deployment controller, from lists of any age, adds only such writes to a
      run; so runs with syncs are among those that `SystemIsSafe` speaks of. */
  lemma SyncIsSteps(s: System, r: Reading, deliverAdoption: string -> LabelProtocol.Delivery,
                    deliverSync: string -> LabelProtocol.Delivery)
    returns (es: seq<Happening>)
    requires r.allPods.Some? ==> AllVersions(s.history, r.allPods.value)
    requires r.allPods.Some? && Adjusts(r) ==>
               var adopted := Adopted(s.history, r.allPods.value, deliverAdoption).0;
               AllVersions(adopted, r.forRunning.value) && AllVersions(adopted, r.forSleeping.value)
    ensures OnlyWrites(es)
    ensures RunFrom(s, es) == s.(history := Synced(s.history, r, deliverAdoption, deliverSync).0)
  {
    es := [];
    if r.allPods.Some? {
      es := AdoptionIsSteps(s, r.allPods.value, deliverAdoption);
      if Adopted(s.history, r.allPods.value, deliverAdoption).1 && Adjusts(r) {
        var t := RunFrom(s, es);
        var plan := SyncPlan(r.forRunning.value, r.forSleeping.value, r.runningReplicas);
        PlanIsDrawnFromLists(r.forRunning.value, r.forSleeping.value, r.runningReplicas);
        var more := WritesAreSteps(t, plan.command, plan.pods, deliverSync);
        RunFromContinues(s, es, more);
        es := es + more;
      }
    }
  }
}

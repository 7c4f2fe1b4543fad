/** The suspend/activate protocol on one pod: a version history in the API server, controllers
    that read any version however old, and the swiftlet of the pod's node, whose cache only
    moves forward and which handles one pod at a time. A write is accepted only if it was made
    from the newest version. */
module LabelProtocol {
  import opened Options
  import opened SwiftLabels

  /** What becomes of a write on its way to the API server and back. */
  datatype Delivery = Delivered | Dropped | ReplyLost

  /** A write made from version `base`. */
  datatype Write = Write(base: nat, labels: Labels)

  /** `history` holds every stored version, oldest first. `pending` is the write the swiftlet
      is about to send after having run a process; `latest` is the last process it ran. */
  datatype Machine = Machine(
    history: seq<Labels>,
    cached: nat,
    pending: Option<Write>,
    latest: Process)

  datatype Event =
    | CacheMoves(to: nat)
    | SwiftletStarts
    | SwiftletFinishes(delivery: Delivery)
    | ControllerWrites(base: nat, command: Command, delivery: Delivery)
    | OtherWrites(rest: map<string, string>)

  ghost predicate Valid(m: Machine) {
    && m.history != [] && m.cached < |m.history|
    && (m.pending.Some? ==> m.pending.value.base <= m.cached)
  }

  /** Optimistic concurrency: a write from anything but the newest version is a conflict. */
  function Commit(history: seq<Labels>, w: Write, d: Delivery): seq<Labels> {
    if w.base == |history| - 1 && d != Dropped then history + [w.labels] else history
  }

  /** One step; an event that is not possible in the current state does nothing. No step
      rewrites a stored version. */
  function Step(m: Machine, e: Event): (r: Machine)
    requires Valid(m)
    ensures Valid(r) && m.history <= r.history
  {
    match e
    case CacheMoves(to) =>
      if m.cached <= to < |m.history| then m.(cached := to) else m
    case SwiftletStarts =>
      var l := m.history[m.cached];
      if m.pending.Some? || Reaction(l) == NoProcess then m
      else m.(pending := Some(Write(m.cached, Published(l))), latest := Reaction(l))
    case SwiftletFinishes(d) =>
      if m.pending.None? then m
      else m.(history := Commit(m.history, m.pending.value, d), pending := None)
    case ControllerWrites(base, c, d) =>
      if base < |m.history| && Applies(c, m.history[base])
      then m.(history := Commit(m.history, Write(base, Commanded(c, m.history[base])), d))
      else m
    case OtherWrites(rest) =>
      m.(history := m.history + [m.history[|m.history| - 1].(rest := rest)])
  }

  /** A pod as it is created, before any swiftlet has seen it. */
  function Created(l: Labels): Machine {
    Machine([l], 0, None, NoProcess)
  }

  function Run(l: Labels, es: seq<Event>): (m: Machine)
    ensures Valid(m)
  {
    if es == [] then Created(l) else Step(Run(l, es[..|es| - 1]), es[|es| - 1])
  }

  function Stored(m: Machine): Labels
    requires m.history != []
  {
    m.history[|m.history| - 1]
  }

  // ----- the invariant

  /** From version `c` on, no `sleeping` version comes before a `running` one. */
  ghost predicate NoSleepBeforeRun(h: seq<Labels>, c: nat) {
    forall i, j :: c <= i < j < |h| && h[i].state == Sleeping ==> h[j].state != Running
  }

  /** From version `c` on, no `runnable` version comes before one that is asleep. */
  ghost predicate NoWakeBeforeSleep(h: seq<Labels>, c: nat) {
    forall i, j :: c <= i < j < |h| && h[i].state == Runnable ==> !Asleep(h[j])
  }

  /** Labels are never taken off a pod again. */
  ghost predicate OnceLabelled(h: seq<Labels>) {
    forall i, j :: 0 <= i < j < |h| && h[j].state == NoState ==> h[i].state == NoState
  }

  ghost predicate Inv(m: Machine) {
    && Valid(m)
    && OnceLabelled(m.history)
    && NoSleepBeforeRun(m.history, m.cached)
    && NoWakeBeforeSleep(m.history, m.cached)
    && (m.pending.Some? ==>
          var w := m.pending.value;
          && w.labels == Published(m.history[w.base])
          && Reaction(m.history[w.base]) == m.latest != NoProcess)
    && (Stored(m).state == Running ==> m.latest != Suspension)
    && (Asleep(Stored(m)) ==> m.latest == Suspension)
    && (m.latest != NoProcess ==> Stored(m).state != NoState)
  }

  lemma StartKeepsInv(m: Machine)
    requires Inv(m)
    ensures Inv(Step(m, SwiftletStarts))
  {
  }

  lemma FinishKeepsInv(m: Machine, d: Delivery)
    requires Inv(m)
    ensures Inv(Step(m, SwiftletFinishes(d)))
  {
    if m.pending.Some? && m.pending.value.base == |m.history| - 1 {
      // The cache has reached the newest version, so nothing older is looked at any more.
      assert m.cached == |m.history| - 1;
    }
  }

  lemma CommandKeepsInv(m: Machine, base: nat, c: Command, d: Delivery)
    requires Inv(m)
    ensures Inv(Step(m, ControllerWrites(base, c, d)))
  {
    if base == |m.history| - 1 && Applies(c, m.history[base]) && c == Adopt {
      // Nothing before an unlabelled version is labelled, so nothing before it is sleeping.
      assert forall i :: 0 <= i < |m.history| ==> m.history[i].state == NoState;
    }
  }

  lemma OtherKeepsInv(m: Machine, rest: map<string, string>)
    requires Inv(m)
    ensures Inv(Step(m, OtherWrites(rest)))
  {
    var n := |m.history| - 1;
    assert forall i :: m.cached <= i < n && m.history[i].state == Sleeping ==> m.history[n].state != Running;
  }

  /** Every step of every party keeps the invariant. */
  lemma StepKeepsInv(m: Machine, e: Event)
    requires Inv(m)
    ensures Inv(Step(m, e))
  {
    match e
    case CacheMoves(_) =>
    case SwiftletStarts => StartKeepsInv(m);
    case SwiftletFinishes(d) => FinishKeepsInv(m, d);
    case ControllerWrites(base, c, d) => CommandKeepsInv(m, base, c, d);
    case OtherWrites(rest) => OtherKeepsInv(m, rest);
  }

  lemma {:induction false} RunKeepsInv(l: Labels, es: seq<Event>)
    requires !Asleep(l)
    ensures Inv(Run(l, es))
  {
    if es != [] {
      RunKeepsInv(l, es[..|es| - 1]);
      StepKeepsInv(Run(l, es[..|es| - 1]), es[|es| - 1]);
    }
  }

  /** The safety of the protocol over every run, however stale the readers and whichever writes
      are lost: a pod stored as `running` is never one whose last process was its suspension,
      and a pod stored as `sleeping` with `sleep=done` always is. A pod may be created with any
      labels except those of a pod already asleep. */
  lemma StoredStateMatchesProcess(l: Labels, es: seq<Event>)
    requires !Asleep(l)
    ensures var m := Run(l, es);
            && (Stored(m).state == Running ==> m.latest != Suspension)
            && (Asleep(Stored(m)) ==> m.latest == Suspension)
            && (m.pending.Some? && m.latest == Suspension ==> Stored(m).state != Running)
            && (m.pending.Some? && m.latest == Activation ==> !Asleep(Stored(m)))
  {
    RunKeepsInv(l, es);
  }

  lemma RunAppend(l: Labels, es: seq<Event>, e: Event)
    ensures Run(l, es + [e]) == Step(Run(l, es), e)
  {
    assert (es + [e])[..|es|] == es;
  }

  // ----- what a stored version can differ in from the one before

  /** One of the moves of the protocol: `b` follows `a` by a command or a publication. All other
      labels stay as they are, and `sleep` changes only when a suspension is asked for or reported
      done. */
  predicate IsMove(a: Labels, b: Labels) {
    && b.rest == a.rest
    && match b.state
       case Running => (a.state == NoState || a.state == Runnable) && b.sleep == a.sleep
       case Runnable => a.state == Sleeping && b.sleep == a.sleep
       case Sleeping =>
         || ((a.state == Running || a.state == Runnable) && b.sleep == Wait)
         || (a.state == Sleeping && a.sleep != Done && b.sleep == Done)
       case _ => false
  }

  lemma CommandIsMove(c: Command, l: Labels)
    requires Applies(c, l)
    ensures IsMove(l, Commanded(c, l)) && Commanded(c, l).rest == l.rest
  {
  }

  lemma PublicationIsMove(l: Labels)
    requires Reaction(l) != NoProcess
    ensures IsMove(l, Published(l)) && Published(l).rest == l.rest
  {
  }

  /** The swiftlet only ever sends what it makes of a version it has read. */
  ghost predicate SendsPublications(m: Machine) {
    && Valid(m)
    && (m.pending.Some? ==>
          var w := m.pending.value;
          Reaction(m.history[w.base]) != NoProcess && w.labels == Published(m.history[w.base]))
  }

  /** History `g` is `h` and at most one more version: a move from the last, or, where `rest` is
      given, the last with these other labels. */
  ghost predicate Adds(h: seq<Labels>, g: seq<Labels>, rest: Option<map<string, string>>)
    requires h != []
  {
    || g == h
    || (&& |g| == |h| + 1 && g[..|h|] == h
        && (if rest.Some? then g[|h|] == h[|h| - 1].(rest := rest.value) else IsMove(h[|h| - 1], g[|h|])))
  }

  function OtherLabels(e: Event): Option<map<string, string>> {
    if e.OtherWrites? then Some(e.rest) else None
  }

  lemma EventAddsMove(m: Machine, e: Event)
    requires SendsPublications(m)
    ensures SendsPublications(Step(m, e)) && Adds(m.history, Step(m, e).history, OtherLabels(e))
  {
    match e
    case ControllerWrites(base, c, _) =>
      if base < |m.history| && Applies(c, m.history[base]) {
        CommandIsMove(c, m.history[base]);
      }
    case SwiftletFinishes(_) =>
      if m.pending.Some? {
        PublicationIsMove(m.history[m.pending.value.base]);
      }
    case _ =>
  }

  /** Somebody else wrote version `j + 1` of the run, in event `i`. */
  ghost predicate WroteOther(l: Labels, es: seq<Event>, i: nat, j: nat) {
    && i < |es| && es[i].OtherWrites?
    && |Run(l, es[..i]).history| == j + 1
    && var h := Run(l, es[..i + 1]).history;
       |h| == j + 2 && h[j + 1] == h[j].(rest := es[i].rest)
  }

  lemma {:induction false} RunSendsPublications(l: Labels, es: seq<Event>)
    ensures SendsPublications(Run(l, es))
  {
    if es != [] {
      RunSendsPublications(l, es[..|es| - 1]);
      EventAddsMove(Run(l, es[..|es| - 1]), es[|es| - 1]);
    }
  }

  lemma WroteOtherBefore(l: Labels, es: seq<Event>, i: nat, j: nat)
    requires es != [] && WroteOther(l, es[..|es| - 1], i, j)
    ensures WroteOther(l, es, i, j)
  {
    var front := es[..|es| - 1];
    assert es[..i] == front[..i] && es[..i + 1] == front[..i + 1];
  }

  /** The version that the last event adds. */
  lemma LastVersionIsMove(l: Labels, es: seq<Event>, j: nat)
    requires es != [] && j + 1 == |Run(l, es[..|es| - 1]).history| && j + 1 < |Run(l, es).history|
    ensures IsMove(Run(l, es).history[j], Run(l, es).history[j + 1]) || WroteOther(l, es, |es| - 1, j)
  {
    var m, e := Run(l, es[..|es| - 1]), es[|es| - 1];
    RunSendsPublications(l, es[..|es| - 1]);
    EventAddsMove(m, e);
    LastVersionAdded(m.history, Run(l, es).history, OtherLabels(e), j);
    assert es[..|es|] == es;
  }

  lemma LastVersionAdded(h: seq<Labels>, g: seq<Labels>, rest: Option<map<string, string>>, j: nat)
    requires h != [] && Adds(h, g, rest) && j + 1 == |h| < |g|
    ensures |g| == j + 2 && g[j] == h[j]
    ensures if rest.Some? then g[j + 1] == g[j].(rest := rest.value) else IsMove(g[j], g[j + 1])
  {
  }

  /** In every run each stored version is a move away from the one before, or was written by
      somebody else, who left `state` and `sleep` alone. So neither controller nor swiftlet ever
      touches another label. */
  lemma {:induction false} VersionsAreMoves(l: Labels, es: seq<Event>, j: nat)
    requires j + 1 < |Run(l, es).history|
    ensures IsMove(Run(l, es).history[j], Run(l, es).history[j + 1]) || exists i: nat :: WroteOther(l, es, i, j)
  {
    var front := es[..|es| - 1];
    var m := Run(l, front);
    RunSendsPublications(l, front);
    EventAddsMove(m, es[|es| - 1]);
    if j + 1 < |m.history| {
      VersionsAreMoves(l, front, j);
      if i: nat :| WroteOther(l, front, i, j) {
        WroteOtherBefore(l, es, i, j);
      }
    } else {
      LastVersionIsMove(l, es, j);
    }
  }

  ghost predicate Matches(m: Machine)
    requires Valid(m)
  {
    && (Stored(m).state == Running ==> m.latest != Suspension)
    && (Asleep(Stored(m)) ==> m.latest == Suspension)
  }

  ghost predicate MatchesAfter(l: Labels, es: seq<Event>) {
    Matches(Run(l, es))
  }

  /** The condition on creation is exact: every run is safe if and only if the pod was not
      created asleep. */
  lemma SafeUnlessCreatedAsleep(l: Labels)
    ensures (forall es :: MatchesAfter(l, es)) <==> !Asleep(l)
  {
    if Asleep(l) {
      assert !MatchesAfter(l, []);
    } else {
      forall es
        ensures MatchesAfter(l, es)
      {
        StoredStateMatchesProcess(l, es);
      }
    }
  }

  function Steps(m: Machine, es: seq<Event>): (r: Machine)
    requires Valid(m)
    ensures Valid(r)
    decreases |es|
  {
    if es == [] then m else Steps(Step(m, es[0]), es[1..])
  }

  lemma {:induction false} StepsContinueRun(l: Labels, before: seq<Event>, es: seq<Event>)
    ensures Steps(Run(l, before), es) == Run(l, before + es)
    decreases |es|
  {
    if es == [] {
      assert before + es == before;
    } else {
      RunAppend(l, before, es[0]);
      StepsContinueRun(l, before + [es[0]], es[1..]);
      assert before + [es[0]] + es[1..] == before + es;
    }
  }

  /** A new pod is adopted and put to sleep. */
  function FallAsleep(): seq<Event> {
    [ControllerWrites(0, Adopt, Delivered), ControllerWrites(1, Suspend, Delivered),
     CacheMoves(2), SwiftletStarts, SwiftletFinishes(Delivered)]
  }

  /** And woken again. */
  function WakeUp(): seq<Event> {
    [ControllerWrites(3, Activate, Delivered), CacheMoves(4), SwiftletStarts, SwiftletFinishes(Delivered)]
  }

  lemma AfterFallAsleep(l: Labels)
    requires l.state == NoState
    ensures var running := l.(state := Running);
            Steps(Created(l), FallAsleep())
            == Machine([l, running, Commanded(Suspend, running), l.(state := Sleeping, sleep := Done)],
                       2, None, Suspension)
  {
    var es := FallAsleep();
    var m2 := Step(Step(Created(l), es[0]), es[1]);
    assert Steps(Created(l), es) == Steps(m2, es[2..]) by {
      assert es[1..][1..] == es[2..];
    }
    var m4 := Step(Step(m2, es[2]), es[3]);
    assert Steps(m2, es[2..]) == Steps(m4, es[4..]) by {
      assert es[2..][1..] == es[3..] && es[3..][1..] == es[4..];
    }
    assert es[4..] == [es[4]] && es[4..][1..] == [];
  }

  lemma AfterWakeUp(m: Machine, es: seq<Event>)
    requires Valid(m) && |m.history| == 4 && m.cached == 2 && m.pending == None
    requires m.history[2].state == Sleeping && m.history[2].sleep == Wait
    requires Asleep(m.history[3]) && es == WakeUp()
    ensures var r := Steps(m, es);
            && Stored(r).state == Running && r.cached == 4 && |r.history| > 4
            && var b := Step(r.(cached := 2), SwiftletStarts);
               Stored(b).state == Running && b.latest == Suspension
  {
    var m2 := Step(Step(m, es[0]), es[1]);
    assert Steps(m, es) == Steps(m2, es[2..]) by {
      assert es[1..][1..] == es[2..];
    }
    assert es[2..][1..] == es[3..] && es[3..] == [es[3]] && es[3..][1..] == [];
  }

  /** The forward-only cache is needed: if after one cycle the cache fell back to version 2,
      the swiftlet would suspend a pod that is stored as `running`. */
  lemma BackwardCacheIsUnsafe(l: Labels)
    requires l.state == NoState
    ensures var m := Run(l, FallAsleep() + WakeUp());
            && m.cached == 4 && |m.history| > 4
            && var r := Step(m.(cached := 2), SwiftletStarts);
               Stored(r).state == Running && r.latest == Suspension
  {
    StepsContinueRun(l, [], FallAsleep());
    assert [] + FallAsleep() == FallAsleep();
    AfterFallAsleep(l);
    StepsContinueRun(l, FallAsleep(), WakeUp());
    AfterWakeUp(Run(l, FallAsleep()), WakeUp());
  }
}

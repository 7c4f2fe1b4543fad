/** A run in which a latency-critical pod keeps cores that best effort may use as well: its own
    demand drops to zero while its endpoint is still up, so that its cpuset becomes an empty
    list, which the cgroup library does not write. */
module ZeroDemand {
  import opened Options
  import opened Words
  import opened PodLabels
  import opened Cpuset
  import opened Classifier
  import opened NodeTick
  import TickProjection
  import opened PodHistory
  import opened TickRuns
  import Scaling

  const CORES: Word := 4
  const LC_POD := "lc"
  const BE_POD := "be"
  const ALL_OK := Fate(true, true, true)

  function View(key: string, labels: Labels, service: string): PodView {
    PodView(key, labels, map[SERVICE_TYPE_LABEL := service], [true], true, true, 0, 0, 100000, Scaling.NaN, 0, 0)
  }

  /** A pod of the LC service without further labels: it asks for three cores. */
  function LcView(state: string): PodView {
    View(LC_POD, map[STATE_LABEL := state], "lc-service")
  }

  function BeView(): PodView {
    View(BE_POD, map[], "be-service")
  }

  function Listing(state: string): seq<PodView> {
    [LcView(state), BeView()]
  }

  function Visit(infos: map<string, CpuState>, kernel: map<string, Cgroup>, state: string): Round {
    Round(infos, kernel, Listed(Listing(state), _ => ALL_OK))
  }

  function FirstRound(): Round {
    Visit(map[LC_POD := CpuUnknown, BE_POD := CpuUnknown],
          map[LC_POD := NO_CGROUP, BE_POD := NO_CGROUP], "Ready-Running")
  }

  function Again(c: Controller, state: string): Round {
    Visit(c.node.infos, c.node.kernel, state)
  }

  /** The pod is found, runs for a turn, and then naps with its endpoint up. */
  function Rounds(): seq<Round> {
    var one := [FirstRound()];
    var two := one + [Again(Run(one, CORES), "Ready-Running")];
    two + [Again(Run(two, CORES), "Ready-CatNap")]
  }

  // ----- what the labels say

  lemma KeysDiffer()
    ensures LC_POD != BE_POD
    ensures STATE_LABEL != CPUSET_LABEL && STATE_LABEL != ENDPOINT_LABEL && STATE_LABEL != CPU_REQUEST_LABEL
    ensures "lc-service" != "be-service"
  {
    assert LC_POD[0] == 'l' && BE_POD[0] == 'b';
    assert |STATE_LABEL| == 18 && |CPUSET_LABEL| == 19 && |ENDPOINT_LABEL| == 21 && |CPU_REQUEST_LABEL| == 24;
    assert "lc-service"[0] == 'l' && "be-service"[0] == 'b';
  }

  lemma LcReads(state: string)
    requires state == "Ready-Running" || state == "Ready-CatNap"
    ensures PodService(LcView(state)) == LcService && PodRegion(LcView(state)) == Some(LC)
    ensures PodArm(LcView(state)) == if state == "Ready-Running" then Steady else NapUp
    ensures PodRequest(LcView(state)) == 300000
  {
    KeysDiffer();
    var v := LcView(state);
    assert |"Ready-Running"| == 13 && |"Ready-CatNap"| == 12 && |"Ready-FullSpeed"| == 15;
    assert GetPodState(v.labels) == if state == "Ready-Running" then PodState.Running else CatNap;
    assert GetPodEndpointState(v.labels) == UnknownEndpoint;
    RequestByDefault(v);
  }

  lemma BeReads()
    ensures PodService(BeView()) == BeService && PodRegion(BeView()) == Some(BE)
  {
    KeysDiffer();
  }

  lemma ListingIsUnique(state: string)
    ensures UniqueKeys(Listing(state))
    ensures TickProjection.ViewOf(Listing(state), LC_POD) == Some(LcView(state))
    ensures TickProjection.ViewOf(Listing(state), BE_POD) == Some(BeView())
  {
    KeysDiffer();
    var views := Listing(state);
    assert views[..1] == [LcView(state)] && views[..1][..0] == [];
  }

  // ----- one round

  function LcMoment(c: Controller, r: Round): Moment {
    MomentOf(c, r, CORES, LC_POD)
  }

  function BeMoment(c: Controller, r: Round): Moment {
    MomentOf(c, r, CORES, BE_POD)
  }

  /** A round's total is the LC pod's own demand. */
  lemma RoundTotal(c: Controller, r: Round, state: string)
    requires r.turn.Listed? && r.turn.views == Listing(state)
    ensures RoundTotals(c, r, CORES).lc
         == Ceil(MinReal(PodDemand(LcView(state), Lookup(Churned(c, r), LC_POD)), CORES as real))
    ensures RoundTotals(c, r, CORES).prevLc == c.prevLc && RoundTotals(c, r, CORES).prevMix == c.prevMix
  {
    ListingIsUnique(state);
    BeReads();
    var n, views := Churned(c, r), Listing(state);
    TickProjection.LcCoresOfTick(n, views, CORES, c.prevLc, c.prevMix);
    assert views[..1] == [LcView(state)] && views[..1][..0] == [];
    assert PodDemand(BeView(), Lookup(n, BE_POD)) == 0.0;
    assert TickProjection.TotalDemand(n, views) == TickProjection.TotalDemand(n, views[..1]) + 0.0;
    assert TickProjection.TotalDemand(n, views[..1])
        == TickProjection.TotalDemand(n, []) + PodDemand(LcView(state), Lookup(n, LC_POD));
  }

  // ----- one moment of each pod

  ghost predicate IsLcMoment(m: Moment, state: string) {
    Plausible(m) && !m.missed && m.view == Some(LcView(state)) && m.fate == ALL_OK && m.before.info.Some?
  }

  ghost predicate IsBeMoment(m: Moment) {
    Plausible(m) && !m.missed && m.view == Some(BeView()) && m.fate == ALL_OK && m.before.info.Some?
  }

  ghost predicate Sampled(t: Track) {
    t.metrics.Some? && t.metrics.value.sampled
  }

  function DemandOf(state: string, t: Track): real {
    if t.metrics.Some? && t.metrics.value.sampled && state == "Ready-Running" then 3.0 else 0.0
  }

  lemma LcDemand(state: string, t: Track)
    requires (state == "Ready-Running" || state == "Ready-CatNap") && t.info.Some?
    ensures PodDemand(LcView(state), t) == DemandOf(state, t)
  {
    LcReads(state);
    var v := LcView(state);
    assert LabelDemand(v) == if state == "Ready-Running" then 3.0 else 0.0 by {
      assert PodRequest(v) as real / DEFAULT_CPU_PERIOD as real == 3.0;
      assert AllReady(v.containersReady);
    }
  }

  lemma LcPlacement(m: Moment, state: string)
    requires (state == "Ready-Running" || state == "Ready-CatNap") && IsLcMoment(m, state) && Sampled(m.before)
    ensures Placement(m) == Some(LC) && Decision(m).Some?
  {
    LcReads(state);
  }

  lemma BePlacement(m: Moment)
    requires IsBeMoment(m)
    ensures Placement(m) == Some(BE) && Decision(m).None? && After(m).info.Some?
  {
    BeReads();
    TurnMovesInfo(m);
  }

  lemma FirstLcMoment(m: Moment)
    requires IsLcMoment(m, "Ready-Running") && m.before.metrics.None?
    ensures Sampled(After(m)) && After(m).info.Some?
  {
    LcReads("Ready-Running");
  }

  /** A turn that decides on a pod leaves its record ready to be acted on again. */
  lemma DecidedTurnKeepsSample(m: Moment)
    requires Plausible(m) && Decision(m).Some?
    ensures Sampled(After(m)) && After(m).info.Some?
  {
    ActionNeedsRecord(m.view.value, m.before);
  }

  /** The cpusets both pods hold after their moments of a round in which the totals moved. */
  lemma MovedCpusets(p: Moment, q: Moment, state: string)
    requires (state == "Ready-Running" || state == "Ready-CatNap") && IsLcMoment(p, state) && Sampled(p.before)
    requires IsBeMoment(q) && p.totals == q.totals && Moved(p.totals)
    ensures After(q).cgroup.cpuset == CpusetText(Target(BE, q.totals))
    ensures After(p).cgroup.cpuset
         == if p.totals.lc > 0 then CpusetText(LowerCpus(p.totals.lc)) else p.before.cgroup.cpuset
  {
    LcPlacement(p, state);
    BePlacement(q);
    EmptyTarget(p.totals, LC);
    EmptyTarget(q.totals, BE);
    TurnWritesTarget(p);
    TurnWritesTarget(q);
  }

  lemma BeTargets(t: Totals)
    requires Sound(t) && t.mix == 0 && t.cores == CORES
    ensures t.lc == 3 ==> Target(BE, t) == UpperCpus(CORES, 1)
    ensures t.lc == 0 ==> Target(BE, t) == UpperCpus(CORES, CORES)
  {
    assert MinBeCores(CORES) == 1;
    BeSetStart(CORES, t.lc);
  }

  // ----- the three rounds

  /** Both pods are known, and the LC pod has a record that is ready to be acted on. */
  ghost predicate Ready(c: Controller) {
    var lc, be := Lookup(c.node, LC_POD), Lookup(c.node, BE_POD);
    Invariant(c, CORES) && lc.info.Some? && be.info.Some? && Sampled(lc)
  }

  /** What a round does to both pods, each seen alone. */
  lemma RoundSeenByPods(c: Controller, r: Round, state: string)
    requires Invariant(c, CORES) && Legal(c, r)
    requires r.turn.Listed? && r.turn.views == Listing(state) && forall k :: r.turn.fate(k) == ALL_OK
    ensures Invariant(Next(c, r, CORES), CORES)
    ensures Plausible(LcMoment(c, r)) && LcMoment(c, r).view == Some(LcView(state)) && LcMoment(c, r).fate == ALL_OK
    ensures Plausible(BeMoment(c, r)) && BeMoment(c, r).view == Some(BeView()) && BeMoment(c, r).fate == ALL_OK
    ensures Lookup(Next(c, r, CORES).node, LC_POD) == After(LcMoment(c, r))
    ensures Lookup(Next(c, r, CORES).node, BE_POD) == After(BeMoment(c, r))
    ensures Next(c, r, CORES).prevLc == RoundTotals(c, r, CORES).lc
  {
    ListingIsUnique(state);
    NextKeepsInvariant(c, r, CORES);
    RoundProjects(c, r, CORES, LC_POD);
    RoundProjects(c, r, CORES, BE_POD);
  }

  lemma AgainIsLegal(c: Controller, state: string)
    requires Invariant(c, CORES)
    ensures Legal(c, Again(c, state)) && Churned(c, Again(c, state)) == c.node
  {
    ListingIsUnique(state);
  }

  lemma FirstTurn()
    ensures Legal(START, FirstRound())
    ensures var c := Next(START, FirstRound(), CORES);
            Ready(c) && c.prevLc == 0
  {
    var r := FirstRound();
    FirstTotal();
    RoundSeenByPods(START, r, "Ready-Running");
    FirstLcMoment(LcMoment(START, r));
    BePlacement(BeMoment(START, r));
  }

  lemma FirstTotal()
    ensures Legal(START, FirstRound())
    ensures RoundTotals(START, FirstRound(), CORES).lc == 0
    ensures var n := Churned(START, FirstRound());
            Lookup(n, LC_POD).info.Some? && Lookup(n, BE_POD).info.Some? && Lookup(n, LC_POD).metrics.None?
  {
    ListingIsUnique("Ready-Running");
    KeysDiffer();
    RoundTotal(START, FirstRound(), "Ready-Running");
    LcDemand("Ready-Running", Lookup(Churned(START, FirstRound()), LC_POD));
  }

  /** The totals and moments of a later round. */
  lemma LaterRound(c: Controller, state: string)
    requires (state == "Ready-Running" || state == "Ready-CatNap") && Ready(c)
    ensures var r := Again(c, state);
            && Legal(c, r)
            && IsLcMoment(LcMoment(c, r), state) && Sampled(LcMoment(c, r).before)
            && IsBeMoment(BeMoment(c, r))
            && LcMoment(c, r).before == Lookup(c.node, LC_POD)
            && LcMoment(c, r).totals == BeMoment(c, r).totals == RoundTotals(c, r, CORES)
  {
    AgainIsLegal(c, state);
    RoundSeenByPods(c, Again(c, state), state);
  }

  lemma LaterTotal(c: Controller, state: string)
    requires (state == "Ready-Running" || state == "Ready-CatNap") && Ready(c)
    ensures var t := RoundTotals(c, Again(c, state), CORES);
            t.lc == (if state == "Ready-Running" then 3 else 0) && t.prevLc == c.prevLc
  {
    AgainIsLegal(c, state);
    RoundTotal(c, Again(c, state), state);
    LcDemand(state, Lookup(c.node, LC_POD));
  }

  /** A later round in which the demand changes. */
  lemma LaterTurn(c: Controller, state: string)
    requires (state == "Ready-Running" || state == "Ready-CatNap") && Ready(c)
    requires c.prevLc != if state == "Ready-Running" then 3 else 0
    ensures Legal(c, Again(c, state))
    ensures var d := Next(c, Again(c, state), CORES);
            && Ready(d) && d.prevLc == (if state == "Ready-Running" then 3 else 0)
            && Lookup(d.node, LC_POD).cgroup.cpuset
               == (if d.prevLc > 0 then CpusetText(LowerCpus(d.prevLc)) else Lookup(c.node, LC_POD).cgroup.cpuset)
            && Lookup(d.node, BE_POD).cgroup.cpuset
               == CpusetText(UpperCpus(CORES, if state == "Ready-Running" then 1 else CORES))
  {
    var r := Again(c, state);
    LaterRound(c, state);
    LaterTotal(c, state);
    RoundSeenByPods(c, r, state);
    MovedCpusets(LcMoment(c, r), BeMoment(c, r), state);
    BeTargets(RoundTotals(c, r, CORES));
    LcPlacement(LcMoment(c, r), state);
    DecidedTurnKeepsSample(LcMoment(c, r));
    BePlacement(BeMoment(c, r));
  }

  lemma RunAppends(rounds: seq<Round>, r: Round)
    requires LegalRun(rounds, CORES) && Legal(Run(rounds, CORES), r)
    ensures Run(rounds + [r], CORES) == Next(Run(rounds, CORES), r, CORES)
    ensures LegalRun(rounds + [r], CORES)
  {
    var all := rounds + [r];
    assert all[..|rounds|] == rounds;
    forall i | 0 <= i < |all|
      ensures Legal(Run(all[..i], CORES), all[i])
    {
      if i < |rounds| {
        assert all[..i] == rounds[..i];
      }
    }
  }

  lemma RunOfOne(r: Round)
    requires Legal(START, r)
    ensures LegalRun([r], CORES) && Run([r], CORES) == Next(START, r, CORES)
  {
    assert Run([], CORES) == START;
    RunAppends([], r);
    assert [] + [r] == [r];
  }

  lemma AfterFirstRound()
    ensures LegalRun([FirstRound()], CORES)
    ensures Ready(Run([FirstRound()], CORES)) && Run([FirstRound()], CORES).prevLc == 0
  {
    FirstTurn();
    RunOfOne(FirstRound());
  }

  /** The run is legal, every write in it succeeds, and after it the latency-critical pod still
      has cores 0, 1 and 2 although nothing is demanded, and the best-effort pod has all four. */
  lemma NappingPodSharesItsCores()
    ensures LegalRun(Rounds(), CORES)
    ensures var c := Run(Rounds(), CORES);
            && c.prevLc == 0
            && ParseCpus(Lookup(c.node, LC_POD).cgroup.cpuset) == [0, 1, 2]
            && ParseCpus(Lookup(c.node, BE_POD).cgroup.cpuset) == [0, 1, 2, 3]
  {
    AfterFirstRound();
    var one := [FirstRound()];
    var c1 := Run(one, CORES);
    LaterTurn(c1, "Ready-Running");
    RunAppends(one, Again(c1, "Ready-Running"));
    var two := one + [Again(c1, "Ready-Running")];
    var c2 := Run(two, CORES);
    NapAfterRun(two, c2);
  }

  lemma NapAfterRun(rounds: seq<Round>, c: Controller)
    requires LegalRun(rounds, CORES) && c == Run(rounds, CORES)
    requires Ready(c) && c.prevLc == 3 && Lookup(c.node, LC_POD).cgroup.cpuset == CpusetText(LowerCpus(3))
    ensures var all := rounds + [Again(c, "Ready-CatNap")];
            && LegalRun(all, CORES)
            && var d := Run(all, CORES);
               && d.prevLc == 0
               && ParseCpus(Lookup(d.node, LC_POD).cgroup.cpuset) == [0, 1, 2]
               && ParseCpus(Lookup(d.node, BE_POD).cgroup.cpuset) == [0, 1, 2, 3]
  {
    LaterTurn(c, "Ready-CatNap");
    RunAppends(rounds, Again(c, "Ready-CatNap"));
    ListsReadBack();
  }

  lemma ListsReadBack()
    ensures ParseCpus(CpusetText(LowerCpus(3))) == [0, 1, 2]
    ensures ParseCpus(CpusetText(UpperCpus(CORES, CORES))) == [0, 1, 2, 3]
  {
    CpusetTextRoundTrip(LowerCpus(3));
    CpusetTextRoundTrip(UpperCpus(CORES, CORES));
    assert LowerCpus(3) == [0, 1, 2] && UpperCpus(CORES, CORES) == [0, 1, 2, 3];
  }
}

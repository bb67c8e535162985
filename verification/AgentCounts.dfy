/** Exactly how much the native agent emits, and which sites it attaches. */
module AgentCounts {
  import opened AgentHits

  /** How many captures of the probe a step would emit if there were no limit. */
  function Demand(c: Config, a: Agent, step: Step, l: Logical): nat {
    match step
    case Event(site, emits) => if LogicalOf(c, site) == l && emits then 1 else 0
    case ReadCounter(site, captures) =>
      if LogicalOf(c, site) == l && c.info(site).counter && site in a.active && captures > a.active[site]
      then captures - a.active[site] else 0
    case _ => 0
  }

  function Demands(c: Config, xs: seq<Agent>, steps: seq<Step>, i: nat, j: nat, l: Logical): nat
    requires i <= j <= |steps| && |xs| == |steps| + 1
    decreases j
  {
    if i == j then 0 else Demands(c, xs, steps, i, j - 1, l) + Demand(c, xs[j - 1], steps[j - 1], l)
  }

  lemma StepEmitsExactly(c: Config, a: Agent, step: Step, l: Logical)
    requires Enabled(c, a, step) && l in LogicalsOf(c, a.desired) && l in LogicalsOf(c, Apply(c, a, step).desired)
    requires Count(a.captured, l) <= c.limit(l)
    ensures Count(Apply(c, a, step).captured, l) == Min(c.limit(l), Count(a.captured, l) + Demand(c, a, step, l))
  {
    hide LogicalsOf;
  }

  lemma {:induction false} CountsExactly(c: Config, xs: seq<Agent>, steps: seq<Step>, i: nat, j: nat, l: Logical)
    requires Run(c, xs, steps) && StaysDesired(c, xs, i, j, l)
    ensures Count(xs[j].captured, l) == Min(c.limit(l), Count(xs[i].captured, l) + Demands(c, xs, steps, i, j, l))
    decreases j
  {
    hide Apply, Enabled, Demand;
    RunKeepsInv(c, xs, steps, j);
    if i < j {
      CountsExactly(c, xs, steps, i, j - 1, l);
      StepEmitsExactly(c, xs[j - 1], steps[j - 1], l);
    }
  }

  /**
   While a probe stays desired, its sites together emit exactly what they have to report, up to what is
   left of the hit limit: nothing is lost below it and nothing goes out beyond it.
   */
  lemma EmissionsAreExact(c: Config, xs: seq<Agent>, steps: seq<Step>, i: nat, j: nat, l: Logical)
    requires Run(c, xs, steps) && StaysDesired(c, xs, i, j, l)
    ensures Count(xs[i].captured, l) <= c.limit(l)
    ensures Count(xs[j].sent, l) - Count(xs[i].sent, l)
      == Min(c.limit(l) - Count(xs[i].captured, l), Demands(c, xs, steps, i, j, l))
  {
    hide Apply, Enabled, Demands, LogicalsOf;
    RunKeepsInv(c, xs, steps, i);
    CountsExactly(c, xs, steps, i, j, l);
    SpanMovesTogether(c, xs, steps, i, j, l);
  }

  // ---- One counter site ----

  /** A reading of the site does not go back, and no other site of its probe reports. */
  predicate OnlyCounts(c: Config, a: Agent, step: Step, site: SiteId)
    requires site in a.active
  {
    match step
    case ReadCounter(s, captures) =>
      if s == site then captures >= a.active[site] else LogicalOf(c, s) != LogicalOf(c, site)
    case Event(s, _) => LogicalOf(c, s) != LogicalOf(c, site)
    case _ => true
  }

  /** The site stays attached all the while, and alone reports for its probe. */
  ghost predicate CountsUp(c: Config, xs: seq<Agent>, steps: seq<Step>, i: nat, j: nat, site: SiteId)
    requires j <= |steps| && |xs| == |steps| + 1
  {
    && (forall k | i <= k <= j :: site in xs[k].active)
    && (forall k | i <= k < j :: OnlyCounts(c, xs[k], steps[k], site))
  }

  lemma CountingStep(c: Config, a: Agent, step: Step, site: SiteId)
    requires Enabled(c, a, step) && site in a.active && site in Apply(c, a, step).active && c.info(site).counter
    requires OnlyCounts(c, a, step, site)
    ensures Apply(c, a, step).active[site] == a.active[site] + Demand(c, a, step, LogicalOf(c, site))
  {
    hide LogicalsOf;
  }

  lemma {:induction false} ReadingsAddUp(c: Config, xs: seq<Agent>, steps: seq<Step>, i: nat, j: nat, site: SiteId)
    requires Run(c, xs, steps) && i <= j <= |steps| && CountsUp(c, xs, steps, i, j, site) && c.info(site).counter
    ensures xs[j].active[site] == xs[i].active[site] + Demands(c, xs, steps, i, j, LogicalOf(c, site))
    decreases j
  {
    hide Demand, Apply, Enabled, OnlyCounts, LogicalOf;
    if i < j {
      ReadingsAddUp(c, xs, steps, i, j - 1, site);
      assert xs[j] == Apply(c, xs[j - 1], steps[j - 1]);
      CountingStep(c, xs[j - 1], steps[j - 1], site);
    }
  }

  /** A counter probe with one site emits exactly as much as the kernel's counter rose, up to its limit. */
  lemma CounterIsReportedExactly(c: Config, xs: seq<Agent>, steps: seq<Step>, i: nat, j: nat, site: SiteId)
    requires Run(c, xs, steps) && j <= |steps| && StaysDesired(c, xs, i, j, LogicalOf(c, site))
    requires CountsUp(c, xs, steps, i, j, site) && c.info(site).counter
    ensures xs[i].active[site] <= xs[j].active[site]
        && Count(xs[i].captured, LogicalOf(c, site)) <= c.limit(LogicalOf(c, site))
    ensures var l := LogicalOf(c, site);
      Count(xs[j].sent, l) - Count(xs[i].sent, l)
      == Min(c.limit(l) - Count(xs[i].captured, l), xs[j].active[site] - xs[i].active[site])
  {
    hide Demands, LogicalsOf;
    ReadingsAddUp(c, xs, steps, i, j, site);
    EmissionsAreExact(c, xs, steps, i, j, LogicalOf(c, site));
  }

  // ---- Attached sites ----

  /** The step takes the site's attachment away. */
  predicate TakesOff(step: Step, site: SiteId) {
    match step
    case LoaderRestarted => true
    case RetryDetach(s) => s == site
    case DetachStale(s) => s == site
    case Detach(s, ok) => s == site && ok
    case _ => false
  }

  /** A site is attached by attaching it and by nothing else, starting from nothing counted. */
  lemma AttachedExactly(c: Config, a: Agent, step: Step, site: SiteId)
    requires Enabled(c, a, step)
    ensures site in Apply(c, a, step).active <==> step == Attach(site) || (site in a.active && !TakesOff(step, site))
    ensures step == Attach(site) ==> Apply(c, a, step).active[site] == 0
    ensures step.ReadCounter? ==> Apply(c, a, step).active[step.site] == step.captures
    ensures site in a.active && site in Apply(c, a, step).active && !(step.ReadCounter? && step.site == site) ==>
      Apply(c, a, step).active[site] == a.active[site]
  {
    hide LogicalsOf;
  }

  lemma EndedStep(c: Config, a: Agent, step: Step, site: SiteId)
    requires Enabled(c, a, step) && site in a.terminalSites && site in Apply(c, a, step).desired
    ensures site in Apply(c, a, step).terminalSites
  {
    hide LogicalsOf;
  }

  lemma EndedIsNotAttached(c: Config, a: Agent, step: Step, site: SiteId)
    requires Enabled(c, a, step) && site in a.terminalSites
    ensures step != Attach(site)
  {
  }

  /** A site detached for good is not attached again while it stays desired. */
  lemma {:induction false} EndedSiteStaysOff(c: Config, xs: seq<Agent>, steps: seq<Step>, i: nat, j: nat, site: SiteId)
    requires Run(c, xs, steps) && i <= j <= |steps| && site in xs[i].terminalSites
    requires forall k | i <= k <= j :: site in xs[k].desired
    ensures site in xs[j].terminalSites
    ensures j < |steps| ==> steps[j] != Attach(site)
    decreases j
  {
    hide Apply, Enabled;
    if i < j {
      EndedSiteStaysOff(c, xs, steps, i, j - 1, site);
      assert xs[j] == Apply(c, xs[j - 1], steps[j - 1]);
      EndedStep(c, xs[j - 1], steps[j - 1], site);
    }
    if j < |steps| {
      EndedIsNotAttached(c, xs[j], steps[j], site);
    }
  }

  /** Detaching ends a site at once, or leaves it to be tried again, and every retry ends it. */
  lemma DetachEndsSite(c: Config, a: Agent, site: SiteId, ok: bool)
    ensures var a' := Apply(c, a, Detach(site, ok));
      && (ok ==> site !in a'.active && site in a'.terminalSites)
      && (!ok && site in a.active ==> site in a'.active && site in a'.pendingDetaches)
    ensures site in a.pendingDetaches && site in a.active ==>
      var a' := Apply(c, a, RetryDetach(site));
      site !in a'.active && site in a'.terminalSites && site !in a'.pendingDetaches
  {
    hide LogicalsOf;
  }
}

/**
 The native agent's attachment and hit accounting across many physical sites of one logical probe
 (native/agent/src/main.rs). Loader replies are nondeterministic. A cycle that fails half-way has
 simply taken fewer of these steps.
 */
module AgentHits {
  type SiteId = nat
  type Logical = nat

  /** What a planned site carries: its logical probe, that probe's hit limit and whether it only counts. */
  datatype Info = Info(logical: Logical, counter: bool)
  datatype Config = Config(info: SiteId -> Info, limit: Logical -> nat, maxAttachments: nat)

  /** `active` maps attached sites to their last counter reading; `sent` totals what was emitted since the start. */
  datatype Agent = Agent(
    desired: set<SiteId>,
    active: map<SiteId, nat>,
    terminalSites: set<SiteId>,
    terminalProbes: set<Logical>,
    pendingDetaches: set<SiteId>,
    captured: map<Logical, nat>,
    sent: map<Logical, nat>)

  const Start := Agent({}, map[], {}, {}, {}, map[], map[])

  datatype Step =
    | LoaderRestarted
    | RetryDetach(site: SiteId)
    | Adopt(desired: set<SiteId>)
    | DetachStale(site: SiteId)
    | Attach(site: SiteId)
    | Event(site: SiteId, emits: bool)
    | ReadCounter(site: SiteId, captures: nat)
    | EndLogical(logical: Logical)
    | Detach(site: SiteId, ok: bool)

  function Count(m: map<Logical, nat>, l: Logical): nat {
    if l in m then m[l] else 0
  }

  function LogicalOf(c: Config, site: SiteId): Logical {
    c.info(site).logical
  }

  function LogicalsOf(c: Config, sites: set<SiteId>): set<Logical> {
    set x | x in sites :: LogicalOf(c, x)
  }

  predicate Enabled(c: Config, a: Agent, step: Step) {
    match step
    case LoaderRestarted => true
    case RetryDetach(site) => site in a.pendingDetaches
    case Adopt(_) => true
    case DetachStale(site) => site in a.active && site !in a.desired
    case Attach(site) =>
      && site in a.desired && site !in a.active && site !in a.terminalSites
      && LogicalOf(c, site) !in a.terminalProbes && |a.active| < c.maxAttachments
    case Event(site, _) => site in a.active
    case ReadCounter(site, captures) => site in a.active
    case EndLogical(_) => true
    case Detach(_, _) => true
  }

  /** `n` more captures of `l` go out. */
  function Emit(a: Agent, l: Logical, n: nat): Agent {
    a.(captured := a.captured[l := Count(a.captured, l) + n], sent := a.sent[l := Count(a.sent, l) + n])
  }

  function Min(x: nat, y: nat): nat {
    if x < y then x else y
  }

  function DoReadCounter(c: Config, a: Agent, site: SiteId, captures: nat): Agent
    requires site in a.active
  {
    var l := LogicalOf(c, site);
    var accepted := Count(a.captured, l);
    var room := if c.limit(l) > accepted then c.limit(l) - accepted else 0;
    var counted := if c.info(site).counter && captures > a.active[site]
      then Emit(a, l, Min(captures - a.active[site], room)) else a;
    counted.(active := a.active[site := captures])
  }

  function Apply(c: Config, a: Agent, step: Step): Agent
    requires Enabled(c, a, step)
  {
    match step
    case LoaderRestarted => a.(active := map[], pendingDetaches := {})
    case RetryDetach(site) =>
      a.(pendingDetaches := a.pendingDetaches - {site}, active := a.active - {site},
         terminalSites := if site in a.active then a.terminalSites + {site} else a.terminalSites)
    case Adopt(desired) =>
      a.(desired := desired,
         terminalSites := a.terminalSites * desired,
         terminalProbes := a.terminalProbes * LogicalsOf(c, desired),
         captured := map l | l in a.captured && l in LogicalsOf(c, desired) :: a.captured[l])
    case DetachStale(site) => a.(active := a.active - {site})
    case Attach(site) => a.(active := a.active[site := 0])
    case Event(site, emits) =>
      if Count(a.captured, LogicalOf(c, site)) < c.limit(LogicalOf(c, site)) && emits
      then Emit(a, LogicalOf(c, site), 1) else a
    case ReadCounter(site, captures) => DoReadCounter(c, a, site, captures)
    case EndLogical(logical) => a.(terminalProbes := a.terminalProbes + {logical})
    case Detach(site, ok) =>
      if ok then a.(active := a.active - {site}, terminalSites := a.terminalSites + {site})
      else if site in a.active then a.(pendingDetaches := a.pendingDetaches + {site})
      else a
  }

  ghost predicate Run(c: Config, xs: seq<Agent>, steps: seq<Step>) {
    && |xs| == |steps| + 1
    && xs[0] == Start
    && forall k | 0 <= k < |steps| :: Enabled(c, xs[k], steps[k]) && xs[k + 1] == Apply(c, xs[k], steps[k])
  }

  // ---- Invariant ----

  ghost predicate Inv(c: Config, a: Agent) {
    && (forall l | l in a.captured :: a.captured[l] <= c.limit(l))
    && |a.active| <= c.maxAttachments
  }

  lemma ActiveSize(m: map<SiteId, nat>, site: SiteId, v: nat)
    ensures |m[site := v]| == if site in m then |m| else |m| + 1
    ensures |m - {site}| <= |m|
  {
    assert m[site := v].Keys == m.Keys + {site};
    assert |m[site := v]| == |m[site := v].Keys| && |m| == |m.Keys|;
    assert (m - {site}).Keys == m.Keys - {site};
    assert |m - {site}| == |(m - {site}).Keys|;
    if site in m { assert m.Keys == (m.Keys - {site}) + {site}; } else { assert m.Keys - {site} == m.Keys; }
  }

  lemma StepKeepsInv(c: Config, a: Agent, step: Step)
    requires Inv(c, a) && Enabled(c, a, step)
    ensures Inv(c, Apply(c, a, step))
  {
    StepKeepsBound(c, a, step);
    assert forall l | l in Apply(c, a, step).captured :: Apply(c, a, step).captured[l] <= c.limit(l);
  }

  lemma StepKeepsBound(c: Config, a: Agent, step: Step)
    requires |a.active| <= c.maxAttachments && Enabled(c, a, step)
    ensures |Apply(c, a, step).active| <= c.maxAttachments
  {
    hide LogicalsOf;
    match step
    case RetryDetach(site) => ActiveSize(a.active, site, 0);
    case DetachStale(site) => ActiveSize(a.active, site, 0);
    case Attach(site) => ActiveSize(a.active, site, 0);
    case ReadCounter(site, captures) => ActiveSize(a.active, site, captures);
    case Detach(site, _) => ActiveSize(a.active, site, 0);
    case _ =>
  }

  lemma {:induction false} RunKeepsInv(c: Config, xs: seq<Agent>, steps: seq<Step>, k: nat)
    requires Run(c, xs, steps) && k < |xs|
    ensures Inv(c, xs[k])
  {
    hide Apply, Enabled;
    if k > 0 {
      RunKeepsInv(c, xs, steps, k - 1);
      hide Inv;
      StepKeepsInv(c, xs[k - 1], steps[k - 1]);
    }
  }

  /** The logical probe is desired in every state from `i` to `j`. */
  ghost predicate StaysDesired(c: Config, xs: seq<Agent>, i: nat, j: nat, l: Logical) {
    i <= j < |xs| && forall k | i <= k <= j :: l in LogicalsOf(c, xs[k].desired)
  }

  lemma StepMovesTogether(c: Config, a: Agent, step: Step, l: Logical)
    requires Enabled(c, a, step) && l in LogicalsOf(c, a.desired) && l in LogicalsOf(c, Apply(c, a, step).desired)
    ensures Count(Apply(c, a, step).sent, l) - Count(a.sent, l)
        == Count(Apply(c, a, step).captured, l) - Count(a.captured, l)
    ensures l in a.terminalProbes ==> l in Apply(c, a, step).terminalProbes
  {
    hide LogicalsOf;
  }

  lemma {:induction false} SpanMovesTogether(c: Config, xs: seq<Agent>, steps: seq<Step>, i: nat, j: nat, l: Logical)
    requires Run(c, xs, steps) && StaysDesired(c, xs, i, j, l)
    ensures Count(xs[j].sent, l) - Count(xs[i].sent, l) == Count(xs[j].captured, l) - Count(xs[i].captured, l)
    ensures l in xs[i].terminalProbes ==> l in xs[j].terminalProbes
    decreases j - i
  {
    hide Apply, Enabled;
    if i < j {
      SpanMovesTogether(c, xs, steps, i, j - 1, l);
      StepMovesTogether(c, xs[j - 1], steps[j - 1], l);
    }
  }

  /** While a logical probe stays desired, what all its sites emit totals at most its hit limit. */
  lemma HitLimitOverAllSites(c: Config, xs: seq<Agent>, steps: seq<Step>, i: nat, j: nat, l: Logical)
    requires Run(c, xs, steps) && StaysDesired(c, xs, i, j, l)
    ensures Count(xs[j].sent, l) <= Count(xs[i].sent, l) + c.limit(l)
  {
    hide LogicalsOf;
    SpanMovesTogether(c, xs, steps, i, j, l);
    RunKeepsInv(c, xs, steps, j);
  }

  /** Once terminal and still desired, no site of the logical probe is attached again. */
  lemma TerminalIsNeverReattached(c: Config, xs: seq<Agent>, steps: seq<Step>, i: nat, j: nat, site: SiteId)
    requires Run(c, xs, steps) && i <= j < |steps| && StaysDesired(c, xs, i, j, LogicalOf(c, site))
    requires LogicalOf(c, site) in xs[i].terminalProbes
    ensures steps[j] != Attach(site)
  {
    SpanMovesTogether(c, xs, steps, i, j, LogicalOf(c, site));
  }

  lemma AttachmentsAreBounded(c: Config, xs: seq<Agent>, steps: seq<Step>, k: nat)
    requires Run(c, xs, steps) && k < |xs|
    ensures |xs[k].active| <= c.maxAttachments
  {
    RunKeepsInv(c, xs, steps, k);
  }

  // ---- A budget for each time the probe is desired ----

  /** The probe's count is forgotten: a cycle finds it undesired. */
  predicate ForgetsAt(c: Config, step: Step, l: Logical) {
    step.Adopt? && l !in LogicalsOf(c, step.desired)
  }

  function Forgets(c: Config, steps: seq<Step>, l: Logical): nat {
    if steps == [] then 0
    else Forgets(c, steps[..|steps| - 1], l) + (if ForgetsAt(c, steps[|steps| - 1], l) then 1 else 0)
  }

  /** `n` times the limit. */
  function Budget(limit: nat, n: nat): nat {
    limit * n
  }

  lemma OneMoreBudget(limit: nat, n: nat)
    ensures Budget(limit, n + 1) == Budget(limit, n) + limit && Budget(limit, 0) == 0
  {
  }

  lemma StepSpends(c: Config, a: Agent, step: Step, l: Logical)
    requires Enabled(c, a, step)
    ensures var a' := Apply(c, a, step);
      if ForgetsAt(c, step, l) then Count(a'.sent, l) == Count(a.sent, l)
      else Count(a'.sent, l) - Count(a.sent, l) == Count(a'.captured, l) - Count(a.captured, l)
  {
    hide LogicalsOf;
  }

  lemma {:induction false} SpendingAddsUp(c: Config, xs: seq<Agent>, steps: seq<Step>, k: nat, l: Logical)
    requires Run(c, xs, steps) && k < |xs|
    ensures Count(xs[k].sent, l) <= Budget(c.limit(l), Forgets(c, steps[..k], l)) + Count(xs[k].captured, l)
    ensures Count(xs[k].captured, l) <= c.limit(l)
  {
    hide Apply, Enabled, ForgetsAt, Budget;
    RunKeepsInv(c, xs, steps, k);
    if k > 0 {
      SpendingAddsUp(c, xs, steps, k - 1, l);
      StepSpends(c, xs[k - 1], steps[k - 1], l);
      assert steps[..k][..k - 1] == steps[..k - 1] && steps[..k][k - 1] == steps[k - 1];
      OneMoreBudget(c.limit(l), Forgets(c, steps[..k - 1], l));
    }
  }

  /** Over every run, all sites of a probe emit at most its limit, once more for each time it was forgotten. */
  lemma EmissionsAreBounded(c: Config, xs: seq<Agent>, steps: seq<Step>, k: nat, l: Logical)
    requires Run(c, xs, steps) && k < |xs|
    ensures Count(xs[k].sent, l) <= Budget(c.limit(l), Forgets(c, steps[..k], l) + 1)
  {
    hide Budget, Forgets, Apply, Enabled;
    SpendingAddsUp(c, xs, steps, k, l);
    OneMoreBudget(c.limit(l), Forgets(c, steps[..k], l));
  }

  // ---- The bound is reached ----

  /** Every detach succeeds, and nothing is emitted for a probe that is not desired. */
  ghost predicate Tidy(c: Config, xs: seq<Agent>, steps: seq<Step>)
    requires |xs| == |steps| + 1
  {
    forall k | 0 <= k < |steps| ::
      && (steps[k].Detach? ==> steps[k].ok)
      && (steps[k].Event? ==> LogicalOf(c, steps[k].site) in LogicalsOf(c, xs[k].desired))
  }

  /** A tidy run that ends in `a`, in which `l` was forgotten `n` times. */
  ghost predicate Reaches(c: Config, xs: seq<Agent>, steps: seq<Step>, a: Agent, l: Logical, n: nat) {
    Run(c, xs, steps) && Tidy(c, xs, steps) && xs[|xs| - 1] == a && Forgets(c, steps, l) == n
  }

  lemma Extend(c: Config, xs: seq<Agent>, steps: seq<Step>, a: Agent, l: Logical, n: nat, step: Step)
      returns (xs': seq<Agent>, steps': seq<Step>)
    requires Reaches(c, xs, steps, a, l, n) && Enabled(c, a, step)
    requires step.Detach? ==> step.ok
    requires step.Event? ==> LogicalOf(c, step.site) in LogicalsOf(c, a.desired)
    ensures Reaches(c, xs', steps', Apply(c, a, step), l, if ForgetsAt(c, step, l) then n + 1 else n)
  {
    hide Apply, Enabled, ForgetsAt, LogicalsOf;
    xs', steps' := xs + [Apply(c, a, step)], steps + [step];
    assert steps'[..|steps|] == steps;
    forall k | 0 <= k < |steps'|
      ensures Enabled(c, xs'[k], steps'[k]) && xs'[k + 1] == Apply(c, xs'[k], steps'[k])
      ensures steps'[k].Detach? ==> steps'[k].ok
      ensures steps'[k].Event? ==> LogicalOf(c, steps'[k].site) in LogicalsOf(c, xs'[k].desired)
    {
      if k < |steps| {
        assert xs'[k] == xs[k] && xs'[k + 1] == xs[k + 1] && steps'[k] == steps[k];
      }
    }
  }

  /** The site is attached and desired, and nothing of the probe is terminal. */
  predicate Running(c: Config, a: Agent, site: SiteId) {
    a.desired == {site} && a.active.Keys == {site}
  }

  lemma {:induction false} SpendBudget(c: Config, xs: seq<Agent>, steps: seq<Step>, a: Agent, site: SiteId, n: nat,
                                       m: nat)
      returns (xs': seq<Agent>, steps': seq<Step>, a': Agent)
    requires Reaches(c, xs, steps, a, LogicalOf(c, site), n) && Running(c, a, site)
    requires Count(a.captured, LogicalOf(c, site)) + m == c.limit(LogicalOf(c, site))
    ensures Reaches(c, xs', steps', a', LogicalOf(c, site), n) && Running(c, a', site)
    ensures Count(a'.sent, LogicalOf(c, site)) == Count(a.sent, LogicalOf(c, site)) + m
    decreases m
  {
    xs', steps', a' := xs, steps, a;
    if m > 0 {
      hide Reaches;
      var l := LogicalOf(c, site);
      assert l in LogicalsOf(c, {site});
      var next := Apply(c, a, Event(site, true));
      xs', steps' := Extend(c, xs, steps, a, l, n, Event(site, true));
      xs', steps', a' := SpendBudget(c, xs', steps', next, site, n, m - 1);
    }
  }

  /** Nothing is attached, terminal or counted for the probe. */
  predicate Fresh(c: Config, a: Agent, site: SiteId) {
    && a.active == map[] && a.terminalSites == {} && LogicalOf(c, site) !in a.terminalProbes
    && LogicalOf(c, site) !in a.captured
  }

  lemma AttachFresh(c: Config, xs: seq<Agent>, steps: seq<Step>, a: Agent, site: SiteId, n: nat)
      returns (xs': seq<Agent>, steps': seq<Step>, a': Agent)
    requires Reaches(c, xs, steps, a, LogicalOf(c, site), n) && Fresh(c, a, site) && c.maxAttachments > 0
    ensures Reaches(c, xs', steps', a', LogicalOf(c, site), n) && Running(c, a', site)
    ensures Count(a'.captured, LogicalOf(c, site)) == 0
    ensures Count(a'.sent, LogicalOf(c, site)) == Count(a.sent, LogicalOf(c, site))
  {
    hide Reaches;
    var l := LogicalOf(c, site);
    assert l in LogicalsOf(c, {site});
    var adopted := Apply(c, a, Adopt({site}));
    xs', steps' := Extend(c, xs, steps, a, l, n, Adopt({site}));
    a' := Apply(c, adopted, Attach(site));
    xs', steps' := Extend(c, xs', steps', adopted, l, n, Attach(site));
  }

  /** The probe ends as it should, is undesired for one cycle, and all about it is forgotten. */
  lemma EndAndForget(c: Config, xs: seq<Agent>, steps: seq<Step>, a: Agent, site: SiteId, n: nat)
      returns (xs': seq<Agent>, steps': seq<Step>, a': Agent)
    requires Reaches(c, xs, steps, a, LogicalOf(c, site), n) && Running(c, a, site)
    ensures Reaches(c, xs', steps', a', LogicalOf(c, site), n + 1) && Fresh(c, a', site)
    ensures Count(a'.sent, LogicalOf(c, site)) == Count(a.sent, LogicalOf(c, site))
  {
    hide Reaches;
    var l := LogicalOf(c, site);
    var ended := Apply(c, a, EndLogical(l));
    xs', steps' := Extend(c, xs, steps, a, l, n, EndLogical(l));
    var detached := Apply(c, ended, Detach(site, true));
    xs', steps' := Extend(c, xs', steps', ended, l, n, Detach(site, true));
    assert detached.active == map[];
    assert LogicalsOf(c, {}) == {};
    a' := Apply(c, detached, Adopt({}));
    xs', steps' := Extend(c, xs', steps', detached, l, n, Adopt({}));
  }

  /**
   The bound is tight, although every detach succeeds, the probe is marked terminal and detached at
   its limit, and it only emits while it is desired: each time it was undesired for a cycle, it
   spends its whole limit again.
   */
  lemma {:induction false} ForgottenBudgetIsSpentAgain(c: Config, site: SiteId, n: nat)
      returns (xs: seq<Agent>, steps: seq<Step>, a: Agent)
    requires c.maxAttachments > 0
    ensures Reaches(c, xs, steps, a, LogicalOf(c, site), n) && Running(c, a, site)
    ensures Count(a.sent, LogicalOf(c, site)) == Budget(c.limit(LogicalOf(c, site)), n + 1)
  {
    var l := LogicalOf(c, site);
    OneMoreBudget(c.limit(l), n);
    if n == 0 {
      xs, steps, a := [Start], [], Start;
      assert Reaches(c, xs, steps, a, l, 0) && Fresh(c, a, site) && Count(a.sent, l) == 0;
      OneMoreBudget(c.limit(l), 0);
      hide Reaches, Running, Budget, Count, Fresh;
      xs, steps, a := AttachAndSpend(c, xs, steps, a, site, 0);
    } else {
      hide Reaches, Running, Budget, Count, Fresh;
      xs, steps, a := ForgottenBudgetIsSpentAgain(c, site, n - 1);
      xs, steps, a := EndAndForget(c, xs, steps, a, site, n - 1);
      xs, steps, a := AttachAndSpend(c, xs, steps, a, site, n);
    }
  }

  lemma AttachAndSpend(c: Config, xs: seq<Agent>, steps: seq<Step>, a: Agent, site: SiteId, n: nat)
      returns (xs': seq<Agent>, steps': seq<Step>, a': Agent)
    requires Reaches(c, xs, steps, a, LogicalOf(c, site), n) && Fresh(c, a, site) && c.maxAttachments > 0
    ensures Reaches(c, xs', steps', a', LogicalOf(c, site), n) && Running(c, a', site)
    ensures Count(a'.sent, LogicalOf(c, site)) == Count(a.sent, LogicalOf(c, site)) + c.limit(LogicalOf(c, site))
  {
    hide Reaches, Running, Count, Fresh;
    xs', steps', a' := AttachFresh(c, xs, steps, a, site, n);
    xs', steps', a' := SpendBudget(c, xs', steps', a', site, n, c.limit(LogicalOf(c, site)));
  }
}

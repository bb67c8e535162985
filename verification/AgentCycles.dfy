/** What one cycle of the native agent achieves, and what its plan consists of. */
module AgentCycles {
  import opened Broker
  import opened BrokerCursors
  import opened BrokerRuns
  import opened BrokerContents
  import opened BrokerReplies
  import opened AgentCursor

  // ---- The plan, in terms of what the broker stores ----

  /** The stored probe is in force for the instance. */
  ghost predicate InForce(s: State, owner: AgentKey, allowed: Allowed, k: InstanceKey, x: Stored) {
    && k in s.instances && k.owner == owner && Covered(allowed, s.instances[k].service)
    && x in s.probes && x.scope == owner.scope && x.probe.service == s.instances[k].service && !x.expired
    && !Terminal(s, k, s.instances[k].build, x.probe)
  }

  lemma AssignedExactly(s: State, owner: AgentKey, allowed: Allowed, k: InstanceKey, p: Probe)
    ensures var list := FullAssignments(s, owner, allowed);
      k in list && p in list[k].probes <==> exists x :: InForce(s, owner, allowed, k, x) && x.probe == p
  {
    if k in s.instances && k.owner == owner && Covered(allowed, s.instances[k].service) {
      var service, target := ServiceKey(owner.scope, s.instances[k].service), Target(k, s.instances[k].build);
      LiveExactly(s.probes, service, Ended(s.statuses, target), p);
      EndedIsTerminal(s, k, s.instances[k].build, p);
      hide Live, Ended, Terminal;
      if n :| 0 <= n < |s.probes| && s.probes[n].probe == p && Listed(s.probes[n], service, Ended(s.statuses, target)) {
        assert InForce(s, owner, allowed, k, s.probes[n]);
      }
      if x :| InForce(s, owner, allowed, k, x) && x.probe == p {
        var n :| 0 <= n < |s.probes| && s.probes[n] == x;
        assert Listed(s.probes[n], service, Ended(s.statuses, target));
      }
    }
  }

  /** The full plan is exactly the sites that planning gives for the probes in force for the agent's instances. */
  lemma FullPlanExactly(s: State, owner: AgentKey, allowed: Allowed, plan: Planner, site: Site)
    ensures site in FullPlan(s, owner, allowed, plan) <==> exists k, x ::
      && InForce(s, owner, allowed, k, x)
      && site.logical == Logical(Target(k, s.instances[k].build), ProbeRef(x.probe.id, x.probe.version))
      && site.number in plan(k, Identity(s.instances[k]), x.probe)
  {
    var list := FullAssignments(s, owner, allowed);
    assert forall k | k in list :: k in s.instances && list[k].build == s.instances[k].build by {
      hide Live, Ended;
    }
    hide FullAssignments, InForce;
    if site in FullPlan(s, owner, allowed, plan) {
      var k, p, n :| k in list && k in s.instances && p in list[k].probes
        && n in plan(k, Identity(s.instances[k]), p) && site == Site(LogicalKey(k, list[k].build, p), n);
      AssignedExactly(s, owner, allowed, k, p);
      var x :| InForce(s, owner, allowed, k, x) && x.probe == p;
    }
    if k, x :|
      && InForce(s, owner, allowed, k, x)
      && site.logical == Logical(Target(k, s.instances[k].build), ProbeRef(x.probe.id, x.probe.version))
      && site.number in plan(k, Identity(s.instances[k]), x.probe)
    {
      AssignedExactly(s, owner, allowed, k, x.probe);
      assert site == Site(LogicalKey(k, list[k].build, x.probe), site.number);
    }
  }

  // ---- One cycle ----

  /** The cycle's poll as the agent sees it. */
  lemma CycleUnfolds(x: System, owner: AgentKey, allowed: Allowed, plan: Planner, now: Time, failing: set<Logical>)
    requires owner in x.broker.agents
    ensures var after := Next(x, owner, allowed, plan, Cycle(now, failing)); var s := ExpireDue(x.broker, now);
      var v := Version(s.nativeVersions, owner);
      && after.broker == s
      && after.cache == Absorb(x.cache, s,
           AssignmentReply(v, if x.cache.cursor == v then map[] else FullAssignments(s, owner, allowed)), plan, failing)
  {
    hide ExpireFrom, FullAssignments, Absorb;
  }

  /**
   A cycle in which every planning attempt succeeds brings the agent up to date: it then has the
   broker's version as its own, and the plan of the broker's full list.
   */
  lemma CycleCatchesUp(xs: seq<System>, owner: AgentKey, allowed: Allowed, plan: Planner, steps: seq<Step>, k: nat,
                       now: Time, failing: set<Logical>)
    requires SystemRun(xs, owner, allowed, plan, steps) && k < |xs| && owner in xs[k].broker.agents
    requires Logicals(FullAssignments(ExpireDue(xs[k].broker, now), owner, allowed)) * failing == {}
    ensures var after := Next(xs[k], owner, allowed, plan, Cycle(now, failing));
      && after.cache.version == Some(Version(after.broker.nativeVersions, owner))
      && after.cache.cursor == Version(after.broker.nativeVersions, owner)
      && after.cache.desired == FullPlan(after.broker, owner, allowed, plan)
  {
    var x, s := xs[k], ExpireDue(xs[k].broker, now);
    SystemKeepsInv(xs, owner, allowed, plan, steps, k);
    ExpireNative(x.broker, now, 0, owner);
    CycleUnfolds(x, owner, allowed, plan, now, failing);
    hide ExpireFrom, FullAssignments, FullPlan, Planned, Next, NativeOk;
    BrokerMoves(x, s, owner, allowed, plan);
    AbsorbKeepsInv(x.(broker := s), owner, allowed, plan, failing);
    var c', v := Next(x, owner, allowed, plan, Cycle(now, failing)).cache, Version(s.nativeVersions, owner);
    assert Logicals(map[]) == {};
    assert c'.version == Some(v);
  }

  /**
   A cycle in which some planning attempts fail keeps the cursor behind the broker, so the next poll
   gets the full list again. Meanwhile it has what could be planned, and what it had of the rest.
   */
  lemma FailedPlanningIsRetried(xs: seq<System>, owner: AgentKey, allowed: Allowed, plan: Planner, steps: seq<Step>,
                                k: nat, now: Time, failing: set<Logical>)
    requires SystemRun(xs, owner, allowed, plan, steps) && k < |xs| && owner in xs[k].broker.agents
    requires xs[k].cache.cursor != Version(ExpireDue(xs[k].broker, now).nativeVersions, owner)
    requires Logicals(FullAssignments(ExpireDue(xs[k].broker, now), owner, allowed)) * failing != {}
    ensures var after := Next(xs[k], owner, allowed, plan, Cycle(now, failing));
      var list := FullAssignments(after.broker, owner, allowed);
      && after.cache.version == None && after.cache.cursor == xs[k].cache.cursor
      && after.cache.cursor != Version(after.broker.nativeVersions, owner)
      && (forall site :: site in after.cache.desired <==>
            || site in Planned(after.broker, list, plan, failing)
            || (site in xs[k].cache.desired && site.logical in Logicals(list) && site.logical in failing))
  {
    var x, s := xs[k], ExpireDue(xs[k].broker, now);
    SystemKeepsInv(xs, owner, allowed, plan, steps, k);
    CycleUnfolds(x, owner, allowed, plan, now, failing);
    hide ExpireFrom, FullAssignments, FullPlan, Planned, Next, Logicals;
  }

  /** An agent that the broker does not know keeps its cache. */
  lemma UnknownAgentKeepsCache(x: System, owner: AgentKey, allowed: Allowed, plan: Planner, now: Time,
                               failing: set<Logical>)
    requires owner !in x.broker.agents
    ensures Next(x, owner, allowed, plan, Cycle(now, failing)) == x
  {
    hide ExpireFrom, FullAssignments, Absorb;
  }
}

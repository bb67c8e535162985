/**
 The native agent's assignment cache (native/agent/src/main.rs) composed with the broker's native
 cursor. Planning is a function of an instance's identity and a probe; any attempt at it may fail
 for now. The agent plans with the instances it reported earlier in the same cycle, which are the
 ones the broker holds.
 */
module AgentCursor {
  import opened Broker
  import opened BrokerCursors
  import opened BrokerRuns

  /** A physical site of one probe version on one build of an instance; the first two make the logical key. */
  datatype Logical = Logical(target: Target, probe: ProbeRef)
  datatype Site = Site(logical: Logical, number: nat)

  /** `resolve` gives the sites of a probe on an instance; none when it can never be planned there. */
  type Planner = (InstanceKey, Instance, Probe) -> set<nat>

  datatype Cache = Cache(cursor: nat, version: Option<nat>, desired: set<Site>)

  const Empty := Cache(0, None, {})

  function LogicalKey(k: InstanceKey, build: BuildId, p: Probe): Logical {
    Logical(Target(k, build), ProbeRef(p.id, p.version))
  }

  /** The logical probes of an assignment list. */
  function Logicals(list: map<InstanceKey, Assignment>): set<Logical> {
    set k, p | k in list && p in list[k].probes :: LogicalKey(k, list[k].build, p)
  }

  /** The sites of every assigned probe whose planning succeeds now. */
  function Planned(s: State, list: map<InstanceKey, Assignment>, plan: Planner, failing: set<Logical>): set<Site> {
    set k, p, n | k in list && k in s.instances && p in list[k].probes
      && LogicalKey(k, list[k].build, p) !in failing && n in plan(k, Identity(s.instances[k]), p)
      :: Site(LogicalKey(k, list[k].build, p), n)
  }

  function AssignmentPollCursor(current: nat, candidate: nat, retry: bool): nat {
    if retry then current else candidate
  }

  /** What the agent does with a reply: keep its cache, or rebuild it from the list. */
  function Absorb(c: Cache, s: State, reply: AssignmentReply, plan: Planner, failing: set<Logical>): Cache {
    if c.version == Some(reply.version) then c
    else
      var retried := Logicals(reply.assignments) * failing;
      var rebuilt := Planned(s, reply.assignments, plan, failing);
      var retry := retried != {};
      Cache(AssignmentPollCursor(c.cursor, reply.version, retry),
            if retry then None else Some(reply.version),
            if retry then rebuilt + (set x | x in c.desired && x.logical in retried) else rebuilt)
  }

  /** The plan of the broker's current full list. */
  function FullPlan(s: State, owner: AgentKey, allowed: Allowed, plan: Planner): set<Site> {
    Planned(s, FullAssignments(s, owner, allowed), plan, {})
  }

  // ---- The composed system ----

  datatype System = System(broker: State, cache: Cache)

  datatype Step =
    | BrokerOp(op: Op, now: Time)
    | Cycle(now: Time, failing: set<Logical>)

  /** A cycle whose poll fails, or that stops half-way, leaves the cache alone and so is no step at all. */
  function Next(x: System, owner: AgentKey, allowed: Allowed, plan: Planner, step: Step): System {
    match step
    case BrokerOp(op, now) => x.(broker := Apply(x.broker, op, now))
    case Cycle(now, failing) =>
      var (s, reply) := NativeAssignments(x.broker, owner, x.cache.cursor, allowed, now);
      System(s, if reply.Err? then x.cache else Absorb(x.cache, s, reply.value, plan, failing))
  }

  ghost predicate SystemRun(xs: seq<System>, owner: AgentKey, allowed: Allowed, plan: Planner, steps: seq<Step>) {
    && |xs| == |steps| + 1
    && xs[0] == System(Init, Empty)
    && forall k | 0 <= k < |steps| :: xs[k + 1] == Next(xs[k], owner, allowed, plan, steps[k])
  }

  // ---- Broker facts ----

  /** At version zero an agent has no instances, so its full list is empty. */
  ghost predicate ZeroMeansEmpty(s: State, owner: AgentKey) {
    Version(s.nativeVersions, owner) == 0 ==> forall k: InstanceKey | k.owner == owner :: View(s, k).None?
  }

  lemma ZeroStep(s: State, s': State, owner: AgentKey)
    requires ZeroMeansEmpty(s, owner) && NativeOk(s, s', owner)
    ensures ZeroMeansEmpty(s', owner)
  {
  }

  lemma SameViewsSamePlan(s: State, s': State, owner: AgentKey, allowed: Allowed, plan: Planner)
    requires SameViews(s, s', owner)
    ensures FullPlan(s, owner, allowed, plan) == FullPlan(s', owner, allowed, plan)
  {
    ViewsDecide(s, s', owner, allowed);
    hide Live, Ended;
    var list := FullAssignments(s, owner, allowed);
    forall k | k in list
      ensures k in s.instances && k in s'.instances && Identity(s.instances[k]) == Identity(s'.instances[k])
    {
      assert View(s, k) == View(s', k);
    }
  }

  lemma EmptyPlan(s: State, owner: AgentKey, allowed: Allowed, plan: Planner)
    requires forall k: InstanceKey | k.owner == owner :: View(s, k).None?
    ensures FullAssignments(s, owner, allowed) == map[]
    ensures FullPlan(s, owner, allowed, plan) == {}
  {
    forall k | k in s.instances ensures k.owner != owner {
      assert View(s, k).Some?;
    }
  }

  // ---- The invariant ----

  /**
   A cached version is the cursor. At the broker's version the cache is the plan of the full list.
   Without a cached version the cursor is behind the broker, or the broker never assigned anything.
   */
  ghost predicate CacheInv(x: System, owner: AgentKey, allowed: Allowed, plan: Planner) {
    var v := Version(x.broker.nativeVersions, owner);
    && ZeroMeansEmpty(x.broker, owner)
    && x.cache.cursor <= v
    && (x.cache.version.Some? ==>
          && x.cache.version.value == x.cache.cursor
          && (x.cache.cursor == v ==> x.cache.desired == FullPlan(x.broker, owner, allowed, plan)))
    && (x.cache.version.None? && x.cache.cursor == v ==> v == 0)
  }

  lemma BrokerMoves(x: System, s': State, owner: AgentKey, allowed: Allowed, plan: Planner)
    requires CacheInv(x, owner, allowed, plan) && NativeOk(x.broker, s', owner)
    ensures CacheInv(x.(broker := s'), owner, allowed, plan)
  {
    ZeroStep(x.broker, s', owner);
    hide FullPlan, View;
    if Version(x.broker.nativeVersions, owner) == Version(s'.nativeVersions, owner) {
      SameViewsSamePlan(x.broker, s', owner, allowed, plan);
    }
  }

  lemma AbsorbKeepsInv(x: System, owner: AgentKey, allowed: Allowed, plan: Planner, failing: set<Logical>)
    requires CacheInv(x, owner, allowed, plan)
    ensures var v := Version(x.broker.nativeVersions, owner);
      var reply := AssignmentReply(v, if x.cache.cursor == v then map[] else FullAssignments(x.broker, owner, allowed));
      CacheInv(x.(cache := Absorb(x.cache, x.broker, reply, plan, failing)), owner, allowed, plan)
  {
    var v := Version(x.broker.nativeVersions, owner);
    var list := if x.cache.cursor == v then map[] else FullAssignments(x.broker, owner, allowed);
    if x.cache.version != Some(v) {
      if x.cache.cursor == v {
        EmptyPlan(x.broker, owner, allowed, plan);
        assert Logicals(list) == {};
        assert Planned(x.broker, list, plan, failing) == {};
      } else if Logicals(list) * failing == {} {
        NoFailure(x.broker, list, plan, failing);
      }
    }
  }

  lemma NoFailure(s: State, list: map<InstanceKey, Assignment>, plan: Planner, failing: set<Logical>)
    requires Logicals(list) * failing == {}
    ensures Planned(s, list, plan, failing) == Planned(s, list, plan, {})
  {
    forall k, p | k in list && p in list[k].probes ensures LogicalKey(k, list[k].build, p) !in failing {
      var l := LogicalKey(k, list[k].build, p);
      assert l in Logicals(list);
      assert l in failing ==> l in Logicals(list) * failing;
    }
  }

  lemma {:induction false} SystemKeepsInv(xs: seq<System>, owner: AgentKey, allowed: Allowed, plan: Planner,
                                          steps: seq<Step>, k: nat)
    requires SystemRun(xs, owner, allowed, plan, steps) && k < |xs|
    ensures CacheInv(xs[k], owner, allowed, plan)
  {
    hide Apply, ExpireFrom, FullAssignments, Absorb, FullPlan, NativeOk;
    if k == 0 {
      assert forall i: InstanceKey :: View(Init, i).None?;
    } else {
      SystemKeepsInv(xs, owner, allowed, plan, steps, k - 1);
      var x := xs[k - 1];
      match steps[k - 1]
      case BrokerOp(op, now) =>
        NativeStep(x.broker, op, now, owner);
        BrokerMoves(x, Apply(x.broker, op, now), owner, allowed, plan);
      case Cycle(now, failing) =>
        var s := ExpireDue(x.broker, now);
        ExpireNative(x.broker, now, 0, owner);
        BrokerMoves(x, s, owner, allowed, plan);
        AbsorbKeepsInv(x.(broker := s), owner, allowed, plan, failing);
    }
  }

  /** When the cached version is the broker's, the cached sites are the plan of the broker's full list. */
  lemma CacheMatchesBroker(xs: seq<System>, owner: AgentKey, allowed: Allowed, plan: Planner, steps: seq<Step>, k: nat)
    requires SystemRun(xs, owner, allowed, plan, steps) && k < |xs|
    requires xs[k].cache.version == Some(Version(xs[k].broker.nativeVersions, owner))
    ensures xs[k].cache.desired == FullPlan(xs[k].broker, owner, allowed, plan)
  {
    SystemKeepsInv(xs, owner, allowed, plan, steps, k);
  }

  /**
   The empty "unchanged" reply is never taken for an empty assignment: it meets a full cache or a truly
   empty list.
   */
  lemma UnchangedIsNeverMisread(xs: seq<System>, owner: AgentKey, allowed: Allowed, plan: Planner, steps: seq<Step>,
                                k: nat, now: Time, failing: set<Logical>)
    requires SystemRun(xs, owner, allowed, plan, steps) && k < |xs| && owner in xs[k].broker.agents
    requires var s := ExpireDue(xs[k].broker, now); xs[k].cache.cursor == Version(s.nativeVersions, owner)
    ensures var after := Next(xs[k], owner, allowed, plan, Cycle(now, failing));
      && after.cache.desired == FullPlan(after.broker, owner, allowed, plan)
      && (after.cache == xs[k].cache || FullAssignments(after.broker, owner, allowed) == map[])
  {
    hide ExpireFrom, FullPlan, Absorb, NativeOk;
    var x := xs[k];
    var s := ExpireDue(x.broker, now);
    SystemKeepsInv(xs, owner, allowed, plan, steps, k);
    ExpireNative(x.broker, now, 0, owner);
    BrokerMoves(x, s, owner, allowed, plan);
    AbsorbKeepsInv(x.(broker := s), owner, allowed, plan, failing);
    AbsorbUnchanged(x.cache, s, owner, allowed, plan, failing);
  }

  lemma AbsorbUnchanged(c: Cache, s: State, owner: AgentKey, allowed: Allowed, plan: Planner, failing: set<Logical>)
    requires CacheInv(System(s, c), owner, allowed, plan) && c.cursor == Version(s.nativeVersions, owner)
    ensures var c' := Absorb(c, s, AssignmentReply(c.cursor, map[]), plan, failing);
      && c'.version == Some(c.cursor)
      && (c' == c || FullAssignments(s, owner, allowed) == map[])
  {
    assert Logicals(map[]) == {};
    if c.version.None? { EmptyPlan(s, owner, allowed, plan); }
  }

  /** A failed planning attempt neither invents sites nor drops those it already had. */
  lemma FailedPlanningKeepsSites(c: Cache, s: State, reply: AssignmentReply, plan: Planner, failing: set<Logical>)
    requires c.version != Some(reply.version)
    ensures var c' := Absorb(c, s, reply, plan, failing);
      && (forall x | x in c'.desired :: x.logical in Logicals(reply.assignments))
      && (forall x | x in c.desired && x.logical in Logicals(reply.assignments) * failing :: x in c'.desired)
      && Planned(s, reply.assignments, plan, failing) <= c'.desired
  {
    forall x | x in Planned(s, reply.assignments, plan, failing) ensures x.logical in Logicals(reply.assignments) {
    }
  }
}

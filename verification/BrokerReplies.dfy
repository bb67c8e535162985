/** What the broker answers, in terms of what is stored and nothing else. */
module BrokerReplies {
  import opened Positions
  import opened Broker
  import opened BrokerCursors
  import opened BrokerRuns
  import opened BrokerContents

  // ---- Lists in creation order ----

  ghost predicate ListsAt(probes: seq<Stored>, at: seq<nat>, list: seq<Probe>) {
    |list| == |at| && forall i | 0 <= i < |at| :: at[i] < |probes| && list[i] == probes[at[i]].probe
  }

  lemma ShiftedProbes(probes: seq<Stored>, head: bool, rest: seq<nat>, list: seq<Probe>)
    requires probes != [] && ListsAt(probes[1..], rest, list)
    ensures ListsAt(probes, Shifted(head, rest), (if head then [probes[0].probe] else []) + list)
  {
  }

  lemma {:induction false} LivePositions(
    probes: seq<Stored>, service: ServiceKey, ended: set<ProbeRef>, wanted: Stored -> bool) returns (at: seq<nat>)
    requires forall x :: wanted(x) == Listed(x, service, ended)
    ensures Picks(probes, wanted, at)
    ensures ListsAt(probes, at, Live(probes, service, ended))
    decreases |probes|
  {
    if probes == [] {
      at := [];
    } else {
      var rest := LivePositions(probes[1..], service, ended, wanted);
      at := Shifted(wanted(probes[0]), rest);
      ShiftedFinds(probes, wanted, rest);
      ShiftedIncreases(wanted(probes[0]), rest);
      ShiftedProbes(probes, wanted(probes[0]), rest, Live(probes[1..], service, ended));
      hide ListsAt, Finds, Increasing, Shifted, Listed;
    }
  }

  // ---- Native assignments ----

  /** The probe may be listed for the service at the given time: unexpired, and not due. */
  predicate Alive(x: Stored, scope: Scope, service: ServiceId, now: Time) {
    x.scope == scope && x.probe.service == service && !x.expired && now < x.expiresAt
  }

  /** A terminal status is stored for the probe version on that build of that instance. */
  predicate Terminal(s: State, k: InstanceKey, build: BuildId, p: Probe) {
    var key := StatusKey(Target(k, build), p.id, p.version);
    key in s.statuses
    && (s.statuses[key].status == HitLimitReached || s.statuses[key].status == Suspended
        || s.statuses[key].status == Expired)
  }

  predicate Covered(allowed: Allowed, service: ServiceId) {
    match allowed
    case AllServices => true
    case Services(ids) => service in ids
  }

  lemma EndedIsTerminal(s: State, k: InstanceKey, build: BuildId, p: Probe)
    ensures ProbeRef(p.id, p.version) in Ended(s.statuses, Target(k, build)) <==> Terminal(s, k, build, p)
  {
    if Terminal(s, k, build, p) {
      assert StatusKey(Target(k, build), p.id, p.version) in s.statuses;
    }
  }

  lemma {:induction false} ExpireKeeps(s: State, now: Time, k: nat)
    requires k <= |s.probes|
    ensures var s' := ExpireFrom(s, now, k);
      s'.instances == s.instances && s'.statuses == s.statuses && s'.sets == s.sets && s'.agents == s.agents
    decreases |s.probes| - k
  {
    if k < |s.probes| {
      hide BumpReached;
      ExpireKeeps(if Due(s.probes[k], now) then ExpireAt(s, k) else s, now, k + 1);
    }
  }

  lemma PicksAlive(s: State, now: Time, scope: Scope, service: ServiceId, ended: set<ProbeRef>,
                   listed: Stored -> bool, wanted: Stored -> bool, at: seq<nat>)
    requires forall x :: listed(x) == Listed(x, ServiceKey(scope, service), ended)
    requires forall x ::
      wanted(x) == (Alive(x, scope, service, now) && ProbeRef(x.probe.id, x.probe.version) !in ended)
    requires Picks(ExpireDue(s, now).probes, listed, at)
    ensures Picks(s.probes, wanted, at)
    ensures forall i | 0 <= i < |at| :: ExpireDue(s, now).probes[at[i]].probe == s.probes[at[i]].probe
  {
    ExpireFromExactly(s, now, 0);
    hide ExpireFrom;
    var probes := ExpireDue(s, now).probes;
    forall n | 0 <= n < |probes|
      ensures listed(probes[n]) == wanted(s.probes[n])
      ensures probes[n].probe == s.probes[n].probe
    {
    }
  }

  /**
   The reply to a native poll with an older cursor: exactly the agent's instances that the
   credential covers, each with its service and build, and with exactly the stored probes of its
   service that are unexpired, not due and not ended there, in the order they were created.
   */
  lemma AssignmentsAreExact(s: State, owner: AgentKey, since: nat, allowed: Allowed, now: Time)
    requires owner in s.agents && since != Version(ExpireDue(s, now).nativeVersions, owner)
    ensures var (s', r) := NativeAssignments(s, owner, since, allowed, now);
      && r.Ok? && r.value.version == Version(s'.nativeVersions, owner)
      && (forall k :: k in r.value.assignments <==>
            k in s.instances && k.owner == owner && Covered(allowed, s.instances[k].service))
      && (forall k | k in r.value.assignments ::
            r.value.assignments[k].service == s.instances[k].service
                && r.value.assignments[k].build == s.instances[k].build)
  {
    ExpireKeeps(s, now, 0);
    hide ExpireFrom, Live, Ended;
  }

  lemma AssignedProbesAreExact(s: State, owner: AgentKey, since: nat, allowed: Allowed, now: Time, k: InstanceKey)
      returns (at: seq<nat>)
    requires owner in s.agents && since != Version(ExpireDue(s, now).nativeVersions, owner)
    requires k in s.instances && k.owner == owner && Covered(allowed, s.instances[k].service)
    ensures Picks(s.probes, x => Alive(x, owner.scope, s.instances[k].service, now)
                                 && !Terminal(s, k, s.instances[k].build, x.probe), at)
    ensures var r := NativeAssignments(s, owner, since, allowed, now).1;
      r.Ok? && k in r.value.assignments && ListsAt(s.probes, at, r.value.assignments[k].probes)
  {
    ExpireKeeps(s, now, 0);
    var x, s' := s.instances[k], ExpireDue(s, now);
    var ended := Ended(s.statuses, Target(k, x.build));
    var listed := (y: Stored) => Listed(y, ServiceKey(owner.scope, x.service), ended);
    at := LivePositions(s'.probes, ServiceKey(owner.scope, x.service), ended, listed);
    forall p: Probe ensures ProbeRef(p.id, p.version) in ended <==> Terminal(s, k, x.build, p) {
      EndedIsTerminal(s, k, x.build, p);
    }
    PicksAlive(s, now, owner.scope, x.service, ended, listed,
               y => Alive(y, owner.scope, s.instances[k].service, now)
                   && !Terminal(s, k, s.instances[k].build, y.probe), at);
    hide ExpireFrom, Live, Ended, Terminal;
  }

  /** With the current cursor the reply is the version alone; an agent that is not registered is refused. */
  lemma OtherAssignmentReplies(s: State, owner: AgentKey, since: nat, allowed: Allowed, now: Time)
    ensures owner !in s.agents ==> NativeAssignments(s, owner, since, allowed, now) == (s, Err(AgentNotFound))
    ensures owner in s.agents && since == Version(ExpireDue(s, now).nativeVersions, owner) ==>
      NativeAssignments(s, owner, since, allowed, now) == (ExpireDue(s, now), Ok(AssignmentReply(since, map[])))
  {
    hide ExpireFrom;
  }

  // ---- Managed polls ----

  /** The maps that locations are resolved with: those of a complete set for the commit. */
  predicate Resolvable(s: State, service: ServiceKey, commit: Option<Commit>) {
    commit.Some? && MapKey(service, commit.value) in s.sets && s.sets[MapKey(service, commit.value)].complete
  }

  /**
   The reply to a managed poll: unchanged exactly at the current version, and otherwise exactly the
   stored probes of the service that are unexpired and not due, in the order they were created, each
   at the location that the commit's complete maps give it.
   */
  lemma PollIsExact(s: State, service: ServiceKey, since: nat, commit: Option<Commit>, resolve: Resolver, now: Time)
      returns (at: seq<nat>)
    ensures Picks(s.probes, x => Alive(x, service.scope, service.service, now), at)
    ensures var (s', r) := PollProbes(s, service, since, commit, resolve, now);
      && r.version == Version(s'.versions, service) && (r.Unchanged? <==> since == r.version)
      && (r.Probes? ==>
            && |r.probes| == |at|
            && forall i | 0 <= i < |at| :: at[i] < |s.probes| && r.probes[i] ==
                 if Resolvable(s, service, commit)
                 then resolve(s.sets[MapKey(service, commit.value)].maps, s.probes[at[i]].probe)
                 else s.probes[at[i]].probe)
  {
    ExpireKeeps(s, now, 0);
    var s' := ExpireDue(s, now);
    var listed := (x: Stored) => Listed(x, service, {});
    at := LivePositions(s'.probes, service, {}, listed);
    assert ServiceKey(service.scope, service.service) == service;
    PicksAlive(s, now, service.scope, service.service, {}, listed,
               x => Alive(x, service.scope, service.service, now), at);
    hide ExpireFrom, Live, Picks;
  }
}

/**
 The broker's state object, updated in place (packages/broker/src/index.ts, class `BrokerState`).
 Every method is proved against the function of `Broker` that the cursor theorems speak of. Maps
 are visited in any order, except the probes, which are kept in creation order.
 */
module BrokerObject {
  import opened Broker

  function Restrict<K, V>(m: map<K, V>, keys: set<K>): map<K, V> {
    map k | k in m && k in keys :: m[k]
  }

  predicate Serves(instances: map<InstanceKey, Instance>, k: InstanceKey, service: ServiceKey)
    requires k in instances
  {
    k.owner.scope == service.scope && instances[k].service == service.service
  }

  lemma ReachedStep(
    instances: map<InstanceKey, Instance>, done: set<InstanceKey>, k: InstanceKey, service: ServiceKey, a: AgentKey)
    requires k in instances && k !in done
    ensures |Reached(Restrict(instances, done + {k}), service, a)|
         == |Reached(Restrict(instances, done), service, a)|
             + (if Serves(instances, k, service) && a == k.owner then 1 else 0)
  {
    var before, after := Reached(Restrict(instances, done), service, a),
        Reached(Restrict(instances, done + {k}), service, a);
    if Serves(instances, k, service) && a == k.owner {
      assert after == before + {k};
    } else {
      assert after == before;
    }
  }

  lemma ReachedAgentsStep(instances: map<InstanceKey, Instance>, done: set<InstanceKey>, k: InstanceKey,
                          service: ServiceKey)
    requires k in instances && k !in done
    ensures ReachedAgents(Restrict(instances, done + {k}), service)
         == ReachedAgents(Restrict(instances, done), service)
             + (if Serves(instances, k, service) then {k.owner} else {})
  {
    var m, m' := Restrict(instances, done), Restrict(instances, done + {k});
    forall a | a in ReachedAgents(m, service) ensures a in ReachedAgents(m', service) {
      var j :| j in m && j.owner.scope == service.scope && m[j].service == service.service && j.owner == a;
      assert j in m';
    }
    if Serves(instances, k, service) {
      assert k in m';
    }
  }

  lemma NotReached(instances: map<InstanceKey, Instance>, service: ServiceKey, a: AgentKey)
    requires a !in ReachedAgents(instances, service)
    ensures Reached(instances, service, a) == {}
  {
    assert forall k :: k in Reached(instances, service, a) ==> k.owner in ReachedAgents(instances, service);
  }

  lemma BumpStep(
    versions: map<AgentKey, nat>, instances: map<InstanceKey, Instance>, done: set<InstanceKey>, k: InstanceKey,
    service: ServiceKey)
    requires k in instances && k !in done
    ensures BumpReached(versions, Restrict(instances, done + {k}), service)
         == var before := BumpReached(versions, Restrict(instances, done), service);
            if Serves(instances, k, service) then BumpAgent(before, k.owner) else before
  {
    hide Reached, ReachedAgents, Restrict, Serves;
    var before := BumpReached(versions, Restrict(instances, done), service);
    var after := BumpReached(versions, Restrict(instances, done + {k}), service);
    var stepped := if Serves(instances, k, service) then BumpAgent(before, k.owner) else before;
    ReachedAgentsStep(instances, done, k, service);
    assert after.Keys == stepped.Keys;
    forall a | a in after ensures after[a] == stepped[a] {
      ReachedStep(instances, done, k, service, a);
      if a !in before {
        NotReached(Restrict(instances, done), service, a);
      }
    }
  }

  lemma BumpNone(versions: map<AgentKey, nat>, instances: map<InstanceKey, Instance>, service: ServiceKey)
    ensures BumpReached(versions, Restrict(instances, {}), service) == versions
  {
    assert Restrict(instances, {}) == map[];
    assert forall a :: Reached(map[], service, a) == {};
  }

  function Prepended(accepted: seq<NativeEvent>, rest: Result<seq<NativeEvent>>): Result<seq<NativeEvent>> {
    if rest.Err? then rest else Ok(accepted + rest.value)
  }

  class BrokerState {
    var probes: seq<Stored>
    var versions: map<ServiceKey, nat>
    var agents: map<AgentKey, nat>
    var instances: map<InstanceKey, Instance>
    var statuses: map<StatusKey, NativeStatus>
    var nativeVersions: map<AgentKey, nat>
    var sets: map<MapKey, MapSet>
    var leases: map<MapKey, Lease>
    var removed: map<ProbeId, Time>

    ghost function View(): State
      reads this
    {
      State(probes, versions, agents, instances, statuses, nativeVersions, sets, leases, removed)
    }

    constructor ()
      ensures View() == Init
    {
      probes, versions, agents, instances, statuses := [], map[], map[], map[], map[];
      nativeVersions, sets, leases, removed := map[], map[], map[], map[];
    }

    // ---- Versions ----

    method BumpNativeAssignmentVersion(owner: AgentKey)
      modifies this`nativeVersions
      ensures nativeVersions == BumpAgent(old(nativeVersions), owner)
    {
      var version := (if owner in nativeVersions then nativeVersions[owner] else 0) + 1;
      nativeVersions := nativeVersions[owner := version];
    }

    method BumpServiceVersion(service: ServiceKey) returns (version: nat)
      modifies this`versions, this`nativeVersions
      ensures View() == IncrementServiceVersion(old(View()), service)
      ensures version == Version(versions, service)
    {
      version := (if service in versions then versions[service] else 0) + 1;
      versions := versions[service := version];
      BumpInstances(service);
    }

    method BumpInstances(service: ServiceKey)
      modifies this`nativeVersions
      ensures nativeVersions == BumpReached(old(nativeVersions), instances, service)
    {
      hide BumpReached;
      var todo := instances.Keys;
      ghost var done: set<InstanceKey> := {};
      BumpNone(nativeVersions, instances, service);
      while todo != {}
        invariant done + todo == instances.Keys && done !! todo
        invariant nativeVersions == BumpReached(old(nativeVersions), Restrict(instances, done), service)
        decreases |todo|
      {
        var k :| k in todo;
        BumpStep(old(nativeVersions), instances, done, k, service);
        if k.owner.scope == service.scope && instances[k].service == service.service {
          BumpNativeAssignmentVersion(k.owner);
        }
        todo, done := todo - {k}, done + {k};
      }
      assert Restrict(instances, done) == instances;
    }

    // ---- Probes ----

    method Create(scope: Scope, service: ServiceId, id: ProbeId, kind: nat, body: nat, ttl: nat, now: Time,
                  verdict: Verdict)
      returns (r: Result<Probe>)
      modifies this`probes, this`versions, this`nativeVersions
      ensures (View(), r) == CreateProbe(old(View()), scope, service, id, kind, body, ttl, now, verdict)
    {
      if verdict.RefusedInput? {
        return Err(InvalidProbe);
      }
      if IndexOf(probes, id).Some? {
        return Err(IdCollision);
      }
      var version := BumpServiceVersion(ServiceKey(scope, service));
      if verdict.RefusedDefinition? {
        return Err(InvalidProbe);
      }
      var probe := Probe(id, service, version, kind, body);
      probes := probes + [Stored(scope, probe, now + ttl * 1000, false)];
      return Ok(probe);
    }

    method Delete(scope: Scope, id: ProbeId, now: Time) returns (found: bool)
      modifies this`probes, this`versions, this`nativeVersions, this`removed
      ensures (View(), found) == DeleteProbe(old(View()), scope, id, now)
    {
      var at := IndexOf(probes, id);
      if at.None? || probes[at.value].scope != scope {
        return false;
      }
      if !probes[at.value].expired {
        var _ := BumpServiceVersion(ServiceOf(probes[at.value]));
      }
      probes := probes[..at.value] + probes[at.value + 1..];
      removed := removed[id := now];
      return true;
    }

    method ExpireDueProbes(now: Time)
      modifies this`probes, this`versions, this`nativeVersions
      ensures View() == ExpireDue(old(View()), now)
    {
      for k := 0 to |probes|
        invariant |probes| == |old(probes)|
        invariant k <= |probes| && ExpireDue(old(View()), now) == ExpireFrom(View(), now, k)
      {
        if !probes[k].expired && probes[k].expiresAt <= now {
          ghost var before := View();
          var _ := BumpServiceVersion(ServiceOf(probes[k]));
          probes := probes[k := probes[k].(expired := true)];
          assert View() == ExpireAt(before, k);
        }
      }
    }

    // ---- Polls ----

    method Poll(service: ServiceKey, since: nat, commit: Option<Commit>, resolve: Resolver, now: Time)
        returns (r: PollReply)
      modifies this`probes, this`versions, this`nativeVersions
      ensures (View(), r) == PollProbes(old(View()), service, since, commit, resolve, now)
    {
      ExpireDueProbes(now);
      var version := if service in versions then versions[service] else 0;
      if since == version {
        return Unchanged(version);
      }
      var maps := None;
      if commit.Some? && MapKey(service, commit.value) in sets && sets[MapKey(service, commit.value)].complete {
        maps := Some(sets[MapKey(service, commit.value)].maps);
      }
      var live := ListLive(service, {});
      return Probes(version, Located(live, maps, resolve));
    }

    method ListLive(service: ServiceKey, ended: set<ProbeRef>) returns (live: seq<Probe>)
      ensures live == Live(probes, service, ended)
    {
      live := [];
      for k := 0 to |probes|
        invariant Live(probes, service, ended) == live + Live(probes[k..], service, ended)
      {
        if Listed(probes[k], service, ended) {
          live := live + [probes[k].probe];
        }
      }
    }

    method PollAssignments(owner: AgentKey, since: nat, allowed: Allowed, now: Time)
        returns (r: Result<AssignmentReply>)
      modifies this`probes, this`versions, this`nativeVersions
      ensures (View(), r) == NativeAssignments(old(View()), owner, since, allowed, now)
    {
      if owner !in agents {
        return Err(AgentNotFound);
      }
      ExpireDueProbes(now);
      var version := if owner in nativeVersions then nativeVersions[owner] else 0;
      if since == version {
        return Ok(AssignmentReply(version, map[]));
      }
      var assignments := ListAssignments(owner, allowed);
      return Ok(AssignmentReply(version, assignments));
    }

    method ListAssignments(owner: AgentKey, allowed: Allowed) returns (all: map<InstanceKey, Assignment>)
      ensures all == FullAssignments(View(), owner, allowed)
    {
      all := map[];
      var todo := instances.Keys;
      while todo != {}
        invariant todo <= instances.Keys
        invariant all == Restrict(FullAssignments(View(), owner, allowed), instances.Keys - todo)
        decreases |todo|
      {
        var k :| k in todo;
        if k.owner == owner && Allows(allowed, instances[k].service) {
          var x := instances[k];
          var live := ListLive(ServiceKey(owner.scope, x.service), Ended(statuses, Target(k, x.build)));
          all := all[k := Assignment(x.service, x.build, live)];
        }
        todo := todo - {k};
      }
    }

    // ---- Native agents ----

    method Register(owner: AgentKey, capabilities: nat)
      modifies this`agents, this`nativeVersions
      ensures View() == RegisterAgent(old(View()), owner, capabilities)
    {
      agents := agents[owner := capabilities];
      if owner !in nativeVersions {
        nativeVersions := nativeVersions[owner := 0];
      }
    }

    method CheckReplacement(owner: AgentKey, reports: seq<Reported>, allowed: Allowed)
      returns (refused: Option<Error>, ids: set<InstanceId>)
      ensures refused == CheckReports(View(), owner, reports, {}, allowed)
      ensures refused.None? ==> ids == ReportedIds(reports)
    {
      ids := {};
      for i := 0 to |reports|
        invariant ids == ReportedIds(reports[..i])
        invariant CheckReports(View(), owner, reports, {}, allowed)
               == CheckReports(View(), owner, reports[i..], ids, allowed)
      {
        var r := reports[i];
        assert reports[i..][0] == r && reports[i..][1..] == reports[i + 1..];
        if !Allows(allowed, r.service) {
          return Some(Forbidden), ids;
        }
        if r.id in ids {
          return Some(DuplicateInstance), ids;
        }
        if exists k | k in instances :: k.owner.scope == owner.scope && k.instance == r.id && k.owner != owner {
          return Some(InstanceOwned), ids;
        }
        assert reports[..i + 1] == reports[..i] + [r];
        ids := ids + {r.id};
      }
      assert reports[..|reports|] == reports;
      return None, ids;
    }

    method DropUnreported(owner: AgentKey, ids: set<InstanceId>)
      modifies this`instances
      ensures instances == map k | k in old(instances) && (k.owner != owner || k.instance in ids) :: old(instances)[k]
    {
      var todo := instances.Keys;
      ghost var done: set<InstanceKey> := {};
      while todo != {}
        invariant done + todo == old(instances).Keys && done !! todo
        invariant forall k :: k in instances <==>
          k in old(instances) && (k in done ==> k.owner != owner || k.instance in ids)
        invariant forall k :: k in instances ==> instances[k] == old(instances)[k]
        decreases |todo|
      {
        var k :| k in todo;
        if k.owner == owner && k.instance !in ids {
          instances := instances - {k};
        }
        todo, done := todo - {k}, done + {k};
      }
    }

    method Store(owner: AgentKey, fallback: nat, reports: seq<Reported>)
      modifies this`instances
      ensures instances == PutReports(old(instances), owner, fallback, reports)
    {
      for i := 0 to |reports|
        invariant PutReports(old(instances), owner, fallback, reports)
               == PutReports(instances, owner, fallback, reports[i..])
      {
        assert reports[i..][0] == reports[i] && reports[i..][1..] == reports[i + 1..];
        instances := instances[InstanceKey(owner, reports[i].id) := Record(reports[i], fallback)];
      }
    }

    method Replace(owner: AgentKey, reports: seq<Reported>, allowed: Allowed) returns (r: Result<nat>)
      modifies this`instances, this`nativeVersions
      ensures (View(), r) == ReplaceInstances(old(View()), owner, reports, allowed)
    {
      hide CheckReports, PutReports, Identities, BumpAgent;
      if owner !in agents {
        return Err(AgentNotFound);
      }
      var refused, ids := CheckReplacement(owner, reports, allowed);
      if refused.Some? {
        return Err(refused.value);
      }
      var previous := Identities(instances, owner);
      DropUnreported(owner, ids);
      Store(owner, agents[owner], reports);
      if previous != Identities(instances, owner) {
        BumpNativeAssignmentVersion(owner);
      }
      return Ok(|reports|);
    }

    method PruneRemovedProbes(now: Time)
      modifies this`removed
      ensures removed == PruneRemoved(old(removed), now)
    {
      var todo := removed.Keys;
      ghost var done: set<ProbeId> := {};
      while todo != {}
        invariant done + todo == old(removed).Keys && done !! todo
        invariant forall p :: p in removed <==>
          p in old(removed) && (p in done ==> old(removed)[p] > now - REMOVED_PROBE_GRACE_MS)
        invariant forall p :: p in removed ==> removed[p] == old(removed)[p]
        decreases |todo|
      {
        var p :| p in todo;
        if removed[p] <= now - REMOVED_PROBE_GRACE_MS {
          removed := removed - {p};
        }
        todo, done := todo - {p}, done + {p};
      }
    }

    method CheckBatch(batch: Batch) returns (r: Result<seq<NativeEvent>>)
      ensures r == CheckEvents(View(), batch, batch.events)
    {
      var accepted: seq<NativeEvent> := [];
      ghost var whole := CheckEvents(View(), batch, batch.events);
      assert batch.events[0..] == batch.events;
      assert whole.Ok? ==> accepted + whole.value == whole.value;
      for i := 0 to |batch.events|
        invariant whole == Prepended(accepted, CheckEvents(View(), batch, batch.events[i..]))
      {
        var e := batch.events[i];
        ghost var rest := CheckEvents(View(), batch, batch.events[i + 1..]);
        assert batch.events[i..][0] == e && batch.events[i..][1..] == batch.events[i + 1..];
        var found := IndexOf(probes, e.probe);
        if found.None? {
          if e.probe !in removed {
            return Err(InvalidRequest);
          }
        } else {
          var x := probes[found.value];
          if x.scope != batch.target.key.owner.scope || x.probe.service != batch.service
             || (e.status.None? && e.kind != x.probe.kind) {
            return Err(InvalidRequest);
          }
          if e.version != x.probe.version {
            return Err(ProbeVersionChanged);
          }
          if e.status.Some? && e.origin != batch.target {
            return Err(TargetChanged);
          }
          assert rest.Ok? ==> accepted + ([e] + rest.value) == (accepted + [e]) + rest.value;
          accepted := accepted + [e];
        }
      }
      assert accepted + [] == accepted;
      return Ok(accepted);
    }

    method StoreStatus(target: Target, e: NativeEvent)
      modifies this`statuses, this`nativeVersions
      ensures View() == ApplyEvent(old(View()), target, e)
    {
      if e.status.None? {
        return;
      }
      var key, status := StatusKey(target, e.probe, e.version), e.status.value;
      var previous := if key in statuses then Some(statuses[key]) else None;
      if previous.Some? && e.ts < previous.value.updatedAt {
        return;
      }
      if previous.Some? && EndsAssignment(previous.value.status) && !EndsAssignment(status) {
        return;
      }
      statuses := statuses[key := NativeStatus(status, e.ts)];
      if EndsAssignment(status) && (previous.None? || !EndsAssignment(previous.value.status)) {
        BumpNativeAssignmentVersion(target.key.owner);
      }
    }

    method Ingest(batch: Batch, now: Time) returns (r: Result<nat>)
      modifies this`removed, this`statuses, this`nativeVersions
      ensures (View(), r) == IngestNative(old(View()), batch, now)
    {
      var key := batch.target.key;
      if key !in instances || instances[key].service != batch.service || instances[key].build != batch.target.build {
        return Err(TargetChanged);
      }
      hide CheckEvents, ApplyEvent, PruneRemoved;
      PruneRemovedProbes(now);
      var accepted := CheckBatch(batch);
      if accepted.Err? {
        return Err(accepted.error);
      }
      ghost var start := View();
      for i := 0 to |accepted.value|
        invariant ApplyEvents(start, batch.target, accepted.value)
               == ApplyEvents(View(), batch.target, accepted.value[i..])
        invariant removed == start.removed
      {
        assert accepted.value[i..][1..] == accepted.value[i + 1..];
        StoreStatus(batch.target, accepted.value[i]);
      }
      return Ok(|accepted.value|);
    }

    // ---- Source maps ----

    method Claim(key: MapKey, uploader: AgentId, now: Time) returns (r: MapStatus)
      modifies this`sets, this`leases
      ensures (View(), r) == SourceMapStatus(old(View()), key, uploader, now)
    {
      if key in sets && sets[key].complete {
        return MapStatus(false, true);
      }
      if key !in leases || leases[key].expiresAt <= now || leases[key].uploader == uploader {
        if key in sets && (key !in leases || leases[key].uploader != uploader) {
          sets := sets[key := sets[key].(maps := [], updatedAt := now)];
        }
        leases := leases[key := Lease(uploader, now + LEASE_MS)];
        return MapStatus(true, false);
      }
      return MapStatus(false, false);
    }

    /** `assertSourceMapUploader`: a held lease is extended. */
    method Extend(key: MapKey, uploader: AgentId, now: Time) returns (held: bool)
      modifies this`leases
      ensures held == HoldsLease(old(View()), key, uploader, now)
      ensures View() == if held then ExtendLease(old(View()), key, now) else old(View())
    {
      if key !in leases || leases[key].expiresAt <= now || leases[key].uploader != uploader {
        return false;
      }
      leases := leases[key := leases[key].(expiresAt := now + LEASE_MS)];
      return true;
    }

    method Upload(key: MapKey, uploader: AgentId, path: Path, content: Content, valid: bool, now: Time)
        returns (r: Result<()>)
      modifies this`sets, this`leases
      ensures (View(), r) == UploadSourceMap(old(View()), key, uploader, path, content, valid, now)
    {
      var held := Extend(key, uploader, now);
      if !held {
        return Err(NotUploader);
      }
      if !valid {
        return Err(InvalidMap);
      }
      var existing := if key in sets then sets[key].maps else [];
      sets := sets[key := MapSet(false, now, PutMap(existing, MapEntry(path, content, uploader)), None)];
      return Ok(());
    }

    method Evict(evicted: set<MapKey>)
      modifies this`sets, this`leases
      ensures sets == old(sets) - evicted && leases == old(leases) - evicted
    {
      var todo := evicted;
      while todo != {}
        invariant todo <= evicted
        invariant sets == old(sets) - (evicted - todo) && leases == old(leases) - (evicted - todo)
        decreases |todo|
      {
        var k :| k in todo;
        sets, leases := sets - {k}, leases - {k};
        todo := todo - {k};
      }
      assert evicted - todo == evicted;
    }

    method Complete(key: MapKey, uploader: AgentId, now: Time) returns (r: Result<()>)
      modifies this`sets, this`leases, this`versions, this`nativeVersions
      ensures (View(), r) == CompleteSourceMaps(old(View()), key, uploader, now)
    {
      var held := Extend(key, uploader, now);
      if !held {
        return Err(NotUploader);
      }
      hide Evicted, BumpReached;
      var existing := if key in sets then sets[key].maps else [];
      sets := sets[key := MapSet(true, now, existing, Some(uploader))];
      leases := leases - {key};
      assert leases == old(leases) - {key};
      var _ := BumpServiceVersion(key.service);
      Evict(Evicted(sets, key.service));
      return Ok(());
    }
  }
}

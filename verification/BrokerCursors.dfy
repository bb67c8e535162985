/** Version cursors: equal versions mean equal answers, over every run of broker operations. */
module BrokerCursors {
  import opened Broker

  // ---- Lists of live probes ----

  lemma {:induction false} LiveConcat(a: seq<Stored>, b: seq<Stored>, service: ServiceKey, ended: set<ProbeRef>)
    ensures Live(a + b, service, ended) == Live(a, service, ended) + Live(b, service, ended)
  {
    if a == [] {
      assert a + b == b;
    } else {
      LiveConcat(a[1..], b, service, ended);
      assert (a + b)[1..] == a[1..] + b;
    }
  }

  lemma LiveAround(a: seq<Stored>, x: Stored, b: seq<Stored>, service: ServiceKey, ended: set<ProbeRef>)
    ensures Live(a + [x] + b, service, ended)
         == Live(a, service, ended) + (if Listed(x, service, ended) then [x.probe] else []) + Live(b, service, ended)
  {
    LiveConcat(a + [x], b, service, ended);
    LiveConcat(a, [x], service, ended);
    assert Live([x], service, ended) == (if Listed(x, service, ended) then [x.probe] else []);
  }

  /** Two probe lists answer alike for every service but one. */
  ghost predicate DifferOnlyFor(p: seq<Stored>, p': seq<Stored>, changed: ServiceKey) {
    forall service, ended | service != changed :: Live(p', service, ended) == Live(p, service, ended)
  }

  ghost predicate SameLive(p: seq<Stored>, p': seq<Stored>) {
    forall service, ended :: Live(p', service, ended) == Live(p, service, ended)
  }

  lemma AppendDiffers(p: seq<Stored>, x: Stored)
    ensures DifferOnlyFor(p, p + [x], ServiceOf(x))
  {
    forall service, ended | service != ServiceOf(x) ensures Live(p + [x], service, ended) == Live(p, service, ended) {
      LiveAround(p, x, [], service, ended);
      assert p + [x] + [] == p + [x];
    }
  }

  lemma RemoveDiffers(p: seq<Stored>, k: nat)
    requires k < |p|
    ensures DifferOnlyFor(p, p[..k] + p[k + 1..], ServiceOf(p[k]))
    ensures p[k].expired ==> SameLive(p, p[..k] + p[k + 1..])
  {
    assert p == p[..k] + [p[k]] + p[k + 1..];
    forall service, ended
      ensures !Listed(p[k], service, ended) ==> Live(p[..k] + p[k + 1..], service, ended) == Live(p, service, ended)
    {
      LiveAround(p[..k], p[k], p[k + 1..], service, ended);
      LiveConcat(p[..k], p[k + 1..], service, ended);
    }
  }

  lemma ExpireDiffers(p: seq<Stored>, k: nat)
    requires k < |p|
    ensures DifferOnlyFor(p, p[k := p[k].(expired := true)], ServiceOf(p[k]))
  {
    var x := p[k].(expired := true);
    assert p == p[..k] + [p[k]] + p[k + 1..];
    assert p[k := x] == p[..k] + [x] + p[k + 1..];
    forall service, ended | service != ServiceOf(p[k])
      ensures Live(p[k := x], service, ended) == Live(p, service, ended)
    {
      LiveAround(p[..k], p[k], p[k + 1..], service, ended);
      LiveAround(p[..k], x, p[k + 1..], service, ended);
    }
  }

  // ---- Native cursor: one step ----

  datatype InstanceView = InstanceView(identity: Instance, probes: seq<Probe>)

  /** One instance's attachment identity and what it is assigned, whatever the credential. */
  ghost function View(s: State, k: InstanceKey): Option<InstanceView> {
    if k !in s.instances then None
    else Some(InstanceView(Identity(s.instances[k]),
                           Live(s.probes, ServiceKey(k.owner.scope, s.instances[k].service),
                                Ended(s.statuses, Target(k, s.instances[k].build)))))
  }

  ghost predicate SameViews(s: State, s': State, owner: AgentKey) {
    forall k: InstanceKey | k.owner == owner :: View(s', k) == View(s, k)
  }

  /** The version never goes back, and standing still means nothing changed. */
  ghost predicate NativeOk(s: State, s': State, owner: AgentKey) {
    && Version(s.nativeVersions, owner) <= Version(s'.nativeVersions, owner)
    && (Version(s.nativeVersions, owner) == Version(s'.nativeVersions, owner) ==> SameViews(s, s', owner))
  }

  lemma BumpMoves(versions: map<AgentKey, nat>, instances: map<InstanceKey, Instance>, service: ServiceKey,
                  owner: AgentKey)
    ensures Version(BumpReached(versions, instances, service), owner)
        == Version(versions, owner) + |Reached(instances, service, owner)|
    ensures forall k | k in instances && k.owner == owner && ServiceKey(owner.scope, instances[k].service) == service ::
      k in Reached(instances, service, owner)
  {
    if owner !in ReachedAgents(instances, service) {
      assert Reached(instances, service, owner) == {};
    }
  }

  /** A change to the probes of one service, with that service's version incremented. */
  lemma ServiceEdit(s: State, s': State, service: ServiceKey, owner: AgentKey)
    requires s'.instances == s.instances && s'.statuses == s.statuses
    requires s'.nativeVersions == BumpReached(s.nativeVersions, s.instances, service)
    requires DifferOnlyFor(s.probes, s'.probes, service)
    ensures NativeOk(s, s', owner)
  {
    BumpMoves(s.nativeVersions, s.instances, service, owner);
    if |Reached(s.instances, service, owner)| == 0 {
      forall k: InstanceKey | k.owner == owner ensures View(s', k) == View(s, k) {
        if k in s.instances {
          assert ServiceKey(k.owner.scope, s.instances[k].service) != service;
        }
      }
    }
  }

  lemma QuietEdit(s: State, s': State, owner: AgentKey)
    requires s'.instances == s.instances && s'.statuses == s.statuses && SameLive(s.probes, s'.probes)
    requires Version(s'.nativeVersions, owner) == Version(s.nativeVersions, owner)
    ensures NativeOk(s, s', owner)
  {
  }

  lemma {:induction false} ExpireNative(s: State, now: Time, k: nat, owner: AgentKey)
    requires k <= |s.probes|
    ensures NativeOk(s, ExpireFrom(s, now, k), owner)
    decreases |s.probes| - k
  {
    hide Live;
    if k < |s.probes| {
      if Due(s.probes[k], now) {
        ExpireDiffers(s.probes, k);
        ServiceEdit(s, ExpireAt(s, k), ServiceOf(s.probes[k]), owner);
        ExpireNative(ExpireAt(s, k), now, k + 1, owner);
      } else {
        ExpireNative(s, now, k + 1, owner);
      }
    }
  }

  lemma CreateNative(s: State, scope: Scope, service: ServiceId, id: ProbeId, kind: nat, body: nat, ttl: nat,
                     now: Time, verdict: Verdict, owner: AgentKey)
    ensures NativeOk(s, CreateProbe(s, scope, service, id, kind, body, ttl, now, verdict).0, owner)
  {
    hide Live, IndexOf, BumpReached;
    var s' := CreateProbe(s, scope, service, id, kind, body, ttl, now, verdict).0;
    if !verdict.RefusedInput? && IndexOf(s.probes, id).None? {
      if verdict.Accepted? { AppendDiffers(s.probes, s'.probes[|s.probes|]); }
      ServiceEdit(s, s', ServiceKey(scope, service), owner);
    }
  }

  lemma DeleteNative(s: State, scope: Scope, id: ProbeId, now: Time, owner: AgentKey)
    ensures NativeOk(s, DeleteProbe(s, scope, id, now).0, owner)
  {
    hide Live;
    var found := IndexOf(s.probes, id);
    var s' := DeleteProbe(s, scope, id, now).0;
    if found.Some? && s.probes[found.value].scope == scope {
      RemoveDiffers(s.probes, found.value);
      if s.probes[found.value].expired { QuietEdit(s, s', owner); }
      else { ServiceEdit(s, s', ServiceOf(s.probes[found.value]), owner); }
    }
  }

  // ---- Native agents and statuses ----

  lemma RegisterNative(s: State, agent: AgentKey, capabilities: nat, owner: AgentKey)
    ensures NativeOk(s, RegisterAgent(s, agent, capabilities), owner)
  {
    hide Live, Ended;
  }

  lemma {:induction false} PutReportsFrame(m: map<InstanceKey, Instance>, owner: AgentKey, fallback: nat,
                                           reports: seq<Reported>, k: InstanceKey)
    requires k.owner != owner
    ensures k in PutReports(m, owner, fallback, reports) <==> k in m
    ensures k in m ==> PutReports(m, owner, fallback, reports)[k] == m[k]
    decreases |reports|
  {
    if reports != [] {
      PutReportsFrame(m[InstanceKey(owner, reports[0].id) := Record(reports[0], fallback)], owner, fallback,
                      reports[1..], k);
    }
  }

  /** Equal identity maps agree instance by instance. */
  lemma IdentitiesDecide(m: map<InstanceKey, Instance>, m': map<InstanceKey, Instance>, owner: AgentKey, k: InstanceKey)
    requires Identities(m, owner) == Identities(m', owner) && k.owner == owner
    ensures k in m <==> k in m'
    ensures k in m ==> Identity(m[k]) == Identity(m'[k])
  {
    assert k in m <==> k in Identities(m, owner);
    assert k in m' <==> k in Identities(m', owner);
    if k in m { assert Identities(m, owner)[k] == Identity(m[k]) && Identities(m', owner)[k] == Identity(m'[k]); }
  }

  lemma ReplaceNative(s: State, agent: AgentKey, reports: seq<Reported>, allowed: Allowed, owner: AgentKey)
    ensures NativeOk(s, ReplaceInstances(s, agent, reports, allowed).0, owner)
  {
    hide Live, Ended, Identities, CheckReports, PutReports;
    var s' := ReplaceInstances(s, agent, reports, allowed).0;
    if agent in s.agents && CheckReports(s, agent, reports, {}, allowed).None? {
      var kept := map k | k in s.instances && (k.owner != agent || k.instance in ReportedIds(reports)) ::
          s.instances[k];
      forall k: InstanceKey | k.owner == owner && Version(s'.nativeVersions, owner) == Version(s.nativeVersions, owner)
        ensures View(s', k) == View(s, k)
      {
        if owner == agent { IdentitiesDecide(s.instances, s'.instances, owner, k); }
        else { PutReportsFrame(kept, agent, s.agents[agent], reports, k); }
      }
    }
  }

  /** Storing a status never revives an ended assignment, and ends only the one it names. */
  lemma StatusEnded(statuses: map<StatusKey, NativeStatus>, key: StatusKey, v: NativeStatus, target: Target)
    requires key in statuses && EndsAssignment(statuses[key].status) ==> EndsAssignment(v.status)
    ensures Ended(statuses, target) <= Ended(statuses[key := v], target)
    ensures (key.target != target || !EndsAssignment(v.status)
             || (key in statuses && EndsAssignment(statuses[key].status))) ==>
      Ended(statuses[key := v], target) == Ended(statuses, target)
  {
    forall r | r in Ended(statuses, target) ensures r in Ended(statuses[key := v], target) {
      var k :| k in statuses && k.target == target && EndsAssignment(statuses[k].status)
          && r == ProbeRef(k.probe, k.version);
      assert k in statuses[key := v] && EndsAssignment(statuses[key := v][k].status);
    }
    if key.target != target || !EndsAssignment(v.status) || (key in statuses && EndsAssignment(statuses[key].status)) {
      forall r | r in Ended(statuses[key := v], target) ensures r in Ended(statuses, target) {
        var k :| k in statuses[key := v] && k.target == target && EndsAssignment(statuses[key := v][k].status)
            && r == ProbeRef(k.probe, k.version);
        assert k in statuses && EndsAssignment(statuses[k].status);
      }
    }
  }

  lemma EventNative(s: State, target: Target, e: NativeEvent, owner: AgentKey)
    ensures NativeOk(s, ApplyEvent(s, target, e), owner)
  {
    hide Live, Ended;
    var s' := ApplyEvent(s, target, e);
    if s'.statuses != s.statuses {
      var key := StatusKey(target, e.probe, e.version);
      var v := NativeStatus(e.status.value, e.ts);
      forall k: InstanceKey | k.owner == owner && Version(s'.nativeVersions, owner) == Version(s.nativeVersions, owner)
        ensures View(s', k) == View(s, k)
      {
        if k in s.instances { StatusEnded(s.statuses, key, v, Target(k, s.instances[k].build)); }
      }
    }
  }

  lemma {:induction false} EventsNative(s: State, target: Target, events: seq<NativeEvent>, owner: AgentKey)
    ensures NativeOk(s, ApplyEvents(s, target, events), owner)
    decreases |events|
  {
    hide ApplyEvent, View;
    if events != [] {
      EventNative(s, target, events[0], owner);
      EventsNative(ApplyEvent(s, target, events[0]), target, events[1..], owner);
    }
  }

  lemma IngestNativeOk(s: State, batch: Batch, now: Time, owner: AgentKey)
    ensures NativeOk(s, IngestNative(s, batch, now).0, owner)
  {
    hide Live, Ended, ApplyEvents, CheckEvents, PruneRemoved;
    var pruned := s.(removed := PruneRemoved(s.removed, now));
    var accepted := CheckEvents(pruned, batch, batch.events);
    assert SameViews(s, pruned, owner);
    if accepted.Ok? { EventsNative(pruned, batch.target, accepted.value, owner); }
  }

  lemma SourceMapsNative(s: State, s': State, owner: AgentKey)
    requires s'.probes == s.probes && s'.instances == s.instances && s'.statuses == s.statuses
    requires s'.nativeVersions == s.nativeVersions
          || exists service :: s'.nativeVersions == BumpReached(s.nativeVersions, s.instances, service)
    ensures NativeOk(s, s', owner)
  {
    hide Live, Ended, BumpReached;
    if s'.nativeVersions != s.nativeVersions {
      var service :| s'.nativeVersions == BumpReached(s.nativeVersions, s.instances, service);
      BumpMoves(s.nativeVersions, s.instances, service, owner);
    }
  }

  lemma ClaimNative(s: State, key: MapKey, uploader: AgentId, now: Time, owner: AgentKey)
    ensures NativeOk(s, SourceMapStatus(s, key, uploader, now).0, owner)
  {
    SourceMapsNative(s, SourceMapStatus(s, key, uploader, now).0, owner);
  }

  lemma UploadNative(s: State, key: MapKey, uploader: AgentId, path: Path, content: Content, valid: bool, now: Time,
                     owner: AgentKey)
    ensures NativeOk(s, UploadSourceMap(s, key, uploader, path, content, valid, now).0, owner)
  {
    SourceMapsNative(s, UploadSourceMap(s, key, uploader, path, content, valid, now).0, owner);
  }

  lemma CompleteNative(s: State, key: MapKey, uploader: AgentId, now: Time, owner: AgentKey)
    ensures NativeOk(s, CompleteSourceMaps(s, key, uploader, now).0, owner)
  {
    hide BumpReached, Evicted;
    SourceMapsNative(s, CompleteSourceMaps(s, key, uploader, now).0, owner);
  }

  lemma NativeStep(s: State, op: Op, now: Time, owner: AgentKey)
    ensures NativeOk(s, Apply(s, op, now), owner)
  {
    hide NativeOk, CreateProbe, DeleteProbe, ExpireFrom, RegisterAgent, ReplaceInstances, IngestNative;
    hide SourceMapStatus, UploadSourceMap, CompleteSourceMaps;
    match op
    case OpCreate(scope, serviceId, id, kind, body, ttl, verdict) =>
      CreateNative(s, scope, serviceId, id, kind, body, ttl, now, verdict, owner);
    case OpDelete(scope, id) => DeleteNative(s, scope, id, now, owner);
    case OpExpire => ExpireNative(s, now, 0, owner);
    case OpRegister(agent, capabilities) => RegisterNative(s, agent, capabilities, owner);
    case OpReplace(agent, reports, allowed) => ReplaceNative(s, agent, reports, allowed, owner);
    case OpIngest(batch) => IngestNativeOk(s, batch, now, owner);
    case OpClaim(key, uploader) => ClaimNative(s, key, uploader, now, owner);
    case OpUpload(key, uploader, path, content, valid) => UploadNative(s, key, uploader, path, content, valid, now,
        owner);
    case OpComplete(key, uploader) => CompleteNative(s, key, uploader, now, owner);
  }

  // ---- Managed cursor: one step ----

  /** A complete set has no lease, so nothing can reopen it without completing it again. */
  ghost predicate CompleteUnleased(s: State) {
    forall key | key in s.sets && s.sets[key].complete :: key !in s.leases
  }

  ghost predicate SamePolls(s: State, s': State, service: ServiceKey) {
    && Live(s'.probes, service, {}) == Live(s.probes, service, {})
    && forall commit :: VisibleMaps(s', MapKey(service, commit)) == VisibleMaps(s, MapKey(service, commit))
  }

  ghost predicate ManagedOk(s: State, s': State, service: ServiceKey) {
    && Version(s.versions, service) <= Version(s'.versions, service)
    && (Version(s.versions, service) == Version(s'.versions, service) ==> SamePolls(s, s', service))
  }

  lemma ManagedEdit(s: State, s': State, edited: ServiceKey, service: ServiceKey)
    requires s'.sets == s.sets && DifferOnlyFor(s.probes, s'.probes, edited)
    requires s'.versions == s.versions[edited := Version(s.versions, edited) + 1]
    ensures ManagedOk(s, s', service)
  {
  }

  lemma {:induction false} ExpireManaged(s: State, now: Time, k: nat, service: ServiceKey)
    requires k <= |s.probes|
    ensures ManagedOk(s, ExpireFrom(s, now, k), service)
    ensures ExpireFrom(s, now, k).sets == s.sets && ExpireFrom(s, now, k).leases == s.leases
    decreases |s.probes| - k
  {
    hide Live, BumpReached;
    if k < |s.probes| {
      if Due(s.probes[k], now) {
        ExpireDiffers(s.probes, k);
        ManagedEdit(s, ExpireAt(s, k), ServiceOf(s.probes[k]), service);
        ExpireManaged(ExpireAt(s, k), now, k + 1, service);
      } else {
        ExpireManaged(s, now, k + 1, service);
      }
    }
  }

  lemma CreateManaged(s: State, scope: Scope, serviceId: ServiceId, id: ProbeId, kind: nat, body: nat, ttl: nat,
                      now: Time, verdict: Verdict, service: ServiceKey)
    ensures ManagedOk(s, CreateProbe(s, scope, serviceId, id, kind, body, ttl, now, verdict).0, service)
  {
    hide Live, IndexOf, BumpReached;
    var s' := CreateProbe(s, scope, serviceId, id, kind, body, ttl, now, verdict).0;
    if !verdict.RefusedInput? && IndexOf(s.probes, id).None? {
      if verdict.Accepted? { AppendDiffers(s.probes, s'.probes[|s.probes|]); }
      ManagedEdit(s, s', ServiceKey(scope, serviceId), service);
    }
  }

  lemma DeleteManaged(s: State, scope: Scope, id: ProbeId, now: Time, service: ServiceKey)
    ensures ManagedOk(s, DeleteProbe(s, scope, id, now).0, service)
  {
    hide Live, BumpReached;
    var found := IndexOf(s.probes, id);
    if found.Some? && s.probes[found.value].scope == scope {
      RemoveDiffers(s.probes, found.value);
      if !s.probes[found.value].expired {
        ManagedEdit(s, DeleteProbe(s, scope, id, now).0, ServiceOf(s.probes[found.value]), service);
      }
    }
  }

  lemma {:induction false} EventsManaged(s: State, target: Target, events: seq<NativeEvent>)
    ensures var s' := ApplyEvents(s, target, events);
      s' == s.(statuses := s'.statuses, nativeVersions := s'.nativeVersions)
    decreases |events|
  {
    if events != [] { EventsManaged(ApplyEvent(s, target, events[0]), target, events[1..]); }
  }

  lemma ClaimManaged(s: State, key: MapKey, uploader: AgentId, now: Time, service: ServiceKey)
    ensures ManagedOk(s, SourceMapStatus(s, key, uploader, now).0, service)
  {
    hide Live;
  }

  lemma UploadManaged(s: State, key: MapKey, uploader: AgentId, path: Path, content: Content, valid: bool, now: Time,
                      service: ServiceKey)
    requires CompleteUnleased(s)
    ensures ManagedOk(s, UploadSourceMap(s, key, uploader, path, content, valid, now).0, service)
  {
    hide Live, PutMap;
  }

  lemma CompleteManaged(s: State, key: MapKey, uploader: AgentId, now: Time, service: ServiceKey)
    ensures ManagedOk(s, CompleteSourceMaps(s, key, uploader, now).0, service)
  {
    hide Live, BumpReached, Evicted;
    if HoldsLease(s, key, uploader, now) {
      var sets := s.sets[key := MapSet(true, now, if key in s.sets then s.sets[key].maps else [], Some(uploader))];
      EvictedOwn(sets, key.service);
    }
  }

  lemma EvictedOwn(sets: map<MapKey, MapSet>, service: ServiceKey)
    ensures forall k | k in Evicted(sets, service) :: k in sets && k.service == service
  {
  }

  lemma IngestManaged(s: State, batch: Batch, now: Time, service: ServiceKey)
    ensures ManagedOk(s, IngestNative(s, batch, now).0, service)
  {
    hide Live, ApplyEvents, CheckEvents, PruneRemoved;
    var pruned := s.(removed := PruneRemoved(s.removed, now));
    var accepted := CheckEvents(pruned, batch, batch.events);
    if accepted.Ok? { EventsManaged(pruned, batch.target, accepted.value); }
  }

  lemma AgentsManaged(s: State, s': State, service: ServiceKey)
    requires s'.probes == s.probes && s'.versions == s.versions && s'.sets == s.sets
    ensures ManagedOk(s, s', service)
  {
    hide Live;
  }

  lemma ManagedStep(s: State, op: Op, now: Time, service: ServiceKey)
    requires CompleteUnleased(s)
    ensures ManagedOk(s, Apply(s, op, now), service)
  {
    hide ManagedOk, CompleteUnleased, CreateProbe, DeleteProbe, ExpireFrom, IngestNative;
    hide SourceMapStatus, UploadSourceMap, CompleteSourceMaps, CheckReports, PutReports, Identities;
    match op
    case OpCreate(scope, serviceId, id, kind, body, ttl, verdict) =>
      CreateManaged(s, scope, serviceId, id, kind, body, ttl, now, verdict, service);
    case OpDelete(scope, id) => DeleteManaged(s, scope, id, now, service);
    case OpExpire => ExpireManaged(s, now, 0, service);
    case OpRegister(agent, capabilities) => AgentsManaged(s, Apply(s, op, now), service);
    case OpReplace(agent, reports, allowed) => AgentsManaged(s, Apply(s, op, now), service);
    case OpIngest(batch) => IngestManaged(s, batch, now, service);
    case OpClaim(key, uploader) => ClaimManaged(s, key, uploader, now, service);
    case OpUpload(key, uploader, path, content, valid) => UploadManaged(s, key, uploader, path, content, valid, now,
        service);
    case OpComplete(key, uploader) => CompleteManaged(s, key, uploader, now, service);
  }
}

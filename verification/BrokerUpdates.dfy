/** What the broker's updates store: probes from creation to removal, instances, and native statuses. */
module BrokerUpdates {
  import opened Positions
  import opened Broker
  import opened BrokerRuns
  import opened BrokerContents
  import opened BrokerReplies

  // ---- The life of a probe ----

  ghost predicate Holds(probes: seq<Stored>, x: Stored) {
    exists n :: 0 <= n < |probes| && probes[n] == x
  }

  /** A probe is created exactly if it is accepted and its id is free, with the next version of its service. */
  lemma CreateExactly(s: State, scope: Scope, service: ServiceId, id: ProbeId, kind: nat, body: nat, ttl: nat,
                      now: Time, verdict: Verdict)
    ensures var (s', r) := CreateProbe(s, scope, service, id, kind, body, ttl, now, verdict);
      var key := ServiceKey(scope, service);
      && (r.Ok? <==> verdict.Accepted? && Absent(s.probes, id))
      && (r == Err(IdCollision) <==> !verdict.RefusedInput? && !Absent(s.probes, id))
      && (r.Ok? ==>
            && r.value == Probe(id, service, Version(s.versions, key) + 1, kind, body)
            && s'.probes == s.probes + [Stored(scope, r.value, now + ttl * 1000, false)])
      && (r.Err? ==> s'.probes == s.probes)
  {
    hide BumpReached, IndexOf;
  }

  predicate Deletes(op: Op, scope: Scope, id: ProbeId) {
    op.OpDelete? && op.scope == scope && op.id == id
  }

  /** What one step makes of a stored probe that it does not delete. */
  function Aged(x: Stored, op: Op, now: Time): Stored {
    if op.OpExpire? && x.expiresAt <= now then x.(expired := true) else x
  }

  lemma DeleteKeepsOthers(s: State, scope: Scope, id: ProbeId, now: Time, x: Stored)
    requires UniqueIds(s.probes) && Holds(s.probes, x) && !(x.scope == scope && x.probe.id == id)
    ensures Holds(DeleteProbe(s, scope, id, now).0.probes, x)
  {
    hide BumpReached, IndexOf;
    var n :| 0 <= n < |s.probes| && s.probes[n] == x;
    var s', found := DeleteProbe(s, scope, id, now).0, IndexOf(s.probes, id);
    if found.Some? && s.probes[found.value].scope == scope {
      var k := found.value;
      assert s'.probes[if n < k then n else n - 1] == x;
    } else {
      assert s'.probes[n] == x;
    }
  }

  lemma ExpireAges(s: State, now: Time, x: Stored)
    requires Holds(s.probes, x)
    ensures Holds(ExpireDue(s, now).probes, Aged(x, OpExpire, now))
  {
    var n :| 0 <= n < |s.probes| && s.probes[n] == x;
    ExpireFromExactly(s, now, 0);
    hide ExpireFrom;
    assert ExpireDue(s, now).probes[n] == Aged(x, OpExpire, now);
  }

  lemma CreateKeepsOthers(s: State, op: Op, now: Time, x: Stored)
    requires op.OpCreate? && Holds(s.probes, x)
    ensures Holds(Apply(s, op, now).probes, x)
  {
    CreateExactly(s, op.scope, op.serviceId, op.id, op.kind, op.body, op.ttl, now, op.verdict);
    hide CreateProbe;
    var n :| 0 <= n < |s.probes| && s.probes[n] == x;
    assert Apply(s, op, now).probes[n] == x;
  }

  lemma StepAges(s: State, op: Op, now: Time, x: Stored)
    requires UniqueIds(s.probes) && Holds(s.probes, x) && !Deletes(op, x.scope, x.probe.id)
    ensures Holds(Apply(s, op, now).probes, Aged(x, op, now))
  {
    hide CreateProbe, DeleteProbe, ExpireFrom, Holds;
    if op.OpCreate? {
      CreateKeepsOthers(s, op, now, x);
    } else if op.OpDelete? {
      DeleteKeepsOthers(s, op.scope, op.id, now, x);
    } else if op.OpExpire? {
      ExpireAges(s, now, x);
    } else {
      OthersKeepProbes(s, op, now);
      hide Apply;
    }
  }

  /** The probe that a creation stores, as it was and once an expiry has found it due. */
  ghost function CreatedAt(states: seq<State>, ops: seq<Op>, times: seq<Time>, i: nat, expired: bool): Stored
    requires Run(states, ops, times) && i < |ops| && ops[i].OpCreate?
  {
    var op := ops[i];
    Stored(op.scope,
           Probe(op.id, op.serviceId, Version(states[i].versions, ServiceKey(op.scope, op.serviceId)) + 1, op.kind,
                 op.body),
           times[i] + op.ttl * 1000, expired)
  }

  ghost predicate Creates(states: seq<State>, ops: seq<Op>, i: nat)
    requires |states| == |ops| + 1 && i < |ops|
  {
    ops[i].OpCreate? && ops[i].verdict.Accepted? && Absent(states[i].probes, ops[i].id)
  }

  /** An expiry between the two steps found the probe due. */
  ghost predicate ExpiredBetween(ops: seq<Op>, times: seq<Time>, i: nat, j: nat, expiresAt: Time)
    requires |times| == |ops| && j <= |ops|
  {
    exists m :: i < m < j && ops[m].OpExpire? && expiresAt <= times[m]
  }

  ghost predicate DeletedBetween(ops: seq<Op>, i: nat, j: nat, scope: Scope, id: ProbeId)
    requires j <= |ops|
  {
    exists m :: i < m < j && Deletes(ops[m], scope, id)
  }

  /** A created probe stays stored, unchanged, until it is deleted, and expires exactly when an expiry finds it due. */
  lemma {:induction false} ProbeLives(states: seq<State>, ops: seq<Op>, times: seq<Time>, i: nat, j: nat)
    requires Run(states, ops, times) && i < j < |states| && Creates(states, ops, i)
    requires !DeletedBetween(ops, i, j, ops[i].scope, ops[i].id)
    ensures var at := times[i] + ops[i].ttl * 1000;
      Holds(states[j].probes, CreatedAt(states, ops, times, i, ExpiredBetween(ops, times, i, j, at)))
    decreases j
  {
    var op, at := ops[i], times[i] + ops[i].ttl * 1000;
    if j == i + 1 {
      CreateExactly(states[i], op.scope, op.serviceId, op.id, op.kind, op.body, op.ttl, times[i], op.verdict);
      hide CreateProbe, Absent;
      var n := |states[i].probes|;
      assert states[j].probes[n] == CreatedAt(states, ops, times, i, false);
    } else {
      hide Apply, Holds, Absent;
      ProbeLives(states, ops, times, i, j - 1);
      RunKeepsUnique(states, ops, times, j - 1);
      var x := CreatedAt(states, ops, times, i, ExpiredBetween(ops, times, i, j - 1, at));
      assert !Deletes(ops[j - 1], op.scope, op.id);
      StepAges(states[j - 1], ops[j - 1], times[j - 1], x);
      ExpiredOneMore(ops, times, i, j - 1, at);
    }
  }

  lemma ExpiredOneMore(ops: seq<Op>, times: seq<Time>, i: nat, j: nat, at: Time)
    requires |times| == |ops| && i < j < |ops|
    ensures ExpiredBetween(ops, times, i, j + 1, at) <==>
      ExpiredBetween(ops, times, i, j, at) || (ops[j].OpExpire? && at <= times[j])
  {
    if m :| i < m < j && ops[m].OpExpire? && at <= times[m] {
      assert i < m < j + 1;
    }
  }

  // ---- Only created probes are stored ----

  /** The stored probe before the step, up to its mark. */
  lemma StoredBefore(s: State, op: Op, now: Time, x: Stored) returns (before: Stored)
    requires UniqueIds(s.probes) && Holds(Apply(s, op, now).probes, x)
    requires !(op.OpCreate? && op.id == x.probe.id && op.verdict.Accepted? && Absent(s.probes, op.id))
    ensures Holds(s.probes, before) && Aged(before, op, now) == x && !Deletes(op, x.scope, x.probe.id)
  {
    var s' := Apply(s, op, now);
    var n :| 0 <= n < |s'.probes| && s'.probes[n] == x;
    hide CreateProbe, DeleteProbe, ExpireFrom;
    if op.OpCreate? {
      CreateExactly(s, op.scope, op.serviceId, op.id, op.kind, op.body, op.ttl, now, op.verdict);
      hide Absent;
      before := s.probes[n];
    } else if op.OpDelete? {
      before := x;
      DeleteLeaves(s, op.scope, op.id, now, x);
    } else if op.OpExpire? {
      ExpireFromExactly(s, now, 0);
      before := s.probes[n];
    } else {
      OthersKeepProbes(s, op, now);
      hide Apply;
      before := x;
      assert s.probes[n] == x;
    }
  }

  lemma DeleteLeaves(s: State, scope: Scope, id: ProbeId, now: Time, x: Stored)
    requires UniqueIds(s.probes) && Holds(DeleteProbe(s, scope, id, now).0.probes, x)
    ensures Holds(s.probes, x) && !(x.scope == scope && x.probe.id == id)
  {
    hide BumpReached, IndexOf;
    var s', found := DeleteProbe(s, scope, id, now).0, IndexOf(s.probes, id);
    var n :| 0 <= n < |s'.probes| && s'.probes[n] == x;
    if found.Some? && s.probes[found.value].scope == scope {
      var m := if n < found.value then n else n + 1;
      assert s.probes[m] == x && m != found.value;
    } else {
      assert s.probes[n] == x;
    }
  }

  /** Whatever is stored was created, and not deleted since. */
  lemma {:induction false} StoredWasCreated(states: seq<State>, ops: seq<Op>, times: seq<Time>, j: nat, x: Stored)
      returns (i: nat)
    requires Run(states, ops, times) && j < |states| && Holds(states[j].probes, x)
    ensures i < j && Creates(states, ops, i) && !DeletedBetween(ops, i, j, ops[i].scope, ops[i].id)
    ensures x == CreatedAt(states, ops, times, i, x.expired)
    decreases j
  {
    assert j > 0;
    var s, op, now := states[j - 1], ops[j - 1], times[j - 1];
    RunKeepsUnique(states, ops, times, j - 1);
    if op.OpCreate? && op.id == x.probe.id && op.verdict.Accepted? && Absent(s.probes, op.id) {
      i := j - 1;
      CreateExactly(s, op.scope, op.serviceId, op.id, op.kind, op.body, op.ttl, now, op.verdict);
      hide CreateProbe;
      var n :| 0 <= n < |states[j].probes| && states[j].probes[n] == x;
    } else {
      var before := StoredBefore(s, op, now, x);
      hide Apply, Holds, Absent;
      i := StoredWasCreated(states, ops, times, j - 1, before);
    }
  }

  // ---- Reports about deleted probes ----

  /** A deletion finds exactly a stored probe of that scope, and is remembered with its time. */
  lemma DeleteExactly(s: State, scope: Scope, id: ProbeId, now: Time)
    requires UniqueIds(s.probes)
    ensures var (s', found) := DeleteProbe(s, scope, id, now);
      && (found <==> exists x :: Holds(s.probes, x) && x.probe.id == id && x.scope == scope)
      && s'.removed == (if found then s.removed[id := now] else s.removed)
      && (!found ==> s' == s)
  {
    var found := IndexOf(s.probes, id);
    hide BumpReached, IndexOf;
    if found.Some? {
      assert Holds(s.probes, s.probes[found.value]);
    }
  }

  /** The probe is gone, and its deletion at that time is remembered. */
  predicate Remembers(s: State, id: ProbeId, at: Time) {
    Absent(s.probes, id) && id in s.removed && s.removed[id] == at
  }

  lemma ExpireKeepsRemoved(s: State, now: Time, k: nat)
    requires k <= |s.probes|
    ensures ExpireFrom(s, now, k).removed == s.removed
    decreases |s.probes| - k
  {
    if k < |s.probes| {
      hide BumpReached;
      ExpireKeepsRemoved(if Due(s.probes[k], now) then ExpireAt(s, k) else s, now, k + 1);
    }
  }

  lemma {:induction false} EventsKeepRemoved(s: State, target: Target, events: seq<NativeEvent>)
    ensures ApplyEvents(s, target, events).removed == s.removed
    decreases |events|
  {
    if events != [] {
      EventsKeepRemoved(ApplyEvent(s, target, events[0]), target, events[1..]);
    }
  }

  lemma OthersKeepRemoved(s: State, op: Op, now: Time)
    requires !op.OpDelete? && !op.OpIngest?
    ensures Apply(s, op, now).removed == s.removed
  {
    hide BumpReached, IndexOf, ExpireFrom, CheckReports, PutReports, Identities;
    hide SourceMapStatus, UploadSourceMap, CompleteSourceMaps, DeleteProbe, IngestNative;
    if op.OpExpire? {
      ExpireKeepsRemoved(s, now, 0);
    } else if op.OpClaim? || op.OpUpload? || op.OpComplete? {
      MapsKeepRemoved(s, op, now);
    }
  }

  lemma ClaimKeepsRemoved(s: State, key: MapKey, uploader: AgentId, now: Time)
    ensures SourceMapStatus(s, key, uploader, now).0.removed == s.removed
  {
  }

  lemma UploadKeepsRemoved(s: State, key: MapKey, uploader: AgentId, path: Path, content: Content, valid: bool,
                           now: Time)
    ensures UploadSourceMap(s, key, uploader, path, content, valid, now).0.removed == s.removed
  {
    hide PutMap;
  }

  lemma CompleteKeepsRemoved(s: State, key: MapKey, uploader: AgentId, now: Time)
    ensures CompleteSourceMaps(s, key, uploader, now).0.removed == s.removed
  {
    hide BumpReached, Evicted;
  }

  lemma MapsKeepRemoved(s: State, op: Op, now: Time)
    requires op.OpClaim? || op.OpUpload? || op.OpComplete?
    ensures Apply(s, op, now).removed == s.removed
  {
    hide SourceMapStatus, UploadSourceMap, CompleteSourceMaps;
    match op
    case OpClaim(key, uploader) => ClaimKeepsRemoved(s, key, uploader, now);
    case OpUpload(key, uploader, path, content, valid) =>
      UploadKeepsRemoved(s, key, uploader, path, content, valid, now);
    case OpComplete(key, uploader) => CompleteKeepsRemoved(s, key, uploader, now);
  }

  lemma IngestRemembers(s: State, batch: Batch, now: Time, id: ProbeId, at: Time)
    requires id in s.removed && s.removed[id] == at && now < at + 600_000
    ensures var s' := IngestNative(s, batch, now).0; id in s'.removed && s'.removed[id] == at
  {
    var pruned := s.(removed := PruneRemoved(s.removed, now));
    var accepted := CheckEvents(pruned, batch, batch.events);
    if accepted.Ok? {
      EventsKeepRemoved(pruned, batch.target, accepted.value);
    }
    hide CheckEvents, ApplyEvents;
  }

  lemma StepRemembers(s: State, op: Op, now: Time, id: ProbeId, at: Time)
    requires UniqueIds(s.probes) && Remembers(s, id, at) && now < at + 600_000 && !(op.OpCreate? && op.id == id)
    ensures Remembers(Apply(s, op, now), id, at)
  {
    StepKeepsIds(s, op, now);
    if op.OpIngest? {
      IngestRemembers(s, op.batch, now, id, at);
    } else if op.OpDelete? {
      DeleteExactly(s, op.scope, op.id, now);
      hide DeleteProbe;
    } else {
      OthersKeepRemoved(s, op, now);
      hide Apply;
    }
  }

  lemma {:induction false} DeletionIsRemembered(states: seq<State>, ops: seq<Op>, times: seq<Time>, i: nat, j: nat)
    requires Run(states, ops, times) && i < j < |states| && ops[i].OpDelete?
    requires DeleteProbe(states[i], ops[i].scope, ops[i].id, times[i]).1
    requires forall m | i < m < j :: times[m] < times[i] + 600_000 && !(ops[m].OpCreate? && ops[m].id == ops[i].id)
    ensures Remembers(states[j], ops[i].id, times[i])
    decreases j
  {
    RunKeepsUnique(states, ops, times, j - 1);
    if j == i + 1 {
      DeleteExactly(states[i], ops[i].scope, ops[i].id, times[i]);
      DeleteRemoves(states[i], ops[i].scope, ops[i].id, times[i]);
      hide DeleteProbe;
    } else {
      DeletionIsRemembered(states, ops, times, i, j - 1);
      hide Apply, Remembers, DeleteProbe;
      StepRemembers(states[j - 1], ops[j - 1], times[j - 1], ops[i].id, times[i]);
    }
  }

  /** For ten minutes after a deletion, late reports about the probe are passed over and spoil no batch. */
  lemma LateReportsAreForgiven(states: seq<State>, ops: seq<Op>, times: seq<Time>, i: nat, j: nat, e: NativeEvent,
                               now: Time)
    requires Run(states, ops, times) && i < j < |states| && ops[i].OpDelete? && ops[i].id == e.probe
    requires DeleteProbe(states[i], ops[i].scope, ops[i].id, times[i]).1
    requires forall m | i < m < j :: times[m] < times[i] + 600_000 && !(ops[m].OpCreate? && ops[m].id == ops[i].id)
    ensures Late(states[j], e, now) <==> now < times[i] + 600_000
  {
    DeletionIsRemembered(states, ops, times, i, j);
    hide DeleteProbe, Run;
  }

  // ---- Agents ----

  /** Registering stores the agent's capabilities and touches nobody else; a version it has stays. */
  lemma RegisterExactly(s: State, owner: AgentKey, capabilities: nat, other: AgentKey)
    ensures var s' := RegisterAgent(s, owner, capabilities);
      && owner in s'.agents && s'.agents[owner] == capabilities
      && (other != owner ==> (other in s'.agents <==> other in s.agents))
      && (other != owner && other in s.agents ==> s'.agents[other] == s.agents[other])
      && Version(s'.nativeVersions, other) == Version(s.nativeVersions, other)
  {
  }

  // ---- Instances ----

  /** Why a report is refused, seen from the reports before it. */
  ghost predicate Refuses(s: State, owner: AgentKey, reports: seq<Reported>, i: nat, allowed: Allowed, error: Error)
    requires i < |reports|
  {
    if !Covered(allowed, reports[i].service) then error == Forbidden
    else if exists j :: 0 <= j < i && reports[j].id == reports[i].id then error == DuplicateInstance
    else error == InstanceOwned && OwnedByOther(s, owner, reports[i].id)
  }

  ghost predicate OwnedByOther(s: State, owner: AgentKey, id: InstanceId) {
    exists k :: k in s.instances && k.owner.scope == owner.scope && k.instance == id && k.owner != owner
  }

  ghost predicate NoneRefused(s: State, owner: AgentKey, reports: seq<Reported>, n: nat, allowed: Allowed)
    requires n <= |reports|
  {
    forall j, e | 0 <= j < n :: !Refuses(s, owner, reports, j, allowed, e)
  }

  /** Report `i` is the first that is refused, for this reason. */
  ghost predicate FirstRefused(s: State, owner: AgentKey, reports: seq<Reported>, i: nat, allowed: Allowed,
                               error: Error) {
    i < |reports| && Refuses(s, owner, reports, i, allowed, error) && NoneRefused(s, owner, reports, i, allowed)
  }

  lemma {:induction false} CheckReportsExactly(
    s: State, owner: AgentKey, reports: seq<Reported>, n: nat, seen: set<InstanceId>, allowed: Allowed)
    requires n <= |reports| && NoneRefused(s, owner, reports, n, allowed)
    requires forall id :: id in seen <==> exists j :: 0 <= j < n && reports[j].id == id
    ensures var refused := CheckReports(s, owner, reports[n..], seen, allowed);
      && (refused.None? ==> NoneRefused(s, owner, reports, |reports|, allowed))
      && (refused.Some? ==> exists i: nat :: FirstRefused(s, owner, reports, i, allowed, refused.value))
    decreases |reports| - n
  {
    if n < |reports| {
      var report := reports[n];
      assert reports[n..][0] == report && reports[n..][1..] == reports[n + 1..];
      var refused := CheckReports(s, owner, reports[n..], seen, allowed);
      if !Allows(allowed, report.service) || report.id in seen || OwnedByOther(s, owner, report.id) {
        assert FirstRefused(s, owner, reports, n, allowed, refused.value);
      } else {
        assert forall e :: !Refuses(s, owner, reports, n, allowed, e);
        assert refused == CheckReports(s, owner, reports[n + 1..], seen + {report.id}, allowed);
        CheckReportsExactly(s, owner, reports, n + 1, seen + {report.id}, allowed);
      }
    }
  }

  /** The reports' ids are all different. */
  ghost predicate DistinctReports(reports: seq<Reported>) {
    forall i, j | 0 <= i < j < |reports| :: reports[i].id != reports[j].id
  }

  lemma {:induction false} PutReportsExactly(
    instances: map<InstanceKey, Instance>, owner: AgentKey, fallback: nat, reports: seq<Reported>, k: InstanceKey)
    requires DistinctReports(reports)
    ensures var r := PutReports(instances, owner, fallback, reports);
      && (k in r <==> k in instances || (k.owner == owner && k.instance in ReportedIds(reports)))
      && (k in r && !(k.owner == owner && k.instance in ReportedIds(reports)) ==> r[k] == instances[k])
      && (forall i | 0 <= i < |reports| && k == InstanceKey(owner, reports[i].id) ::
            k in r && r[k] == Record(reports[i], fallback))
    decreases |reports|
  {
    if reports != [] {
      var head := InstanceKey(owner, reports[0].id);
      var next := instances[head := Record(reports[0], fallback)];
      PutReportsExactly(next, owner, fallback, reports[1..], k);
      assert reports == [reports[0]] + reports[1..];
      assert forall r :: r in reports <==> r == reports[0] || r in reports[1..];
      assert forall i | 1 <= i < |reports| :: reports[i] == reports[1..][i - 1];
      assert k == head ==> k.instance !in ReportedIds(reports[1..]);
    }
  }

  /**
   A replacement is accepted exactly if the agent is registered and no report is refused; the first
   refused report decides the error. The agent then has exactly the reported instances, and all other
   agents' instances stay.
   */
  lemma ReplaceExactly(s: State, owner: AgentKey, reports: seq<Reported>, allowed: Allowed)
    ensures var (s', r) := ReplaceInstances(s, owner, reports, allowed);
      && (owner !in s.agents ==> r == Err(AgentNotFound))
      && (r.Ok? <==> owner in s.agents && NoneRefused(s, owner, reports, |reports|, allowed))
      && (r.Err? ==> s' == s)
      && (r.Err? && owner in s.agents ==> exists i: nat :: FirstRefused(s, owner, reports, i, allowed, r.error))
  {
    assert reports[0..] == reports;
    CheckReportsExactly(s, owner, reports, 0, {}, allowed);
    hide CheckReports, PutReports, Identities, Refuses;
    var refused := CheckReports(s, owner, reports, {}, allowed);
    if refused.Some? {
      var i: nat :| FirstRefused(s, owner, reports, i, allowed, refused.value);
      assert Refuses(s, owner, reports, i, allowed, refused.value);
    }
  }

  lemma ReplacedExactly(s: State, owner: AgentKey, reports: seq<Reported>, allowed: Allowed, k: InstanceKey)
    requires ReplaceInstances(s, owner, reports, allowed).1.Ok?
    ensures var s' := ReplaceInstances(s, owner, reports, allowed).0;
      && (k.owner != owner ==> (k in s'.instances <==> k in s.instances))
      && (k.owner != owner && k in s.instances ==> s'.instances[k] == s.instances[k])
      && (k.owner == owner ==> (k in s'.instances <==> k.instance in ReportedIds(reports)))
      && (forall i | 0 <= i < |reports| && k == InstanceKey(owner, reports[i].id) ::
            && k in s'.instances && s'.instances[k].service == reports[i].service
            && s'.instances[k].build == reports[i].build && s'.instances[k].lastSeen == reports[i].lastSeen
            && s'.instances[k].capabilities ==
                 (if reports[i].capabilities.Some? then reports[i].capabilities.value else s.agents[owner]))
  {
    ReplaceExactly(s, owner, reports, allowed);
    AcceptedAreDistinct(s, owner, reports, allowed);
    var kept := map k | k in s.instances && (k.owner != owner || k.instance in ReportedIds(reports)) :: s.instances[k];
    PutReportsExactly(kept, owner, s.agents[owner], reports, k);
    hide CheckReports, PutReports, Identities, Refuses, ReportedIds;
  }

  lemma AcceptedAreDistinct(s: State, owner: AgentKey, reports: seq<Reported>, allowed: Allowed)
    requires NoneRefused(s, owner, reports, |reports|, allowed)
    ensures DistinctReports(reports)
  {
    forall i, j | 0 <= i < j < |reports| ensures reports[i].id != reports[j].id {
      assert !Refuses(s, owner, reports, j, allowed, DuplicateInstance);
      assert !Refuses(s, owner, reports, j, allowed, Forbidden);
    }
  }

  // ---- Which events are accepted ----

  /** The event is about a probe deleted in the last ten minutes, so it is passed over. */
  predicate Late(s: State, e: NativeEvent, now: Time) {
    Absent(s.probes, e.probe) && e.probe in s.removed && s.removed[e.probe] > now - 600_000
  }

  /** Why the event is refused: the first of these that applies. */
  ghost predicate Rejects(s: State, batch: Batch, e: NativeEvent, error: Error) {
    if Absent(s.probes, e.probe) then error == InvalidRequest
    else exists x :: Holds(s.probes, x) && x.probe.id == e.probe && Mismatch(x, batch, e, error)
  }

  predicate Mismatch(x: Stored, batch: Batch, e: NativeEvent, error: Error) {
    if x.scope != batch.target.key.owner.scope || x.probe.service != batch.service then error == InvalidRequest
    else if e.status.None? && e.kind != x.probe.kind then error == InvalidRequest
    else if e.version != x.probe.version then error == ProbeVersionChanged
    else error == TargetChanged && e.status.Some? && e.origin != batch.target
  }

  ghost predicate Accepts(s: State, batch: Batch, e: NativeEvent) {
    exists x :: Holds(s.probes, x) && x.probe.id == e.probe && forall error :: !Mismatch(x, batch, e, error)
  }

  /** The event does not spoil its batch. */
  ghost predicate Passes(s: State, batch: Batch, e: NativeEvent, now: Time) {
    Late(s, e, now) || Accepts(s, batch, e)
  }

  /** One event's turn in the validation pass. */
  lemma CheckOne(s: State, batch: Batch, e: NativeEvent, now: Time, error: Error)
    requires UniqueIds(s.probes)
    ensures var pruned := s.(removed := PruneRemoved(s.removed, now)); var found := IndexOf(s.probes, e.probe);
      && (found.None? && e.probe in pruned.removed <==> Late(s, e, now))
      && (found.None? <==> Absent(s.probes, e.probe))
      && (found.Some? ==> (Rejects(s, batch, e, error) <==> Mismatch(s.probes[found.value], batch, e, error)))
      && (Accepts(s, batch, e) <==> found.Some? && forall e1 :: !Mismatch(s.probes[found.value], batch, e, e1))
  {
    var found := IndexOf(s.probes, e.probe);
    hide IndexOf, Mismatch;
    if found.Some? {
      var n := found.value;
      assert Holds(s.probes, s.probes[n]);
      forall x | Holds(s.probes, x) && x.probe.id == e.probe ensures x == s.probes[n] {
        var m :| 0 <= m < |s.probes| && s.probes[m] == x;
      }
    }
  }

  lemma CheckUnfolds(s: State, batch: Batch, now: Time, events: seq<NativeEvent>)
    requires UniqueIds(s.probes) && events != []
    ensures var pruned := s.(removed := PruneRemoved(s.removed, now)); var e := events[0];
      var checked, next := CheckEvents(pruned, batch, events), CheckEvents(pruned, batch, events[1..]);
      && (Passes(s, batch, e, now) ==>
            checked == if next.Err? then next else Ok((if Accepts(s, batch, e) then [e] else []) + next.value))
      && (!Passes(s, batch, e, now) ==> !Late(s, e, now) && checked.Err? && Rejects(s, batch, e, checked.error))
  {
    var pruned := s.(removed := PruneRemoved(s.removed, now));
    var e, checked := events[0], CheckEvents(pruned, batch, events);
    var next := CheckEvents(pruned, batch, events[1..]);
    assert next.Ok? ==> [] + next.value == next.value;
    CheckOne(s, batch, e, now, if checked.Err? then checked.error else InvalidRequest);
    hide IndexOf, Late, Accepts, Rejects, PruneRemoved, UniqueIds, Absent;
  }

  /** Event `i` is the first that is refused, for this reason. */
  ghost predicate FirstRejected(s: State, batch: Batch, now: Time, i: nat, error: Error) {
    && i < |batch.events| && !Late(s, batch.events[i], now) && Rejects(s, batch, batch.events[i], error)
    && forall j | 0 <= j < i :: Passes(s, batch, batch.events[j], now)
  }

  lemma {:induction false} CheckEventsExactly(
    s: State, batch: Batch, now: Time, n: nat, wanted: NativeEvent -> bool) returns (at: seq<nat>)
    requires UniqueIds(s.probes) && n <= |batch.events|
    requires forall e :: wanted(e) <==> Accepts(s, batch, e)
    requires forall j | 0 <= j < n :: Passes(s, batch, batch.events[j], now)
    ensures var checked := CheckEvents(s.(removed := PruneRemoved(s.removed, now)), batch, batch.events[n..]);
      && (checked.Ok? ==>
            && Picks(batch.events[n..], wanted, at) && Lists(batch.events[n..], at, checked.value)
            && forall j | n <= j < |batch.events| :: Late(s, batch.events[j], now)
                || Accepts(s, batch, batch.events[j]))
      && (checked.Err? ==> exists i: nat :: FirstRejected(s, batch, now, i, checked.error))
    decreases |batch.events| - n
  {
    var pruned := s.(removed := PruneRemoved(s.removed, now));
    var rest := batch.events[n..];
    at := [];
    if n < |batch.events| {
      var e := batch.events[n];
      assert rest[0] == e && rest[1..] == batch.events[n + 1..];
      var checked := CheckEvents(pruned, batch, rest);
      var next := CheckEvents(pruned, batch, rest[1..]);
      CheckUnfolds(s, batch, now, rest);
      hide CheckEvents, Passes, Late, Accepts, Rejects, PruneRemoved, UniqueIds, Lists, Finds, Increasing, Shifted;
      if Passes(s, batch, e, now) {
        var later := CheckEventsExactly(s, batch, now, n + 1, wanted);
        if checked.Ok? {
          at := Shifted(wanted(e), later);
          ShiftedFinds(rest, wanted, later);
          ShiftedIncreases(wanted(e), later);
          ShiftedLists(rest, wanted(e), later, next.value);
        }
      } else {
        assert FirstRejected(s, batch, now, n, checked.error);
      }
    }
  }

  /** The batch comes from an instance that is stored with that service and build. */
  predicate FromCurrent(s: State, batch: Batch) {
    var k := batch.target.key;
    k in s.instances && s.instances[k].service == batch.service && s.instances[k].build == batch.target.build
  }

  /**
   A batch is accepted exactly if its target is current and every event is acceptable or about a probe
   deleted lately; the first event that is neither decides the error. The reply counts the acceptable ones.
   */
  lemma IngestExactly(s: State, batch: Batch, now: Time) returns (at: seq<nat>, accepted: seq<NativeEvent>)
    requires UniqueIds(s.probes)
    ensures var (s', r) := IngestNative(s, batch, now);
      && (r.Ok? <==> (FromCurrent(s, batch) && forall e | e in batch.events :: Passes(s, batch, e, now)))
      && (r.Ok? ==>
            && r.value == |at| && Picks(batch.events, e => Accepts(s, batch, e), at)
            && Lists(batch.events, at, accepted)
            && s' == ApplyEvents(s.(removed := PruneRemoved(s.removed, now)), batch.target, accepted))
      && (r.Err? && !FromCurrent(s, batch) ==> r.error == TargetChanged && s' == s)
      && (r.Err? && FromCurrent(s, batch) ==>
            s'.statuses == s.statuses && exists i: nat :: FirstRejected(s, batch, now, i, r.error))
  {
    var pruned := s.(removed := PruneRemoved(s.removed, now));
    var wanted := (e: NativeEvent) => Accepts(s, batch, e);
    assert batch.events[0..] == batch.events;
    at := CheckEventsExactly(s, batch, now, 0, wanted);
    var checked := CheckEvents(pruned, batch, batch.events);
    hide CheckEvents, Late, Rejects, PruneRemoved, ApplyEvents;
    accepted := [];
    if checked.Ok? {
      accepted := checked.value;
      FindsSame(batch.events, wanted, e => Accepts(s, batch, e), at);
      forall e | e in batch.events ensures Passes(s, batch, e, now) {
        var j :| 0 <= j < |batch.events| && batch.events[j] == e;
      }
      hide Accepts;
    } else {
      var i: nat :| FirstRejected(s, batch, now, i, checked.error);
      RejectedIsNotAccepted(s, batch, batch.events[i], checked.error);
      assert batch.events[i] in batch.events;
    }
  }

  lemma RejectedIsNotAccepted(s: State, batch: Batch, e: NativeEvent, error: Error)
    requires UniqueIds(s.probes) && Rejects(s, batch, e, error)
    ensures !Accepts(s, batch, e)
  {
    CheckOne(s, batch, e, 0, error);
    hide IndexOf;
  }

  // ---- What a batch makes of the stored statuses ----

  predicate IsTerminal(status: StatusName) {
    status == HitLimitReached || status == Suspended || status == Expired
  }

  /** The event reports a status for the key. */
  predicate Reports(target: Target, e: NativeEvent, key: StatusKey) {
    e.status.Some? && key == StatusKey(target, e.probe, e.version)
  }

  /** A report counts unless it is older than what is stored or would undo a terminal status. */
  predicate Counts(s: State, e: NativeEvent, key: StatusKey)
    requires e.status.Some?
  {
    key in s.statuses ==>
      s.statuses[key].updatedAt <= e.ts && (IsTerminal(s.statuses[key].status) ==> IsTerminal(e.status.value))
  }

  lemma StatusRule(s: State, target: Target, e: NativeEvent, key: StatusKey)
    ensures var s' := ApplyEvent(s, target, e);
      if Reports(target, e, key) && Counts(s, e, key)
      then key in s'.statuses && s'.statuses[key] == NativeStatus(e.status.value, e.ts)
      else StatusOf(s', key) == StatusOf(s, key)
  {
  }

  function StatusOf(s: State, key: StatusKey): Option<NativeStatus> {
    if key in s.statuses then Some(s.statuses[key]) else None
  }

  /** Time and the latch only move forward. */
  predicate Onward(before: Option<NativeStatus>, after: Option<NativeStatus>) {
    before.Some? ==>
      && after.Some? && before.value.updatedAt <= after.value.updatedAt
      && (IsTerminal(before.value.status) ==> IsTerminal(after.value.status))
  }

  /** The stored status is at least as new as the report, or a terminal one that the report could not undo. */
  predicate Reflects(after: Option<NativeStatus>, e: NativeEvent)
    requires e.status.Some?
  {
    && after.Some?
    && (e.ts <= after.value.updatedAt || (IsTerminal(after.value.status) && !IsTerminal(e.status.value)))
  }

  /** The report is as new as what was stored before the batch and as every report before it in the batch. */
  ghost predicate Newest(
    s: State, target: Target, events: seq<NativeEvent>, key: StatusKey, i: nat)
    requires i < |events|
  {
    && (key in s.statuses ==> s.statuses[key].updatedAt <= events[i].ts)
    && forall j | 0 <= j < i && Reports(target, events[j], key) :: events[j].ts <= events[i].ts
  }

  lemma {:induction false} EventsOnward(s: State, target: Target, events: seq<NativeEvent>, key: StatusKey)
    ensures Onward(StatusOf(s, key), StatusOf(ApplyEvents(s, target, events), key))
    decreases |events|
  {
    if events != [] {
      StatusRule(s, target, events[0], key);
      hide ApplyEvent;
      EventsOnward(ApplyEvent(s, target, events[0]), target, events[1..], key);
    }
  }

  /**
   Every accepted report is reflected in what is stored, and a terminal one that is new enough ends the
   assignment.
   */
  lemma {:induction false} ReportsAreReflected(
    s: State, target: Target, events: seq<NativeEvent>, key: StatusKey, i: nat)
    requires i < |events| && Reports(target, events[i], key)
    ensures var after := StatusOf(ApplyEvents(s, target, events), key);
      && Reflects(after, events[i])
      && (IsTerminal(events[i].status.value) && Newest(s, target, events, key, i) ==> IsTerminal(after.value.status))
    decreases |events|
  {
    var next := ApplyEvent(s, target, events[0]);
    StatusRule(s, target, events[0], key);
    EventsOnward(next, target, events[1..], key);
    hide ApplyEvent;
    if i > 0 {
      ReportsAreReflected(next, target, events[1..], key, i - 1);
      assert events[1..][i - 1] == events[i];
      if Newest(s, target, events, key, i) {
        assert forall j | 0 <= j < i - 1 :: events[1..][j] == events[j + 1];
        assert Newest(next, target, events[1..], key, i - 1);
      }
    }
  }

  /** Whatever is stored after a batch was stored before it or reported in it. */
  lemma {:induction false} StoredWasReported(s: State, target: Target, events: seq<NativeEvent>, key: StatusKey)
    ensures var after := StatusOf(ApplyEvents(s, target, events), key);
      || after == StatusOf(s, key)
      || exists e :: e in events && Reports(target, e, key) && after == Some(NativeStatus(e.status.value, e.ts))
    decreases |events|
  {
    if events != [] {
      StatusRule(s, target, events[0], key);
      StoredWasReported(ApplyEvent(s, target, events[0]), target, events[1..], key);
      hide ApplyEvent;
      assert forall e | e in events[1..] :: e in events;
      assert events[0] in events;
    }
  }
}

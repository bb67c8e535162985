/** What the polls list: exactly the stored, unexpired, unended probes, from creation to removal. */
module BrokerContents {
  import opened Broker
  import opened BrokerCursors
  import opened BrokerRuns

  /** A probe is listed if and only if it is stored for the service, unexpired and not ended. */
  lemma {:induction false} LiveExactly(probes: seq<Stored>, service: ServiceKey, ended: set<ProbeRef>, p: Probe)
    ensures p in Live(probes, service, ended) <==>
      exists k :: 0 <= k < |probes| && probes[k].probe == p && Listed(probes[k], service, ended)
    decreases |probes|
  {
    if probes != [] {
      var rest := probes[1..];
      LiveExactly(rest, service, ended, p);
      if p in Live(rest, service, ended) {
        var k :| 0 <= k < |rest| && rest[k].probe == p && Listed(rest[k], service, ended);
        assert probes[k + 1] == rest[k];
      }
      if k :| 0 <= k < |probes| && probes[k].probe == p && Listed(probes[k], service, ended) {
        assert k > 0 ==> rest[k - 1] == probes[k];
      }
    }
  }

  // ---- Expiry ----

  lemma {:induction false} ExpireFromExactly(s: State, now: Time, k: nat)
    requires k <= |s.probes|
    ensures var s' := ExpireFrom(s, now, k);
      && |s'.probes| == |s.probes|
      && (forall j | 0 <= j < |s.probes| ::
            s'.probes[j] == if j >= k && Due(s.probes[j], now) then s.probes[j].(expired := true) else s.probes[j])
    decreases |s.probes| - k
  {
    if k < |s.probes| {
      hide BumpReached;
      ExpireFromExactly(if Due(s.probes[k], now) then ExpireAt(s, k) else s, now, k + 1);
    }
  }

  /** An expiry marks exactly the due probes, so nothing that is listed afterwards is overdue. */
  lemma ExpiryIsExact(s: State, now: Time, service: ServiceKey, ended: set<ProbeRef>, p: Probe)
    ensures p in Live(ExpireDue(s, now).probes, service, ended) <==>
      exists k :: (0 <= k < |s.probes| && s.probes[k].probe == p && Listed(s.probes[k], service, ended)
                   && s.probes[k].expiresAt > now)
  {
    var s' := ExpireDue(s, now);
    ExpireFromExactly(s, now, 0);
    LiveExactly(s'.probes, service, ended, p);
    hide Live, ExpireFrom;
    if k :| 0 <= k < |s'.probes| && s'.probes[k].probe == p && Listed(s'.probes[k], service, ended) {
      assert s.probes[k] == s'.probes[k] && !Due(s.probes[k], now);
    }
    if k :| (0 <= k < |s.probes| && s.probes[k].probe == p && Listed(s.probes[k], service, ended)
             && s.probes[k].expiresAt > now) {
      assert s'.probes[k] == s.probes[k];
    }
  }

  // ---- Creation and removal ----

  /** A created probe comes last in its service's list, with the service's new version; no other list changes. */
  lemma CreatedIsListed(s: State, scope: Scope, serviceId: ServiceId, id: ProbeId, kind: nat, body: nat, ttl: nat,
                        now: Time, verdict: Verdict, service: ServiceKey, ended: set<ProbeRef>)
    requires CreateProbe(s, scope, serviceId, id, kind, body, ttl, now, verdict).1.Ok?
    ensures var (s', r) := CreateProbe(s, scope, serviceId, id, kind, body, ttl, now, verdict);
      && r.value.id == id && r.value.version == Version(s'.versions, ServiceKey(scope, serviceId))
      && Live(s'.probes, service, ended) == Live(s.probes, service, ended)
           + (if service == ServiceKey(scope, serviceId) && ProbeRef(id, r.value.version) !in ended then [r.value]
              else [])
  {
    hide BumpReached, IndexOf;
    var (s', r) := CreateProbe(s, scope, serviceId, id, kind, body, ttl, now, verdict);
    LiveConcat(s.probes, s'.probes[|s.probes|..], service, ended);
  }

  ghost predicate UniqueIds(probes: seq<Stored>) {
    forall j, k | 0 <= j < k < |probes| :: probes[j].probe.id != probes[k].probe.id
  }

  predicate Absent(probes: seq<Stored>, id: ProbeId) {
    forall k | 0 <= k < |probes| :: probes[k].probe.id != id
  }

  lemma DeleteRemoves(s: State, scope: Scope, id: ProbeId, now: Time)
    requires UniqueIds(s.probes)
    ensures var (s', found) := DeleteProbe(s, scope, id, now);
      && UniqueIds(s'.probes)
      && (found <==> exists k :: 0 <= k < |s.probes| && s.probes[k].probe.id == id && s.probes[k].scope == scope)
      && (found ==> Absent(s'.probes, id))
      && (forall other | Absent(s.probes, other) :: Absent(s'.probes, other))
  {
    hide BumpReached;
    var at := IndexOf(s.probes, id);
    var s' := DeleteProbe(s, scope, id, now).0;
    hide IndexOf;
    if at.Some? && s.probes[at.value].scope == scope {
      var n := at.value;
      assert s'.probes == s.probes[..n] + s.probes[n + 1..];
      assert forall k | 0 <= k < |s'.probes| :: s'.probes[k] == s.probes[if k < n then k else k + 1];
    }
  }

  /** Only a creation adds an id, and only one that is not stored. */
  lemma StepKeepsIds(s: State, op: Op, now: Time)
    requires UniqueIds(s.probes)
    ensures UniqueIds(Apply(s, op, now).probes)
    ensures forall id | Absent(s.probes, id) && !(op.OpCreate? && op.id == id) :: Absent(Apply(s, op, now).probes, id)
  {
    hide CreateProbe, DeleteProbe, ExpireFrom;
    if op.OpDelete? {
      DeleteRemoves(s, op.scope, op.id, now);
    } else if op.OpExpire? {
      ExpireFromExactly(s, now, 0);
    } else if op.OpCreate? {
      CreateKeepsIds(s, op.scope, op.serviceId, op.id, op.kind, op.body, op.ttl, now, op.verdict);
    } else {
      OthersKeepProbes(s, op, now);
      hide Apply;
    }
  }

  lemma CreateKeepsIds(s: State, scope: Scope, service: ServiceId, id: ProbeId, kind: nat, body: nat, ttl: nat,
                       now: Time, verdict: Verdict)
    requires UniqueIds(s.probes)
    ensures var s' := CreateProbe(s, scope, service, id, kind, body, ttl, now, verdict).0;
      UniqueIds(s'.probes) && forall other | Absent(s.probes, other) && other != id :: Absent(s'.probes, other)
  {
    hide BumpReached, IndexOf;
  }

  lemma OthersKeepProbes(s: State, op: Op, now: Time)
    requires !op.OpCreate? && !op.OpDelete? && !op.OpExpire?
    ensures Apply(s, op, now).probes == s.probes
  {
    hide BumpReached, ApplyEvents, CheckEvents, CheckReports, PutReports, Identities, PruneRemoved, Evicted, PutMap;
    hide CreateProbe, DeleteProbe, ExpireFrom;
    if op.OpIngest? {
      var pruned := s.(removed := PruneRemoved(s.removed, now));
      var accepted := CheckEvents(pruned, op.batch, op.batch.events);
      if accepted.Ok? { EventsManaged(pruned, op.batch.target, accepted.value); }
    }
  }

  lemma {:induction false} RunKeepsUnique(states: seq<State>, ops: seq<Op>, times: seq<Time>, k: nat)
    requires Run(states, ops, times) && k < |states|
    ensures UniqueIds(states[k].probes)
  {
    hide Apply;
    if k > 0 {
      RunKeepsUnique(states, ops, times, k - 1);
      StepKeepsIds(states[k - 1], ops[k - 1], times[k - 1]);
    }
  }

  lemma {:induction false} AbsentStays(states: seq<State>, ops: seq<Op>, times: seq<Time>, i: nat, j: nat, id: ProbeId)
    requires Run(states, ops, times) && i <= j < |states| && Absent(states[i].probes, id)
    requires forall m | i <= m < j :: !(ops[m].OpCreate? && ops[m].id == id)
    ensures Absent(states[j].probes, id)
    decreases j - i
  {
    hide Apply, Absent;
    if i < j {
      AbsentStays(states, ops, times, i, j - 1, id);
      RunKeepsUnique(states, ops, times, j - 1);
      StepKeepsIds(states[j - 1], ops[j - 1], times[j - 1]);
    }
  }

  /** After a successful delete no poll of any service lists the id until it is created again. */
  lemma DeletedIsGone(states: seq<State>, ops: seq<Op>, times: seq<Time>, i: nat, j: nat, service: ServiceKey, p: Probe)
    requires Run(states, ops, times) && i < j < |states| && ops[i].OpDelete? && ops[i].id == p.id
    requires DeleteProbe(states[i], ops[i].scope, p.id, times[i]).1
    requires forall m | i < m < j :: !(ops[m].OpCreate? && ops[m].id == p.id)
    ensures p !in Live(states[j].probes, service, {})
  {
    RunKeepsUnique(states, ops, times, i);
    DeleteRemoves(states[i], ops[i].scope, p.id, times[i]);
    hide DeleteProbe, Live;
    AbsentStays(states, ops, times, i + 1, j, p.id);
    LiveExactly(states[j].probes, service, {}, p);
  }

  /** Once a terminal status is stored, that probe version is never again assigned to that build. */
  lemma EndedIsNotAssigned(states: seq<State>, ops: seq<Op>, times: seq<Time>, i: nat, j: nat, key: StatusKey,
                           allowed: Allowed, p: Probe)
    requires Run(states, ops, times) && i <= j < |states| && HasEnded(states[i], key)
    requires p.id == key.probe && p.version == key.version
    ensures var all := FullAssignments(states[j], key.target.key.owner, allowed); var k := key.target.key;
      k in all && all[k].build == key.target.build ==> p !in all[k].probes
  {
    EndedForGood(states, ops, times, i, j, key);
    var s, k := states[j], key.target.key;
    if k in s.instances && s.instances[k].build == key.target.build {
      LiveExactly(s.probes, ServiceKey(k.owner.scope, s.instances[k].service), Ended(s.statuses, key.target), p);
      hide Live, Ended;
    }
  }
}

/** Whole-run theorems about the broker: cursors, terminal statuses and the source-map lease. */
module BrokerRuns {
  import opened Broker
  import opened BrokerCursors

  /** `states` is what a broker goes through when `ops` happen at the clock readings `times`. */
  ghost predicate Run(states: seq<State>, ops: seq<Op>, times: seq<Time>) {
    && |states| == |ops| + 1 && |times| == |ops|
    && states[0] == Init
    && forall k | 0 <= k < |ops| :: states[k + 1] == Apply(states[k], ops[k], times[k])
  }

  // ---- The lease protocol ----

  ghost predicate AllBy(maps: seq<MapEntry>, uploader: AgentId) {
    forall e | e in maps :: e.uploader == uploader
  }

  /** A complete set is unleased and single-handed; an open one belongs to its leaseholder alone. */
  ghost predicate SetOk(x: MapSet, lease: Option<Lease>) {
    if x.complete then lease.None? && x.completedBy.Some? && AllBy(x.maps, x.completedBy.value)
    else lease.Some? && AllBy(x.maps, lease.value.uploader)
  }

  function LeaseOf(s: State, key: MapKey): Option<Lease> {
    if key in s.leases then Some(s.leases[key]) else None
  }

  ghost predicate LeaseInv(s: State) {
    forall key | key in s.sets :: SetOk(s.sets[key], LeaseOf(s, key))
  }

  lemma {:induction false} PutMapBy(maps: seq<MapEntry>, entry: MapEntry)
    requires AllBy(maps, entry.uploader)
    ensures AllBy(PutMap(maps, entry), entry.uploader)
  {
    if maps != [] {
      assert forall e | e in maps[1..] :: e in maps;
      PutMapBy(maps[1..], entry);
    }
  }

  lemma ClaimLease(s: State, key: MapKey, uploader: AgentId, now: Time)
    requires LeaseInv(s)
    ensures LeaseInv(SourceMapStatus(s, key, uploader, now).0)
  {
  }

  lemma UploadLease(s: State, key: MapKey, uploader: AgentId, path: Path, content: Content, valid: bool, now: Time)
    requires LeaseInv(s)
    ensures LeaseInv(UploadSourceMap(s, key, uploader, path, content, valid, now).0)
  {
    hide PutMap;
    if HoldsLease(s, key, uploader, now) {
      PutMapBy(if key in s.sets then s.sets[key].maps else [], MapEntry(path, content, uploader));
    }
  }

  lemma CompleteLease(s: State, key: MapKey, uploader: AgentId, now: Time)
    requires LeaseInv(s)
    ensures LeaseInv(CompleteSourceMaps(s, key, uploader, now).0)
  {
    hide Evicted, BumpReached;
  }

  /** Everything but the three source-map operations leaves sets and leases alone. */
  lemma OthersKeepLeases(s: State, op: Op, now: Time)
    requires !op.OpClaim? && !op.OpUpload? && !op.OpComplete?
    ensures Apply(s, op, now).sets == s.sets && Apply(s, op, now).leases == s.leases
  {
    hide BumpReached, IndexOf, ExpireFrom, ApplyEvents, CheckEvents, CheckReports, PutReports, Identities, PruneRemoved;
    hide SourceMapStatus, UploadSourceMap, CompleteSourceMaps;
    if op.OpExpire? { ExpireManaged(s, now, 0, ServiceKey(0, 0)); }
    if op.OpIngest? {
      var pruned := s.(removed := PruneRemoved(s.removed, now));
      var accepted := CheckEvents(pruned, op.batch, op.batch.events);
      if accepted.Ok? { EventsManaged(pruned, op.batch.target, accepted.value); }
    }
  }

  lemma LeaseStep(s: State, op: Op, now: Time)
    requires LeaseInv(s)
    ensures LeaseInv(Apply(s, op, now))
  {
    hide SourceMapStatus, UploadSourceMap, CompleteSourceMaps, SetOk;
    if op.OpClaim? { ClaimLease(s, op.key, op.uploader, now); }
    else if op.OpUpload? { UploadLease(s, op.key, op.uploader, op.path, op.content, op.valid, now); }
    else if op.OpComplete? { CompleteLease(s, op.key, op.uploader, now); }
    else { hide Apply; OthersKeepLeases(s, op, now); }
  }

  lemma {:induction false} RunKeepsLeases(states: seq<State>, ops: seq<Op>, times: seq<Time>, k: nat)
    requires Run(states, ops, times) && k < |states|
    ensures LeaseInv(states[k])
  {
    hide Apply;
    if k > 0 {
      RunKeepsLeases(states, ops, times, k - 1);
      LeaseStep(states[k - 1], ops[k - 1], times[k - 1]);
    }
  }

  /** A completed set holds maps of one agent only: the one that completed it. */
  lemma CompletedSetIsUnmixed(states: seq<State>, ops: seq<Op>, times: seq<Time>, k: nat, key: MapKey)
    requires Run(states, ops, times) && k < |states| && key in states[k].sets && states[k].sets[key].complete
    ensures states[k].sets[key].completedBy.Some?
    ensures forall e | e in states[k].sets[key].maps :: e.uploader == states[k].sets[key].completedBy.value
  {
    RunKeepsLeases(states, ops, times, k);
  }

  /** Step `m` grants the lease on `key` to `agent`. */
  ghost predicate GrantedAt(states: seq<State>, ops: seq<Op>, times: seq<Time>, m: nat, key: MapKey, agent: AgentId)
    requires Run(states, ops, times) && m < |ops|
  {
    ops[m] == OpClaim(key, agent) && Grants(states[m], key, agent, times[m])
  }

  lemma CompleteLeases(s: State, key: MapKey, uploader: AgentId, now: Time, other: MapKey)
    requires other in CompleteSourceMaps(s, key, uploader, now).0.leases
    ensures other in s.leases && s.leases[other] == CompleteSourceMaps(s, key, uploader, now).0.leases[other]
  {
    hide BumpReached, Evicted;
  }

  lemma ClaimLeases(s: State, key: MapKey, uploader: AgentId, now: Time, other: MapKey)
    requires other in SourceMapStatus(s, key, uploader, now).0.leases
    ensures var a := SourceMapStatus(s, key, uploader, now).0.leases[other].uploader;
      (other in s.leases && s.leases[other].uploader == a)
          || (other == key && a == uploader && Grants(s, key, uploader, now))
  {
  }

  lemma UploadLeases(s: State, key: MapKey, uploader: AgentId, path: Path, content: Content, valid: bool, now: Time,
                     other: MapKey)
    requires other in UploadSourceMap(s, key, uploader, path, content, valid, now).0.leases
    ensures other in s.leases
    ensures s.leases[other].uploader == UploadSourceMap(s, key, uploader, path, content, valid,
                                                        now).0.leases[other].uploader
  {
    hide PutMap;
  }

  lemma LeaseChange(s: State, op: Op, now: Time, key: MapKey)
    requires key in Apply(s, op, now).leases
    ensures var a := Apply(s, op, now).leases[key].uploader;
      (key in s.leases && s.leases[key].uploader == a) || (op == OpClaim(key, a) && Grants(s, key, a, now))
  {
    hide SourceMapStatus, UploadSourceMap, CompleteSourceMaps, Grants;
    hide CreateProbe, DeleteProbe, ExpireFrom, RegisterAgent, ReplaceInstances, IngestNative;
    if op.OpClaim? { ClaimLeases(s, op.key, op.uploader, now, key); }
    else if op.OpUpload? { UploadLeases(s, op.key, op.uploader, op.path, op.content, op.valid, now, key); }
    else if op.OpComplete? { CompleteLeases(s, op.key, op.uploader, now, key); }
    else { OthersKeepLeases(s, op, now); }
  }

  /** A lease held later was held before or granted in between. */
  lemma {:induction false} LeaseHasGrant(states: seq<State>, ops: seq<Op>, times: seq<Time>, i: nat, j: nat,
                                         key: MapKey)
    requires Run(states, ops, times) && i <= j < |states| && key in states[j].leases
    requires key in states[i].leases ==> states[i].leases[key].uploader != states[j].leases[key].uploader
    ensures exists m: nat | i <= m < j :: GrantedAt(states, ops, times, m, key, states[j].leases[key].uploader)
    decreases j
  {
    hide Apply, Grants;
    if i < j {
      LeaseChange(states[j - 1], ops[j - 1], times[j - 1], key);
      var a := states[j].leases[key].uploader;
      if key in states[j - 1].leases && states[j - 1].leases[key].uploader == a {
        LeaseHasGrant(states, ops, times, i, j - 1, key);
      } else {
        assert GrantedAt(states, ops, times, j - 1, key, a);
      }
    }
  }

  /** Fencing: once the lease went to `b`, nothing `a` uploads or completes is accepted before `a` claims again. */
  lemma TakeoverFences(states: seq<State>, ops: seq<Op>, times: seq<Time>, i: nat, j: nat, key: MapKey, a: AgentId,
                       b: AgentId)
    requires Run(states, ops, times) && i < j < |ops| && a != b
    requires GrantedAt(states, ops, times, i, key, b)
    requires HoldsLease(states[j], key, a, times[j])
    ensures exists m: nat | i < m < j :: GrantedAt(states, ops, times, m, key, a)
  {
    assert states[i + 1].leases[key].uploader == b;
    hide Apply;
    LeaseHasGrant(states, ops, times, i + 1, j, key);
  }

  // ---- Cursors ----

  lemma {:induction false} NativeSpan(states: seq<State>, ops: seq<Op>, times: seq<Time>, i: nat, j: nat,
                                      owner: AgentKey)
    requires Run(states, ops, times) && i <= j < |states|
    ensures NativeOk(states[i], states[j], owner)
    decreases j - i
  {
    hide Apply, View;
    if i < j {
      NativeSpan(states, ops, times, i, j - 1, owner);
      NativeStep(states[j - 1], ops[j - 1], times[j - 1], owner);
    }
  }

  lemma ViewsDecide(s: State, s': State, owner: AgentKey, allowed: Allowed)
    requires SameViews(s, s', owner)
    ensures FullAssignments(s, owner, allowed) == FullAssignments(s', owner, allowed)
  {
    hide Live, Ended;
    forall k: InstanceKey | k.owner == owner
      ensures k in s.instances <==> k in s'.instances
      ensures k in s.instances ==> View(s, k).value == View(s', k).value
    {
      assert View(s', k) == View(s, k);
    }
  }

  /** Native cursor: at equal versions an agent's full assignment list is the same. */
  lemma NativeCursorSound(states: seq<State>, ops: seq<Op>, times: seq<Time>, i: nat, j: nat, owner: AgentKey,
                          allowed: Allowed)
    requires Run(states, ops, times) && i <= j < |states|
    requires Version(states[i].nativeVersions, owner) == Version(states[j].nativeVersions, owner)
    ensures FullAssignments(states[i], owner, allowed) == FullAssignments(states[j], owner, allowed)
  {
    NativeSpan(states, ops, times, i, j, owner);
    ViewsDecide(states[i], states[j], owner, allowed);
  }

  /** So an "unchanged" reply loses nothing: what was fetched at that version is still the whole list. */
  lemma UnchangedReplyLosesNothing(states: seq<State>, ops: seq<Op>, times: seq<Time>, i: nat, j: nat,
                                   owner: AgentKey, allowed: Allowed, since: nat, first: AssignmentReply,
                                       second: AssignmentReply)
    requires Run(states, ops, times) && i < j < |ops|
    requires NativeAssignments(states[i], owner, since, allowed, times[i]) == (states[i + 1], Ok(first))
        && first.version != since
    requires NativeAssignments(states[j], owner, first.version, allowed, times[j]) == (states[j + 1], Ok(second))
    ensures second.version == first.version ==>
      second.assignments == map[] && first.assignments == FullAssignments(states[j + 1], owner, allowed)
  {
    hide ExpireFrom, FullAssignments, Apply;
    if second.version == first.version { NativeCursorSound(states, ops, times, i + 1, j + 1, owner, allowed); }
  }

  lemma {:induction false} ManagedSpan(states: seq<State>, ops: seq<Op>, times: seq<Time>, i: nat, j: nat,
                                       service: ServiceKey)
    requires Run(states, ops, times) && i <= j < |states|
    ensures ManagedOk(states[i], states[j], service)
    decreases j - i
  {
    hide Apply, Live, VisibleMaps;
    if i < j {
      ManagedSpan(states, ops, times, i, j - 1, service);
      RunKeepsLeases(states, ops, times, j - 1);
      LeasesUnleased(states[j - 1]);
      ManagedStep(states[j - 1], ops[j - 1], times[j - 1], service);
    }
  }

  lemma LeasesUnleased(s: State)
    requires LeaseInv(s)
    ensures CompleteUnleased(s)
  {
  }

  /** Managed cursor: at equal versions, polls for one commit return the same probes at the same locations. */
  lemma ManagedCursorSound(states: seq<State>, ops: seq<Op>, times: seq<Time>, i: nat, j: nat, service: ServiceKey,
                           commit: Option<Commit>, resolve: Resolver)
    requires Run(states, ops, times) && i <= j < |states|
    requires Version(states[i].versions, service) == Version(states[j].versions, service)
    ensures FullPoll(states[i], service, commit, resolve) == FullPoll(states[j], service, commit, resolve)
  {
    hide Live, VisibleMaps;
    ManagedSpan(states, ops, times, i, j, service);
  }

  // ---- Terminal statuses ----

  ghost predicate HasEnded(s: State, key: StatusKey) {
    key in s.statuses && EndsAssignment(s.statuses[key].status)
  }

  lemma {:induction false} EventsLatch(s: State, target: Target, events: seq<NativeEvent>, key: StatusKey)
    requires HasEnded(s, key)
    ensures HasEnded(ApplyEvents(s, target, events), key)
    decreases |events|
  {
    if events != [] { EventsLatch(ApplyEvent(s, target, events[0]), target, events[1..], key); }
  }

  lemma {:induction false} ExpireKeepsStatuses(s: State, now: Time, k: nat)
    requires k <= |s.probes|
    ensures ExpireFrom(s, now, k).statuses == s.statuses
    decreases |s.probes| - k
  {
    hide BumpReached;
    if k < |s.probes| {
      if Due(s.probes[k], now) { ExpireKeepsStatuses(ExpireAt(s, k), now, k + 1); }
      else { ExpireKeepsStatuses(s, now, k + 1); }
    }
  }

  lemma LatchStep(s: State, op: Op, now: Time, key: StatusKey)
    requires HasEnded(s, key)
    ensures HasEnded(Apply(s, op, now), key)
  {
    hide BumpReached, IndexOf, ExpireFrom, ApplyEvents, CheckEvents, CheckReports, PutReports, Identities,
        PruneRemoved, Evicted, PutMap;
    if op.OpExpire? { ExpireKeepsStatuses(s, now, 0); }
    if op.OpIngest? {
      var pruned := s.(removed := PruneRemoved(s.removed, now));
      var accepted := CheckEvents(pruned, op.batch, op.batch.events);
      if accepted.Ok? { EventsLatch(pruned, op.batch.target, accepted.value, key); }
    }
  }

  /** An ended assignment never comes back: its probe version stays off the list for that build. */
  lemma {:induction false} EndedForGood(states: seq<State>, ops: seq<Op>, times: seq<Time>, i: nat, j: nat,
                                        key: StatusKey)
    requires Run(states, ops, times) && i <= j < |states| && HasEnded(states[i], key)
    ensures HasEnded(states[j], key)
    ensures ProbeRef(key.probe, key.version) in Ended(states[j].statuses, key.target)
    decreases j
  {
    hide Apply;
    if i < j {
      EndedForGood(states, ops, times, i, j - 1, key);
      LatchStep(states[j - 1], ops[j - 1], times[j - 1], key);
    }
  }
}

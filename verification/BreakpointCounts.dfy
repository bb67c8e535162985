/**
 What holds of hits and exhausted definitions in every run, including those in which a stale
 uninstall or an early rearm has broken the sharing invariant. None of it depends on the registry's
 claims or on V8.
 */
module BreakpointCounts {
  import opened BreakpointSharing
  import opened BreakpointSafety
  import opened BreakpointSteps
  import opened BreakpointRuns

  // ---- The invariant ----

  /** Probes are filed under their own ids, and none is both installed and being armed. */
  ghost predicate Apart(installed: map<ProbeId, Installed>, tasks: map<ProbeId, Task>) {
    && (forall p | p in installed :: installed[p].def.id == p)
    && (forall p | p in tasks :: tasks[p].def.id == p)
    && tasks.Keys !! installed.Keys
  }

  /** The registry's references lead to objects that exist. */
  ghost predicate Grounded(r: Registry, tasks: map<ProbeId, Task>) {
    && RegistryShape(r)
    && (forall k | k in r.byLocation :: r.byLocation[k] in r.holders)
    && (forall p | p in tasks && tasks[p].Claimed? :: tasks[p].holder in r.holders)
  }

  ghost predicate Sound(s: State) {
    && Apart(s.installed, s.tasks)
    && Grounded(s.reg, s.tasks)
    && HitsOk(s.counters, s.captures)
    && LiveOk(s.installed, s.counters)
    && SnapshotOk(s.reconcile, s.counters)
    && ExhaustedOk(s.exhausted, s.installed, s.tasks)
  }

  // ---- Arming ----

  /** Setting the task of a probe that is not installed, to a definition that is not exhausted. */
  lemma TaskSound(s: State, s': State, t: Task)
    requires Sound(s) && t.def.id !in s.installed
    requires t.def.id in s.exhausted ==> s.exhausted[t.def.id] != t.def
    requires s'.tasks == s.tasks[t.def.id := t] && Grounded(s'.reg, s'.tasks)
    requires s'.installed == s.installed && s'.counters == s.counters && s'.captures == s.captures
    requires s'.reconcile == s.reconcile && s'.exhausted == s.exhausted
    ensures Sound(s')
  {
    hide HitsOk, LiveOk, SnapshotOk, Grounded;
  }

  lemma DropTaskSound(s: State, s': State, p: ProbeId)
    requires Sound(s) && s'.tasks == s.tasks - {p} && s'.reg == s.reg
    requires s'.installed == s.installed && s'.counters == s.counters && s'.captures == s.captures
    requires s'.reconcile == s.reconcile && s'.exhausted == s.exhausted
    ensures Sound(s')
  {
    hide HitsOk, LiveOk, SnapshotOk;
  }

  lemma AddClaimGrounded(r: Registry, tasks: map<ProbeId, Task>, h: HolderId, def: Definition)
    requires Grounded(r, tasks) && h in r.holders
    ensures Grounded(AddClaim(r, h, def.id), tasks[def.id := Claimed(def, h)])
  {
  }

  lemma OtherGrounded(r: Registry, tasks: map<ProbeId, Task>, t: Task)
    requires Grounded(r, tasks) && !t.Claimed?
    ensures Grounded(r, tasks[t.def.id := t])
  {
  }

  lemma RegisterGrounded(r: Registry, tasks: map<ProbeId, Task>, h: HolderId, bp: BreakpointId, def: Definition,
                         key: Key, resolved: Option<Key>)
    requires Grounded(r, tasks) && h !in r.holders
    ensures Grounded(Register(r, h, bp, def.id, key, resolved), tasks[def.id := Claimed(def, h)])
  {
  }

  /** `def` may get a task: its probe is not installed, and `def` is not exhausted. */
  ghost predicate Free(s: State, def: Definition) {
    def.id !in s.installed && (def.id in s.exhausted ==> s.exhausted[def.id] != def)
  }

  lemma TaskIsFree(s: State, p: ProbeId)
    requires Sound(s) && p in s.tasks
    ensures Free(s, s.tasks[p].def) && s.tasks[p].def.id == p
  {
  }

  lemma ClaimSound(s: State, def: Definition, key: Key)
    requires Sound(s) && Free(s, def) && key in s.reg.byLocation && s.reg.byLocation[key] in s.reg.holders
    ensures Sound(ClaimExisting(s, def, key))
  {
    AddClaimGrounded(s.reg, s.tasks, s.reg.byLocation[key], def);
    hide Grounded, AddClaim, HitsOk, LiveOk, SnapshotOk, ExhaustedOk, Apart;
    TaskSound(s, ClaimExisting(s, def, key), Claimed(def, s.reg.byLocation[key]));
  }

  lemma PostSound(s: State, def: Definition, key: Key)
    requires Sound(s) && Free(s, def)
    ensures Sound(Post(s, def, key)) && Sound(s.(tasks := s.tasks[def.id := Waiting(def, key)]))
  {
    OtherGrounded(s.reg, s.tasks, Posted(def, key));
    OtherGrounded(s.reg, s.tasks, Waiting(def, key));
    hide Grounded, HitsOk, LiveOk, SnapshotOk, ExhaustedOk, Apart;
    TaskSound(s, Post(s, def, key), Posted(def, key));
    TaskSound(s, s.(tasks := s.tasks[def.id := Waiting(def, key)]), Waiting(def, key));
  }

  lemma StartArmSound(s: State, def: Definition, key: Key)
    requires Sound(s) && Enabled(s, StartArm(def, key))
    ensures Sound(DoStartArm(s, def, key))
  {
    hide Sound, ClaimExisting, Post;
    if MayArm(s, def) {
      if key in s.reg.byLocation { ClaimSound(s, def, key); } else { PostSound(s, def, key); }
    }
  }

  lemma ResumeWaiterSound(s: State, p: ProbeId)
    requires Sound(s) && Enabled(s, ResumeWaiter(p))
    ensures Sound(DoResumeWaiter(s, p))
  {
    hide Sound, ClaimExisting, Post;
    TaskIsFree(s, p);
    var t := s.tasks[p];
    if t.key in s.reg.byLocation { ClaimSound(s, t.def, t.key); } else { PostSound(s, t.def, t.key); }
  }

  lemma V8SetSound(s: State, p: ProbeId, result: SetResult)
    requires Sound(s) && Enabled(s, V8Set(p, result))
    ensures Sound(DoV8Set(s, p, result))
  {
    TaskIsFree(s, p);
    var t := Answered(s.tasks[p].def, s.tasks[p].key, result);
    OtherGrounded(s.reg, s.tasks, t);
    hide Grounded, HitsOk, LiveOk, SnapshotOk, ExhaustedOk, Apart, Enabled;
    TaskSound(s, DoV8Set(s, p, result), t);
  }

  lemma RefusedSound(s: State, p: ProbeId, h: HolderId)
    requires Sound(s) && p in s.tasks && s.tasks[p].Answered? && s.tasks[p].result.Refused?
    ensures Sound(DoDeliverSet(s, p, h))
  {
    hide Grounded, HitsOk, LiveOk, SnapshotOk, ExhaustedOk, Apart;
    DropTaskSound(s, DoDeliverSet(s, p, h), p);
  }

  lemma NoLocationSound(s: State, p: ProbeId, h: HolderId)
    requires Sound(s) && p in s.tasks && s.tasks[p].Answered? && s.tasks[p].result.NoLocation?
    ensures Sound(DoDeliverSet(s, p, h))
  {
    TaskIsFree(s, p);
    var t := s.tasks[p];
    OtherGrounded(s.reg, s.tasks, Clearing(t.def, t.key));
    hide Grounded, HitsOk, LiveOk, SnapshotOk, ExhaustedOk, Apart;
    TaskSound(s, DoDeliverSet(s, p, h), Clearing(t.def, t.key));
  }

  lemma ArmedSound(s: State, p: ProbeId, h: HolderId)
    requires Sound(s) && p in s.tasks && s.tasks[p].Answered? && s.tasks[p].result.Armed? && h !in s.reg.holders
    ensures Sound(DoDeliverSet(s, p, h))
  {
    TaskIsFree(s, p);
    var t := s.tasks[p];
    RegisterGrounded(s.reg, s.tasks, h, t.result.bp, t.def, t.key, t.result.resolved);
    hide Grounded, HitsOk, LiveOk, SnapshotOk, ExhaustedOk, Apart, Register;
    TaskSound(s, DoDeliverSet(s, p, h), Claimed(t.def, h));
  }

  lemma DeliverSetSound(s: State, p: ProbeId, h: HolderId)
    requires Sound(s) && Enabled(s, DeliverSet(p, h))
    ensures Sound(DoDeliverSet(s, p, h))
  {
    hide Sound, DoDeliverSet;
    match s.tasks[p].result
    case Refused => RefusedSound(s, p, h);
    case NoLocation(_) => NoLocationSound(s, p, h);
    case Armed(_, _) => ArmedSound(s, p, h);
  }

  /** Dropping a claim leaves every reference where it was. */
  lemma ReleaseGrounded(r: Registry, tasks: map<ProbeId, Task>, h: HolderId, p: ProbeId)
    requires Grounded(r, tasks) && h in r.holders
    ensures Grounded(Release(r, h, p), tasks)
  {
  }

  lemma ReleaseForGrounded(r: Registry, tasks: map<ProbeId, Task>, bp: BreakpointId, p: ProbeId)
    requires Grounded(r, tasks)
    ensures Grounded(ReleaseFor(r, bp, p), tasks)
  {
    if bp in r.byBreakpoint { ReleaseGrounded(r, tasks, r.byBreakpoint[bp], p); }
  }

  lemma MoveTask(installed: map<ProbeId, Installed>, tasks: map<ProbeId, Task>, inst: Installed)
    requires Apart(installed, tasks)
    ensures Apart(installed[inst.def.id := inst], tasks - {inst.def.id})
  {
  }

  lemma InstallSound(s: State, p: ProbeId, i: InstallId)
    requires Sound(s) && p in s.tasks && s.tasks[p].Claimed? && s.tasks[p].holder in s.reg.holders && i !in s.counters
    requires RegistryShape(s.reg) && StillWanted(s, s.tasks[p].def)
    ensures Sound(DoFinishArm(s, p, i))
  {
    TaskIsFree(s, p);
    var t := s.tasks[p];
    var inst := Installed(i, t.def, s.reg.holders[t.holder].bp);
    InstallHits(s.counters, s.captures, i, t.def);
    MoveTask(s.installed, s.tasks, inst);
    assert Grounded(s.reg, s.tasks - {p});
    hide HitsOk, RegistryShape, Apart, Grounded;
    var s' := DoFinishArm(s, p, i);
    assert s' == s.(tasks := s.tasks - {p}, installed := s.installed[p := inst],
                    counters := s.counters[i := Counters(t.def, true, 0, 0, 0)]);
  }

  lemma AbortSound(s: State, p: ProbeId, i: InstallId)
    requires Sound(s) && p in s.tasks && s.tasks[p].Claimed? && s.tasks[p].holder in s.reg.holders
    requires RegistryShape(s.reg) && !StillWanted(s, s.tasks[p].def)
    ensures Sound(DoFinishArm(s, p, i))
  {
    TaskIsFree(s, p);
    var t := s.tasks[p];
    ReleaseGrounded(s.reg, s.tasks, t.holder, p);
    OtherGrounded(Release(s.reg, t.holder, p), s.tasks, Draining(t.def));
    hide Grounded, HitsOk, LiveOk, SnapshotOk, ExhaustedOk, Apart, Release, Freed, RegistryShape;
    TaskSound(s, DoFinishArm(s, p, i), Draining(t.def));
  }

  lemma FinishArmSound(s: State, p: ProbeId, i: InstallId)
    requires Sound(s) && Enabled(s, FinishArm(p, i))
    ensures Sound(DoFinishArm(s, p, i))
  {
    hide Sound, DoFinishArm;
    if StillWanted(s, s.tasks[p].def) { InstallSound(s, p, i); } else { AbortSound(s, p, i); }
  }

  // ---- Leaving ----

  lemma LeaveApart(installed: map<ProbeId, Installed>, tasks: map<ProbeId, Task>, p: ProbeId)
    requires Apart(installed, tasks)
    ensures Apart(installed - {p}, tasks)
  {
  }

  /** An uninstall, stale or not: nothing but the registry and V8 can go out of step. */
  lemma UninstallSound(s: State)
    requires Sound(s) && Enabled(s, ReconcileUninstall)
    ensures Sound(DoReconcileUninstall(s))
  {
    var inst := s.reconcile.todo[0];
    var p := inst.def.id;
    assert inst in s.reconcile.todo;
    assert RegistryShape(s.reg);
    ReleaseForGrounded(s.reg, s.tasks, inst.bp, p);
    DeactivateHits(s.counters, s.captures, {inst.i});
    DeactivateSnapshot(s.reconcile, s.counters, {inst.i});
    LeaveApart(s.installed, s.tasks, p);
    LeaveLive(s.installed, s.counters, inst.i, p);
    hide HitsOk, LiveOk, Apart, Grounded, ReleaseFor, FreedFor, Deactivate, RegistryShape, Enabled;
  }

  lemma RetireSound(s: State, i: InstallId)
    requires Sound(s) && Current(s, i) && RegistryShape(s.reg)
    ensures Sound(Retire(s, i))
  {
    var p := s.counters[i].def.id;
    var inst := s.installed[p];
    ReleaseForGrounded(s.reg, s.tasks, inst.bp, p);
    DeactivateHits(s.counters, s.captures, {i});
    DeactivateSnapshot(s.reconcile, s.counters, {i});
    LeaveApart(s.installed, s.tasks, p);
    LeaveLive(s.installed, s.counters, i, p);
    assert p !in s.tasks;
    hide HitsOk, LiveOk, SnapshotOk, Apart, Grounded, ReleaseFor, FreedFor, Deactivate, RegistryShape;
  }

  lemma BumpSound(s: State, i: InstallId)
    requires Sound(s) && Current(s, i) && HasRoom(s.counters[i])
    ensures Sound(s.(counters := s.counters[i := Bumped(s.counters[i])]))
  {
    hide Apart, Grounded, ExhaustedOk;
  }

  lemma CountHitSound(s: State, i: InstallId)
    requires Sound(s) && Current(s, i) && HasRoom(s.counters[i]) && RegistryShape(s.reg)
    ensures Sound(CountHit(s, i))
    ensures forall j | j != i && Current(CountHit(s, i), j) ::
      Current(s, j) && CountHit(s, i).counters[j] == s.counters[j]
  {
    hide Sound, ReleaseFor, FreedFor;
    BumpSound(s, i);
    var counted := s.(counters := s.counters[i := Bumped(s.counters[i])]);
    if counted.counters[i].hits >= counted.counters[i].def.hitLimit { RetireSound(counted, i); }
  }

  lemma {:induction false} CountAllSound(s: State, order: seq<InstallId>, matching: set<InstallId>)
    requires Sound(s) && RegistryShape(s.reg)
    requires forall j, k | 0 <= j < k < |order| :: order[j] != order[k]
    requires forall i | i in order && i in matching && Current(s, i) :: HasRoom(s.counters[i])
    ensures Sound(CountAll(s, order, matching))
    decreases |order|
  {
    hide Sound, CountHit;
    if order != [] {
      var i := order[0];
      if i in matching && Current(s, i) {
        CountHitSound(s, i);
        assert forall j | j in order[1..] :: j in order && j != i;
        CountAllSound(CountHit(s, i), order[1..], matching);
      } else {
        CountAllSound(s, order[1..], matching);
      }
    }
  }

  lemma HandlePausedSound(s: State, hit: set<BreakpointId>, token: bool, order: seq<InstallId>, c: CaptureId)
    requires Sound(s) && Enabled(s, HandlePaused(hit, token, order, c))
    ensures Sound(DoHandlePaused(s, hit, token, order, c))
  {
    hide HitsOk, ExhaustedOk, Apart, Grounded, Candidates;
    var candidates := Candidates(s, hit);
    forall i | i in candidates ensures i in s.counters && s.counters[i].active && HasRoom(s.counters[i]) {
      CandidateReady(s, hit, i);
    }
    if candidates != {} {
      if token { AddPendingHits(s.counters, s.captures, candidates, c, s.epoch); }
      else { CountAllSound(s, order, Counted(s, candidates)); }
    }
  }

  lemma SettledSound(s: State, c: CaptureId)
    requires Sound(s) && c in s.captures
    ensures Sound(Settled(s, c))
    ensures forall i | i in s.captures[c].candidates && i in Settled(s, c).counters
        && Settled(s, c).counters[i].active ::
      HasRoom(Settled(s, c).counters[i])
  {
    hide HitsOk, ExhaustedOk, Apart, Grounded;
    ReleaseHits(s.counters, s.captures, c);
  }

  lemma ProcessCaptureSound(s: State, c: CaptureId, failed: bool, order: seq<InstallId>, matching: set<InstallId>)
    requires Sound(s) && Enabled(s, ProcessCapture(c, failed, order, matching))
    ensures Sound(DoProcessCapture(s, c, failed, order, matching))
  {
    hide Sound, CountAll, ReleasePending;
    SettledSound(s, c);
    if !(s.stopped || s.suspended || s.inspectorFailed || s.captures[c].epoch != s.epoch || failed) {
      CountAllSound(Settled(s, c), order, matching);
    }
  }

  // ---- The rest ----

  lemma ReconcileBeginSound(s: State, next: seq<Definition>, snapshot: seq<Installed>)
    requires Sound(s) && Enabled(s, ReconcileBegin(next, snapshot))
    ensures Sound(DoReconcileBegin(s, next, snapshot))
  {
    hide HitsOk, ExhaustedOk, Apart, Grounded, Unwanted;
    forall inst | inst in Unwanted(NextMap(next), snapshot)
      ensures inst.i in s.counters && s.counters[inst.i].def == inst.def
    {
      UnwantedFromSnapshot(NextMap(next), snapshot, inst);
      var p :| p in s.installed && s.installed[p] == inst;
    }
  }

  lemma ReconcileCommitSound(s: State)
    requires Sound(s) && Enabled(s, ReconcileCommit)
    ensures Sound(DoReconcileCommit(s))
  {
    hide HitsOk, LiveOk, Apart, Grounded, NextMap;
  }

  lemma ClearGrounded(r: Registry, tasks: map<ProbeId, Task>)
    requires Grounded(r, tasks)
    ensures Grounded(ClearRegistry(r), tasks)
  {
  }

  lemma ClearedSound(s: State)
    requires Sound(s)
    ensures Sound(Cleared(s))
  {
    var ids := InstallIds(s.installed);
    ClearGrounded(s.reg, s.tasks);
    DeactivateHits(s.counters, s.captures, ids);
    DeactivateSnapshot(s.reconcile, s.counters, ids);
    hide HitsOk, SnapshotOk, Grounded, ClearRegistry, Deactivate, InstallIds;
  }

  /** Nothing that `Sound` speaks of differs. */
  ghost predicate SameParts(s: State, s': State) {
    && s'.installed == s.installed && s'.tasks == s.tasks && s'.reg == s.reg && s'.counters == s.counters
    && s'.captures == s.captures && s'.reconcile == s.reconcile && s'.exhausted == s.exhausted
  }

  lemma SamePartsSound(s: State, s': State)
    requires Sound(s) && SameParts(s, s')
    ensures Sound(s')
  {
  }

  lemma SuspensionSound(s: State)
    requires Sound(s)
    ensures Sound(DoSuspendAll(s)) && Sound(DoStop(s)) && Sound(DoRearm(s))
  {
    ClearedSound(s);
    hide Sound, Cleared;
    SamePartsSound(Cleared(s), Cleared(s).(suspended := true, unposted := s.unposted + s.reg.byBreakpoint.Keys));
    SamePartsSound(Cleared(s), Cleared(s).(stopped := true, desired := map[],
                                           removing := s.removing + s.reg.byBreakpoint.Keys));
    SamePartsSound(s, s.(suspended := false));
  }

  lemma ResumeFailedSound(s: State, lost: Option<CaptureId>)
    requires Sound(s) && (lost.Some? ==> lost.value in s.captures)
    ensures Sound(DoResumeFailed(s, lost))
  {
    hide Sound, Cleared, Settled;
    if lost.Some? { SettledSound(s, lost.value); }
    var released := if lost.None? then s else Settled(s, lost.value);
    ClearedSound(released);
    SamePartsSound(Cleared(released), Cleared(released).(inspectorFailed := true, suspended := true,
                                                         orphans := s.orphans + s.reg.byBreakpoint.Keys));
  }

  lemma EndDrainSound(s: State, p: ProbeId)
    requires Sound(s) && p in s.tasks
    ensures Sound(DoEndDrain(s, p))
  {
    hide HitsOk, LiveOk, SnapshotOk, ExhaustedOk, Apart, Grounded;
    DropTaskSound(s, DoEndDrain(s, p), p);
  }

  lemma RemoveSound(s: State, b: BreakpointId, ok: bool)
    requires Sound(s)
    ensures Sound(DoV8Remove(s, b, ok)) && Sound(DoPostRemove(s, b))
  {
    hide Sound;
    SamePartsSound(s, DoV8Remove(s, b, ok));
    SamePartsSound(s, DoPostRemove(s, b));
  }

  /** Every step, whatever it does to the registry's claims. */
  lemma StepKeepsSound(s: State, a: Action)
    requires Sound(s) && Enabled(s, a)
    ensures Sound(Apply(s, a))
  {
    hide Sound, DoStartArm, DoResumeWaiter, DoV8Set, DoDeliverSet, DoFinishArm, DoReconcileBegin, DoReconcileUninstall;
    hide DoReconcileCommit, DoSuspendAll, DoStop, DoRearm, DoHandlePaused, DoProcessCapture, DoResumeFailed;
    hide DoEndDrain, DoV8Remove, DoPostRemove;
    match a
    case StartArm(def, key) => StartArmSound(s, def, key);
    case ResumeWaiter(p) => ResumeWaiterSound(s, p);
    case V8Set(p, result) => V8SetSound(s, p, result);
    case DeliverSet(p, h) => DeliverSetSound(s, p, h);
    case FinishArm(p, i) => FinishArmSound(s, p, i);
    case EndDrain(p) => EndDrainSound(s, p);
    case V8Remove(b, ok) => RemoveSound(s, b, ok);
    case ReconcileBegin(next, snapshot) => ReconcileBeginSound(s, next, snapshot);
    case ReconcileUninstall => UninstallSound(s);
    case ReconcileCommit => ReconcileCommitSound(s);
    case SuspendAll => SuspensionSound(s);
    case PostSuspendedRemove(b) => RemoveSound(s, b, true);
    case Rearm => SuspensionSound(s);
    case Stop => SuspensionSound(s);
    case HandlePaused(hit, token, order, c) => HandlePausedSound(s, hit, token, order, c);
    case ProcessCapture(c, failed, order, matching) => ProcessCaptureSound(s, c, failed, order, matching);
    case ResumeFailed(lost) => ResumeFailedSound(s, lost);
  }

  lemma {:induction false} RunKeepsSound(states: seq<State>, actions: seq<Action>, k: nat)
    requires Run(states, actions) && k < |states|
    ensures Sound(states[k])
    decreases k
  {
    hide Apply, Enabled;
    if k > 0 {
      RunKeepsSound(states, actions, k - 1);
      hide Sound;
      StepKeepsSound(states[k - 1], actions[k - 1]);
    }
  }

  /** No run gets stuck for want of an object: what a step looks up in the registry is always there. */
  lemma LookupsNeverFail(states: seq<State>, actions: seq<Action>, k: nat)
    requires Run(states, actions) && k < |states|
    ensures var s := states[k];
      && RegistryShape(s.reg)
      && (forall key | key in s.reg.byLocation :: s.reg.byLocation[key] in s.reg.holders)
      && (forall p | p in s.tasks && s.tasks[p].Claimed? :: s.tasks[p].holder in s.reg.holders)
  {
    RunKeepsSound(states, actions, k);
  }

  /** No installation outruns its hit limit, counting captures still in flight. */
  lemma HitLimitHolds(states: seq<State>, actions: seq<Action>, k: nat, i: InstallId)
    requires Run(states, actions) && k < |states| && i in states[k].counters
    ensures var c := states[k].counters[i];
      && c.hits + c.pending <= c.def.hitLimit
      && c.emitted <= c.def.hitLimit
      && (c.active ==> c.pending == |InFlight(states[k].captures, i)|)
  {
    RunKeepsSound(states, actions, k);
  }

  /** A definition that used up its hits is not installed and not being armed. */
  lemma ExhaustedStaysOut(states: seq<State>, actions: seq<Action>, k: nat, p: ProbeId)
    requires Run(states, actions) && k < |states| && p in states[k].exhausted
    ensures p in states[k].installed ==> states[k].installed[p].def != states[k].exhausted[p]
    ensures p in states[k].tasks ==> states[k].tasks[p].def != states[k].exhausted[p]
  {
    RunKeepsSound(states, actions, k);
  }

  // ---- How long a definition stays exhausted ----

  lemma {:induction false} CountAllExhausted(s: State, order: seq<InstallId>, matching: set<InstallId>, p: ProbeId)
    requires RegistryShape(s.reg) && p in s.exhausted && p !in s.installed
    ensures var s' := CountAll(s, order, matching); p in s'.exhausted && s'.exhausted[p] == s.exhausted[p]
    decreases |order|
  {
    if order != [] {
      if order[0] in matching && Current(s, order[0]) {
        CountHitExhausted(s, order[0], p);
        CountAllExhausted(CountHit(s, order[0]), order[1..], matching, p);
      } else {
        CountAllExhausted(s, order[1..], matching, p);
      }
    }
  }

  lemma CountHitExhausted(s: State, i: InstallId, p: ProbeId)
    requires RegistryShape(s.reg) && Current(s, i) && p in s.exhausted && p !in s.installed
    ensures var s' := CountHit(s, i); p in s'.exhausted && s'.exhausted[p] == s.exhausted[p] && p !in s'.installed
  {
    hide RegistryShape, ReleaseFor, FreedFor, Deactivate;
  }

  lemma HitKeepsExhausted(s: State, a: Action, p: ProbeId)
    requires Enabled(s, a) && (a.HandlePaused? || a.ProcessCapture?)
    requires p in s.exhausted && p !in s.installed
    ensures p in Apply(s, a).exhausted && Apply(s, a).exhausted[p] == s.exhausted[p]
  {
    hide CountAll, RegistryShape, Candidates, Counted, Enumerates, AddPending, ReleasePending;
    if a.HandlePaused? { CountAllExhausted(s, a.order, Counted(s, Candidates(s, a.hit)), p); }
    else { CountAllExhausted(Settled(s, a.c), a.order, a.matching, p); }
  }

  /** Nothing but a reconcile that wants something else, or another definition of the probe, ends it. */
  lemma StepKeepsExhausted(s: State, a: Action, p: ProbeId)
    requires Enabled(s, a) && p in s.exhausted && p !in s.installed
    requires a.ReconcileCommit? && s.reconcile.Removing? ==>
      Wanted(NextMap(s.reconcile.next), s.exhausted[p]) && s.exhausted[p].id == p
    ensures p in Apply(s, a).exhausted && Apply(s, a).exhausted[p] == s.exhausted[p]
  {
    hide DoReconcileCommit, DoHandlePaused, DoProcessCapture, DoReconcileBegin, DoReconcileUninstall, DoV8Set;
    hide DoSuspendAll, DoStop, DoRearm, DoResumeFailed, Enumerates, Candidates, Counted, NextMap, RegistryShape;
    hide DoStartArm, DoResumeWaiter, DoDeliverSet, DoFinishArm;
    if a.HandlePaused? || a.ProcessCapture? { HitKeepsExhausted(s, a, p); }
    else if a.StartArm? || a.ResumeWaiter? || a.DeliverSet? || a.FinishArm? { ArmKeepsExhausted(s, a); }
    else if a.ReconcileCommit? { CommitKeepsExhausted(s, p); }
    else if a.V8Set? || a.EndDrain? || a.V8Remove? || a.PostSuspendedRemove? { AnswerKeepsExhausted(s, a); }
    else { OtherKeepsExhausted(s, a); }
  }

  lemma AnswerKeepsExhausted(s: State, a: Action)
    requires Enabled(s, a) && (a.V8Set? || a.EndDrain? || a.V8Remove? || a.PostSuspendedRemove?)
    ensures Apply(s, a).exhausted == s.exhausted
  {
    hide DoV8Set, DoEndDrain, DoV8Remove, DoPostRemove, RegistryShape, Enumerates, Candidates, Counted;
  }

  lemma OtherKeepsExhausted(s: State, a: Action)
    requires Enabled(s, a)
    requires a.ReconcileBegin? || a.ReconcileUninstall? || a.SuspendAll? || a.Rearm? || a.Stop? || a.ResumeFailed?
    ensures Apply(s, a).exhausted == s.exhausted
  {
    hide DoReconcileBegin, DoReconcileUninstall, DoSuspendAll, DoStop, DoRearm, DoResumeFailed;
    hide Enumerates, Candidates, Counted, RegistryShape;
  }

  lemma CommitKeepsExhausted(s: State, p: ProbeId)
    requires s.reconcile.Removing? && s.reconcile.todo == [] && p in s.exhausted
    requires Wanted(NextMap(s.reconcile.next), s.exhausted[p]) && s.exhausted[p].id == p
    ensures p in DoReconcileCommit(s).exhausted && DoReconcileCommit(s).exhausted[p] == s.exhausted[p]
  {
    hide NextMap;
  }

  lemma ArmKeepsExhausted(s: State, a: Action)
    requires Enabled(s, a) && (a.StartArm? || a.ResumeWaiter? || a.DeliverSet? || a.FinishArm?)
    ensures Apply(s, a).exhausted == s.exhausted
  {
    hide DoStartArm, DoResumeWaiter, DoDeliverSet, DoFinishArm, RegistryShape, Enumerates, Candidates, Counted;
  }

  /** `def` used up its hits, nothing is installed for its probe, and nothing else is desired for it. */
  ghost predicate Spent(s: State, def: Definition) {
    && def.id in s.exhausted && s.exhausted[def.id] == def && def.id !in s.installed
    && (def.id in s.desired ==> s.desired[def.id] == def)
  }

  /** Only an install brings a probe in, and only a commit makes anything desired. */
  lemma StepNarrows(s: State, a: Action)
    requires Enabled(s, a) && !a.FinishArm? && !a.ReconcileCommit?
    ensures Narrows(s, Apply(s, a))
  {
    hide Narrows, DoStartArm, DoResumeWaiter, DoV8Set, DoDeliverSet, DoFinishArm, DoReconcileBegin,
        DoReconcileUninstall;
    hide DoReconcileCommit, DoSuspendAll, DoStop, DoRearm, DoHandlePaused, DoProcessCapture, DoResumeFailed;
    hide DoEndDrain, DoV8Remove, DoPostRemove, RegistryShape, Enumerates, Candidates, Counted;
  }

  /** From `i` to `j` every reconcile that commits still wants `def`. */
  ghost predicate StaysWanted(states: seq<State>, actions: seq<Action>, i: nat, j: nat, def: Definition)
    requires i <= j <= |actions| < |states|
  {
    forall k | i <= k < j ::
      actions[k].ReconcileCommit? && states[k].reconcile.Removing? ==> Wanted(NextMap(states[k].reconcile.next), def)
  }

  /** A definition that used up its hits is never armed again while it is neither changed nor removed. */
  lemma {:induction false} ExhaustedNeverRearms(states: seq<State>, actions: seq<Action>, i: nat, j: nat,
                                                def: Definition)
    requires Run(states, actions) && i <= j < |states| && StaysWanted(states, actions, i, j, def)
    requires Spent(states[i], def)
    ensures Spent(states[j], def)
    ensures def.id in states[j].tasks ==> states[j].tasks[def.id].def != def
    decreases j - i
  {
    hide Apply, Enabled;
    if i < j {
      ExhaustedNeverRearms(states, actions, i, j - 1, def);
      RunKeepsSound(states, actions, j - 1);
      SpentStep(states[j - 1], actions[j - 1], def);
    }
    ExhaustedStaysOut(states, actions, j, def.id);
  }

  lemma SpentStep(s: State, a: Action, def: Definition)
    requires Sound(s) && Enabled(s, a) && Spent(s, def)
    requires a.ReconcileCommit? && s.reconcile.Removing? ==> Wanted(NextMap(s.reconcile.next), def)
    ensures Spent(Apply(s, a), def)
  {
    StepKeepsExhausted(s, a, def.id);
    if a.FinishArm? {
      TaskIsFree(s, a.p);
      hide Sound, DoFinishArm, RegistryShape;
    } else if a.ReconcileCommit? {
      hide Sound, NextMap;
    } else {
      StepNarrows(s, a);
      hide Apply, Sound;
    }
  }
}

/**
 A leaked claim stays: nothing the manager does removes the breakpoint, short of arming that probe
 again or clearing the whole registry.
 */
module BreakpointLeakLasts {
  import opened BreakpointSharing
  import opened BreakpointSafety
  import opened BreakpointRuns
  import opened BreakpointCounts

  /** Breakpoint `b` is registered and counts a claim of probe `p`. */
  ghost predicate Keeps(r: Registry, b: BreakpointId, p: ProbeId) {
    b in r.byBreakpoint && r.byBreakpoint[b] in r.holders && p in r.holders[r.byBreakpoint[b]].claims
  }

  /** Probe `p` is neither installed nor being armed, nor still to be uninstalled. */
  ghost predicate Out(installed: map<ProbeId, Installed>, tasks: map<ProbeId, Task>, reconcile: Reconcile, p: ProbeId) {
    && p !in installed && p !in tasks
    && (reconcile.Removing? ==> forall t | t in reconcile.todo :: t.def.id != p)
  }

  /** V8 has `b` armed, and no command or answer about it is under way. */
  ghost predicate LeftArmed(s: State, b: BreakpointId) {
    && b in s.armed && b !in s.removing && b !in s.unposted
    && forall q | q in s.tasks && Holds(s.tasks[q]) :: s.tasks[q].result.bp != b
  }

  ghost predicate Leaked(s: State, b: BreakpointId, p: ProbeId) {
    Keeps(s.reg, b, p) && Out(s.installed, s.tasks, s.reconcile, p) && LeftArmed(s, b)
  }

  // ---- The registry ----

  lemma ReleaseKeeps(r: Registry, h: HolderId, q: ProbeId, b: BreakpointId, p: ProbeId)
    requires RegistryShape(r) && h in r.holders && q != p && Keeps(r, b, p)
    ensures Keeps(Release(r, h, q), b, p) && b !in Freed(r, h, q)
  {
  }

  lemma ReleaseForKeeps(r: Registry, bp: BreakpointId, q: ProbeId, b: BreakpointId, p: ProbeId)
    requires RegistryShape(r) && q != p && Keeps(r, b, p)
    ensures Keeps(ReleaseFor(r, bp, q), b, p) && b !in FreedFor(r, bp, q)
  {
    if bp in r.byBreakpoint { ReleaseKeeps(r, r.byBreakpoint[bp], q, b, p); }
  }

  lemma RegisterKeeps(r: Registry, h: HolderId, bp: BreakpointId, q: ProbeId, key: Key, resolved: Option<Key>,
                      b: BreakpointId, p: ProbeId)
    requires h !in r.holders && bp != b && Keeps(r, b, p)
    ensures Keeps(Register(r, h, bp, q, key, resolved), b, p)
  {
  }

  lemma AddClaimKeeps(r: Registry, h: HolderId, q: ProbeId, b: BreakpointId, p: ProbeId)
    requires h in r.holders && Keeps(r, b, p)
    ensures Keeps(AddClaim(r, h, q), b, p)
  {
  }

  // ---- Steps ----

  /** A task of another probe, answered about another breakpoint if at all. */
  ghost predicate Harmless(t: Task, b: BreakpointId, p: ProbeId) {
    t.def.id != p && (Holds(t) ==> t.result.bp != b)
  }

  lemma ArmLeaked(s: State, s': State, t: Task, b: BreakpointId, p: ProbeId)
    requires Leaked(s, b, p) && Harmless(t, b, p) && Keeps(s'.reg, b, p)
    requires s'.tasks == s.tasks[t.def.id := t] && s'.installed == s.installed && s'.reconcile == s.reconcile
    requires b in s'.armed && b !in s'.removing && s'.unposted == s.unposted
    ensures Leaked(s', b, p)
  {
    hide Keeps;
  }

  lemma ClaimLeaked(s: State, def: Definition, key: Key, b: BreakpointId, p: ProbeId)
    requires Leaked(s, b, p) && def.id != p && key in s.reg.byLocation && s.reg.byLocation[key] in s.reg.holders
    ensures Leaked(ClaimExisting(s, def, key), b, p)
  {
    AddClaimKeeps(s.reg, s.reg.byLocation[key], def.id, b, p);
    hide Keeps, AddClaim;
    ArmLeaked(s, ClaimExisting(s, def, key), Claimed(def, s.reg.byLocation[key]), b, p);
  }

  lemma PostLeaked(s: State, def: Definition, key: Key, b: BreakpointId, p: ProbeId)
    requires Leaked(s, b, p) && def.id != p
    ensures Leaked(Post(s, def, key), b, p) && Leaked(s.(tasks := s.tasks[def.id := Waiting(def, key)]), b, p)
  {
    hide Keeps;
    ArmLeaked(s, Post(s, def, key), Posted(def, key), b, p);
    ArmLeaked(s, s.(tasks := s.tasks[def.id := Waiting(def, key)]), Waiting(def, key), b, p);
  }

  lemma StartArmLeaked(s: State, def: Definition, key: Key, b: BreakpointId, p: ProbeId)
    requires Leaked(s, b, p) && Enabled(s, StartArm(def, key)) && def.id != p
    ensures Leaked(DoStartArm(s, def, key), b, p)
  {
    hide Leaked, ClaimExisting, Post;
    if MayArm(s, def) {
      if key in s.reg.byLocation { ClaimLeaked(s, def, key, b, p); } else { PostLeaked(s, def, key, b, p); }
    }
  }

  lemma OtherTask(s: State, q: ProbeId, b: BreakpointId, p: ProbeId)
    requires Sound(s) && Leaked(s, b, p) && q in s.tasks
    ensures s.tasks[q].def.id == q && Harmless(s.tasks[q], b, p)
  {
  }

  lemma ResumeWaiterLeaked(s: State, q: ProbeId, b: BreakpointId, p: ProbeId)
    requires Sound(s) && Leaked(s, b, p) && Enabled(s, ResumeWaiter(q))
    ensures Leaked(DoResumeWaiter(s, q), b, p)
  {
    OtherTask(s, q, b, p);
    hide Sound, Leaked, ClaimExisting, Post;
    var t := s.tasks[q];
    if t.key in s.reg.byLocation { ClaimLeaked(s, t.def, t.key, b, p); } else { PostLeaked(s, t.def, t.key, b, p); }
  }

  lemma V8SetLeaked(s: State, q: ProbeId, result: SetResult, b: BreakpointId, p: ProbeId)
    requires Sound(s) && Leaked(s, b, p) && Enabled(s, V8Set(q, result))
    ensures Leaked(DoV8Set(s, q, result), b, p)
  {
    OtherTask(s, q, b, p);
    hide Sound, Keeps, Enabled;
    ArmLeaked(s, DoV8Set(s, q, result), Answered(s.tasks[q].def, s.tasks[q].key, result), b, p);
  }

  lemma DropLeaked(s: State, s': State, q: ProbeId, b: BreakpointId, p: ProbeId)
    requires Leaked(s, b, p) && s'.tasks == s.tasks - {q}
    requires s'.reg == s.reg && s'.installed == s.installed && s'.reconcile == s.reconcile
    requires b in s'.armed && b !in s'.removing && s'.unposted == s.unposted
    ensures Leaked(s', b, p)
  {
    hide Keeps;
  }

  lemma DeliverSetLeaked(s: State, q: ProbeId, h: HolderId, b: BreakpointId, p: ProbeId)
    requires Sound(s) && Leaked(s, b, p) && Enabled(s, DeliverSet(q, h))
    ensures Leaked(DoDeliverSet(s, q, h), b, p)
  {
    OtherTask(s, q, b, p);
    hide Sound, Leaked, DoDeliverSet, Harmless;
    if s.tasks[q].result.Armed? { ArmedLeaked(s, q, h, b, p); } else { UnarmedLeaked(s, q, h, b, p); }
  }

  lemma UnarmedLeaked(s: State, q: ProbeId, h: HolderId, b: BreakpointId, p: ProbeId)
    requires Leaked(s, b, p) && q in s.tasks && s.tasks[q].Answered? && !s.tasks[q].result.Armed?
    requires s.tasks[q].def.id == q && Harmless(s.tasks[q], b, p)
    ensures Leaked(DoDeliverSet(s, q, h), b, p)
  {
    hide Keeps;
    if s.tasks[q].result.Refused? { DropLeaked(s, DoDeliverSet(s, q, h), q, b, p); }
    else { ArmLeaked(s, DoDeliverSet(s, q, h), Clearing(s.tasks[q].def, s.tasks[q].key), b, p); }
  }

  lemma ArmedLeaked(s: State, q: ProbeId, h: HolderId, b: BreakpointId, p: ProbeId)
    requires Leaked(s, b, p) && q in s.tasks && s.tasks[q].Answered? && s.tasks[q].result.Armed?
    requires s.tasks[q].def.id == q && Harmless(s.tasks[q], b, p) && h !in s.reg.holders
    ensures Leaked(DoDeliverSet(s, q, h), b, p)
  {
    var t := s.tasks[q];
    RegisterKeeps(s.reg, h, t.result.bp, q, t.key, t.result.resolved, b, p);
    hide Keeps, Register;
    ArmLeaked(s, DoDeliverSet(s, q, h), Claimed(t.def, h), b, p);
  }

  lemma InstallLeaked(s: State, q: ProbeId, i: InstallId, b: BreakpointId, p: ProbeId)
    requires Leaked(s, b, p) && q in s.tasks && s.tasks[q].Claimed? && s.tasks[q].holder in s.reg.holders
    requires RegistryShape(s.reg) && StillWanted(s, s.tasks[q].def)
    ensures Leaked(DoFinishArm(s, q, i), b, p)
  {
    hide Keeps, RegistryShape;
    var s' := DoFinishArm(s, q, i);
    assert s'.reg == s.reg && s'.tasks == s.tasks - {q} && s'.reconcile == s.reconcile;
  }

  lemma AbortLeaked(s: State, q: ProbeId, i: InstallId, b: BreakpointId, p: ProbeId)
    requires Leaked(s, b, p) && q in s.tasks && s.tasks[q].Claimed? && s.tasks[q].holder in s.reg.holders
    requires RegistryShape(s.reg) && !StillWanted(s, s.tasks[q].def) && s.tasks[q].def.id == q
    ensures Leaked(DoFinishArm(s, q, i), b, p)
  {
    ReleaseKeeps(s.reg, s.tasks[q].holder, q, b, p);
    hide Keeps, Release, Freed, RegistryShape;
    ArmLeaked(s, DoFinishArm(s, q, i), Draining(s.tasks[q].def), b, p);
  }

  lemma FinishArmLeaked(s: State, q: ProbeId, i: InstallId, b: BreakpointId, p: ProbeId)
    requires Sound(s) && Leaked(s, b, p) && Enabled(s, FinishArm(q, i))
    ensures Leaked(DoFinishArm(s, q, i), b, p)
  {
    OtherTask(s, q, b, p);
    hide Sound, Leaked, DoFinishArm;
    if StillWanted(s, s.tasks[q].def) { InstallLeaked(s, q, i, b, p); } else { AbortLeaked(s, q, i, b, p); }
  }

  lemma EndDrainLeaked(s: State, q: ProbeId, b: BreakpointId, p: ProbeId)
    requires Leaked(s, b, p) && q in s.tasks
    ensures Leaked(DoEndDrain(s, q), b, p)
  {
    hide Keeps;
    DropLeaked(s, DoEndDrain(s, q), q, b, p);
  }

  lemma RemoveLeaked(s: State, c: BreakpointId, ok: bool, b: BreakpointId, p: ProbeId)
    requires Leaked(s, b, p) && c in s.removing
    ensures Leaked(DoV8Remove(s, c, ok), b, p)
  {
    hide Keeps, Out;
  }

  lemma PostRemoveLeaked(s: State, c: BreakpointId, b: BreakpointId, p: ProbeId)
    requires Leaked(s, b, p) && c in s.unposted
    ensures Leaked(DoPostRemove(s, c), b, p)
  {
    hide Keeps, Out;
  }

  lemma RearmLeaked(s: State, b: BreakpointId, p: ProbeId)
    requires Leaked(s, b, p)
    ensures Leaked(DoRearm(s), b, p)
  {
    hide Keeps, Out;
  }

  /** The registry and what is installed shrink, and other breakpoints are removed. */
  lemma LeaveLeaked(s: State, s': State, b: BreakpointId, p: ProbeId)
    requires Leaked(s, b, p) && Keeps(s'.reg, b, p)
    requires s'.tasks == s.tasks && s'.installed.Keys <= s.installed.Keys && s'.armed == s.armed
        && s'.unposted == s.unposted
    requires b !in s'.removing
    requires s'.reconcile == s.reconcile || s'.reconcile.Idle? || (s'.reconcile.Removing? && s.reconcile.Removing?
      && forall t | t in s'.reconcile.todo :: t in s.reconcile.todo)
    ensures Leaked(s', b, p)
  {
    hide Keeps;
  }

  lemma UninstallLeaked(s: State, b: BreakpointId, p: ProbeId)
    requires Leaked(s, b, p) && Enabled(s, ReconcileUninstall)
    ensures Leaked(DoReconcileUninstall(s), b, p)
  {
    var inst := s.reconcile.todo[0];
    assert inst in s.reconcile.todo;
    ReleaseForKeeps(s.reg, inst.bp, inst.def.id, b, p);
    hide Keeps, ReleaseFor, FreedFor, Deactivate, RegistryShape, Enabled;
    LeaveLeaked(s, DoReconcileUninstall(s), b, p);
  }

  lemma BeginLeaked(s: State, next: seq<Definition>, snapshot: seq<Installed>, b: BreakpointId, p: ProbeId)
    requires Sound(s) && Leaked(s, b, p) && Enabled(s, ReconcileBegin(next, snapshot))
    ensures Leaked(DoReconcileBegin(s, next, snapshot), b, p)
  {
    forall inst | inst in Unwanted(NextMap(next), snapshot) ensures inst.def.id != p {
      UnwantedFromSnapshot(NextMap(next), snapshot, inst);
      var q :| q in s.installed && s.installed[q] == inst;
    }
    hide Keeps, Sound, Unwanted, NextMap, Differs, Enabled;
  }

  lemma CommitLeaked(s: State, b: BreakpointId, p: ProbeId)
    requires Leaked(s, b, p) && s.reconcile.Removing? && s.reconcile.todo == []
    ensures Leaked(DoReconcileCommit(s), b, p)
  {
    hide Keeps, NextMap, StillExhausted;
    LeaveLeaked(s, DoReconcileCommit(s), b, p);
  }

  lemma RetireLeaked(s: State, i: InstallId, b: BreakpointId, p: ProbeId)
    requires Leaked(s, b, p) && Current(s, i) && RegistryShape(s.reg)
    ensures Leaked(Retire(s, i), b, p)
  {
    var q := s.counters[i].def.id;
    ReleaseForKeeps(s.reg, s.installed[q].bp, q, b, p);
    hide Keeps, ReleaseFor, FreedFor, Deactivate, RegistryShape;
    LeaveLeaked(s, Retire(s, i), b, p);
  }

  lemma CountHitLeaked(s: State, i: InstallId, b: BreakpointId, p: ProbeId)
    requires Leaked(s, b, p) && Current(s, i) && RegistryShape(s.reg)
    ensures Leaked(CountHit(s, i), b, p)
  {
    hide Keeps, Retire, RegistryShape;
    var counted := s.(counters := s.counters[i := Bumped(s.counters[i])]);
    LeaveLeaked(s, counted, b, p);
    hide Leaked;
    if counted.counters[i].hits >= counted.counters[i].def.hitLimit { RetireLeaked(counted, i, b, p); }
  }

  lemma {:induction false} CountAllLeaked(s: State, order: seq<InstallId>, matching: set<InstallId>, b: BreakpointId,
                                          p: ProbeId)
    requires Leaked(s, b, p) && RegistryShape(s.reg)
    ensures Leaked(CountAll(s, order, matching), b, p)
    decreases |order|
  {
    hide Leaked, CountHit;
    if order != [] {
      if order[0] in matching && Current(s, order[0]) {
        CountHitLeaked(s, order[0], b, p);
        CountAllLeaked(CountHit(s, order[0]), order[1..], matching, b, p);
      } else {
        CountAllLeaked(s, order[1..], matching, b, p);
      }
    }
  }

  lemma HitLeaked(s: State, a: Action, b: BreakpointId, p: ProbeId)
    requires Leaked(s, b, p) && Enabled(s, a) && (a.HandlePaused? || a.ProcessCapture?)
    ensures Leaked(Apply(s, a), b, p)
  {
    hide Keeps, CountAll, RegistryShape, Candidates, Counted, Enumerates, AddPending, ReleasePending;
    if a.HandlePaused? { CountAllLeaked(s, a.order, Counted(s, Candidates(s, a.hit)), b, p); }
    else {
      LeaveLeaked(s, Settled(s, a.c), b, p);
      CountAllLeaked(Settled(s, a.c), a.order, a.matching, b, p);
    }
  }

  /** What could end a leak: arming that probe again, or clearing the registry. */
  predicate EndsLeak(a: Action, p: ProbeId) {
    (a.StartArm? && a.def.id == p) || a.SuspendAll? || a.Stop? || a.ResumeFailed?
  }

  lemma StepKeepsLeak(s: State, a: Action, b: BreakpointId, p: ProbeId)
    requires Sound(s) && Leaked(s, b, p) && Enabled(s, a) && !EndsLeak(a, p)
    ensures Leaked(Apply(s, a), b, p)
  {
    hide Sound, Leaked, DoStartArm, DoResumeWaiter, DoV8Set, DoDeliverSet, DoFinishArm, DoReconcileBegin;
    hide DoReconcileUninstall, DoReconcileCommit, DoSuspendAll, DoStop, DoRearm, DoHandlePaused, DoProcessCapture;
    hide DoResumeFailed, DoEndDrain, DoV8Remove, DoPostRemove;
    match a
    case StartArm(def, key) => StartArmLeaked(s, def, key, b, p);
    case ResumeWaiter(q) => ResumeWaiterLeaked(s, q, b, p);
    case V8Set(q, result) => V8SetLeaked(s, q, result, b, p);
    case DeliverSet(q, h) => DeliverSetLeaked(s, q, h, b, p);
    case FinishArm(q, i) => FinishArmLeaked(s, q, i, b, p);
    case ReconcileBegin(next, snapshot) => BeginLeaked(s, next, snapshot, b, p);
    case ReconcileUninstall => UninstallLeaked(s, b, p);
    case ReconcileCommit => CommitLeaked(s, b, p);
    case HandlePaused(_, _, _, _) => HitLeaked(s, a, b, p);
    case ProcessCapture(_, _, _, _) => HitLeaked(s, a, b, p);
    case EndDrain(q) => EndDrainLeaked(s, q, b, p);
    case V8Remove(c, ok) => RemoveLeaked(s, c, ok, b, p);
    case PostSuspendedRemove(c) => PostRemoveLeaked(s, c, b, p);
    case Rearm => RearmLeaked(s, b, p);
    case _ =>
  }

  /**
   Over any stretch of any run that neither arms the probe again nor suspends, stops or loses the
   session, a leaked breakpoint stays registered and armed, and no remove is posted for it. Other
   probes may come and go on it, or all be gone.
   */
  lemma {:induction false} LeakLasts(states: seq<State>, actions: seq<Action>, i: nat, j: nat, b: BreakpointId,
                                     p: ProbeId)
    requires Run(states, actions) && i <= j < |states| && Leaked(states[i], b, p)
    requires forall k | i <= k < j :: !EndsLeak(actions[k], p)
    ensures Leaked(states[j], b, p)
    decreases j - i
  {
    hide Apply, Enabled, EndsLeak;
    if i < j {
      LeakLasts(states, actions, i, j - 1, b, p);
      RunKeepsSound(states, actions, j - 1);
      hide Leaked, Sound;
      StepKeepsLeak(states[j - 1], actions[j - 1], b, p);
    }
  }
}

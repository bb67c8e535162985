/** Retirement, reconciliation and the whole-run theorems for the probe manager. */
module BreakpointRuns {
  import opened BreakpointSharing
  import opened BreakpointSafety
  import opened BreakpointSteps

  // ---- A probe leaves with its claim ----

  lemma LeaveLive(installed: map<ProbeId, Installed>, counters: map<InstallId, Counters>, i: InstallId, p: ProbeId)
    requires LiveOk(installed, counters) && i in counters && counters[i].def.id == p
    requires forall q | q in installed :: installed[q].def.id == q
    ensures LiveOk(installed - {p}, Deactivate(counters, {i}))
  {
  }

  lemma InstalledFacts(s: State, p: ProbeId)
    requires Inv(s) && p in s.installed
    ensures s.installed[p].bp in s.reg.byBreakpoint && s.reg.byBreakpoint[s.installed[p].bp] in s.reg.holders
    ensures p !in s.tasks && RegistryShape(s.reg)
    ensures forall q | q in s.installed :: s.installed[q].def.id == q
  {
  }

  /** Whatever takes `p` out of `installed` and releases its claim keeps the registry and V8 in step. */
  lemma LeaveStep(s: State, p: ProbeId)
    requires Inv(s) && p in s.installed && RegistryShape(s.reg)
    ensures var bp := s.installed[p].bp;
      && Core(ReleaseFor(s.reg, bp, p), s.installed - {p}, s.tasks, s.suspended || s.stopped)
      && Accounted(s.armed, ReleaseFor(s.reg, bp, p).byBreakpoint.Keys, Unclaimed(s.tasks),
                   s.removing + FreedFor(s.reg, bp, p), s.unposted, s.orphans)
  {
    hide Core, HitsOk, LiveOk, ExhaustedOk, Unclaimed, DistinctAnswers, Release, Freed;
    InstalledFacts(s, p);
    LeaveCore(s.reg, s.installed, s.tasks, s.suspended || s.stopped, s.reg.byBreakpoint[s.installed[p].bp], p);
    assert s.tasks - {p} == s.tasks;
  }

  lemma RetireStep(s: State, i: InstallId)
    requires Inv(s) && Current(s, i) && RegistryShape(s.reg)
    ensures Inv(Retire(s, i))
  {
    hide Core, HitsOk, Unclaimed, DistinctAnswers, ReleaseFor, FreedFor, Deactivate, LiveOk;
    var p := s.counters[i].def.id;
    InstalledFacts(s, p);
    LeaveStep(s, p);
    DeactivateHits(s.counters, s.captures, {i});
    LeaveLive(s.installed, s.counters, i, p);
    DeactivateSnapshot(s.reconcile, s.counters, {i});
  }

  lemma BumpStep(s: State, i: InstallId)
    requires Inv(s) && Current(s, i) && HasRoom(s.counters[i])
    ensures Inv(s.(counters := s.counters[i := Bumped(s.counters[i])]))
  {
    hide Core, ExhaustedOk, Accounted, Unclaimed, DistinctAnswers;
  }

  lemma CountHitStep(s: State, i: InstallId)
    requires Inv(s) && Current(s, i) && HasRoom(s.counters[i]) && RegistryShape(s.reg)
    ensures Inv(CountHit(s, i))
    ensures forall j | j != i && Current(CountHit(s, i), j) ::
      Current(s, j) && CountHit(s, i).counters[j] == s.counters[j]
  {
    hide Inv, ReleaseFor, FreedFor;
    BumpStep(s, i);
    var counted := s.(counters := s.counters[i := Bumped(s.counters[i])]);
    if counted.counters[i].hits >= counted.counters[i].def.hitLimit { RetireStep(counted, i); }
  }

  lemma {:induction false} CountAllStep(s: State, order: seq<InstallId>, matching: set<InstallId>)
    requires Inv(s) && RegistryShape(s.reg)
    requires forall j, k | 0 <= j < k < |order| :: order[j] != order[k]
    requires forall i | i in order && i in matching && Current(s, i) :: HasRoom(s.counters[i])
    ensures Inv(CountAll(s, order, matching))
    decreases |order|
  {
    hide Inv, CountHit;
    if order != [] {
      var i := order[0];
      if i in matching && Current(s, i) {
        CountHitStep(s, i);
        assert forall j | j in order[1..] :: j in order && j != i;
        CountAllStep(CountHit(s, i), order[1..], matching);
      } else {
        CountAllStep(s, order[1..], matching);
      }
    }
  }

  lemma CandidateReady(s: State, hit: set<BreakpointId>, i: InstallId)
    requires i in Candidates(s, hit)
    ensures i in s.counters && s.counters[i].active && HasRoom(s.counters[i])
  {
  }

  lemma HandlePausedStep(s: State, hit: set<BreakpointId>, token: bool, order: seq<InstallId>, c: CaptureId)
    requires Inv(s) && Enabled(s, HandlePaused(hit, token, order, c))
    ensures Inv(DoHandlePaused(s, hit, token, order, c))
  {
    hide Core, HitsOk, ExhaustedOk, Accounted, Unclaimed, DistinctAnswers, Candidates;
    var candidates := Candidates(s, hit);
    forall i | i in candidates ensures i in s.counters && s.counters[i].active && HasRoom(s.counters[i]) {
      CandidateReady(s, hit, i);
    }
    if candidates != {} {
      if token { AddPendingHits(s.counters, s.captures, candidates, c, s.epoch); }
      else { CountAllStep(s, order, Counted(s, candidates)); }
    }
  }

  lemma ProcessCaptureStep(s: State, c: CaptureId, failed: bool, order: seq<InstallId>, matching: set<InstallId>)
    requires Inv(s) && Enabled(s, ProcessCapture(c, failed, order, matching))
    ensures Inv(DoProcessCapture(s, c, failed, order, matching))
  {
    hide Inv, CountAll, ReleasePending;
    SettledStep(s, c);
    if !(s.stopped || s.suspended || s.inspectorFailed || s.captures[c].epoch != s.epoch || failed) {
      CountAllStep(Settled(s, c), order, matching);
    }
  }

  // ---- Reconcile ----

  lemma {:induction false} UnwantedFromSnapshot(next: map<ProbeId, Definition>, snapshot: seq<Installed>,
                                                inst: Installed)
    requires inst in Unwanted(next, snapshot)
    ensures inst in snapshot && !Wanted(next, inst.def)
    decreases |snapshot|
  {
    if snapshot != [] {
      if inst != snapshot[0] || Wanted(next, snapshot[0].def) { UnwantedFromSnapshot(next, snapshot[1..], inst); }
    }
  }

  lemma ReconcileBeginStep(s: State, next: seq<Definition>, snapshot: seq<Installed>)
    requires Inv(s) && Enabled(s, ReconcileBegin(next, snapshot))
    ensures Inv(DoReconcileBegin(s, next, snapshot))
  {
    hide Core, HitsOk, ExhaustedOk, Accounted, Unclaimed, DistinctAnswers, Unwanted;
    forall inst | inst in Unwanted(NextMap(next), snapshot)
      ensures inst.i in s.counters && s.counters[inst.i].def == inst.def
    {
      UnwantedFromSnapshot(NextMap(next), snapshot, inst);
      var p :| p in s.installed && s.installed[p] == inst;
    }
  }

  lemma ReconcileCommitStep(s: State)
    requires Inv(s) && Enabled(s, ReconcileCommit)
    ensures Inv(DoReconcileCommit(s))
  {
    hide Core, HitsOk, LiveOk, Accounted, Unclaimed, DistinctAnswers, NextMap;
  }

  /** Probe `p` sits between claim and install on registered breakpoint `bp`. */
  ghost predicate ClaimsOn(s: State, p: ProbeId, bp: BreakpointId) {
    && p in s.tasks && s.tasks[p].Claimed?
    && Registered(s.reg, s.tasks[p].holder) && s.reg.holders[s.tasks[p].holder].bp == bp
  }

  /**
   When uninstalling the next snapshot entry is harmless: the probe id is not installed on another
   breakpoint by now, and is not between claim and install on this one.
   */
  ghost predicate UninstallSafe(s: State)
    requires Enabled(s, ReconcileUninstall)
  {
    var inst := s.reconcile.todo[0];
    var p := inst.def.id;
    && (p in s.installed ==> s.installed[p].bp == inst.bp)
    && (ClaimsOn(s, p, inst.bp) ==>
          (s.suspended || s.stopped) && s.reg.holders[s.tasks[p].holder].claims == {p})
  }

  /** Nothing but the registry part of the invariant can break in an uninstall. */
  lemma UninstallRest(s: State, s': State)
    requires Inv(s) && Enabled(s, ReconcileUninstall) && s' == DoReconcileUninstall(s)
    ensures Inv(s') <==>
      && Core(s'.reg, s'.installed, s'.tasks, s'.suspended || s'.stopped)
      && ArmedOk(s')
  {
    hide Core, HitsOk, LiveOk, ArmedOk, ReleaseFor, FreedFor, Deactivate;
    var inst := s.reconcile.todo[0];
    InstalledIds(s);
    DeactivateHits(s.counters, s.captures, {inst.i});
    LeaveLive(s.installed, s.counters, inst.i, inst.def.id);
    DeactivateSnapshot(s.reconcile, s.counters, {inst.i});
    assert forall x | x in s.reconcile.todo[1..] :: x in s.reconcile.todo;
  }

  lemma InstalledIds(s: State)
    requires Inv(s)
    ensures forall q | q in s.installed :: s.installed[q].def.id == q
  {
  }

  lemma UninstallInstalled(s: State, s': State)
    requires Inv(s) && Enabled(s, ReconcileUninstall) && s' == DoReconcileUninstall(s)
    requires var inst := s.reconcile.todo[0]; inst.def.id in s.installed && s.installed[inst.def.id].bp == inst.bp
    ensures Core(s'.reg, s'.installed, s'.tasks, s'.suspended || s'.stopped) && ArmedOk(s')
  {
    hide Core, HitsOk, LiveOk, Unclaimed, DistinctAnswers, ReleaseFor, FreedFor, Deactivate, ExhaustedOk;
    LeaveStep(s, s.reconcile.todo[0].def.id);
  }

  /** A stale entry whose probe holds no claim on that breakpoint: nothing happens. */
  lemma UninstallIdle(r: Registry, installed: map<ProbeId, Installed>, tasks: map<ProbeId, Task>, held: bool,
                      bp: BreakpointId, p: ProbeId)
    requires Core(r, installed, tasks, held) && p !in installed
    requires p in tasks && tasks[p].Claimed? && Registered(r, tasks[p].holder) ==> r.holders[tasks[p].holder].bp != bp
    ensures ReleaseFor(r, bp, p) == r && FreedFor(r, bp, p) == {}
  {
    if bp in r.byBreakpoint {
      var h := r.byBreakpoint[bp];
      assert p in r.holders[h].claims ==> Uses(r, installed, tasks, bp, p);
      assert r.holders[h].claims - {p} == r.holders[h].claims;
      assert DropClaim(r, h, p).holders == r.holders;
    }
  }

  /** A stale entry whose probe alone holds that breakpoint mid-arm, while suspended or stopped. */
  lemma UninstallMidArm(r: Registry, installed: map<ProbeId, Installed>, tasks: map<ProbeId, Task>, h: HolderId,
                        p: ProbeId)
    requires Core(r, installed, tasks, true) && p !in installed
    requires p in tasks && tasks[p].Claimed? && tasks[p].holder == h && Registered(r, h) && r.holders[h].claims == {p}
    ensures Core(Release(r, h, p), installed, tasks, true)
    ensures Freed(r, h, p) == {r.holders[h].bp}
    ensures Release(r, h, p).byBreakpoint == r.byBreakpoint - {r.holders[h].bp}
  {
    LeaveCore(r, installed, tasks, true, h, p);
    ReleaseShape(r, h, p);
    var r' := Release(r, h, p);
    assert !Registered(r', h);
    forall b, q | b in r'.byBreakpoint && q in r'.holders[r'.byBreakpoint[b]].claims
      ensures Uses(r', installed, tasks, b, q)
    {
      assert Uses(r', installed - {p}, tasks - {p}, b, q);
    }
    forall q | q in tasks && q != p ensures (tasks - {p})[q] == tasks[q] && q in tasks - {p} {}
  }

  lemma UninstallSufficient(s: State, s': State)
    requires Inv(s) && Enabled(s, ReconcileUninstall) && s' == DoReconcileUninstall(s) && UninstallSafe(s)
    ensures Core(s'.reg, s'.installed, s'.tasks, s'.suspended || s'.stopped) && ArmedOk(s')
  {
    hide Core, HitsOk, LiveOk, Unclaimed, DistinctAnswers, Release, Freed, Deactivate, ExhaustedOk;
    var inst := s.reconcile.todo[0];
    var p := inst.def.id;
    if p in s.installed {
      UninstallInstalled(s, s');
    } else {
      assert s.installed - {p} == s.installed;
      if ClaimsOn(s, p, inst.bp) {
        UninstallMidArm(s.reg, s.installed, s.tasks, s.tasks[p].holder, p);
      } else {
        UninstallIdle(s.reg, s.installed, s.tasks, s.suspended || s.stopped, inst.bp, p);
      }
    }
  }

  /** Another object took the probe id on another breakpoint: its claim is left behind. */
  lemma UninstallLeaksClaim(s: State, s': State)
    requires Inv(s) && Enabled(s, ReconcileUninstall) && s' == DoReconcileUninstall(s)
    requires var inst := s.reconcile.todo[0]; inst.def.id in s.installed && s.installed[inst.def.id].bp != inst.bp
    ensures var p := s.reconcile.todo[0].def.id; var b := s.installed[p].bp;
      && b in s'.reg.byBreakpoint && s'.reg.byBreakpoint[b] in s'.reg.holders
      && p in s'.reg.holders[s'.reg.byBreakpoint[b]].claims
      && !Uses(s'.reg, s'.installed, s'.tasks, b, p)
    ensures !Core(s'.reg, s'.installed, s'.tasks, s'.suspended || s'.stopped)
  {
    hide HitsOk, LiveOk, Unclaimed, DistinctAnswers, Deactivate, ExhaustedOk;
    var inst := s.reconcile.todo[0];
    var p := inst.def.id;
    var b := s.installed[p].bp;
    if inst.bp in s.reg.byBreakpoint { ReleaseShape(s.reg, s.reg.byBreakpoint[inst.bp], p); }
    assert b in s'.reg.byBreakpoint && p in s'.reg.holders[s'.reg.byBreakpoint[b]].claims;
  }

  /** The probe is mid-arm on this very breakpoint: it will install without a claim. */
  lemma UninstallStealsClaim(s: State, s': State)
    requires Inv(s) && Enabled(s, ReconcileUninstall) && s' == DoReconcileUninstall(s)
    requires var inst := s.reconcile.todo[0];
      && ClaimsOn(s, inst.def.id, inst.bp)
      && !((s.suspended || s.stopped) && s.reg.holders[s.tasks[inst.def.id].holder].claims == {inst.def.id})
    ensures var p := s.reconcile.todo[0].def.id; var h := s.tasks[p].holder;
      && s'.tasks == s.tasks && h in s'.reg.holders && p !in s'.reg.holders[h].claims
    ensures !Core(s'.reg, s'.installed, s'.tasks, s'.suspended || s'.stopped)
  {
    hide HitsOk, LiveOk, Unclaimed, DistinctAnswers, Deactivate, ExhaustedOk;
    var inst := s.reconcile.todo[0];
    var p := inst.def.id;
    var h := s.tasks[p].holder;
    ReleaseShape(s.reg, h, p);
    assert p !in s'.reg.holders[h].claims;
  }

  /** The uninstall step keeps the invariant exactly when `UninstallSafe` holds before it. */
  lemma UninstallExact(s: State)
    requires Inv(s) && Enabled(s, ReconcileUninstall)
    ensures Inv(DoReconcileUninstall(s)) <==> UninstallSafe(s)
  {
    hide Inv, Core, ArmedOk, DoReconcileUninstall;
    var s' := DoReconcileUninstall(s);
    var inst := s.reconcile.todo[0];
    UninstallRest(s, s');
    if UninstallSafe(s) { UninstallSufficient(s, s'); }
    else if inst.def.id in s.installed && s.installed[inst.def.id].bp != inst.bp { UninstallLeaksClaim(s, s'); }
    else { UninstallStealsClaim(s, s'); }
  }

  /** Whether `rearm` may clear the suspension: no probe holds a breakpoint the suspension dropped. */
  ghost predicate RearmSafe(s: State) {
    || s.stopped || s.inspectorFailed
    || forall p | p in s.tasks && s.tasks[p].Claimed? :: Registered(s.reg, s.tasks[p].holder)
  }

  lemma RearmExact(s: State)
    requires Inv(s)
    ensures Inv(DoRearm(s)) <==> RearmSafe(s)
  {
    hide HitsOk, LiveOk, Accounted, Unclaimed, DistinctAnswers, ExhaustedOk, LocationsOk, InstalledOk, ClaimsOk;
  }

  // ---- Runs ----

  ghost predicate Safe(s: State, a: Action)
    requires Enabled(s, a)
  {
    && (a.ReconcileUninstall? ==> UninstallSafe(s))
    && (a.Rearm? ==> RearmSafe(s))
  }

  lemma StepKeepsInv(s: State, a: Action)
    requires Inv(s) && Enabled(s, a) && Safe(s, a)
    ensures Inv(Apply(s, a))
  {
    hide Inv, UninstallSafe, RearmSafe;
    match a
    case StartArm(def, key) => StartArmStep(s, def, key);
    case ResumeWaiter(p) => ResumeWaiterStep(s, p);
    case V8Set(p, result) => V8SetStep(s, p, result);
    case DeliverSet(p, h) => DeliverSetStep(s, p, h);
    case FinishArm(p, i) => FinishArmStep(s, p, i);
    case EndDrain(p) => TaskStep(s, Apply(s, a), p);
    case V8Remove(b, ok) => V8RemoveStep(s, b, ok);
    case ReconcileBegin(next, snapshot) => ReconcileBeginStep(s, next, snapshot);
    case ReconcileUninstall => UninstallExact(s);
    case ReconcileCommit => ReconcileCommitStep(s);
    case SuspendAll => SuspendAllStep(s);
    case PostSuspendedRemove(b) => PostSuspendedRemoveStep(s, b);
    case Rearm => RearmExact(s);
    case Stop => StopStep(s);
    case HandlePaused(hit, token, order, c) => HandlePausedStep(s, hit, token, order, c);
    case ProcessCapture(c, failed, order, matching) => ProcessCaptureStep(s, c, failed, order, matching);
    case ResumeFailed(lost) => ResumeFailedStep(s, lost);
  }

  /** `states` is what a manager goes through when the steps `actions` happen in that order. */
  ghost predicate Run(states: seq<State>, actions: seq<Action>) {
    && |states| == |actions| + 1
    && states[0] == Init
    && forall k | 0 <= k < |actions| :: Enabled(states[k], actions[k]) && states[k + 1] == Apply(states[k], actions[k])
  }

  /** No uninstall hits a re-armed id and no rearm overtakes a suspended arm. */
  ghost predicate SafeRun(states: seq<State>, actions: seq<Action>) {
    Run(states, actions) && forall k | 0 <= k < |actions| :: Safe(states[k], actions[k])
  }

  lemma {:induction false} RunKeepsInv(states: seq<State>, actions: seq<Action>, k: nat)
    requires SafeRun(states, actions) && k < |states|
    ensures Inv(states[k])
    decreases k
  {
    hide Apply, Safe, Enabled;
    if k > 0 {
      RunKeepsInv(states, actions, k - 1);
      hide Inv;
      StepKeepsInv(states[k - 1], actions[k - 1]);
    }
  }

  /** Breakpoint sharing: the registry, the probes relying on it and V8 never disagree. */
  lemma SharingIsSound(states: seq<State>, actions: seq<Action>, k: nat)
    requires SafeRun(states, actions) && k < |states|
    ensures var s := states[k];
      && (forall p | p in s.installed ::
            && s.installed[p].bp in s.reg.byBreakpoint
            && s.reg.byBreakpoint[s.installed[p].bp] in s.reg.holders
            && p in s.reg.holders[s.reg.byBreakpoint[s.installed[p].bp]].claims
            && s.installed[p].bp in s.armed && s.installed[p].bp !in s.removing + s.unposted)
      && (forall key | key in s.reg.byLocation ::
            Registered(s.reg, s.reg.byLocation[key]) && key in s.reg.holders[s.reg.byLocation[key]].keys)
      && (forall b, p | b in s.reg.byBreakpoint ::
            && s.reg.byBreakpoint[b] in s.reg.holders
            && (p in s.reg.holders[s.reg.byBreakpoint[b]].claims <==> Uses(s.reg, s.installed, s.tasks, b, p)))
  {
    RunKeepsInv(states, actions, k);
    var s := states[k];
    hide HitsOk, LiveOk, ExhaustedOk, Run, SafeRun, Unclaimed, DistinctAnswers;
    forall b, p | b in s.reg.byBreakpoint && Uses(s.reg, s.installed, s.tasks, b, p)
      ensures p in s.reg.holders[s.reg.byBreakpoint[b]].claims
    {
    }
  }

  /** Nothing in flight: no arm in progress and no remove posted or still to be posted. */
  ghost predicate Quiet(s: State) {
    s.tasks == map[] && s.removing == {} && s.unposted == {}
  }

  /** When nothing is in flight, V8 has armed what is registered, and nothing while suspended or stopped. */
  lemma QuietMeansInStep(states: seq<State>, actions: seq<Action>, k: nat)
    requires SafeRun(states, actions) && k < |states| && Quiet(states[k])
    requires forall j | 0 <= j < k :: !actions[j].ResumeFailed? && (actions[j].V8Remove? ==> actions[j].ok)
    ensures var s := states[k];
      && s.armed == s.reg.byBreakpoint.Keys
      && (forall b | b in s.armed :: exists p | p in s.installed :: s.installed[p].bp == b)
      && (s.suspended || s.stopped ==> s.armed == {})
  {
    RunKeepsInv(states, actions, k);
    NoOrphans(states, actions, k);
    var s := states[k];
    hide HitsOk, LiveOk, ExhaustedOk, Run, SafeRun;
    forall b | b in s.reg.byBreakpoint ensures exists p | p in s.installed :: s.installed[p].bp == b {
      var p :| p in s.reg.holders[s.reg.byBreakpoint[b]].claims;
      assert Uses(s.reg, s.installed, s.tasks, b, p);
    }
  }

  lemma {:induction false} CountAllOrphans(s: State, order: seq<InstallId>, matching: set<InstallId>)
    requires RegistryShape(s.reg)
    ensures CountAll(s, order, matching).orphans == s.orphans
    decreases |order|
  {
    if order != [] {
      if order[0] in matching && Current(s, order[0]) {
        CountAllOrphans(CountHit(s, order[0]), order[1..], matching);
      } else {
        CountAllOrphans(s, order[1..], matching);
      }
    }
  }

  lemma HitOrphans(s: State, a: Action)
    requires Enabled(s, a) && (a.HandlePaused? || a.ProcessCapture?)
    ensures Apply(s, a).orphans == s.orphans
  {
    hide CountAll, RegistryShape, Candidates, Counted, Enumerates, AddPending, ReleasePending;
    if a.HandlePaused? { CountAllOrphans(s, a.order, Counted(s, Candidates(s, a.hit))); }
    else { CountAllOrphans(Settled(s, a.c), a.order, a.matching); }
  }

  lemma StepOrphans(s: State, a: Action)
    requires Enabled(s, a) && !a.ResumeFailed? && (a.V8Remove? ==> a.ok)
    ensures Apply(s, a).orphans == s.orphans
  {
    if a.HandlePaused? || a.ProcessCapture? { HitOrphans(s, a); }
    else if a.StartArm? || a.ResumeWaiter? || a.DeliverSet? || a.FinishArm? { ArmOrphans(s, a); }
    else {
      hide DoHandlePaused, DoProcessCapture, DoResumeFailed, ReleaseFor, FreedFor, Enumerates, Candidates, Counted;
      hide ClearRegistry, Deactivate, NextMap, Unwanted, RegistryShape, InstallIds;
      hide DoStartArm, DoResumeWaiter, DoDeliverSet, DoFinishArm;
    }
  }

  lemma ArmOrphans(s: State, a: Action)
    requires Enabled(s, a) && (a.StartArm? || a.ResumeWaiter? || a.DeliverSet? || a.FinishArm?)
    ensures Apply(s, a).orphans == s.orphans
  {
    hide DoStartArm, DoResumeWaiter, DoDeliverSet, DoFinishArm, RegistryShape, Enumerates, Candidates, Counted;
  }

  lemma {:induction false} NoOrphans(states: seq<State>, actions: seq<Action>, k: nat)
    requires Run(states, actions) && k < |states|
    requires forall j | 0 <= j < k :: !actions[j].ResumeFailed? && (actions[j].V8Remove? ==> actions[j].ok)
    ensures states[k].orphans == {}
  {
    hide Apply, Enabled;
    if k > 0 {
      NoOrphans(states, actions, k - 1);
      StepOrphans(states[k - 1], actions[k - 1]);
    }
  }
}

/**
 The probe manager as an object updated in place (packages/sdk-node/src/probe-manager.ts, class
 `ProbeManager`). Each public method is what the manager does between two of its awaits: it is one
 action of the transition system in `BreakpointSharing`, and it keeps the object valid, which is the
 sharing invariant. The two methods that may not keep it say exactly when they do. Holders and
 installed probes are objects in the source; here their identities are keys of the maps that hold
 their fields.
 */
module ProbeManagerObject {
  import opened BreakpointSharing
  import opened BreakpointSafety
  import opened BreakpointSteps
  import opened BreakpointRuns

  /** What a probe's file is found to be. */
  datatype Resolution = Missing | Ambiguous | Found(key: Key)

  /** What the invariant says about looking things up. */
  lemma Lookups(s: State)
    requires Inv(s)
    ensures RegistryShape(s.reg)
    ensures forall k | k in s.reg.byLocation :: s.reg.byLocation[k] in s.reg.holders
    ensures forall p | p in s.tasks && s.tasks[p].Claimed? :: s.tasks[p].holder in s.reg.holders
  {
  }

  class ProbeManager {
    var desired: map<ProbeId, Definition>
    var installed: map<ProbeId, Installed>
    var counters: map<InstallId, Counters>
    var byBreakpoint: map<BreakpointId, HolderId>
    var byLocation: map<Key, HolderId>
    var holders: map<HolderId, Holder>
    /** The `#ensureArmed` calls that are waiting for something; their keys are `#installing`. */
    var tasks: map<ProbeId, Task>
    var arming: map<Key, ProbeId>
    var exhausted: map<ProbeId, Definition>
    var suspended: bool
    var stopped: bool
    var inspectorFailed: bool
    var epoch: nat
    var reconcile: Reconcile
    var captures: map<CaptureId, Capture>
    // What V8 holds, and the removes posted or about to be.
    ghost var armed: set<BreakpointId>
    ghost var removing: set<BreakpointId>
    ghost var unposted: set<BreakpointId>
    ghost var orphans: set<BreakpointId>

    ghost function Reg(): Registry
      reads this`byBreakpoint, this`byLocation, this`holders
    {
      Registry(byBreakpoint, byLocation, holders)
    }

    ghost function View(): State
      reads this
    {
      State(desired, installed, counters, Reg(), tasks, arming, exhausted, suspended, stopped, inspectorFailed,
            epoch, reconcile, captures, armed, removing, unposted, orphans)
    }

    /** The registry, the probes relying on it and V8 agree, and no hit limit is exceeded. */
    ghost predicate Valid()
      reads this
    {
      Inv(View())
    }

    constructor ()
      ensures Valid() && View() == Init
    {
      desired, installed, counters, byBreakpoint, byLocation, holders := map[], map[], map[], map[], map[], map[];
      tasks, arming, exhausted, captures := map[], map[], map[], map[];
      suspended, stopped, inspectorFailed, epoch, reconcile := false, false, false, 0, Idle;
      armed, removing, unposted, orphans := {}, {}, {}, {};
    }

    // ---- Arming ----

    /** Starts to arm a probe, unless there is a reason not to, or its script is missing or ambiguous. */
    method EnsureArmed(def: Definition, resolution: Resolution)
      requires Valid()
      modifies this`holders, this`tasks, this`arming
      ensures Valid()
      ensures View() == if resolution.Found? then DoStartArm(old(View()), def, resolution.key) else old(View())
    {
      Lookups(View());
      hide Inv, DoStartArm;
      if resolution.Found? {
        StartArmStep(View(), def, resolution.key);
      }
      BeginArm(def, resolution);
    }

    method BeginArm(def: Definition, resolution: Resolution)
      requires resolution.Found? && resolution.key in byLocation ==> byLocation[resolution.key] in holders
      modifies this`holders, this`tasks, this`arming
      ensures View() == if resolution.Found? then DoStartArm(old(View()), def, resolution.key) else old(View())
    {
      if def.id in installed || def.id in tasks || (def.id in exhausted && exhausted[def.id] == def)
         || stopped || suspended || inspectorFailed {
        return;
      }
      if !resolution.Found? {
        return;
      }
      var key := resolution.key;
      if key in byLocation {
        JoinHolder(def, byLocation[key]);
      } else if key in arming {
        tasks := tasks[def.id := Waiting(def, key)];
      } else {
        PostSet(def, key);
      }
    }

    method JoinHolder(def: Definition, h: HolderId)
      requires h in holders
      modifies this`holders, this`tasks
      ensures Reg() == AddClaim(old(Reg()), h, def.id) && tasks == old(tasks)[def.id := Claimed(def, h)]
    {
      holders := holders[h := holders[h].(claims := holders[h].claims + {def.id})];
      tasks := tasks[def.id := Claimed(def, h)];
    }

    method PostSet(def: Definition, key: Key)
      modifies this`tasks, this`arming
      ensures View() == Post(old(View()), def, key)
    {
      tasks := tasks[def.id := Posted(def, key)];
      arming := arming[key := def.id];
    }

    /** The arm this one waited for has settled. */
    method WaiterResumes(p: ProbeId)
      requires Valid() && p in tasks && tasks[p].Waiting?
      modifies this`holders, this`tasks, this`arming
      ensures Valid() && View() == DoResumeWaiter(old(View()), p)
    {
      Lookups(View());
      hide Inv;
      ResumeWaiterStep(View(), p);
      var t := tasks[p];
      if t.key in byLocation {
        JoinHolder(t.def, byLocation[t.key]);
      } else {
        PostSet(t.def, t.key);
      }
    }

    method SetAnswered(p: ProbeId, h: HolderId)
      requires Valid() && p in tasks && tasks[p].Answered? && h !in holders
      modifies this`byBreakpoint, this`byLocation, this`holders, this`tasks, this`arming, this`removing
      ensures Valid() && View() == DoDeliverSet(old(View()), p, h)
    {
      Lookups(View());
      hide Inv, DoDeliverSet, RegistryShape;
      DeliverSetStep(View(), p, h);
      TakeAnswer(p, h);
    }

    method TakeAnswer(p: ProbeId, h: HolderId)
      requires p in tasks && tasks[p].Answered?
      modifies this`byBreakpoint, this`byLocation, this`holders, this`tasks, this`arming, this`removing
      ensures View() == DoDeliverSet(old(View()), p, h)
    {
      hide Register, SettleArming, RegistryShape;
      var t := tasks[p];
      match t.result {
        case Refused =>
          tasks := tasks - {p};
        case NoLocation(bp) =>
          tasks := tasks[p := Clearing(t.def, t.key)];
          removing := removing + {bp};
          return;
        case Armed(bp, resolved) =>
          RegisterHolder(h, bp, p, t.key, resolved);
          tasks := tasks[p := Claimed(t.def, h)];
      }
      SettleAttempt(t.key, p);
    }

    method RegisterHolder(h: HolderId, bp: BreakpointId, p: ProbeId, key: Key, resolved: Option<Key>)
      modifies this`byBreakpoint, this`byLocation, this`holders
      ensures Reg() == BreakpointSharing.Register(old(Reg()), h, bp, p, key, resolved)
    {
      byBreakpoint := byBreakpoint[bp := h];
      byLocation := byLocation[key := h];
      var keys := {key};
      if resolved.Some? && resolved.value !in byLocation {
        keys := {key, resolved.value};
        byLocation := byLocation[resolved.value := h];
      }
      holders := holders[h := Holder(bp, keys, {p})];
    }

    method SettleAttempt(key: Key, p: ProbeId)
      modifies this`arming
      ensures arming == SettleArming(old(arming), key, p)
    {
      if key in arming && arming[key] == p {
        arming := arming - {key};
      }
    }

    method InstallOrAbort(p: ProbeId, i: InstallId)
      requires Valid() && p in tasks && tasks[p].Claimed? && i !in counters
      modifies this`installed, this`counters, this`tasks
      modifies this`byBreakpoint, this`byLocation, this`holders, this`removing
      ensures Valid() && View() == DoFinishArm(old(View()), p, i)
    {
      Lookups(View());
      hide Inv, DoFinishArm, RegistryShape;
      FinishArmStep(View(), p, i);
      EndArm(p, i);
    }

    method EndArm(p: ProbeId, i: InstallId)
      requires p in tasks && tasks[p].Claimed? && tasks[p].holder in holders && RegistryShape(Reg())
      modifies this`installed, this`counters, this`tasks
      modifies this`byBreakpoint, this`byLocation, this`holders, this`removing
      ensures View() == DoFinishArm(old(View()), p, i)
    {
      hide Release, Freed, RegistryShape;
      var t := tasks[p];
      ghost var before := View();
      if t.def.id !in desired || desired[t.def.id] != t.def || stopped || suspended {
        assert !StillWanted(before, t.def);
        Abort(t, p);
        assert View() == before.(tasks := tasks, reg := Reg(), removing := removing);
      } else {
        assert StillWanted(before, t.def);
        Install(t, p, i);
        assert View() == before.(tasks := tasks, installed := installed, counters := counters);
      }
    }

    /** The awaited remove is answered. */
    method DrainEnds(p: ProbeId)
      requires Valid() && p in tasks && (tasks[p].Draining? || tasks[p].Clearing?)
      modifies this`tasks, this`arming
      ensures Valid() && View() == DoEndDrain(old(View()), p)
    {
      hide Inv, SettleArming;
      TaskStep(View(), DoEndDrain(View(), p), p);
      var t := tasks[p];
      if t.Clearing? {
        SettleAttempt(t.key, p);
      }
      tasks := tasks - {p};
    }

    method Abort(t: Task, p: ProbeId)
      requires t.Claimed? && t.holder in holders && RegistryShape(Reg())
      modifies this`tasks, this`byBreakpoint, this`byLocation, this`holders, this`removing
      ensures Reg() == Release(old(Reg()), t.holder, p) && removing == old(removing) + Freed(old(Reg()), t.holder, p)
      ensures tasks == old(tasks)[p := Draining(t.def)]
    {
      ReleaseClaim(t.holder, p);
      tasks := tasks[p := Draining(t.def)];
    }

    method Install(t: Task, p: ProbeId, i: InstallId)
      requires t.Claimed? && t.holder in holders
      modifies this`installed, this`counters, this`tasks
      ensures installed == old(installed)[p := Installed(i, t.def, holders[t.holder].bp)]
      ensures counters == old(counters)[i := Counters(t.def, true, 0, 0, 0)] && tasks == old(tasks) - {p}
    {
      installed := installed[p := Installed(i, t.def, holders[t.holder].bp)];
      counters := counters[i := Counters(t.def, true, 0, 0, 0)];
      tasks := tasks - {p};
    }

    /** Drops a claim, and the breakpoint once nothing claims it. */
    method ReleaseClaim(h: HolderId, p: ProbeId)
      requires h in holders && RegistryShape(Reg())
      modifies this`byBreakpoint, this`byLocation, this`holders, this`removing
      ensures Reg() == Release(old(Reg()), h, p)
      ensures removing == old(removing) + Freed(old(Reg()), h, p)
    {
      holders := holders[h := holders[h].(claims := holders[h].claims - {p})];
      var holder := holders[h];
      if holder.claims != {} || holder.bp !in byBreakpoint || byBreakpoint[holder.bp] != h {
        return;
      }
      byBreakpoint := byBreakpoint - {holder.bp};
      ForgetKeys(h, holder.keys);
      removing := removing + {holder.bp};
    }

    method ForgetKeys(h: HolderId, keys: set<Key>)
      modifies this`byLocation
      ensures byLocation
           == map k | k in old(byLocation) && !(k in keys && old(byLocation)[k] == h) :: old(byLocation)[k]
    {
      var todo := keys;
      while todo != {}
        invariant todo <= keys
        invariant forall k :: k in byLocation <==>
          k in old(byLocation) && !(k in keys - todo && old(byLocation)[k] == h)
        invariant forall k :: k in byLocation ==> byLocation[k] == old(byLocation)[k]
        decreases |todo|
      {
        var k :| k in todo;
        if k in byLocation && byLocation[k] == h {
          byLocation := byLocation - {k};
        }
        todo := todo - {k};
      }
    }

    method ReleaseBreakpointFor(bp: BreakpointId, p: ProbeId)
      requires RegistryShape(Reg())
      modifies this`byBreakpoint, this`byLocation, this`holders, this`removing
      ensures Reg() == ReleaseFor(old(Reg()), bp, p)
      ensures removing == old(removing) + FreedFor(old(Reg()), bp, p)
    {
      if bp in byBreakpoint {
        ReleaseClaim(byBreakpoint[bp], p);
      }
    }

    // ---- Reconcile ----

    method BeginReconcile(next: seq<Definition>, snapshot: seq<Installed>)
      requires Valid() && reconcile.Idle? && Enumerates(snapshot, installed.Values)
      modifies this`epoch, this`reconcile
      ensures Valid() && View() == DoReconcileBegin(old(View()), next, snapshot)
    {
      Lookups(View());
      hide Inv, DoReconcileBegin, Enumerates, RegistryShape;
      ReconcileBeginStep(View(), next, snapshot);
      TakeSnapshot(next, snapshot);
    }

    method TakeSnapshot(next: seq<Definition>, snapshot: seq<Installed>)
      modifies this`epoch, this`reconcile
      ensures View() == DoReconcileBegin(old(View()), next, snapshot)
    {
      hide Enumerates, RegistryShape;
      if stopped {
        return;
      }
      var changed := CompareDesired(next);
      if changed {
        epoch := epoch + 1;
      }
      var wanted := IndexById(next);
      var todo := FindUnwanted(wanted, snapshot);
      reconcile := Removing(next, todo);
    }

    method CompareDesired(next: seq<Definition>) returns (changed: bool)
      ensures changed == Differs(desired, next)
    {
      changed := |next| != |desired|;
      for k := 0 to |next|
        invariant changed == (|next| != |desired| || exists j | 0 <= j < k :: !Wanted(desired, next[j]))
      {
        if next[k].id !in desired || desired[next[k].id] != next[k] {
          changed := true;
        }
      }
    }

    method IndexById(next: seq<Definition>) returns (m: map<ProbeId, Definition>)
      ensures m == NextMap(next)
    {
      m := map[];
      for k := 0 to |next|
        invariant m == NextMap(next[..k])
      {
        assert next[..k + 1][..k] == next[..k];
        m := m[next[k].id := next[k]];
      }
      assert next[..|next|] == next;
    }

    method FindUnwanted(next: map<ProbeId, Definition>, snapshot: seq<Installed>) returns (todo: seq<Installed>)
      ensures todo == Unwanted(next, snapshot)
    {
      todo := [];
      for k := 0 to |snapshot|
        invariant Unwanted(next, snapshot) == todo + Unwanted(next, snapshot[k..])
      {
        var x := snapshot[k];
        assert snapshot[k..][0] == x && snapshot[k..][1..] == snapshot[k + 1..];
        if x.def.id !in next || next[x.def.id] != x.def {
          todo := todo + [x];
        }
      }
    }

    /** One round of the loop that uninstalls; the entry was read before the loop's awaits. */
    method UninstallNext()
      requires Valid() && reconcile.Removing? && reconcile.todo != []
      modifies this`counters, this`installed, this`reconcile
      modifies this`byBreakpoint, this`byLocation, this`holders, this`removing
      ensures Valid() <==> old(UninstallSafe(View()))
      ensures RegistryShape(Reg()) && View() == DoReconcileUninstall(old(View()))
    {
      Lookups(View());
      hide Inv, DoReconcileUninstall, RegistryShape, UninstallSafe;
      UninstallExact(View());
      UninstallEntry();
    }

    method UninstallEntry()
      requires reconcile.Removing? && reconcile.todo != [] && RegistryShape(Reg())
      modifies this`counters, this`installed, this`reconcile
      modifies this`byBreakpoint, this`byLocation, this`holders, this`removing
      ensures RegistryShape(Reg()) && View() == DoReconcileUninstall(old(View()))
    {
      hide ReleaseFor, FreedFor, Deactivate, RegistryShape, UninstallSafe;
      ghost var before := View();
      var inst := reconcile.todo[0];
      DeactivateAll({inst.i});
      installed := installed - {inst.def.id};
      reconcile := reconcile.(todo := reconcile.todo[1..]);
      ReleaseBreakpointFor(inst.bp, inst.def.id);
      assert View() == before.(counters := counters, installed := installed, reconcile := reconcile,
                               reg := Reg(), removing := removing);
    }

    method CommitReconcile()
      requires Valid() && reconcile.Removing? && reconcile.todo == []
      modifies this`exhausted, this`desired, this`reconcile
      ensures Valid() && View() == DoReconcileCommit(old(View()))
    {
      Lookups(View());
      hide Inv, DoReconcileCommit, RegistryShape;
      ReconcileCommitStep(View());
      ReplaceDesired();
    }

    method ReplaceDesired()
      requires reconcile.Removing? && reconcile.todo == []
      modifies this`exhausted, this`desired, this`reconcile
      ensures View() == DoReconcileCommit(old(View()))
    {
      hide StillExhausted, RegistryShape;
      var next := IndexById(reconcile.next);
      ForgetExhausted(next);
      desired := next;
      reconcile := Idle;
    }

    method ForgetExhausted(next: map<ProbeId, Definition>)
      modifies this`exhausted
      ensures exhausted == StillExhausted(old(exhausted), next)
    {
      var todo := exhausted.Keys;
      while todo != {}
        invariant todo <= old(exhausted).Keys && todo <= exhausted.Keys
        invariant forall p :: p in exhausted <==>
          p in old(exhausted) && (p in todo || (p in next && next[p] == old(exhausted)[p]))
        invariant forall p :: p in exhausted ==> exhausted[p] == old(exhausted)[p]
        decreases |todo|
      {
        var p :| p in todo;
        if p !in next || next[p] != exhausted[p] {
          exhausted := exhausted - {p};
        }
        todo := todo - {p};
      }
    }

    // ---- Suspension and stop ----

    method DeactivateAll(ids: set<InstallId>)
      modifies this`counters
      ensures counters == Deactivate(old(counters), ids)
    {
      var todo := ids;
      while todo != {}
        invariant todo <= ids && counters.Keys == old(counters).Keys
        invariant forall i :: i in counters ==>
          counters[i] == if i in ids - todo then old(counters)[i].(active := false, pending := 0) else old(counters)[i]
        decreases |todo|
      {
        var i :| i in todo;
        if i in counters {
          counters := counters[i := counters[i].(active := false, pending := 0)];
        }
        todo := todo - {i};
      }
    }

    method ClearBreakpointRegistry()
      requires RegistryShape(Reg())
      modifies this`byBreakpoint, this`byLocation, this`holders
      ensures Reg() == ClearRegistry(old(Reg()))
    {
      ghost var r := Reg();
      var todo := byBreakpoint.Values;
      byBreakpoint, byLocation := map[], map[];
      assert forall h :: h in r.byBreakpoint.Values <==> Registered(r, h);
      while todo != {}
        invariant byBreakpoint == map[] && byLocation == map[]
        invariant todo <= r.byBreakpoint.Values && holders.Keys == r.holders.Keys
        invariant forall h :: h in holders ==>
          holders[h] == if Registered(r, h) && h !in todo then r.holders[h].(claims := {}) else r.holders[h]
        decreases |todo|
      {
        var h :| h in todo;
        holders := holders[h := holders[h].(claims := {})];
        todo := todo - {h};
      }
    }

    /** What suspension, stop and a failed resume have in common. */
    method Clear()
      requires RegistryShape(Reg())
      modifies this`epoch, this`counters, this`installed, this`byBreakpoint, this`byLocation, this`holders
      ensures epoch == old(epoch) + 1 && installed == map[] && Reg() == ClearRegistry(old(Reg()))
      ensures counters == Deactivate(old(counters), InstallIds(old(installed)))
    {
      hide Deactivate, ClearRegistry, RegistryShape, InstallIds;
      epoch := epoch + 1;
      ClearBreakpointRegistry();
      DeactivateAll(InstallIds(installed));
      installed := map[];
    }

    method Suspend()
      requires Valid()
      modifies this`suspended, this`unposted, this`epoch, this`counters, this`installed
      modifies this`byBreakpoint, this`byLocation, this`holders
      ensures Valid() && View() == DoSuspendAll(old(View()))
    {
      Lookups(View());
      hide Inv, DoSuspendAll, RegistryShape;
      SuspendAllStep(View());
      SuspendNow();
    }

    method SuspendNow()
      requires RegistryShape(Reg())
      modifies this`suspended, this`unposted, this`epoch, this`counters, this`installed
      modifies this`byBreakpoint, this`byLocation, this`holders
      ensures View() == DoSuspendAll(old(View()))
    {
      hide Deactivate, ClearRegistry, RegistryShape, InstallIds;
      if stopped || suspended {
        return;
      }
      suspended := true;
      unposted := unposted + byBreakpoint.Keys;
      Clear();
    }

    method Halt()
      requires Valid()
      modifies this`stopped, this`desired, this`removing, this`epoch, this`counters, this`installed
      modifies this`byBreakpoint, this`byLocation, this`holders
      ensures Valid() && View() == DoStop(old(View()))
    {
      Lookups(View());
      hide Inv, DoStop, RegistryShape;
      StopStep(View());
      StopNow();
    }

    method StopNow()
      requires RegistryShape(Reg())
      modifies this`stopped, this`desired, this`removing, this`epoch, this`counters, this`installed
      modifies this`byBreakpoint, this`byLocation, this`holders
      ensures View() == DoStop(old(View()))
    {
      hide Cleared, RegistryShape;
      if stopped {
        return;
      }
      ghost var ids := byBreakpoint.Keys;
      ClearAll();
      ghost var cleared := View();
      stopped, desired := true, map[];
      removing := removing + ids;
      assert View() == cleared.(stopped := true, desired := map[], removing := removing);
    }

    /** `Clear`, stated for the whole state. */
    method ClearAll()
      requires RegistryShape(Reg())
      modifies this`epoch, this`counters, this`installed, this`byBreakpoint, this`byLocation, this`holders
      ensures View() == Cleared(old(View()))
    {
      hide Deactivate, ClearRegistry, RegistryShape, InstallIds;
      Clear();
    }

    method Resume()
      requires Valid()
      modifies this`suspended
      ensures Valid() <==> old(RearmSafe(View()))
      ensures View() == DoRearm(old(View()))
    {
      RearmExact(View());
      hide Inv, RearmSafe;
      if !stopped && !inspectorFailed {
        suspended := false;
      }
    }

    // ---- Hits ----

    /** The probes behind the breakpoints that a pause reports. */
    method ProbesAt(hit: set<BreakpointId>) returns (seen: set<ProbeId>)
      requires RegistryShape(Reg())
      ensures seen == set b, p | b in hit && b in byBreakpoint && p in holders[byBreakpoint[b]].claims :: p
    {
      seen := {};
      var todo := hit;
      while todo != {}
        invariant todo <= hit
        invariant forall p :: p in seen <==>
          exists b :: b in hit - todo && b in byBreakpoint && p in holders[byBreakpoint[b]].claims
        decreases |todo|
      {
        var b :| b in todo;
        ghost var before := seen;
        if b in byBreakpoint {
          seen := seen + holders[byBreakpoint[b]].claims;
        }
        forall p
          ensures p in seen <==>
            exists c :: c in hit - (todo - {b}) && c in byBreakpoint && p in holders[byBreakpoint[c]].claims
        {
          if p in before {
            var c :| c in hit - todo && c in byBreakpoint && p in holders[byBreakpoint[c]].claims;
            assert c in hit - (todo - {b});
          }
        }
        todo := todo - {b};
      }
    }

    method FindCandidates(hit: set<BreakpointId>) returns (candidates: set<InstallId>)
      requires RegistryShape(Reg())
      ensures candidates == Candidates(View(), hit)
    {
      var seen := ProbesAt(hit);
      candidates := {};
      var todo := seen;
      while todo != {}
        invariant todo <= seen
        invariant forall i :: i in candidates <==>
          exists p :: p in seen - todo && p in installed && installed[p].i in counters && Ready(View(), hit, p)
              && i == installed[p].i
        decreases |todo|
      {
        var p :| p in todo;
        if p in installed && installed[p].i in counters {
          var c := counters[installed[p].i];
          if c.active && !suspended && !inspectorFailed && c.hits + c.pending < c.def.hitLimit {
            candidates := candidates + {installed[p].i};
          }
        }
        todo := todo - {p};
      }
    }

    method Pause(hit: set<BreakpointId>, token: bool, order: seq<InstallId>, c: CaptureId)
      requires Valid() && c !in captures && Enumerates(order, Counted(View(), Candidates(View(), hit)))
      modifies this
      ensures Valid() && View() == DoHandlePaused(old(View()), hit, token, order, c)
    {
      Lookups(View());
      hide Inv, DoHandlePaused, RegistryShape, Enumerates, Candidates, Counted;
      HandlePausedStep(View(), hit, token, order, c);
      TakePause(hit, token, order, c);
    }

    method TakePause(hit: set<BreakpointId>, token: bool, order: seq<InstallId>, c: CaptureId)
      requires RegistryShape(Reg())
      modifies this
      ensures View() == DoHandlePaused(old(View()), hit, token, order, c)
    {
      hide Enumerates, Candidates, CountAll, AddPending, RegistryShape;
      var candidates := FindCandidates(hit);
      if candidates == {} {
        return;
      }
      if !token {
        var counted := set i | i in candidates && i in counters && CountsWithoutCapture(counters[i].def);
        CountEach(order, counted);
        return;
      }
      ghost var before := View();
      HoldPending(candidates);
      captures := captures[c := Capture(candidates, epoch)];
      assert View() == before.(counters := counters, captures := captures);
    }

    method HoldPending(ids: set<InstallId>)
      modifies this`counters
      ensures counters == AddPending(old(counters), ids)
    {
      var todo := ids;
      while todo != {}
        invariant todo <= ids && counters.Keys == old(counters).Keys
        invariant forall i :: i in counters ==>
          counters[i] == if i in ids - todo then old(counters)[i].(pending := old(counters)[i].pending + 1)
              else old(counters)[i]
        decreases |todo|
      {
        var i :| i in todo;
        if i in counters {
          counters := counters[i := counters[i].(pending := counters[i].pending + 1)];
        }
        todo := todo - {i};
      }
    }

    method DropPending(ids: set<InstallId>)
      modifies this`counters
      ensures counters == ReleasePending(old(counters), ids)
    {
      var todo := ids;
      while todo != {}
        invariant todo <= ids && counters.Keys == old(counters).Keys
        invariant forall i :: i in counters ==>
          counters[i] == if i in ids - todo && old(counters)[i].pending > 0
                         then old(counters)[i].(pending := old(counters)[i].pending - 1) else old(counters)[i]
        decreases |todo|
      {
        var i :| i in todo;
        if i in counters && counters[i].pending > 0 {
          counters := counters[i := counters[i].(pending := counters[i].pending - 1)];
        }
        todo := todo - {i};
      }
    }

    method RetireAtHitLimit(i: InstallId)
      requires Current(View(), i) && RegistryShape(Reg())
      modifies this`counters, this`installed, this`exhausted
      modifies this`byBreakpoint, this`byLocation, this`holders, this`removing
      ensures View() == Retire(old(View()), i)
      ensures old(Valid()) ==> Valid()
    {
      hide Inv, RegistryShape;
      if Inv(View()) { RetireStep(View(), i); }
      hide Retire, Current;
      LeaveAtHitLimit(i);
    }

    method LeaveAtHitLimit(i: InstallId)
      requires Current(View(), i) && RegistryShape(Reg())
      modifies this`counters, this`installed, this`exhausted
      modifies this`byBreakpoint, this`byLocation, this`holders, this`removing
      ensures View() == Retire(old(View()), i)
    {
      hide ReleaseFor, FreedFor, Deactivate, RegistryShape;
      ghost var before := View();
      var def := counters[i].def;
      var inst := installed[def.id];
      DeactivateAll({i});
      installed := installed - {def.id};
      exhausted := exhausted[def.id := def];
      ReleaseBreakpointFor(inst.bp, def.id);
      assert View() == before.(counters := counters, installed := installed, exhausted := exhausted,
                               reg := Reg(), removing := removing);
    }

    method ProcessHit(i: InstallId)
      requires Current(View(), i) && RegistryShape(Reg())
      modifies this`counters, this`installed, this`exhausted
      modifies this`byBreakpoint, this`byLocation, this`holders, this`removing
      ensures View() == CountHit(old(View()), i)
    {
      hide Retire, RegistryShape;
      ghost var before := View();
      counters := counters[i := Bumped(counters[i])];
      assert View() == before.(counters := counters);
      if counters[i].hits >= counters[i].def.hitLimit {
        LeaveAtHitLimit(i);
      }
    }

    /** Counts a hit for each of the probes that matched and are still installed. */
    method CountEach(order: seq<InstallId>, matching: set<InstallId>)
      requires RegistryShape(Reg())
      modifies this`counters, this`installed, this`exhausted
      modifies this`byBreakpoint, this`byLocation, this`holders, this`removing
      ensures View() == CountAll(old(View()), order, matching)
    {
      hide CountHit, RegistryShape;
      for k := 0 to |order|
        invariant RegistryShape(Reg())
        invariant CountAll(old(View()), order, matching) == CountAll(View(), order[k..], matching)
      {
        var i := order[k];
        assert order[k..][0] == i && order[k..][1..] == order[k + 1..];
        if i in matching && i in counters && counters[i].active
           && counters[i].def.id in installed && installed[counters[i].def.id].i == i {
          ProcessHit(i);
        }
      }
    }

    /** The capture is over and the program runs again. */
    method FinishCapture(c: CaptureId, failed: bool, order: seq<InstallId>, matching: set<InstallId>)
      requires Valid() && c in captures && Enumerates(order, captures[c].candidates)
      modifies this
      ensures Valid() && View() == DoProcessCapture(old(View()), c, failed, order, matching)
    {
      Lookups(View());
      hide Inv, DoProcessCapture, RegistryShape, Enumerates;
      ProcessCaptureStep(View(), c, failed, order, matching);
      SettleCapture(c, failed, order, matching);
    }

    method SettleCapture(c: CaptureId, failed: bool, order: seq<InstallId>, matching: set<InstallId>)
      requires c in captures && RegistryShape(Reg())
      modifies this
      ensures View() == DoProcessCapture(old(View()), c, failed, order, matching)
    {
      hide Enumerates, CountAll, ReleasePending, RegistryShape;
      ghost var before := View();
      var capture := captures[c];
      DropPending(capture.candidates);
      captures := captures - {c};
      assert View() == Settled(before, c);
      if stopped || suspended || inspectorFailed || capture.epoch != epoch || failed {
        return;
      }
      CountEach(order, matching);
    }

    /** Neither resume worked: the session is given up. */
    method HandleResumeFailure(lost: Option<CaptureId>)
      requires Valid() && (lost.Some? ==> lost.value in captures)
      modifies this
      ensures Valid() && View() == DoResumeFailed(old(View()), lost)
    {
      Lookups(View());
      hide Inv, DoResumeFailed, RegistryShape;
      ResumeFailedStep(View(), lost);
      GiveUpSession(lost);
    }

    method GiveUpSession(lost: Option<CaptureId>)
      requires lost.Some? ==> lost.value in captures
      requires RegistryShape(Reg())
      modifies this
      ensures View() == DoResumeFailed(old(View()), lost)
    {
      hide ReleasePending, RegistryShape, Cleared;
      ghost var before := View();
      if lost.Some? {
        DropPending(captures[lost.value].candidates);
        captures := captures - {lost.value};
        assert View() == Settled(before, lost.value);
      }
      if inspectorFailed {
        return;
      }
      ghost var ids := byBreakpoint.Keys;
      ClearAll();
      ghost var cleared := View();
      inspectorFailed, suspended := true, true;
      orphans := orphans + ids;
      assert View() == cleared.(inspectorFailed := true, suspended := true, orphans := orphans);
    }
  }
}

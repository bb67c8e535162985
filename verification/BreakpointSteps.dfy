/** Every step of the probe manager keeps the invariant, with the two exceptions stated exactly. */
module BreakpointSteps {
  import opened BreakpointSharing
  import opened BreakpointSafety

  // ---- Arming ----

  /** A step that only replaces or drops the task of one probe that claims nothing. */
  lemma TaskStep(s: State, s': State, p: ProbeId)
    requires Inv(s) && p in s.tasks && !s.tasks[p].Claimed? && !Holds(s.tasks[p])
    requires s' == s.(tasks := s'.tasks, arming := s'.arming)
    requires s'.tasks == s.tasks - {p}
          || (p in s'.tasks && s'.tasks == s.tasks[p := s'.tasks[p]] && s'.tasks[p].def == s.tasks[p].def
              && !s'.tasks[p].Claimed? && !Holds(s'.tasks[p]))
    ensures Inv(s')
  {
    var t := if p in s'.tasks then s'.tasks[p] else s.tasks[p];
    OtherTaskCore(s.reg, s.installed, s.tasks, s.suspended || s.stopped, t);
    PutTask(s.tasks, p, t);
  }

  lemma StartTaskStep(s: State, s': State, def: Definition)
    requires Inv(s) && MayArm(s, def)
    requires s' == s.(tasks := s'.tasks, arming := s'.arming)
    requires def.id in s'.tasks && s'.tasks == s.tasks[def.id := s'.tasks[def.id]] && s'.tasks[def.id].def == def
    requires !s'.tasks[def.id].Claimed? && !Holds(s'.tasks[def.id])
    ensures Inv(s')
  {
    OtherTaskCore(s.reg, s.installed, s.tasks, s.suspended || s.stopped, s'.tasks[def.id]);
    PutTask(s.tasks, def.id, s'.tasks[def.id]);
  }

  lemma LocationLeadsToHolder(r: Registry, installed: map<ProbeId, Installed>, tasks: map<ProbeId, Task>, held: bool,
                              key: Key)
    requires Core(r, installed, tasks, held) && key in r.byLocation
    ensures Registered(r, r.byLocation[key])
  {
  }

  lemma ClaimExistingStep(s: State, def: Definition, key: Key)
    requires Inv(s) && key in s.reg.byLocation && def.id !in s.installed
    requires def.id in s.tasks ==> s.tasks[def.id].Waiting?
    requires def.id in s.exhausted ==> s.exhausted[def.id] != def
    requires s.reg.byLocation[key] in s.reg.holders
    ensures Inv(ClaimExisting(s, def, key))
  {
    hide Core, HitsOk, LiveOk;
    var h := s.reg.byLocation[key];
    LocationLeadsToHolder(s.reg, s.installed, s.tasks, s.suspended || s.stopped, key);
    AddClaimCore(s.reg, s.installed, s.tasks, s.suspended || s.stopped, def, h);
    PutTask(s.tasks, def.id, Claimed(def, h));
  }

  lemma StartArmStep(s: State, def: Definition, key: Key)
    requires Inv(s) && Enabled(s, StartArm(def, key))
    ensures Inv(DoStartArm(s, def, key))
  {
    if MayArm(s, def) {
      if key in s.reg.byLocation { ClaimExistingStep(s, def, key); }
      else { StartTaskStep(s, DoStartArm(s, def, key), def); }
    }
  }

  lemma ResumeWaiterStep(s: State, p: ProbeId)
    requires Inv(s) && Enabled(s, ResumeWaiter(p))
    ensures Inv(DoResumeWaiter(s, p))
  {
    if s.tasks[p].key in s.reg.byLocation { ClaimExistingStep(s, s.tasks[p].def, s.tasks[p].key); }
    else { TaskStep(s, DoResumeWaiter(s, p), p); }
  }

  lemma AnswerTask(tasks: map<ProbeId, Task>, p: ProbeId, t: Task)
    requires Holds(t) && p in tasks && !Holds(tasks[p])
    ensures Unclaimed(tasks[p := t]) == Unclaimed(tasks) + {t.result.bp}
  {
    forall b | b in Unclaimed(tasks) ensures b in Unclaimed(tasks[p := t]) {
      var q :| q in tasks && Holds(tasks[q]) && tasks[q].result.bp == b;
      assert q in tasks[p := t] && tasks[p := t][q] == tasks[q];
    }
    assert tasks[p := t][p] == t;
  }

  /** A probe with a task is not installed, and the task is for that probe. */
  lemma Core0(s: State, p: ProbeId)
    requires Inv(s) && p in s.tasks
    ensures p !in s.installed && s.tasks[p].def.id == p
    ensures RegistryShape(s.reg) && LocationsOk(s.reg)
  {
  }

  lemma V8SetStep(s: State, p: ProbeId, result: SetResult)
    requires Inv(s) && Enabled(s, V8Set(p, result))
    ensures Inv(DoV8Set(s, p, result))
  {
    hide Core, HitsOk, LiveOk;
    var t := Answered(s.tasks[p].def, s.tasks[p].key, result);
    Core0(s, p);
    OtherTaskCore(s.reg, s.installed, s.tasks, s.suspended || s.stopped, t);
    if result.Refused? { PutTask(s.tasks, p, t); }
    else { AnswerTask(s.tasks, p, t); }
  }

  lemma NoLocationStep(s: State, p: ProbeId, h: HolderId)
    requires Inv(s) && Enabled(s, DeliverSet(p, h)) && s.tasks[p].result.NoLocation?
    ensures Inv(DoDeliverSet(s, p, h))
  {
    hide Core, HitsOk, LiveOk, DistinctAnswers, Unclaimed, LocationsOk, RegistryShape;
    var t := s.tasks[p];
    Core0(s, p);
    AbortAnswers(s.tasks, p, Clearing(t.def, t.key));
    OtherTaskCore(s.reg, s.installed, s.tasks, s.suspended || s.stopped, Clearing(t.def, t.key));
    DropAnswer(s.tasks, p);
    PutTask(s.tasks, p, Clearing(t.def, t.key));
  }

  lemma RegisterStep(s: State, p: ProbeId, h: HolderId)
    requires Inv(s) && Enabled(s, DeliverSet(p, h)) && s.tasks[p].result.Armed?
    ensures Inv(DoDeliverSet(s, p, h))
  {
    hide Core, HitsOk, LiveOk, LocationsOk, RegistryShape, Register, Unclaimed;
    var t := s.tasks[p];
    var s' := DoDeliverSet(s, p, h);
    Core0(s, p);
    DropAnswer(s.tasks, p);
    PutTask(s.tasks, p, Claimed(t.def, h));
    RegisterLocations(s.reg, h, t.result.bp, p, t.key, t.result.resolved);
    RegisterCore(s.reg, s'.reg, s.installed, s.tasks, s.suspended || s.stopped, t.def, h, t.result.bp);
  }

  lemma DeliverSetStep(s: State, p: ProbeId, h: HolderId)
    requires Inv(s) && Enabled(s, DeliverSet(p, h))
    ensures Inv(DoDeliverSet(s, p, h))
  {
    match s.tasks[p].result
    case Refused =>
      Core0(s, p);
      TaskStep(s, DoDeliverSet(s, p, h), p);
    case NoLocation(_) => NoLocationStep(s, p, h);
    case Armed(_, _) => RegisterStep(s, p, h);
  }

  lemma InstallStep(s: State, p: ProbeId, i: InstallId)
    requires Inv(s) && Enabled(s, FinishArm(p, i)) && StillWanted(s, s.tasks[p].def)
    ensures Inv(DoFinishArm(s, p, i))
  {
    hide Core, HitsOk, Unclaimed, RegistryShape;
    Core0(s, p);
    var t := s.tasks[p];
    var inst := Installed(i, t.def, s.reg.holders[t.holder].bp);
    PutTask(s.tasks, p, Draining(t.def));
    InstallCore(s.reg, s.installed, s.tasks, p, inst);
    InstallHits(s.counters, s.captures, i, t.def);
    var s' := DoFinishArm(s, p, i);
    assert s' == s.(tasks := s.tasks - {p}, installed := s.installed[p := inst],
                    counters := s.counters[i := Counters(t.def, true, 0, 0, 0)]);
  }

  lemma InstallHits(counters: map<InstallId, Counters>, captures: map<CaptureId, Capture>, i: InstallId,
                    def: Definition)
    requires HitsOk(counters, captures) && i !in counters
    ensures HitsOk(counters[i := Counters(def, true, 0, 0, 0)], captures)
  {
    assert InFlight(captures, i) == {};
  }

  lemma InstallCore(r: Registry, installed: map<ProbeId, Installed>, tasks: map<ProbeId, Task>, p: ProbeId,
                    inst: Installed)
    requires Core(r, installed, tasks, false) && p in tasks && tasks[p].Claimed?
    requires inst.def == tasks[p].def && inst.bp == r.holders[tasks[p].holder].bp
    ensures Core(r, installed[p := inst], tasks - {p}, false)
  {
    forall b, q | b in r.byBreakpoint && q in r.holders[r.byBreakpoint[b]].claims
      ensures Uses(r, installed[p := inst], tasks - {p}, b, q)
    {
      assert Uses(r, installed, tasks, b, q);
    }
  }

  lemma AbortAnswers(tasks: map<ProbeId, Task>, p: ProbeId, t: Task)
    requires DistinctAnswers(tasks) && !Holds(t)
    ensures DistinctAnswers(tasks[p := t])
  {
  }

  lemma AbortStep(s: State, p: ProbeId, i: InstallId)
    requires Inv(s) && Enabled(s, FinishArm(p, i)) && !StillWanted(s, s.tasks[p].def)
    ensures Inv(DoFinishArm(s, p, i))
  {
    hide Core, HitsOk, LiveOk, Release, Freed, DistinctAnswers, Unclaimed, LocationsOk, RegistryShape;
    Core0(s, p);
    var t := s.tasks[p];
    var s' := DoFinishArm(s, p, i);
    AbortAnswers(s.tasks, p, Draining(t.def));
    var held := s.suspended || s.stopped;
    LeaveCore(s.reg, s.installed, s.tasks, held, t.holder, p);
    assert s.installed - {p} == s.installed;
    OtherTaskCore(s'.reg, s.installed, s.tasks - {p}, held, Draining(t.def));
    assert (s.tasks - {p})[p := Draining(t.def)] == s'.tasks;
    PutTask(s.tasks, p, Draining(t.def));
  }

  lemma FinishArmStep(s: State, p: ProbeId, i: InstallId)
    requires Inv(s) && Enabled(s, FinishArm(p, i))
    ensures Inv(DoFinishArm(s, p, i))
  {
    if StillWanted(s, s.tasks[p].def) { InstallStep(s, p, i); } else { AbortStep(s, p, i); }
  }

  lemma V8RemoveStep(s: State, b: BreakpointId, ok: bool)
    requires Inv(s) && b in s.removing && Enabled(s, V8Remove(b, ok))
    ensures Inv(Apply(s, V8Remove(b, ok)))
  {
    hide Core, HitsOk, LiveOk, ExhaustedOk, Unclaimed, DistinctAnswers;
  }

  lemma PostSuspendedRemoveStep(s: State, b: BreakpointId)
    requires Inv(s) && b in s.unposted && Enabled(s, PostSuspendedRemove(b))
    ensures Inv(Apply(s, PostSuspendedRemove(b)))
  {
    hide Core, HitsOk, LiveOk, ExhaustedOk, Unclaimed, DistinctAnswers;
  }

  // ---- Clearing everything ----

  lemma ClearCore(r: Registry, installed: map<ProbeId, Installed>, tasks: map<ProbeId, Task>, held: bool)
    requires Core(r, installed, tasks, held)
    ensures Core(ClearRegistry(r), map[], tasks, true)
  {
  }

  lemma DeactivateSnapshot(reconcile: Reconcile, counters: map<InstallId, Counters>, ids: set<InstallId>)
    requires SnapshotOk(reconcile, counters)
    ensures SnapshotOk(reconcile, Deactivate(counters, ids))
  {
  }

  lemma ClearedParts(s: State)
    requires Inv(s)
    ensures Core(Cleared(s).reg, map[], s.tasks, true)
    ensures HitsOk(Cleared(s).counters, s.captures) && SnapshotOk(s.reconcile, Cleared(s).counters)
    ensures Cleared(s).reg.byBreakpoint == map[]
  {
    hide Core, HitsOk, LiveOk, ExhaustedOk, ArmedOk;
    var ids := InstallIds(s.installed);
    ClearCore(s.reg, s.installed, s.tasks, s.suspended || s.stopped);
    DeactivateHits(s.counters, s.captures, ids);
    DeactivateSnapshot(s.reconcile, s.counters, ids);
  }

  lemma SuspendAllStep(s: State)
    requires Inv(s)
    ensures Inv(DoSuspendAll(s))
  {
    hide Core, HitsOk, ClearRegistry, Deactivate, Unclaimed, DistinctAnswers, SnapshotOk;
    ClearedParts(s);
  }

  lemma StopStep(s: State)
    requires Inv(s)
    ensures Inv(DoStop(s))
  {
    hide Core, HitsOk, ClearRegistry, Deactivate, Unclaimed, DistinctAnswers, SnapshotOk;
    ClearedParts(s);
  }

  lemma SettledStep(s: State, c: CaptureId)
    requires Inv(s) && c in s.captures
    ensures Inv(Settled(s, c))
    ensures forall i | i in s.captures[c].candidates && i in Settled(s, c).counters
        && Settled(s, c).counters[i].active ::
      HasRoom(Settled(s, c).counters[i])
  {
    hide Core, HitsOk, ExhaustedOk, Accounted, Unclaimed, DistinctAnswers;
    ReleaseHits(s.counters, s.captures, c);
  }

  lemma ResumeFailedStep(s: State, lost: Option<CaptureId>)
    requires Inv(s) && Enabled(s, ResumeFailed(lost))
    ensures Inv(DoResumeFailed(s, lost))
  {
    hide Inv, Cleared;
    var released := if lost.None? then s else Settled(s, lost.value);
    if lost.Some? { SettledStep(s, lost.value); }
    if !s.inspectorFailed { AbandonStep(released); }
  }

  /** Giving the session up keeps the invariant. */
  lemma AbandonStep(s: State)
    requires Inv(s)
    ensures Inv(Cleared(s).(inspectorFailed := true, suspended := true, orphans := s.orphans + s.reg.byBreakpoint.Keys))
  {
    hide Core, HitsOk, ClearRegistry, Deactivate, Unclaimed, DistinctAnswers, SnapshotOk;
    ClearedParts(s);
  }
}

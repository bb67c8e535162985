/**
 How `reconcile` can leave a breakpoint armed with nothing installed on it. While the removal of one
 snapshot entry is awaited, the next entry reaches its hit limit and a newer definition of the same
 probe is armed elsewhere. The stale entry then deletes that newer installation by id, and releases
 the breakpoint of the old one.
 */
module BreakpointLeak {
  import opened BreakpointSharing
  import opened BreakpointSafety
  import opened BreakpointSteps
  import opened BreakpointRuns
  import opened BreakpointLeakLasts

  /** The next snapshot entry was retired meanwhile, and its probe is wanted with another definition. */
  ghost predicate StaleEntry(s: State, newer: Definition) {
    && s.reconcile.Removing? && s.reconcile.todo != []
    && !s.suspended && !s.stopped && !s.inspectorFailed
    && var p := s.reconcile.todo[0].def.id;
       && p !in s.installed && p !in s.tasks
       && p in s.exhausted && s.exhausted[p] == s.reconcile.todo[0].def
       && p in s.desired && s.desired[p] == newer && newer.id == p && newer != s.reconcile.todo[0].def
  }

  /** Ids no live object uses. */
  ghost predicate FreshFor(s: State, key: Key, bp: BreakpointId, h: HolderId, i: InstallId) {
    key !in s.reg.byLocation && key !in s.arming && bp !in s.armed && h !in s.reg.holders && i !in s.counters
  }

  /** `s'` follows from `s` by one enabled step that keeps the invariant. */
  ghost predicate Step(s: State, a: Action, s': State) {
    Enabled(s, a) && s' == Apply(s, a) && Inv(s')
  }

  lemma Shape(s: State)
    requires Inv(s)
    ensures RegistryShape(s.reg)
  {
  }

  lemma PostNewer(s: State, newer: Definition, key: Key)
    requires Inv(s) && StaleEntry(s, newer) && key !in s.reg.byLocation && key !in s.arming
    ensures Step(s, StartArm(newer, key), Post(s, newer, key))
  {
    hide Inv;
    Shape(s);
    StepKeepsInv(s, StartArm(newer, key));
  }

  lemma AnswerNewer(s: State, p: ProbeId, bp: BreakpointId)
    requires Inv(s) && p in s.tasks && s.tasks[p].Posted? && bp !in s.armed
    ensures Step(s, V8Set(p, Armed(bp, None)), DoV8Set(s, p, Armed(bp, None)))
  {
    hide Inv;
    Shape(s);
    StepKeepsInv(s, V8Set(p, Armed(bp, None)));
  }

  lemma ClaimNewer(s: State, p: ProbeId, h: HolderId)
    requires Inv(s) && p in s.tasks && s.tasks[p].Answered? && h !in s.reg.holders
    ensures Step(s, DeliverSet(p, h), DoDeliverSet(s, p, h))
  {
    hide Inv;
    Shape(s);
    StepKeepsInv(s, DeliverSet(p, h));
  }

  lemma InstallNewer(s: State, p: ProbeId, i: InstallId)
    requires Inv(s) && p in s.tasks && s.tasks[p].Claimed? && s.tasks[p].holder in s.reg.holders && i !in s.counters
    ensures RegistryShape(s.reg) && Step(s, FinishArm(p, i), DoFinishArm(s, p, i))
  {
    hide Inv;
    Shape(s);
    StepKeepsInv(s, FinishArm(p, i));
  }

  /**
   From every such state, arming the newer definition on a fresh breakpoint and then uninstalling the
   stale entry leaves that breakpoint registered and armed with no probe behind it.
   */
  lemma StaleUninstallLeaks(s: State, newer: Definition, key: Key, bp: BreakpointId, h: HolderId, i: InstallId)
      returns (posted: State, answered: State, claimed: State, before: State)
    requires Inv(s) && StaleEntry(s, newer) && FreshFor(s, key, bp, h, i) && bp != s.reconcile.todo[0].bp
    ensures Step(s, StartArm(newer, key), posted)
    ensures Step(posted, V8Set(newer.id, Armed(bp, None)), answered)
    ensures Step(answered, DeliverSet(newer.id, h), claimed)
    ensures Step(claimed, FinishArm(newer.id, i), before)
    ensures Enabled(before, ReconcileUninstall)
    ensures var after := Apply(before, ReconcileUninstall);
      && !Inv(after)
      && ((forall t | t in s.reconcile.todo[1..] :: t.def.id != newer.id) ==> Leaked(after, bp, newer.id))
  {
    hide Inv, Step, RegistryShape, ReleaseFor, FreedFor, Deactivate, Leaked;
    var p := newer.id;
    PostNewer(s, newer, key);
    posted := Post(s, newer, key);
    StepInv(s, StartArm(newer, key), posted);
    AnswerNewer(posted, p, bp);
    answered := DoV8Set(posted, p, Armed(bp, None));
    StepInv(posted, V8Set(p, Armed(bp, None)), answered);
    ClaimNewer(answered, p, h);
    claimed := DoDeliverSet(answered, p, h);
    StepInv(answered, DeliverSet(p, h), claimed);
    InstallNewer(claimed, p, i);
    before := DoFinishArm(claimed, p, i);
    StepInv(claimed, FinishArm(p, i), before);
    Shape(before);
    LeakAfter(before);
  }

  lemma StepInv(s: State, a: Action, s': State)
    requires Step(s, a, s')
    ensures Inv(s')
  {
  }

  lemma LeakAfter(s: State)
    requires Inv(s) && Enabled(s, ReconcileUninstall)
    requires var inst := s.reconcile.todo[0]; inst.def.id in s.installed && s.installed[inst.def.id].bp != inst.bp
    ensures var p := s.reconcile.todo[0].def.id; var after := Apply(s, ReconcileUninstall);
      && !Inv(after)
      && ((forall t | t in s.reconcile.todo[1..] :: t.def.id != p) ==> Leaked(after, s.installed[p].bp, p))
  {
    hide Inv, Core, ReleaseFor, FreedFor, Deactivate, Leaked;
    UninstallExact(s);
    var inst := s.reconcile.todo[0];
    if forall t | t in s.reconcile.todo[1..] :: t.def.id != inst.def.id { LeakIsLeft(s); }
  }

  /** The newer installation's claim, breakpoint and V8 state as the stale uninstall leaves them. */
  lemma LeakIsLeft(s: State)
    requires Inv(s) && Enabled(s, ReconcileUninstall)
    requires var inst := s.reconcile.todo[0]; inst.def.id in s.installed && s.installed[inst.def.id].bp != inst.bp
    requires forall t | t in s.reconcile.todo[1..] :: t.def.id != s.reconcile.todo[0].def.id
    ensures Leaked(DoReconcileUninstall(s), s.installed[s.reconcile.todo[0].def.id].bp, s.reconcile.todo[0].def.id)
  {
    var inst, s' := s.reconcile.todo[0], DoReconcileUninstall(s);
    var p := inst.def.id;
    var b := s.installed[p].bp;
    hide Inv, Core, RegistryShape, Enabled, DoReconcileUninstall, Uses;
    InstalledFacts(s, p);
    NotUnderWay(s, b);
    ClaimIsLeft(s, s');
    UninstallParts(s);
    hide Leaked, Keeps;
    Assemble(s, s', inst, b);
  }

  lemma Assemble(s: State, s': State, inst: Installed, b: BreakpointId)
    requires s'.tasks == s.tasks && s'.installed == s.installed - {inst.def.id} && s'.armed == s.armed
    requires s'.unposted == s.unposted && s'.removing <= s.removing + {inst.bp} && b != inst.bp
    requires s'.reconcile.Removing? && forall t | t in s'.reconcile.todo :: t.def.id != inst.def.id
    requires inst.def.id !in s.tasks && b in s.armed && b !in s.removing && b !in s.unposted
    requires forall q | q in s.tasks && Holds(s.tasks[q]) :: s.tasks[q].result.bp != b
    requires Keeps(s'.reg, b, inst.def.id)
    ensures Leaked(s', b, inst.def.id)
  {
    hide Keeps;
  }

  lemma ClaimIsLeft(s: State, s': State)
    requires Inv(s) && Enabled(s, ReconcileUninstall) && s' == DoReconcileUninstall(s)
    requires var inst := s.reconcile.todo[0]; inst.def.id in s.installed && s.installed[inst.def.id].bp != inst.bp
    ensures Keeps(s'.reg, s.installed[s.reconcile.todo[0].def.id].bp, s.reconcile.todo[0].def.id)
  {
    hide Inv, Core, RegistryShape, Enabled, DoReconcileUninstall, Uses;
    UninstallLeaksClaim(s, s');
  }

  lemma UninstallParts(s: State)
    requires s.reconcile.Removing? && s.reconcile.todo != [] && RegistryShape(s.reg)
    ensures var s' := DoReconcileUninstall(s); var inst := s.reconcile.todo[0];
      && s'.tasks == s.tasks && s'.installed == s.installed - {inst.def.id} && s'.armed == s.armed
      && s'.unposted == s.unposted && s'.removing <= s.removing + {inst.bp}
      && s'.reconcile == Removing(s.reconcile.next, s.reconcile.todo[1..])
  {
    FreedIsOld(s.reg, s.reconcile.todo[0].bp, s.reconcile.todo[0].def.id);
    hide ReleaseFor, FreedFor, Deactivate, RegistryShape;
  }

  lemma FreedIsOld(r: Registry, bp: BreakpointId, p: ProbeId)
    requires RegistryShape(r)
    ensures FreedFor(r, bp, p) <= {bp}
  {
  }

  lemma NotUnderWay(s: State, b: BreakpointId)
    requires Inv(s) && b in s.reg.byBreakpoint
    ensures b in s.armed && b !in s.removing && b !in s.unposted
    ensures forall q | q in s.tasks && Holds(s.tasks[q]) :: s.tasks[q].result.bp != b
  {
    hide Core, HitsOk, LiveOk, ExhaustedOk, SnapshotOk;
    forall q | q in s.tasks && Holds(s.tasks[q]) ensures s.tasks[q].result.bp in Unclaimed(s.tasks) {}
  }
}

/** What the manager achieves, beyond keeping its invariant: hits are counted once, and a reconcile takes effect. */
module BreakpointEffects {
  import opened BreakpointSharing
  import opened BreakpointSafety
  import opened BreakpointSteps
  import opened BreakpointRuns

  // ---- Who a pause is for ----

  /** The installed probes on the breakpoints that were hit, if they have hits left and nothing is suspended. */
  ghost predicate Affected(s: State, hit: set<BreakpointId>, p: ProbeId) {
    && p in s.installed && s.installed[p].i in s.counters
    && s.installed[p].bp in hit && HasRoom(s.counters[s.installed[p].i])
    && !s.suspended && !s.inspectorFailed
  }

  lemma AffectedIsReady(s: State, hit: set<BreakpointId>, p: ProbeId)
    requires Inv(s) && p in s.installed && s.installed[p].i in s.counters
    ensures Ready(s, hit, p) <==> Affected(s, hit, p)
  {
    hide HitsOk, ArmedOk, ExhaustedOk, SnapshotOk;
    if Affected(s, hit, p) {
      var b := s.installed[p].bp;
      assert b in hit && b in s.reg.byBreakpoint && p in s.reg.holders[s.reg.byBreakpoint[b]].claims;
    }
    if Ready(s, hit, p) {
      var b :| b in hit && b in s.reg.byBreakpoint && s.reg.byBreakpoint[b] in s.reg.holders
               && p in s.reg.holders[s.reg.byBreakpoint[b]].claims;
      assert Uses(s.reg, s.installed, s.tasks, b, p);
    }
  }

  /** Shared or not, a pause captures for exactly those probes. */
  lemma PauseReachesItsProbes(s: State, hit: set<BreakpointId>, i: InstallId)
    requires Inv(s)
    ensures i in Candidates(s, hit) <==> exists p :: Affected(s, hit, p) && s.installed[p].i == i
  {
    hide Inv, Ready;
    if i in Candidates(s, hit) {
      var p :| p in s.installed && s.installed[p].i in s.counters && Ready(s, hit, p) && s.installed[p].i == i;
      AffectedIsReady(s, hit, p);
    }
    if p :| Affected(s, hit, p) && s.installed[p].i == i {
      AffectedIsReady(s, hit, p);
    }
  }

  // ---- Every hit counts once ----

  function Hits(s: State, i: InstallId): nat {
    if i in s.counters then s.counters[i].hits else 0
  }

  lemma CountHitHits(s: State, i: InstallId, j: InstallId)
    requires Current(s, i) && RegistryShape(s.reg)
    ensures Hits(CountHit(s, i), j) == Hits(s, j) + (if j == i then 1 else 0)
    ensures j != i ==> (Current(CountHit(s, i), j) <==> Current(s, j))
  {
    hide ReleaseFor, FreedFor, RegistryShape;
  }

  /** Each matching probe that is still installed gets exactly one hit, and no other probe any. */
  lemma {:induction false} HitsAreCountedOnce(s: State, order: seq<InstallId>, matching: set<InstallId>, j: InstallId)
    requires RegistryShape(s.reg)
    requires forall k, l | 0 <= k < l < |order| :: order[k] != order[l]
    ensures Hits(CountAll(s, order, matching), j)
         == Hits(s, j) + (if j in order && j in matching && Current(s, j) then 1 else 0)
    decreases |order|
  {
    if order != [] {
      var i, rest := order[0], order[1..];
      assert i !in rest;
      assert j in order <==> j == i || j in rest;
      if i in matching && Current(s, i) {
        CountHitHits(s, i, j);
        hide CountHit, Current, RegistryShape;
        HitsAreCountedOnce(CountHit(s, i), rest, matching, j);
      } else {
        HitsAreCountedOnce(s, rest, matching, j);
      }
    }
  }

  // ---- A reconcile that nothing interrupts ----

  /** The snapshot entries still to come are what is installed, one for each probe. */
  ghost predicate Fresh(todo: seq<Installed>, installed: map<ProbeId, Installed>) {
    && (forall t | t in todo :: t.def.id in installed && installed[t.def.id] == t)
    && (forall j, k | 0 <= j < k < |todo| :: todo[j].def.id != todo[k].def.id)
  }

  function UninstallAll(s: State): State
    requires s.reconcile.Removing? && RegistryShape(s.reg)
    decreases if s.reconcile.Removing? then |s.reconcile.todo| else 0
  {
    if s.reconcile.todo == [] then s else UninstallAll(DoReconcileUninstall(s))
  }

  lemma FreshStep(s: State)
    requires Inv(s) && Enabled(s, ReconcileUninstall) && Fresh(s.reconcile.todo, s.installed)
    ensures Inv(DoReconcileUninstall(s))
  {
    hide Inv;
    InstalledFacts(s, s.reconcile.todo[0].def.id);
    UninstallExact(s);
  }

  lemma FreshRest(todo: seq<Installed>, installed: map<ProbeId, Installed>)
    requires todo != [] && Fresh(todo, installed)
    ensures Fresh(todo[1..], installed - {todo[0].def.id})
  {
    forall t | t in todo[1..] ensures t.def.id in installed - {todo[0].def.id} && installed[t.def.id] == t {
      var k :| 0 <= k < |todo[1..]| && todo[1..][k] == t;
      assert todo[k + 1] == t;
    }
  }

  ghost predicate Listed(todo: seq<Installed>, p: ProbeId) {
    exists t :: t in todo && t.def.id == p
  }

  lemma ListedHead(todo: seq<Installed>, p: ProbeId)
    requires todo != []
    ensures Listed(todo, p) <==> p == todo[0].def.id || Listed(todo[1..], p)
  {
    if Listed(todo, p) {
      var t :| t in todo && t.def.id == p;
      assert t == todo[0] || t in todo[1..];
    }
  }

  lemma {:induction false} UninstallAllExact(s: State)
    requires Inv(s) && RegistryShape(s.reg) && s.reconcile.Removing? && Fresh(s.reconcile.todo, s.installed)
    ensures var t := UninstallAll(s);
      && Inv(t) && t.reconcile == Removing(s.reconcile.next, []) && t.desired == s.desired
      && t.stopped == s.stopped && t.exhausted == s.exhausted
      && (forall p :: p in t.installed <==> p in s.installed && !Listed(s.reconcile.todo, p))
      && (forall p | p in t.installed :: t.installed[p] == s.installed[p])
    decreases if s.reconcile.Removing? then |s.reconcile.todo| else 0
  {
    hide Inv;
    var todo := s.reconcile.todo;
    if todo != [] {
      var next := DoReconcileUninstall(s);
      FreshStep(s);
      FreshRest(todo, s.installed);
      UninstallFrame(s);
      hide DoReconcileUninstall, RegistryShape, Fresh, Listed;
      UninstallAllExact(next);
      forall p ensures Listed(todo, p) <==> p == todo[0].def.id || Listed(todo[1..], p) {
        ListedHead(todo, p);
      }
    }
  }

  lemma UninstallFrame(s: State)
    requires s.reconcile.Removing? && s.reconcile.todo != [] && RegistryShape(s.reg)
    ensures var next := DoReconcileUninstall(s); var todo := s.reconcile.todo;
      && next.installed == s.installed - {todo[0].def.id} && next.reconcile == Removing(s.reconcile.next, todo[1..])
      && next.desired == s.desired && next.stopped == s.stopped && RegistryShape(next.reg)
  {
    hide ReleaseFor, FreedFor, Deactivate, RegistryShape;
  }

  lemma {:induction false} UnwantedExact(next: map<ProbeId, Definition>, snapshot: seq<Installed>, inst: Installed)
    ensures inst in Unwanted(next, snapshot) <==> inst in snapshot && !Wanted(next, inst.def)
    decreases |snapshot|
  {
    if snapshot != [] {
      UnwantedExact(next, snapshot[1..], inst);
      assert inst in snapshot <==> inst == snapshot[0] || inst in snapshot[1..];
    }
  }

  lemma {:induction false} UnwantedDistinct(next: map<ProbeId, Definition>, snapshot: seq<Installed>)
    requires forall j, k | 0 <= j < k < |snapshot| :: snapshot[j].def.id != snapshot[k].def.id
    ensures var todo := Unwanted(next, snapshot);
      forall j, k | 0 <= j < k < |todo| :: todo[j].def.id != todo[k].def.id
    decreases |snapshot|
  {
    if snapshot != [] {
      UnwantedDistinct(next, snapshot[1..]);
      var rest := Unwanted(next, snapshot[1..]);
      forall k | 0 <= k < |rest| ensures rest[k].def.id != snapshot[0].def.id {
        UnwantedExact(next, snapshot[1..], rest[k]);
        var j :| 0 <= j < |snapshot[1..]| && snapshot[1..][j] == rest[k];
        assert snapshot[j + 1] == rest[k];
      }
    }
  }

  lemma SnapshotEntries(installed: map<ProbeId, Installed>, snapshot: seq<Installed>)
    requires Enumerates(snapshot, installed.Values) && forall p | p in installed :: installed[p].def.id == p
    ensures forall t | t in snapshot :: t.def.id in installed && installed[t.def.id] == t
    ensures forall p | p in installed :: installed[p] in snapshot
    ensures forall j, k | 0 <= j < k < |snapshot| :: snapshot[j].def.id != snapshot[k].def.id
  {
    forall t | t in snapshot ensures t.def.id in installed && installed[t.def.id] == t {
      assert t in installed.Values;
      var p :| p in installed && installed[p] == t;
    }
    assert forall j | 0 <= j < |snapshot| :: snapshot[j] in snapshot;
    assert forall p | p in installed :: installed[p] in installed.Values;
  }

  lemma SnapshotIsFresh(installed: map<ProbeId, Installed>, next: map<ProbeId, Definition>, snapshot: seq<Installed>)
    requires Enumerates(snapshot, installed.Values) && forall p | p in installed :: installed[p].def.id == p
    ensures Fresh(Unwanted(next, snapshot), installed)
    ensures forall p | p in installed :: Listed(Unwanted(next, snapshot), p) <==> !Wanted(next, installed[p].def)
  {
    SnapshotEntries(installed, snapshot);
    hide Unwanted, Enumerates;
    UnwantedDistinct(next, snapshot);
    forall t ensures t in Unwanted(next, snapshot) <==> t in snapshot && !Wanted(next, t.def) {
      UnwantedExact(next, snapshot, t);
    }
  }

  /**
   If nothing interleaves, a reconcile leaves installed exactly the probes whose definition is still
   wanted, as they were, and makes the new list the desired one.
   */
  lemma ReconcileTakesEffect(s: State, next: seq<Definition>, snapshot: seq<Installed>)
    requires Inv(s) && Enabled(s, ReconcileBegin(next, snapshot)) && !s.stopped
    ensures var begun := DoReconcileBegin(s, next, snapshot);
      begun.reconcile.Removing? && RegistryShape(begun.reg)
    ensures var removed := UninstallAll(DoReconcileBegin(s, next, snapshot));
      removed.reconcile.Removing? && removed.reconcile.todo == []
    ensures var t := DoReconcileCommit(UninstallAll(DoReconcileBegin(s, next, snapshot)));
      && Inv(t) && t.desired == NextMap(next)
      && (forall p :: p in t.installed <==> p in s.installed && Wanted(NextMap(next), s.installed[p].def))
      && (forall p | p in t.installed :: t.installed[p] == s.installed[p])
      && (forall p :: p in t.exhausted <==>
            p in s.exhausted && p in NextMap(next) && NextMap(next)[p] == s.exhausted[p])
  {
    ReconcileRemoves(s, next, snapshot);
    hide Inv, DoReconcileBegin, UninstallAll, NextMap, RegistryShape, Enabled;
    var removed := UninstallAll(DoReconcileBegin(s, next, snapshot));
    ReconcileCommitted(removed);
  }

  lemma ReconcileRemoves(s: State, next: seq<Definition>, snapshot: seq<Installed>)
    requires Inv(s) && Enabled(s, ReconcileBegin(next, snapshot)) && !s.stopped
    ensures var begun := DoReconcileBegin(s, next, snapshot);
      begun.reconcile.Removing? && RegistryShape(begun.reg)
    ensures var t := UninstallAll(DoReconcileBegin(s, next, snapshot));
      && Inv(t) && t.reconcile == Removing(next, []) && t.exhausted == s.exhausted
      && (forall p :: p in t.installed <==> p in s.installed && Wanted(NextMap(next), s.installed[p].def))
      && (forall p | p in t.installed :: t.installed[p] == s.installed[p])
  {
    hide Inv, DoReconcileBegin, Fresh, Listed, Unwanted, NextMap, RegistryShape, Wanted, Enabled, UninstallAll;
    ReconcileBeginStep(s, next, snapshot);
    BeginFrame(s, next, snapshot);
    BeginIsEnabled(s, next, snapshot);
    UninstallAllExact(DoReconcileBegin(s, next, snapshot));
  }

  lemma BeginIsEnabled(s: State, next: seq<Definition>, snapshot: seq<Installed>)
    requires Inv(s) && Enabled(s, ReconcileBegin(next, snapshot))
    ensures RegistryShape(s.reg) && Fresh(Unwanted(NextMap(next), snapshot), s.installed)
    ensures forall p | p in s.installed ::
      Listed(Unwanted(NextMap(next), snapshot), p) <==> !Wanted(NextMap(next), s.installed[p].def)
  {
    assert RegistryShape(s.reg) && Enumerates(snapshot, s.installed.Values);
    hide Inv, Enabled, RegistryShape, Enumerates, Fresh, Listed, Unwanted, NextMap, Wanted;
    InstalledIds(s);
    SnapshotIsFresh(s.installed, NextMap(next), snapshot);
  }

  lemma ReconcileCommitted(removed: State)
    requires Inv(removed) && removed.reconcile.Removing? && removed.reconcile.todo == []
    ensures var t := DoReconcileCommit(removed); var next := NextMap(removed.reconcile.next);
      && Inv(t) && t.desired == next && t.installed == removed.installed
      && (forall p :: p in t.exhausted <==> p in removed.exhausted && p in next && next[p] == removed.exhausted[p])
  {
    hide NextMap;
    assert RegistryShape(removed.reg);
    hide Inv, RegistryShape;
    ReconcileCommitStep(removed);
  }

  lemma BeginFrame(s: State, next: seq<Definition>, snapshot: seq<Installed>)
    requires !s.stopped
    ensures var begun := DoReconcileBegin(s, next, snapshot);
      && begun.reconcile == Removing(next, Unwanted(NextMap(next), snapshot))
      && begun.installed == s.installed && begun.reg == s.reg && begun.exhausted == s.exhausted && !begun.stopped
  {
    hide NextMap, Unwanted, Differs;
  }
}

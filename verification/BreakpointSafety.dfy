/**
 What every reachable state of the probe manager satisfies, and exactly where the code can leave it.
 */
module BreakpointSafety {
  import opened BreakpointSharing

  // ---- Invariant ----

  ghost predicate LocationsOk(r: Registry) {
    forall k | k in r.byLocation :: Registered(r, r.byLocation[k]) && k in r.holders[r.byLocation[k]].keys
  }

  /** Every installed probe's breakpoint is registered and counts its claim. */
  ghost predicate InstalledOk(r: Registry, installed: map<ProbeId, Installed>)
    requires RegistryShape(r)
  {
    forall p | p in installed ::
      && installed[p].def.id == p
      && installed[p].bp in r.byBreakpoint
      && p in r.holders[r.byBreakpoint[installed[p].bp]].claims
  }

  /** A probe between claim and install is counted, unless its holder was dropped by a suspension. */
  ghost predicate TasksOk(r: Registry, tasks: map<ProbeId, Task>, held: bool) {
    forall p | p in tasks ::
      && tasks[p].def.id == p
      && (tasks[p].Claimed? ==>
            && tasks[p].holder in r.holders
            && (Registered(r, tasks[p].holder) ==> p in r.holders[tasks[p].holder].claims)
            && (!held ==> Registered(r, tasks[p].holder)))
  }

  ghost predicate Uses(r: Registry, installed: map<ProbeId, Installed>, tasks: map<ProbeId, Task>, b: BreakpointId,
                       p: ProbeId)
    requires b in r.byBreakpoint
  {
    || (p in installed && installed[p].bp == b)
    || (p in tasks && tasks[p].Claimed? && tasks[p].holder == r.byBreakpoint[b])
  }

  /** Every registered holder has claims, all of them by probes that use it. */
  ghost predicate ClaimsOk(r: Registry, installed: map<ProbeId, Installed>, tasks: map<ProbeId, Task>)
    requires RegistryShape(r)
  {
    && (forall b | b in r.byBreakpoint :: r.holders[r.byBreakpoint[b]].claims != {})
    && (forall b, p | b in r.byBreakpoint && p in r.holders[r.byBreakpoint[b]].claims ::
        Uses(r, installed, tasks, b, p))
  }

  ghost predicate Core(r: Registry, installed: map<ProbeId, Installed>, tasks: map<ProbeId, Task>, held: bool) {
    && RegistryShape(r)
    && LocationsOk(r)
    && InstalledOk(r, installed)
    && TasksOk(r, tasks, held)
    && ClaimsOk(r, installed, tasks)
    && tasks.Keys !! installed.Keys
    && (held ==> installed == map[])
  }

  // ---- Registry and tasks ----

  lemma AddClaimCore(r: Registry, installed: map<ProbeId, Installed>, tasks: map<ProbeId, Task>, held: bool,
                     def: Definition, h: HolderId)
    requires Core(r, installed, tasks, held) && Registered(r, h)
    requires def.id !in installed && (def.id in tasks ==> !tasks[def.id].Claimed?)
    ensures Core(AddClaim(r, h, def.id), installed, tasks[def.id := Claimed(def, h)], held)
  {
  }

  lemma RegisterLocations(r: Registry, h: HolderId, bp: BreakpointId, p: ProbeId, key: Key, resolved: Option<Key>)
    requires RegistryShape(r) && LocationsOk(r) && h !in r.holders && bp !in r.byBreakpoint
    ensures var r' := Register(r, h, bp, p, key, resolved);
      && LocationsOk(r')
      && r'.byBreakpoint == r.byBreakpoint[bp := h]
      && h in r'.holders && r'.holders == r.holders[h := r'.holders[h]]
      && r'.holders[h].bp == bp && r'.holders[h].claims == {p}
  {
    var r' := Register(r, h, bp, p, key, resolved);
    forall k | k in r'.byLocation
      ensures Registered(r', r'.byLocation[k]) && k in r'.holders[r'.byLocation[k]].keys
    {
      if r'.byLocation[k] != h { assert Registered(r, r.byLocation[k]); }
    }
  }

  lemma RegisterCore(r: Registry, r': Registry, installed: map<ProbeId, Installed>, tasks: map<ProbeId, Task>,
                     held: bool, def: Definition, h: HolderId, bp: BreakpointId)
    requires Core(r, installed, tasks, held) && h !in r.holders && bp !in r.byBreakpoint
    requires def.id !in installed && (def.id in tasks ==> !tasks[def.id].Claimed?)
    requires LocationsOk(r') && r'.byBreakpoint == r.byBreakpoint[bp := h]
    requires h in r'.holders && r'.holders == r.holders[h := r'.holders[h]]
    requires r'.holders[h].bp == bp && r'.holders[h].claims == {def.id}
    ensures Core(r', installed, tasks[def.id := Claimed(def, h)], held)
  {
  }

  lemma OtherTaskCore(r: Registry, installed: map<ProbeId, Installed>, tasks: map<ProbeId, Task>, held: bool, t: Task)
    requires Core(r, installed, tasks, held)
    requires t.def.id !in installed && (t.def.id in tasks ==> !tasks[t.def.id].Claimed?) && !t.Claimed?
    ensures Core(r, installed, tasks[t.def.id := t], held)
    ensures Core(r, installed, tasks - {t.def.id}, held)
  {
  }

  /** Facts about `Release` that do not depend on who uses what. */
  lemma ReleaseShape(r: Registry, h: HolderId, p: ProbeId)
    requires RegistryShape(r) && LocationsOk(r) && h in r.holders
    ensures var r' := Release(r, h, p);
      && LocationsOk(r')
      && r'.byBreakpoint == r.byBreakpoint - Freed(r, h, p)
      && Freed(r, h, p) == (if Registered(r, h) && r.holders[h].claims <= {p} then {r.holders[h].bp} else {})
      && r'.holders == r.holders[h := r.holders[h].(claims := r.holders[h].claims - {p})]
  {
    var r' := Release(r, h, p);
    assert r.holders[h].claims - {p} == {} <==> r.holders[h].claims <= {p};
    forall k | k in r'.byLocation
      ensures Registered(r', r'.byLocation[k]) && k in r'.holders[r'.byLocation[k]].keys
    {
      assert Registered(r, r.byLocation[k]);
    }
  }

  /** `r'` is `r` after `p` dropped its claim on `h`, which freed the breakpoints `freed`. */
  ghost predicate Released(r: Registry, r': Registry, h: HolderId, p: ProbeId, freed: set<BreakpointId>) {
    && h in r.holders
    && r'.byBreakpoint == r.byBreakpoint - freed
    && freed == (if Registered(r, h) && r.holders[h].claims <= {p} then {r.holders[h].bp} else {})
    && r'.holders == r.holders[h := r.holders[h].(claims := r.holders[h].claims - {p})]
  }

  lemma LeaveInstalled(r: Registry, r': Registry, h: HolderId, p: ProbeId, freed: set<BreakpointId>,
                       installed: map<ProbeId, Installed>)
    requires RegistryShape(r) && RegistryShape(r') && Released(r, r', h, p, freed) && InstalledOk(r, installed)
    ensures InstalledOk(r', installed - {p})
  {
  }

  lemma LeaveTasks(r: Registry, r': Registry, h: HolderId, p: ProbeId, freed: set<BreakpointId>,
                   tasks: map<ProbeId, Task>, held: bool)
    requires RegistryShape(r) && Released(r, r', h, p, freed) && TasksOk(r, tasks, held)
    requires p in tasks ==> !tasks[p].Claimed? || tasks[p].holder != h
    ensures TasksOk(r', tasks, held)
  {
    forall q | q in tasks && tasks[q].Claimed?
      ensures Registered(r, tasks[q].holder) <==> Registered(r', tasks[q].holder)
    {
    }
  }

  lemma LeaveClaims(r: Registry, r': Registry, h: HolderId, p: ProbeId, freed: set<BreakpointId>,
                    installed: map<ProbeId, Installed>, tasks: map<ProbeId, Task>)
    requires RegistryShape(r) && RegistryShape(r') && Released(r, r', h, p, freed) && ClaimsOk(r, installed, tasks)
    requires p in installed ==> installed[p].bp in r.byBreakpoint && r.byBreakpoint[installed[p].bp] == h
    requires p in tasks && tasks[p].Claimed? ==> tasks[p].holder == h
    ensures ClaimsOk(r', installed - {p}, tasks - {p})
  {
    forall b | b in r'.byBreakpoint ensures r'.holders[r'.byBreakpoint[b]].claims != {} {
      if r'.byBreakpoint[b] == h { assert Registered(r, h); }
    }
    forall b, q | b in r'.byBreakpoint && q in r'.holders[r'.byBreakpoint[b]].claims
      ensures Uses(r', installed - {p}, tasks - {p}, b, q)
    {
      assert Uses(r, installed, tasks, b, q);
    }
  }

  lemma LeaveCore(r: Registry, installed: map<ProbeId, Installed>, tasks: map<ProbeId, Task>, held: bool, h: HolderId,
                  p: ProbeId)
    requires Core(r, installed, tasks, held) && h in r.holders
    requires p in installed ==> r.byBreakpoint[installed[p].bp] == h
    requires p in tasks && tasks[p].Claimed? ==> tasks[p].holder == h
    ensures Core(Release(r, h, p), installed - {p}, tasks - {p}, held)
    ensures Release(r, h, p).byBreakpoint == r.byBreakpoint - Freed(r, h, p)
    ensures Freed(r, h, p) <= r.byBreakpoint.Keys
  {
    var r', freed := Release(r, h, p), Freed(r, h, p);
    ReleaseShape(r, h, p);
    LeaveInstalled(r, r', h, p, freed, installed);
    LeaveTasks(r, r', h, p, freed, tasks - {p}, held);
    LeaveClaims(r, r', h, p, freed, installed, tasks);
  }

  // ---- What V8 has armed ----

  ghost predicate Holds(t: Task) {
    t.Answered? && !t.result.Refused?
  }

  /** Breakpoints V8 armed in answer to a set whose response is still on its way. */
  ghost function Unclaimed(tasks: map<ProbeId, Task>): set<BreakpointId> {
    set p | p in tasks && Holds(tasks[p]) :: tasks[p].result.bp
  }

  ghost predicate DistinctAnswers(tasks: map<ProbeId, Task>) {
    forall p, q | p in tasks && q in tasks && p != q && Holds(tasks[p]) && Holds(tasks[q]) ::
      tasks[p].result.bp != tasks[q].result.bp
  }

  /** Every armed breakpoint is accounted for, in exactly one way. */
  ghost predicate Accounted(armed: set<BreakpointId>, registered: set<BreakpointId>, unclaimed: set<BreakpointId>,
                            removing: set<BreakpointId>, unposted: set<BreakpointId>, orphans: set<BreakpointId>)
  {
    && armed == registered + unclaimed + removing + unposted + orphans
    && registered !! unclaimed !! removing !! unposted !! orphans
  }

  ghost predicate ArmedOk(s: State) {
    && Accounted(s.armed, s.reg.byBreakpoint.Keys, Unclaimed(s.tasks), s.removing, s.unposted, s.orphans)
    && DistinctAnswers(s.tasks)
  }

  lemma DropAnswer(tasks: map<ProbeId, Task>, p: ProbeId)
    requires DistinctAnswers(tasks) && p in tasks && Holds(tasks[p])
    ensures Unclaimed(tasks - {p}) == Unclaimed(tasks) - {tasks[p].result.bp}
    ensures tasks[p].result.bp in Unclaimed(tasks)
  {
    forall q | q in tasks - {p} ensures (tasks - {p})[q] == tasks[q] {}
    forall b | b in Unclaimed(tasks) && b != tasks[p].result.bp ensures b in Unclaimed(tasks - {p}) {
      var q :| q in tasks && Holds(tasks[q]) && tasks[q].result.bp == b;
      assert q in tasks - {p};
    }
  }

  lemma PutTask(tasks: map<ProbeId, Task>, p: ProbeId, t: Task)
    requires !Holds(t)
    ensures Unclaimed(tasks[p := t]) == Unclaimed(tasks - {p})
    ensures (p in tasks && Holds(tasks[p])) || Unclaimed(tasks - {p}) == Unclaimed(tasks)
  {
    assert forall q | q in tasks - {p} :: (tasks - {p})[q] == tasks[q] && tasks[p := t][q] == tasks[q];
    if !(p in tasks && Holds(tasks[p])) {
      assert forall q | q in tasks && Holds(tasks[q]) :: q in tasks - {p};
    }
  }

  // ---- Hits ----

  ghost function InFlight(captures: map<CaptureId, Capture>, i: InstallId): set<CaptureId> {
    set c | c in captures && i in captures[c].candidates
  }

  ghost predicate CounterOk(c: Counters, inFlight: nat) {
    && c.pending == (if c.active then inFlight else 0)
    && c.hits + c.pending <= c.def.hitLimit
    && c.emitted <= c.hits
  }

  ghost predicate HitsOk(counters: map<InstallId, Counters>, captures: map<CaptureId, Capture>) {
    && (forall i | i in counters :: CounterOk(counters[i], |InFlight(captures, i)|))
    && (forall c, i | c in captures && i in captures[c].candidates :: i in counters)
  }

  ghost predicate LiveOk(installed: map<ProbeId, Installed>, counters: map<InstallId, Counters>) {
    forall p | p in installed ::
      installed[p].i in counters && counters[installed[p].i].active && counters[installed[p].i].def == installed[p].def
  }

  lemma DeactivateHits(counters: map<InstallId, Counters>, captures: map<CaptureId, Capture>, ids: set<InstallId>)
    requires HitsOk(counters, captures)
    ensures HitsOk(Deactivate(counters, ids), captures)
  {
  }

  lemma InFlightPut(captures: map<CaptureId, Capture>, c: CaptureId, capture: Capture, i: InstallId)
    requires c !in captures
    ensures |InFlight(captures[c := capture], i)|
        == |InFlight(captures, i)| + (if i in capture.candidates then 1 else 0)
  {
    assert InFlight(captures[c := capture], i) == InFlight(captures, i) + (if i in capture.candidates then {c} else {});
  }

  lemma AddPendingHits(counters: map<InstallId, Counters>, captures: map<CaptureId, Capture>,
                       candidates: set<InstallId>, c: CaptureId, epoch: nat)
    requires HitsOk(counters, captures) && c !in captures
    requires forall i | i in candidates :: i in counters && counters[i].active && HasRoom(counters[i])
    ensures HitsOk(AddPending(counters, candidates), captures[c := Capture(candidates, epoch)])
  {
    forall i | i in counters
      ensures CounterOk(AddPending(counters, candidates)[i], |InFlight(captures[c := Capture(candidates, epoch)], i)|)
    {
      InFlightPut(captures, c, Capture(candidates, epoch), i);
    }
  }

  ghost predicate HasRoom(c: Counters) {
    c.hits + c.pending < c.def.hitLimit
  }

  /** Letting a capture go leaves room for one hit on each of its live installations. */
  lemma ReleaseHits(counters: map<InstallId, Counters>, captures: map<CaptureId, Capture>, c: CaptureId)
    requires HitsOk(counters, captures) && c in captures
    ensures HitsOk(ReleasePending(counters, captures[c].candidates), captures - {c})
    ensures forall i | i in captures[c].candidates && counters[i].active ::
      HasRoom(ReleasePending(counters, captures[c].candidates)[i])
  {
    forall i | i in counters
      ensures CounterOk(ReleasePending(counters, captures[c].candidates)[i], |InFlight(captures - {c}, i)|)
      ensures i in captures[c].candidates && counters[i].active ==>
        HasRoom(ReleasePending(counters, captures[c].candidates)[i])
    {
      InFlightDrop(captures, c, i);
    }
  }

  lemma InFlightDrop(captures: map<CaptureId, Capture>, c: CaptureId, i: InstallId)
    requires c in captures
    ensures |InFlight(captures - {c}, i)| == |InFlight(captures, i)| - (if i in captures[c].candidates then 1 else 0)
  {
    var before, after := InFlight(captures, i), InFlight(captures - {c}, i);
    assert after == before - {c};
    assert c in before <==> i in captures[c].candidates;
  }

  // ---- The invariant ----

  /** A definition that used up its hits is neither installed nor being armed. */
  ghost predicate ExhaustedOk(exhausted: map<ProbeId, Definition>, installed: map<ProbeId, Installed>,
                              tasks: map<ProbeId, Task>) {
    forall p | p in exhausted ::
      && (p in installed ==> installed[p].def != exhausted[p])
      && (p in tasks ==> tasks[p].def != exhausted[p])
  }

  /** The snapshot a reconcile walks holds objects that were installed when it was taken. */
  ghost predicate SnapshotOk(reconcile: Reconcile, counters: map<InstallId, Counters>) {
    reconcile.Removing? ==>
      forall inst | inst in reconcile.todo :: inst.i in counters && counters[inst.i].def == inst.def
  }

  ghost predicate Inv(s: State) {
    && Core(s.reg, s.installed, s.tasks, s.suspended || s.stopped)
    && (s.inspectorFailed ==> s.suspended)
    && ArmedOk(s)
    && HitsOk(s.counters, s.captures)
    && LiveOk(s.installed, s.counters)
    && SnapshotOk(s.reconcile, s.counters)
    && ExhaustedOk(s.exhausted, s.installed, s.tasks)
  }
}

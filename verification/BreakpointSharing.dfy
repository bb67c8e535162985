/**
 Breakpoint sharing in the Node agent's probe manager (packages/sdk-node/src/probe-manager.ts).

 The manager runs on one thread and yields at every `await`, so a run is a sequence of atomic
 segments. Each segment is one `Action`; `Apply` is what the manager and V8 do in it. V8 is an
 environment that answers commands in any order, may refuse a set or fail a remove, and never
 hands out an id that is still armed.
 */
module BreakpointSharing {

  // Identifiers are only ever compared for equality.
  type ProbeId = nat
  type Key = nat
  type BreakpointId = nat
  type HolderId = nat
  type InstallId = nat
  type CaptureId = nat

  datatype Option<+T> = None | Some(value: T)

  datatype Kind = Snapshot | Log | Counter | Metric

  /** A probe definition. Two definitions have one fingerprint exactly when they are equal. */
  datatype Definition = Definition(id: ProbeId, revision: nat, kind: Kind, conditional: bool, hitLimit: nat)

  /** One V8 breakpoint and every probe relying on it. */
  datatype Holder = Holder(bp: BreakpointId, keys: set<Key>, claims: set<ProbeId>)

  datatype Registry = Registry(
    byBreakpoint: map<BreakpointId, HolderId>,
    byLocation: map<Key, HolderId>,
    holders: map<HolderId, Holder>)

  datatype SetResult = Refused | NoLocation(bp: BreakpointId) | Armed(bp: BreakpointId, resolved: Option<Key>)

  /** An `#ensureArmed` call between two of its awaits. */
  datatype Task =
    | Posted(def: Definition, key: Key)
    | Answered(def: Definition, key: Key, result: SetResult)
    | Waiting(def: Definition, key: Key)
    | Claimed(def: Definition, holder: HolderId)
    | Draining(def: Definition)
    | Clearing(def: Definition, key: Key)

  /** The fixed part of an `InstalledProbe` object; `i` is the object's identity. */
  datatype Installed = Installed(i: InstallId, def: Definition, bp: BreakpointId)

  /** Its mutable part. `emitted` counts the snapshot and log events it queued. */
  datatype Counters = Counters(def: Definition, active: bool, hits: nat, pending: nat, emitted: nat)

  datatype Capture = Capture(candidates: set<InstallId>, epoch: nat)

  datatype Reconcile = Idle | Removing(next: seq<Definition>, todo: seq<Installed>)

  datatype State = State(
    desired: map<ProbeId, Definition>,
    installed: map<ProbeId, Installed>,
    counters: map<InstallId, Counters>,
    reg: Registry,
    tasks: map<ProbeId, Task>,
    arming: map<Key, ProbeId>,
    exhausted: map<ProbeId, Definition>,
    suspended: bool,
    stopped: bool,
    inspectorFailed: bool,
    epoch: nat,
    reconcile: Reconcile,
    captures: map<CaptureId, Capture>,
    // V8 and the commands on their way to it. `orphans` are breakpoints whose remove failed or
    // whose session was abandoned.
    armed: set<BreakpointId>,
    removing: set<BreakpointId>,
    unposted: set<BreakpointId>,
    orphans: set<BreakpointId>)

  const Init := State(
    map[], map[], map[], Registry(map[], map[], map[]), map[], map[], map[],
    false, false, false, 0, Idle, map[], {}, {}, {}, {})

  datatype Action =
    | StartArm(def: Definition, key: Key)
    | ResumeWaiter(p: ProbeId)
    | V8Set(p: ProbeId, result: SetResult)
    | DeliverSet(p: ProbeId, h: HolderId)
    | FinishArm(p: ProbeId, i: InstallId)
    | EndDrain(p: ProbeId)
    | V8Remove(b: BreakpointId, ok: bool)
    | ReconcileBegin(next: seq<Definition>, snapshot: seq<Installed>)
    | ReconcileUninstall
    | ReconcileCommit
    | SuspendAll
    | PostSuspendedRemove(b: BreakpointId)
    | Rearm
    | Stop
    | HandlePaused(hit: set<BreakpointId>, token: bool, order: seq<InstallId>, c: CaptureId)
    | ProcessCapture(c: CaptureId, failed: bool, order: seq<InstallId>, matching: set<InstallId>)
    | ResumeFailed(lost: Option<CaptureId>)

  // ---- Registry ----

  /** Every registered id leads to a holder for that id. */
  predicate RegistryShape(r: Registry) {
    forall b | b in r.byBreakpoint :: r.byBreakpoint[b] in r.holders && r.holders[r.byBreakpoint[b]].bp == b
  }

  predicate Registered(r: Registry, h: HolderId) {
    h in r.holders && r.holders[h].bp in r.byBreakpoint && r.byBreakpoint[r.holders[h].bp] == h
  }

  function DropClaim(r: Registry, h: HolderId, p: ProbeId): Registry
    requires h in r.holders
  {
    r.(holders := r.holders[h := r.holders[h].(claims := r.holders[h].claims - {p})])
  }

  function AddClaim(r: Registry, h: HolderId, p: ProbeId): Registry
    requires h in r.holders
  {
    r.(holders := r.holders[h := r.holders[h].(claims := r.holders[h].claims + {p})])
  }

  /** Whether `#releaseHolder` goes on to remove the breakpoint. */
  predicate Releases(r: Registry, h: HolderId) {
    Registered(r, h) && r.holders[h].claims == {}
  }

  function Unregister(r: Registry, h: HolderId): Registry
    requires h in r.holders
  {
    r.(byBreakpoint := r.byBreakpoint - {r.holders[h].bp},
       byLocation := map k | k in r.byLocation && !(k in r.holders[h].keys && r.byLocation[k] == h) :: r.byLocation[k])
  }

  /** Drops a probe's claim and lets go of the holder once nothing claims it. */
  function Release(r: Registry, h: HolderId, p: ProbeId): (r': Registry)
    requires h in r.holders && RegistryShape(r)
    ensures RegistryShape(r')
  {
    var d := DropClaim(r, h, p);
    if Releases(d, h) then Unregister(d, h) else d
  }

  /** The breakpoint a `Release` posts a remove for, if any. */
  function Freed(r: Registry, h: HolderId, p: ProbeId): set<BreakpointId>
    requires h in r.holders
  {
    if Releases(DropClaim(r, h, p), h) then {r.holders[h].bp} else {}
  }

  function ReleaseFor(r: Registry, bp: BreakpointId, p: ProbeId): (r': Registry)
    requires RegistryShape(r)
    ensures RegistryShape(r')
  {
    if bp in r.byBreakpoint then Release(r, r.byBreakpoint[bp], p) else r
  }

  function FreedFor(r: Registry, bp: BreakpointId, p: ProbeId): set<BreakpointId>
    requires RegistryShape(r)
  {
    if bp in r.byBreakpoint then Freed(r, r.byBreakpoint[bp], p) else {}
  }

  /** `#clearBreakpointRegistry`: the holder objects survive with no claims. */
  function ClearRegistry(r: Registry): Registry {
    Registry(map[], map[],
      map h | h in r.holders ::
        if Registered(r, h) then r.holders[h].(claims := {}) else r.holders[h])
  }

  function Deactivate(m: map<InstallId, Counters>, ids: set<InstallId>): map<InstallId, Counters> {
    map i | i in m :: if i in ids then m[i].(active := false, pending := 0) else m[i]
  }

  // ---- Arming ----

  /** Nothing gets installed or newly desired. */
  predicate Narrows(s: State, s': State) {
    s'.installed.Keys <= s.installed.Keys && (s'.desired == s.desired || s'.desired == map[])
  }

  predicate MayArm(s: State, def: Definition) {
    && def.id !in s.installed
    && def.id !in s.tasks
    && !(def.id in s.exhausted && s.exhausted[def.id] == def)
    && !s.stopped && !s.suspended && !s.inspectorFailed
  }

  function ClaimExisting(s: State, def: Definition, key: Key): (s': State)
    requires key in s.reg.byLocation && s.reg.byLocation[key] in s.reg.holders
    ensures s'.orphans == s.orphans && s'.exhausted == s.exhausted
    ensures Narrows(s, s')
  {
    var h := s.reg.byLocation[key];
    s.(reg := AddClaim(s.reg, h, def.id), tasks := s.tasks[def.id := Claimed(def, h)])
  }

  function Post(s: State, def: Definition, key: Key): (s': State)
    ensures s'.orphans == s.orphans && s'.exhausted == s.exhausted
    ensures Narrows(s, s')
  {
    s.(tasks := s.tasks[def.id := Posted(def, key)], arming := s.arming[key := def.id])
  }

  function DoStartArm(s: State, def: Definition, key: Key): (s': State)
    requires key in s.reg.byLocation ==> s.reg.byLocation[key] in s.reg.holders
    ensures s'.orphans == s.orphans && s'.exhausted == s.exhausted
    ensures Narrows(s, s')
  {
    if !MayArm(s, def) then s
    else if key in s.reg.byLocation then ClaimExisting(s, def, key)
    else if key in s.arming then s.(tasks := s.tasks[def.id := Waiting(def, key)])
    else Post(s, def, key)
  }

  function DoResumeWaiter(s: State, p: ProbeId): (s': State)
    requires p in s.tasks && s.tasks[p].Waiting?
    requires s.tasks[p].key in s.reg.byLocation ==> s.reg.byLocation[s.tasks[p].key] in s.reg.holders
    ensures s'.orphans == s.orphans && s'.exhausted == s.exhausted
    ensures Narrows(s, s')
  {
    var t := s.tasks[p];
    if t.key in s.reg.byLocation then ClaimExisting(s, t.def, t.key) else Post(s, t.def, t.key)
  }

  function DoV8Set(s: State, p: ProbeId, result: SetResult): (s': State)
    requires p in s.tasks && s.tasks[p].Posted?
    ensures s'.exhausted == s.exhausted
    ensures Narrows(s, s')
  {
    s.(tasks := s.tasks[p := Answered(s.tasks[p].def, s.tasks[p].key, result)],
       armed := if result.Refused? then s.armed else s.armed + {result.bp})
  }

  function SettleArming(arming: map<Key, ProbeId>, key: Key, p: ProbeId): map<Key, ProbeId> {
    if key in arming && arming[key] == p then arming - {key} else arming
  }

  function Register(r: Registry, h: HolderId, bp: BreakpointId, p: ProbeId, key: Key, resolved: Option<Key>): Registry {
    var located := r.byLocation[key := h];
    if resolved.Some? && resolved.value !in located then
      Registry(r.byBreakpoint[bp := h], located[resolved.value := h],
               r.holders[h := Holder(bp, {key, resolved.value}, {p})])
    else
      Registry(r.byBreakpoint[bp := h], located, r.holders[h := Holder(bp, {key}, {p})])
  }

  function DoDeliverSet(s: State, p: ProbeId, h: HolderId): (s': State)
    requires p in s.tasks && s.tasks[p].Answered?
    ensures s'.orphans == s.orphans && s'.exhausted == s.exhausted
    ensures Narrows(s, s')
  {
    var t := s.tasks[p];
    match t.result
    case Refused =>
      s.(tasks := s.tasks - {p}, arming := SettleArming(s.arming, t.key, p))
    case NoLocation(bp) =>
      s.(tasks := s.tasks[p := Clearing(t.def, t.key)], removing := s.removing + {bp})
    case Armed(bp, resolved) =>
      s.(reg := Register(s.reg, h, bp, p, t.key, resolved),
         tasks := s.tasks[p := Claimed(t.def, h)],
         arming := SettleArming(s.arming, t.key, p))
  }

  /** The awaited remove is answered; only a breakpoint without a location still has its attempt listed. */
  function DoEndDrain(s: State, p: ProbeId): (s': State)
    requires p in s.tasks
    ensures s'.exhausted == s.exhausted
    ensures Narrows(s, s')
  {
    var t := s.tasks[p];
    s.(tasks := s.tasks - {p}, arming := if t.Clearing? then SettleArming(s.arming, t.key, p) else s.arming)
  }

  /** V8 carries out a remove, or fails to. */
  function DoV8Remove(s: State, b: BreakpointId, ok: bool): (s': State)
    ensures s'.exhausted == s.exhausted
    ensures Narrows(s, s')
  {
    if ok then s.(armed := s.armed - {b}, removing := s.removing - {b})
    else s.(removing := s.removing - {b}, orphans := s.orphans + {b})
  }

  /** The next round of the suspension's loop of removes. */
  function DoPostRemove(s: State, b: BreakpointId): (s': State)
    ensures s'.exhausted == s.exhausted
    ensures Narrows(s, s')
  {
    s.(unposted := s.unposted - {b}, removing := s.removing + {b})
  }

  predicate StillWanted(s: State, def: Definition) {
    def.id in s.desired && s.desired[def.id] == def && !s.stopped && !s.suspended
  }

  function DoFinishArm(s: State, p: ProbeId, i: InstallId): (s': State)
    requires p in s.tasks && s.tasks[p].Claimed? && s.tasks[p].holder in s.reg.holders && RegistryShape(s.reg)
    ensures s'.orphans == s.orphans && s'.exhausted == s.exhausted
    ensures s'.desired == s.desired
    ensures s'.installed.Keys <= s.installed.Keys + (if StillWanted(s, s.tasks[p].def) then {p} else {})
  {
    var t := s.tasks[p];
    if StillWanted(s, t.def) then
      s.(tasks := s.tasks - {p},
         installed := s.installed[p := Installed(i, t.def, s.reg.holders[t.holder].bp)],
         counters := s.counters[i := Counters(t.def, true, 0, 0, 0)])
    else
      s.(tasks := s.tasks[p := Draining(t.def)],
         reg := Release(s.reg, t.holder, p),
         removing := s.removing + Freed(s.reg, t.holder, p))
  }

  // ---- Reconcile ----

  function NextMap(defs: seq<Definition>): map<ProbeId, Definition> {
    if defs == [] then map[] else NextMap(defs[..|defs| - 1])[defs[|defs| - 1].id := defs[|defs| - 1]]
  }

  predicate Wanted(next: map<ProbeId, Definition>, def: Definition) {
    def.id in next && next[def.id] == def
  }

  predicate Differs(desired: map<ProbeId, Definition>, next: seq<Definition>) {
    |next| != |desired| || exists k | 0 <= k < |next| :: !Wanted(desired, next[k])
  }

  function Unwanted(next: map<ProbeId, Definition>, order: seq<Installed>): seq<Installed> {
    if order == [] then []
    else if Wanted(next, order[0].def) then Unwanted(next, order[1..])
    else [order[0]] + Unwanted(next, order[1..])
  }

  function DoReconcileBegin(s: State, next: seq<Definition>, snapshot: seq<Installed>): (s': State)
    ensures s'.exhausted == s.exhausted
    ensures Narrows(s, s')
  {
    if s.stopped then s
    else StartRemoving(s, Differs(s.desired, next), Removing(next, Unwanted(NextMap(next), snapshot)))
  }

  function StartRemoving(s: State, changed: bool, reconcile: Reconcile): (s': State)
    ensures s'.exhausted == s.exhausted
    ensures Narrows(s, s')
  {
    s.(epoch := if changed then s.epoch + 1 else s.epoch, reconcile := reconcile)
  }

  /** `#uninstall` of the next snapshot entry: it deletes by id, whatever is installed by now. */
  function DoReconcileUninstall(s: State): (s': State)
    requires s.reconcile.Removing? && s.reconcile.todo != []
    requires RegistryShape(s.reg)
    ensures s'.exhausted == s.exhausted
    ensures Narrows(s, s')
  {
    var inst := s.reconcile.todo[0];
    s.(counters := Deactivate(s.counters, {inst.i}),
       installed := s.installed - {inst.def.id},
       reconcile := s.reconcile.(todo := s.reconcile.todo[1..]),
       reg := ReleaseFor(s.reg, inst.bp, inst.def.id),
       removing := s.removing + FreedFor(s.reg, inst.bp, inst.def.id))
  }

  /** The exhausted definitions that are still wanted as they are. */
  function StillExhausted(exhausted: map<ProbeId, Definition>,
                          next: map<ProbeId, Definition>): map<ProbeId, Definition> {
    map p | p in exhausted && p in next && next[p] == exhausted[p] :: exhausted[p]
  }

  function DoReconcileCommit(s: State): (s': State)
    requires s.reconcile.Removing? && s.reconcile.todo == []
    ensures s'.installed == s.installed
  {
    var next := NextMap(s.reconcile.next);
    s.(exhausted := StillExhausted(s.exhausted, next), desired := next, reconcile := Idle)
  }

  // ---- Suspension and stop ----

  function InstallIds(installed: map<ProbeId, Installed>): set<InstallId> {
    set p | p in installed :: installed[p].i
  }

  function Cleared(s: State): (s': State)
    ensures s'.exhausted == s.exhausted
    ensures Narrows(s, s')
  {
    s.(epoch := s.epoch + 1,
       counters := Deactivate(s.counters, InstallIds(s.installed)),
       installed := map[],
       reg := ClearRegistry(s.reg))
  }

  function DoSuspendAll(s: State): (s': State)
    ensures s'.exhausted == s.exhausted
    ensures Narrows(s, s')
  {
    if s.stopped || s.suspended then s
    else Cleared(s).(suspended := true, unposted := s.unposted + s.reg.byBreakpoint.Keys)
  }

  function DoStop(s: State): (s': State)
    ensures s'.exhausted == s.exhausted
    ensures Narrows(s, s')
  {
    if s.stopped then s
    else Cleared(s).(stopped := true, desired := map[], removing := s.removing + s.reg.byBreakpoint.Keys)
  }

  function DoRearm(s: State): (s': State)
    ensures s'.exhausted == s.exhausted
    ensures Narrows(s, s')
  {
    if s.stopped || s.inspectorFailed then s else s.(suspended := false)
  }

  // ---- Hits ----

  /** The installations a pause on the given breakpoints may capture for. */
  function Candidates(s: State, hit: set<BreakpointId>): set<InstallId> {
    set p | p in s.installed && s.installed[p].i in s.counters && Ready(s, hit, p) :: s.installed[p].i
  }

  predicate Ready(s: State, hit: set<BreakpointId>, p: ProbeId)
    requires p in s.installed && s.installed[p].i in s.counters
  {
    var c := s.counters[s.installed[p].i];
    && !s.suspended && !s.inspectorFailed
    && c.active && c.hits + c.pending < c.def.hitLimit
    && exists b | b in hit ::
         b in s.reg.byBreakpoint && s.reg.byBreakpoint[b] in s.reg.holders &&
         p in s.reg.holders[s.reg.byBreakpoint[b]].claims
  }

  predicate CountsWithoutCapture(def: Definition) {
    def.kind == Counter && !def.conditional
  }

  /** Whether counter record `i` belongs to the object now installed for its probe. */
  predicate Current(s: State, i: InstallId) {
    && i in s.counters && s.counters[i].active
    && s.counters[i].def.id in s.installed && s.installed[s.counters[i].def.id].i == i
  }

  function Bumped(c: Counters): Counters {
    c.(hits := c.hits + 1,
       emitted := if c.def.kind.Snapshot? || c.def.kind.Log? then c.emitted + 1 else c.emitted)
  }

  function Retire(s: State, i: InstallId): (s': State)
    requires Current(s, i) && RegistryShape(s.reg)
    ensures RegistryShape(s'.reg) && s'.counters.Keys == s.counters.Keys
    ensures Narrows(s, s')
  {
    var inst := s.installed[s.counters[i].def.id];
    var p := s.counters[i].def.id;
    s.(counters := Deactivate(s.counters, {i}),
       installed := s.installed - {p},
       exhausted := s.exhausted[p := s.counters[i].def],
       reg := ReleaseFor(s.reg, inst.bp, p),
       removing := s.removing + FreedFor(s.reg, inst.bp, p))
  }

  /** `hits += 1` on one installation, then retirement at its limit. */
  function CountHit(s: State, i: InstallId): (s': State)
    requires Current(s, i) && RegistryShape(s.reg)
    ensures RegistryShape(s'.reg) && s'.counters.Keys == s.counters.Keys
    ensures Narrows(s, s')
  {
    var counted := s.(counters := s.counters[i := Bumped(s.counters[i])]);
    if counted.counters[i].hits >= counted.counters[i].def.hitLimit then Retire(counted, i) else counted
  }

  /** The per-candidate loop of a rate-limited pause, or of a finished capture. */
  function CountAll(s: State, order: seq<InstallId>, matching: set<InstallId>): (s': State)
    requires RegistryShape(s.reg)
    ensures RegistryShape(s'.reg)
    ensures Narrows(s, s')
    decreases |order|
  {
    if order == [] then s
    else if order[0] in matching && Current(s, order[0]) then
      CountAll(CountHit(s, order[0]), order[1..], matching)
    else
      CountAll(s, order[1..], matching)
  }

  function AddPending(m: map<InstallId, Counters>, ids: set<InstallId>): map<InstallId, Counters> {
    map i | i in m :: if i in ids then m[i].(pending := m[i].pending + 1) else m[i]
  }

  function ReleasePending(m: map<InstallId, Counters>, ids: set<InstallId>): map<InstallId, Counters> {
    map i | i in m ::
      if i in ids && m[i].pending > 0 then m[i].(pending := m[i].pending - 1) else m[i]
  }

  function Counted(s: State, candidates: set<InstallId>): set<InstallId> {
    set i | i in candidates && i in s.counters && CountsWithoutCapture(s.counters[i].def)
  }

  function DoHandlePaused(s: State, hit: set<BreakpointId>, token: bool, order: seq<InstallId>,
                          c: CaptureId): (s': State)
    requires RegistryShape(s.reg)
    ensures Narrows(s, s')
  {
    var candidates := Candidates(s, hit);
    if candidates == {} then s
    else if !token then CountAll(s, order, Counted(s, candidates))
    else s.(counters := AddPending(s.counters, candidates),
            captures := s.captures[c := Capture(candidates, s.epoch)])
  }

  function Settled(s: State, c: CaptureId): (s': State)
    requires c in s.captures
    ensures s'.exhausted == s.exhausted
    ensures Narrows(s, s')
  {
    s.(counters := ReleasePending(s.counters, s.captures[c].candidates), captures := s.captures - {c})
  }

  function DoProcessCapture(s: State, c: CaptureId, failed: bool, order: seq<InstallId>,
                            matching: set<InstallId>): (s': State)
    requires c in s.captures && RegistryShape(s.reg)
    ensures Narrows(s, s')
  {
    if s.stopped || s.suspended || s.inspectorFailed || s.captures[c].epoch != s.epoch || failed then Settled(s, c)
    else CountAll(Settled(s, c), order, matching)
  }

  /** Both resumes failed: the session is abandoned, so nothing is removed. */
  function DoResumeFailed(s: State, lost: Option<CaptureId>): (s': State)
    requires lost.Some? ==> lost.value in s.captures
    ensures s'.exhausted == s.exhausted
    ensures Narrows(s, s')
  {
    var released := if lost.None? then s else Settled(s, lost.value);
    if s.inspectorFailed then released
    else Cleared(released).(inspectorFailed := true, suspended := true,
                            orphans := s.orphans + s.reg.byBreakpoint.Keys)
  }

  // ---- The transition system ----

  predicate Enumerates<T(==)>(order: seq<T>, ids: set<T>) {
    && (forall i | i in order :: i in ids)
    && (forall i | i in ids :: i in order)
    && (forall j, k | 0 <= j < k < |order| :: order[j] != order[k])
  }

  /** What may happen next. The clauses on ids only say that a new object is new. */
  predicate Enabled(s: State, a: Action) {
    RegistryShape(s.reg) &&
    match a
    case StartArm(def, key) => key in s.reg.byLocation ==> s.reg.byLocation[key] in s.reg.holders
    case ResumeWaiter(p) =>
      && p in s.tasks && s.tasks[p].Waiting?
      && (s.tasks[p].key in s.reg.byLocation ==> s.reg.byLocation[s.tasks[p].key] in s.reg.holders)
    case V8Set(p, result) =>
      && p in s.tasks && s.tasks[p].Posted?
      && (!result.Refused? ==> result.bp !in s.armed)
    case DeliverSet(p, h) => p in s.tasks && s.tasks[p].Answered? && h !in s.reg.holders
    case FinishArm(p, i) =>
      p in s.tasks && s.tasks[p].Claimed? && s.tasks[p].holder in s.reg.holders && i !in s.counters
    case EndDrain(p) => p in s.tasks && (s.tasks[p].Draining? || s.tasks[p].Clearing?)
    case V8Remove(b, ok) => b in s.removing
    case ReconcileBegin(next, snapshot) =>
      s.reconcile.Idle? && Enumerates(snapshot, s.installed.Values)
    case ReconcileUninstall => s.reconcile.Removing? && s.reconcile.todo != []
    case ReconcileCommit => s.reconcile.Removing? && s.reconcile.todo == []
    case SuspendAll => true
    case PostSuspendedRemove(b) => b in s.unposted
    case Rearm => true
    case Stop => true
    case HandlePaused(hit, token, order, c) =>
      Enumerates(order, Counted(s, Candidates(s, hit))) && c !in s.captures
    case ProcessCapture(c, failed, order, matching) =>
      c in s.captures && Enumerates(order, s.captures[c].candidates)
    case ResumeFailed(lost) => lost.Some? ==> lost.value in s.captures
  }

  function Apply(s: State, a: Action): State
    requires Enabled(s, a)
  {
    match a
    case StartArm(def, key) => DoStartArm(s, def, key)
    case ResumeWaiter(p) => DoResumeWaiter(s, p)
    case V8Set(p, result) => DoV8Set(s, p, result)
    case DeliverSet(p, h) => DoDeliverSet(s, p, h)
    case FinishArm(p, i) => DoFinishArm(s, p, i)
    case EndDrain(p) => DoEndDrain(s, p)
    case V8Remove(b, ok) => DoV8Remove(s, b, ok)
    case ReconcileBegin(next, snapshot) => DoReconcileBegin(s, next, snapshot)
    case ReconcileUninstall => DoReconcileUninstall(s)
    case ReconcileCommit => DoReconcileCommit(s)
    case SuspendAll => DoSuspendAll(s)
    case PostSuspendedRemove(b) => DoPostRemove(s, b)
    case Rearm => DoRearm(s)
    case Stop => DoStop(s)
    case HandlePaused(hit, token, order, c) => DoHandlePaused(s, hit, token, order, c)
    case ProcessCapture(c, failed, order, matching) => DoProcessCapture(s, c, failed, order, matching)
    case ResumeFailed(lost) => DoResumeFailed(s, lost)
  }
}

/**
 The broker's in-memory state and the operations that move its version cursors
 (packages/broker/src/index.ts, class `BrokerState`).

 Keys that the source builds by joining strings are records here. Each operation takes the clock
 reading it sees; the clock need not be monotone.
 */
module Broker {

  // Identifiers are only ever compared for equality; commits are also ordered, as their keys are.
  type Scope = nat
  type ServiceId = nat
  type Commit = nat
  type AgentId = nat
  type InstanceId = nat
  type BuildId = nat
  type ProbeId = nat
  type Path = nat
  type Content = nat
  type Time = int

  datatype Option<+T> = None | Some(value: T)

  /** `body` stands for the rest of the definition. */
  datatype Probe = Probe(id: ProbeId, service: ServiceId, version: nat, kind: nat, body: nat)
  datatype Stored = Stored(scope: Scope, probe: Probe, expiresAt: Time, expired: bool)

  datatype ServiceKey = ServiceKey(scope: Scope, service: ServiceId)
  datatype AgentKey = AgentKey(scope: Scope, agent: AgentId)
  datatype InstanceKey = InstanceKey(owner: AgentKey, instance: InstanceId)
  datatype MapKey = MapKey(service: ServiceKey, commit: Commit)
  datatype StatusKey = StatusKey(target: Target, probe: ProbeId, version: nat)

  /** One build of one instance of one agent. */
  datatype Target = Target(key: InstanceKey, build: BuildId)

  /** `rest` is the rest of the attachment identity; `lastSeen` is not part of it. */
  datatype Instance = Instance(service: ServiceId, build: BuildId, capabilities: nat, rest: nat, lastSeen: Time)

  /** The services a native credential covers. */
  datatype Allowed = AllServices | Services(ids: set<ServiceId>)

  predicate Allows(allowed: Allowed, service: ServiceId) {
    allowed.AllServices? || service in allowed.ids
  }

  datatype StatusName = ArmedStatus | ErrorStatus | HitLimitReached | Suspended | Expired
  datatype NativeStatus = NativeStatus(status: StatusName, updatedAt: Time)

  /** `uploader` records who uploaded the map; the source does not store it. */
  datatype MapEntry = MapEntry(path: Path, content: Content, uploader: AgentId)

  /** `completedBy` records who completed the set; the source does not store it. */
  datatype MapSet = MapSet(complete: bool, updatedAt: Time, maps: seq<MapEntry>, completedBy: Option<AgentId>)
  datatype Lease = Lease(uploader: AgentId, expiresAt: Time)

  datatype State = State(
    probes: seq<Stored>,
    versions: map<ServiceKey, nat>,
    agents: map<AgentKey, nat>,
    instances: map<InstanceKey, Instance>,
    statuses: map<StatusKey, NativeStatus>,
    nativeVersions: map<AgentKey, nat>,
    sets: map<MapKey, MapSet>,
    leases: map<MapKey, Lease>,
    removed: map<ProbeId, Time>)

  const Init := State([], map[], map[], map[], map[], map[], map[], map[], map[])

  const LEASE_MS := 120_000
  const REMOVED_PROBE_GRACE_MS := 600_000
  const SOURCE_MAP_COMMITS_PER_SERVICE := 5

  datatype Error =
    | AgentNotFound | Forbidden | DuplicateInstance | InstanceOwned
    | InvalidRequest | TargetChanged | ProbeVersionChanged | NotUploader | InvalidMap | InvalidProbe | IdCollision

  datatype Result<+T> = Ok(value: T) | Err(error: Error)

  // ---- Versions ----

  function Version<K>(versions: map<K, nat>, key: K): nat {
    if key in versions then versions[key] else 0
  }

  /** The instances through which a change to a service reaches an agent. */
  function Reached(instances: map<InstanceKey, Instance>, service: ServiceKey, owner: AgentKey): set<InstanceKey> {
    set k | k in instances && k.owner == owner && k.owner.scope == service.scope
        && instances[k].service == service.service
  }

  function ReachedAgents(instances: map<InstanceKey, Instance>, service: ServiceKey): set<AgentKey> {
    set k | k in instances && k.owner.scope == service.scope && instances[k].service == service.service :: k.owner
  }

  /** One native bump per instance of the service, as the source's loop makes. */
  function BumpReached(versions: map<AgentKey, nat>, instances: map<InstanceKey, Instance>,
                       service: ServiceKey): map<AgentKey, nat> {
    map a | a in versions.Keys + ReachedAgents(instances, service) ::
      Version(versions, a) + |Reached(instances, service, a)|
  }

  function IncrementServiceVersion(s: State, service: ServiceKey): State {
    s.(versions := s.versions[service := Version(s.versions, service) + 1],
       nativeVersions := BumpReached(s.nativeVersions, s.instances, service))
  }

  // ---- Probes ----

  function ServiceOf(x: Stored): ServiceKey {
    ServiceKey(x.scope, x.probe.service)
  }

  function IndexOf(probes: seq<Stored>, id: ProbeId): (r: Option<nat>)
    ensures r.Some? ==> r.value < |probes| && probes[r.value].probe.id == id
    ensures r.None? ==> forall k | 0 <= k < |probes| :: probes[k].probe.id != id
  {
    if probes == [] then None
    else if probes[|probes| - 1].probe.id == id then Some(|probes| - 1)
    else IndexOf(probes[..|probes| - 1], id)
  }

  /** How far `createProbe` gets: input refused, definition refused after the version bump, or stored. */
  datatype Verdict = RefusedInput | RefusedDefinition | Accepted

  function CreateProbe(s: State, scope: Scope, service: ServiceId, id: ProbeId, kind: nat, body: nat, ttl: nat,
                       now: Time, verdict: Verdict): (State, Result<Probe>) {
    if verdict.RefusedInput? then (s, Err(InvalidProbe))
    else if IndexOf(s.probes, id).Some? then (s, Err(IdCollision))
    else
      var bumped := IncrementServiceVersion(s, ServiceKey(scope, service));
      var probe := Probe(id, service, Version(bumped.versions, ServiceKey(scope, service)), kind, body);
      if verdict.RefusedDefinition? then (bumped, Err(InvalidProbe))
      else (bumped.(probes := s.probes + [Stored(scope, probe, now + ttl * 1000, false)]), Ok(probe))
  }

  function DeleteProbe(s: State, scope: Scope, id: ProbeId, now: Time): (State, bool) {
    var found := IndexOf(s.probes, id);
    if found.None? || s.probes[found.value].scope != scope then (s, false)
    else
      var k := found.value;
      var bumped := if s.probes[k].expired then s else IncrementServiceVersion(s, ServiceOf(s.probes[k]));
      (bumped.(probes := s.probes[..k] + s.probes[k + 1..], removed := s.removed[id := now]), true)
  }

  predicate Due(x: Stored, now: Time) {
    !x.expired && x.expiresAt <= now
  }

  function ExpireAt(s: State, k: nat): State
    requires k < |s.probes|
  {
    IncrementServiceVersion(s, ServiceOf(s.probes[k])).(probes := s.probes[k := s.probes[k].(expired := true)])
  }

  /** `expireDueProbes` from entry `k` on. */
  function ExpireFrom(s: State, now: Time, k: nat): State
    requires k <= |s.probes|
    decreases |s.probes| - k
  {
    if k == |s.probes| then s
    else if Due(s.probes[k], now) then ExpireFrom(ExpireAt(s, k), now, k + 1)
    else ExpireFrom(s, now, k + 1)
  }

  function ExpireDue(s: State, now: Time): State {
    ExpireFrom(s, now, 0)
  }

  // ---- What the polls return ----

  datatype ProbeRef = ProbeRef(id: ProbeId, version: nat)

  predicate Listed(x: Stored, service: ServiceKey, ended: set<ProbeRef>) {
    ServiceOf(x) == service && !x.expired && ProbeRef(x.probe.id, x.probe.version) !in ended
  }

  /** Unexpired probes of a service in creation order, without the ended ones. */
  function Live(probes: seq<Stored>, service: ServiceKey, ended: set<ProbeRef>): seq<Probe> {
    if probes == [] then []
    else (if Listed(probes[0], service, ended) then [probes[0].probe] else []) + Live(probes[1..], service, ended)
  }

  predicate EndsAssignment(status: StatusName) {
    status.HitLimitReached? || status.Suspended? || status.Expired?
  }

  function Ended(statuses: map<StatusKey, NativeStatus>, target: Target): set<ProbeRef> {
    set k | k in statuses && k.target == target && EndsAssignment(statuses[k].status) :: ProbeRef(k.probe, k.version)
  }

  datatype Assignment = Assignment(service: ServiceId, build: BuildId, probes: seq<Probe>)

  /** The full assignment list of an agent for a credential, by instance. */
  function FullAssignments(s: State, owner: AgentKey, allowed: Allowed): map<InstanceKey, Assignment> {
    map k | k in s.instances && k.owner == owner && Allows(allowed, s.instances[k].service) ::
      Assignment(s.instances[k].service, s.instances[k].build,
                 Live(s.probes, ServiceKey(owner.scope, s.instances[k].service),
                      Ended(s.statuses, Target(k, s.instances[k].build))))
  }

  /** The maps a managed poll resolves locations with: those of a complete set only. */
  function VisibleMaps(s: State, key: MapKey): Option<seq<MapEntry>> {
    if key in s.sets && s.sets[key].complete then Some(s.sets[key].maps) else None
  }

  type Resolver = (seq<MapEntry>, Probe) -> Probe

  function Located(probes: seq<Probe>, maps: Option<seq<MapEntry>>, resolve: Resolver): seq<Probe> {
    if maps.None? then probes else seq(|probes|, k requires 0 <= k < |probes| => resolve(maps.value, probes[k]))
  }

  function FullPoll(s: State, service: ServiceKey, commit: Option<Commit>, resolve: Resolver): seq<Probe> {
    Located(Live(s.probes, service, {}),
            if commit.None? then None else VisibleMaps(s, MapKey(service, commit.value)), resolve)
  }

  datatype PollReply = Unchanged(version: nat) | Probes(version: nat, probes: seq<Probe>)

  function PollProbes(s: State, service: ServiceKey, since: nat, commit: Option<Commit>, resolve: Resolver,
                      now: Time): (State, PollReply) {
    var s' := ExpireDue(s, now);
    var version := Version(s'.versions, service);
    (s', if since == version then Unchanged(version) else Probes(version, FullPoll(s', service, commit, resolve)))
  }

  /** An unchanged native reply carries the version and an empty list. */
  datatype AssignmentReply = AssignmentReply(version: nat, assignments: map<InstanceKey, Assignment>)

  function NativeAssignments(s: State, owner: AgentKey, since: nat, allowed: Allowed,
                             now: Time): (State, Result<AssignmentReply>) {
    if owner !in s.agents then (s, Err(AgentNotFound))
    else
      var s' := ExpireDue(s, now);
      var version := Version(s'.nativeVersions, owner);
      (s', Ok(AssignmentReply(version, if since == version then map[] else FullAssignments(s', owner, allowed))))
  }

  // ---- Native agents ----

  function RegisterAgent(s: State, owner: AgentKey, capabilities: nat): State {
    s.(agents := s.agents[owner := capabilities],
       nativeVersions := if owner in s.nativeVersions then s.nativeVersions else s.nativeVersions[owner := 0])
  }

  function BumpAgent(versions: map<AgentKey, nat>, owner: AgentKey): map<AgentKey, nat> {
    versions[owner := Version(versions, owner) + 1]
  }

  /** An instance as an agent reports it; without capabilities of its own it has the agent's. */
  datatype Reported = Reported(
    id: InstanceId, service: ServiceId, build: BuildId, capabilities: Option<nat>, rest: nat, lastSeen: Time)

  function Record(r: Reported, fallback: nat): Instance {
    Instance(r.service, r.build, if r.capabilities.Some? then r.capabilities.value else fallback, r.rest, r.lastSeen)
  }

  /** The reasons a replacement is refused, in the order the source meets them. */
  function CheckReports(s: State, owner: AgentKey, reports: seq<Reported>, seen: set<InstanceId>,
                        allowed: Allowed): Option<Error> {
    if reports == [] then None
    else if !Allows(allowed, reports[0].service) then Some(Forbidden)
    else if reports[0].id in seen then Some(DuplicateInstance)
    else if exists k | k in s.instances ::
              k.owner.scope == owner.scope && k.instance == reports[0].id && k.owner != owner
    then Some(InstanceOwned)
    else CheckReports(s, owner, reports[1..], seen + {reports[0].id}, allowed)
  }

  /** The instance without its heartbeat. */
  function Identity(x: Instance): Instance {
    x.(lastSeen := 0)
  }

  /** What decides whether an agent's instances changed; instance ids are unique on both sides. */
  function Identities(instances: map<InstanceKey, Instance>, owner: AgentKey): map<InstanceKey, Instance> {
    map k | k in instances && k.owner == owner :: Identity(instances[k])
  }

  function PutReports(instances: map<InstanceKey, Instance>, owner: AgentKey, fallback: nat,
                      reports: seq<Reported>): map<InstanceKey, Instance>
    decreases |reports|
  {
    if reports == [] then instances
    else PutReports(instances[InstanceKey(owner, reports[0].id) := Record(reports[0], fallback)], owner, fallback,
                    reports[1..])
  }

  function ReportedIds(reports: seq<Reported>): set<InstanceId> {
    set r | r in reports :: r.id
  }

  function ReplaceInstances(s: State, owner: AgentKey, reports: seq<Reported>, allowed: Allowed): (State, Result<nat>) {
    if owner !in s.agents then (s, Err(AgentNotFound))
    else
      var refused := CheckReports(s, owner, reports, {}, allowed);
      if refused.Some? then (s, Err(refused.value))
      else
        var kept := map k | k in s.instances && (k.owner != owner || k.instance in ReportedIds(reports)) ::
            s.instances[k];
        var next := PutReports(kept, owner, s.agents[owner], reports);
        (s.(instances := next,
            nativeVersions :=
              if Identities(s.instances, owner) != Identities(next, owner) then BumpAgent(s.nativeVersions, owner)
              else s.nativeVersions),
         Ok(|reports|))
  }

  datatype NativeEvent = NativeEvent(
    probe: ProbeId, version: nat, kind: nat, status: Option<StatusName>, origin: Target, ts: Time)

  datatype Batch = Batch(target: Target, service: ServiceId, events: seq<NativeEvent>)

  function PruneRemoved(removed: map<ProbeId, Time>, now: Time): map<ProbeId, Time> {
    map p | p in removed && removed[p] > now - REMOVED_PROBE_GRACE_MS :: removed[p]
  }

  /** The validation pass: events of recently removed probes are skipped, anything else wrong is an error. */
  function CheckEvents(s: State, batch: Batch, events: seq<NativeEvent>): Result<seq<NativeEvent>> {
    if events == [] then Ok([])
    else
      var e := events[0];
      var found := IndexOf(s.probes, e.probe);
      if found.None? && e.probe in s.removed then CheckEvents(s, batch, events[1..])
      else if found.None? then Err(InvalidRequest)
      else
        var x := s.probes[found.value];
        if ServiceOf(x) != ServiceKey(batch.target.key.owner.scope, batch.service)
            || (e.status.None? && e.kind != x.probe.kind)
        then Err(InvalidRequest)
        else if e.version != x.probe.version then Err(ProbeVersionChanged)
        else if e.status.Some? && e.origin != batch.target then Err(TargetChanged)
        else
          var rest := CheckEvents(s, batch, events[1..]);
          if rest.Err? then rest else Ok([e] + rest.value)
  }

  /** One accepted event: a status is stored unless it is older or would undo a terminal one. */
  function ApplyEvent(s: State, target: Target, e: NativeEvent): State {
    if e.status.None? then s
    else
      var key := StatusKey(target, e.probe, e.version);
      var status := e.status.value;
      var ended := key in s.statuses && EndsAssignment(s.statuses[key].status);
      if key in s.statuses && e.ts < s.statuses[key].updatedAt then s
      else if ended && !EndsAssignment(status) then s
      else s.(statuses := s.statuses[key := NativeStatus(status, e.ts)],
              nativeVersions :=
                if EndsAssignment(status) && !ended then BumpAgent(s.nativeVersions, target.key.owner)
                    else s.nativeVersions)
  }

  function ApplyEvents(s: State, target: Target, events: seq<NativeEvent>): State
    decreases |events|
  {
    if events == [] then s else ApplyEvents(ApplyEvent(s, target, events[0]), target, events[1..])
  }

  function IngestNative(s: State, batch: Batch, now: Time): (State, Result<nat>) {
    var key := batch.target.key;
    if key !in s.instances || s.instances[key].service != batch.service || s.instances[key].build != batch.target.build
    then (s, Err(TargetChanged))
    else
      var pruned := s.(removed := PruneRemoved(s.removed, now));
      var accepted := CheckEvents(pruned, batch, batch.events);
      if accepted.Err? then (pruned, Err(accepted.error))
      else (ApplyEvents(pruned, batch.target, accepted.value), Ok(|accepted.value|))
  }

  // ---- Source maps ----

  datatype MapStatus = MapStatus(isUploader: bool, isComplete: bool)

  /** Whether a claim by `uploader` takes the lease. */
  predicate Grants(s: State, key: MapKey, uploader: AgentId, now: Time) {
    && VisibleMaps(s, key).None?
    && (key !in s.leases || s.leases[key].expiresAt <= now || s.leases[key].uploader == uploader)
  }

  function SourceMapStatus(s: State, key: MapKey, uploader: AgentId, now: Time): (State, MapStatus) {
    if VisibleMaps(s, key).Some? then (s, MapStatus(false, true))
    else if !Grants(s, key, uploader, now) then (s, MapStatus(false, false))
    else
      var clears := key in s.sets && (key !in s.leases || s.leases[key].uploader != uploader);
      (s.(sets := if clears then s.sets[key := s.sets[key].(maps := [], updatedAt := now)] else s.sets,
          leases := s.leases[key := Lease(uploader, now + LEASE_MS)]),
       MapStatus(true, false))
  }

  /** Whether `uploader` is the active uploader of the set. */
  predicate HoldsLease(s: State, key: MapKey, uploader: AgentId, now: Time) {
    key in s.leases && s.leases[key].expiresAt > now && s.leases[key].uploader == uploader
  }

  function ExtendLease(s: State, key: MapKey, now: Time): State
    requires key in s.leases
  {
    s.(leases := s.leases[key := s.leases[key].(expiresAt := now + LEASE_MS)])
  }

  /** Setting a key of an insertion-ordered map keeps its place. */
  function PutMap(maps: seq<MapEntry>, entry: MapEntry): seq<MapEntry> {
    if maps == [] then [entry]
    else if maps[0].path == entry.path then [entry] + maps[1..]
    else [maps[0]] + PutMap(maps[1..], entry)
  }

  function UploadSourceMap(s: State, key: MapKey, uploader: AgentId, path: Path, content: Content, valid: bool,
                           now: Time): (State, Result<()>) {
    if !HoldsLease(s, key, uploader, now) then (s, Err(NotUploader))
    else
      var extended := ExtendLease(s, key, now);
      if !valid then (extended, Err(InvalidMap))
      else
        var existing := if key in s.sets then s.sets[key].maps else [];
        (extended.(sets := s.sets[key := MapSet(false, now, PutMap(existing, MapEntry(path, content, uploader)),
                                                None)]), Ok(()))
  }

  /** The sets kept ahead of `key` for its service: newer first, then the greater key. */
  function Ahead(sets: map<MapKey, MapSet>, key: MapKey): set<MapKey>
    requires key in sets
  {
    set k | k in sets && k.service == key.service &&
      (sets[k].updatedAt > sets[key].updatedAt || (sets[k].updatedAt == sets[key].updatedAt && k.commit > key.commit))
  }

  function Evicted(sets: map<MapKey, MapSet>, service: ServiceKey): set<MapKey> {
    set k | k in sets && k.service == service && |Ahead(sets, k)| >= SOURCE_MAP_COMMITS_PER_SERVICE
  }

  function CompleteSourceMaps(s: State, key: MapKey, uploader: AgentId, now: Time): (State, Result<()>) {
    if !HoldsLease(s, key, uploader, now) then (s, Err(NotUploader))
    else
      var existing := if key in s.sets then s.sets[key].maps else [];
      var sets := s.sets[key := MapSet(true, now, existing, Some(uploader))];
      var evicted := Evicted(sets, key.service);
      (IncrementServiceVersion(s, key.service).(sets := sets - evicted, leases := s.leases - {key} - evicted), Ok(()))
  }

  // ---- Operations ----

  datatype Op =
    | OpCreate(scope: Scope, serviceId: ServiceId, id: ProbeId, kind: nat, body: nat, ttl: nat, verdict: Verdict)
    | OpDelete(scope: Scope, id: ProbeId)
    | OpExpire
    | OpRegister(owner: AgentKey, capabilities: nat)
    | OpReplace(owner: AgentKey, reports: seq<Reported>, allowed: Allowed)
    | OpIngest(batch: Batch)
    | OpClaim(key: MapKey, uploader: AgentId)
    | OpUpload(key: MapKey, uploader: AgentId, path: Path, content: Content, valid: bool)
    | OpComplete(key: MapKey, uploader: AgentId)

  /** Every way the modelled state changes. Polls and managed ingests change it only as `OpExpire`. */
  function Apply(s: State, op: Op, now: Time): State {
    match op
    case OpCreate(scope, serviceId, id, kind, body, ttl, verdict) =>
      CreateProbe(s, scope, serviceId, id, kind, body, ttl, now, verdict).0
    case OpDelete(scope, id) => DeleteProbe(s, scope, id, now).0
    case OpExpire => ExpireDue(s, now)
    case OpRegister(owner, capabilities) => RegisterAgent(s, owner, capabilities)
    case OpReplace(owner, reports, allowed) => ReplaceInstances(s, owner, reports, allowed).0
    case OpIngest(batch) => IngestNative(s, batch, now).0
    case OpClaim(key, uploader) => SourceMapStatus(s, key, uploader, now).0
    case OpUpload(key, uploader, path, content, valid) => UploadSourceMap(s, key, uploader, path, content, valid, now).0
    case OpComplete(key, uploader) => CompleteSourceMaps(s, key, uploader, now).0
  }
}

/**
 Capturing the variables of a paused program (packages/sdk-node/src/capture.ts): a breadth-first
 walk over remote objects with a budget. The inspector's answer to a request may depend on the
 request's number and on the object in any way. Captured containers live in a heap, so that cycles
 and sharing among the remote objects become cycles and sharing among the containers.
 */
module Capture {
  import opened Numerals

  datatype Option<T> = None | Some(value: T)

  type ObjectId = string

  /** A remote value, its primitive form already rendered. */
  datatype Remote = Primitive(text: string) | Remote(id: ObjectId, isArray: bool)

  /** A property; one without a value is a getter. `number` is its value if that is a natural number. */
  datatype Descriptor = Descriptor(name: string, enumerable: bool, value: Option<Remote>, number: Option<nat>)

  datatype Reply = Refused(error: string) | Properties(descriptors: seq<Descriptor>)

  type Inspector = (nat, ObjectId) -> Reply

  datatype Scope = Scope(kind: string, id: Option<ObjectId>)

  datatype Options = Options(
    maxArray: nat, maxDepth: nat, maxObjects: int, maxProps: nat, redacted: string -> bool)
  {
    function Budget(): (b: nat)
      ensures b >= 1 && b >= maxObjects && (b == 1 || b == maxObjects)
    {
      if maxObjects > 1 then maxObjects else 1
    }
  }

  // ---------------------------------------------------------------- what is captured

  datatype Captured = Undefined | Getter | Plain(text: string) | Truncated | Ref(address: nat)

  datatype Container = Container(isArray: bool, length: nat, fields: map<string, Captured>)

  function Empty(isArray: bool): Container {
    Container(isArray, 0, map[])
  }

  datatype Task = Task(depth: nat, id: ObjectId, target: nat, preserve: bool)

  /** The walk's state; `requested` records the tasks taken from the queue, in order. */
  datatype Core = Core(
    tasks: seq<Task>, materialized: map<ObjectId, nat>, heap: seq<Container>,
    firstError: Option<string>, requested: seq<Task>)
  {
    function Visited(): nat {
      |requested|
    }

    function History(): seq<Task> {
      requested + tasks
    }
  }

  // ---------------------------------------------------------------- which properties

  function Enumerable(ds: seq<Descriptor>): seq<Descriptor> {
    if ds == [] then []
    else (if ds[0].enumerable then [ds[0]] else []) + Enumerable(ds[1..])
  }

  /** Keeps the array elements below `limit`. */
  function Elements(ds: seq<Descriptor>, limit: nat): seq<Descriptor> {
    if ds == [] then []
    else
      (if IsIndex(ds[0].name) && Index(ds[0].name) < limit then [ds[0]] else []) + Elements(ds[1..], limit)
  }

  /** Stable insertion by element number. */
  function Insert(d: Descriptor, ds: seq<Descriptor>): seq<Descriptor> {
    if ds == [] || !IsIndex(d.name) || !IsIndex(ds[0].name) || Index(d.name) <= Index(ds[0].name) then [d] + ds
    else [ds[0]] + Insert(d, ds[1..])
  }

  function SortByIndex(ds: seq<Descriptor>): seq<Descriptor> {
    if ds == [] then [] else Insert(ds[0], SortByIndex(ds[1..]))
  }

  function Prefix(ds: seq<Descriptor>, n: nat): seq<Descriptor> {
    if |ds| <= n then ds else ds[..n]
  }

  function Selected(ds: seq<Descriptor>, isArray: bool, o: Options): seq<Descriptor> {
    if isArray then SortByIndex(Elements(Enumerable(ds), o.maxArray))
    else Prefix(Enumerable(ds), o.maxProps + 1)
  }

  /** The first descriptor called `length`, if it has a usable number. */
  function DeclaredLength(ds: seq<Descriptor>): Option<nat> {
    if ds == [] then None
    else if ds[0].name == "length" then ds[0].number
    else DeclaredLength(ds[1..])
  }

  // ---------------------------------------------------------------- one property

  function Put(c: Container, key: string, v: Captured): Container {
    var fields := c.fields[key := v];
    if c.isArray && IsIndex(key) && Index(key) >= c.length
    then Container(true, Index(key) + 1, fields)
    else c.(fields := fields)
  }

  /** Stores a value in the container at `target`. */
  function Store(heap: seq<Container>, target: nat, key: string, v: Captured): seq<Container>
    requires target < |heap|
  {
    heap[target := Put(heap[target], key, v)]
  }

  predicate Full(core: Core, o: Options) {
    core.Visited() + |core.tasks| >= o.Budget()
  }

  /** Meets an object for which there is no container yet. */
  function Discover(core: Core, task: Task, key: string, remote: Remote, o: Options): Core
    requires remote.Remote? && task.target < |core.heap|
  {
    if task.depth < o.maxDepth && Full(core, o) then
      core.(heap := Store(core.heap, task.target, key, Truncated))
    else
      var address := |core.heap|;
      var heap := Store(core.heap + [Empty(remote.isArray)], task.target, key, Ref(address));
      if task.depth < o.maxDepth then
        core.(heap := heap, materialized := core.materialized[remote.id := address],
              tasks := core.tasks + [Task(task.depth + 1, remote.id, address, false)])
      else core.(heap := heap)
  }

  /** One round of the loop over the selected descriptors. */
  function Visit(core: Core, task: Task, d: Descriptor, o: Options): (r: Core)
    requires task.target < |core.heap|
    ensures |r.heap| >= |core.heap|
  {
    var target := core.heap[task.target];
    if task.preserve && d.name in target.fields then core
    else if o.redacted(d.name) then
      if target.isArray then core else core.(heap := Store(core.heap, task.target, d.name, Undefined))
    else if d.value.None? then core.(heap := Store(core.heap, task.target, d.name, Getter))
    else if d.value.value.Primitive? then
      core.(heap := Store(core.heap, task.target, d.name, Plain(d.value.value.text)))
    else if d.value.value.id in core.materialized then
      core.(heap := Store(core.heap, task.target, d.name, Ref(core.materialized[d.value.value.id])))
    else Discover(core, task, d.name, d.value.value, o)
  }

  function VisitAll(core: Core, task: Task, ds: seq<Descriptor>, o: Options): (r: Core)
    requires task.target < |core.heap|
    ensures |r.heap| >= |core.heap|
    decreases |ds|
  {
    if ds == [] then core
    else VisitAll(Visit(core, task, ds[0], o), task, ds[1..], o)
  }

  // ---------------------------------------------------------------- one request

  function Shift(core: Core): Core
    requires core.tasks != []
  {
    core.(tasks := core.tasks[1..], requested := core.requested + [core.tasks[0]])
  }

  function SetLength(core: Core, target: nat, ds: seq<Descriptor>): (r: Core)
    requires target < |core.heap|
    ensures |r.heap| == |core.heap|
  {
    var c := core.heap[target];
    if c.isArray && DeclaredLength(ds).Some?
    then core.(heap := core.heap[target := c.(length := DeclaredLength(ds).value)])
    else core
  }

  /** What the answer to the request for `task` does. */
  function Receive(core: Core, task: Task, reply: Reply, o: Options): Core
    requires task.target < |core.heap|
  {
    match reply
    case Refused(error) => core.(firstError := if core.firstError.None? then Some(error) else core.firstError)
    case Properties(ds) =>
      VisitAll(SetLength(core, task.target, ds), task, Selected(ds, core.heap[task.target].isArray, o), o)
  }

  /** Takes the next task and waits for its answer. */
  function Advance(core: Core, inspector: Inspector, o: Options): Core
    requires core.tasks != [] && core.tasks[0].target < |core.heap|
  {
    Receive(Shift(core), core.tasks[0], inspector(core.Visited(), core.tasks[0].id), o)
  }

  // ---------------------------------------------------------------- what every step keeps

  /** The budget holds, and every task has a container. */
  ghost predicate CoreOk(core: Core, o: Options) {
    && core.Visited() + |core.tasks| <= o.Budget()
    && (forall t :: t in core.tasks ==> t.target < |core.heap| && t.depth <= o.maxDepth)
    && (forall t :: t in core.requested ==> t.target < |core.heap| && t.depth <= o.maxDepth)
    && (forall id :: id in core.materialized ==> core.materialized[id] < |core.heap|)
  }

  lemma VisitOk(core: Core, task: Task, d: Descriptor, o: Options)
    requires CoreOk(core, o) && task.target < |core.heap|
    ensures CoreOk(Visit(core, task, d, o), o)
    ensures Visit(core, task, d, o).requested == core.requested
  {
  }

  lemma {:induction false} VisitAllOk(core: Core, task: Task, ds: seq<Descriptor>, o: Options)
    requires CoreOk(core, o) && task.target < |core.heap|
    ensures CoreOk(VisitAll(core, task, ds, o), o)
    ensures VisitAll(core, task, ds, o).requested == core.requested
    decreases |ds|
  {
    if ds != [] {
      VisitOk(core, task, ds[0], o);
      VisitAllOk(Visit(core, task, ds[0], o), task, ds[1..], o);
    }
  }

  lemma ReceiveOk(core: Core, task: Task, reply: Reply, o: Options)
    requires CoreOk(core, o) && task.target < |core.heap|
    ensures CoreOk(Receive(core, task, reply, o), o)
    ensures Receive(core, task, reply, o).requested == core.requested
  {
    if reply.Properties? {
      VisitAllOk(SetLength(core, task.target, reply.descriptors), task,
                 Selected(reply.descriptors, core.heap[task.target].isArray, o), o);
    }
  }

  lemma AdvanceOk(core: Core, inspector: Inspector, o: Options)
    requires CoreOk(core, o) && core.tasks != []
    ensures core.tasks[0].target < |core.heap|
    ensures CoreOk(Shift(core), o)
    ensures CoreOk(Advance(core, inspector, o), o)
    ensures Advance(core, inspector, o).requested == core.requested + [core.tasks[0]]
  {
    assert core.tasks[0] in core.tasks;
    assert forall t :: t in core.tasks[1..] ==> t in core.tasks;
    ReceiveOk(Shift(core), core.tasks[0], inspector(core.Visited(), core.tasks[0].id), o);
  }

  /** The whole walk, as a plain loop over the queue. */
  ghost function Drain(core: Core, inspector: Inspector, o: Options): Core
    requires CoreOk(core, o)
    decreases o.Budget() - core.Visited()
  {
    if core.tasks == [] then core
    else
      AdvanceOk(core, inspector, o);
      Drain(Advance(core, inspector, o), inspector, o)
  }

  // ---------------------------------------------------------------- the frames' scopes

  const FRAME_SCOPE_TYPES := {"local", "block", "catch"}

  /** The ids of a frame's scopes, innermost first, without repetition. */
  function ScopeIds(scopes: seq<Scope>): (ids: seq<ObjectId>)
    ensures forall i, j :: 0 <= i < j < |ids| ==> ids[i] != ids[j]
  {
    if scopes == [] then []
    else
      var ids := ScopeIds(scopes[..|scopes| - 1]);
      var last := scopes[|scopes| - 1];
      if last.kind in FRAME_SCOPE_TYPES && last.id.Some? && last.id.value !in ids
      then ids + [last.id.value] else ids
  }

  /** Queues the scopes of the frame whose container is at `target`, as far as the budget goes. */
  function SeedScopes(core: Core, ids: seq<ObjectId>, target: nat, captured: nat, o: Options): Core
    decreases |ids|
  {
    if ids == [] || |core.tasks| >= o.Budget() then core
    else
      SeedScopes(
        core.(materialized := core.materialized[ids[0] := target],
              tasks := core.tasks + [Task(0, ids[0], target, captured > 0)]),
        ids[1..], target, captured + 1, o)
  }

  function SeedFrames(frames: seq<seq<Scope>>, k: nat, o: Options): Core
    requires k <= |frames|
  {
    if k == 0 then Core([], map[], seq(|frames|, i => Empty(false)), None, [])
    else SeedScopes(SeedFrames(frames, k - 1, o), ScopeIds(frames[k - 1]), k - 1, 0, o)
  }

  /** The state before the first request. */
  function Seed(frames: seq<seq<Scope>>, o: Options): Core {
    SeedFrames(frames, |frames|, o)
  }

  /** The frames' results: a container, or nothing where no scope of a frame that has some was queued. */
  function Locals(frames: seq<seq<Scope>>, o: Options): seq<Option<nat>> {
    seq(|frames|, i requires 0 <= i < |frames| =>
      if ScopeIds(frames[i]) != [] && |SeedFrames(frames, i, o).tasks| >= o.Budget() then None else Some(i))
  }

  lemma {:induction false} SeedScopesOk(core: Core, ids: seq<ObjectId>, target: nat, captured: nat, o: Options)
    requires CoreOk(core, o) && target < |core.heap| && core.requested == []
    ensures CoreOk(SeedScopes(core, ids, target, captured, o), o)
    ensures SeedScopes(core, ids, target, captured, o).requested == []
    ensures SeedScopes(core, ids, target, captured, o).heap == core.heap
    ensures SeedScopes(core, ids, target, captured, o).firstError == core.firstError
    decreases |ids|
  {
    if ids != [] && |core.tasks| < o.Budget() {
      SeedScopesOk(
        core.(materialized := core.materialized[ids[0] := target],
              tasks := core.tasks + [Task(0, ids[0], target, captured > 0)]),
        ids[1..], target, captured + 1, o);
    }
  }

  lemma {:induction false} SeedFramesOk(frames: seq<seq<Scope>>, k: nat, o: Options)
    requires k <= |frames|
    ensures CoreOk(SeedFrames(frames, k, o), o)
    ensures SeedFrames(frames, k, o).requested == [] && SeedFrames(frames, k, o).firstError == None
    ensures SeedFrames(frames, k, o).heap == seq(|frames|, i => Empty(false))
  {
    if k > 0 {
      SeedFramesOk(frames, k - 1, o);
      SeedScopesOk(SeedFrames(frames, k - 1, o), ScopeIds(frames[k - 1]), k - 1, 0, o);
    }
  }
}

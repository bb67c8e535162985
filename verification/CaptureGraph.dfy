/**
 What a finished capture looks like: which objects were asked for, in which order, and what their
 containers hold. The predicates speak of the walk's history, the tasks taken so far followed by
 those still queued.
 */
module CaptureGraph {
  import opened Capture

  // ---------------------------------------------------------------- the history

  /** Shallower objects come first, and no task is more than one level below the last one taken. */
  ghost predicate BreadthFirst(h: seq<Task>, taken: nat)
    requires taken <= |h|
  {
    && (forall i, j :: 0 <= i < j < |h| ==> h[i].depth <= h[j].depth)
    && (forall i :: 0 <= i < |h| ==> h[i].depth <= (if taken == 0 then 0 else h[taken - 1].depth + 1))
  }

  /** Only a scope may be queued again, and only the first task of a container may overwrite in it. */
  ghost predicate OnceEach(h: seq<Task>) {
    && (forall i, j :: 0 <= i < j < |h| && h[i].id == h[j].id ==> h[j].depth == 0)
    && (forall i, j :: 0 <= i < j < |h| && h[i].target == h[j].target ==> h[j].preserve)
  }

  /** The container of an object is that of its last task. */
  ghost predicate LastTask(h: seq<Task>, i: nat, id: ObjectId, target: nat) {
    i < |h| && h[i].id == id && h[i].target == target && forall j :: i < j < |h| ==> h[j].id != id
  }

  /** The known containers are those of the queued objects. */
  ghost predicate Registered(h: seq<Task>, materialized: map<ObjectId, nat>) {
    && (forall i :: 0 <= i < |h| ==> h[i].id in materialized)
    && (forall id :: id in materialized ==> exists i :: LastTask(h, i, id, materialized[id]))
  }

  ghost predicate HistoryOk(core: Core) {
    && BreadthFirst(core.History(), core.Visited())
    && OnceEach(core.History())
    && Registered(core.History(), core.materialized)
    && (forall t :: t in core.History() ==> t.target < |core.heap|)
  }

  /** The task whose answer is being read is the last one taken. */
  ghost predicate Current(core: Core, task: Task) {
    core.requested != [] && core.requested[|core.requested| - 1] == task
  }

  /** A new object gets a container and a place in the queue. */
  ghost predicate Queues(core: Core, task: Task, core': Core, id: ObjectId, o: Options) {
    && task.depth < o.maxDepth && !Full(core, o)
    && id !in core.materialized
    && core'.materialized == core.materialized[id := |core.heap|]
    && core'.tasks == core.tasks + [Task(task.depth + 1, id, |core.heap|, false)]
    && |core'.heap| > |core.heap|
  }

  /** What reading one property may change. */
  ghost predicate Grows(core: Core, task: Task, core': Core, o: Options) {
    && core'.requested == core.requested
    && ((core'.tasks == core.tasks && core'.materialized == core.materialized)
        || exists id :: Queues(core, task, core', id, o))
    && |core'.heap| >= |core.heap|
    && (forall a :: 0 <= a < |core.heap| && a != task.target ==> core'.heap[a] == core.heap[a])
    && (forall a :: |core.heap| <= a < |core'.heap| ==> core'.heap[a].fields == map[])
  }

  lemma VisitGrows(core: Core, task: Task, d: Descriptor, o: Options)
    requires task.target < |core.heap|
    ensures Grows(core, task, Visit(core, task, d, o), o)
  {
    if d.value.Some? && d.value.value.Remote? && Visit(core, task, d, o).tasks != core.tasks {
      assert Queues(core, task, Visit(core, task, d, o), d.value.value.id, o);
    }
  }

  lemma QueueingIsBreadthFirst(h: seq<Task>, taken: nat, t: Task)
    requires 0 < taken <= |h| && BreadthFirst(h, taken) && t.depth == h[taken - 1].depth + 1
    ensures BreadthFirst(h + [t], taken)
  {
  }

  lemma QueueingOnce(h: seq<Task>, t: Task)
    requires OnceEach(h)
    requires forall i :: 0 <= i < |h| ==> h[i].id != t.id && h[i].target != t.target
    ensures OnceEach(h + [t])
  {
  }

  lemma QueueingRegisters(h: seq<Task>, materialized: map<ObjectId, nat>, t: Task)
    requires Registered(h, materialized)
    ensures Registered(h + [t], materialized[t.id := t.target])
  {
    var h', m' := h + [t], materialized[t.id := t.target];
    forall id | id in m' ensures exists i :: LastTask(h', i, id, m'[id]) {
      if id == t.id {
        assert LastTask(h', |h|, id, m'[id]);
      } else {
        var i: nat :| LastTask(h, i, id, materialized[id]);
        assert LastTask(h', i, id, m'[id]);
      }
    }
  }

  lemma GrowsKeepsHistory(core: Core, task: Task, core': Core, o: Options)
    requires HistoryOk(core) && Current(core, task) && Grows(core, task, core', o)
    ensures HistoryOk(core') && Current(core', task)
  {
    hide BreadthFirst, OnceEach;
    var h := core.History();
    if id :| Queues(core, task, core', id, o) {
      var t := Task(task.depth + 1, id, |core.heap|, false);
      assert core'.History() == h + [t];
      assert h[core.Visited() - 1] == task;
      QueueingIsBreadthFirst(h, core.Visited(), t);
      assert forall i :: 0 <= i < |h| ==> h[i] in h;
      QueueingOnce(h, t);
      QueueingRegisters(h, core.materialized, t);
    }
  }

  lemma ShiftKeepsHistory(core: Core)
    requires HistoryOk(core) && core.tasks != []
    ensures HistoryOk(Shift(core)) && Current(Shift(core), core.tasks[0])
    ensures Shift(core).History() == core.History()
    ensures core.tasks[0].target < |core.heap|
  {
    hide OnceEach, Registered;
    assert Shift(core).History() == core.History();
    assert core.History()[core.Visited()] == core.tasks[0];
  }

  /** Before the first request: scopes only, of the first `k` frames. */
  ghost predicate Seeded(core: Core, k: nat) {
    && core.requested == []
    && (forall t :: t in core.tasks ==> t.depth == 0 && t.target < k)
    && OnceEach(core.tasks)
    && Registered(core.tasks, core.materialized)
  }

  lemma SeedOnce(h: seq<Task>, t: Task)
    requires OnceEach(h) && t.depth == 0
    requires t.preserve || forall u :: u in h ==> u.target != t.target
    ensures OnceEach(h + [t])
  {
  }

  lemma {:induction false} SeedScopesHistory(core: Core, ids: seq<ObjectId>, target: nat, captured: nat, o: Options)
    requires Seeded(core, target + 1)
    requires captured == 0 ==> forall t :: t in core.tasks ==> t.target < target
    ensures Seeded(SeedScopes(core, ids, target, captured, o), target + 1)
    decreases |ids|
  {
    if ids != [] && |core.tasks| < o.Budget() {
      hide OnceEach, Registered;
      var t := Task(0, ids[0], target, captured > 0);
      SeedOnce(core.tasks, t);
      QueueingRegisters(core.tasks, core.materialized, t);
      SeedScopesHistory(
        core.(materialized := core.materialized[ids[0] := target], tasks := core.tasks + [t]),
        ids[1..], target, captured + 1, o);
    }
  }

  lemma {:induction false} SeedFramesHistory(frames: seq<seq<Scope>>, k: nat, o: Options)
    requires k <= |frames|
    ensures Seeded(SeedFrames(frames, k, o), k)
  {
    if k > 0 {
      SeedFramesHistory(frames, k - 1, o);
      SeedScopesHistory(SeedFrames(frames, k - 1, o), ScopeIds(frames[k - 1]), k - 1, 0, o);
    }
  }

  lemma SeedHistory(frames: seq<seq<Scope>>, o: Options)
    ensures CoreOk(Seed(frames, o), o) && HistoryOk(Seed(frames, o)) && Seed(frames, o).requested == []
  {
    hide SeedFrames, OnceEach, Registered;
    SeedFramesOk(frames, |frames|, o);
    SeedFramesHistory(frames, |frames|, o);
    var core := Seed(frames, o);
    assert core.History() == core.tasks;
    assert forall i :: 0 <= i < |core.tasks| ==> core.tasks[i] in core.tasks;
  }

  // ---------------------------------------------------------------- what the containers hold

  /** An unread container that nothing will ever fill. */
  predicate IsLeaf(h: seq<Task>, heap: seq<Container>, a: nat, isArray: bool) {
    a < |heap| && heap[a] == Empty(isArray) && forall t :: t in h ==> t.target != a
  }

  /**
   The value shown for a property of an object `depth` levels down. Nothing is shown of a redacted
   property; an object is shown by its one container, is cut only if the whole budget is spent, and
   is left empty only at the depth limit.
   */
  predicate Shows(core: Core, o: Options, depth: nat, d: Descriptor, v: Captured) {
    if o.redacted(d.name) then v == Undefined
    else if d.value.None? then v == Getter
    else match d.value.value
      case Primitive(text) => v == Plain(text)
      case Remote(id, isArray) =>
        if id in core.materialized then v == Ref(core.materialized[id])
        else if depth < o.maxDepth then v == Truncated && Full(core, o)
        else v.Ref? && IsLeaf(core.History(), core.heap, v.address, isArray)
  }

  lemma GrowsKeepsShown(core: Core, task: Task, core': Core, o: Options, depth: nat, d: Descriptor, v: Captured)
    requires HistoryOk(core) && Current(core, task) && Grows(core, task, core', o)
    requires depth <= task.depth && Shows(core, o, depth, d, v)
    ensures Shows(core', o, depth, d, v)
  {
    hide BreadthFirst, OnceEach, Registered;
    assert task in core.History();
    if id :| Queues(core, task, core', id, o) {
      assert core'.History() == core.History() + [Task(task.depth + 1, id, |core.heap|, false)];
    }
  }

  lemma VisitShows(core: Core, task: Task, d: Descriptor, o: Options)
    requires task.target < |core.heap| && HistoryOk(core) && Current(core, task)
    requires !(task.preserve && d.name in core.heap[task.target].fields)
    requires !(core.heap[task.target].isArray && o.redacted(d.name))
    ensures var r := Visit(core, task, d, o);
      && r.heap[task.target].fields.Keys == core.heap[task.target].fields.Keys + {d.name}
      && (forall k :: k in core.heap[task.target].fields && k != d.name ==>
            r.heap[task.target].fields[k] == core.heap[task.target].fields[k])
      && r.heap[task.target].isArray == core.heap[task.target].isArray
      && Shows(r, o, task.depth, d, r.heap[task.target].fields[d.name])
  {
    hide BreadthFirst, OnceEach, Registered;
    var r := Visit(core, task, d, o);
    if r.tasks == core.tasks {
      assert r.History() == core.History();
    }
  }

  /** One of the descriptors accounts for the value. */
  ghost predicate ShownBy(core: Core, o: Options, ds: seq<Descriptor>, depth: nat, key: string, v: Captured) {
    exists d :: d in ds && d.name == key && Shows(core, o, depth, d, v)
  }

  ghost predicate Names(ds: seq<Descriptor>, key: string) {
    exists d :: d in ds && d.name == key
  }

  /** The field comes from request `i`, the first one for this container whose answer has the key. */
  ghost predicate Explained(core: Core, o: Options, read: seq<seq<Descriptor>>, i: nat, a: nat, key: string)
    requires |read| == |core.requested| && a < |core.heap| && key in core.heap[a].fields
  {
    && i < |read| && core.requested[i].target == a
    && ShownBy(core, o, read[i], core.requested[i].depth, key, core.heap[a].fields[key])
    && forall j :: 0 <= j < i && core.requested[j].target == a ==> !Names(read[j], key)
  }

  /** The property has its field, unless it is a redacted array element. */
  predicate Held(c: Container, d: Descriptor, o: Options) {
    d.name in c.fields || (c.isArray && o.redacted(d.name))
  }

  ghost predicate AllExplained(core: Core, o: Options, read: seq<seq<Descriptor>>)
    requires |read| == |core.requested|
  {
    forall a, key :: 0 <= a < |core.heap| && key in core.heap[a].fields ==>
      exists i :: Explained(core, o, read, i, a, key)
  }

  ghost predicate AllHeld(core: Core, o: Options, read: seq<seq<Descriptor>>)
    requires |read| == |core.requested|
  {
    forall i, d :: 0 <= i < |read| && d in read[i] ==>
      core.requested[i].target < |core.heap| && Held(core.heap[core.requested[i].target], d, o)
  }

  /** `read` gives, for each request, the properties read from its answer so far. */
  ghost predicate Pictured(core: Core, o: Options, read: seq<seq<Descriptor>>) {
    |read| == |core.requested| && AllExplained(core, o, read) && AllHeld(core, o, read)
  }

  function Extend(read: seq<seq<Descriptor>>, d: Descriptor): seq<seq<Descriptor>>
    requires read != []
  {
    read[|read| - 1 := read[|read| - 1] + [d]]
  }

  lemma DepthOfEarlier(core: Core, task: Task, i: nat)
    requires HistoryOk(core) && Current(core, task) && i < |core.requested|
    ensures core.requested[i].depth <= task.depth
  {
    var h := core.History();
    assert h[i] == core.requested[i] && h[|core.requested| - 1] == task;
  }

  lemma ExplainedKept(core: Core, task: Task, core': Core, o: Options,
                      read: seq<seq<Descriptor>>, d: Descriptor, i: nat, a: nat, key: string)
    requires HistoryOk(core) && Current(core, task) && Grows(core, task, core', o)
    requires |read| == |core.requested| && a < |core.heap| && key in core.heap[a].fields
    requires Explained(core, o, read, i, a, key)
    requires key in core'.heap[a].fields && core'.heap[a].fields[key] == core.heap[a].fields[key]
    ensures Explained(core', o, Extend(read, d), i, a, key)
  {
    var v := core.heap[a].fields[key];
    var e :| e in read[i] && e.name == key && Shows(core, o, core.requested[i].depth, e, v);
    DepthOfEarlier(core, task, i);
    GrowsKeepsShown(core, task, core', o, core.requested[i].depth, e, v);
    hide HistoryOk, Grows, Shows;
    assert e in Extend(read, d)[i];
  }

  /** Nothing read earlier for the same container had the key. */
  lemma FirstToHave(core: Core, task: Task, d: Descriptor, o: Options, read: seq<seq<Descriptor>>, j: nat)
    requires HistoryOk(core) && Current(core, task) && Pictured(core, o, read)
    requires !(task.preserve && d.name in core.heap[task.target].fields)
    requires !(core.heap[task.target].isArray && o.redacted(d.name))
    requires j < |core.requested| - 1 && core.requested[j].target == task.target
    ensures !Names(read[j], d.name)
  {
    var h := core.History();
    assert h[j] == core.requested[j] && h[|core.requested| - 1] == task;
    assert task.preserve;
  }

  lemma ExplainedNow(core: Core, task: Task, d: Descriptor, o: Options, read: seq<seq<Descriptor>>)
    requires HistoryOk(core) && Current(core, task) && Pictured(core, o, read) && task.target < |core.heap|
    requires !(task.preserve && d.name in core.heap[task.target].fields)
    requires !(core.heap[task.target].isArray && o.redacted(d.name))
    ensures var core' := Visit(core, task, d, o);
      core'.requested == core.requested && d.name in core'.heap[task.target].fields
      && Explained(core', o, Extend(read, d), |read| - 1, task.target, d.name)
  {
    VisitShows(core, task, d, o);
    VisitGrows(core, task, d, o);
    var core' := Visit(core, task, d, o);
    var last := |read| - 1;
    forall j | 0 <= j < last && core.requested[j].target == task.target
      ensures !Names(Extend(read, d)[j], d.name)
    {
      FirstToHave(core, task, d, o, read, j);
    }
    hide HistoryOk, Grows, Shows, Visit;
    assert d in Extend(read, d)[last];
  }

  lemma VisitExplains(core: Core, task: Task, d: Descriptor, o: Options, read: seq<seq<Descriptor>>)
    requires HistoryOk(core) && Current(core, task) && Pictured(core, o, read) && task.target < |core.heap|
    requires !(task.preserve && d.name in core.heap[task.target].fields)
    requires !(core.heap[task.target].isArray && o.redacted(d.name))
    ensures Visit(core, task, d, o).requested == core.requested
    ensures AllExplained(Visit(core, task, d, o), o, Extend(read, d))
  {
    VisitShows(core, task, d, o);
    VisitGrows(core, task, d, o);
    ExplainedNow(core, task, d, o, read);
    var core' := Visit(core, task, d, o);
    hide Visit, Explained, HistoryOk, Shows;
    forall a, key | 0 <= a < |core'.heap| && key in core'.heap[a].fields
      ensures exists i :: Explained(core', o, Extend(read, d), i, a, key)
    {
      if a != task.target || key != d.name {
        assert key in core.heap[a].fields;
        var i: nat :| Explained(core, o, read, i, a, key);
        ExplainedKept(core, task, core', o, read, d, i, a, key);
      }
    }
  }

  lemma VisitHolds(core: Core, task: Task, d: Descriptor, o: Options, read: seq<seq<Descriptor>>)
    requires HistoryOk(core) && Current(core, task) && Pictured(core, o, read) && task.target < |core.heap|
    ensures Visit(core, task, d, o).requested == core.requested
    ensures AllHeld(Visit(core, task, d, o), o, Extend(read, d))
  {
    VisitGrows(core, task, d, o);
    var core' := Visit(core, task, d, o);
    if !(task.preserve && d.name in core.heap[task.target].fields)
       && !(core.heap[task.target].isArray && o.redacted(d.name)) {
      VisitShows(core, task, d, o);
    } else {
      assert core' == core;
    }
    hide Visit, HistoryOk, Shows;
    forall i, e | 0 <= i < |read| && e in Extend(read, d)[i]
      ensures core.requested[i].target < |core'.heap| && Held(core'.heap[core.requested[i].target], e, o)
    {
      if i < |read| - 1 || e != d {
        assert e in read[i];
      }
    }
  }

  lemma SkipExplains(core: Core, d: Descriptor, o: Options, read: seq<seq<Descriptor>>)
    requires Pictured(core, o, read) && read != []
    ensures AllExplained(core, o, Extend(read, d))
  {
    hide Shows;
    forall a, key | 0 <= a < |core.heap| && key in core.heap[a].fields
      ensures exists i :: Explained(core, o, Extend(read, d), i, a, key)
    {
      var i: nat :| Explained(core, o, read, i, a, key);
      var e :| e in read[i] && e.name == key
               && Shows(core, o, core.requested[i].depth, e, core.heap[a].fields[key]);
      assert e in Extend(read, d)[i];
      assert Explained(core, o, Extend(read, d), i, a, key);
    }
  }

  lemma VisitPictures(core: Core, task: Task, d: Descriptor, o: Options, read: seq<seq<Descriptor>>)
    requires HistoryOk(core) && Current(core, task) && Pictured(core, o, read) && task.target < |core.heap|
    ensures Pictured(Visit(core, task, d, o), o, Extend(read, d))
    ensures HistoryOk(Visit(core, task, d, o)) && Current(Visit(core, task, d, o), task)
  {
    VisitHolds(core, task, d, o, read);
    VisitGrows(core, task, d, o);
    GrowsKeepsHistory(core, task, Visit(core, task, d, o), o);
    hide HistoryOk, Shows, Grows, AllHeld, AllExplained;
    if !(task.preserve && d.name in core.heap[task.target].fields)
       && !(core.heap[task.target].isArray && o.redacted(d.name)) {
      hide Visit;
      VisitExplains(core, task, d, o, read);
    } else {
      assert Visit(core, task, d, o) == core;
      hide Visit;
      SkipExplains(core, d, o, read);
    }
  }

  // ---------------------------------------------------------------- whole answers

  /** Only an array's length or the error may change. */
  ghost predicate SameFields(core: Core, task: Task, core': Core) {
    && core' == core.(heap := core'.heap, firstError := core'.firstError)
    && |core'.heap| == |core.heap|
    && (forall a :: 0 <= a < |core.heap| ==>
          core'.heap[a].fields == core.heap[a].fields && core'.heap[a].isArray == core.heap[a].isArray)
    && (forall a :: 0 <= a < |core.heap| && a != task.target ==> core'.heap[a] == core.heap[a])
  }

  lemma SameFieldsPicture(core: Core, task: Task, core': Core, o: Options, read: seq<seq<Descriptor>>)
    requires HistoryOk(core) && Current(core, task) && Pictured(core, o, read) && SameFields(core, task, core')
    ensures Pictured(core', o, read) && HistoryOk(core') && Current(core', task)
  {
    assert core'.History() == core.History();
    forall a, key | 0 <= a < |core'.heap| && key in core'.heap[a].fields
      ensures exists i :: Explained(core', o, read, i, a, key)
    {
      var i: nat :| Explained(core, o, read, i, a, key);
      var v := core.heap[a].fields[key];
      var e :| e in read[i] && e.name == key && Shows(core, o, core.requested[i].depth, e, v);
      assert Shows(core', o, core.requested[i].depth, e, v) by {
        assert task in core.History();
      }
      assert Explained(core', o, read, i, a, key);
    }
  }

  lemma ShiftShows(core: Core, o: Options, depth: nat, d: Descriptor, v: Captured)
    requires core.tasks != []
    ensures Shows(Shift(core), o, depth, d, v) == Shows(core, o, depth, d, v)
  {
    assert Shift(core).History() == core.History();
  }

  lemma ShiftPictures(core: Core, o: Options, read: seq<seq<Descriptor>>)
    requires HistoryOk(core) && Pictured(core, o, read) && core.tasks != []
    ensures Pictured(Shift(core), o, read + [[]])
  {
    var core', read' := Shift(core), read + [[]];
    forall depth: nat, d, v ensures Shows(core', o, depth, d, v) == Shows(core, o, depth, d, v) {
      ShiftShows(core, o, depth, d, v);
    }
    hide HistoryOk, Shows;
    forall a, key | 0 <= a < |core'.heap| && key in core'.heap[a].fields
      ensures exists i :: Explained(core', o, read', i, a, key)
    {
      var i: nat :| Explained(core, o, read, i, a, key);
      var v := core.heap[a].fields[key];
      var e :| e in read[i] && e.name == key && Shows(core, o, core.requested[i].depth, e, v);
      assert Shows(core', o, core'.requested[i].depth, e, v);
      assert Explained(core', o, read', i, a, key);
    }
  }

  function ExtendAll(read: seq<seq<Descriptor>>, ds: seq<Descriptor>): seq<seq<Descriptor>>
    requires read != []
  {
    read[|read| - 1 := read[|read| - 1] + ds]
  }

  /** Containers stay arrays or records. */
  ghost predicate SameKinds(before: seq<Container>, after: seq<Container>) {
    |before| <= |after| && forall a :: 0 <= a < |before| ==> after[a].isArray == before[a].isArray
  }

  lemma VisitKeepsKinds(core: Core, task: Task, d: Descriptor, o: Options)
    requires task.target < |core.heap|
    ensures SameKinds(core.heap, Visit(core, task, d, o).heap)
  {
  }

  lemma {:induction false} VisitAllPictures(
    core: Core, task: Task, ds: seq<Descriptor>, o: Options, read: seq<seq<Descriptor>>)
    requires HistoryOk(core) && Current(core, task) && Pictured(core, o, read) && task.target < |core.heap|
    ensures Pictured(VisitAll(core, task, ds, o), o, ExtendAll(read, ds))
    ensures HistoryOk(VisitAll(core, task, ds, o)) && Current(VisitAll(core, task, ds, o), task)
    ensures SameKinds(core.heap, VisitAll(core, task, ds, o).heap)
    decreases |ds|
  {
    hide HistoryOk, AllExplained, AllHeld;
    var last := read[|read| - 1];
    if ds == [] {
      assert last + ds == last;
      assert ExtendAll(read, ds) == read;
    } else {
      VisitPictures(core, task, ds[0], o, read);
      VisitKeepsKinds(core, task, ds[0], o);
      VisitAllPictures(Visit(core, task, ds[0], o), task, ds[1..], o, Extend(read, ds[0]));
      assert (last + [ds[0]]) + ds[1..] == last + ds;
      assert ExtendAll(Extend(read, ds[0]), ds[1..]) == ExtendAll(read, ds);
    }
  }

  /** The properties that are read from an answer. */
  function Reading(reply: Reply, isArray: bool, o: Options): seq<Descriptor> {
    if reply.Refused? then [] else Selected(reply.descriptors, isArray, o)
  }

  lemma ReceivePictures(core: Core, task: Task, reply: Reply, o: Options, read: seq<seq<Descriptor>>)
    requires HistoryOk(core) && Current(core, task) && Pictured(core, o, read) && task.target < |core.heap|
    ensures var r := Receive(core, task, reply, o);
      && HistoryOk(r) && Current(r, task) && SameKinds(core.heap, r.heap)
      && Pictured(r, o, ExtendAll(read, Reading(reply, core.heap[task.target].isArray, o)))
  {
    hide HistoryOk, AllExplained, AllHeld, Selected;
    if reply.Refused? {
      var r := Receive(core, task, reply, o);
      SameFieldsPicture(core, task, r, o, read);
      assert read[|read| - 1] + [] == read[|read| - 1];
      assert ExtendAll(read, []) == read;
    } else {
      var sized := SetLength(core, task.target, reply.descriptors);
      SameFieldsPicture(core, task, sized, o, read);
      VisitAllPictures(sized, task, Selected(reply.descriptors, core.heap[task.target].isArray, o), o, read);
    }
  }

  /** The properties read from each answer so far. */
  function Readings(core: Core, inspector: Inspector, o: Options): seq<seq<Descriptor>>
    requires forall t :: t in core.requested ==> t.target < |core.heap|
  {
    seq(|core.requested|, i requires 0 <= i < |core.requested| =>
      Reading(inspector(i, core.requested[i].id), core.heap[core.requested[i].target].isArray, o))
  }

  lemma ExtendEmpty(read: seq<seq<Descriptor>>, reading: seq<Descriptor>)
    ensures ExtendAll(read + [[]], reading) == read + [reading]
  {
    assert [] + reading == reading;
  }

  lemma OneMoreReading(core: Core, task: Task, next: Core, inspector: Inspector, o: Options)
    requires forall t :: t in core.requested + [task] ==> t.target < |core.heap|
    requires next.requested == core.requested + [task] && SameKinds(core.heap, next.heap)
    ensures forall t :: t in next.requested ==> t.target < |next.heap|
    ensures task in core.requested + [task]
    ensures Readings(next, inspector, o) == Readings(core, inspector, o)
      + [Reading(inspector(core.Visited(), task.id), core.heap[task.target].isArray, o)]
  {
    hide Reading;
    assert task in core.requested + [task];
    var n := core.Visited();
    forall i | 0 <= i < n ensures Readings(next, inspector, o)[i] == Readings(core, inspector, o)[i] {
      assert next.requested[i] == core.requested[i] && core.requested[i] in core.requested + [task];
    }
    assert next.requested[n] == task;
  }

  lemma AdvanceReads(core: Core, inspector: Inspector, o: Options)
    requires CoreOk(core, o) && HistoryOk(core) && core.tasks != [] && core.tasks[0].target < |core.heap|
    requires Pictured(core, o, Readings(core, inspector, o))
    ensures CoreOk(Advance(core, inspector, o), o) && HistoryOk(Advance(core, inspector, o))
    ensures Pictured(Advance(core, inspector, o), o, Readings(Advance(core, inspector, o), inspector, o))
    ensures Readings(Advance(core, inspector, o), inspector, o) == Readings(core, inspector, o)
      + [Reading(inspector(core.Visited(), core.tasks[0].id), core.heap[core.tasks[0].target].isArray, o)]
  {
    AdvanceOk(core, inspector, o);
    var task, read, next := core.tasks[0], Readings(core, inspector, o), Advance(core, inspector, o);
    var reply := inspector(core.Visited(), task.id);
    ShiftKeepsHistory(core);
    ShiftPictures(core, o, read);
    ReceivePictures(Shift(core), task, reply, o, read + [[]]);
    hide HistoryOk, Receive, Reading, Pictured, ExtendAll;
    OneMoreReading(core, task, next, inspector, o);
    ExtendEmpty(read, Reading(reply, core.heap[task.target].isArray, o));
  }

  /** What a capture has to be. */
  ghost predicate Faithful(core: Core, inspector: Inspector, o: Options) {
    && CoreOk(core, o) && HistoryOk(core)
    && Pictured(core, o, Readings(core, inspector, o))
  }

  lemma {:induction false} DrainIsFaithful(core: Core, inspector: Inspector, o: Options)
    requires Faithful(core, inspector, o)
    ensures Faithful(Drain(core, inspector, o), inspector, o)
    ensures Drain(core, inspector, o).tasks == []
    decreases o.Budget() - core.Visited()
  {
    if core.tasks != [] {
      AdvanceOk(core, inspector, o);
      AdvanceReads(core, inspector, o);
      hide HistoryOk, Pictured, Advance;
      DrainIsFaithful(Advance(core, inspector, o), inspector, o);
    }
  }

  lemma SeedIsFaithful(frames: seq<seq<Scope>>, inspector: Inspector, o: Options)
    ensures Faithful(Seed(frames, o), inspector, o)
  {
    SeedHistory(frames, o);
    SeedFramesOk(frames, |frames|, o);
  }
}

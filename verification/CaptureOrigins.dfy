/**
 Where the parts of a capture come from: which scopes it starts with, through which property each
 further object was found, how long its arrays are and whose error it reports.
 */
module CaptureOrigins {
  import opened Numerals
  import opened Capture
  import opened CaptureGraph
  import opened CaptureSelection

  // ---------------------------------------------------------------- the scopes come first

  function Take<T>(s: seq<T>, n: nat): seq<T> {
    if |s| <= n then s else s[..n]
  }

  /** The tasks of one frame: all scopes after the innermost one leave the names they find. */
  function FrameTasks(ids: seq<ObjectId>, target: nat): seq<Task> {
    seq(|ids|, j requires 0 <= j < |ids| => Task(0, ids[j], target, j > 0))
  }

  /** The tasks of all scopes of the first `k` frames. */
  function ScopeTasks(frames: seq<seq<Scope>>, k: nat): seq<Task>
    requires k <= |frames|
  {
    if k == 0 then [] else ScopeTasks(frames, k - 1) + FrameTasks(ScopeIds(frames[k - 1]), k - 1)
  }

  lemma {:induction false} SeedScopesTasks(core: Core, ids: seq<ObjectId>, target: nat, captured: nat, o: Options)
    requires |core.tasks| <= o.Budget() && captured <= |ids|
    ensures SeedScopes(core, ids[captured..], target, captured, o).tasks
      == Take(core.tasks + FrameTasks(ids, target)[captured..], o.Budget())
    decreases |ids| - captured
  {
    var rest, more := ids[captured..], FrameTasks(ids, target);
    if captured == |ids| {
      assert core.tasks + more[captured..] == core.tasks;
    } else if |core.tasks| < o.Budget() {
      var next := core.(materialized := core.materialized[rest[0] := target],
                        tasks := core.tasks + [Task(0, rest[0], target, captured > 0)]);
      assert rest[1..] == ids[captured + 1..];
      SeedScopesTasks(next, ids, target, captured + 1, o);
      assert core.tasks + more[captured..] == next.tasks + more[captured + 1..];
    } else {
      assert (core.tasks + more[captured..])[..|core.tasks|] == core.tasks;
    }
  }

  lemma TakeAppend<T>(a: seq<T>, b: seq<T>, n: nat)
    ensures Take(Take(a, n) + b, n) == Take(a + b, n)
  {
  }

  lemma {:induction false} SeedTasks(frames: seq<seq<Scope>>, k: nat, o: Options)
    requires k <= |frames|
    ensures SeedFrames(frames, k, o).tasks == Take(ScopeTasks(frames, k), o.Budget())
  {
    if k > 0 {
      SeedTasks(frames, k - 1, o);
      var before, ids := SeedFrames(frames, k - 1, o), ScopeIds(frames[k - 1]);
      hide ScopeIds;
      assert ids[0..] == ids && FrameTasks(ids, k - 1)[0..] == FrameTasks(ids, k - 1);
      SeedScopesTasks(before, ids, k - 1, 0, o);
      TakeAppend(ScopeTasks(frames, k - 1), FrameTasks(ids, k - 1), o.Budget());
    }
  }

  lemma {:induction false} ScopeTasksGrow(frames: seq<seq<Scope>>, i: nat, k: nat)
    requires i <= k <= |frames|
    ensures |ScopeTasks(frames, i)| <= |ScopeTasks(frames, k)|
    ensures ScopeTasks(frames, k)[..|ScopeTasks(frames, i)|] == ScopeTasks(frames, i)
    ensures forall n | |ScopeTasks(frames, i)| <= n < |ScopeTasks(frames, k)| ::
        i <= ScopeTasks(frames, k)[n].target < k
  {
    if i < k {
      ScopeTasksGrow(frames, i, k - 1);
      hide ScopeIds;
      var before, more := ScopeTasks(frames, k - 1), FrameTasks(ScopeIds(frames[k - 1]), k - 1);
      assert (before + more)[..|ScopeTasks(frames, i)|] == before[..|ScopeTasks(frames, i)|];
    }
  }

  /** The first scope of a frame is among the tasks that fit if and only if there is room before it. */
  lemma FrameFits(frames: seq<seq<Scope>>, i: nat, n: nat)
    requires i < |frames| && ScopeIds(frames[i]) != []
    ensures |ScopeTasks(frames, i)| < n <==> exists t :: t in Take(ScopeTasks(frames, |frames|), n) && t.target == i
  {
    ScopeTasksGrow(frames, 0, i);
    ScopeTasksGrow(frames, i, i + 1);
    ScopeTasksGrow(frames, i + 1, |frames|);
    hide ScopeIds;
    var start, own, all := |ScopeTasks(frames, i)|, ScopeTasks(frames, i + 1), ScopeTasks(frames, |frames|);
    if start < n {
      assert own[start] == Task(0, ScopeIds(frames[i])[0], i, false);
      assert all[start] == all[..|own|][start];
      assert Take(all, n)[start] == all[start];
    } else {
      hide ScopeTasks;
      forall k | 0 <= k < |Take(all, n)| ensures Take(all, n)[k].target != i {
        assert Take(all, n)[k] == all[k] == all[..|own|][k];
        assert own[k] == own[..start][k];
      }
    }
  }

  /** A frame's result is cut exactly if the frame has scopes of its own and the budget reached none of them. */
  lemma CutFrames(frames: seq<seq<Scope>>, i: nat, o: Options)
    requires i < |frames|
    ensures Locals(frames, o)[i] == None
      <==> ScopeIds(frames[i]) != [] && forall t | t in Seed(frames, o).tasks :: t.target != i
    ensures Locals(frames, o)[i] != None ==> Locals(frames, o)[i] == Some(i)
  {
    SeedTasks(frames, i, o);
    SeedTasks(frames, |frames|, o);
    if ScopeIds(frames[i]) != [] {
      FrameFits(frames, i, o.Budget());
    }
    hide SeedFrames, ScopeIds, ScopeTasks;
  }

  // ---------------------------------------------------------------- how one answer adds containers

  /** Only the target changes, new containers are empty, and containers stay arrays or records. */
  ghost predicate Frames(before: seq<Container>, target: nat, after: seq<Container>) {
    && SameKinds(before, after)
    && (forall a | 0 <= a < |before| && a != target :: after[a] == before[a])
    && (forall a | |before| <= a < |after| :: after[a] == Empty(after[a].isArray))
  }

  /** The task was queued for an object that a property of the parent's answer holds. */
  predicate FoundBy(parent: Task, d: Descriptor, t: Task, heap: seq<Container>, o: Options) {
    && t.target < |heap| && d.value == Some(Remote(t.id, heap[t.target].isArray)) && !o.redacted(d.name)
    && t.depth == parent.depth + 1 && !t.preserve
  }

  lemma VisitAdds(core: Core, task: Task, d: Descriptor, o: Options)
    requires task.target < |core.heap|
    ensures Frames(core.heap, task.target, Visit(core, task, d, o).heap)
    ensures forall t | t in Visit(core, task, d, o).tasks ::
      t in core.tasks || FoundBy(task, d, t, Visit(core, task, d, o).heap, o)
    ensures Visit(core, task, d, o).requested == core.requested
    ensures Visit(core, task, d, o).firstError == core.firstError
  {
  }

  ghost predicate Adds(core: Core, task: Task, ds: seq<Descriptor>, o: Options, r: Core) {
    && r.requested == core.requested && r.firstError == core.firstError && Frames(core.heap, task.target, r.heap)
    && forall t | t in r.tasks && t !in core.tasks :: exists d :: d in ds && FoundBy(task, d, t, r.heap, o)
  }

  lemma AddsComposes(core: Core, task: Task, d: Descriptor, rest: seq<Descriptor>, o: Options, mid: Core, r: Core)
    requires task.target < |core.heap| && mid == Visit(core, task, d, o) && Adds(mid, task, rest, o, r)
    ensures Adds(core, task, [d] + rest, o, r)
  {
    VisitAdds(core, task, d, o);
    hide Visit;
    var ds := [d] + rest;
    forall t | t in r.tasks && t !in core.tasks ensures exists e :: e in ds && FoundBy(task, e, t, r.heap, o) {
      if t in mid.tasks {
        assert d in ds && FoundBy(task, d, t, r.heap, o);
      } else {
        var e :| e in rest && FoundBy(task, e, t, r.heap, o);
        assert e in ds;
      }
    }
  }

  lemma {:induction false} VisitAllAdds(core: Core, task: Task, ds: seq<Descriptor>, o: Options)
    requires task.target < |core.heap|
    ensures Adds(core, task, ds, o, VisitAll(core, task, ds, o))
    decreases |ds|
  {
    if ds != [] {
      var mid := Visit(core, task, ds[0], o);
      VisitAllAdds(mid, task, ds[1..], o);
      hide Adds, Visit;
      assert ds == [ds[0]] + ds[1..];
      AddsComposes(core, task, ds[0], ds[1..], o, mid, VisitAll(core, task, ds, o));
    }
  }

  lemma AdvanceAdds(core: Core, inspector: Inspector, o: Options)
    requires core.tasks != [] && core.tasks[0].target < |core.heap|
    ensures var task, r := core.tasks[0], Advance(core, inspector, o);
      var reply := inspector(core.Visited(), task.id);
      && r.requested == core.requested + [task] && Frames(core.heap, task.target, r.heap)
      && (forall t | t in r.tasks && t !in core.tasks ::
            exists d :: d in Reading(reply, core.heap[task.target].isArray, o) && FoundBy(task, d, t, r.heap, o))
      && r.firstError == (if core.firstError.None? && reply.Refused? then Some(reply.error) else core.firstError)
  {
    var task, shifted := core.tasks[0], Shift(core);
    var reply := inspector(core.Visited(), task.id);
    hide Selected, DeclaredLength;
    if reply.Properties? {
      var sized := SetLength(shifted, task.target, reply.descriptors);
      VisitAllAdds(sized, task, Selected(reply.descriptors, core.heap[task.target].isArray, o), o);
      hide FoundBy, VisitAll;
    }
  }

  // ---------------------------------------------------------------- every object was found

  ghost predicate Found(core: Core, o: Options, read: seq<seq<Descriptor>>, t: Task)
    requires |read| == |core.requested|
  {
    exists j, d :: 0 <= j < |read| && d in read[j] && FoundBy(core.requested[j], d, t, core.heap, o)
  }

  /** Every task is one of a frame's scopes, or for an object found through a property that was read. */
  ghost predicate AllFound(core: Core, o: Options, read: seq<seq<Descriptor>>)
    requires |read| == |core.requested|
  {
    forall t | t in core.History() ::
      if t.depth == 0 then t.target < |core.heap| && !core.heap[t.target].isArray else Found(core, o, read, t)
  }

  lemma FoundStays(core: Core, o: Options, read: seq<seq<Descriptor>>, t: Task, core': Core, last: seq<Descriptor>)
    requires |read| == |core.requested| && |core'.requested| == |core.requested| + 1
    requires core'.requested[..|core.requested|] == core.requested && SameKinds(core.heap, core'.heap)
    requires Found(core, o, read, t)
    ensures Found(core', o, read + [last], t)
  {
    var j, d :| 0 <= j < |read| && d in read[j] && FoundBy(core.requested[j], d, t, core.heap, o);
    assert core'.requested[..|core.requested|][j] == core'.requested[j];
    assert d in (read + [last])[j] && FoundBy(core'.requested[j], d, t, core'.heap, o);
  }

  lemma GrownIsFound(core: Core, task: Task, r: Core, o: Options, read: seq<seq<Descriptor>>, last: seq<Descriptor>)
    requires |read| == |core.requested| && AllFound(core, o, read) && task in core.tasks
    requires r.requested == core.requested + [task] && SameKinds(core.heap, r.heap)
    requires forall t | t in r.tasks && t !in core.tasks :: exists d :: d in last && FoundBy(task, d, t, r.heap, o)
    ensures AllFound(r, o, read + [last])
  {
    var read' := read + [last];
    assert r.requested[..|core.requested|] == core.requested;
    assert read'[|read|] == last && r.requested[|read|] == task;
    forall t | t in r.History()
      ensures if t.depth == 0 then t.target < |r.heap| && !r.heap[t.target].isArray else Found(r, o, read', t)
    {
      if t in core.History() {
        if t.depth > 0 {
          hide FoundBy;
          FoundStays(core, o, read, t, r, last);
        }
      } else {
        assert t in r.tasks && t !in core.tasks;
        var d :| d in last && FoundBy(task, d, t, r.heap, o);
        assert d in read'[|read|];
      }
    }
  }

  lemma AdvanceFinds(core: Core, inspector: Inspector, o: Options)
    requires Faithful(core, inspector, o) && core.tasks != [] && AllFound(core, o, Readings(core, inspector, o))
    ensures Faithful(Advance(core, inspector, o), inspector, o)
    ensures AllFound(Advance(core, inspector, o), o, Readings(Advance(core, inspector, o), inspector, o))
  {
    AdvanceOk(core, inspector, o);
    AdvanceReads(core, inspector, o);
    AdvanceAdds(core, inspector, o);
    var task, r, read := core.tasks[0], Advance(core, inspector, o), Readings(core, inspector, o);
    var last := Reading(inspector(core.Visited(), task.id), core.heap[task.target].isArray, o);
    hide Advance, Readings, Reading, AllExplained, AllHeld, HistoryOk, CoreOk, FoundBy, AllFound;
    GrownIsFound(core, task, r, o, read, last);
  }

  // ---------------------------------------------------------------- the first error

  /** The reported error is that of the first request that was refused. */
  ghost predicate ReportsFirst(core: Core, inspector: Inspector) {
    match core.firstError
    case None => forall i | 0 <= i < |core.requested| :: inspector(i, core.requested[i].id).Properties?
    case Some(error) =>
      exists i :: 0 <= i < |core.requested| && inspector(i, core.requested[i].id) == Refused(error)
                  && forall j | 0 <= j < i :: inspector(j, core.requested[j].id).Properties?
  }

  lemma AdvanceReports(core: Core, inspector: Inspector, o: Options)
    requires core.tasks != [] && core.tasks[0].target < |core.heap| && ReportsFirst(core, inspector)
    ensures ReportsFirst(Advance(core, inspector, o), inspector)
  {
    AdvanceAdds(core, inspector, o);
    var r, n := Advance(core, inspector, o), core.Visited();
    hide Advance, FoundBy, Frames, Reading;
    assert forall i | 0 <= i < n :: r.requested[i] == core.requested[i];
    assert r.requested[n] == core.tasks[0];
    if core.firstError.Some? {
      var i :| 0 <= i < n && inspector(i, core.requested[i].id) == Refused(core.firstError.value)
               && forall j | 0 <= j < i :: inspector(j, core.requested[j].id).Properties?;
      assert inspector(i, r.requested[i].id) == Refused(core.firstError.value);
    }
  }

  // ---------------------------------------------------------------- the arrays' lengths

  /** The declared length, or as much more as the elements shown need. */
  ghost predicate Sized(c: Container, ds: seq<Descriptor>) {
    && (forall n: nat | Decimal(n) in c.fields :: n < c.length)
    && (forall n: nat | Declares(ds, n) :: n <= c.length)
    && (c.length == 0 || Declares(ds, c.length) || Decimal(c.length - 1) in c.fields)
  }

  ghost predicate SizedBy(c: Container, reply: Reply) {
    match reply
    case Refused(_) => c == Empty(true)
    case Properties(ds) => Sized(c, ds)
  }

  lemma PutSizes(c: Container, key: string, v: Captured, ds: seq<Descriptor>)
    requires c.isArray && Sized(c, ds) && IsIndex(key)
    ensures Put(c, key, v).isArray && Sized(Put(c, key, v), ds)
  {
    var r := Put(c, key, v);
    IndexIsDecimal(key);
    forall n: nat | Decimal(n) in r.fields ensures n < r.length {
      if Decimal(n) == key {
        DecimalIsIndex(n);
      }
    }
    hide IsIndex, Index;
    hide Decimal, Declares;
  }

  lemma VisitSizes(core: Core, task: Task, d: Descriptor, o: Options, ds: seq<Descriptor>)
    requires task.target < |core.heap| && core.heap[task.target].isArray && IsIndex(d.name)
    requires Sized(core.heap[task.target], ds)
    ensures Visit(core, task, d, o).heap[task.target].isArray && Sized(Visit(core, task, d, o).heap[task.target], ds)
  {
    var c, c' := core.heap[task.target], Visit(core, task, d, o).heap[task.target];
    assert c' == c || exists v :: c' == Put(c, d.name, v) by {
      hide Put;
    }
    hide Visit, Sized, Put;
    if c' != c {
      var v :| c' == Put(c, d.name, v);
      PutSizes(c, d.name, v, ds);
    }
  }

  lemma {:induction false} VisitAllSizes(core: Core, task: Task, sel: seq<Descriptor>, o: Options, ds: seq<Descriptor>)
    requires task.target < |core.heap| && core.heap[task.target].isArray && forall d | d in sel :: IsIndex(d.name)
    requires Sized(core.heap[task.target], ds)
    ensures Sized(VisitAll(core, task, sel, o).heap[task.target], ds)
    decreases |sel|
  {
    if sel != [] {
      VisitSizes(core, task, sel[0], o, ds);
      hide Visit, Sized, IsIndex;
      VisitAllSizes(Visit(core, task, sel[0], o), task, sel[1..], o, ds);
    }
  }

  lemma ElementNames(ds: seq<Descriptor>, o: Options)
    ensures forall d | d in Selected(ds, true, o) :: IsIndex(d.name)
  {
    var sel := Selected(ds, true, o);
    var at := ArraySelection(ds, o);
    hide Selected, IsIndex, Decimal;
    forall i | 0 <= i < |sel| ensures IsIndex(sel[i].name) {
      assert IsElement(ds[at[i]], o.maxArray);
      var n :| 0 <= n < o.maxArray && sel[i].name == Decimal(n);
      DecimalIsIndex(n);
    }
  }

  lemma FreshSizes(core: Core, target: nat, ds: seq<Descriptor>)
    requires target < |core.heap| && core.heap[target] == Empty(true)
    ensures var c := SetLength(core, target, ds).heap[target]; c.isArray && Sized(c, ds)
  {
    var c := SetLength(core, target, ds).heap[target];
    forall n: nat ensures DeclaredLength(ds) == Some(n) <==> Declares(ds, n) {
      DeclaredExactly(ds, n);
    }
    hide Declares, DeclaredLength, Decimal;
  }

  lemma ReceiveSizes(core: Core, task: Task, reply: Reply, o: Options)
    requires task.target < |core.heap| && core.heap[task.target] == Empty(true)
    ensures SizedBy(Receive(core, task, reply, o).heap[task.target], reply)
  {
    if reply.Properties? {
      var ds := reply.descriptors;
      FreshSizes(core, task.target, ds);
      ElementNames(ds, o);
      hide Sized, IsIndex, Selected;
      VisitAllSizes(SetLength(core, task.target, ds), task, Selected(ds, true, o), o, ds);
      hide VisitAll, SetLength;
    }
  }

  ghost predicate Untaken(core: Core, a: nat) {
    forall t | t in core.requested :: t.target != a
  }

  /** Every array has the length its answer asks for; one that was never asked about is empty. */
  ghost predicate AllSized(core: Core, inspector: Inspector) {
    && (forall a: nat | a < |core.heap| && core.heap[a].isArray && Untaken(core, a) :: core.heap[a] == Empty(true))
    && (forall i | 0 <= i < |core.requested| ::
          && core.requested[i].target < |core.heap|
          && (core.heap[core.requested[i].target].isArray ==>
                SizedBy(core.heap[core.requested[i].target], inspector(i, core.requested[i].id))))
  }

  /** An array has one task only. */
  lemma ArrayIsUntaken(core: Core, o: Options, read: seq<seq<Descriptor>>)
    requires HistoryOk(core) && |read| == |core.requested| && AllFound(core, o, read)
    requires core.tasks != [] && core.tasks[0].target < |core.heap| && core.heap[core.tasks[0].target].isArray
    ensures Untaken(core, core.tasks[0].target)
  {
    var h, n, task := core.History(), core.Visited(), core.tasks[0];
    assert h[n] == task && task in h;
    assert !task.preserve;
    hide BreadthFirst, Registered, AllFound;
    forall i | 0 <= i < n ensures core.requested[i].target != task.target {
      assert h[i] == core.requested[i];
    }
  }

  lemma GrownIsSized(core: Core, task: Task, r: Core, inspector: Inspector)
    requires AllSized(core, inspector) && task.target < |core.heap|
    requires r.requested == core.requested + [task] && Frames(core.heap, task.target, r.heap)
    requires core.heap[task.target].isArray ==>
      Untaken(core, task.target) && SizedBy(r.heap[task.target], inspector(core.Visited(), task.id))
    ensures AllSized(r, inspector)
  {
    hide SizedBy;
    var n := core.Visited();
    assert r.requested[n] == task && task in r.requested;
    forall a: nat | a < |r.heap| && r.heap[a].isArray && Untaken(r, a) ensures r.heap[a] == Empty(true) {
      if a < |core.heap| {
        assert forall t | t in core.requested :: t in r.requested;
        assert Untaken(core, a);
      }
    }
    forall i | 0 <= i < n
      ensures r.requested[i].target < |r.heap|
      ensures r.heap[r.requested[i].target].isArray ==>
        SizedBy(r.heap[r.requested[i].target], inspector(i, r.requested[i].id))
    {
      assert r.requested[i] == core.requested[i] && core.requested[i] in core.requested;
    }
  }

  lemma AdvanceSizes(core: Core, inspector: Inspector, o: Options)
    requires Faithful(core, inspector, o) && core.tasks != [] && AllFound(core, o, Readings(core, inspector, o))
    requires AllSized(core, inspector)
    ensures AllSized(Advance(core, inspector, o), inspector)
  {
    AdvanceOk(core, inspector, o);
    AdvanceAdds(core, inspector, o);
    var task, r, n := core.tasks[0], Advance(core, inspector, o), core.Visited();
    if core.heap[task.target].isArray {
      ArrayIsUntaken(core, o, Readings(core, inspector, o));
      assert core.heap[task.target] == Empty(true);
      hide Readings, Reading, Pictured, HistoryOk, CoreOk, SizedBy, FoundBy, AllFound, AllSized, Untaken, Receive;
      ReceiveSizes(Shift(core), task, inspector(n, task.id), o);
    }
    hide Advance, Readings, Reading, Pictured, HistoryOk, CoreOk, SizedBy, FoundBy, AllFound, AllSized, Untaken;
    GrownIsSized(core, task, r, inspector);
  }

  // ---------------------------------------------------------------- whole captures

  /** What a capture has to account for. */
  ghost predicate Accounted(core: Core, inspector: Inspector, o: Options) {
    && Faithful(core, inspector, o) && AllFound(core, o, Readings(core, inspector, o))
    && ReportsFirst(core, inspector) && AllSized(core, inspector)
  }

  lemma {:induction false} DrainAccounts(core: Core, inspector: Inspector, o: Options)
    requires Accounted(core, inspector, o)
    ensures Accounted(Drain(core, inspector, o), inspector, o)
    decreases o.Budget() - core.Visited()
  {
    if core.tasks != [] {
      AdvanceOk(core, inspector, o);
      AdvanceFinds(core, inspector, o);
      AdvanceReports(core, inspector, o);
      AdvanceSizes(core, inspector, o);
      hide HistoryOk, Pictured, Advance, AllFound, ReportsFirst, AllSized, Readings;
      DrainAccounts(Advance(core, inspector, o), inspector, o);
    }
  }

  lemma SeedIsAccounted(frames: seq<seq<Scope>>, inspector: Inspector, o: Options)
    ensures Accounted(Seed(frames, o), inspector, o)
  {
    SeedIsFaithful(frames, inspector, o);
    SeedFramesOk(frames, |frames|, o);
    SeedFramesHistory(frames, |frames|, o);
    var core := Seed(frames, o);
    hide SeedFrames, HistoryOk, OnceEach, Registered, Faithful;
    assert core.History() == core.tasks;
  }
}

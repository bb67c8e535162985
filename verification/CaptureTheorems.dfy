/**
 The main results about a capture as a whole: what it asks for, what it shows, and that it does not
 depend on anything redacted.
 */
module CaptureTheorems {
  import opened Capture
  import opened CaptureGraph
  import opened CaptureSelection
  import opened CaptureOrigins

  /** The result of a capture, whichever way the answers arrive. */
  ghost function Result(frames: seq<seq<Scope>>, inspector: Inspector, o: Options): Core {
    SeedFramesOk(frames, |frames|, o);
    Drain(Seed(frames, o), inspector, o)
  }

  /**
   A capture asks for at most `max(1, maxObjects)` objects, shallower ones first, none deeper than
   `maxDepth`, and never twice for the same object unless it is a scope of several frames.
   */
  lemma CaptureIsBounded(frames: seq<seq<Scope>>, inspector: Inspector, o: Options)
    ensures var r := Result(frames, inspector, o);
      && r.tasks == [] && |r.requested| <= o.Budget()
      && (forall i :: 0 <= i < |r.requested| ==> r.requested[i].depth <= o.maxDepth)
      && (forall i, j :: 0 <= i < j < |r.requested| ==> r.requested[i].depth <= r.requested[j].depth)
      && (forall i, j :: 0 <= i < j < |r.requested| && r.requested[i].id == r.requested[j].id ==>
            r.requested[j].depth == 0)
      && (forall id :: id in r.materialized <==> exists i :: 0 <= i < |r.requested| && r.requested[i].id == id)
  {
    var r := Result(frames, inspector, o);
    SeedIsFaithful(frames, inspector, o);
    SeedFramesOk(frames, |frames|, o);
    DrainIsFaithful(Seed(frames, o), inspector, o);
    hide Result, Pictured, Drain;
    assert r.History() == r.requested;
    assert forall i :: 0 <= i < |r.requested| ==> r.requested[i] in r.requested;
  }

  /** `read` gives for each request the properties that a capture has to read of its answer. */
  ghost predicate ReadExactly(r: Core, inspector: Inspector, o: Options, read: seq<seq<Descriptor>>) {
    && |read| == |r.requested|
    && forall i | 0 <= i < |read| ::
         && r.requested[i].target < |r.heap|
         && IsReading(inspector(i, r.requested[i].id), r.heap[r.requested[i].target].isArray, o, read[i])
  }

  /**
   Of every answer exactly the enumerable properties within the limits are read. Every field of every
   container comes from the first answer for that container that has the key (so an inner scope's
   variable hides an outer one's), and shows that property as `Shows` says; every property that was
   read has its field, redacted array elements aside; and every object asked for is a frame's scope or
   was found through a property that was read.
   */
  lemma CaptureIsFaithful(frames: seq<seq<Scope>>, inspector: Inspector, o: Options)
      returns (read: seq<seq<Descriptor>>)
    ensures var r := Result(frames, inspector, o);
      HistoryOk(r) && ReadExactly(r, inspector, o, read) && Pictured(r, o, read) && AllFound(r, o, read)
  {
    ResultIsAccounted(frames, inspector, o);
    var r := Result(frames, inspector, o);
    read := Readings(r, inspector, o);
    forall i | 0 <= i < |read|
      ensures r.requested[i].target < |r.heap|
      ensures IsReading(inspector(i, r.requested[i].id), r.heap[r.requested[i].target].isArray, o, read[i])
    {
      assert r.requested[i] in r.requested;
      hide Result, Pictured, HistoryOk, AllFound;
      ReadingIsExact(inspector(i, r.requested[i].id), r.heap[r.requested[i].target].isArray, o);
    }
  }

  lemma ReadingIsExact(reply: Reply, isArray: bool, o: Options)
    ensures IsReading(reply, isArray, o, Reading(reply, isArray, o))
  {
    if reply.Properties? {
      SelectedIsReading(reply.descriptors, isArray, o);
    }
  }

  lemma ResultIsAccounted(frames: seq<seq<Scope>>, inspector: Inspector, o: Options)
    ensures Accounted(Result(frames, inspector, o), inspector, o)
  {
    SeedIsAccounted(frames, inspector, o);
    hide Accounted;
    SeedFramesOk(frames, |frames|, o);
    DrainAccounts(Seed(frames, o), inspector, o);
  }

  /**
   The error reported is that of the first request that was refused, if any; and every array is as
   long as its answer says, or as its last element that is shown needs.
   */
  lemma ErrorAndLengths(frames: seq<seq<Scope>>, inspector: Inspector, o: Options)
    ensures var r := Result(frames, inspector, o); ReportsFirst(r, inspector) && AllSized(r, inspector)
  {
    ResultIsAccounted(frames, inspector, o);
  }

  /** The scopes of all frames are asked for first, frame by frame and innermost first, as far as the budget goes. */
  lemma ScopesComeFirst(frames: seq<seq<Scope>>, inspector: Inspector, o: Options)
    ensures var r, scopes := Result(frames, inspector, o), Take(ScopeTasks(frames, |frames|), o.Budget());
      |scopes| <= |r.requested| && r.requested[..|scopes|] == scopes
  {
    SeedFramesOk(frames, |frames|, o);
    SeedTasks(frames, |frames|, o);
    CaptureIsBounded(frames, inspector, o);
    DrainDeepens(Seed(frames, o), inspector, o);
    var seed, r := Seed(frames, o), Result(frames, inspector, o);
    hide Result, SeedFrames, ScopeTasks, Drain;
    assert r.History() == r.requested && seed.History() == seed.tasks;
  }

  /** If any object was cut off, the whole budget was used. */
  lemma CutsOnlyWhenSpent(frames: seq<seq<Scope>>, inspector: Inspector, o: Options, a: nat, key: string)
    requires var r := Result(frames, inspector, o);
      a < |r.heap| && key in r.heap[a].fields && r.heap[a].fields[key] == Truncated
    ensures |Result(frames, inspector, o).requested| == o.Budget()
  {
    var read := CaptureIsFaithful(frames, inspector, o);
    CaptureIsBounded(frames, inspector, o);
    var r := Result(frames, inspector, o);
    hide Result, HistoryOk, ReadExactly, AllFound, AllHeld, Names, IsLeaf;
    var i: nat :| Explained(r, o, read, i, a, key);
  }

  // ---------------------------------------------------------------- each object once

  /** Only deeper tasks are added. */
  ghost predicate Deepens(h: seq<Task>, h': seq<Task>) {
    |h| <= |h'| && h'[..|h|] == h && forall i :: |h| <= i < |h'| ==> h'[i].depth > 0
  }

  lemma DeepensComposes(h1: seq<Task>, h2: seq<Task>, h3: seq<Task>)
    requires Deepens(h1, h2) && Deepens(h2, h3)
    ensures Deepens(h1, h3)
  {
    assert forall i :: 0 <= i < |h2| ==> h3[i] == h3[..|h2|][i];
    assert h3[..|h1|] == h2[..|h1|];
  }

  lemma VisitDeepens(core: Core, task: Task, d: Descriptor, o: Options)
    requires task.target < |core.heap|
    ensures Deepens(core.History(), Visit(core, task, d, o).History())
  {
    var r := Visit(core, task, d, o);
    if r.tasks == core.tasks {
      assert r.History() == core.History();
    } else {
      assert r.History() == core.History() + [r.tasks[|r.tasks| - 1]];
    }
  }

  lemma {:induction false} VisitAllDeepens(core: Core, task: Task, ds: seq<Descriptor>, o: Options)
    requires task.target < |core.heap|
    ensures Deepens(core.History(), VisitAll(core, task, ds, o).History())
    decreases |ds|
  {
    if ds != [] {
      VisitDeepens(core, task, ds[0], o);
      VisitAllDeepens(Visit(core, task, ds[0], o), task, ds[1..], o);
      hide Visit, Deepens;
      DeepensComposes(core.History(), Visit(core, task, ds[0], o).History(), VisitAll(core, task, ds, o).History());
    }
  }

  lemma AdvanceDeepens(core: Core, inspector: Inspector, o: Options)
    requires core.tasks != [] && core.tasks[0].target < |core.heap|
    ensures Deepens(core.History(), Advance(core, inspector, o).History())
  {
    var shifted := Shift(core);
    assert shifted.History() == core.History();
    var task, reply := core.tasks[0], inspector(core.Visited(), core.tasks[0].id);
    if reply.Properties? {
      VisitAllDeepens(SetLength(shifted, task.target, reply.descriptors), task,
                      Selected(reply.descriptors, shifted.heap[task.target].isArray, o), o);
    }
  }

  lemma {:induction false} DrainDeepens(core: Core, inspector: Inspector, o: Options)
    requires CoreOk(core, o)
    ensures Deepens(core.History(), Drain(core, inspector, o).History())
    decreases o.Budget() - core.Visited()
  {
    if core.tasks != [] {
      AdvanceOk(core, inspector, o);
      AdvanceDeepens(core, inspector, o);
      hide Advance, Deepens;
      DrainDeepens(Advance(core, inspector, o), inspector, o);
      DeepensComposes(core.History(), Advance(core, inspector, o).History(), Drain(core, inspector, o).History());
    }
  }

  ghost predicate DistinctIds(h: seq<Task>) {
    forall i, j :: 0 <= i < j < |h| ==> h[i].id != h[j].id
  }

  /** No scope belongs to two frames. */
  ghost predicate DistinctScopes(frames: seq<seq<Scope>>, k: nat)
    requires k <= |frames|
  {
    forall i, j, id :: 0 <= i < j < k && id in ScopeIds(frames[i]) ==> id !in ScopeIds(frames[j])
  }

  lemma {:induction false} SeedScopesDistinct(core: Core, ids: seq<ObjectId>, target: nat, captured: nat, o: Options)
    requires DistinctIds(core.tasks)
    requires forall i, j :: 0 <= i < j < |ids| ==> ids[i] != ids[j]
    requires forall t :: t in core.tasks ==> t.id !in ids
    ensures DistinctIds(SeedScopes(core, ids, target, captured, o).tasks)
    ensures forall t :: t in SeedScopes(core, ids, target, captured, o).tasks ==> t in core.tasks || t.id in ids
    decreases |ids|
  {
    if ids != [] && |core.tasks| < o.Budget() {
      var next := core.(materialized := core.materialized[ids[0] := target],
                        tasks := core.tasks + [Task(0, ids[0], target, captured > 0)]);
      assert forall i :: 0 <= i < |core.tasks| ==> core.tasks[i] in core.tasks;
      assert forall id :: id in ids[1..] ==> id in ids && id != ids[0];
      SeedScopesDistinct(next, ids[1..], target, captured + 1, o);
    }
  }

  lemma {:induction false} SeedDistinct(frames: seq<seq<Scope>>, k: nat, o: Options)
    requires k <= |frames| && DistinctScopes(frames, k)
    ensures DistinctIds(SeedFrames(frames, k, o).tasks)
    ensures forall t :: t in SeedFrames(frames, k, o).tasks ==>
      exists i :: 0 <= i < k && t.id in ScopeIds(frames[i])
  {
    if k > 0 {
      SeedDistinct(frames, k - 1, o);
      hide ScopeIds, DistinctIds;
      var before := SeedFrames(frames, k - 1, o);
      ScopeIdsDistinct(frames[k - 1]);
      assert forall t :: t in before.tasks ==> t.id !in ScopeIds(frames[k - 1]);
      SeedScopesDistinct(before, ScopeIds(frames[k - 1]), k - 1, 0, o);
    }
  }

  lemma ScopeIdsDistinct(scopes: seq<Scope>)
    ensures forall i, j :: 0 <= i < j < |ScopeIds(scopes)| ==> ScopeIds(scopes)[i] != ScopeIds(scopes)[j]
  {
    var ids := ScopeIds(scopes);
  }

  /** Where no scope belongs to two frames, every object is asked for at most once, cycles or not. */
  lemma EachObjectOnce(frames: seq<seq<Scope>>, inspector: Inspector, o: Options)
    requires DistinctScopes(frames, |frames|)
    ensures DistinctIds(Result(frames, inspector, o).requested)
  {
    var seed, r := Seed(frames, o), Result(frames, inspector, o);
    SeedFramesOk(frames, |frames|, o);
    CaptureIsBounded(frames, inspector, o);
    DrainDeepens(seed, inspector, o);
    SeedDistinct(frames, |frames|, o);
    hide Result, SeedFrames, ScopeIds, Drain, DistinctScopes;
    assert r.History() == r.requested && seed.History() == seed.tasks;
    assert forall i :: 0 <= i < |seed.tasks| ==> r.requested[i] == r.requested[..|seed.tasks|][i];
  }

  // ---------------------------------------------------------------- redacted values

  predicate SameButRedacted(a: Descriptor, b: Descriptor, o: Options) {
    && a.name == b.name && a.enumerable == b.enumerable
    && (o.redacted(a.name) || a.value == b.value)
    && (a.name == "length" ==> a.number == b.number)
  }

  predicate AllSameButRedacted(a: seq<Descriptor>, b: seq<Descriptor>, o: Options) {
    |a| == |b| && forall i :: 0 <= i < |a| ==> SameButRedacted(a[i], b[i], o)
  }

  lemma {:induction false} SameEnumerable(a: seq<Descriptor>, b: seq<Descriptor>, o: Options)
    requires AllSameButRedacted(a, b, o)
    ensures AllSameButRedacted(Enumerable(a), Enumerable(b), o)
    ensures DeclaredLength(a) == DeclaredLength(b)
    decreases |a|
  {
    if a != [] {
      SameEnumerable(a[1..], b[1..], o);
    }
  }

  lemma {:induction false} SameElements(a: seq<Descriptor>, b: seq<Descriptor>, limit: nat, o: Options)
    requires AllSameButRedacted(a, b, o)
    ensures AllSameButRedacted(Elements(a, limit), Elements(b, limit), o)
    decreases |a|
  {
    if a != [] {
      SameElements(a[1..], b[1..], limit, o);
    }
  }

  lemma {:induction false} SameInsert(d: Descriptor, e: Descriptor, a: seq<Descriptor>, b: seq<Descriptor>, o: Options)
    requires SameButRedacted(d, e, o) && AllSameButRedacted(a, b, o)
    ensures AllSameButRedacted(Insert(d, a), Insert(e, b), o)
    decreases |a|
  {
    if a != [] {
      SameInsert(d, e, a[1..], b[1..], o);
    }
  }

  lemma {:induction false} SameSort(a: seq<Descriptor>, b: seq<Descriptor>, o: Options)
    requires AllSameButRedacted(a, b, o)
    ensures AllSameButRedacted(SortByIndex(a), SortByIndex(b), o)
    decreases |a|
  {
    if a != [] {
      SameSort(a[1..], b[1..], o);
      SameInsert(a[0], b[0], SortByIndex(a[1..]), SortByIndex(b[1..]), o);
    }
  }

  lemma SameSelected(a: seq<Descriptor>, b: seq<Descriptor>, isArray: bool, o: Options)
    requires AllSameButRedacted(a, b, o)
    ensures AllSameButRedacted(Selected(a, isArray, o), Selected(b, isArray, o), o)
    ensures DeclaredLength(a) == DeclaredLength(b)
  {
    SameEnumerable(a, b, o);
    SameElements(Enumerable(a), Enumerable(b), o.maxArray, o);
    SameSort(Elements(Enumerable(a), o.maxArray), Elements(Enumerable(b), o.maxArray), o);
  }

  lemma {:induction false} SameVisits(core: Core, task: Task, a: seq<Descriptor>, b: seq<Descriptor>, o: Options)
    requires task.target < |core.heap| && AllSameButRedacted(a, b, o)
    ensures VisitAll(core, task, a, o) == VisitAll(core, task, b, o)
    decreases |a|
  {
    if a != [] {
      assert SameButRedacted(a[0], b[0], o);
      assert Visit(core, task, a[0], o) == Visit(core, task, b[0], o);
      SameVisits(Visit(core, task, a[0], o), task, a[1..], b[1..], o);
    }
  }

  predicate SameReply(a: Reply, b: Reply, o: Options) {
    if a.Properties? && b.Properties? then AllSameButRedacted(a.descriptors, b.descriptors, o) else a == b
  }

  lemma SameAdvance(core: Core, one: Inspector, two: Inspector, o: Options)
    requires core.tasks != [] && core.tasks[0].target < |core.heap|
    requires SameReply(one(core.Visited(), core.tasks[0].id), two(core.Visited(), core.tasks[0].id), o)
    ensures Advance(core, one, o) == Advance(core, two, o)
  {
    var task, a, b := core.tasks[0], one(core.Visited(), core.tasks[0].id), two(core.Visited(), core.tasks[0].id);
    if a.Properties? {
      var isArray := core.heap[task.target].isArray;
      SameSelected(a.descriptors, b.descriptors, isArray, o);
      hide Selected, DeclaredLength;
      SameVisits(SetLength(Shift(core), task.target, a.descriptors), task,
                 Selected(a.descriptors, isArray, o), Selected(b.descriptors, isArray, o), o);
    }
  }

  lemma {:induction false} SameDrain(core: Core, one: Inspector, two: Inspector, o: Options)
    requires CoreOk(core, o)
    requires forall n, id :: SameReply(one(n, id), two(n, id), o)
    ensures Drain(core, one, o) == Drain(core, two, o)
    decreases o.Budget() - core.Visited()
  {
    if core.tasks != [] {
      AdvanceOk(core, one, o);
      SameAdvance(core, one, two, o);
      hide Advance;
      SameDrain(Advance(core, one, o), one, two, o);
    }
  }

  /** Programs that differ only in the values of redacted properties are captured alike. */
  lemma RedactedValuesDoNotMatter(frames: seq<seq<Scope>>, one: Inspector, two: Inspector, o: Options)
    requires forall n, id :: SameReply(one(n, id), two(n, id), o)
    ensures Result(frames, one, o) == Result(frames, two, o)
  {
    SeedFramesOk(frames, |frames|, o);
    SameDrain(Seed(frames, o), one, two, o);
  }
}

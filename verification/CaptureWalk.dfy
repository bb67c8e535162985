/**
 The callback-driven form of the capture: a queue, a trampoline and an inspector that may call back
 at once or later. However the two kinds of answer mix, the walk is the plain loop `Drain`.
 */
module CaptureWalk {
  import opened Capture
  import opened CaptureTheorems

  /** Whether the inspector answers request number `n` before its call returns. */
  type Timing = nat -> bool

  lemma DrainUnfolds(core: Core, inspector: Inspector, o: Options)
    requires CoreOk(core, o) && core.tasks != []
    ensures core.tasks[0].target < |core.heap| && CoreOk(Shift(core), o)
    ensures var next := Receive(Shift(core), core.tasks[0], inspector(core.Visited(), core.tasks[0].id), o);
      CoreOk(next, o) && Drain(core, inspector, o) == Drain(next, inspector, o)
  {
    AdvanceOk(core, inspector, o);
  }

  class Walk {
    const o: Options
    var tasks: seq<Task>
    var materialized: map<ObjectId, nat>
    var heap: seq<Container>
    /** The frames' containers; none for a frame that was cut. */
    var locals: seq<Option<nat>>
    var firstError: Option<string>
    var visited: nat
    var pumping: bool
    var pumpAgain: bool
    /** The task whose answer is still to come. */
    var waiting: Option<Task>
    /** How often the caller's callback was called. */
    var reports: nat
    ghost var requested: seq<Task>
    /** How many activations of `Step` are on the call stack. */
    ghost var steps: nat

    ghost predicate Valid()
      reads this
    {
      && visited == |requested| && visited + |tasks| <= o.Budget()
      && CoreOk(View(), o)
      && (waiting.Some? ==> waiting.value.target < |heap|)
    }

    ghost function View(): Core
      reads this
    {
      Core(tasks, materialized, heap, firstError, requested)
    }

    /** What is still to happen, if the pending answer is `inspector`'s. */
    ghost function Future(inspector: Inspector): Core
      requires Valid()
      reads this
    {
      if waiting.None? then Drain(View(), inspector, o)
      else if visited == 0 then View()
      else
        var reply := inspector(visited - 1, waiting.value.id);
        ReceiveOk(View(), waiting.value, reply, o);
        Drain(Receive(View(), waiting.value, reply, o), inspector, o)
    }

    constructor (frames: seq<seq<Scope>>, o: Options)
      ensures this.o == o && View() == Seed(frames, o) && Valid()
      ensures !pumping && waiting.None? && reports == 0 && steps == 0 && locals == Locals(frames, o)
    {
      this.o := o;
      tasks, materialized, heap, firstError := [], map[], seq(|frames|, i => Empty(false)), None;
      visited, pumping, pumpAgain, waiting, reports := 0, false, false, None, 0;
      requested, steps, locals := [], 0, [];
      new;
      for i := 0 to |frames|
        invariant View() == SeedFrames(frames, i, o)
        invariant locals == Locals(frames, o)[..i]
        invariant visited == 0 && !pumping && waiting.None? && reports == 0 && steps == 0
      {
        var ids := ScopeIds(frames[i]);
        var captured := QueueScopes(ids, i);
        locals := locals + [if |ids| > 0 && captured == 0 then None else Some(i)];
      }
      SeedFramesOk(frames, |frames|, o);
    }

    /** Queues a frame's scopes, innermost first, and says how many the budget allowed. */
    method QueueScopes(ids: seq<ObjectId>, target: nat) returns (captured: nat)
      modifies this`tasks, this`materialized
      ensures View() == SeedScopes(old(View()), ids, target, 0, o)
      ensures |ids| > 0 ==> (captured == 0 <==> |old(tasks)| >= o.Budget())
    {
      captured := 0;
      while captured < |ids| && |tasks| < o.Budget()
        invariant captured <= |ids|
        invariant SeedScopes(old(View()), ids, target, 0, o) == SeedScopes(View(), ids[captured..], target, captured, o)
        invariant captured == 0 ==> tasks == old(tasks)
        invariant captured > 0 ==> |old(tasks)| < o.Budget()
      {
        materialized := materialized[ids[captured] := target];
        tasks := tasks + [Task(0, ids[captured], target, captured > 0)];
        assert ids[captured..][1..] == ids[captured + 1..];
        captured := captured + 1;
      }
    }

    /** Reads one property into the task's container, and queues the object it holds if that is new. */
    method Read(task: Task, d: Descriptor)
      requires task.target < |heap| && visited == |requested|
      modifies this`tasks, this`materialized, this`heap
      ensures View() == Visit(old(View()), task, d, o)
    {
      var key, target := d.name, heap[task.target];
      if task.preserve && key in target.fields {
        return;
      }
      if o.redacted(key) {
        if !target.isArray {
          heap := Store(heap, task.target, key, Undefined);
        }
        return;
      }
      var isObject := d.value.Some? && d.value.value.Remote?;
      var isNew := isObject && d.value.value.id !in materialized;
      var needsTraversal := isNew && task.depth < o.maxDepth;
      var budgetExhausted := needsTraversal && visited + |tasks| >= o.Budget();
      var value;
      if d.value.None? {
        value := Getter;
      } else if !isObject {
        value := Plain(d.value.value.text);
      } else if !isNew {
        value := Ref(materialized[d.value.value.id]);
      } else if budgetExhausted {
        value := Truncated;
      } else {
        value := Ref(|heap|);
        heap := heap + [Empty(d.value.value.isArray)];
      }
      heap := Store(heap, task.target, key, value);
      if isNew && !budgetExhausted && task.depth < o.maxDepth && visited + |tasks| < o.Budget() {
        materialized := materialized[d.value.value.id := value.address];
        tasks := tasks + [Task(task.depth + 1, d.value.value.id, value.address, false)];
      }
    }

    /** The body of the inspector's callback, up to the call that goes on. */
    method Accept(task: Task, reply: Reply)
      requires task.target < |heap| && visited == |requested|
      modifies this`tasks, this`materialized, this`heap, this`firstError
      ensures View() == Receive(old(View()), task, reply, o)
    {
      if reply.Refused? {
        if firstError.None? {
          firstError := Some(reply.error);
        }
        return;
      }
      var selected := Selected(reply.descriptors, heap[task.target].isArray, o);
      if heap[task.target].isArray && DeclaredLength(reply.descriptors).Some? {
        heap := heap[task.target := heap[task.target].(length := DeclaredLength(reply.descriptors).value)];
      }
      ghost var start := View();
      for i := 0 to |selected|
        invariant task.target < |heap| && firstError == old(firstError)
        invariant VisitAll(start, task, selected, o) == VisitAll(View(), task, selected[i..], o)
      {
        assert selected[i..][1..] == selected[i + 1..];
        Read(task, selected[i]);
      }
    }

    /** Either an answer is awaited, or the walk is over and was reported once. */
    ghost predicate Settled()
      reads this
    {
      if waiting.Some? then reports == 0 else reports == 1 && tasks == []
    }

    method OnReply(task: Task, inspector: Inspector, timing: Timing)
      requires Valid() && waiting == Some(task) && visited > 0 && reports == 0
      requires steps == if pumping then 1 else 0
      modifies this
      ensures Valid() && pumping == old(pumping) && steps == old(steps) && locals == old(locals)
          && visited >= old(visited)
      ensures Future(inspector) == old(Future(inspector))
      ensures pumping ==> pumpAgain && waiting.None? && reports == 0 && visited == old(visited)
      ensures !pumping ==> Settled() && (waiting.Some? ==> visited > old(visited))
      decreases o.Budget() - visited, 4
    {
      var reply := inspector(visited - 1, task.id);
      ReceiveOk(View(), task, reply, o);
      Accept(task, reply);
      waiting := None;
      ProcessNext(inspector, timing);
    }

    /** Takes the next task from the queue and sends its request. */
    method Take(ghost inspector: Inspector) returns (task: Task)
      requires Valid() && waiting.None? && tasks != []
      modifies this`tasks, this`visited, this`requested, this`waiting
      ensures Valid() && waiting == Some(task) && visited == old(visited) + 1
      ensures View() == Shift(old(View())) && task == old(tasks[0])
      ensures Future(inspector) == old(Future(inspector))
    {
      DrainUnfolds(View(), inspector, o);
      hide CoreOk, Receive, Drain;
      task := tasks[0];
      tasks := tasks[1..];
      visited := visited + 1;
      requested := requested + [task];
      waiting := Some(task);
    }

    method Step(inspector: Inspector, timing: Timing)
      requires Valid() && waiting.None? && reports == 0
      requires pumping && !pumpAgain && steps == 0
      modifies this
      ensures Valid() && pumping && steps == 0 && locals == old(locals) && visited >= old(visited)
      ensures Future(inspector) == old(Future(inspector))
      ensures pumpAgain ==> waiting.None? && reports == 0
      ensures !pumpAgain ==> Settled()
      ensures pumpAgain || waiting.Some? ==> visited > old(visited)
      decreases o.Budget() - visited, 1
    {
      hide CoreOk, Receive, Drain;
      steps := steps + 1;
      if tasks == [] {
        reports := reports + 1;
        steps := steps - 1;
        return;
      }
      var task := Take(inspector);
      if timing(visited - 1) {
        OnReply(task, inspector, timing);
      }
      steps := steps - 1;
    }

    method ProcessNext(inspector: Inspector, timing: Timing)
      requires Valid() && waiting.None? && reports == 0
      requires steps == if pumping then 1 else 0
      modifies this
      ensures Valid() && pumping == old(pumping) && steps == old(steps) && locals == old(locals)
          && visited >= old(visited)
      ensures Future(inspector) == old(Future(inspector))
      ensures pumping ==> pumpAgain && waiting.None? && reports == 0 && visited == old(visited)
      ensures !pumping ==> Settled() && (waiting.Some? ==> visited > old(visited))
      decreases o.Budget() - visited, 3
    {
      if pumping {
        pumpAgain := true;
        return;
      }
      hide CoreOk, Receive, Drain;
      pumping := true;
      Pump(inspector, timing);
      pumping := false;
    }

    /** The loop of the trampoline: one step per round, for as long as answers come at once. */
    method Pump(inspector: Inspector, timing: Timing)
      requires Valid() && waiting.None? && reports == 0 && pumping && steps == 0
      modifies this
      ensures Valid() && pumping && steps == 0 && locals == old(locals) && visited >= old(visited)
      ensures Future(inspector) == old(Future(inspector))
      ensures Settled() && (waiting.Some? ==> visited > old(visited))
      decreases o.Budget() - visited, 2
    {
      hide CoreOk, Receive, Drain;
      pumpAgain := true;
      while pumpAgain
        invariant Valid() && pumping && steps == 0 && locals == old(locals) && visited >= old(visited)
        invariant Future(inspector) == old(Future(inspector))
        invariant if pumpAgain then waiting.None? && reports == 0 else Settled()
        invariant waiting.Some? ==> visited > old(visited)
        decreases o.Budget() - visited, if pumpAgain then 1 else 0
      {
        pumpAgain := false;
        Step(inspector, timing);
      }
    }
  }

  /**
   A capture from start to end. Whatever mix of immediate and late answers `timing` is, it ends,
   reports once, and its result is that of the plain loop. `Step` requires that no other activation
   of it is running, so none is ever nested in another.
   */
  method CapturePaused(frames: seq<seq<Scope>>, o: Options, inspector: Inspector, timing: Timing)
    returns (reports: nat, error: Option<string>, locals: seq<Option<nat>>, heap: seq<Container>, requests: nat)
    ensures reports == 1
    ensures error == Result(frames, inspector, o).firstError && heap == Result(frames, inspector, o).heap
    ensures locals == Locals(frames, o)
    ensures requests == |Result(frames, inspector, o).requested|
  {
    var walk := new Walk(frames, o);
    walk.ProcessNext(inspector, timing);
    while walk.waiting.Some?
      invariant walk.Valid() && walk.o == o && walk.locals == Locals(frames, o) && walk.Settled() && !walk.pumping
          && walk.steps == 0
      invariant walk.waiting.Some? ==> walk.visited > 0
      invariant walk.Future(inspector) == Result(frames, inspector, o)
      decreases o.Budget() - walk.visited, if walk.waiting.Some? then 1 else 0
    {
      walk.OnReply(walk.waiting.value, inspector, timing);
    }
    return walk.reports, walk.firstError, walk.locals, walk.heap, walk.visited;
  }
}

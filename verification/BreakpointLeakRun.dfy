/**
 One run, from an empty manager, that ends with a breakpoint armed for nobody. V8 answers in the
 order in which it was asked, and every await that the run crosses is one of the source's.

 Probe 2 is being armed when a reconcile that changes its definition begins; the old definition gets
 installed while that reconcile awaits the removal of probe 1. A later reconcile keeps only probe 4,
 so it has to remove probe 3 and the old definition of 2. While it awaits the first removal, the old
 definition uses up its hits, and the new one joins the breakpoint of probe 4. The reconcile then
 uninstalls probe 2 by its id. When probe 4 goes as well, its breakpoint stays.
 */
module BreakpointLeakRun {
  import opened BreakpointSharing
  import opened BreakpointSafety
  import opened BreakpointRuns
  import opened BreakpointCounts
  import opened BreakpointLeakLasts
  import opened BreakpointLeak

  // ---- Runs in which V8 answers in order ----

  datatype Command = SetFor(p: ProbeId) | RemoveOf(b: BreakpointId)

  /** The commands V8 has not answered yet. */
  ghost predicate Unanswered(s: State, c: Command) {
    match c
    case SetFor(p) => p in s.tasks && s.tasks[p].Posted?
    case RemoveOf(b) => b in s.removing
  }

  /** An answer is to the oldest command; other steps append the commands they post. */
  ghost predicate InOrder(s: State, q: seq<Command>, a: Action, s': State, q': seq<Command>) {
    if a.V8Set? then q != [] && q[0] == SetFor(a.p) && q' == q[1..]
    else if a.V8Remove? then q != [] && q[0] == RemoveOf(a.b) && q' == q[1..]
    else
      && |q| <= |q'| && q'[..|q|] == q
      && forall c :: c in q'[|q|..] <==> Unanswered(s', c) && !Unanswered(s, c)
  }

  /** `queues` lists the commands under way at each point of the run. */
  ghost predicate OrderlyRun(states: seq<State>, actions: seq<Action>, queues: seq<seq<Command>>) {
    && Run(states, actions) && |queues| == |states| && queues[0] == []
    && forall k | 0 <= k < |actions| :: InOrder(states[k], queues[k], actions[k], states[k + 1], queues[k + 1])
  }

  /** An orderly run ends in `s` with the commands `q` under way, without an unsafe step if `safe`. */
  ghost predicate Reachable(s: State, q: seq<Command>, safe: bool) {
    exists states, actions, queues ::
      && OrderlyRun(states, actions, queues) && (safe ==> SafeRun(states, actions))
      && states[|states| - 1] == s && queues[|queues| - 1] == q
  }

  lemma StartReachable()
    ensures Reachable(Init, [], true)
  {
    assert OrderlyRun([Init], [], [[]]) && SafeRun([Init], []);
  }

  lemma Go(s: State, q: seq<Command>, safe: bool, a: Action, q': seq<Command>)
    requires Reachable(s, q, safe) && Enabled(s, a) && (safe ==> Safe(s, a)) && InOrder(s, q, a, Apply(s, a), q')
    ensures Reachable(Apply(s, a), q', safe)
  {
    hide Apply, Enabled, Safe, InOrder;
    var states, actions, queues :| OrderlyRun(states, actions, queues) && (safe ==> SafeRun(states, actions))
      && states[|states| - 1] == s && queues[|queues| - 1] == q;
    var longer, more, lines := states + [Apply(s, a)], actions + [a], queues + [q'];
    forall k | 0 <= k < |more|
      ensures Enabled(longer[k], more[k]) && longer[k + 1] == Apply(longer[k], more[k])
      ensures InOrder(longer[k], lines[k], more[k], longer[k + 1], lines[k + 1])
      ensures safe ==> Safe(longer[k], more[k])
    {
      if k < |actions| {
        assert longer[k] == states[k] && longer[k + 1] == states[k + 1] && more[k] == actions[k];
        assert lines[k] == queues[k] && lines[k + 1] == queues[k + 1];
      } else {
        assert longer[k] == s && lines[k] == q;
      }
    }
    assert OrderlyRun(longer, more, lines);
  }

  /** A step that posts nothing. */
  lemma GoQuietly(s: State, q: seq<Command>, safe: bool, a: Action)
    requires Reachable(s, q, safe) && Enabled(s, a) && (safe ==> Safe(s, a)) && !a.V8Set? && !a.V8Remove?
    requires Apply(s, a).removing <= s.removing
    requires forall p | p in Apply(s, a).tasks && Apply(s, a).tasks[p].Posted? :: p in s.tasks && s.tasks[p].Posted?
    ensures Reachable(Apply(s, a), q, safe)
  {
    hide Apply, Enabled, Safe, Reachable;
    assert q[|q|..] == [];
    Go(s, q, safe, a, q);
  }

  /** A step that posts one remove. */
  lemma GoRemoving(s: State, q: seq<Command>, safe: bool, a: Action, b: BreakpointId)
    requires Reachable(s, q, safe) && Enabled(s, a) && (safe ==> Safe(s, a)) && !a.V8Set? && !a.V8Remove?
    requires b !in s.removing && Apply(s, a).removing == s.removing + {b} && Apply(s, a).tasks == s.tasks
    ensures Reachable(Apply(s, a), q + [RemoveOf(b)], safe)
  {
    hide Apply, Enabled, Safe, Reachable;
    var q' := q + [RemoveOf(b)];
    assert q'[|q|..] == [RemoveOf(b)] && q'[..|q|] == q;
    Go(s, q, safe, a, q');
  }

  lemma ReachableShape(s: State, q: seq<Command>, safe: bool)
    requires Reachable(s, q, safe)
    ensures Sound(s) && RegistryShape(s.reg)
    ensures safe ==> Inv(s)
  {
    hide Inv;
    var states, actions, queues :| OrderlyRun(states, actions, queues) && (safe ==> SafeRun(states, actions))
      && states[|states| - 1] == s && queues[|queues| - 1] == q;
    OrderlyIsRun(states, actions, queues);
    RunKeepsSound(states, actions, |states| - 1);
    if safe { RunKeepsInv(states, actions, |states| - 1); }
  }

  lemma OrderlyIsRun(states: seq<State>, actions: seq<Action>, queues: seq<seq<Command>>)
    requires OrderlyRun(states, actions, queues)
    ensures Run(states, actions)
  {
  }

  lemma Forget(s: State, q: seq<Command>)
    requires Reachable(s, q, true)
    ensures Reachable(s, q, false)
  {
    var states, actions, queues :| OrderlyRun(states, actions, queues) && SafeRun(states, actions)
      && states[|states| - 1] == s && queues[|queues| - 1] == q;
    assert OrderlyRun(states, actions, queues) && states[|states| - 1] == s;
  }

  // ---- Steps with their results ----

  lemma GoBegin(s: State, q: seq<Command>, safe: bool, next: seq<Definition>, snapshot: seq<Installed>, t: State)
    requires Reachable(s, q, safe) && s.reconcile.Idle? && Enumerates(snapshot, s.installed.Values)
    requires t == DoReconcileBegin(s, next, snapshot)
    requires t.removing == s.removing && t.tasks == s.tasks
    ensures Reachable(t, q, safe)
  {
    ReachableShape(s, q, safe);
    hide Inv, Sound, Reachable, RegistryShape, Enumerates, DoReconcileBegin;
    GoQuietly(s, q, safe, ReconcileBegin(next, snapshot));
  }

  lemma GoCommit(s: State, q: seq<Command>, safe: bool, t: State)
    requires Reachable(s, q, safe) && s.reconcile.Removing? && s.reconcile.todo == [] && t == DoReconcileCommit(s)
    requires t.removing == s.removing && t.tasks == s.tasks
    ensures Reachable(t, q, safe)
  {
    ReachableShape(s, q, safe);
    hide Inv, Sound, Reachable, RegistryShape, DoReconcileCommit;
    GoQuietly(s, q, safe, ReconcileCommit);
  }

  /** An entry that is still what is installed. */
  lemma FreshIsSafe(s: State)
    requires Inv(s) && Enabled(s, ReconcileUninstall)
    requires var inst := s.reconcile.todo[0]; inst.def.id in s.installed && s.installed[inst.def.id] == inst
    ensures UninstallSafe(s)
  {
    InstalledFacts(s, s.reconcile.todo[0].def.id);
    hide Inv;
  }

  lemma GoUninstall(s: State, q: seq<Command>, b: BreakpointId, t: State)
    requires Reachable(s, q, true) && s.reconcile.Removing? && s.reconcile.todo != [] && RegistryShape(s.reg)
    requires t == DoReconcileUninstall(s) && b !in s.removing && t.removing == s.removing + {b} && t.tasks == s.tasks
    requires var inst := s.reconcile.todo[0]; inst.def.id in s.installed && s.installed[inst.def.id] == inst
    ensures Reachable(t, q + [RemoveOf(b)], true)
  {
    ReachableShape(s, q, true);
    hide Inv, Sound, Reachable, RegistryShape, DoReconcileUninstall;
    FreshIsSafe(s);
    GoRemoving(s, q, true, ReconcileUninstall, b);
  }

  lemma GoRemoved(s: State, q: seq<Command>, safe: bool, b: BreakpointId, t: State)
    requires Reachable(s, q, safe) && q != [] && q[0] == RemoveOf(b) && b in s.removing && t == DoV8Remove(s, b, true)
    ensures Reachable(t, q[1..], safe)
  {
    ReachableShape(s, q, safe);
    hide Inv, Sound, Reachable, RegistryShape, DoV8Remove;
    Go(s, q, safe, V8Remove(b, true), q[1..]);
  }

  lemma GoHit(s: State, q: seq<Command>, hit: set<BreakpointId>, i: InstallId, c: CaptureId, b: BreakpointId, t: State)
    requires Reachable(s, q, true) && RegistryShape(s.reg) && c !in s.captures
    requires Candidates(s, hit) == {i} && Counted(s, {i}) == {i} && t == CountAll(s, [i], {i})
    requires b !in s.removing && t.removing == s.removing + {b} && t.tasks == s.tasks
    ensures Reachable(t, q + [RemoveOf(b)], true)
  {
    hide Reachable, RegistryShape, Candidates, Counted, CountAll;
    GoRemoving(s, q, true, HandlePaused(hit, false, [i], c), b);
  }

  lemma GoClaim(s: State, q: seq<Command>, def: Definition, key: Key, t: State)
    requires Reachable(s, q, true) && key in s.reg.byLocation && s.reg.byLocation[key] in s.reg.holders
    requires t == DoStartArm(s, def, key)
    requires t.removing == s.removing && t.tasks == s.tasks[def.id := Claimed(def, s.reg.byLocation[key])]
    ensures Reachable(t, q, true)
  {
    ReachableShape(s, q, true);
    hide Inv, Sound, Reachable, RegistryShape, DoStartArm;
    GoQuietly(s, q, true, StartArm(def, key));
  }

  lemma GoInstall(s: State, q: seq<Command>, p: ProbeId, i: InstallId, t: State)
    requires Reachable(s, q, true) && p in s.tasks && s.tasks[p].Claimed? && s.tasks[p].holder in s.reg.holders
    requires i !in s.counters && RegistryShape(s.reg) && t == DoFinishArm(s, p, i)
    requires t.removing == s.removing && t.tasks == s.tasks - {p}
    ensures Reachable(t, q, true)
  {
    hide Reachable, RegistryShape, DoFinishArm;
    GoQuietly(s, q, true, FinishArm(p, i));
  }

  // ---- Arming a probe from start to end, with nothing else under way ----

  function WithAnswer(s: State, def: Definition, key: Key, bp: BreakpointId): State {
    s.(tasks := s.tasks[def.id := Answered(def, key, Armed(bp, None))], arming := s.arming[key := def.id],
       armed := s.armed + {bp})
  }

  lemma PostedAlone(s: State, def: Definition, key: Key)
    requires def.id !in s.tasks
    ensures forall c :: c in [SetFor(def.id)] <==> Unanswered(Post(s, def, key), c) && !Unanswered(s, c)
  {
  }

  lemma PostAndAnswer(s: State, def: Definition, key: Key, bp: BreakpointId)
    requires Reachable(s, [], true) && MayArm(s, def)
    requires key !in s.reg.byLocation && key !in s.arming && bp !in s.armed
    ensures Reachable(WithAnswer(s, def, key, bp), [], true)
  {
    GoPost(s, def, key);
    hide Reachable, MayArm;
    var posted := Post(s, def, key);
    assert DoV8Set(posted, def.id, Armed(bp, None)) == WithAnswer(s, def, key, bp);
    GoAnswer(posted, def.id, bp, WithAnswer(s, def, key, bp));
  }

  lemma GoAnswer(s: State, p: ProbeId, bp: BreakpointId, t: State)
    requires Reachable(s, [SetFor(p)], true) && p in s.tasks && s.tasks[p].Posted? && bp !in s.armed
    requires t == DoV8Set(s, p, Armed(bp, None))
    ensures Reachable(t, [], true)
  {
    ReachableShape(s, [SetFor(p)], true);
    hide Inv, Sound, Reachable, RegistryShape, DoV8Set;
    assert [SetFor(p)][1..] == [];
    Go(s, [SetFor(p)], true, V8Set(p, Armed(bp, None)), []);
  }

  lemma GoPost(s: State, def: Definition, key: Key)
    requires Reachable(s, [], true) && MayArm(s, def) && key !in s.reg.byLocation && key !in s.arming
    ensures Reachable(Post(s, def, key), [SetFor(def.id)], true)
  {
    ReachableShape(s, [], true);
    PostedAlone(s, def, key);
    assert DoStartArm(s, def, key) == Post(s, def, key);
    hide Inv, Sound, Reachable, RegistryShape, Unanswered, DoStartArm, Post, MayArm;
    assert [SetFor(def.id)][0..] == [SetFor(def.id)] && [SetFor(def.id)][..0] == [];
    Go(s, [], true, StartArm(def, key), [SetFor(def.id)]);
  }

  function WithProbe(s: State, def: Definition, key: Key, bp: BreakpointId, h: HolderId, i: InstallId): State {
    s.(reg := Register(s.reg, h, bp, def.id, key, None), tasks := s.tasks - {def.id}, arming := s.arming - {key},
       installed := s.installed[def.id := Installed(i, def, bp)],
       counters := s.counters[i := Counters(def, true, 0, 0, 0)])
  }

  function WithClaim(s: State, def: Definition, key: Key, bp: BreakpointId, h: HolderId): State {
    s.(reg := Register(s.reg, h, bp, def.id, key, None), tasks := s.tasks[def.id := Claimed(def, h)],
       arming := s.arming - {key})
  }

  lemma Deliver(s: State, q: seq<Command>, def: Definition, key: Key, bp: BreakpointId, h: HolderId)
    requires Reachable(s, q, true) && def.id in s.tasks && s.tasks[def.id] == Answered(def, key, Armed(bp, None))
    requires key in s.arming && s.arming[key] == def.id && h !in s.reg.holders
    ensures Reachable(WithClaim(s, def, key, bp, h), q, true)
  {
    ReachableShape(s, q, true);
    hide Inv, Sound, Reachable, RegistryShape, Register;
    assert DoDeliverSet(s, def.id, h) == WithClaim(s, def, key, bp, h);
    GoQuietly(s, q, true, DeliverSet(def.id, h));
  }

  lemma DeliverAndInstall(s: State, q: seq<Command>, def: Definition, key: Key, bp: BreakpointId, h: HolderId,
                          i: InstallId)
    requires Reachable(s, q, true) && def.id in s.tasks && s.tasks[def.id] == Answered(def, key, Armed(bp, None))
    requires key in s.arming && s.arming[key] == def.id && StillWanted(s, def)
    requires h !in s.reg.holders && i !in s.counters
    ensures Reachable(WithProbe(s, def, key, bp, h, i), q, true)
  {
    Deliver(s, q, def, key, bp, h);
    var claimed := WithClaim(s, def, key, bp, h);
    ReachableShape(claimed, q, true);
    hide Inv, Sound, Reachable, RegistryShape;
    assert DoFinishArm(claimed, def.id, i) == WithProbe(s, def, key, bp, h, i);
    GoQuietly(claimed, q, true, FinishArm(def.id, i));
  }

  lemma ArmProbe(s: State, def: Definition, key: Key, bp: BreakpointId, h: HolderId, i: InstallId)
    requires Reachable(s, [], true) && MayArm(s, def) && StillWanted(s, def) && FreshFor(s, key, bp, h, i)
    ensures Reachable(WithProbe(WithAnswer(s, def, key, bp), def, key, bp, h, i), [], true)
  {
    hide Reachable, MayArm;
    PostAndAnswer(s, def, key, bp);
    DeliverAndInstall(WithAnswer(s, def, key, bp), [], def, key, bp, h, i);
  }

  // ---- The run ----

  function Probe(id: ProbeId, revision: nat): Definition {
    Definition(id, revision, Counter, false, 1)
  }

  function Object(id: nat): Installed {
    Installed(10 * id, Probe(id, 1), 10 * id)
  }

  function Live(id: ProbeId): Counters {
    Counters(Probe(id, 1), true, 0, 0, 0)
  }

  function Gone(id: ProbeId, hits: nat): Counters {
    Counters(Probe(id, 1), false, hits, 0, 0)
  }

  function Alone(id: ProbeId): Holder {
    Holder(10 * id, {10 * id}, {id})
  }

  function Dropped(id: ProbeId): Holder {
    Holder(10 * id, {10 * id}, {})
  }

  const FIRST := [Probe(1, 1), Probe(2, 1), Probe(3, 1), Probe(4, 1)]
  const SECOND := [Probe(2, 2), Probe(3, 1), Probe(4, 1)]
  const THIRD := [Probe(4, 1)]

  // The probes, registries and counters that the run goes through.

  function N2(): map<ProbeId, Installed> {
    map[1 := Object(1), 3 := Object(3), 4 := Object(4)]
  }

  function R2(): Registry {
    Registry(map[10 := 10, 30 := 30, 40 := 40], map[10 := 10, 30 := 30, 40 := 40],
             map[10 := Alone(1), 30 := Alone(3), 40 := Alone(4)])
  }

  function K2(): map<InstallId, Counters> {
    map[10 := Live(1), 30 := Live(3), 40 := Live(4)]
  }

  function N3(): map<ProbeId, Installed> {
    map[3 := Object(3), 4 := Object(4)]
  }

  function R3(): Registry {
    Registry(map[30 := 30, 40 := 40], map[30 := 30, 40 := 40],
             map[10 := Dropped(1), 30 := Alone(3), 40 := Alone(4)])
  }

  function K3(): map<InstallId, Counters> {
    map[10 := Gone(1, 0), 30 := Live(3), 40 := Live(4)]
  }

  function N4(): map<ProbeId, Installed> {
    map[2 := Object(2), 3 := Object(3), 4 := Object(4)]
  }

  function R4(): Registry {
    Registry(map[20 := 20, 30 := 30, 40 := 40], map[20 := 20, 30 := 30, 40 := 40],
             map[10 := Dropped(1), 20 := Alone(2), 30 := Alone(3), 40 := Alone(4)])
  }

  function K4(): map<InstallId, Counters> {
    map[10 := Gone(1, 0), 20 := Live(2), 30 := Live(3), 40 := Live(4)]
  }

  function N5(): map<ProbeId, Installed> {
    map[2 := Object(2), 4 := Object(4)]
  }

  function R5(): Registry {
    Registry(map[20 := 20, 40 := 40], map[20 := 20, 40 := 40],
             map[10 := Dropped(1), 20 := Alone(2), 30 := Dropped(3), 40 := Alone(4)])
  }

  function K5(): map<InstallId, Counters> {
    map[10 := Gone(1, 0), 20 := Live(2), 30 := Gone(3, 0), 40 := Live(4)]
  }

  function N6(): map<ProbeId, Installed> {
    map[4 := Object(4)]
  }

  function R6(): Registry {
    Registry(map[40 := 40], map[40 := 40],
             map[10 := Dropped(1), 20 := Dropped(2), 30 := Dropped(3), 40 := Alone(4)])
  }

  function K6(): map<InstallId, Counters> {
    map[10 := Gone(1, 0), 20 := Gone(2, 1), 30 := Gone(3, 0), 40 := Live(4)]
  }

  function N7(): map<ProbeId, Installed> {
    map[2 := Installed(21, Probe(2, 2), 40), 4 := Object(4)]
  }

  function R7(): Registry {
    Registry(map[40 := 40], map[40 := 40],
             map[10 := Dropped(1), 20 := Dropped(2), 30 := Dropped(3), 40 := Holder(40, {40}, {2, 4})])
  }

  function K7(): map<InstallId, Counters> {
    map[10 := Gone(1, 0), 20 := Gone(2, 1), 21 := Counters(Probe(2, 2), true, 0, 0, 0),
        30 := Gone(3, 0), 40 := Live(4)]
  }

  function R9(): Registry {
    Registry(map[40 := 40], map[40 := 40],
             map[10 := Dropped(1), 20 := Dropped(2), 30 := Dropped(3), 40 := Holder(40, {40}, {2})])
  }

  function K9(): map<InstallId, Counters> {
    map[10 := Gone(1, 0), 20 := Gone(2, 1), 21 := Counters(Probe(2, 2), true, 0, 0, 0),
        30 := Gone(3, 0), 40 := Gone(4, 0)]
  }

  /** Four probes are wanted. */
  const S1 := Init.(
    desired := map[1 := Probe(1, 1), 2 := Probe(2, 1), 3 := Probe(3, 1), 4 := Probe(4, 1)], epoch := 1)

  /** Probes 1, 3 and 4 are installed, and V8 has armed the breakpoint for 2. */
  const S2 := S1.(
    installed := N2(),
    counters := K2(),
    reg := R2(),
    tasks := map[2 := Answered(Probe(2, 1), 20, Armed(20, None))],
    arming := map[20 := 2],
    armed := {10, 20, 30, 40})

  /** A reconcile that drops 1 and changes 2 has uninstalled 1 and awaits the removal. */
  const S3 := S2.(
    epoch := 2,
    reconcile := Removing(SECOND, []),
    installed := N3(),
    counters := K3(),
    reg := R3(),
    removing := {10})

  /** The old definition of 2 got installed meanwhile; then the reconcile ended. */
  const S4 := S3.(
    desired := map[2 := Probe(2, 2), 3 := Probe(3, 1), 4 := Probe(4, 1)],
    reconcile := Idle,
    installed := N4(),
    counters := K4(),
    reg := R4(),
    tasks := map[], arming := map[],
    armed := {20, 30, 40}, removing := {})

  /** The next reconcile keeps only 4; it has uninstalled 3 and awaits the removal, with 2 still to come. */
  const S5 := S4.(
    epoch := 3,
    reconcile := Removing(THIRD, [Object(2)]),
    installed := N5(),
    counters := K5(),
    reg := R5(),
    removing := {30})

  /** The old definition of 2 was hit and retired. */
  const S6 := S5.(
    exhausted := map[2 := Probe(2, 1)],
    installed := N6(),
    counters := K6(),
    reg := R6(),
    removing := {20, 30})

  /** The new definition of 2 joined the breakpoint of 4; the removal of 3 is done. */
  const S7 := S6.(
    installed := N7(),
    counters := K7(),
    reg := R7(),
    armed := {20, 40}, removing := {20})

  /** The reconcile uninstalled 2 once more and ended, and the removal of its old breakpoint is done. */
  const S8 := S7.(
    desired := map[4 := Probe(4, 1)],
    exhausted := map[],
    reconcile := Idle,
    installed := N6(),
    armed := {40}, removing := {})

  /** A last reconcile has removed 4 as well: nothing is wanted, installed or under way. */
  const S9 := S8.(
    epoch := 4,
    desired := map[],
    installed := map[],
    counters := K9(),
    reg := R9())

  lemma NextOfOne(a: Definition)
    ensures NextMap([a]) == map[a.id := a]
  {
    assert [a][..0] == [];
  }

  lemma NextOfTwo(a: Definition, b: Definition)
    ensures NextMap([a, b]) == map[a.id := a][b.id := b]
  {
    NextOfOne(a);
    assert [a, b][..1] == [a];
  }

  lemma NextOfThree(a: Definition, b: Definition, c: Definition)
    ensures NextMap([a, b, c]) == map[a.id := a][b.id := b][c.id := c]
  {
    NextOfTwo(a, b);
    assert [a, b, c][..2] == [a, b];
  }

  lemma NextOfFour(a: Definition, b: Definition, c: Definition, d: Definition)
    ensures NextMap([a, b, c, d]) == map[a.id := a][b.id := b][c.id := c][d.id := d]
  {
    NextOfThree(a, b, c);
    assert [a, b, c, d][..3] == [a, b, c];
  }

  lemma ReachS1()
    ensures Reachable(S1, [], true)
  {
    StartReachable();
    hide Reachable;
    var begun := Init.(epoch := 1, reconcile := Removing(FIRST, []));
    assert DoReconcileBegin(Init, FIRST, []) == begun;
    GoBegin(Init, [], true, FIRST, [], begun);
    NextOfFour(Probe(1, 1), Probe(2, 1), Probe(3, 1), Probe(4, 1));
    assert DoReconcileCommit(begun) == S1;
    GoCommit(begun, [], true, S1);
  }

  /** Probes 1 and 3 are installed. */
  function Two(): State {
    S1.(installed := map[1 := Object(1), 3 := Object(3)], counters := map[10 := Live(1), 30 := Live(3)],
        armed := {10, 30},
        reg := Registry(map[10 := 10, 30 := 30], map[10 := 10, 30 := 30], map[10 := Alone(1), 30 := Alone(3)]))
  }

  lemma ReachTwo()
    ensures Reachable(Two(), [], true)
  {
    hide Reachable;
    ReachS1();
    ArmProbe(S1, Probe(1, 1), 10, 10, 10, 10);
    var one := S1.(installed := map[1 := Object(1)], counters := map[10 := Live(1)], armed := {10},
                   reg := Registry(map[10 := 10], map[10 := 10], map[10 := Alone(1)]));
    assert WithProbe(WithAnswer(S1, Probe(1, 1), 10, 10), Probe(1, 1), 10, 10, 10, 10) == one;
    ArmProbe(one, Probe(3, 1), 30, 30, 30, 30);
    assert WithProbe(WithAnswer(one, Probe(3, 1), 30, 30), Probe(3, 1), 30, 30, 30, 30) == Two();
  }

  lemma ReachS2()
    ensures Reachable(S2, [], true)
  {
    hide Reachable;
    ReachTwo();
    ArmProbe(Two(), Probe(4, 1), 40, 40, 40, 40);
    var three := S2.(tasks := map[], arming := map[], armed := {10, 30, 40});
    assert WithProbe(WithAnswer(Two(), Probe(4, 1), 40, 40), Probe(4, 1), 40, 40, 40, 40) == three;
    PostAndAnswer(three, Probe(2, 1), 20, 20);
    assert WithAnswer(three, Probe(2, 1), 20, 20) == S2;
  }

  lemma SecondUnwanted()
    ensures Unwanted(NextMap(SECOND), [Object(1), Object(3), Object(4)]) == [Object(1)]
  {
    NextOfThree(Probe(2, 2), Probe(3, 1), Probe(4, 1));
    var next := NextMap(SECOND);
    assert Unwanted(next, [Object(4)]) == [];
    assert [Object(3), Object(4)][1..] == [Object(4)];
    assert Unwanted(next, [Object(3), Object(4)]) == [];
    assert [Object(1), Object(3), Object(4)][1..] == [Object(3), Object(4)];
  }

  lemma ThirdUnwanted()
    ensures Unwanted(NextMap(THIRD), [Object(3), Object(4), Object(2)]) == [Object(3), Object(2)]
  {
    NextOfOne(Probe(4, 1));
    var next := NextMap(THIRD);
    assert Unwanted(next, [Object(2)]) == [Object(2)];
    assert [Object(4), Object(2)][1..] == [Object(2)];
    assert Unwanted(next, [Object(4), Object(2)]) == [Object(2)];
    assert [Object(3), Object(4), Object(2)][1..] == [Object(4), Object(2)];
  }

  lemma ThreeValues(m: map<ProbeId, Installed>, p: ProbeId, q: ProbeId, r: ProbeId)
    requires m.Keys == {p, q, r} && m[p] != m[q] && m[q] != m[r] && m[p] != m[r]
    ensures Enumerates([m[p], m[q], m[r]], m.Values)
  {
    var order := [m[p], m[q], m[r]];
    assert order[0] == m[p] && order[1] == m[q] && order[2] == m[r];
    forall v | v in m.Values ensures v in order {
      var k :| k in m && m[k] == v;
    }
  }

  function Begun2(): State {
    S2.(epoch := 2, reconcile := Removing(SECOND, [Object(1)]))
  }

  lemma BeginsSecond()
    ensures DoReconcileBegin(S2, SECOND, [Object(1), Object(3), Object(4)]) == Begun2()
  {
    hide NextMap, Unwanted;
    SecondUnwanted();
    assert Differs(S2.desired, SECOND);
  }

  lemma ReachS3()
    ensures Reachable(S3, [RemoveOf(10)], true)
  {
    ReachS2();
    ThreeValues(N2(), 1, 3, 4);
    BeginsSecond();
    ReleaseOne();
    UninstallFirst(Begun2());
    assert N2()[1] == Object(1);
    hide Reachable, DoReconcileBegin, DoReconcileUninstall, RegistryShape, Enumerates, ReleaseFor, FreedFor;
    GoBegin(S2, [], true, SECOND, [Object(1), Object(3), Object(4)], Begun2());
    GoUninstall(Begun2(), [], 10, S3);
    assert [] + [RemoveOf(10)] == [RemoveOf(10)];
  }

  /** Releasing the only claim on a breakpoint with one key. */
  lemma ReleaseAlone(r: Registry, id: ProbeId)
    requires RegistryShape(r) && 10 * id in r.byBreakpoint && r.byBreakpoint[10 * id] == 10 * id
    requires 10 * id in r.holders && r.holders[10 * id] == Alone(id)
    requires 10 * id in r.byLocation && r.byLocation[10 * id] == 10 * id
    ensures ReleaseFor(r, 10 * id, id)
         == Registry(r.byBreakpoint - {10 * id}, r.byLocation - {10 * id}, r.holders[10 * id := Dropped(id)])
    ensures FreedFor(r, 10 * id, id) == {10 * id}
  {
    var h := 10 * id;
    var d := DropClaim(r, h, id);
    assert {id} - {id} == {};
    assert d == r.(holders := r.holders[h := Dropped(id)]);
    assert Releases(d, h);
    assert Unregister(d, h).byLocation == r.byLocation - {h};
  }

  lemma DeactivateOne(m: map<InstallId, Counters>, i: InstallId)
    requires i in m
    ensures Deactivate(m, {i}) == m[i := m[i].(active := false, pending := 0)]
  {
  }

  lemma ReleaseOne()
    ensures RegistryShape(R2()) && ReleaseFor(R2(), 10, 1) == R3() && FreedFor(R2(), 10, 1) == {10}
  {
    assert RegistryShape(R2());
    hide RegistryShape, ReleaseFor, FreedFor;
    ReleaseAlone(R2(), 1);
    assert R2().byBreakpoint - {10} == R3().byBreakpoint && R2().byLocation - {10} == R3().byLocation;
    assert R2().holders[10 := Dropped(1)] == R3().holders;
  }

  lemma FirstParts()
    ensures Deactivate(K2(), {10}) == K3() && N2() - {1} == N3()
  {
    DeactivateOne(K2(), 10);
    assert K2()[10 := Gone(1, 0)] == K3();
  }

  lemma UninstallFirst(begun: State)
    requires begun == Begun2() && RegistryShape(begun.reg)
    ensures DoReconcileUninstall(begun) == S3
  {
    hide ReleaseFor, FreedFor, Deactivate, RegistryShape, R2, R3, K2, K3, N2, N3;
    ReleaseOne();
    FirstParts();
    assert [Object(1)][1..] == [];
  }

  function Placed3(): State {
    S4.(desired := S3.desired, reconcile := S3.reconcile, armed := S3.armed, removing := {10})
  }

  lemma InstallOld()
    ensures Reachable(Placed3(), [RemoveOf(10)], true)
  {
    hide Reachable;
    ReachS3();
    DeliverAndInstall(S3, [RemoveOf(10)], Probe(2, 1), 20, 20, 20, 20);
    OldIsPlaced();
  }

  lemma ReachS4()
    ensures Reachable(S4, [], true)
  {
    InstallOld();
    hide Reachable, R3, R4, K3, K4, N3, N4;
    var removed := S4.(desired := S3.desired, reconcile := S3.reconcile);
    assert DoV8Remove(Placed3(), 10, true) == removed;
    assert [RemoveOf(10)][1..] == [];
    GoRemoved(Placed3(), [RemoveOf(10)], true, 10, removed);
    CommitSecond(removed);
    GoCommit(removed, [], true, S4);
  }

  lemma OldLands()
    ensures Register(R3(), 20, 20, 2, 20, None) == R4()
    ensures N3()[2 := Object(2)] == N4() && K3()[20 := Live(2)] == K4()
  {
  }

  lemma OldIsPlaced()
    ensures WithProbe(S3, Probe(2, 1), 20, 20, 20, 20) == Placed3()
  {
    hide Register, R3, R4, N3, N4, K3, K4;
    OldLands();
    assert S3.tasks - {2} == S4.tasks && S3.arming - {20} == S4.arming;
  }

  lemma CommitSecond(removed: State)
    requires removed == S4.(desired := S3.desired, reconcile := S3.reconcile)
    ensures DoReconcileCommit(removed) == S4
  {
    NextOfThree(Probe(2, 2), Probe(3, 1), Probe(4, 1));
    hide NextMap;
    assert NextMap(SECOND) == S4.desired;
  }

  function Begun3(): State {
    S4.(epoch := 3, reconcile := Removing(THIRD, [Object(3), Object(2)]))
  }

  lemma BeginsThird()
    ensures DoReconcileBegin(S4, THIRD, [Object(3), Object(4), Object(2)]) == Begun3()
  {
    hide NextMap, Unwanted;
    ThirdUnwanted();
    assert Differs(S4.desired, THIRD);
  }

  lemma ThirdParts()
    ensures Deactivate(K4(), {30}) == K5() && N4() - {3} == N5()
  {
    DeactivateOne(K4(), 30);
    assert K4()[30 := Gone(3, 0)] == K5();
  }

  lemma UninstallThird(begun: State)
    requires begun == Begun3() && RegistryShape(begun.reg)
    ensures DoReconcileUninstall(begun) == S5
  {
    hide ReleaseFor, FreedFor, Deactivate, RegistryShape, R4, R5, K4, K5, N4, N5;
    ReleaseThree();
    ThirdParts();
    assert [Object(3), Object(2)][1..] == [Object(2)];
  }

  lemma ReleaseThree()
    ensures RegistryShape(R4()) && ReleaseFor(R4(), 30, 3) == R5() && FreedFor(R4(), 30, 3) == {30}
  {
    assert RegistryShape(R4());
    hide RegistryShape, ReleaseFor, FreedFor;
    ReleaseAlone(R4(), 3);
    assert R4().byBreakpoint - {30} == R5().byBreakpoint && R4().byLocation - {30} == R5().byLocation;
    assert R4().holders[30 := Dropped(3)] == R5().holders;
  }

  lemma ReleaseOld()
    ensures RegistryShape(R5()) && ReleaseFor(R5(), 20, 2) == R6() && FreedFor(R5(), 20, 2) == {20}
  {
    assert RegistryShape(R5());
    hide RegistryShape, ReleaseFor, FreedFor;
    ReleaseAlone(R5(), 2);
    assert R5().byBreakpoint - {20} == R6().byBreakpoint && R5().byLocation - {20} == R6().byLocation;
    assert R5().holders[20 := Dropped(2)] == R6().holders;
  }

  lemma ReachS5()
    ensures Reachable(S5, [RemoveOf(30)], true)
  {
    ReachS4();
    ThreeValues(N4(), 3, 4, 2);
    BeginsThird();
    ReleaseThree();
    UninstallThird(Begun3());
    assert N4()[3] == Object(3);
    hide Reachable, DoReconcileBegin, DoReconcileUninstall, RegistryShape, Enumerates, ReleaseFor, FreedFor;
    GoBegin(S4, [], true, THIRD, [Object(3), Object(4), Object(2)], Begun3());
    GoUninstall(Begun3(), [], 30, S5);
    assert [] + [RemoveOf(30)] == [RemoveOf(30)];
  }

  lemma OldIsHit()
    ensures Candidates(S5, {20}) == {20} && Counted(S5, {20}) == {20}
  {
    assert Ready(S5, {20}, 2) by {
      assert 20 in {20} && 20 in S5.reg.byBreakpoint && 2 in S5.reg.holders[20].claims;
    }
    assert !Ready(S5, {20}, 4);
    forall i | i in Candidates(S5, {20}) ensures i == 20 {
      var p :| p in N5() && N5()[p].i == i && Ready(S5, {20}, p);
    }
    assert N5()[2].i == 20;
  }

  lemma OldParts()
    ensures 20 in K5() && K5()[20] == Live(2) && 2 in N5() && N5()[2] == Object(2)
    ensures Deactivate(K5()[20 := Bumped(Live(2))], {20}) == K6() && N5() - {2} == N6()
  {
    var m := K5()[20 := Bumped(Live(2))];
    DeactivateOne(m, 20);
    assert m[20 := Gone(2, 1)] == K6();
  }

  lemma OldRetires()
    requires RegistryShape(S5.reg)
    ensures CountAll(S5, [20], {20}) == S6
  {
    hide ReleaseFor, FreedFor, Deactivate, RegistryShape, R5, R6, K5, K6, N5, N6;
    OldParts();
    ReleaseOld();
    assert [20][1..] == [];
    assert Current(S5, 20);
    OldIsCounted();
    assert CountAll(S5, [20], {20}) == CountAll(CountHit(S5, 20), [], {20});
  }

  lemma OldIsCounted()
    requires RegistryShape(S5.reg) && Current(S5, 20)
    ensures CountHit(S5, 20) == S6
  {
    hide ReleaseFor, FreedFor, Deactivate, RegistryShape, R5, R6, K5, K6, N5, N6;
    OldParts();
    ReleaseOld();
    var counted := S5.(counters := K5()[20 := Bumped(Live(2))]);
    assert CountHit(S5, 20) == Retire(counted, 20);
    assert map[][2 := Probe(2, 1)] == S6.exhausted;
  }

  lemma ReachS6()
    ensures Reachable(S6, [RemoveOf(30), RemoveOf(20)], true)
  {
    hide Reachable, CountAll, Candidates, Counted, RegistryShape, R5, R6, K5, K6, N5, N6, ReleaseFor, FreedFor;
    ReachS5();
    ReleaseOld();
    OldIsHit();
    OldRetires();
    assert {30} + {20} == {20, 30};
    assert 0 !in S5.captures;
    GoHit(S5, [RemoveOf(30)], {20}, 20, 0, 20, S6);
    assert [RemoveOf(30)] + [RemoveOf(20)] == [RemoveOf(30), RemoveOf(20)];
  }

  lemma JoinReached()
    ensures Reachable(Joined(), [RemoveOf(30), RemoveOf(20)], true)
  {
    assert 40 in R6().byLocation && R6().byLocation[40] == 40 && 40 in R6().holders;
    hide Reachable, DoStartArm, R6, R7, N6, K6;
    ReachS6();
    NewJoins();
    GoClaim(S6, [RemoveOf(30), RemoveOf(20)], Probe(2, 2), 40, Joined());
  }

  lemma PlaceReached()
    ensures Reachable(Placed7(), [RemoveOf(30), RemoveOf(20)], true)
  {
    NewParts();
    assert 21 !in K6();
    hide Reachable, RegistryShape, DoFinishArm, R6, R7, N6, N7, K6, K7;
    JoinReached();
    NewIsPlaced();
    assert Joined().tasks - {2} == map[];
    GoInstall(Joined(), [RemoveOf(30), RemoveOf(20)], 2, 21, Placed7());
  }

  lemma ReachS7()
    ensures Reachable(S7, [RemoveOf(20)], true)
  {
    hide Reachable, R6, R7, N6, N7, K6, K7;
    PlaceReached();
    assert DoV8Remove(Placed7(), 30, true) == S7;
    assert [RemoveOf(30), RemoveOf(20)][1..] == [RemoveOf(20)];
    GoRemoved(Placed7(), [RemoveOf(30), RemoveOf(20)], true, 30, S7);
  }

  function Placed7(): State {
    S7.(armed := S6.armed, removing := S6.removing)
  }

  function Joined(): State {
    S6.(tasks := map[2 := Claimed(Probe(2, 2), 40)], reg := R7())
  }

  lemma NewJoins()
    ensures DoStartArm(S6, Probe(2, 2), 40) == Joined()
  {
    assert {4} + {2} == {2, 4};
    assert R6().holders[40 := Holder(40, {40}, {2, 4})] == R7().holders;
    assert AddClaim(R6(), 40, 2) == R7();
  }

  lemma NewParts()
    ensures N6()[2 := Installed(21, Probe(2, 2), 40)] == N7()
    ensures K6()[21 := Counters(Probe(2, 2), true, 0, 0, 0)] == K7()
    ensures 40 in R7().holders && R7().holders[40].bp == 40
  {
  }

  lemma NewIsPlaced()
    ensures RegistryShape(R7())
    ensures DoFinishArm(Joined(), 2, 21) == Placed7()
  {
    assert RegistryShape(R7());
    hide Release, Freed, RegistryShape, R6, R7, K6, K7, N6, N7;
    NewParts();
    assert StillWanted(Joined(), Probe(2, 2));
    assert Joined().tasks - {2} == S7.tasks;
  }

  // ---- The leak, and what is left of it ----

  /** The last entry of a reconcile, whose probe was installed anew elsewhere. */
  lemma StaleLeaks(s: State, inst: Installed, b: BreakpointId)
    requires Inv(s) && RegistryShape(s.reg) && s.reconcile.Removing? && s.reconcile.todo == [inst]
    requires inst.def.id in s.installed && s.installed[inst.def.id].bp == b && b != inst.bp
    ensures Enabled(s, ReconcileUninstall) && !UninstallSafe(s)
    ensures !Inv(DoReconcileUninstall(s)) && Leaked(DoReconcileUninstall(s), b, inst.def.id)
  {
    hide Inv, RegistryShape, Leaked, DoReconcileUninstall;
    assert [inst][1..] == [];
    LeakAfter(s);
    UninstallExact(s);
  }

  lemma GoStale(s: State, q: seq<Command>, inst: Installed, b: BreakpointId, t: State)
    requires Reachable(s, q, true) && s.reconcile.Removing? && s.reconcile.todo == [inst] && RegistryShape(s.reg)
    requires inst.def.id in s.installed && s.installed[inst.def.id].bp == b && b != inst.bp
    requires t == DoReconcileUninstall(s) && t.removing == s.removing && t.tasks == s.tasks
    ensures Enabled(s, ReconcileUninstall) && !UninstallSafe(s)
    ensures Reachable(t, q, false) && !Inv(t) && Leaked(t, b, inst.def.id)
  {
    ReachableShape(s, q, true);
    hide Inv, Sound, Reachable, RegistryShape, Leaked, DoReconcileUninstall, UninstallSafe, Enabled;
    StaleLeaks(s, inst, b);
    Forget(s, q);
    GoQuietUninstall(s, q, t);
  }

  function Stale8(): State {
    S7.(reconcile := Removing(THIRD, []), installed := N6())
  }

  lemma StaleParts()
    ensures RegistryShape(R7()) && ReleaseFor(R7(), 20, 2) == R7() && FreedFor(R7(), 20, 2) == {}
    ensures Deactivate(K7(), {20}) == K7() && N7() - {2} == N6() && 2 in N7() && N7()[2].bp == 40
  {
    DeactivateOne(K7(), 20);
    assert K7()[20 := Gone(2, 1)] == K7();
  }

  lemma StaleIs()
    ensures RegistryShape(S7.reg) && DoReconcileUninstall(S7) == Stale8()
  {
    hide ReleaseFor, FreedFor, Deactivate, RegistryShape, R7, K7, N6, N7;
    StaleParts();
    assert [Object(2)][1..] == [];
  }

  lemma LeakReached()
    ensures Enabled(S7, ReconcileUninstall) && !UninstallSafe(S7)
    ensures Reachable(Stale8(), [RemoveOf(20)], false) && !Inv(Stale8()) && Leaked(Stale8(), 40, 2)
  {
    StaleParts();
    hide Reachable, Inv, RegistryShape, Leaked, DoReconcileUninstall, R7, K7, N6, N7, ReleaseFor, FreedFor, Deactivate;
    ReachS7();
    StaleIs();
    GoStale(S7, [RemoveOf(20)], Object(2), 40, Stale8());
  }

  lemma CommitThird()
    ensures DoReconcileCommit(Stale8()) == S8.(armed := S7.armed, removing := S7.removing)
  {
    NextOfOne(Probe(4, 1));
    hide NextMap, R7, K7, N6;
    assert NextMap(THIRD) == map[4 := Probe(4, 1)];
    assert StillExhausted(S7.exhausted, NextMap(THIRD)) == map[];
  }

  lemma ReachS8()
    ensures Reachable(S8, [], false)
  {
    hide Reachable, DoReconcileCommit, R7, K7, N6, N7, Inv, Leaked;
    LeakReached();
    CommitThird();
    var committed := S8.(armed := S7.armed, removing := S7.removing);
    GoCommit(Stale8(), [RemoveOf(20)], false, committed);
    assert DoV8Remove(committed, 20, true) == S8;
    assert [RemoveOf(20)][1..] == [];
    GoRemoved(committed, [RemoveOf(20)], false, 20, S8);
  }

  // ---- Probe 4 goes as well ----

  function Begun9(): State {
    S8.(epoch := 4, reconcile := Removing([], [Object(4)]))
  }

  function Removed9(): State {
    S9.(desired := S8.desired, reconcile := Removing([], []))
  }

  lemma BeginsLast()
    ensures Enumerates([Object(4)], N6().Values) && DoReconcileBegin(S8, [], [Object(4)]) == Begun9()
  {
    assert N6()[4] == Object(4);
    assert NextMap([]) == map[];
    assert Unwanted(map[], [Object(4)]) == [Object(4)] by { assert [Object(4)][1..] == []; }
    assert Differs(S8.desired, []);
  }

  lemma LastParts()
    ensures RegistryShape(R7()) && ReleaseFor(R7(), 40, 4) == R9() && FreedFor(R7(), 40, 4) == {}
    ensures Deactivate(K7(), {40}) == K9() && N6() - {4} == map[]
  {
    DeactivateOne(K7(), 40);
    assert K7()[40 := Gone(4, 0)] == K9();
    assert {2, 4} - {4} == {2};
    assert DropClaim(R7(), 40, 4).holders == R9().holders;
  }

  lemma LastIs()
    ensures RegistryShape(Begun9().reg) && DoReconcileUninstall(Begun9()) == Removed9()
  {
    hide ReleaseFor, FreedFor, Deactivate, RegistryShape, R7, R9, K7, K9, N6;
    LastParts();
    assert [Object(4)][1..] == [];
  }

  lemma CommitLast()
    ensures DoReconcileCommit(Removed9()) == S9
  {
    hide R9, K9;
    assert NextMap([]) == map[];
    assert StillExhausted(map[], map[]) == map[];
  }

  lemma ReachS9()
    ensures Reachable(S9, [], false)
  {
    hide Reachable, DoReconcileBegin, DoReconcileUninstall, DoReconcileCommit, RegistryShape, Enumerates;
    hide R7, R9, K7, K9, N6, N7;
    ReachS8();
    BeginsLast();
    GoBegin(S8, [], false, [], [Object(4)], Begun9());
    LastIs();
    GoQuietUninstall(Begun9(), [], Removed9());
    CommitLast();
    GoCommit(Removed9(), [], false, S9);
  }

  /** An uninstall that frees nothing. */
  lemma GoQuietUninstall(s: State, q: seq<Command>, t: State)
    requires Reachable(s, q, false) && s.reconcile.Removing? && s.reconcile.todo != [] && RegistryShape(s.reg)
    requires t == DoReconcileUninstall(s) && t.removing == s.removing && t.tasks == s.tasks
    ensures Reachable(t, q, false)
  {
    hide Reachable, RegistryShape, DoReconcileUninstall;
    GoQuietly(s, q, false, ReconcileUninstall);
  }

  /**
   With V8 answering in order, a run from an empty manager comes to a stale uninstall, which is its
   one unsafe step and leaks the breakpoint of probe 4.
   */
  lemma LeakIsReachable()
    ensures Reachable(S7, [RemoveOf(20)], true) && Enabled(S7, ReconcileUninstall) && !UninstallSafe(S7)
    ensures Apply(S7, ReconcileUninstall) == Stale8()
    ensures Reachable(Stale8(), [RemoveOf(20)], false) && !Inv(Stale8()) && Leaked(Stale8(), 40, 2)
  {
    hide Reachable, Inv, Leaked, R7, K7, N6, N7, RegistryShape, UninstallSafe;
    StaleIs();
    hide DoReconcileUninstall;
    ReachS7();
    LeakReached();
  }

  /**
   That run goes on until nothing is wanted, installed or under way, and nothing is suspended; the
   breakpoint is still registered and armed.
   */
  lemma LeakIsAllThatIsLeft()
    ensures Reachable(S9, [], false) && Quiet(S9) && S9.installed == map[] && S9.desired == map[] && S9.reconcile.Idle?
    ensures S9.armed == {40} && S9.reg.byBreakpoint.Keys == {40} && !S9.suspended && !S9.stopped
  {
    assert R9().byBreakpoint.Keys == {40};
    hide Reachable, R7, R9, K7, K9, N6, N7;
    ReachS9();
  }
}

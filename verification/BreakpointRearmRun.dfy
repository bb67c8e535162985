/**
 Why a rearm must wait for the arms that a suspension overtook. In the run below a suspension and a
 rearm both land between a probe's claim and its install. The source makes those two one promise
 continuation apart, and starts suspensions and rearms from timers, so it does not do this; a manager
 whose claim and install were further apart would.
 */
module BreakpointRearmRun {
  import opened BreakpointSharing
  import opened BreakpointSafety
  import opened BreakpointRuns
  import opened BreakpointCounts
  import opened BreakpointLeakRun

  lemma GoSuspend(s: State, q: seq<Command>, t: State)
    requires Reachable(s, q, true) && t == DoSuspendAll(s) && t.removing == s.removing && t.tasks == s.tasks
    ensures Reachable(t, q, true)
  {
    ReachableShape(s, q, true);
    hide Inv, Sound, Reachable, RegistryShape, DoSuspendAll;
    GoQuietly(s, q, true, SuspendAll);
  }

  /** A suspension drops the breakpoint under a claim, so that a rearm is not safe any more. */
  lemma SuspendedClaim(s: State, p: ProbeId)
    requires Inv(s) && p in s.tasks && s.tasks[p].Claimed? && !s.suspended && !s.stopped && !s.inspectorFailed
    ensures !RearmSafe(DoSuspendAll(s)) && DoSuspendAll(s).tasks == s.tasks && DoSuspendAll(s).removing == s.removing
  {
    hide Inv, Deactivate, InstallIds;
    var t := DoSuspendAll(s);
    assert t.reg.byBreakpoint == map[];
    assert !Registered(t.reg, t.tasks[p].holder);
  }

  function Waiting1(): State {
    WithClaim(WithAnswer(S1, Probe(1, 1), 10, 10), Probe(1, 1), 10, 10, 10)
  }

  lemma ClaimReached()
    ensures Reachable(Waiting1(), [], true)
  {
    hide Reachable;
    ReachS1();
    PostAndAnswer(S1, Probe(1, 1), 10, 10);
    Deliver(WithAnswer(S1, Probe(1, 1), 10, 10), [], Probe(1, 1), 10, 10, 10);
  }

  lemma RearmCanBreak()
    ensures var s := DoSuspendAll(Waiting1());
      Reachable(s, [], true) && Enabled(s, Rearm) && !RearmSafe(s) && !Inv(Apply(s, Rearm))
  {
    ClaimReached();
    ReachableShape(Waiting1(), [], true);
    assert 1 in Waiting1().tasks && Waiting1().tasks[1].Claimed?;
    hide Inv, Sound, Reachable, RegistryShape, DoSuspendAll, RearmSafe;
    SuspendedClaim(Waiting1(), 1);
    var s := DoSuspendAll(Waiting1());
    GoSuspend(Waiting1(), [], s);
    ReachableShape(s, [], true);
    RearmExact(s);
  }
}

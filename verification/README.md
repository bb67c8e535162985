# LiveProbe, verified models

LiveProbe debugs live programs: a broker holds probe definitions, a Node agent and a native eBPF
agent arm them, and evidence flows back. This project models the parts whose correctness depends on
interleavings and bookkeeping, and proves what they keep over every run. `dafny verify
dfyconfig.toml` checks all of it.

| Part | Files |
|---|---|
| Breakpoint sharing in the Node agent | `BreakpointSharing` (the transition system), `BreakpointSafety` and `BreakpointSteps` (the invariant), `BreakpointRuns` (runs), `BreakpointCounts` (hits and exhausted definitions in every run), `BreakpointEffects`, `BreakpointHits` and `BreakpointArming` (what its steps achieve), `BreakpointLeak`, `BreakpointLeakLasts` and `BreakpointLeakRun` (where the source breaks the invariant), `BreakpointRearmRun` (why a rearm must wait), `ProbeManager` (the object that refines it) |
| Version cursors of the broker | `Broker` (operations as functions), `BrokerCursors` (one step), `BrokerRuns` (runs), `BrokerContents` and `BrokerReplies` (what polls list), `BrokerUpdates` (what is stored, from creation to removal), `BrokerMaps` (the source-map protocol), `BrokerState` (the object that refines them) |
| The native agent | `AgentCursor` and `AgentCycles` (its assignment cache composed with the broker), `AgentHits` and `AgentCounts` (hit limits and emissions over many sites) |
| The kernel program | `Kernel` (hit reservation, sampling, token bucket under all interleavings), `KernelGrants` (that nothing available is refused) |
| Evidence delivery | `IngestIsolation`, `EventBuffer`, `EvidenceFlow`, `Aggregates` over `Doubles`, `NativeQueue` |
| Expressions | `Expressions` (compiler and validator), `Evaluation`, `EvaluationMeaning` (the evaluator against rules for values and errors) |
| Capture | `Capture` (the walk as functions), `CaptureSelection` (which properties and scopes), `CaptureGraph`, `CaptureOrigins`, `CaptureTheorems`, `CaptureWalk` (the callback-driven object that refines it) |
| Shared | `Positions` (parts of a sequence by position), `Numerals` (decimal numerals) |

## How the parts are modelled

- **Probe manager.** A run is a sequence of atomic segments between awaits. V8 answers in any order,
  may refuse a set or fail a remove, and never hands out an id that is still armed; this includes
  every first-in-first-out schedule. Registering a breakpoint and claiming it for its first probe is
  one segment. In a rate-limited pause the source counts all hits, resumes and then retires; the
  model counts and retires probe by probe, which ends in the same state, and takes a resume that
  fails as a step of its own. Objects are records with an explicit identity. The sharing theorems
  are about runs in which a rearm does not overtake a probe between its claim and its install:
  the source makes those two one promise continuation apart and rearms from timers. `RearmExact`
  states the condition exactly, and `RearmCanBreak` shows by a run that it cannot be left out.
- **Broker.** Each operation sees a clock reading of its own, and the clock may go anywhere. Keys
  joined from strings are records. Which source-map sets are evicted is stated by rank (newer first,
  then the greater key), which is what sorting and slicing keeps. Loading a snapshot and rolling one
  back can reuse versions, so the theorems are about runs without them.
- **Native agent.** Planning is a function that may fail for now; the loader's replies are arbitrary.
- **Kernel.** Threads interleave at each atomic instruction; clocks may be arbitrarily stale. Fewer
  than 2^64 executions are in progress at once.
- **Numbers.** Metric sums and products are rounded to the nearest double, ties to even; overflow
  and underflow are left open. In the evaluator every arithmetic result is a parameter, so its
  theorems hold however doubles round; the two zeros are one number.
- **Strings** are sequences of UTF-16 code units; JavaScript object ids, keys and paths elsewhere are
  numbers, being only compared.

## What the source does not keep

- **A stale uninstall leaks a breakpoint.** `reconcile` walks a snapshot of the installed probes and
  awaits each removal (packages/sdk-node/src/probe-manager.ts:171-176). `#uninstall` (876-885)
  deletes by probe id without checking that the object it was given is still the installed one,
  unlike `#retireAtHitLimit` (859). If that object was retired during an earlier await and another
  definition of the probe was armed, the newer installation is dropped and its claim stays. If the
  new list keeps that definition, the same reconcile arms it again and takes the claim over; if the
  list drops it, nothing does. `UninstallExact` gives the exact condition under which the step is
  harmless, `StaleUninstallLeaks` the failing family. `LeakLasts` shows that the breakpoint stays
  armed until that probe is armed again or everything is suspended, stopped or lost.
  `LeakIsReachable` and `LeakIsAllThatIsLeft` give a run, with V8 answering in order, after which
  nothing is wanted, installed or under way and V8 still has the breakpoint.
- **The broker refuses metrics that the agent aggregates.** The broker compares a rounded sum with
  rounded products (packages/broker/src/index.ts:1786-1790). Ten values of 0.1 sum to less than ten
  times the least of them (`TenTenthsAreRefused`), so the event is rejected and dropped.
  `WholeSeriesAreConsistent` shows that whole values never are, as long as their number times their
  greatest magnitude stays within 2^53.
- **A native probe gets its hit limit again each time it was undesired.** A cycle that finds a
  probe undesired forgets its count (native/agent/src/main.rs:427). `EmissionsAreBounded` bounds what
  it emits over every run by its limit times one more than the number of such cycles, and
  `ForgottenBudgetIsSpentAgain` shows that the bound is reached, with every detach succeeding.
- **The agent accepts paths the broker never compiles:** those that start at an index.
  `CompilerAndValidatorAgree` states that this is the only difference.

## Model

| member | source | states |
|---|---|---|
| `BreakpointRuns.SharingIsSound` | packages/sdk-node/src/probe-manager.ts:398-610 | in every state of every run whose uninstalls and rearms meet the exact conditions below, each installed probe's breakpoint is registered, counts its claim, is armed in V8 and has no remove posted or pending; each location key leads to a registered holder that lists it; each registered holder's claims are exactly the installed or mid-arm probes on it |
| `BreakpointRuns.QuietMeansInStep` | packages/sdk-node/src/probe-manager.ts:344-396 | in such runs, with removes succeeding and no failed resume, whenever nothing is in flight V8's armed set is the registry, each armed breakpoint has an installed probe, and both are empty while suspended or stopped, whatever was outstanding when that happened |
| `BreakpointCounts.HitLimitHolds` | packages/sdk-node/src/probe-manager.ts:206-287 | in every run, hits plus captures in flight never exceed an installation's hit limit, on both the captured and the rate-limited path; pending is the number of captures holding a live installation; emitted snapshot and log events stay within the limit |
| `BreakpointCounts.ExhaustedStaysOut` | packages/sdk-node/src/probe-manager.ts:398-409 | in every run, an exhausted definition is neither installed nor being armed |
| `BreakpointCounts.ExhaustedNeverRearms` | packages/sdk-node/src/probe-manager.ts:178-183 | in every run, a definition that is exhausted, with nothing installed or otherwise desired for its probe, stays so and is never armed for as long as every reconcile that commits still wants it |
| `BreakpointCounts.StepKeepsSound` | packages/sdk-node/src/probe-manager.ts:845-874 | what these rest on is kept by every step, also after the sharing invariant is broken |
| `BreakpointCounts.LookupsNeverFail` | packages/sdk-node/src/probe-manager.ts:563-610 | in every run, what a step looks up in the registry exists |
| `BreakpointRuns.UninstallExact` | packages/sdk-node/src/probe-manager.ts:876-885 | uninstalling a snapshot entry keeps the invariant if and only if its probe is not by now installed on another breakpoint or mid-arm on this one |
| `BreakpointRuns.UninstallLeaksClaim` | packages/sdk-node/src/probe-manager.ts:171-176 | otherwise a registered breakpoint keeps the claim of a probe that no longer uses it |
| `BreakpointRuns.UninstallStealsClaim` | packages/sdk-node/src/probe-manager.ts:595-600 | or a probe between claim and install loses its claim and goes on installing |
| `BreakpointRuns.RearmExact` | packages/sdk-node/src/probe-manager.ts:362-368 | rearming keeps the invariant if and only if no mid-arm probe still holds a breakpoint that a suspension dropped |
| `BreakpointRearmRun.RearmCanBreak` | packages/sdk-node/src/probe-manager.ts:344-368 | a run in which a suspension and a rearm both land between a claim and its install breaks it |
| `BreakpointRuns.RetireStep` | packages/sdk-node/src/probe-manager.ts:858-874 | retiring at the hit limit keeps the whole invariant |
| `BreakpointRuns.CountAllStep` | packages/sdk-node/src/probe-manager.ts:633-645 | counting a hit for each matching candidate, retiring as limits are met, keeps the whole invariant |
| `BreakpointRuns.StepKeepsInv` | packages/sdk-node/src/probe-manager.ts:158-204 | every action of the manager and of V8, under the two exact conditions, keeps the invariant |
| `BreakpointRuns.NoOrphans` | packages/sdk-node/src/probe-manager.ts:673-716 | no breakpoint is abandoned unless a remove or a resume fails |
| `BreakpointEffects.PauseReachesItsProbes` | packages/sdk-node/src/probe-manager.ts:206-228 | a pause is captured for exactly the installed probes on the breakpoints hit that have hits left, shared or not |
| `BreakpointEffects.HitsAreCountedOnce` | packages/sdk-node/src/probe-manager.ts:633-645 | each matching probe that is still installed gets exactly one hit and no other probe any |
| `BreakpointEffects.ReconcileTakesEffect` | packages/sdk-node/src/probe-manager.ts:158-188 | a reconcile that nothing interrupts leaves installed exactly the probes still wanted, unchanged, and replaces the desired list and the exhausted entries |
| `BreakpointHits.CaptureHits` | packages/sdk-node/src/probe-manager.ts:616-648 | a finished capture gives exactly one hit to each of its probes that is still installed and matched if it succeeded, its epoch is the present one and nothing is stopped, suspended or lost, and otherwise none; a probe leaves and is exhausted exactly if that hit was its last, and every other probe stays as it was |
| `BreakpointHits.RateLimitedPauseHits` | packages/sdk-node/src/probe-manager.ts:237-261 | without a token exactly the unconditional counters on the breakpoints hit that have hits left get one hit, with the same ending, and nothing is captured |
| `BreakpointHits.CapturingPause` | packages/sdk-node/src/probe-manager.ts:262-287 | with a token exactly the probes reached are captured for, in the present epoch, with one more pending each and no hit yet |
| `BreakpointArming.ArmsExactly` | packages/sdk-node/src/probe-manager.ts:398-409 | arming begins exactly for a probe that is neither installed nor under way nor exhausted under this definition, with nothing stopped, suspended or lost; otherwise nothing changes |
| `BreakpointArming.ArmingJoins` | packages/sdk-node/src/probe-manager.ts:498-503 | a probe at a location that has a breakpoint joins its holder and posts nothing |
| `BreakpointArming.WaitingJoins` | packages/sdk-node/src/probe-manager.ts:508-519 | so does one that waited for the arm in flight |
| `BreakpointArming.WaitingPosts` | packages/sdk-node/src/probe-manager.ts:518-520 | if that arm failed it posts a set of its own |
| `BreakpointArming.RefusedAttemptEnds` | packages/sdk-node/src/probe-manager.ts:521-556 | an attempt that V8 refuses is over: it registered nothing, and the location is free for the next one |
| `BreakpointArming.ClearedAttemptEnds` | packages/sdk-node/src/probe-manager.ts:557-561 | so is one without a location, once its remove is answered |
| `BreakpointArming.BothLocationsLead` | packages/sdk-node/src/probe-manager.ts:563-593 | after V8 armed a breakpoint, the location asked for leads to its holder, and so does the resolved one unless another holder has it |
| `BreakpointArming.ResolvedLocationIsShared` | packages/sdk-node/src/probe-manager.ts:570-580 | a later probe that names the resolved position joins that holder |
| `BreakpointArming.ClaimEnds` | packages/sdk-node/src/probe-manager.ts:436-457 | a claimed probe is installed with fresh counts exactly if it is still wanted and nothing is stopped or suspended, and otherwise its claim is gone |
| `BreakpointArming.ArmingPosts` | packages/sdk-node/src/probe-manager.ts:505-520 | where nothing is armed a probe posts a set, or waits if one is in flight for that location |
| `BreakpointArming.SuspensionTakesEffect` | packages/sdk-node/src/probe-manager.ts:344-360 | a suspension leaves nothing installed, registered or active, voids captures in flight and has every registered breakpoint removed |
| `BreakpointArming.StopTakesEffect` | packages/sdk-node/src/probe-manager.ts:370-396 | so does a stop, after which nothing is desired or ever armed |
| `BreakpointArming.SuspendedIsIdle` | packages/sdk-node/src/probe-manager.ts:362-368 | while suspended nothing is armed and no pause has candidates, until a rearm |
| `BreakpointArming.LostSessionTakesEffect` | packages/sdk-node/src/probe-manager.ts:673-722 | a lost session takes everything down for good, removes nothing and cannot be rearmed |
| `BreakpointArming.EpochFollowsTheList` | packages/sdk-node/src/probe-manager.ts:158-170 | the epoch moves exactly if the new list, as a map, differs from the desired one |
| `BreakpointLeak.StaleUninstallLeaks` | packages/sdk-node/src/probe-manager.ts:171-188 | from every state with a stale entry whose probe is wanted anew, four ordinary steps and the uninstall break the invariant, and leak the new breakpoint unless the snapshot holds the probe once more |
| `BreakpointLeakLasts.LeakLasts` | packages/sdk-node/src/probe-manager.ts:594-610 | over every stretch of every run that neither arms the probe again nor suspends, stops or loses the session, a leaked breakpoint stays registered and armed, with no remove posted, whoever else comes and goes |
| `BreakpointLeakRun.LeakIsReachable` | packages/sdk-node/src/probe-manager.ts:158-188 | a run from an empty manager, in which V8 answers its commands in order and no other step is unsafe, ends in a stale uninstall and leaks |
| `BreakpointLeakRun.LeakIsAllThatIsLeft` | packages/sdk-node/src/probe-manager.ts:158-195 | that run goes on until nothing is wanted, installed, suspended or under way, and the breakpoint is still armed and registered |
| `ProbeManagerObject.ProbeManager.EnsureArmed` | packages/sdk-node/src/probe-manager.ts:398-519 | keeps the sharing invariant; skips, gives up on a missing or ambiguous script, joins a registered holder, waits, or posts a set, as the transition system does |
| `ProbeManagerObject.ProbeManager.WaiterResumes` | packages/sdk-node/src/probe-manager.ts:508-519 | keeps the invariant; a waiter joins the settled holder or posts a set of its own |
| `ProbeManagerObject.ProbeManager.SetAnswered` | packages/sdk-node/src/probe-manager.ts:521-581 | keeps the invariant; V8's answer registers, claims and settles, or posts a remove, or gives up |
| `ProbeManagerObject.ProbeManager.DrainEnds` | packages/sdk-node/src/probe-manager.ts:524-527 | keeps the invariant; after the awaited remove the probe is free, and an attempt without a location is settled |
| `ProbeManagerObject.ProbeManager.InstallOrAbort` | packages/sdk-node/src/probe-manager.ts:436-457 | keeps the invariant; a claimed probe is installed with fresh counters, or releases its claim |
| `ProbeManagerObject.ProbeManager.ReleaseClaim` | packages/sdk-node/src/probe-manager.ts:602-610 | a holder without claims leaves both indexes, its own keys only, and its remove is posted |
| `ProbeManagerObject.ProbeManager.BeginReconcile` | packages/sdk-node/src/probe-manager.ts:158-176 | keeps the invariant; the epoch moves exactly if the list changed, and the unwanted installations are queued in order |
| `ProbeManagerObject.ProbeManager.UninstallNext` | packages/sdk-node/src/probe-manager.ts:876-885 | one round of the uninstall loop, which keeps the invariant exactly under the stated condition |
| `ProbeManagerObject.ProbeManager.CommitReconcile` | packages/sdk-node/src/probe-manager.ts:178-188 | keeps the invariant; exhausted entries that are no longer wanted go, and the desired map is replaced |
| `ProbeManagerObject.ProbeManager.Suspend` | packages/sdk-node/src/probe-manager.ts:344-360 | keeps the invariant; everything is deactivated and the registry emptied, its breakpoints left to remove one by one |
| `ProbeManagerObject.ProbeManager.Halt` | packages/sdk-node/src/probe-manager.ts:370-396 | keeps the invariant; the same for good, with all removes posted |
| `ProbeManagerObject.ProbeManager.Resume` | packages/sdk-node/src/probe-manager.ts:362-364 | clears the suspension, which keeps the invariant exactly under the stated condition |
| `ProbeManagerObject.ProbeManager.Pause` | packages/sdk-node/src/probe-manager.ts:206-266 | keeps the invariant, hit limits included; the candidates of a pause are captured for, counted without a capture, or let go |
| `ProbeManagerObject.ProbeManager.FinishCapture` | packages/sdk-node/src/probe-manager.ts:616-648 | keeps the invariant, hit limits included; the step is the one that `CaptureHits` states the hits of, pending released first |
| `ProbeManagerObject.ProbeManager.RetireAtHitLimit` | packages/sdk-node/src/probe-manager.ts:858-874 | keeps the invariant; the probe leaves with its claim and is exhausted |
| `ProbeManagerObject.ProbeManager.HandleResumeFailure` | packages/sdk-node/src/probe-manager.ts:673-722 | keeps the invariant; a failed resume gives up the session and its breakpoints |
| `BrokerRuns.NativeCursorSound` | packages/broker/src/index.ts:1914-1961 | at two moments with the same assignment version an agent's full assignment list is the same, for every credential |
| `BrokerRuns.UnchangedReplyLosesNothing` | packages/broker/src/index.ts:1935-1936 | so a poll answered with nothing leaves the agent with the current full list |
| `BrokerCursors.NativeStep` | packages/broker/src/index.ts:2617-2670 | every operation leaves an agent's version alone only if the identity and the assignment of each of its instances stay the same |
| `BrokerRuns.ManagedCursorSound` | packages/broker/src/index.ts:1589-1615 | two polls of a service at one version and one commit return the same probes at the same locations |
| `BrokerCursors.ManagedStep` | packages/broker/src/index.ts:2841-2855 | every operation keeps that, given that a complete source-map set has no lease |
| `BrokerRuns.CompletedSetIsUnmixed` | packages/broker/src/index.ts:1617-1725 | a completed set holds maps of the agent that completed it only, across expiry, takeover, re-claim and eviction |
| `BrokerRuns.LeaseHasGrant` | packages/broker/src/index.ts:1633-1648 | whoever holds a lease later held it before or was granted it in between |
| `BrokerRuns.TakeoverFences` | packages/broker/src/index.ts:2819-2839 | after a takeover the former uploader is refused until it is granted the lease again |
| `BrokerMaps.CompletedSetIsWhole` | packages/broker/src/index.ts:1652-1725 | in every run a complete set holds, for each path, exactly the last map its completer uploaded while the lease was continuously its own, and nothing else |
| `BrokerMaps.LeaseIsExclusive` | packages/broker/src/index.ts:1633-1648 | a granted lease stays its holder's for two minutes, unless a completion for the service ended it |
| `BrokerMaps.HeldExcludes` | packages/broker/src/index.ts:2819-2839 | while it is held, no other agent is granted it, and no other agent's upload or completion is accepted |
| `BrokerMaps.ClaimExactly` | packages/broker/src/index.ts:1617-1650 | the answer says truly whether the set is complete and whether the caller now holds the lease, which then lasts two minutes; a refusal means another agent holds it |
| `BrokerMaps.UploadExactly` | packages/broker/src/index.ts:1652-1686 | an upload is accepted exactly from the leaseholder with a valid map, and renews the lease for exactly two minutes either way |
| `BrokerMaps.CompleteExactly` | packages/broker/src/index.ts:1688-1708 | a completion is accepted exactly from the leaseholder, keeps the maps, ends the lease and raises the service version by one |
| `BrokerMaps.EvictionKeepsNewest` | packages/broker/src/index.ts:1709-1724 | the service keeps its five newest sets, or all if there are fewer, each newer than every one evicted, and other services keep all |
| `BrokerRuns.EndedForGood` | packages/broker/src/index.ts:2089-2145 | a terminal native status is never un-latched |
| `BrokerContents.LiveExactly` | packages/broker/src/index.ts:1604-1613 | a list holds a probe if and only if it is stored for the service, unexpired and not ended |
| `BrokerContents.ExpiryIsExact` | packages/broker/src/index.ts:2407-2431 | after an expiry exactly the listed probes that are not due are listed |
| `BrokerContents.CreatedIsListed` | packages/broker/src/index.ts:1499-1508 | a created probe comes last in its service's list with the service's new version, and no other list changes |
| `BrokerContents.DeletedIsGone` | packages/broker/src/index.ts:1511-1533 | after a delete no poll lists the id until it is created again |
| `BrokerContents.EndedIsNotAssigned` | packages/broker/src/index.ts:2672-2685 | once a terminal status is stored, that probe version is never again assigned to that build of that instance |
| `BrokerReplies.AssignmentsAreExact` | packages/broker/src/index.ts:1914-1961 | a reply to an older cursor has exactly the agent's stored instances whose service the credential covers, each with its service and build |
| `BrokerReplies.AssignedProbesAreExact` | packages/broker/src/index.ts:1948-1959 | each lists exactly the stored probes of its scope and service that are neither expired nor due and have no terminal status stored for that instance and build, in creation order |
| `BrokerReplies.OtherAssignmentReplies` | packages/broker/src/index.ts:1920-1936 | an unregistered agent is refused, and the current cursor gets the version alone |
| `BrokerReplies.PollIsExact` | packages/broker/src/index.ts:1589-1615 | a managed poll is unchanged exactly at the current version, and otherwise lists exactly the stored probes of the service that are neither expired nor due, in creation order, located by the maps of a complete set of that commit |
| `BrokerUpdates.CreateExactly` | packages/broker/src/index.ts:1491-1508 | a probe is stored exactly if accepted under a free id, with the next version, its fields and its expiry |
| `BrokerUpdates.ProbeLives` | packages/broker/src/index.ts:1499-1533 | in every run a created probe stays stored, unchanged, until it is deleted from its scope, and is expired exactly if an expiry since then found it due |
| `BrokerUpdates.StoredWasCreated` | packages/broker/src/index.ts:1499-1533 | whatever is stored was created by some step and not deleted since |
| `BrokerUpdates.DeleteExactly` | packages/broker/src/index.ts:1511-1533 | a deletion finds exactly a stored probe of that id and scope, and remembers its time |
| `BrokerUpdates.LateReportsAreForgiven` | packages/broker/src/index.ts:1535-1551 | in every run, for exactly ten minutes after a deletion, events of that probe are passed over |
| `BrokerUpdates.RegisterExactly` | packages/broker/src/index.ts:1833-1847 | registration stores the capabilities and leaves every version and every other agent alone |
| `BrokerUpdates.ReplaceExactly` | packages/broker/src/index.ts:1849-1879 | a replacement is accepted exactly if the agent is registered and no report is for an uncovered service, a repeated id or another owner's instance; the first such report decides the error, and nothing changes |
| `BrokerUpdates.ReplacedExactly` | packages/broker/src/index.ts:1887-1906 | then the agent has exactly the reported instances as reported, with its own capabilities where a report has none, and other agents keep theirs |
| `BrokerUpdates.IngestExactly` | packages/broker/src/index.ts:2013-2076 | a batch is accepted exactly if its instance is stored with that service and build and each event fits its probe or is about one deleted lately; the first other event decides the error; the reply counts the fitting events, and those are applied in order |
| `BrokerUpdates.ReportsAreReflected` | packages/broker/src/index.ts:2086-2143 | after a batch the stored status is as new as every report, or a terminal one that report could not undo, and a terminal report that is newest ends the assignment |
| `BrokerUpdates.StoredWasReported` | packages/broker/src/index.ts:2129-2132 | a status that changed is one that was reported, with its time |
| `BrokerObject.BrokerState.BumpServiceVersion` | packages/broker/src/index.ts:2617-2670 | the loop over instances bumps an agent once for each of its instances of the service |
| `BrokerObject.BrokerState.Create` | packages/broker/src/index.ts:1491-1508 | a stored probe carries the new version; a refused definition still costs a version |
| `BrokerObject.BrokerState.Delete` | packages/broker/src/index.ts:1511-1533 | an unexpired probe's removal bumps its service, and the removal is remembered |
| `BrokerObject.BrokerState.ExpireDueProbes` | packages/broker/src/index.ts:2407-2431 | exactly the due probes expire, each with a bump |
| `BrokerObject.BrokerState.Poll` | packages/broker/src/index.ts:1589-1615 | unchanged, or the unexpired probes of the service at their runtime locations |
| `BrokerObject.BrokerState.PollAssignments` | packages/broker/src/index.ts:1914-1961 | the reply is the one that `AssignmentsAreExact` and `AssignedProbesAreExact` state in terms of what is stored |
| `BrokerObject.BrokerState.Register` | packages/broker/src/index.ts:1833-1847 | registration never resets a version |
| `BrokerObject.BrokerState.Replace` | packages/broker/src/index.ts:1849-1912 | instances are replaced or refused as a whole, with a bump exactly if an attachment identity changed |
| `BrokerObject.BrokerState.Ingest` | packages/broker/src/index.ts:2040-2145 | a batch is validated as a whole, events of lately removed probes aside, then stored event by event |
| `BrokerObject.BrokerState.StoreStatus` | packages/broker/src/index.ts:2086-2143 | a status is stored unless older or un-latching, with a bump exactly on the first terminal one |
| `BrokerObject.BrokerState.PruneRemovedProbes` | packages/broker/src/index.ts:1540-1550 | exactly the removals within the grace period stay |
| `BrokerObject.BrokerState.Claim` | packages/broker/src/index.ts:1617-1650 | a claim takes a free, expired or own lease, clearing another agent's maps |
| `BrokerObject.BrokerState.Upload` | packages/broker/src/index.ts:1652-1686 | only the leaseholder's valid map is stored, and its lease is extended either way |
| `BrokerObject.BrokerState.Complete` | packages/broker/src/index.ts:1688-1725 | completion ends the lease, bumps the service and keeps the five newest sets |
| `AgentCursor.CacheMatchesBroker` | native/agent/src/main.rs:282-410 | when the cached version is the broker's, the cached sites are the plan of the broker's current full list |
| `AgentCursor.UnchangedIsNeverMisread` | native/agent/src/main.rs:254-291 | the empty unchanged reply meets a full cache or a truly empty list, also after failed rebuilds |
| `AgentCursor.FailedPlanningKeepsSites` | native/agent/src/main.rs:394-404 | a rebuild that must be retried keeps the sites it had and invents none |
| `AgentCycles.CycleCatchesUp` | native/agent/src/main.rs:282-410 | a cycle in which no planning attempt fails ends with the broker's version as cursor and cached version and with the plan of its full list |
| `AgentCycles.FailedPlanningIsRetried` | native/agent/src/main.rs:386-404 | one in which some fail keeps the cursor behind, so the next poll gets the full list, and has exactly the planned sites and the kept ones of what failed |
| `AgentCycles.FullPlanExactly` | native/agent/src/main.rs:292-385 | the plan is exactly the sites of the stored probes in force for the agent's covered instances |
| `AgentHits.HitLimitOverAllSites` | native/agent/src/main.rs:687-728 | while a logical probe stays desired, all its sites together emit at most its hit limit, counter deltas included |
| `AgentHits.TerminalIsNeverReattached` | native/agent/src/main.rs:434-440 | once terminal and still desired, none of its sites is attached again, across cycles, failed detaches and loader restarts |
| `AgentHits.AttachmentsAreBounded` | native/agent/src/main.rs:461-474 | active sites never exceed the maximum |
| `AgentHits.EmissionsAreBounded` | native/agent/src/main.rs:422-427 | over every run, all sites of a probe emit at most its limit times one more than the number of cycles that found it undesired |
| `AgentHits.ForgottenBudgetIsSpentAgain` | native/agent/src/main.rs:411-427 | for every number of such cycles a run reaches that bound, with every detach succeeding and nothing emitted while undesired |
| `AgentCounts.EmissionsAreExact` | native/agent/src/main.rs:687-801 | while a probe stays desired its sites emit exactly what they have to report, counter rises and decoded events, up to what is left of the hit limit |
| `AgentCounts.CounterIsReportedExactly` | native/agent/src/main.rs:777-801 | a counter probe with one site emits exactly as much as its kernel counter rose, up to that |
| `AgentCounts.AttachedExactly` | native/agent/src/main.rs:434-612 | a site is attached only by attaching it, from a reading of zero, and stays until it is detached or the loader restarts |
| `AgentCounts.EndedSiteStaysOff` | native/agent/src/main.rs:434-440 | a site detached for good is not attached again while it stays desired |
| `Kernel.ReservationsNeverExceedLimit` | native/bpf/src/liveprobe.bpf.c:102-108 | under every interleaving at most the limit of reservations stand, and the counter exceeds them only by executions on their way to undo |
| `Kernel.SamplingIsExact` | native/bpf/src/liveprobe.bpf.c:110-115 | under every interleaving of additions and decisions, for fewer than 2^64 hits, exactly one in the sampling rate has passed or will |
| `Kernel.PackUnpacks` | native/bpf/src/liveprobe.bpf.c:131-141 | second and tokens, joined by a shift and a bitwise or, share one 64-bit word without touching each other |
| `Kernel.RefillDoesNotOverflow` | native/bpf/src/liveprobe.bpf.c:134-139 | refilling is exact while seconds fit 32 bits |
| `Kernel.GrantsStayWithinRate` | native/bpf/src/liveprobe.bpf.c:117-146 | under every interleaving with stale clocks, tokens stay within the burst and grants within burst plus rate times elapsed seconds |
| `Kernel.SecondNeverDecreases` | native/bpf/src/liveprobe.bpf.c:117-146 | the stored second never goes back |
| `KernelGrants.SwapExactly` | native/bpf/src/liveprobe.bpf.c:130-145 | in every run a compare-and-swap hands out a token exactly if the word is the one loaded and its tokens, plus the exact refill capped at the burst, are positive; it then stores one less with the later second, and otherwise leaves the word; the execution goes on exactly if it lost a race for a token it saw and it was not the eighth |
| `KernelGrants.GrantedUnlessOvertaken` | native/bpf/src/liveprobe.bpf.c:130-145 | no word ever comes back, so a token that was seen is handed out exactly if nobody was handed one since the load |
| `KernelGrants.RefusedOnlyWhenOvertaken` | native/bpf/src/liveprobe.bpf.c:129-146 | an execution that saw a token leaves without one only after eight lost races, with at least eight others served while it was in the loop |
| `KernelGrants.BurstIsServed` | native/bpf/src/liveprobe.bpf.c:117-146 | executions one after the other in the first second: exactly the first `burst` of them are served |
| `KernelGrants.FirstSecondConserves` | native/bpf/src/liveprobe.bpf.c:117-146 | under every interleaving within the first second, tokens handed out and tokens left make up the burst |
| `KernelGrants.ReservationExactly` | native/bpf/src/liveprobe.bpf.c:102-108 | an execution holds a reservation exactly if it found the counter below the limit; a refusal with fewer than the limit standing met another on its way to undo |
| `KernelGrants.ReservationsEnd` | native/bpf/src/liveprobe.bpf.c:170-176 | only a full ring ends a reservation |
| `IngestIsolation.IngestIsolating` | packages/sdk-node/src/ingest-isolation.ts:30-54 | the recursion over a shared connection and budget is the specification's bisection |
| `IngestIsolation.IsolationPartitions` | packages/sdk-node/src/ingest-isolation.ts:30-54 | delivered, rejected and deferred are order-preserving and partition the batch |
| `IngestIsolation.FatesFollowAnswers` | packages/sdk-node/src/ingest-isolation.ts:30-54 | every event shares its fate with a request that held it: delivered if that was accepted, deferred if it failed for now, rejected if it was refused and held nothing else or no split was left |
| `IngestIsolation.IsolationConserves` | packages/sdk-node/src/ingest-isolation.ts:50-53 | counted with multiplicity, nothing appears or disappears |
| `IngestIsolation.RequestsAreBounded` | packages/sdk-node/src/ingest-isolation.ts:42-49 | two more requests for each split, and no more splits than the budget |
| `IngestIsolation.BadEventsAreIsolated` | packages/broker/src/index.ts:1760-1797 | with a per-event validator, no transient failure and splits for the bad events times the ceiling of log2 of the batch, exactly the bad events are rejected |
| `IngestIsolation.CeilLog2IsLeast` | packages/sdk-node/src/ingest-isolation.ts:4-9 | the logarithm used there is the least power of two that covers the batch |
| `EventBuffer.EventBuffer.Enqueue` | packages/sdk-node/src/event-buffer.ts:29-45 | the fewest oldest events go, the byte count is the sum of sizes and within the maximum |
| `EventBuffer.EventBuffer.TakeBatch` | packages/sdk-node/src/event-buffer.ts:47-64 | the batch and the rest make up the queue, and the batch has the length that `BatchIsLongest` is about |
| `EventBuffer.BatchIsLongest` | packages/sdk-node/src/event-buffer.ts:53-62 | a batch has at least one event, and is the longest prefix within the budget after the first |
| `EventBuffer.EventBuffer.RequeueFront` | packages/sdk-node/src/event-buffer.ts:66-80 | deferred events come first again and the fewest newest events go |
| `EventBuffer.EventBuffer.RecordRejected` | packages/sdk-node/src/event-buffer.ts:82-84 | rejected events count as dropped |
| `EvidenceFlow.Flush` | packages/sdk-node/src/live-probe.ts:432-489 | a flush sends the batch by bisection, puts exactly the deferred events back in front of those that arrived meanwhile, conserves evidence and makes a bounded number of requests |
| `EvidenceFlow.EvidenceIsConserved` | packages/sdk-node/src/live-probe.ts:432-489 | at every point of every run, offered is delivered plus dropped plus queued plus in flight, and the queue fits |
| `EvidenceFlow.DeliveredStaysDelivered` | packages/sdk-node/src/live-probe.ts:463-489 | a delivered event is never queued, sent or dropped again |
| `Aggregates.TenTenthsAreRefused` | packages/broker/src/index.ts:1786-1796 | under any rounding to nearest, ties to even, ten recorded values of 0.1 make an event that the broker refuses |
| `Aggregates.WholeSeriesAreConsistent` | packages/broker/src/index.ts:1786-1796 | no series of whole values makes one, if its length times its greatest magnitude is at most 2^53 |
| `Aggregates.WholeSum` | packages/sdk-node/src/event-buffer.ts:116-120 | the running sum of such a series is the exact sum and lies between the products |
| `Aggregates.SummaryBounds` | packages/sdk-node/src/event-buffer.ts:103-121 | count, last, least and greatest value of a series are what their names say |
| `Aggregates.SumIsRoundedAlongTheWay` | packages/sdk-node/src/event-buffer.ts:103-121 | for every series the sum is the last of its partial sums from left to right, each rounded |
| `Aggregates.AggregateBuffer.RecordMetric` | packages/sdk-node/src/event-buffer.ts:103-121 | each aggregate is the rounded summary of what was recorded since the last flush |
| `Aggregates.AggregateBuffer.Flush` | packages/sdk-node/src/event-buffer.ts:123-137 | everything is handed over once, zero counters aside |
| `NativeQueue.BoundedQueue.PushBack` | native/agent/src/resilience.rs:63-80 | the fewest oldest entries go, and item and byte bounds hold with bytes the sum of entries |
| `NativeQueue.BoundedQueue.PushFront` | native/agent/src/resilience.rs:82-87 | the value is in front of what is left; one that can never fit is dropped and the last entry moves to the front all the same |
| `NativeQueue.BoundedQueue.PopFront` | native/agent/src/resilience.rs:89-93 | the oldest entry leaves |
| `NativeQueue.PopThenPushFront` | native/agent/src/resilience.rs:82-93 | putting a popped entry back restores the queue exactly |
| `NativeQueue.BrokerClient.Ingest` | native/agent/src/broker.rs:72-97 | whatever the outcomes, delivered then pending batches are a strictly increasing sequence of submissions, each submission was delivered, refused or dropped or is pending, and the new batch is sent only past an empty queue and queued exactly on a failure for now |
| `NativeQueue.BrokerClient.FlushPendingIngest` | native/agent/src/broker.rs:99-113 | the queue is drained as far as it goes |
| `NativeQueue.DrainStopsAtFailure` | native/agent/src/broker.rs:77-88 | a drain takes a prefix, each entry answered for good, and stops only at an empty queue or a failure for now, leaving that entry in place |
| `NativeQueue.SentWasAccepted` | native/agent/src/broker.rs:77-78 | only a batch whose own send succeeded counts as delivered |
| `NativeQueue.DrainedExactly` | native/agent/src/broker.rs:77-88 | the batches recorded as sent, and those as refused, are exactly those whose own send had that answer, in order |
| `Expressions.Convert` | packages/broker/src/expression.ts:120-191 | conversion succeeds if and only if the tree is convertible and the counted nodes and depth fit, and yields its translation |
| `Expressions.ReferencePath` | packages/broker/src/expression.ts:92-118 | a path that is read has 1 to 64 legal segments and starts at a name |
| `Expressions.ReferencePathExactly` | packages/broker/src/expression.ts:92-118 | a tree is read as a path if and only if it is a chain of non-optional members from a variable whose dotted names and bracketed literals, from root to tip, are the path, and the path is legal |
| `Expressions.TranslateExactly` | packages/broker/src/expression.ts:120-191 | a tree compiles to an expression, limits aside, if and only if it is a way to write it and the expression is legal |
| `Expressions.OperatorsExactly` | packages/broker/src/expression.ts:50-69 | each operator is read from its symbols, both spellings of equality included, and from nothing else |
| `Expressions.PathTreeCompiles` | packages/broker/src/expression.ts:75-118 | every such path is the path of a tree, with its names dotted or in brackets |
| `Expressions.DecompileCompiles` | packages/broker/src/expression.ts:120-191 | every legal expression rooted at names is what some tree compiles to, dotted or bracketed |
| `Expressions.ValidateNode` | packages/sdk-node/src/safe-expression.ts:66-102 | validation succeeds if and only if the value decodes to an expression that fits the same limits |
| `Expressions.AcceptedExactly` | packages/sdk-node/src/safe-expression.ts:56-102 | the agent accepts exactly the encodings of legal expressions of at most 100 nodes and depth 20 |
| `Expressions.EncodeRoundTrip` | packages/sdk-node/src/safe-expression.ts:66-102 | a legal expression decodes to itself |
| `Expressions.EncodeIsInjective` | packages/broker/src/expression.ts:6-31 | different expressions are sent differently |
| `Expressions.CompilerAndValidatorAgree` | packages/broker/src/expression.ts:120-191 | an expression can be compiled if and only if the agent accepts it and its paths start at names |
| `Expressions.IndexRootIsAcceptedNotProduced` | packages/sdk-node/src/safe-expression.ts:56-64 | a path that starts at an index is accepted and never compiled |
| `Expressions.CompileAndValidate` | packages/broker/src/expression.ts:193-209 | with a counter on either side, exactly the trees that write a legal expression within the limits compile, and what compiles is accepted |
| `Evaluation.ResolvePath` | packages/sdk-node/src/safe-expression.ts:131-158 | the loop over segments follows the path |
| `EvaluationMeaning.ResolveExactly` | packages/sdk-node/src/safe-expression.ts:131-158 | a path resolves to a value if and only if it leads there through stored properties, past no redacted key, and the value may be published |
| `EvaluationMeaning.ResolveFailsExactly` | packages/sdk-node/src/safe-expression.ts:131-158 | it fails with an error if and only if the trail from the root ends for that reason |
| `EvaluationMeaning.EvaluatesExactly` | packages/sdk-node/src/safe-expression.ts:194-285 | an expression evaluates to a value if and only if the rules give it that value: operands in order, text joined left to right, comparisons and arithmetic on the left and right number, no division by zero |
| `EvaluationMeaning.FailsExactly` | packages/sdk-node/src/safe-expression.ts:194-285 | it fails with an error if and only if the rules say so: the left operand's error first, then the right one's, then the operator's |
| `Evaluation.EvaluationIsBlindToRedactedParts` | packages/sdk-node/src/probe-manager.ts:127-138 | roots that differ only beneath redacted keys, cycles and sharing included, give the same error, the same scalar, or objects that differ only there |
| `Evaluation.EvaluationReadsOnlyItsPaths` | packages/sdk-node/src/safe-expression.ts:194-285 | the same answers at an expression's paths give the same outcome |
| `Evaluation.EvaluationDependsOnItsPaths` | packages/sdk-node/src/safe-expression.ts:295-309 | equal answers at the paths give equal outcomes |
| `Evaluation.ResultsArePublishable` | packages/sdk-node/src/safe-expression.ts:182-192 | a numeric result is finite and safe if whole, a text is not a redacted one, and no result is a truncation marker, for any arithmetic |
| `Evaluation.ResolvedIsPublishable` | packages/sdk-node/src/safe-expression.ts:137-157 | no path with a redacted key ever resolves |
| `Evaluation.ComplementLaw` | packages/sdk-node/src/safe-expression.ts:235-258 | negating a comparison is the opposite comparison, in results and in errors |
| `Evaluation.DeMorgan` | packages/sdk-node/src/safe-expression.ts:204-231 | De Morgan's laws hold exactly, skipped operands and errors included |
| `Evaluation.ExpressionPaths` | packages/sdk-node/src/safe-expression.ts:295-309 | the visitor lists the paths in order |
| `CaptureTheorems.CaptureIsBounded` | packages/sdk-node/src/capture.ts:136-248 | a capture makes at most max(1, maxObjects) requests, shallower objects first, none deeper than maxDepth, no object twice unless it is a scope of several frames, and registers exactly what it asks for |
| `CaptureTheorems.EachObjectOnce` | packages/sdk-node/src/capture.ts:207-244 | with distinct scopes every object is asked for at most once, on cyclic graphs too |
| `CaptureTheorems.CaptureIsFaithful` | packages/sdk-node/src/capture.ts:94-245 | of each answer exactly the enumerable properties are read, the first maxProps + 1 of an object in order, all elements below maxArray of an array by number; each field of each container comes from the first answer with that key and shows its value: nothing of a redacted one, the one container of an object, a cut only if the budget is spent, an empty container only at the depth limit; each property read has its field; and each object asked for is a scope or was found through a property read, one level up |
| `CaptureSelection.SelectedIsReading` | packages/sdk-node/src/capture.ts:94-115 | the selection is that: by positions for an object, by numerals of numbers below the limit and sorted by number for an array |
| `CaptureSelection.ScopesExactly` | packages/sdk-node/src/capture.ts:83-92 | a frame's ids are exactly those of its local, block and catch scopes, each where first met, in order |
| `CaptureTheorems.ScopesComeFirst` | packages/sdk-node/src/capture.ts:139-158 | the scopes of all frames are asked for first, frame by frame and innermost first, as far as the budget goes |
| `CaptureOrigins.CutFrames` | packages/sdk-node/src/capture.ts:155-157 | a frame is cut exactly if it has scopes and the budget reached none of them |
| `CaptureTheorems.ErrorAndLengths` | packages/sdk-node/src/capture.ts:104-190 | the error is that of the first refused request; each array has its declared length, or as much more as its last element shown needs |
| `CaptureTheorems.CutsOnlyWhenSpent` | packages/sdk-node/src/capture.ts:213-221 | if any object is cut, the whole budget was used |
| `CaptureTheorems.RedactedValuesDoNotMatter` | packages/sdk-node/src/capture.ts:199-204 | programs that differ only in values of redacted properties are captured alike |
| `CaptureWalk.CapturePaused` | packages/sdk-node/src/capture.ts:121-283 | for every mix of immediate and late answers a capture ends, reports once, and gives the result of the plain loop |
| `CaptureWalk.Walk.Step` | packages/sdk-node/src/capture.ts:176-248 | a step runs only while no other does, and keeps the final result |
| `CaptureWalk.Walk.ProcessNext` | packages/sdk-node/src/capture.ts:266-280 | a nested call only raises the flag; an outer one ends waiting or reported |
| `CaptureWalk.Walk.Accept` | packages/sdk-node/src/capture.ts:184-247 | the loop over descriptors is the specification's |

## Left out

- HTTP routes, authentication, MCP tools, audit, catalog and command line: plumbing over libraries.
- Persistence, snapshot restore and rollback: they may reuse versions, which the cursor theorems exclude.
- Long-poll listeners, the event ring, derived service and probe statuses, capability checks: they do not move a cursor.
- The text parser, schema trimming, source-map lookup and suffix resolution of scripts: taken as given trees or functions.
- Template compilation and rendering, legacy dot paths, value serialisation: they would add easy members.
- Procfs discovery, ELF and debug information, loader messages, register and memory reads in the kernel program: foreign input.
- A send that fails after the broker accepted it: counted as undelivered, as the code does.
- Aggregates.WholeSeriesAreConsistent: goes one way only; which series of fractions the broker accepts depends on every rounding along the way.
- Jittered backoff, rate limiting of hits and telemetry: only their outcomes are parameters.
- The main loop of the native agent is a transition function on values, not a loop over mutable maps; update order within a cycle is that of its steps.
- Inspector calls that throw instead of calling back, and callbacks that come twice: not modelled.
- Expressions.Convert: error messages do not name the offending operator or node.
- BrokerObject.BrokerState.Create: the checks on backends and capabilities are one verdict given from outside, and the retries on a colliding id are one collision.
- BrokerObject.BrokerState.Complete: the sort that finds the sets to evict is stated by rank.
- BrokerObject.BrokerState.PollAssignments: the list is keyed by instance instead of sorted by it.
- EvidenceFlow.Flush: the events drained from the aggregates are a parameter, and their order is not related to the aggregates.
- ProbeManagerObject.ProbeManager.Pause: hits are counted and retired in one loop, before the resume.

/** What arming, joining, suspending and stopping achieve, stated over whole steps. */
module BreakpointArming {
  import opened BreakpointSharing
  import opened BreakpointSafety
  import opened BreakpointRuns
  import opened BreakpointCounts
  import opened BreakpointHits

  // ---- When a probe is armed ----

  /** Nothing is installed or under way for the probe, and it is not exhausted as it is defined now. */
  predicate Free(s: State, def: Definition) {
    && def.id !in s.installed && def.id !in s.tasks && (def.id in s.exhausted ==> s.exhausted[def.id] != def)
    && !s.stopped && !s.suspended && !s.inspectorFailed
  }

  /** Arming begins exactly for a free probe; for any other nothing changes. */
  lemma ArmsExactly(s: State, def: Definition, key: Key)
    requires key in s.reg.byLocation ==> s.reg.byLocation[key] in s.reg.holders
    ensures var s' := DoStartArm(s, def, key); if Free(s, def) then def.id in s'.tasks else s' == s
  {
  }

  // ---- Joining ----

  /** Probe `p` is between claim and install on holder `h`, and its claim counts. */
  ghost predicate Joined(s: State, p: ProbeId, h: HolderId) {
    && p in s.tasks && s.tasks[p].Claimed? && s.tasks[p].holder == h
    && h in s.reg.holders && p in s.reg.holders[h].claims
  }

  lemma ClaimJoins(s: State, def: Definition, key: Key)
    requires key in s.reg.byLocation && s.reg.byLocation[key] in s.reg.holders
    ensures var s' := ClaimExisting(s, def, key);
      && Joined(s', def.id, s.reg.byLocation[key]) && s'.arming == s.arming && s'.armed == s.armed
      && s'.removing == s.removing
      && s'.reg.byBreakpoint == s.reg.byBreakpoint && s'.reg.byLocation == s.reg.byLocation
  {
  }

  /** A probe at a location that has a breakpoint joins its holder, and asks V8 for nothing. */
  lemma ArmingJoins(s: State, def: Definition, key: Key)
    requires Inv(s) && Free(s, def) && key in s.reg.byLocation
    ensures Enabled(s, StartArm(def, key))
    ensures var s' := Apply(s, StartArm(def, key)); var h := s.reg.byLocation[key];
      && Joined(s', def.id, h) && s'.arming == s.arming && s'.armed == s.armed && s'.removing == s.removing
      && s'.reg.byBreakpoint == s.reg.byBreakpoint && s'.reg.byLocation == s.reg.byLocation
  {
    InvIsSound(s);
    assert s.reg.byLocation[key] in s.reg.holders;
    ClaimJoins(s, def, key);
    hide Inv, Sound, RegistryShape, ClaimExisting, Joined;
  }

  /** So does one that waited for the arm in flight there. */
  lemma WaitingJoins(s: State, p: ProbeId)
    requires Inv(s) && p in s.tasks && s.tasks[p].Waiting? && s.tasks[p].key in s.reg.byLocation
    ensures Enabled(s, ResumeWaiter(p))
    ensures var s' := Apply(s, ResumeWaiter(p)); var h := s.reg.byLocation[s.tasks[p].key];
      Joined(s', p, h) && s'.arming == s.arming && s'.armed == s.armed
  {
    InvIsSound(s);
    assert s.tasks[p].def.id == p && s.reg.byLocation[s.tasks[p].key] in s.reg.holders;
    ClaimJoins(s, s.tasks[p].def, s.tasks[p].key);
    hide Inv, Sound, RegistryShape, ClaimExisting, Joined;
  }

  /** If that arm came to nothing, the probe tries for itself. */
  lemma WaitingPosts(s: State, p: ProbeId)
    requires Inv(s) && p in s.tasks && s.tasks[p].Waiting? && s.tasks[p].key !in s.reg.byLocation
    ensures Enabled(s, ResumeWaiter(p))
    ensures var s' := Apply(s, ResumeWaiter(p)); var t := s.tasks[p];
      && p in s'.tasks && s'.tasks[p] == Posted(t.def, t.key)
      && t.key in s'.arming && s'.arming[t.key] == p && s'.reg == s.reg
  {
    InvIsSound(s);
    assert s.tasks[p].def.id == p;
    hide Inv, Sound, RegistryShape;
  }

  lemma SettlesKey(arming: map<Key, ProbeId>, key: Key, p: ProbeId)
    ensures key in SettleArming(arming, key, p) ==> SettleArming(arming, key, p)[key] != p
  {
  }

  /** The probe's attempt at the location is over, and left nothing. */
  ghost predicate AttemptOver(s: State, s': State, p: ProbeId, key: Key) {
    && p !in s'.tasks && (key in s'.arming ==> s'.arming[key] != p)
    && s'.reg == s.reg && s'.installed == s.installed
  }

  /** An attempt that V8 refuses is over at once. */
  lemma RefusedAttemptEnds(s: State, p: ProbeId, h: HolderId)
    requires p in s.tasks && s.tasks[p].Answered? && s.tasks[p].result.Refused?
    ensures AttemptOver(s, DoDeliverSet(s, p, h), p, s.tasks[p].key)
  {
    SettlesKey(s.arming, s.tasks[p].key, p);
    hide SettleArming;
  }

  /** One without a location has its breakpoint removed, and is over when that is answered. */
  lemma UnlocatedAttemptEnds(s: State, p: ProbeId, h: HolderId)
    requires p in s.tasks && s.tasks[p].Answered? && s.tasks[p].result.NoLocation?
    ensures var s' := DoDeliverSet(s, p, h); var t := s.tasks[p];
      s' == s.(tasks := s.tasks[p := Clearing(t.def, t.key)], removing := s.removing + {t.result.bp})
  {
  }

  lemma ClearedAttemptEnds(s: State, p: ProbeId)
    requires p in s.tasks && s.tasks[p].Clearing?
    ensures AttemptOver(s, DoEndDrain(s, p), p, s.tasks[p].key)
  {
    SettlesKey(s.arming, s.tasks[p].key, p);
    hide SettleArming;
  }

  /** The holder of a new breakpoint answers for the location asked for, and for the one V8 chose if that is free. */
  lemma BothLocationsLead(s: State, p: ProbeId, h: HolderId)
    requires Inv(s) && Enabled(s, DeliverSet(p, h)) && s.tasks[p].result.Armed?
    ensures var s' := Apply(s, DeliverSet(p, h)); var t := s.tasks[p]; var resolved := t.result.resolved;
      && Joined(s', p, h) && s'.reg.holders[h].bp == t.result.bp && s'.reg.byBreakpoint[t.result.bp] == h
      && t.key in s'.reg.byLocation && s'.reg.byLocation[t.key] == h
      && (resolved.Some? && resolved.value !in s.reg.byLocation ==>
            resolved.value in s'.reg.byLocation && s'.reg.byLocation[resolved.value] == h)
      && (resolved.Some? && resolved.value in s.reg.byLocation && resolved.value != t.key ==>
            s'.reg.byLocation[resolved.value] == s.reg.byLocation[resolved.value])
  {
    hide Inv, RegistryShape;
  }

  /** A later probe that names the position V8 resolved to shares the breakpoint. */
  lemma ResolvedLocationIsShared(s: State, p: ProbeId, h: HolderId, def: Definition)
    requires Inv(s) && Enabled(s, DeliverSet(p, h)) && s.tasks[p].result.Armed?
    requires s.tasks[p].result.resolved.Some? && s.tasks[p].result.resolved.value !in s.reg.byLocation
    requires Free(Apply(s, DeliverSet(p, h)), def)
    ensures var next := Apply(s, DeliverSet(p, h)); var key := s.tasks[p].result.resolved.value;
      Enabled(next, StartArm(def, key)) && Joined(Apply(next, StartArm(def, key)), def.id, h)
  {
    hide Inv, Free;
    BothLocationsLead(s, p, h);
    StepKeepsInv(s, DeliverSet(p, h));
    hide Apply, Enabled;
    ArmingJoins(Apply(s, DeliverSet(p, h)), def, s.tasks[p].result.resolved.value);
  }

  // ---- Installing ----

  /** A claimed probe that is still wanted is installed with no hits; one that is not lets its claim go. */
  lemma ClaimEnds(s: State, p: ProbeId, i: InstallId)
    requires Inv(s) && Enabled(s, FinishArm(p, i))
    ensures var s' := Apply(s, FinishArm(p, i)); var t := s.tasks[p];
      if p in s.desired && s.desired[p] == t.def && !s.stopped && !s.suspended then
        && p in s'.installed && s'.installed[p] == Installed(i, t.def, s.reg.holders[t.holder].bp) && p !in s'.tasks
        && i in s'.counters && s'.counters[i] == Counters(t.def, true, 0, 0, 0)
      else p !in s'.installed && t.holder in s'.reg.holders && p !in s'.reg.holders[t.holder].claims
  {
    InvIsSound(s);
    TaskIsFree(s, p);
    hide Inv, Sound, RegistryShape, Release, Freed;
    var t := s.tasks[p];
    if !StillWanted(s, t.def) {
      ReleaseDrops(s.reg, t.holder, p);
    }
  }

  lemma ReleaseDrops(r: Registry, h: HolderId, p: ProbeId)
    requires h in r.holders && RegistryShape(r)
    ensures h in Release(r, h, p).holders && p !in Release(r, h, p).holders[h].claims
  {
  }

  /** Where nothing is armed yet, a set is posted, and only once for a location. */
  lemma ArmingPosts(s: State, def: Definition, key: Key)
    requires Inv(s) && Free(s, def) && key !in s.reg.byLocation
    ensures Enabled(s, StartArm(def, key))
    ensures var s' := Apply(s, StartArm(def, key));
      def.id in s'.tasks && s'.tasks[def.id] == (if key in s.arming then Waiting(def, key) else Posted(def, key))
  {
    InvIsSound(s);
    hide Inv, Sound, RegistryShape;
  }

  // ---- Suspension, stop, failure ----

  /** Nothing is installed, registered or active any more, and captures in flight will not count. */
  ghost predicate AllGone(s: State, s': State) {
    && s'.installed == map[] && s'.reg.byBreakpoint == map[] && s'.reg.byLocation == map[]
    && s'.epoch == s.epoch + 1
    && forall p | p in s.installed && s.installed[p].i in s'.counters ::
         !s'.counters[s.installed[p].i].active && s'.counters[s.installed[p].i].pending == 0
  }

  lemma ClearedIsGone(s: State)
    ensures AllGone(s, Cleared(s))
  {
    assert forall p | p in s.installed :: s.installed[p].i in InstallIds(s.installed);
    hide ClearRegistry;
    assert ClearRegistry(s.reg).byBreakpoint == map[]
        && ClearRegistry(s.reg).byLocation == map[] by { ClearsMaps(s.reg); }
  }

  lemma ClearsMaps(r: Registry)
    ensures ClearRegistry(r).byBreakpoint == map[] && ClearRegistry(r).byLocation == map[]
  {
  }

  /** A suspension takes everything down and has every registered breakpoint removed. */
  lemma SuspensionTakesEffect(s: State)
    requires !s.stopped && !s.suspended
    ensures var s' := DoSuspendAll(s);
      && AllGone(s, s') && s'.suspended && s'.desired == s.desired && s'.exhausted == s.exhausted
      && s'.unposted == s.unposted + s.reg.byBreakpoint.Keys
  {
    ClearedIsGone(s);
    hide ClearRegistry, Deactivate, InstallIds;
  }

  /** So does a stop, which also forgets what was desired and lets nothing be armed again. */
  lemma StopTakesEffect(s: State, def: Definition)
    requires !s.stopped
    ensures var s' := DoStop(s);
      && AllGone(s, s') && s'.stopped && s'.desired == map[] && s'.removing == s.removing + s.reg.byBreakpoint.Keys
      && !Free(s', def)
  {
    ClearedIsGone(s);
    hide ClearRegistry, Deactivate, InstallIds;
  }

  /** While suspended nothing is armed and no pause captures; a rearm ends that. */
  lemma SuspendedIsIdle(s: State, def: Definition, hit: set<BreakpointId>)
    requires s.suspended
    ensures !Free(s, def) && Candidates(s, hit) == {}
    ensures !s.stopped && !s.inspectorFailed ==> !DoRearm(s).suspended && DoRearm(s).desired == s.desired
  {
  }

  /** A lost session takes everything down for good and removes nothing. */
  lemma LostSessionTakesEffect(s: State, lost: Option<CaptureId>, def: Definition)
    requires Sound(s) && !s.inspectorFailed && (lost.Some? ==> lost.value in s.captures)
    ensures var s' := DoResumeFailed(s, lost);
      && AllGone(s, s') && s'.inspectorFailed && s'.suspended && s'.removing == s.removing && s'.unposted == s.unposted
      && s'.orphans == s.orphans + s.reg.byBreakpoint.Keys
      && !Free(s', def) && !Free(DoRearm(s'), def)
  {
    var released := if lost.None? then s else Settled(s, lost.value);
    ClearedIsGone(released);
    hide ClearRegistry, Deactivate, InstallIds, Sound, ReleasePending;
  }

  // ---- The epoch ----

  lemma {:induction false} NextMapHolds(next: seq<Definition>, k: nat)
    requires k < |next| && forall i, j | 0 <= i < j < |next| :: next[i].id != next[j].id
    ensures next[k].id in NextMap(next) && NextMap(next)[next[k].id] == next[k]
    decreases |next|
  {
    if k < |next| - 1 { NextMapHolds(next[..|next| - 1], k); }
  }

  lemma {:induction false} NextMapKeys(next: seq<Definition>)
    requires forall i, j | 0 <= i < j < |next| :: next[i].id != next[j].id
    ensures |NextMap(next)| == |next|
    ensures forall p | p in NextMap(next) ::
      exists k :: 0 <= k < |next| && next[k].id == p && NextMap(next)[p] == next[k]
    decreases |next|
  {
    if next != [] {
      var front, last := next[..|next| - 1], next[|next| - 1];
      NextMapKeys(front);
      assert last.id !in NextMap(front);
      assert NextMap(next).Keys == NextMap(front).Keys + {last.id};
      assert |NextMap(next)| == |NextMap(next).Keys| && |NextMap(front)| == |NextMap(front).Keys|;
      forall p | p in NextMap(next)
        ensures exists k :: 0 <= k < |next| && next[k].id == p && NextMap(next)[p] == next[k]
      {
        if p == last.id {
          assert next[|next| - 1] == last;
        } else {
          var k :| 0 <= k < |front| && front[k].id == p && NextMap(front)[p] == front[k];
          assert next[k] == front[k];
        }
      }
    }
  }

  lemma EqualMaps(a: map<ProbeId, Definition>, b: map<ProbeId, Definition>)
    requires |a| == |b| && forall p | p in a :: p in b && b[p] == a[p]
    ensures a == b
  {
    assert |a.Keys| == |a| && |b.Keys| == |b| && a.Keys <= b.Keys;
    var rest := b.Keys - a.Keys;
    assert |rest| == |b.Keys| - |a.Keys|;
    assert a.Keys == b.Keys;
  }

  /** The epoch moves, and captures in flight are void, exactly if the list of definitions changed. */
  lemma EpochFollowsTheList(s: State, next: seq<Definition>, snapshot: seq<Installed>)
    requires !s.stopped && forall i, j | 0 <= i < j < |next| :: next[i].id != next[j].id
    ensures DoReconcileBegin(s, next, snapshot).epoch == s.epoch + (if NextMap(next) == s.desired then 0 else 1)
  {
    DiffersExactly(s.desired, next);
    hide NextMap, Unwanted, Differs;
  }

  lemma DiffersExactly(desired: map<ProbeId, Definition>, next: seq<Definition>)
    requires forall i, j | 0 <= i < j < |next| :: next[i].id != next[j].id
    ensures Differs(desired, next) <==> NextMap(next) != desired
  {
    NextMapKeys(next);
    if NextMap(next) == desired {
      forall k | 0 <= k < |next| ensures Wanted(desired, next[k]) { NextMapHolds(next, k); }
    } else if !Differs(desired, next) {
      hide NextMap;
      forall p | p in NextMap(next) ensures p in desired && desired[p] == NextMap(next)[p] {
        var k :| 0 <= k < |next| && next[k].id == p && NextMap(next)[p] == next[k];
        assert Wanted(desired, next[k]);
      }
      EqualMaps(NextMap(next), desired);
    }
  }
}

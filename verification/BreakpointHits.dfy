/**
 What a pause and a finished capture do to the counts, stated over whole steps: which probes get a
 hit, which of them end, and that nothing else changes.
 */
module BreakpointHits {
  import opened BreakpointSharing
  import opened BreakpointSafety
  import opened BreakpointSteps
  import opened BreakpointRuns
  import opened BreakpointCounts
  import opened BreakpointEffects

  /** Hits of these two kinds queue an event of their own. */
  predicate Emits(kind: Kind) {
    kind.Snapshot? || kind.Log?
  }

  /** Probe `p` is among the installations `ids`, and one more hit uses up its limit. */
  ghost predicate Ends(s: State, ids: set<InstallId>, p: ProbeId) {
    && p in s.installed && s.installed[p].i in ids && s.installed[p].i in s.counters
    && s.counters[s.installed[p].i].hits + 1 >= s.installed[p].def.hitLimit
  }

  ghost predicate CountersMove(s: State, s': State, ids: set<InstallId>) {
    && s'.counters.Keys == s.counters.Keys
    && forall i | i in s.counters ::
         && s'.counters[i].def == s.counters[i].def
         && s'.counters[i].hits == s.counters[i].hits + (if i in ids then 1 else 0)
         && s'.counters[i].emitted == s.counters[i].emitted
             + (if i in ids && Emits(s.counters[i].def.kind) then 1 else 0)
  }

  ghost predicate ProbesMove(s: State, s': State, ids: set<InstallId>) {
    forall p ::
      && (p in s'.installed <==> p in s.installed && !Ends(s, ids, p))
      && (p in s'.installed ==> s'.installed[p] == s.installed[p])
  }

  ghost predicate ExhaustedMoves(s: State, s': State, ids: set<InstallId>) {
    forall p ::
      if Ends(s, ids, p) then p in s'.exhausted && s'.exhausted[p] == s.installed[p].def
      else
        && (p in s'.exhausted <==> p in s.exhausted)
        && (p in s.exhausted ==> s'.exhausted[p] == s.exhausted[p])
  }

  /**
   Exactly the installations `ids` get one hit each. Those whose last hit it is leave and become
   exhausted; every other probe stays as it was.
   */
  ghost predicate OneHitEach(s: State, s': State, ids: set<InstallId>) {
    CountersMove(s, s', ids) && ProbesMove(s, s', ids) && ExhaustedMoves(s, s', ids)
  }

  // ---- One hit ----

  lemma ObjectOf(s: State, i: InstallId)
    requires Sound(s)
    ensures Current(s, i) <==> exists p :: p in s.installed && s.installed[p].i == i
    ensures Current(s, i) ==> forall p | p in s.installed && s.installed[p].i == i :: p == s.counters[i].def.id
  {
    hide HitsOk, SnapshotOk, ExhaustedOk, Grounded;
    if p :| p in s.installed && s.installed[p].i == i {
      assert s.counters[i].def == s.installed[p].def;
    }
  }

  lemma RetireEffect(s: State, i: InstallId)
    requires Current(s, i) && RegistryShape(s.reg)
    ensures var s' := Retire(s, i); var p := s.counters[i].def.id;
      && s'.installed == s.installed - {p} && s'.exhausted == s.exhausted[p := s.counters[i].def]
      && s'.counters == Deactivate(s.counters, {i})
  {
    hide ReleaseFor, FreedFor, RegistryShape, Deactivate;
  }

  lemma CountHitParts(s: State, i: InstallId)
    requires Current(s, i) && RegistryShape(s.reg)
    ensures var s' := CountHit(s, i); var p := s.counters[i].def.id;
      var bumped := s.counters[i := Bumped(s.counters[i])];
      if s.counters[i].hits + 1 >= s.counters[i].def.hitLimit then
        && s'.installed == s.installed - {p} && s'.exhausted == s.exhausted[p := s.counters[i].def]
        && s'.counters == Deactivate(bumped, {i})
      else s'.installed == s.installed && s'.exhausted == s.exhausted && s'.counters == bumped
  {
    hide RegistryShape, Retire, Deactivate;
    var counted := s.(counters := s.counters[i := Bumped(s.counters[i])]);
    if counted.counters[i].hits >= counted.counters[i].def.hitLimit { RetireEffect(counted, i); }
  }

  lemma EndsAlone(s: State, i: InstallId)
    requires Sound(s) && Current(s, i)
    ensures var p := s.counters[i].def.id;
      && p in s.installed && s.installed[p].def == s.counters[i].def
      && (Ends(s, {i}, p) <==> s.counters[i].hits + 1 >= s.counters[i].def.hitLimit)
      && (forall q | q != p :: !Ends(s, {i}, q))
  {
    ObjectOf(s, i);
    hide HitsOk, SnapshotOk, ExhaustedOk, Grounded, Apart;
  }

  lemma OneCounterMoves(s: State, s': State, i: InstallId)
    requires i in s.counters
    requires var bumped := s.counters[i := Bumped(s.counters[i])];
      s'.counters == bumped || s'.counters == Deactivate(bumped, {i})
    ensures CountersMove(s, s', {i})
  {
  }

  lemma OneProbeMoves(s: State, s': State, i: InstallId, p: ProbeId)
    requires p in s.installed && forall q | q != p :: !Ends(s, {i}, q)
    requires if Ends(s, {i}, p) then s'.installed == s.installed - {p}
               && s'.exhausted == s.exhausted[p := s.installed[p].def]
             else s'.installed == s.installed && s'.exhausted == s.exhausted
    ensures ProbesMove(s, s', {i}) && ExhaustedMoves(s, s', {i})
  {
    hide Ends;
  }

  lemma CountHitEffect(s: State, i: InstallId)
    requires Sound(s) && Current(s, i) && RegistryShape(s.reg)
    ensures OneHitEach(s, CountHit(s, i), {i})
  {
    EndsAlone(s, i);
    CountHitParts(s, i);
    hide Sound, RegistryShape, Ends, CountHit, CountersMove, ProbesMove, ExhaustedMoves, Deactivate, Bumped;
    OneCounterMoves(s, CountHit(s, i), i);
    OneProbeMoves(s, CountHit(s, i), i, s.counters[i].def.id);
  }

  // ---- A row of hits ----

  /** The installations of `ids` that are in use. */
  ghost function InUse(s: State, ids: set<InstallId>): set<InstallId> {
    set p | p in s.installed && s.installed[p].i in ids :: s.installed[p].i
  }

  lemma InUseIs(s: State, ids: set<InstallId>, i: InstallId)
    requires Sound(s)
    ensures i in InUse(s, ids) <==> i in ids && Current(s, i)
  {
    ObjectOf(s, i);
    hide Sound, Current;
  }

  lemma CountersCompose(s: State, s1: State, s2: State, i: InstallId, ids: set<InstallId>)
    requires CountersMove(s, s1, {i}) && CountersMove(s1, s2, ids) && i !in ids
    ensures CountersMove(s, s2, {i} + ids)
  {
  }

  /** Where one installation is hit first, another ends with the rest exactly if it would have before. */
  lemma EndsCompose(s: State, s1: State, i: InstallId, ids: set<InstallId>, p: ProbeId)
    requires CountersMove(s, s1, {i}) && ProbesMove(s, s1, {i}) && i !in ids
    ensures Ends(s, {i} + ids, p) <==> Ends(s, {i}, p) || Ends(s1, ids, p)
    ensures !(Ends(s, {i}, p) && Ends(s1, ids, p))
    ensures Ends(s1, ids, p) ==> p in s.installed && s1.installed[p] == s.installed[p]
  {
  }

  lemma Compose(s: State, s1: State, s2: State, i: InstallId, ids: set<InstallId>)
    requires OneHitEach(s, s1, {i}) && OneHitEach(s1, s2, ids) && i !in ids
    ensures OneHitEach(s, s2, {i} + ids)
  {
    CountersCompose(s, s1, s2, i, ids);
    forall p
      ensures p in s2.installed <==> p in s.installed && !Ends(s, {i} + ids, p)
      ensures p in s2.installed ==> s2.installed[p] == s.installed[p]
      ensures if Ends(s, {i} + ids, p) then p in s2.exhausted && s2.exhausted[p] == s.installed[p].def
        else (p in s2.exhausted <==> p in s.exhausted) && (p in s.exhausted ==> s2.exhausted[p] == s.exhausted[p])
    {
      EndsCompose(s, s1, i, ids, p);
      ComposeAt(s, s1, s2, i, ids, p);
    }
    hide CountersMove, Ends;
  }

  lemma ComposeAt(s: State, s1: State, s2: State, i: InstallId, ids: set<InstallId>, p: ProbeId)
    requires ProbesMove(s, s1, {i}) && ProbesMove(s1, s2, ids) && ExhaustedMoves(s, s1, {i})
        && ExhaustedMoves(s1, s2, ids)
    requires Ends(s, {i} + ids, p) <==> Ends(s, {i}, p) || Ends(s1, ids, p)
    requires !(Ends(s, {i}, p) && Ends(s1, ids, p))
    requires Ends(s1, ids, p) ==> p in s.installed && p in s1.installed && s1.installed[p] == s.installed[p]
    ensures p in s2.installed <==> p in s.installed && !Ends(s, {i} + ids, p)
    ensures p in s2.installed ==> s2.installed[p] == s.installed[p]
    ensures if Ends(s, {i} + ids, p) then p in s2.exhausted && s2.exhausted[p] == s.installed[p].def
      else (p in s2.exhausted <==> p in s.exhausted) && (p in s.exhausted ==> s2.exhausted[p] == s.exhausted[p])
  {
    hide Ends;
  }

  lemma NoHits(s: State)
    ensures OneHitEach(s, s, {})
  {
  }

  lemma {:induction false} CountAllEffect(s: State, order: seq<InstallId>, matching: set<InstallId>,
                                          ids: set<InstallId>)
    requires Sound(s) && RegistryShape(s.reg)
    requires forall j, k | 0 <= j < k < |order| :: order[j] != order[k]
    requires forall i | i in order && i in matching && Current(s, i) :: HasRoom(s.counters[i])
    requires forall i :: i in ids <==> i in order && i in matching && Current(s, i)
    ensures OneHitEach(s, CountAll(s, order, matching), ids)
    decreases |order|
  {
    hide Sound, CountHit, OneHitEach;
    if order == [] {
      assert ids == {};
      NoHits(s);
    } else {
      var i, rest := order[0], order[1..];
      assert i !in rest && forall j :: j in order <==> j == i || j in rest;
      if i in matching && Current(s, i) {
        CountHitEffect(s, i);
        CountHitSound(s, i);
        forall j ensures j != i ==> (Current(CountHit(s, i), j) <==> Current(s, j)) { CountHitHits(s, i, j); }
        hide Current;
        var s1 := CountHit(s, i);
        assert forall j | j in rest && j in matching && Current(s1, j) :: j in order && j != i;
        CountAllEffect(s1, rest, matching, ids - {i});
        Compose(s, s1, CountAll(s1, rest, matching), i, ids - {i});
        assert {i} + (ids - {i}) == ids;
      } else {
        CountAllEffect(s, rest, matching, ids);
      }
    }
  }

  /** Only pendings and captures differ. */
  lemma FrameHits(s: State, s1: State, s2: State, ids: set<InstallId>)
    requires OneHitEach(s1, s2, ids) && s1.installed == s.installed && s1.exhausted == s.exhausted
    requires s1.counters.Keys == s.counters.Keys
    requires forall i | i in s.counters ::
      && s1.counters[i].def == s.counters[i].def
      && s1.counters[i].hits == s.counters[i].hits && s1.counters[i].emitted == s.counters[i].emitted
    ensures OneHitEach(s, s2, ids)
  {
    assert forall p :: Ends(s, ids, p) <==> Ends(s1, ids, p);
    hide Ends;
  }

  // ---- A finished capture ----

  /** Whether a capture that is done still counts. */
  ghost predicate StillCounts(s: State, c: CaptureId, failed: bool) {
    c in s.captures && !failed && s.captures[c].epoch == s.epoch && !s.stopped && !s.suspended && !s.inspectorFailed
  }

  lemma SettledParts(s: State, c: CaptureId)
    requires c in s.captures
    ensures var t := Settled(s, c);
      && t.installed == s.installed && t.exhausted == s.exhausted && t.reg == s.reg
          && t.counters.Keys == s.counters.Keys
      && t.epoch == s.epoch
      && (forall i | i in s.counters ::
            && t.counters[i].def == s.counters[i].def && t.counters[i].active == s.counters[i].active
            && t.counters[i].hits == s.counters[i].hits && t.counters[i].emitted == s.counters[i].emitted)
  {
  }

  /**
   A capture that succeeded, in the present epoch and with nothing stopped, suspended or lost, gives
   one hit to each of its probes that is still installed and whose condition matched. Any other
   capture gives none.
   */
  lemma CaptureHits(s: State, c: CaptureId, failed: bool, order: seq<InstallId>, matching: set<InstallId>)
    requires Sound(s) && Enabled(s, ProcessCapture(c, failed, order, matching))
    ensures var ids := if StillCounts(s, c, failed) then InUse(s, s.captures[c].candidates * matching) else {};
      OneHitEach(s, Apply(s, ProcessCapture(c, failed, order, matching)), ids)
  {
    var t := Settled(s, c);
    SettledSound(s, c);
    SettledParts(s, c);
    if StillCounts(s, c, failed) {
      var ids := InUse(s, s.captures[c].candidates * matching);
      forall i ensures i in ids <==> i in order && i in matching && Current(t, i) {
        InUseIs(s, s.captures[c].candidates * matching, i);
      }
      hide Sound, Settled, CountAll, InUse, OneHitEach, RegistryShape;
      CountAllEffect(t, order, matching, ids);
      FrameHits(s, t, CountAll(t, order, matching), ids);
    } else {
      hide Sound, Settled, CountAll, OneHitEach, RegistryShape;
      NoHits(t);
      FrameHits(s, t, t, {});
    }
  }

  // ---- A pause ----

  lemma InvIsSound(s: State)
    requires Inv(s)
    ensures Sound(s) && RegistryShape(s.reg)
  {
    hide HitsOk, LiveOk, ExhaustedOk, SnapshotOk, ArmedOk;
  }

  /** The installations of the affected probes, only those that count without a capture if `counters`. */
  ghost function AffectedIds(s: State, hit: set<BreakpointId>, counters: bool): set<InstallId> {
    set p | p in s.installed && Affected(s, hit, p)
            && (counters ==> s.installed[p].def.kind.Counter? && !s.installed[p].def.conditional) :: s.installed[p].i
  }

  lemma CandidatesAre(s: State, hit: set<BreakpointId>)
    requires Inv(s)
    ensures Candidates(s, hit) == AffectedIds(s, hit, false)
  {
    hide Inv, Candidates;
    forall i ensures i in Candidates(s, hit) <==> i in AffectedIds(s, hit, false) {
      PauseReachesItsProbes(s, hit, i);
    }
  }

  lemma CountedAre(s: State, hit: set<BreakpointId>)
    requires Inv(s)
    ensures Counted(s, Candidates(s, hit)) == AffectedIds(s, hit, true)
  {
    CandidatesAre(s, hit);
    InvIsSound(s);
    forall i ensures i in Counted(s, Candidates(s, hit)) <==> i in AffectedIds(s, hit, true) {
      if i in AffectedIds(s, hit, false) {
        var p :| p in s.installed && Affected(s, hit, p) && s.installed[p].i == i;
        assert s.counters[i].def == s.installed[p].def;
        ObjectOf(s, i);
      }
    }
  }

  /** Without a token, exactly the affected unconditional counters get a hit, and nothing is captured. */
  lemma RateLimitedPauseHits(s: State, hit: set<BreakpointId>, order: seq<InstallId>, c: CaptureId)
    requires Inv(s) && Enabled(s, HandlePaused(hit, false, order, c))
    ensures var s' := Apply(s, HandlePaused(hit, false, order, c));
      OneHitEach(s, s', AffectedIds(s, hit, true))
  {
    InvIsSound(s);
    CandidatesAre(s, hit);
    CountedAre(s, hit);
    var ids := AffectedIds(s, hit, true);
    forall i ensures i in ids ==> Current(s, i) && HasRoom(s.counters[i]) {
      if i in ids {
        var p :| p in s.installed && Affected(s, hit, p) && s.installed[p].i == i;
        ObjectOf(s, i);
      }
    }
    hide Inv, Sound, Candidates, Counted, CountAll, OneHitEach, RegistryShape, AffectedIds, Current;
    if Candidates(s, hit) == {} {
      assert ids == {} by { CountedOfNone(s); }
      NoHits(s);
    } else {
      CountAllEffect(s, order, ids, ids);
    }
  }

  lemma CountedOfNone(s: State)
    ensures Counted(s, {}) == {}
  {
  }

  /** With one, exactly the affected probes are captured for, in the present epoch, and no hit counts yet. */
  lemma CapturingPause(s: State, hit: set<BreakpointId>, order: seq<InstallId>, c: CaptureId)
    requires Inv(s) && Enabled(s, HandlePaused(hit, true, order, c))
    ensures var s' := Apply(s, HandlePaused(hit, true, order, c)); var ids := AffectedIds(s, hit, false);
      && OneHitEach(s, s', {})
      && s'.captures == (if ids == {} then s.captures else s.captures[c := Capture(ids, s.epoch)])
      && forall i | i in s.counters :: s'.counters[i].pending == s.counters[i].pending + (if i in ids then 1 else 0)
  {
    CandidatesAre(s, hit);
    hide Inv, Candidates, Counted, CountAll, RegistryShape, AffectedIds, OneHitEach, AddPending;
    NoHits(s);
    var ids := AffectedIds(s, hit, false);
    PendingOnly(s, ids, c);
  }

  lemma PendingOnly(s: State, ids: set<InstallId>, c: CaptureId)
    ensures var s' := s.(counters := AddPending(s.counters, ids), captures := s.captures[c := Capture(ids, s.epoch)]);
      OneHitEach(s, s', {})
    ensures forall i | i in s.counters ::
      i in AddPending(s.counters, ids)
      && AddPending(s.counters, ids)[i].pending == s.counters[i].pending + (if i in ids then 1 else 0)
    ensures ids == {} ==> AddPending(s.counters, ids) == s.counters
  {
    assert forall p :: !Ends(s, {}, p);
    hide Ends;
  }
}

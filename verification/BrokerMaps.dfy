/** The source-map protocol over whole runs: whom the lease excludes, what a completed set holds, what is evicted. */
module BrokerMaps {
  import opened Broker
  import opened BrokerCursors
  import opened BrokerRuns

  // ---- Claims ----

  /** The answer to a claim tells the truth about the set and the lease, and a grant lasts two minutes. */
  lemma ClaimExactly(s: State, key: MapKey, uploader: AgentId, now: Time)
    ensures var (s', r) := SourceMapStatus(s, key, uploader, now);
      && (r.isComplete <==> key in s.sets && s.sets[key].complete)
      && (r.isUploader <==> HoldsLease(s', key, uploader, now) && !r.isComplete)
      && (!r.isComplete && !r.isUploader ==> exists b :: b != uploader && HoldsLease(s, key, b, now))
      && (r.isUploader ==> forall later | later < now + 120_000 :: HoldsLease(s', key, uploader, later))
      && (r.isUploader ==> forall b | b != uploader :: !HoldsLease(s, key, b, now))
      && (!r.isUploader ==> s' == s)
      && s'.sets.Keys == s.sets.Keys && s' == s.(sets := s'.sets, leases := s'.leases)
  {
    if !SourceMapStatus(s, key, uploader, now).1.isComplete && !SourceMapStatus(s, key, uploader, now).1.isUploader {
      assert HoldsLease(s, key, s.leases[key].uploader, now);
    }
  }

  /** An upload is accepted exactly from the leaseholder and if it is valid; either way it renews the lease. */
  lemma UploadExactly(s: State, key: MapKey, uploader: AgentId, path: Path, content: Content, valid: bool, now: Time)
    ensures var (s', r) := UploadSourceMap(s, key, uploader, path, content, valid, now);
      && (r.Ok? <==> HoldsLease(s, key, uploader, now) && valid)
      && (r == Err(NotUploader) <==> !HoldsLease(s, key, uploader, now))
      && (HoldsLease(s, key, uploader, now) ==>
            forall later :: HoldsLease(s', key, uploader, later) <==> later < now + 120_000)
      && (r == Err(NotUploader) ==> s' == s) && (r.Err? ==> s'.sets == s.sets)
      && (forall other | other != key :: LeaseOf(s', other) == LeaseOf(s, other))
  {
    hide PutMap;
  }

  // ---- One step, while the lease stays with one agent ----

  function MapsOf(s: State, key: MapKey): seq<MapEntry> {
    if key in s.sets then s.sets[key].maps else []
  }

  ghost predicate Leased(s: State, key: MapKey, a: AgentId) {
    key in s.leases && s.leases[key].uploader == a
  }

  /** The upload was accepted. */
  predicate Uploads(s: State, op: Op, now: Time, key: MapKey, a: AgentId, path: Path, content: Content) {
    op == OpUpload(key, a, path, content, true) && HoldsLease(s, key, a, now)
  }

  lemma ClaimKeepsMaps(s: State, key: MapKey, b: AgentId, now: Time, other: MapKey, a: AgentId)
    requires Leased(s, other, a) && Leased(SourceMapStatus(s, key, b, now).0, other, a)
    ensures MapsOf(SourceMapStatus(s, key, b, now).0, other) == MapsOf(s, other)
  {
  }

  lemma UploadKeepsMaps(s: State, key: MapKey, b: AgentId, path: Path, content: Content, valid: bool, now: Time,
                        other: MapKey)
    ensures MapsOf(UploadSourceMap(s, key, b, path, content, valid, now).0, other) ==
      if other == key && valid && HoldsLease(s, key, b, now) then PutMap(MapsOf(s, key), MapEntry(path, content, b))
      else MapsOf(s, other)
  {
    hide PutMap;
  }

  lemma CompleteKeepsMaps(s: State, key: MapKey, b: AgentId, now: Time, other: MapKey, a: AgentId)
    requires Leased(CompleteSourceMaps(s, key, b, now).0, other, a)
    ensures MapsOf(CompleteSourceMaps(s, key, b, now).0, other) == MapsOf(s, other)
  {
    hide Evicted, BumpReached;
  }

  /** Only an accepted upload of the leaseholder changes the maps of a set whose lease it keeps. */
  lemma SessionStep(s: State, op: Op, now: Time, key: MapKey, a: AgentId)
    requires Leased(s, key, a) && Leased(Apply(s, op, now), key, a)
    ensures if op.OpUpload? && Uploads(s, op, now, key, a, op.path, op.content)
      then MapsOf(Apply(s, op, now), key) == PutMap(MapsOf(s, key), MapEntry(op.path, op.content, a))
      else MapsOf(Apply(s, op, now), key) == MapsOf(s, key)
  {
    hide SourceMapStatus, UploadSourceMap, CompleteSourceMaps;
    if op.OpClaim? {
      ClaimKeepsMaps(s, op.key, op.uploader, now, key, a);
    } else if op.OpUpload? {
      UploadKeepsMaps(s, op.key, op.uploader, op.path, op.content, op.valid, now, key);
    } else if op.OpComplete? {
      CompleteKeepsMaps(s, op.key, op.uploader, now, key, a);
    } else {
      OthersKeepLeases(s, op, now);
      hide Apply;
    }
  }

  /** A lease that is new to its holder starts with no maps. */
  lemma SessionStarts(s: State, op: Op, now: Time, key: MapKey, a: AgentId)
    requires !Leased(s, key, a) && Leased(Apply(s, op, now), key, a)
    ensures MapsOf(Apply(s, op, now), key) == []
  {
    LeaseChange(s, op, now, key);
  }

  // ---- The last upload of each path ----

  ghost predicate Distinct(maps: seq<MapEntry>) {
    forall i, j | 0 <= i < j < |maps| :: maps[i].path != maps[j].path
  }

  lemma {:induction false} PutMapExactly(maps: seq<MapEntry>, entry: MapEntry, e: MapEntry)
    requires Distinct(maps)
    ensures e in PutMap(maps, entry) <==> e == entry || (e in maps && e.path != entry.path)
  {
    if maps != [] {
      PutMapExactly(maps[1..], entry, e);
      assert maps == [maps[0]] + maps[1..];
      assert e in maps <==> e == maps[0] || e in maps[1..];
      assert forall x | x in maps[1..] :: x.path != maps[0].path;
    }
  }

  lemma {:induction false} PutMapDistinct(maps: seq<MapEntry>, entry: MapEntry)
    requires Distinct(maps)
    ensures Distinct(PutMap(maps, entry))
  {
    if maps != [] && maps[0].path != entry.path {
      PutMapDistinct(maps[1..], entry);
      var rest := PutMap(maps[1..], entry);
      forall k | 0 <= k < |rest| ensures rest[k].path != maps[0].path {
        PutMapExactly(maps[1..], entry, rest[k]);
        assert forall x | x in maps[1..] :: x.path != maps[0].path;
      }
    }
  }

  /** The accepted upload at step `u` is the last one of its path before `k`. */
  ghost predicate LastUpload(
    states: seq<State>, ops: seq<Op>, times: seq<Time>, m: nat, k: nat, key: MapKey, a: AgentId, path: Path,
    content: Content, u: nat)
    requires Run(states, ops, times) && k <= |ops|
  {
    && m <= u < k && Uploads(states[u], ops[u], times[u], key, a, path, content)
    && forall v, c | u < v < k :: !Uploads(states[v], ops[v], times[v], key, a, path, c)
  }

  ghost predicate Current(
    states: seq<State>, ops: seq<Op>, times: seq<Time>, m: nat, k: nat, key: MapKey, a: AgentId, path: Path,
    content: Content)
    requires Run(states, ops, times) && k <= |ops|
  {
    exists u: nat :: LastUpload(states, ops, times, m, k, key, a, path, content, u)
  }

  /** The maps of the set are exactly the last uploads since step `m`. */
  ghost predicate HoldsUploads(
    states: seq<State>, ops: seq<Op>, times: seq<Time>, m: nat, k: nat, key: MapKey, a: AgentId, maps: seq<MapEntry>)
    requires Run(states, ops, times) && k <= |ops|
  {
    && Distinct(maps) && AllBy(maps, a)
    && forall path, content ::
         MapEntry(path, content, a) in maps <==> Current(states, ops, times, m, k, key, a, path, content)
  }

  lemma LastUploadNow(
    states: seq<State>, ops: seq<Op>, times: seq<Time>, m: nat, k: nat, key: MapKey, a: AgentId, path: Path,
    content: Content)
    requires Run(states, ops, times) && m <= k < |ops|
    ensures Current(states, ops, times, m, k + 1, key, a, path, content) <==>
      || Uploads(states[k], ops[k], times[k], key, a, path, content)
      || (&& Current(states, ops, times, m, k, key, a, path, content)
          && !exists c :: Uploads(states[k], ops[k], times[k], key, a, path, c))
  {
    hide HoldsLease, Apply;
    if Uploads(states[k], ops[k], times[k], key, a, path, content) {
      assert LastUpload(states, ops, times, m, k + 1, key, a, path, content, k);
    } else if u: nat :| LastUpload(states, ops, times, m, k, key, a, path, content, u) {
      if !exists c :: Uploads(states[k], ops[k], times[k], key, a, path, c) {
        assert LastUpload(states, ops, times, m, k + 1, key, a, path, content, u);
      }
    }
    if Current(states, ops, times, m, k + 1, key, a, path, content) {
      var n := k + 1;
      var u: nat :| LastUpload(states, ops, times, m, n, key, a, path, content, u);
      if u < k {
        assert LastUpload(states, ops, times, m, k, key, a, path, content, u);
      }
    }
  }

  lemma UploadsAdvance(
    states: seq<State>, ops: seq<Op>, times: seq<Time>, m: nat, k: nat, key: MapKey, a: AgentId)
    requires Run(states, ops, times) && m <= k < |ops|
    requires Leased(states[k], key, a) && Leased(states[k + 1], key, a)
    requires HoldsUploads(states, ops, times, m, k, key, a, MapsOf(states[k], key))
    ensures HoldsUploads(states, ops, times, m, k + 1, key, a, MapsOf(states[k + 1], key))
  {
    var s, op, now := states[k], ops[k], times[k];
    SessionStep(s, op, now, key, a);
    var maps, maps' := MapsOf(states[k], key), MapsOf(states[k + 1], key);
    hide MapsOf, Apply, HoldsLease, Leased, Current;
    if op.OpUpload? && Uploads(s, op, now, key, a, op.path, op.content) {
      var entry := MapEntry(op.path, op.content, a);
      PutMapDistinct(maps, entry);
      PutMapBy(maps, entry);
      forall path, content
        ensures MapEntry(path, content, a) in maps' <==> Current(states, ops, times, m, k + 1, key, a, path, content)
      {
        PutMapExactly(maps, entry, MapEntry(path, content, a));
        LastUploadNow(states, ops, times, m, k, key, a, path, content);
        assert (exists c :: Uploads(s, op, now, key, a, path, c)) <==> path == op.path;
      }
    } else {
      forall path, content
        ensures MapEntry(path, content, a) in maps' <==> Current(states, ops, times, m, k + 1, key, a, path, content)
      {
        LastUploadNow(states, ops, times, m, k, key, a, path, content);
        assert !exists c :: Uploads(s, op, now, key, a, path, c);
      }
    }
  }

  /** The lease has been the agent's own since step `m`, and was not before. */
  ghost predicate Session(states: seq<State>, m: nat, k: nat, key: MapKey, a: AgentId) {
    && 0 < m <= k < |states| && !Leased(states[m - 1], key, a)
    && forall j | m <= j <= k :: Leased(states[j], key, a)
  }

  lemma {:induction false} SessionHoldsUploads(states: seq<State>, ops: seq<Op>, times: seq<Time>, k: nat,
                                               key: MapKey, a: AgentId)
      returns (m: nat)
    requires Run(states, ops, times) && k < |states| && Leased(states[k], key, a)
    ensures Session(states, m, k, key, a)
    ensures HoldsUploads(states, ops, times, m, k, key, a, MapsOf(states[k], key))
  {
    assert k > 0;
    if Leased(states[k - 1], key, a) {
      m := SessionHoldsUploads(states, ops, times, k - 1, key, a);
      UploadsAdvance(states, ops, times, m, k - 1, key, a);
      hide HoldsUploads, Run, Apply, MapsOf;
    } else {
      m := k;
      hide Apply;
      SessionStarts(states[k - 1], ops[k - 1], times[k - 1], key, a);
    }
  }

  // ---- Completed sets ----

  lemma CompleteExactly(s: State, key: MapKey, uploader: AgentId, now: Time)
    ensures var (s', r) := CompleteSourceMaps(s, key, uploader, now);
      && (r.Ok? <==> HoldsLease(s, key, uploader, now)) && (r.Err? ==> s' == s)
      && (r.Ok? && key in s'.sets ==> s'.sets[key] == MapSet(true, now, MapsOf(s, key), Some(uploader)))
      && (r.Ok? ==> key !in s'.leases && Version(s'.versions, key.service) == Version(s.versions, key.service) + 1)
      && (forall other | other != key && other in s'.sets :: other in s.sets && s'.sets[other] == s.sets[other])
      && (forall other | other in s.sets && other !in s'.sets ::
            r.Ok? && other.service == key.service && other !in s'.leases)
  {
    hide BumpReached, Ahead;
  }

  ghost predicate CompleteIn(s: State, key: MapKey) {
    key in s.sets && s.sets[key].complete
  }

  lemma ClaimKeepsComplete(s: State, key: MapKey, a: AgentId, now: Time, other: MapKey)
    requires CompleteIn(SourceMapStatus(s, key, a, now).0, other)
    ensures other in s.sets && SourceMapStatus(s, key, a, now).0.sets[other] == s.sets[other]
  {
  }

  lemma UploadKeepsComplete(s: State, key: MapKey, a: AgentId, path: Path, content: Content, valid: bool, now: Time,
                            other: MapKey)
    requires CompleteIn(UploadSourceMap(s, key, a, path, content, valid, now).0, other)
    ensures other in s.sets && UploadSourceMap(s, key, a, path, content, valid, now).0.sets[other] == s.sets[other]
  {
    hide PutMap;
  }

  /** A complete set was completed just now, or was the same before. */
  lemma CompleteStep(s: State, op: Op, now: Time, key: MapKey)
    requires CompleteIn(Apply(s, op, now), key)
    ensures || (CompleteIn(s, key) && Apply(s, op, now).sets[key] == s.sets[key])
            || (&& op.OpComplete? && op.key == key && HoldsLease(s, key, op.uploader, now)
                && Apply(s, op, now).sets[key] == MapSet(true, now, MapsOf(s, key), Some(op.uploader)))
  {
    hide SourceMapStatus, UploadSourceMap, CompleteSourceMaps, HoldsLease, MapsOf;
    if op.OpClaim? {
      ClaimKeepsComplete(s, op.key, op.uploader, now, key);
    } else if op.OpUpload? {
      UploadKeepsComplete(s, op.key, op.uploader, op.path, op.content, op.valid, now, key);
    } else if op.OpComplete? {
      CompleteExactly(s, op.key, op.uploader, now);
    } else {
      OthersKeepLeases(s, op, now);
      hide Apply;
    }
  }

  lemma {:induction false} CompletedAt(states: seq<State>, ops: seq<Op>, times: seq<Time>, k: nat, key: MapKey)
      returns (c: nat)
    requires Run(states, ops, times) && k < |states| && CompleteIn(states[k], key)
    ensures c < k && ops[c].OpComplete? && ops[c].key == key && HoldsLease(states[c], key, ops[c].uploader, times[c])
    ensures states[k].sets[key] == MapSet(true, times[c], MapsOf(states[c], key), Some(ops[c].uploader))
  {
    assert k > 0;
    CompleteStep(states[k - 1], ops[k - 1], times[k - 1], key);
    hide Apply, MapsOf, HoldsLease;
    if CompleteIn(states[k - 1], key) && states[k].sets[key] == states[k - 1].sets[key] {
      c := CompletedAt(states, ops, times, k - 1, key);
    } else {
      c := k - 1;
    }
  }

  /**
   A complete set holds, for each path, exactly the last map that its completer uploaded in the stretch
   of time for which the lease was its own, and nothing else: nothing uploaded is lost or left over.
   */
  lemma CompletedSetIsWhole(states: seq<State>, ops: seq<Op>, times: seq<Time>, k: nat, key: MapKey)
      returns (m: nat, c: nat, a: AgentId)
    requires Run(states, ops, times) && k < |states| && CompleteIn(states[k], key)
    ensures c < k && ops[c] == OpComplete(key, a) && HoldsLease(states[c], key, a, times[c])
    ensures Session(states, m, c, key, a)
    ensures HoldsUploads(states, ops, times, m, c, key, a, states[k].sets[key].maps)
  {
    c := CompletedAt(states, ops, times, k, key);
    a := ops[c].uploader;
    m := SessionHoldsUploads(states, ops, times, c, key, a);
    hide HoldsUploads, Session;
  }

  // ---- The lease excludes others ----

  /** The lease is the agent's until the given time at least. */
  ghost predicate HeldUntil(s: State, key: MapKey, a: AgentId, until: Time) {
    Leased(s, key, a) && s.leases[key].expiresAt >= until
  }

  /** A completion for the service ended the lease: the set was completed, or evicted. */
  ghost predicate EndsLease(s: State, op: Op, now: Time, key: MapKey) {
    && op.OpComplete? && op.key.service == key.service && HoldsLease(s, op.key, op.uploader, now)
    && key !in Apply(s, op, now).leases
  }

  lemma ClaimHolds(s: State, key: MapKey, b: AgentId, now: Time, other: MapKey, a: AgentId, until: Time)
    requires HeldUntil(s, other, a, until) && until - LEASE_MS <= now < until
    ensures HeldUntil(SourceMapStatus(s, key, b, now).0, other, a, until)
  {
  }

  lemma UploadHolds(s: State, key: MapKey, b: AgentId, path: Path, content: Content, valid: bool, now: Time,
                    other: MapKey, a: AgentId, until: Time)
    requires HeldUntil(s, other, a, until) && until - LEASE_MS <= now < until
    ensures HeldUntil(UploadSourceMap(s, key, b, path, content, valid, now).0, other, a, until)
  {
    hide PutMap;
  }

  lemma CompleteHolds(s: State, key: MapKey, b: AgentId, now: Time, other: MapKey, a: AgentId, until: Time)
    requires HeldUntil(s, other, a, until)
    ensures var (s', r) := CompleteSourceMaps(s, key, b, now);
      HeldUntil(s', other, a, until) || (r.Ok? && other.service == key.service && other !in s'.leases)
  {
    hide BumpReached, Ahead;
  }

  lemma SameLeasesHold(s: State, s': State, key: MapKey, a: AgentId, until: Time)
    requires HeldUntil(s, key, a, until) && s'.leases == s.leases
    ensures HeldUntil(s', key, a, until)
  {
  }

  lemma HoldStep(s: State, op: Op, now: Time, key: MapKey, a: AgentId, until: Time)
    requires HeldUntil(s, key, a, until) && until - LEASE_MS <= now < until
    ensures HeldUntil(Apply(s, op, now), key, a, until) || EndsLease(s, op, now, key)
  {
    hide SourceMapStatus, UploadSourceMap, HeldUntil;
    if op.OpClaim? {
      ClaimHolds(s, op.key, op.uploader, now, key, a, until);
    } else if op.OpUpload? {
      UploadHolds(s, op.key, op.uploader, op.path, op.content, op.valid, now, key, a, until);
    } else if op.OpComplete? {
      CompleteHolds(s, op.key, op.uploader, now, key, a, until);
      hide BumpReached, Evicted;
    } else {
      OthersKeepLeases(s, op, now);
      SameLeasesHold(s, Apply(s, op, now), key, a, until);
    }
  }

  /**
   A granted lease is exclusive for its two minutes: while the clock stays within them, the holder holds
   it and nobody else is granted it, unless a completion for the service ended it.
   */
  lemma {:induction false} LeaseIsExclusive(states: seq<State>, ops: seq<Op>, times: seq<Time>, i: nat, j: nat,
                                            key: MapKey, a: AgentId)
    requires Run(states, ops, times) && i < j < |states| && GrantedAt(states, ops, times, i, key, a)
    requires forall m | i < m < j :: times[i] <= times[m] < times[i] + LEASE_MS
    ensures HeldUntil(states[j], key, a, times[i] + LEASE_MS)
      || exists m :: i < m < j && EndsLease(states[m], ops[m], times[m], key)
    decreases j
  {
    if j > i + 1 {
      LeaseIsExclusive(states, ops, times, i, j - 1, key, a);
      hide Apply, EndsLease;
      if HeldUntil(states[j - 1], key, a, times[i] + LEASE_MS) {
        HoldStep(states[j - 1], ops[j - 1], times[j - 1], key, a, times[i] + LEASE_MS);
      }
    }
  }

  /** While it is held nobody else is granted it, and nobody else's upload or completion is accepted. */
  lemma HeldExcludes(s: State, key: MapKey, a: AgentId, until: Time, b: AgentId, now: Time)
    requires HeldUntil(s, key, a, until) && now < until && a != b
    ensures !SourceMapStatus(s, key, b, now).1.isUploader && !HoldsLease(s, key, b, now)
    ensures forall path, content, valid ::
      UploadSourceMap(s, key, b, path, content, valid, now) == (s, Err(NotUploader))
    ensures CompleteSourceMaps(s, key, b, now) == (s, Err(NotUploader))
  {
    hide BumpReached, Evicted, PutMap;
  }

  // ---- Eviction ----

  /** Newer first, and among equally new ones the greater commit. */
  predicate Newer(sets: map<MapKey, MapSet>, j: MapKey, k: MapKey)
    requires j in sets && k in sets
  {
    sets[j].updatedAt > sets[k].updatedAt || (sets[j].updatedAt == sets[k].updatedAt && j.commit > k.commit)
  }

  ghost predicate OfService(sets: map<MapKey, MapSet>, service: ServiceKey, ks: set<MapKey>) {
    forall k | k in ks :: k in sets && k.service == service
  }

  /** The members of `ks` with fewer than `n` newer ones in it. */
  ghost function Newest(sets: map<MapKey, MapSet>, ks: set<MapKey>, n: nat): set<MapKey>
    requires forall k | k in ks :: k in sets
  {
    set k | k in ks && |NewerIn(sets, ks, k)| < n
  }

  function NewerIn(sets: map<MapKey, MapSet>, ks: set<MapKey>, k: MapKey): set<MapKey>
    requires k in sets && forall j | j in ks :: j in sets
  {
    set j | j in ks && Newer(sets, j, k)
  }

  lemma {:induction false} Oldest(sets: map<MapKey, MapSet>, service: ServiceKey, ks: set<MapKey>) returns (z: MapKey)
    requires ks != {} && OfService(sets, service, ks)
    ensures z in ks && forall k | k in ks && k != z :: Newer(sets, k, z)
    decreases |ks|
  {
    var x :| x in ks;
    if ks == {x} {
      z := x;
    } else {
      var y := Oldest(sets, service, ks - {x});
      z := if Newer(sets, x, y) then y else x;
      assert y != x && y in sets && x in sets && y.service == x.service;
      forall k | k in ks && k != z ensures Newer(sets, k, z) {
        assert k != x ==> k in ks - {x};
        assert k in sets && k.service == service;
      }
    }
  }

  lemma WithoutOldest(sets: map<MapKey, MapSet>, ks: set<MapKey>, z: MapKey, n: nat)
    requires (forall k | k in ks :: k in sets) && z in ks && forall k | k in ks && k != z :: Newer(sets, k, z)
    ensures Newest(sets, ks, n) == Newest(sets, ks - {z}, n) + (if |ks - {z}| < n then {z} else {})
  {
    var rest := ks - {z};
    assert NewerIn(sets, ks, z) == rest;
    forall k | k in rest ensures NewerIn(sets, ks, k) == NewerIn(sets, rest, k) {
      assert Newer(sets, k, z);
    }
  }

  /** As many are kept as the limit allows. */
  lemma {:induction false} NewestCount(sets: map<MapKey, MapSet>, service: ServiceKey, ks: set<MapKey>, n: nat)
    requires OfService(sets, service, ks)
    ensures |Newest(sets, ks, n)| == if |ks| < n then |ks| else n
    decreases |ks|
  {
    if ks == {} {
      assert Newest(sets, ks, n) == {};
    } else {
      var z := Oldest(sets, service, ks);
      NewestCount(sets, service, ks - {z}, n);
      WithoutOldest(sets, ks, z, n);
      assert z !in Newest(sets, ks - {z}, n);
      hide Newest, Newer;
    }
  }

  function SetsOf(sets: map<MapKey, MapSet>, service: ServiceKey): set<MapKey> {
    set k | k in sets && k.service == service
  }

  /** After a completion the service keeps its five newest sets, all of them if there are no more. */
  lemma EvictionKeepsNewest(s: State, key: MapKey, uploader: AgentId, now: Time)
    requires HoldsLease(s, key, uploader, now)
    ensures var before := s.sets[key := MapSet(true, now, MapsOf(s, key), Some(uploader))];
      var s' := CompleteSourceMaps(s, key, uploader, now).0;
      var all, kept := SetsOf(before, key.service), SetsOf(s'.sets, key.service);
      && kept <= all && |kept| == (if |all| < 5 then |all| else 5)
      && (forall k, d | k in kept && d in all && d !in kept :: Newer(before, k, d))
      && (forall k | k in before && k.service != key.service :: k in s'.sets)
  {
    var before := s.sets[key := MapSet(true, now, MapsOf(s, key), Some(uploader))];
    var s' := CompleteSourceMaps(s, key, uploader, now).0;
    var all := SetsOf(before, key.service);
    forall k | k in all ensures Ahead(before, k) == NewerIn(before, all, k) {
    }
    hide BumpReached, Ahead;
    assert SetsOf(s'.sets, key.service) == Newest(before, all, 5);
    NewestCount(before, key.service, all, 5);
    forall k, d | k in all && d in all && |NewerIn(before, all, k)| < 5 <= |NewerIn(before, all, d)|
      ensures Newer(before, k, d)
    {
      RanksDecide(before, key.service, all, k, d);
    }
  }

  lemma RanksDecide(sets: map<MapKey, MapSet>, service: ServiceKey, ks: set<MapKey>, k: MapKey, d: MapKey)
    requires OfService(sets, service, ks) && k in ks && d in ks
    requires |NewerIn(sets, ks, k)| < |NewerIn(sets, ks, d)|
    ensures Newer(sets, k, d)
  {
    if !Newer(sets, k, d) && k != d {
      assert NewerIn(sets, ks, d) <= NewerIn(sets, ks, k);
      SubsetSize(NewerIn(sets, ks, d), NewerIn(sets, ks, k));
    }
  }

  lemma {:induction false} SubsetSize(a: set<MapKey>, b: set<MapKey>)
    requires a <= b
    ensures |a| <= |b|
  {
    if a != {} {
      var x :| x in a;
      SubsetSize(a - {x}, b - {x});
    }
  }
}

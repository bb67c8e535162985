/**
 Which properties and scopes a capture reads, said of the inspector's answers and the paused frames
 themselves: by positions, numerals and kinds.
 */
module CaptureSelection {
  import opened Positions
  import opened Numerals
  import opened Capture

  // ---------------------------------------------------------------- the properties of an object

  /** `sel` is the enumerable properties in order, as many of them as the limit allows. */
  ghost predicate FirstEnumerable(ds: seq<Descriptor>, limit: nat, at: seq<nat>, sel: seq<Descriptor>) {
    && Increasing(at) && |at| <= limit && Lists(ds, at, sel)
    && (forall i | 0 <= i < |at| :: at[i] < |ds| && ds[at[i]].enumerable)
    && (forall n | 0 <= n < |ds| && ds[n].enumerable && n !in at ::
          |at| == limit && forall i | 0 <= i < |at| :: at[i] < n)
  }

  lemma {:induction false} EnumerablePositions(ds: seq<Descriptor>, wanted: Descriptor -> bool) returns (at: seq<nat>)
    requires forall d :: wanted(d) == d.enumerable
    ensures Picks(ds, wanted, at) && Lists(ds, at, Enumerable(ds))
    decreases |ds|
  {
    if ds == [] {
      at := [];
    } else {
      var rest := EnumerablePositions(ds[1..], wanted);
      at := Shifted(wanted(ds[0]), rest);
      ShiftedFinds(ds, wanted, rest);
      ShiftedIncreases(wanted(ds[0]), rest);
      ShiftedLists(ds, wanted(ds[0]), rest, Enumerable(ds[1..]));
      hide Lists, Finds, Increasing, Shifted;
    }
  }

  lemma LaterThanPrefix(all: seq<nat>, limit: nat, n: nat)
    requires Increasing(all) && limit <= |all| && n in all && n !in all[..limit]
    ensures forall i | 0 <= i < limit :: all[i] < n
  {
    var k :| 0 <= k < |all| && all[k] == n;
    assert forall j | 0 <= j < limit :: all[j] in all[..limit];
  }

  lemma ObjectSelection(ds: seq<Descriptor>, o: Options) returns (at: seq<nat>)
    ensures FirstEnumerable(ds, o.maxProps + 1, at, Selected(ds, false, o))
  {
    var all := EnumerablePositions(ds, (d: Descriptor) => d.enumerable);
    var limit := o.maxProps + 1;
    assert |Enumerable(ds)| == |all|;
    if |all| <= limit {
      at := all;
    } else {
      at := all[..limit];
      assert Increasing(at) && Lists(ds, at, Enumerable(ds)[..limit]);
      hide Lists, Enumerable;
      forall n | 0 <= n < |ds| && ds[n].enumerable && n !in at ensures forall i | 0 <= i < |at| :: at[i] < n {
        LaterThanPrefix(all, limit, n);
      }
    }
  }

  // ---------------------------------------------------------------- the elements of an array

  /** An enumerable property named by the numeral of a number below the limit. */
  ghost predicate IsElement(d: Descriptor, limit: nat) {
    d.enumerable && exists n :: 0 <= n < limit && d.name == Decimal(n)
  }

  /** Ordered by element number, properties of equal names in the inspector's order. */
  ghost predicate InOrder(ds: seq<Descriptor>, a: nat, b: nat)
    requires a < |ds| && b < |ds|
  {
    forall m: nat, n: nat | ds[a].name == Decimal(m) && ds[b].name == Decimal(n) :: m < n || (m == n && a < b)
  }

  /** `sel` is exactly the elements below the limit, sorted by number. */
  ghost predicate SortedElements(ds: seq<Descriptor>, limit: nat, at: seq<nat>, sel: seq<Descriptor>) {
    && Finds(ds, d => IsElement(d, limit), at) && Lists(ds, at, sel)
    && (forall i, j | 0 <= i < j < |at| :: InOrder(ds, at[i], at[j]))
  }

  /** What the model keeps before sorting. */
  predicate Kept(d: Descriptor, limit: nat) {
    d.enumerable && IsIndex(d.name) && Index(d.name) < limit
  }

  lemma KeptIsElement(d: Descriptor, limit: nat)
    ensures Kept(d, limit) <==> IsElement(d, limit)
  {
    if Kept(d, limit) {
      IndexIsDecimal(d.name);
    }
    if IsElement(d, limit) {
      var n :| 0 <= n < limit && d.name == Decimal(n);
      DecimalIsIndex(n);
    }
  }

  function Number(d: Descriptor): nat {
    if IsIndex(d.name) then Index(d.name) else 0
  }

  /** The same as `InOrder`, by the numbers the model reads. */
  predicate Before(ds: seq<Descriptor>, a: nat, b: nat)
    requires a < |ds| && b < |ds|
  {
    Number(ds[a]) < Number(ds[b]) || (Number(ds[a]) == Number(ds[b]) && a < b)
  }

  lemma BeforeIsInOrder(ds: seq<Descriptor>, a: nat, b: nat)
    requires a < |ds| && b < |ds| && Before(ds, a, b)
    ensures InOrder(ds, a, b)
  {
    forall m: nat, n: nat | ds[a].name == Decimal(m) && ds[b].name == Decimal(n)
      ensures m < n || (m == n && a < b)
    {
      DecimalIsIndex(m);
      DecimalIsIndex(n);
    }
  }

  ghost predicate Ordered(ds: seq<Descriptor>, at: seq<nat>) {
    && (forall i | 0 <= i < |at| :: at[i] < |ds|)
    && (forall i, j | 0 <= i < j < |at| :: Before(ds, at[i], at[j]))
  }

  lemma ElementsUnfold(ds: seq<Descriptor>, limit: nat)
    requires ds != []
    ensures Elements(Enumerable(ds), limit)
      == (if Kept(ds[0], limit) then [ds[0]] else []) + Elements(Enumerable(ds[1..]), limit)
  {
    var rest := Enumerable(ds[1..]);
    if ds[0].enumerable {
      assert ([ds[0]] + rest)[1..] == rest;
    } else {
      assert Enumerable(ds) == rest;
    }
  }

  /** Where an element is inserted: behind the smaller numbers. */
  lemma {:induction false} InsertedAt(d: Descriptor, xs: seq<Descriptor>) returns (k: nat)
    requires IsIndex(d.name) && forall i | 0 <= i < |xs| :: IsIndex(xs[i].name)
    requires forall i, j | 0 <= i < j < |xs| :: Number(xs[i]) <= Number(xs[j])
    ensures k <= |xs| && Insert(d, xs) == xs[..k] + [d] + xs[k..]
    ensures forall i | 0 <= i < k :: Number(xs[i]) < Number(d)
    ensures forall i | k <= i < |xs| :: Number(d) <= Number(xs[i])
    decreases |xs|
  {
    if xs == [] || Number(d) <= Number(xs[0]) {
      k := 0;
      assert xs[..0] + [d] + xs[0..] == [d] + xs;
    } else {
      var r := InsertedAt(d, xs[1..]);
      k := r + 1;
      assert forall i | 1 <= i < |xs| :: xs[i] == xs[1..][i - 1];
      assert xs[..k] == [xs[0]] + xs[1..][..r] && xs[k..] == xs[1..][r..];
      assert Insert(d, xs) == xs[..k] + [d] + xs[k..];
    }
  }

  lemma ShiftedOrdered(ds: seq<Descriptor>, rest: seq<nat>)
    requires ds != [] && Ordered(ds[1..], rest)
    ensures Ordered(ds, Shifted(false, rest))
  {
    var at := Shifted(false, rest);
    assert forall i | 0 <= i < |at| :: at[i] == rest[i] + 1;
    hide Shifted;
    forall i, j | 0 <= i < j < |at| ensures Before(ds, at[i], at[j]) {
      assert Before(ds[1..], rest[i], rest[j]);
    }
  }

  lemma InsertedOrdered(ds: seq<Descriptor>, up: seq<nat>, k: nat)
    requires ds != [] && Ordered(ds, up) && k <= |up| && 0 !in up
    requires forall i | 0 <= i < k :: Number(ds[up[i]]) < Number(ds[0])
    requires forall i | k <= i < |up| :: Number(ds[0]) <= Number(ds[up[i]])
    ensures Ordered(ds, Inserted(up, k, 0))
  {
    hide Number;
    var at := Inserted(up, k, 0);
    assert forall i | 0 <= i < |at| && i != k :: at[i] == up[if i < k then i else i - 1];
    forall i, j | 0 <= i < j < |at| ensures Before(ds, at[i], at[j]) {
    }
  }

  lemma OrderedNumbers(ds: seq<Descriptor>, at: seq<nat>, sel: seq<Descriptor>)
    requires Lists(ds, at, sel) && Ordered(ds, at)
    ensures forall i, j | 0 <= i < j < |sel| :: Number(sel[i]) <= Number(sel[j])
  {
    hide Number;
    forall i, j | 0 <= i < j < |sel| ensures Number(sel[i]) <= Number(sel[j]) {
      assert Before(ds, at[i], at[j]);
    }
  }

  /** One kept element more, in its place. */
  lemma InsertedSorting(ds: seq<Descriptor>, kept: Descriptor -> bool, rest: seq<nat>, sel: seq<Descriptor>)
      returns (at: seq<nat>)
    requires ds != [] && kept(ds[0]) && forall d | kept(d) :: IsIndex(d.name)
    requires Finds(ds[1..], kept, rest) && Lists(ds[1..], rest, sel) && Ordered(ds[1..], rest)
    ensures Finds(ds, kept, at) && Lists(ds, at, Insert(ds[0], sel)) && Ordered(ds, at)
  {
    OrderedNumbers(ds[1..], rest, sel);
    var k := InsertedAt(ds[0], sel);
    ShiftedOrdered(ds, rest);
    InsertedFinds(ds, kept, rest, k);
    InsertedLists(ds, rest, sel, k);
    at := Inserted(Shifted(false, rest), k, 0);
    hide Finds, Number, Before, IsIndex, Insert;
    InsertedInPlace(ds, rest, sel, k);
  }

  lemma InsertedInPlace(ds: seq<Descriptor>, rest: seq<nat>, sel: seq<Descriptor>, k: nat)
    requires ds != [] && Lists(ds[1..], rest, sel) && k <= |rest|
    requires Ordered(ds, Shifted(false, rest))
    requires forall i | 0 <= i < k :: Number(sel[i]) < Number(ds[0])
    requires forall i | k <= i < |sel| :: Number(ds[0]) <= Number(sel[i])
    ensures |Shifted(false, rest)| == |rest|
    ensures Ordered(ds, Inserted(Shifted(false, rest), k, 0))
  {
    var up := Shifted(false, rest);
    assert |up| == |rest|;
    forall i | 0 <= i < |up| ensures up[i] == rest[i] + 1 && ds[up[i]] == sel[i] {
    }
    ShiftedHolds(false, rest, 0);
    hide Shifted, Lists, Number, Ordered;
    assert up == Shifted(false, rest);
    InsertedOrdered(ds, up, k);
  }

  lemma {:induction false} SortedPositions(ds: seq<Descriptor>, limit: nat, kept: Descriptor -> bool)
      returns (at: seq<nat>)
    requires forall d :: kept(d) == Kept(d, limit)
    ensures Finds(ds, kept, at) && Lists(ds, at, SortByIndex(Elements(Enumerable(ds), limit))) && Ordered(ds, at)
    decreases |ds|
  {
    if ds == [] {
      at := [];
    } else {
      ElementsUnfold(ds, limit);
      var rest := SortedPositions(ds[1..], limit, kept);
      var tail := Elements(Enumerable(ds[1..]), limit);
      if kept(ds[0]) {
        at := InsertedSorting(ds, kept, rest, SortByIndex(tail));
        assert ([ds[0]] + tail)[1..] == tail;
      } else {
        ShiftedFinds(ds, kept, rest);
        ShiftedLists(ds, false, rest, SortByIndex(tail));
        ShiftedOrdered(ds, rest);
        at := Shifted(false, rest);
        assert [] + SortByIndex(tail) == SortByIndex(tail);
        assert [] + tail == tail;
      }
      hide Finds, Lists, Ordered, Shifted, Enumerable, Elements;
    }
  }

  lemma ArraySelection(ds: seq<Descriptor>, o: Options) returns (at: seq<nat>)
    ensures SortedElements(ds, o.maxArray, at, Selected(ds, true, o))
  {
    var kept := (d: Descriptor) => Kept(d, o.maxArray);
    at := SortedPositions(ds, o.maxArray, kept);
    forall d ensures kept(d) <==> IsElement(d, o.maxArray) {
      KeptIsElement(d, o.maxArray);
    }
    FindsSame(ds, kept, d => IsElement(d, o.maxArray), at);
    forall i, j | 0 <= i < j < |at| ensures at[i] < |ds| && at[j] < |ds| && InOrder(ds, at[i], at[j]) {
      BeforeIsInOrder(ds, at[i], at[j]);
    }
    hide Kept, IsElement, InOrder, Before;
  }

  // ---------------------------------------------------------------- what is read of an answer

  /** The properties that a capture has to read of an answer. */
  ghost predicate IsReading(reply: Reply, isArray: bool, o: Options, sel: seq<Descriptor>) {
    match reply
    case Refused(_) => sel == []
    case Properties(ds) =>
      if isArray then exists at: seq<nat> :: SortedElements(ds, o.maxArray, at, sel)
      else var limit := o.maxProps + 1;
           exists at: seq<nat> :: FirstEnumerable(ds, limit, at, sel)
  }

  /** The properties that are selected are those. */
  lemma SelectedIsReading(ds: seq<Descriptor>, isArray: bool, o: Options)
    ensures IsReading(Properties(ds), isArray, o, Selected(ds, isArray, o))
  {
    if isArray {
      var at := ArraySelection(ds, o);
    } else {
      var at := ObjectSelection(ds, o);
    }
  }

  // ---------------------------------------------------------------- the declared length

  /** The number of the first property called `length`, if that is a natural number. */
  ghost predicate Declares(ds: seq<Descriptor>, n: nat) {
    exists i :: && 0 <= i < |ds| && ds[i].name == "length" && ds[i].number == Some(n)
                && forall j | 0 <= j < i :: ds[j].name != "length"
  }

  lemma {:induction false} DeclaredExactly(ds: seq<Descriptor>, n: nat)
    ensures DeclaredLength(ds) == Some(n) <==> Declares(ds, n)
    decreases |ds|
  {
    if ds != [] {
      DeclaredExactly(ds[1..], n);
      if ds[0].name == "length" {
        assert ds[0].number == Some(n) ==> Declares(ds, n);
      } else {
        if i :| 0 <= i < |ds[1..]| && ds[1..][i].name == "length" && ds[1..][i].number == Some(n)
                && forall j | 0 <= j < i :: ds[1..][j].name != "length" {
          assert forall j | 1 <= j < i + 1 :: ds[j] == ds[1..][j - 1];
          assert ds[i + 1].name == "length";
        }
        if i :| 0 <= i < |ds| && ds[i].name == "length" && ds[i].number == Some(n)
                && forall j | 0 <= j < i :: ds[j].name != "length" {
          assert ds[1..][i - 1] == ds[i];
        }
      }
    }
  }

  // ---------------------------------------------------------------- the scopes

  predicate IsFrameScope(scope: Scope) {
    (scope.kind == "local" || scope.kind == "block" || scope.kind == "catch") && scope.id.Some?
  }

  /** Position `n` is not before the place where the id is first met. */
  ghost predicate Met(at: seq<nat>, ids: seq<ObjectId>, n: nat, id: ObjectId) {
    exists i :: 0 <= i < |at| && i < |ids| && at[i] <= n && ids[i] == id
  }

  ghost predicate MetThere(scopes: seq<Scope>, at: seq<nat>, ids: seq<ObjectId>) {
    && Increasing(at) && |ids| == |at|
    && (forall i | 0 <= i < |at| ::
          at[i] < |scopes| && IsFrameScope(scopes[at[i]]) && scopes[at[i]].id.value == ids[i])
  }

  /** The ids are those of the frame's own scopes, each where it is first met, in order. */
  ghost predicate FirstMet(scopes: seq<Scope>, at: seq<nat>, ids: seq<ObjectId>) {
    && MetThere(scopes, at, ids)
    && (forall n | 0 <= n < |scopes| && IsFrameScope(scopes[n]) :: Met(at, ids, n, scopes[n].id.value))
    && (forall i, j | 0 <= i < j < |ids| :: ids[i] != ids[j])
  }

  lemma MetGrows(at: seq<nat>, ids: seq<ObjectId>, n: nat, id: ObjectId, m: nat, last: ObjectId)
    requires |at| == |ids| && Met(at, ids, n, id)
    ensures Met(at + [m], ids + [last], n, id)
  {
    var i :| 0 <= i < |at| && at[i] <= n && ids[i] == id;
    assert (at + [m])[i] == at[i] && (ids + [last])[i] == ids[i];
  }

  lemma MetThereGrows(scopes: seq<Scope>, last: Scope, at: seq<nat>, ids: seq<ObjectId>)
    requires MetThere(scopes, at, ids) && IsFrameScope(last)
    ensures MetThere(scopes + [last], at, ids)
    ensures MetThere(scopes + [last], at + [|scopes|], ids + [last.id.value])
  {
  }

  lemma FirstMetStays(scopes: seq<Scope>, last: Scope, at: seq<nat>, ids: seq<ObjectId>)
    requires FirstMet(scopes, at, ids) && (IsFrameScope(last) ==> last.id.value in ids)
    ensures FirstMet(scopes + [last], at, ids)
  {
    var scopes' := scopes + [last];
    if IsFrameScope(last) {
      var i :| 0 <= i < |ids| && ids[i] == last.id.value;
      assert at[i] <= |scopes|;
      assert Met(at, ids, |scopes|, last.id.value);
    }
    hide Met;
    assert forall n | 0 <= n < |scopes| :: scopes'[n] == scopes[n];
  }

  lemma FirstMetGrows(scopes: seq<Scope>, last: Scope, at: seq<nat>, ids: seq<ObjectId>)
    requires FirstMet(scopes, at, ids) && IsFrameScope(last) && last.id.value !in ids
    ensures FirstMet(scopes + [last], at + [|scopes|], ids + [last.id.value])
  {
    var scopes', at', ids' := scopes + [last], at + [|scopes|], ids + [last.id.value];
    MetThereGrows(scopes, last, at, ids);
    assert at'[|at|] == |scopes| && ids'[|at|] == last.id.value;
    assert Met(at', ids', |scopes|, last.id.value);
    forall n | 0 <= n < |scopes| && IsFrameScope(scopes'[n]) ensures Met(at', ids', n, scopes'[n].id.value) {
      assert scopes'[n] == scopes[n];
      MetGrows(at, ids, n, scopes[n].id.value, |scopes|, last.id.value);
    }
    hide Met, MetThere;
  }

  lemma {:induction false} ScopesExactly(scopes: seq<Scope>) returns (at: seq<nat>)
    ensures FirstMet(scopes, at, ScopeIds(scopes))
    decreases |scopes|
  {
    if scopes == [] {
      at := [];
    } else {
      var front, last := scopes[..|scopes| - 1], scopes[|scopes| - 1];
      var before := ScopesExactly(front);
      var ids := ScopeIds(front);
      assert scopes == front + [last];
      hide FirstMet;
      if IsFrameScope(last) && last.id.value !in ids {
        FirstMetGrows(front, last, before, ids);
        at := before + [|front|];
      } else {
        FirstMetStays(front, last, before, ids);
        at := before;
      }
    }
  }
}

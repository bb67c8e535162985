/** Parts of a sequence, told by the positions they are taken from. */
module Positions {

  ghost predicate Increasing(at: seq<nat>) {
    forall i, j | 0 <= i < j < |at| :: at[i] < at[j]
  }

  /** `at` holds the positions of exactly the wanted elements. */
  ghost predicate Finds<T>(xs: seq<T>, wanted: T -> bool, at: seq<nat>) {
    && (forall i | 0 <= i < |at| :: at[i] < |xs| && wanted(xs[at[i]]))
    && (forall n | 0 <= n < |xs| && wanted(xs[n]) :: n in at)
  }

  /** `at` lists the positions of exactly the wanted elements, in their own order. */
  ghost predicate Picks<T>(xs: seq<T>, wanted: T -> bool, at: seq<nat>) {
    Increasing(at) && Finds(xs, wanted, at)
  }

  /** `ys` is the elements at those positions. */
  ghost predicate Lists<T>(xs: seq<T>, at: seq<nat>, ys: seq<T>) {
    |ys| == |at| && forall i | 0 <= i < |at| :: at[i] < |xs| && ys[i] == xs[at[i]]
  }

  lemma FindsSame<T>(xs: seq<T>, wanted: T -> bool, same: T -> bool, at: seq<nat>)
    requires Finds(xs, wanted, at) && forall x | x in xs :: wanted(x) == same(x)
    ensures Finds(xs, same, at)
  {
    forall n | 0 <= n < |xs| ensures wanted(xs[n]) == same(xs[n]) {
      assert xs[n] in xs;
    }
  }

  // ---- One element more at the front ----

  /** The positions one further on, after the first if that is taken too. */
  function Shifted(head: bool, rest: seq<nat>): seq<nat> {
    (if head then [0] else []) + seq(|rest|, i requires 0 <= i < |rest| => rest[i] + 1)
  }

  lemma ShiftedHolds(head: bool, rest: seq<nat>, n: nat)
    ensures n in Shifted(head, rest) <==> (if n == 0 then head else n - 1 in rest)
  {
    var at := Shifted(head, rest);
    var first := |at| - |rest|;
    assert forall i | 0 <= i < |rest| :: at[first + i] == rest[i] + 1;
    if head {
      assert at[0] == 0;
    }
    if n > 0 && n - 1 in rest {
      var i :| 0 <= i < |rest| && rest[i] == n - 1;
      assert at[first + i] == n;
    }
  }

  lemma ShiftedIncreases(head: bool, rest: seq<nat>)
    requires Increasing(rest)
    ensures Increasing(Shifted(head, rest))
  {
    var at := Shifted(head, rest);
    var first := |at| - |rest|;
    assert forall i | first <= i < |at| :: at[i] == rest[i - first] + 1;
  }

  lemma ShiftedFinds<T>(xs: seq<T>, wanted: T -> bool, rest: seq<nat>)
    requires xs != [] && Finds(xs[1..], wanted, rest)
    ensures Finds(xs, wanted, Shifted(wanted(xs[0]), rest))
  {
    var at := Shifted(wanted(xs[0]), rest);
    hide Shifted;
    forall n: nat
      ensures n in at ==> n < |xs| && wanted(xs[n])
      ensures n < |xs| && wanted(xs[n]) ==> n in at
    {
      ShiftedHolds(wanted(xs[0]), rest, n);
      assert 0 < n < |xs| ==> xs[1..][n - 1] == xs[n];
    }
  }

  lemma ShiftedLists<T>(xs: seq<T>, head: bool, rest: seq<nat>, ys: seq<T>)
    requires xs != [] && Lists(xs[1..], rest, ys)
    ensures Lists(xs, Shifted(head, rest), (if head then [xs[0]] else []) + ys)
  {
  }

  // ---- One element more in between ----

  function Inserted<T>(s: seq<T>, k: nat, x: T): seq<T>
    requires k <= |s|
  {
    s[..k] + [x] + s[k..]
  }

  lemma InsertedHolds<T>(s: seq<T>, k: nat, x: T, y: T)
    requires k <= |s|
    ensures y in Inserted(s, k, x) <==> y == x || y in s
  {
    var r := Inserted(s, k, x);
    assert r[k] == x;
    if y in s {
      var i :| 0 <= i < |s| && s[i] == y;
      assert r[if i < k then i else i + 1] == y;
    }
  }

  lemma InsertedFinds<T>(xs: seq<T>, wanted: T -> bool, rest: seq<nat>, k: nat)
    requires xs != [] && wanted(xs[0]) && Finds(xs[1..], wanted, rest) && k <= |rest|
    ensures |Shifted(false, rest)| == |rest|
    ensures Finds(xs, wanted, Inserted(Shifted(false, rest), k, 0))
  {
    var up := Shifted(false, rest);
    assert |up| == |rest|;
    var at := Inserted(up, k, 0);
    forall n: nat ensures n in at <==> n == 0 || n - 1 in rest {
      InsertedHolds(up, k, 0, n);
      ShiftedHolds(false, rest, n);
    }
    hide Shifted, Inserted;
    forall n: nat
      ensures n in at ==> n < |xs| && wanted(xs[n])
      ensures n < |xs| && wanted(xs[n]) ==> n in at
    {
      assert n in at <==> n == 0 || n - 1 in rest;
      assert 0 < n < |xs| ==> xs[1..][n - 1] == xs[n];
    }
  }

  lemma InsertedLists<T>(xs: seq<T>, rest: seq<nat>, ys: seq<T>, k: nat)
    requires xs != [] && Lists(xs[1..], rest, ys) && k <= |rest|
    ensures |Shifted(false, rest)| == |rest|
    ensures Lists(xs, Inserted(Shifted(false, rest), k, 0), Inserted(ys, k, xs[0]))
  {
    var up := Shifted(false, rest);
    assert |up| == |rest| && forall i | 0 <= i < |up| :: up[i] == rest[i] + 1;
    hide Shifted;
    var at, zs := Inserted(up, k, 0), Inserted(ys, k, xs[0]);
    forall i | 0 <= i < |at| ensures at[i] < |xs| && zs[i] == xs[at[i]] {
      if i != k {
        var j := if i < k then i else i - 1;
        assert at[i] == rest[j] + 1 && zs[i] == ys[j];
      }
    }
  }
}

/**
 Sending a batch of evidence and narrowing a rejection down to the events that caused it
 (packages/sdk-node/src/ingest-isolation.ts). The broker's answer to a request may depend on the
 request's number and on its batch in any way.
 */
module IngestIsolation {

  /** An agent event; `bytes` is the length of its JSON form. */
  datatype Event = Event(id: nat, bytes: nat)

  /** A 2xx, a 400, or anything else. */
  datatype Outcome = Accepted | BadRequest | Transient

  type Broker = (nat, seq<Event>) -> Outcome

  datatype Isolation = Isolation(
    delivered: seq<Event>, rejected: seq<Event>, deferred: seq<Event>, requests: nat, splits: nat)

  const MAX_INGEST_SPLITS := 8

  function Half(n: nat): nat {
    (n + 1) / 2
  }

  /** What becomes of a batch when `requests` were sent before and `splits` remain. */
  function Isolate(events: seq<Event>, broker: Broker, requests: nat, splits: nat): Isolation
    decreases |events|
  {
    var outcome := broker(requests, events);
    if outcome.Accepted? then Isolation(events, [], [], requests + 1, splits)
    else if outcome.Transient? then Isolation([], [], events, requests + 1, splits)
    else if |events| <= 1 || splits == 0 then Isolation([], events, [], requests + 1, splits)
    else
      var first := Isolate(events[..Half(|events|)], broker, requests + 1, splits - 1);
      var second := Isolate(events[Half(|events|)..], broker, first.requests, first.splits);
      Isolation(first.delivered + second.delivered, first.rejected + second.rejected,
                first.deferred + second.deferred, second.requests, second.splits)
  }

  predicate Splits(events: seq<Event>, broker: Broker, requests: nat, splits: nat) {
    broker(requests, events).BadRequest? && |events| > 1 && splits > 0
  }

  function FirstHalf(events: seq<Event>, broker: Broker, requests: nat, splits: nat): Isolation
    requires splits > 0
  {
    Isolate(events[..Half(|events|)], broker, requests + 1, splits - 1)
  }

  function SecondHalf(events: seq<Event>, broker: Broker, requests: nat, splits: nat): Isolation
    requires splits > 0
  {
    var first := FirstHalf(events, broker, requests, splits);
    Isolate(events[Half(|events|)..], broker, first.requests, first.splits)
  }

  function Joined(first: Isolation, second: Isolation): Isolation {
    Isolation(first.delivered + second.delivered, first.rejected + second.rejected,
              first.deferred + second.deferred, second.requests, second.splits)
  }

  lemma IsolateUnfolds(events: seq<Event>, broker: Broker, requests: nat, splits: nat)
    ensures Splits(events, broker, requests, splits) ==>
      Isolate(events, broker, requests, splits)
      == Joined(FirstHalf(events, broker, requests, splits), SecondHalf(events, broker, requests, splits))
    ensures !Splits(events, broker, requests, splits) ==>
      Isolate(events, broker, requests, splits) == (match broker(requests, events)
        case Accepted => Isolation(events, [], [], requests + 1, splits)
        case Transient => Isolation([], [], events, requests + 1, splits)
        case BadRequest => Isolation([], events, [], requests + 1, splits))
  {
  }

  lemma IsolateSplits(events: seq<Event>, broker: Broker, requests: nat, splits: nat)
    requires Splits(events, broker, requests, splits)
    ensures var r := Isolate(events, broker, requests, splits);
      var first := Isolate(events[..Half(|events|)], broker, requests + 1, splits - 1);
      var second := Isolate(events[Half(|events|)..], broker, first.requests, first.splits);
      && r.delivered == first.delivered + second.delivered && r.rejected == first.rejected + second.rejected
      && r.deferred == first.deferred + second.deferred
      && r.requests == second.requests && r.splits == second.splits
  {
  }

  // ---- The source's form: requests in order, one shared budget ----

  class Budget {
    var splits: nat

    constructor (splits: nat)
      ensures this.splits == splits
    {
      this.splits := splits;
    }
  }

  /** The connection to the broker, with a log of what it accepted. */
  class Connection {
    const broker: Broker
    var requests: nat
    var accepted: seq<Event>

    constructor (broker: Broker)
      ensures this.broker == broker && requests == 0 && accepted == []
    {
      this.broker := broker;
      requests := 0;
      accepted := [];
    }

    method Send(batch: seq<Event>) returns (outcome: Outcome)
      modifies this
      ensures outcome == broker(old(requests), batch)
      ensures requests == old(requests) + 1
      ensures accepted == old(accepted) + (if outcome.Accepted? then batch else [])
    {
      outcome := broker(requests, batch);
      requests := requests + 1;
      if outcome.Accepted? { accepted := accepted + batch; }
    }
  }

  method IngestIsolating(events: seq<Event>, connection: Connection, budget: Budget)
      returns (rejected: seq<Event>, deferred: seq<Event>)
    modifies connection, budget
    ensures var r := Isolate(events, connection.broker, old(connection.requests), old(budget.splits));
      && rejected == r.rejected && deferred == r.deferred
      && connection.accepted == old(connection.accepted) + r.delivered
      && connection.requests == r.requests && budget.splits == r.splits
    decreases |events|, 1
  {
    ghost var before, broker, requests, splits := connection.accepted, connection.broker, connection.requests,
        budget.splits;
    hide Isolate;
    var outcome := connection.Send(events);
    assert before + [] == before;
    if outcome.Accepted? || outcome.Transient? || |events| <= 1 || budget.splits == 0 {
      IsolateUnfolds(events, broker, requests, splits);
      if outcome.Accepted? { return [], []; }
      if outcome.Transient? { return [], events; }
      return events, [];
    }
    IsolateSplits(events, broker, requests, splits);
    budget.splits := budget.splits - 1;
    rejected, deferred := IngestHalves(events, (|events| + 1) / 2, connection, budget);
  }

  /** Sends the two halves of a refused batch in turn. */
  method IngestHalves(events: seq<Event>, middle: nat, connection: Connection, budget: Budget)
    returns (rejected: seq<Event>, deferred: seq<Event>)
    requires 0 < middle < |events|
    modifies connection, budget
    ensures var first := Isolate(events[..middle], connection.broker, old(connection.requests), old(budget.splits));
      var second := Isolate(events[middle..], connection.broker, first.requests, first.splits);
      && rejected == first.rejected + second.rejected && deferred == first.deferred + second.deferred
      && connection.accepted == old(connection.accepted) + (first.delivered + second.delivered)
      && connection.requests == second.requests && budget.splits == second.splits
    decreases |events|, 0
  {
    hide Isolate;
    ghost var before := connection.accepted;
    ghost var first := Isolate(events[..middle], connection.broker, connection.requests, budget.splits);
    ghost var second := Isolate(events[middle..], connection.broker, first.requests, first.splits);
    var rejected1, deferred1 := IngestIsolating(events[..middle], connection, budget);
    var rejected2, deferred2 := IngestIsolating(events[middle..], connection, budget);
    assert (before + first.delivered) + second.delivered == before + (first.delivered + second.delivered);
    return rejected1 + rejected2, deferred1 + deferred2;
  }

  // ---- Nothing is lost, repeated or reordered ----

  datatype Fate = Delivered | Rejected | Deferred

  /** The events of one fate, in their original order. */
  function Pick(events: seq<Event>, fates: seq<Fate>, fate: Fate): seq<Event>
    requires |events| == |fates|
  {
    if events == [] then []
    else (if fates[0] == fate then [events[0]] else []) + Pick(events[1..], fates[1..], fate)
  }

  lemma {:induction false} PickConcat(a: seq<Event>, fa: seq<Fate>, b: seq<Event>, fb: seq<Fate>, fate: Fate)
    requires |a| == |fa| && |b| == |fb|
    ensures Pick(a + b, fa + fb, fate) == Pick(a, fa, fate) + Pick(b, fb, fate)
  {
    if a == [] {
      assert a + b == b && fa + fb == fb;
    } else {
      var head := if fa[0] == fate then [a[0]] else [];
      var first, second := Pick(a[1..], fa[1..], fate), Pick(b, fb, fate);
      assert (a + b)[1..] == a[1..] + b && (fa + fb)[1..] == fa[1..] + fb;
      assert Pick(a + b, fa + fb, fate) == head + Pick(a[1..] + b, fa[1..] + fb, fate);
      assert Pick(a, fa, fate) == head + first;
      hide Pick;
      PickConcat(a[1..], fa[1..], b, fb, fate);
      assert head + (first + second) == (head + first) + second;
    }
  }

  lemma {:induction false} PickAll(events: seq<Event>, fates: seq<Fate>, fate: Fate, every: Fate)
    requires |events| == |fates| && forall k | 0 <= k < |fates| :: fates[k] == every
    ensures Pick(events, fates, fate) == if fate == every then events else []
  {
    if events != [] { PickAll(events[1..], fates[1..], fate, every); }
  }

  // ---- Every fate has an answer behind it ----

  function AnswerFor(fate: Fate): Outcome {
    match fate
    case Delivered => Accepted
    case Rejected => BadRequest
    case Deferred => Transient
  }

  /** Request `n` sent the events from `lo` up to `hi`, and was answered with that fate. */
  predicate Answers(events: seq<Event>, broker: Broker, n: nat, lo: nat, hi: nat, fate: Fate) {
    lo < hi <= |events| && broker(n, events[lo..hi]) == AnswerFor(fate)
  }

  /** The event's fate is the answer to a request that held it, sent after `from` others and before `to`. */
  ghost predicate Answered(events: seq<Event>, broker: Broker, from: nat, to: nat, spent: bool, k: nat, fate: Fate) {
    exists n: nat, lo: nat, hi: nat ::
      && Answers(events, broker, n, lo, hi, fate) && from <= n < to && lo <= k < hi
      && (fate.Rejected? ==> hi == lo + 1 || spent)
  }

  lemma AnsweredInFirst(events: seq<Event>, m: nat, broker: Broker, from: nat, to: nat, spent: bool, k: nat, fate: Fate,
                        from': nat, to': nat, spent': bool)
    requires m <= |events| && k < m && Answered(events[..m], broker, from, to, spent, k, fate)
    requires from' <= from && to <= to' && (spent ==> spent')
    ensures Answered(events, broker, from', to', spent', k, fate)
  {
    var n: nat, lo: nat, hi: nat :|
      && Answers(events[..m], broker, n, lo, hi, fate) && from <= n < to && lo <= k < hi
      && (fate.Rejected? ==> hi == lo + 1 || spent);
    assert events[..m][lo..hi] == events[lo..hi];
    assert Answers(events, broker, n, lo, hi, fate);
  }

  lemma AnsweredInSecond(events: seq<Event>, m: nat, broker: Broker, from: nat, to: nat, spent: bool, k: nat,
                         fate: Fate,
                         from': nat)
    requires m <= k < |events| && Answered(events[m..], broker, from, to, spent, k - m, fate) && from' <= from
    ensures Answered(events, broker, from', to, spent, k, fate)
  {
    var n: nat, lo: nat, hi: nat :|
      && Answers(events[m..], broker, n, lo, hi, fate) && from <= n < to && lo <= k - m < hi
      && (fate.Rejected? ==> hi == lo + 1 || spent);
    assert events[m..][lo..hi] == events[m + lo..m + hi];
    assert Answers(events, broker, n, m + lo, m + hi, fate);
  }

  /**
   Every event shares its fate with a request that held it: delivered only if that was accepted,
   deferred only if it failed for now, and rejected only if it was refused and held nothing else, or no
   split was left.
   */
  lemma {:induction false} FatesFollowAnswers(events: seq<Event>, broker: Broker, requests: nat, splits: nat)
      returns (fates: seq<Fate>)
    ensures |fates| == |events|
    ensures var r := Isolate(events, broker, requests, splits);
      && r.delivered == Pick(events, fates, Delivered)
      && r.rejected == Pick(events, fates, Rejected)
      && r.deferred == Pick(events, fates, Deferred)
      && forall k | 0 <= k < |events| ::
           Answered(events, broker, requests, r.requests, r.splits == 0, k, fates[k])
    decreases |events|
  {
    IsolateUnfolds(events, broker, requests, splits);
    hide Isolate, Pick;
    if Splits(events, broker, requests, splits) {
      var m := Half(|events|);
      var first := FirstHalf(events, broker, requests, splits);
      var second := SecondHalf(events, broker, requests, splits);
      var f1 := FatesFollowAnswers(events[..m], broker, requests + 1, splits - 1);
      var f2 := FatesFollowAnswers(events[m..], broker, first.requests, first.splits);
      RequestsAreBounded(events[..m], broker, requests + 1, splits - 1);
      RequestsAreBounded(events[m..], broker, first.requests, first.splits);
      fates := f1 + f2;
      hide Answered;
      forall k | 0 <= k < |events|
        ensures Answered(events, broker, requests, second.requests, second.splits == 0, k, fates[k])
      {
        if k < m {
          AnsweredInFirst(events, m, broker, requests + 1, first.requests, first.splits == 0, k, fates[k], requests,
                          second.requests, second.splits == 0);
        } else {
          AnsweredInSecond(events, m, broker, first.requests, second.requests, second.splits == 0, k, fates[k],
                           requests);
        }
      }
      JoinedPicks(events, m, f1, f2);
    } else {
      fates := LeafFates(events, broker, requests, splits);
    }
  }

  /** Every event gets exactly one fate, and each outcome list is the events of that fate in order. */
  lemma IsolationPartitions(events: seq<Event>, broker: Broker, requests: nat, splits: nat)
      returns (fates: seq<Fate>)
    ensures |fates| == |events|
    ensures var r := Isolate(events, broker, requests, splits);
      && r.delivered == Pick(events, fates, Delivered)
      && r.rejected == Pick(events, fates, Rejected)
      && r.deferred == Pick(events, fates, Deferred)
  {
    fates := FatesFollowAnswers(events, broker, requests, splits);
  }

  lemma JoinedPicks(events: seq<Event>, m: nat, f1: seq<Fate>, f2: seq<Fate>)
    requires m <= |events| && |f1| == m && |f2| == |events| - m
    ensures forall fate :: Pick(events, f1 + f2, fate) == Pick(events[..m], f1, fate) + Pick(events[m..], f2, fate)
  {
    assert events == events[..m] + events[m..];
    forall fate ensures Pick(events, f1 + f2, fate) == Pick(events[..m], f1, fate) + Pick(events[m..], f2, fate) {
      PickConcat(events[..m], f1, events[m..], f2, fate);
    }
  }

  /** A request that is not split decides for all its events. */
  lemma LeafFates(events: seq<Event>, broker: Broker, requests: nat, splits: nat) returns (fates: seq<Fate>)
    requires !Splits(events, broker, requests, splits)
    ensures |fates| == |events|
    ensures var r := Isolate(events, broker, requests, splits);
      && r.delivered == Pick(events, fates, Delivered)
      && r.rejected == Pick(events, fates, Rejected)
      && r.deferred == Pick(events, fates, Deferred)
      && forall k | 0 <= k < |events| ::
           Answered(events, broker, requests, r.requests, r.splits == 0, k, fates[k])
  {
    IsolateUnfolds(events, broker, requests, splits);
    hide Isolate, Pick;
    var outcome := broker(requests, events);
    var every := if outcome.Accepted? then Delivered else if outcome.Transient? then Deferred else Rejected;
    fates := seq(|events|, _ => every);
    PickAll(events, fates, Delivered, every);
    PickAll(events, fates, Rejected, every);
    PickAll(events, fates, Deferred, every);
    if events != [] {
      assert events[0..|events|] == events;
      assert Answers(events, broker, requests, 0, |events|, every);
    }
  }

  lemma CountOne(x: Event, rest: seq<Event>, e: Event)
    ensures multiset([x] + rest)[e] == (if x == e then 1 else 0) + multiset(rest)[e]
  {
  }

  lemma CountHead(events: seq<Event>, e: Event)
    requires events != []
    ensures multiset(events)[e] == (if events[0] == e then 1 else 0) + multiset(events[1..])[e]
  {
    var rest := events[1..];
    assert events == [events[0]] + rest;
  }

  lemma PickStep(events: seq<Event>, fates: seq<Fate>, fate: Fate, e: Event)
    requires |events| == |fates| > 0
    ensures multiset(Pick(events, fates, fate))[e]
         == (if fates[0] == fate && events[0] == e then 1 else 0) + multiset(Pick(events[1..], fates[1..], fate))[e]
  {
    var rest := Pick(events[1..], fates[1..], fate);
    CountOne(events[0], rest, e);
    assert [] + rest == rest;
  }

  lemma {:induction false} PickCounts(events: seq<Event>, fates: seq<Fate>, e: Event)
    requires |events| == |fates|
    ensures multiset(Pick(events, fates, Delivered))[e] + multiset(Pick(events, fates, Rejected))[e]
            + multiset(Pick(events, fates, Deferred))[e] == multiset(events)[e]
  {
    if events != [] {
      hide Pick;
      PickCounts(events[1..], fates[1..], e);
      PickStep(events, fates, Delivered, e);
      PickStep(events, fates, Rejected, e);
      PickStep(events, fates, Deferred, e);
      CountHead(events, e);
    }
  }

  /** Counted with multiplicity, nothing appears or disappears. */
  lemma IsolationConserves(events: seq<Event>, broker: Broker, requests: nat, splits: nat)
    ensures var r := Isolate(events, broker, requests, splits);
      multiset(r.delivered) + multiset(r.rejected) + multiset(r.deferred) == multiset(events)
  {
    hide Isolate, Pick;
    var fates := IsolationPartitions(events, broker, requests, splits);
    var r := Isolate(events, broker, requests, splits);
    forall e: Event
      ensures multiset(r.delivered)[e] + multiset(r.rejected)[e] + multiset(r.deferred)[e] == multiset(events)[e]
    {
      PickCounts(events, fates, e);
    }
  }

  /** Each split costs two more requests, and no split is made beyond the budget. */
  lemma {:induction false} RequestsAreBounded(events: seq<Event>, broker: Broker, requests: nat, splits: nat)
    ensures var r := Isolate(events, broker, requests, splits);
      && r.splits <= splits
      && r.requests == requests + 1 + 2 * (splits - r.splits)
      && r.requests <= requests + 1 + 2 * splits
    decreases |events|
  {
    IsolateUnfolds(events, broker, requests, splits);
    hide Isolate;
    if Splits(events, broker, requests, splits) {
      var m, first := Half(|events|), FirstHalf(events, broker, requests, splits);
      RequestsAreBounded(events[..m], broker, requests + 1, splits - 1);
      RequestsAreBounded(events[m..], broker, first.requests, first.splits);
    }
  }

  // ---- A broker that refuses exactly the batches holding a bad event ----

  ghost predicate Validates(broker: Broker, bad: set<Event>) {
    forall n: nat, batch: seq<Event> ::
      broker(n, batch) == if exists e | e in batch :: e in bad then BadRequest else Accepted
  }

  function BadIn(events: seq<Event>, bad: set<Event>): nat {
    if events == [] then 0 else (if events[0] in bad then 1 else 0) + BadIn(events[1..], bad)
  }

  predicate Kept(e: Event, bad: set<Event>, keep: bool) {
    if keep then e in bad else e !in bad
  }

  /** The bad events, or the good ones. */
  function Only(events: seq<Event>, bad: set<Event>, keep: bool): seq<Event> {
    if events == [] then []
    else if Kept(events[0], bad, keep) then [events[0]] + Only(events[1..], bad, keep)
    else Only(events[1..], bad, keep)
  }

  lemma {:induction false} SplitBad(a: seq<Event>, b: seq<Event>, bad: set<Event>)
    ensures BadIn(a + b, bad) == BadIn(a, bad) + BadIn(b, bad)
  {
    if a == [] {
      assert a + b == b;
    } else {
      SplitBad(a[1..], b, bad);
      assert (a + b)[1..] == a[1..] + b;
    }
  }

  lemma {:induction false} SplitOnly(a: seq<Event>, b: seq<Event>, bad: set<Event>, keep: bool)
    ensures Only(a + b, bad, keep) == Only(a, bad, keep) + Only(b, bad, keep)
  {
    if a == [] {
      assert a + b == b;
    } else {
      SplitOnly(a[1..], b, bad, keep);
      assert (a + b)[1..] == a[1..] + b;
    }
  }

  lemma {:induction false} NoBad(events: seq<Event>, bad: set<Event>)
    ensures BadIn(events, bad) == 0 <==> !exists e | e in events :: e in bad
    ensures BadIn(events, bad) == 0 ==> Only(events, bad, true) == [] && Only(events, bad, false) == events
  {
    if events != [] {
      NoBad(events[1..], bad);
      assert forall e :: e in events <==> e == events[0] || e in events[1..];
    }
  }

  /** The least `h` with `n <= 2^h`. */
  function CeilLog2(n: nat): nat {
    if n <= 1 then 0 else 1 + CeilLog2(Half(n))
  }

  function Pow2(h: nat): nat {
    if h == 0 then 1 else 2 * Pow2(h - 1)
  }

  lemma {:induction false} CeilLog2IsLeast(n: nat)
    ensures n <= Pow2(CeilLog2(n))
    ensures n > 1 ==> Pow2(CeilLog2(n) - 1) < n
  {
    if n > 1 { CeilLog2IsLeast(Half(n)); }
  }

  lemma {:induction false} CeilLog2Mono(a: nat, b: nat)
    requires a <= b
    ensures CeilLog2(a) <= CeilLog2(b)
    decreases b
  {
    if a > 1 { CeilLog2Mono(Half(a), Half(b)); }
  }

  lemma Distribute(x: nat, y: nat, h: nat)
    requires h > 0 && x + y > 0
    ensures 1 + x * (h - 1) + y * (h - 1) <= (x + y) * h
  {
    assert (x + y) * h == (x + y) * (h - 1) + (x + y);
  }

  lemma MulMono(x: nat, a: nat, b: nat)
    requires a <= b
    ensures x * a <= x * b
  {
  }

  /** The budget for a batch covers the split itself and the budgets of both halves. */
  lemma BudgetCoversHalves(x: nat, y: nat, n: nat)
    requires x + y > 0 && n > 1
    ensures 1 + x * CeilLog2(Half(n)) + y * CeilLog2(n - Half(n)) <= (x + y) * CeilLog2(n)
  {
    var h := CeilLog2(n);
    CeilLog2Mono(n - Half(n), Half(n));
    MulMono(y, CeilLog2(n - Half(n)), h - 1);
    Distribute(x, y, h);
  }

  /** A split for each level above each bad event. */
  function Need(events: seq<Event>, bad: set<Event>): nat {
    BadIn(events, bad) * CeilLog2(|events|)
  }

  lemma HalvesNeedLess(events: seq<Event>, bad: set<Event>)
    requires BadIn(events, bad) > 0 && |events| > 1
    ensures var m := Half(|events|);
      && Need(events, bad) >= 1 + Need(events[..m], bad) + Need(events[m..], bad)
      && Only(events, bad, true) == Only(events[..m], bad, true) + Only(events[m..], bad, true)
      && Only(events, bad, false) == Only(events[..m], bad, false) + Only(events[m..], bad, false)
  {
    var m := Half(|events|);
    var left, right := events[..m], events[m..];
    assert events == left + right;
    SplitBad(left, right, bad);
    SplitOnly(left, right, bad, true);
    SplitOnly(left, right, bad, false);
    hide Only, BadIn, CeilLog2;
    BudgetCoversHalves(BadIn(left, bad), BadIn(right, bad), |events|);
  }

  lemma ValidatesSays(broker: Broker, bad: set<Event>, n: nat, events: seq<Event>)
    requires Validates(broker, bad)
    ensures broker(n, events) == if BadIn(events, bad) > 0 then BadRequest else Accepted
  {
    NoBad(events, bad);
  }

  lemma SingleBad(events: seq<Event>, bad: set<Event>)
    requires |events| == 1 && BadIn(events, bad) != 0
    ensures Only(events, bad, true) == events && Only(events, bad, false) == []
  {
    assert events == [events[0]];
  }

  /** Exactly the bad events were rejected and the rest delivered, at no more than the cost. */
  ghost predicate Isolated(r: Isolation, events: seq<Event>, bad: set<Event>, splits: nat) {
    && r.rejected == Only(events, bad, true)
    && r.delivered == Only(events, bad, false)
    && r.deferred == []
    && r.splits <= splits <= r.splits + Need(events, bad)
  }

  lemma HalvesIsolated(events: seq<Event>, broker: Broker, bad: set<Event>, requests: nat, splits: nat)
    requires Splits(events, broker, requests, splits) && BadIn(events, bad) > 0
    requires Isolated(FirstHalf(events, broker, requests, splits), events[..Half(|events|)], bad, splits - 1)
    requires Isolated(SecondHalf(events, broker, requests, splits), events[Half(|events|)..], bad,
                      FirstHalf(events, broker, requests, splits).splits)
    ensures Isolated(Isolate(events, broker, requests, splits), events, bad, splits)
  {
    IsolateSplits(events, broker, requests, splits);
    HalvesNeedLess(events, bad);
    hide Isolate, Only, BadIn, Need;
  }

  lemma LeafIsolated(events: seq<Event>, broker: Broker, bad: set<Event>, requests: nat, splits: nat)
    requires broker(requests, events) == if BadIn(events, bad) == 0 then Accepted else BadRequest
    requires BadIn(events, bad) == 0 || |events| == 1
    ensures Isolated(Isolate(events, broker, requests, splits), events, bad, splits)
  {
    IsolateUnfolds(events, broker, requests, splits);
    if BadIn(events, bad) == 0 { NoBad(events, bad); } else { SingleBad(events, bad); }
    hide Isolate, Only, BadIn, Need;
  }

  lemma NoneBadInNothing(events: seq<Event>, bad: set<Event>)
    ensures events == [] ==> BadIn(events, bad) == 0
  {
  }

  /** There is a split to spend, and enough for the first half; what is left is enough for the second. */
  lemma EnoughForHalves(events: seq<Event>, broker: Broker, bad: set<Event>, requests: nat, splits: nat)
    requires BadIn(events, bad) > 0 && |events| > 1 && Need(events, bad) <= splits
    ensures splits > 0 && Need(events[..Half(|events|)], bad) <= splits - 1
    ensures var left := events[..Half(|events|)]; var first := FirstHalf(events, broker, requests, splits);
      Isolated(first, left, bad, splits - 1) ==> Need(events[Half(|events|)..], bad) <= first.splits
  {
    HalvesNeedLess(events, bad);
    hide Isolate, Only, BadIn, Need;
  }

  /** With that many splits to spend, exactly the bad events are rejected and the rest delivered. */
  lemma {:induction false} BadEventsAreIsolated(events: seq<Event>, broker: Broker, bad: set<Event>, requests: nat,
                                                splits: nat)
    requires Validates(broker, bad) && Need(events, bad) <= splits
    ensures Isolated(Isolate(events, broker, requests, splits), events, bad, splits)
    decreases |events|
  {
    ValidatesSays(broker, bad, requests, events);
    NoneBadInNothing(events, bad);
    hide Isolate, Only, BadIn, Need, Validates, Isolated;
    if BadIn(events, bad) == 0 || |events| <= 1 {
      LeafIsolated(events, broker, bad, requests, splits);
    } else {
      EnoughForHalves(events, broker, bad, requests, splits);
      var m, first := Half(|events|), FirstHalf(events, broker, requests, splits);
      BadEventsAreIsolated(events[..m], broker, bad, requests + 1, splits - 1);
      BadEventsAreIsolated(events[m..], broker, bad, first.requests, first.splits);
      HalvesIsolated(events, broker, bad, requests, splits);
    }
  }
}

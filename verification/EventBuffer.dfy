/**
 The Node agent's bounded evidence buffer, its aggregates and the flush that drains them
 (packages/sdk-node/src/event-buffer.ts, packages/sdk-node/src/live-probe.ts).
 */
module EventBuffer {
  import opened IngestIsolation

  function Size(events: seq<Event>): nat {
    if events == [] then 0 else events[0].bytes + Size(events[1..])
  }

  lemma {:induction false} SizeConcat(a: seq<Event>, b: seq<Event>)
    ensures Size(a + b) == Size(a) + Size(b)
  {
    if a == [] {
      assert a + b == b;
    } else {
      SizeConcat(a[1..], b);
      assert (a + b)[1..] == a[1..] + b;
    }
  }

  /** How many of the oldest events must go so that the rest and `extra` bytes fit. */
  function Excess(events: seq<Event>, extra: nat, maxBytes: nat): (k: nat)
    ensures k <= |events|
    ensures k < |events| ==> Size(events[k..]) + extra <= maxBytes
    ensures forall j | 0 <= j < k :: Size(events[j..]) + extra > maxBytes
  {
    if events == [] || Size(events) + extra <= maxBytes then 0
    else
      var k := Excess(events[1..], extra, maxBytes);
      assert forall j | 0 < j <= |events| :: events[1..][j - 1..] == events[j..];
      1 + k
  }

  lemma ExcessUnfolds(events: seq<Event>, extra: nat, maxBytes: nat)
    ensures Excess(events, extra, maxBytes)
         == if events == [] || Size(events) + extra <= maxBytes then 0 else 1 + Excess(events[1..], extra, maxBytes)
  {
  }

  /** One step of the enqueue's drop loop. */
  lemma OldestGoes(all: seq<Event>, k: nat, extra: nat, maxBytes: nat, lost: seq<Event>)
    requires k < |all| && Size(all[k..]) + extra > maxBytes
    ensures all[k..][1..] == all[k + 1..]
    ensures (lost + all[..k]) + [all[k]] == lost + all[..k + 1]
    ensures Size(all[k..]) == all[k].bytes + Size(all[k + 1..])
    ensures Excess(all[k..], extra, maxBytes) == 1 + Excess(all[k + 1..], extra, maxBytes)
  {
    assert all[k..][1..] == all[k + 1..];
    ExcessUnfolds(all[k..], extra, maxBytes);
  }

  /** How many events from the front fit, after the first, within a byte budget. */
  function BatchLength(events: seq<Event>, maxBytes: nat, taken: nat, first: bool): (k: nat)
    ensures k <= |events|
  {
    if events == [] then 0
    else if !first && taken + events[0].bytes > maxBytes then 0
    else if taken + events[0].bytes >= maxBytes then 1
    else 1 + BatchLength(events[1..], maxBytes, taken + events[0].bytes, false)
  }

  /**
   A batch is the longest prefix within the budget, or the first event alone if even that is too
   long; events without bytes are not taken once the budget is met exactly.
   */
  lemma {:induction false} BatchIsLongest(events: seq<Event>, maxBytes: nat, taken: nat, first: bool)
    requires events != []
    ensures var k := BatchLength(events, maxBytes, taken, first);
      && (first ==> k >= 1)
      && (taken + Size(events[..k]) <= maxBytes || (first && k == 1) || k == 0)
      && (k < |events| && taken + Size(events[..k]) != maxBytes ==> taken + Size(events[..k + 1]) > maxBytes)
    decreases |events|
  {
    var head, rest := events[0], events[1..];
    var k := BatchLength(events, maxBytes, taken, first);
    PrefixSize(events, 1);
    if k > 1 {
      BatchIsLongest(rest, maxBytes, taken + head.bytes, false);
      PrefixSize(events, k);
      if k < |events| { PrefixSize(events, k + 1); }
    } else if k == 1 && |events| > 1 {
      PrefixSize(events, 2);
      PrefixSize(rest, 1);
    }
  }

  lemma PrefixSize(events: seq<Event>, k: nat)
    requires 0 < k <= |events|
    ensures Size(events[..k]) == events[0].bytes + Size(events[1..][..k - 1])
  {
    assert events[..k][1..] == events[1..][..k - 1];
  }

  /** How many events from the front fit altogether. */
  function Fitting(events: seq<Event>, maxBytes: nat): (k: nat)
    ensures k <= |events| && Size(events[..k]) <= maxBytes
    ensures k < |events| ==> Size(events[..k + 1]) > maxBytes
    decreases |events|
  {
    if Size(events) <= maxBytes then assert events[..|events|] == events; |events|
    else
      assert events != [];
      var front := events[..|events| - 1];
      var k := Fitting(front, maxBytes);
      assert events[..k] == front[..k];
      assert k < |front| ==> events[..k + 1] == front[..k + 1];
      assert k == |front| ==> events[..k + 1] == events;
      k
  }

  /** Newest first, the order in which a requeue drops. */
  function Reversed(events: seq<Event>): seq<Event> {
    if events == [] then [] else Reversed(events[1..]) + [events[0]]
  }

  lemma RequeueStart(all: seq<Event>)
    ensures Reversed(all[|all|..]) == []
  {
  }

  lemma AllFit(events: seq<Event>, maxBytes: nat)
    requires Size(events) <= maxBytes || events == []
    ensures Fitting(events, maxBytes) == |events| && Size(events) <= maxBytes
  {
  }

  /** One step of the requeue's drop loop. */
  lemma DropNewest(all: seq<Event>, n: nat, maxBytes: nat)
    requires 0 < n <= |all|
    ensures Size(all[..n]) == Size(all[..n - 1]) + all[n - 1].bytes
    ensures Reversed(all[n - 1..]) == Reversed(all[n..]) + [all[n - 1]]
    ensures Size(all[..n]) > maxBytes ==> Fitting(all[..n], maxBytes) == Fitting(all[..n - 1], maxBytes)
  {
    assert all[..n] == all[..n - 1] + [all[n - 1]];
    SizeConcat(all[..n - 1], [all[n - 1]]);
    assert all[n - 1..][1..] == all[n..];
    assert all[..n][..n - 1] == all[..n - 1];
  }

  class EventBuffer {
    const maxBytes: nat
    var events: seq<Event>
    var bytes: nat
    var dropped: nat
    ghost var lost: seq<Event>

    ghost predicate Valid()
      reads this
    {
      bytes == Size(events) <= maxBytes && dropped == |lost|
    }

    constructor (maxBytes: nat)
      requires maxBytes > 0
      ensures Valid() && this.maxBytes == maxBytes && events == [] && dropped == 0 && lost == []
    {
      this.maxBytes := maxBytes;
      events, bytes, dropped, lost := [], 0, 0, [];
    }

    /** Drops the oldest events until the new one fits; an event that never could is dropped itself. */
    method Enqueue(event: Event) returns (queued: bool)
      requires Valid()
      modifies this
      ensures Valid() && queued == (event.bytes <= maxBytes)
      ensures var k := Excess(old(events), event.bytes, maxBytes);
        if queued then events == old(events)[k..] + [event] && lost == old(lost) + old(events)[..k]
        else events == old(events) && lost == old(lost) + [event]
    {
      if event.bytes > maxBytes {
        dropped := dropped + 1;
        lost := lost + [event];
        return false;
      }
      DropOldest(event.bytes);
      SizeConcat(events, [event]);
      events := events + [event];
      bytes := bytes + event.bytes;
      queued := true;
    }

    /** Drops the oldest events until `extra` more bytes fit, or none is left. */
    method DropOldest(extra: nat)
      requires Valid()
      modifies this
      ensures Valid() && (events != [] ==> bytes + extra <= maxBytes)
      ensures var k := Excess(old(events), extra, maxBytes);
        events == old(events)[k..] && lost == old(lost) + old(events)[..k]
    {
      ghost var all, k := events, 0;
      assert all[0..] == all && old(lost) + all[..0] == old(lost);
      hide Excess, Size;
      while bytes + extra > maxBytes && |events| > 0
        invariant k <= |all| && events == all[k..] && bytes == Size(events) <= maxBytes
        invariant lost == old(lost) + all[..k] && dropped == |lost|
        invariant Excess(all, extra, maxBytes) == k + Excess(events, extra, maxBytes)
        decreases |events|
      {
        OldestGoes(all, k, extra, maxBytes, old(lost));
        bytes := bytes - events[0].bytes;
        lost := lost + [events[0]];
        events := events[1..];
        dropped := dropped + 1;
        k := k + 1;
      }
      ExcessUnfolds(events, extra, maxBytes);
    }

    /** Takes events from the front: at least one if there is any, and no more than the budget after the first. */
    method TakeBatch(budget: nat) returns (batch: seq<Event>)
      requires Valid()
      modifies this
      ensures Valid() && lost == old(lost) && batch + events == old(events)
      ensures |batch| == if budget == 0 then 0 else BatchLength(old(events), budget, 0, true)
    {
      batch := [];
      if |events| == 0 || budget == 0 {
        assert batch + events == old(events);
        return;
      }
      var taken := 0;
      while |events| > 0
        invariant batch + events == old(events) && taken == Size(batch)
        invariant bytes == Size(events) <= maxBytes && dropped == |lost| && lost == old(lost)
        invariant BatchLength(old(events), budget, 0, true) == |batch| + BatchLength(events, budget, taken, batch == [])
        decreases |events|
      {
        var next := events[0];
        if |batch| > 0 && taken + next.bytes > budget { break; }
        SizeConcat(batch, [next]);
        assert batch + [next] + events[1..] == old(events);
        events := events[1..];
        bytes := bytes - next.bytes;
        taken := taken + next.bytes;
        batch := batch + [next];
        if taken >= budget { break; }
      }
    }

    /** Puts undelivered events back in front, dropping the newest that no longer fit. */
    method RequeueFront(batch: seq<Event>)
      requires Valid()
      modifies this
      ensures Valid()
      ensures var all := batch + old(events); var k := Fitting(all, maxBytes);
        events == all[..k] && lost == old(lost) + Reversed(all[k..])
    {
      hide Size, Fitting, Reversed;
      ghost var all := batch + events;
      events := batch + events;
      bytes := SizeOf(events);
      assert all[..|all|] == all;
      RequeueStart(all);
      while bytes > maxBytes && |events| > 0
        invariant |events| <= |all| && events == all[..|events|] && bytes == Size(events)
        invariant lost == old(lost) + Reversed(all[|events|..]) && dropped == |lost|
        invariant Fitting(all, maxBytes) == Fitting(events, maxBytes)
        decreases |events|
      {
        DropNewest(all, |events|, maxBytes);
        var last := events[|events| - 1];
        bytes := bytes - last.bytes;
        lost := lost + [last];
        events := events[..|events| - 1];
        dropped := dropped + 1;
      }
      AllFit(events, maxBytes);
    }

    method RecordRejected(batch: seq<Event>)
      requires Valid()
      modifies this
      ensures Valid() && events == old(events) && lost == old(lost) + batch
    {
      dropped := dropped + |batch|;
      lost := lost + batch;
    }
  }

  method SizeOf(events: seq<Event>) returns (total: nat)
    ensures total == Size(events)
  {
    total := 0;
    for k := 0 to |events|
      invariant total == Size(events[..k])
    {
      assert events[..k + 1] == events[..k] + [events[k]];
      SizeConcat(events[..k], [events[k]]);
      total := total + events[k].bytes;
    }
    assert events[..|events|] == events;
  }
}

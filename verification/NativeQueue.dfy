/**
 The native agent's bounded retry queue (native/agent/src/resilience.rs) and the ingest path that
 uses it (native/agent/src/broker.rs). A send may succeed, fail for now or be refused, at will.
 */
module NativeQueue {
  import opened Positions

  datatype Entry<T> = Entry(value: T, bytes: nat)

  function Size<T>(entries: seq<Entry<T>>): nat {
    if entries == [] then 0 else entries[0].bytes + Size(entries[1..])
  }

  lemma {:induction false} SizeConcat<T>(a: seq<Entry<T>>, b: seq<Entry<T>>)
    ensures Size(a + b) == Size(a) + Size(b)
  {
    if a == [] {
      assert a + b == b;
    } else {
      SizeConcat(a[1..], b);
      assert (a + b)[1..] == a[1..] + b;
    }
  }

  /** How many of the oldest entries go so that one more of `bytes` fits. */
  function Shed<T>(entries: seq<Entry<T>>, bytes: nat, maxItems: nat, maxBytes: nat): (k: nat)
    ensures k <= |entries|
    ensures k < |entries| ==> |entries| - k < maxItems && Size(entries[k..]) + bytes <= maxBytes
    ensures forall j | 0 <= j < k :: |entries| - j >= maxItems || Size(entries[j..]) + bytes > maxBytes
  {
    if entries == [] || (|entries| < maxItems && Size(entries) + bytes <= maxBytes) then 0
    else
      var k := Shed(entries[1..], bytes, maxItems, maxBytes);
      assert forall j | 0 < j <= |entries| :: entries[1..][j - 1..] == entries[j..];
      1 + k
  }

  lemma ShedUnfolds<T>(entries: seq<Entry<T>>, bytes: nat, maxItems: nat, maxBytes: nat)
    ensures Shed(entries, bytes, maxItems, maxBytes)
         == if entries == [] || (|entries| < maxItems && Size(entries) + bytes <= maxBytes) then 0
            else 1 + Shed(entries[1..], bytes, maxItems, maxBytes)
  {
  }

  lemma SizeUnfolds<T>(entries: seq<Entry<T>>)
    requires entries != []
    ensures Size(entries) == entries[0].bytes + Size(entries[1..])
  {
  }

  /** The last entry moved to the front. */
  function Rotated<T>(entries: seq<Entry<T>>): seq<Entry<T>> {
    if entries == [] then [] else [entries[|entries| - 1]] + entries[..|entries| - 1]
  }

  lemma RotatedSize<T>(entries: seq<Entry<T>>)
    ensures Size(Rotated(entries)) == Size(entries)
  {
    if entries != [] {
      var rest, last := entries[..|entries| - 1], entries[|entries| - 1];
      assert entries == rest + [last];
      SizeConcat(rest, [last]);
      SizeConcat([last], rest);
    }
  }

  class BoundedQueue<T> {
    const maxItems: nat
    const maxBytes: nat
    var entries: seq<Entry<T>>
    var bytes: nat
    var dropped: nat

    ghost predicate Valid()
      reads this
    {
      0 < maxItems && 0 < maxBytes && |entries| <= maxItems && bytes == Size(entries) <= maxBytes
    }

    constructor (maxItems: nat, maxBytes: nat)
      requires maxItems > 0 && maxBytes > 0
      ensures Valid() && this.maxItems == maxItems && this.maxBytes == maxBytes && entries == [] && dropped == 0
    {
      this.maxItems, this.maxBytes := maxItems, maxBytes;
      entries, bytes, dropped := [], 0, 0;
    }

    method PushBack(value: T, size: nat)
      requires Valid()
      modifies this
      ensures Valid()
      ensures size > maxBytes ==> entries == old(entries) && dropped == old(dropped) + 1
      ensures size <= maxBytes ==>
        var k := Shed(old(entries), size, maxItems, maxBytes);
        entries == old(entries)[k..] + [Entry(value, size)] && dropped == old(dropped) + k
    {
      if size > maxBytes {
        dropped := dropped + 1;
        return;
      }
      MakeRoom(size);
      SizeConcat(entries, [Entry(value, size)]);
      bytes := bytes + size;
      entries := entries + [Entry(value, size)];
    }

    /** Drops the oldest entries until one more of `size` bytes fits, or none is left. */
    method MakeRoom(size: nat)
      requires Valid()
      modifies this
      ensures Valid() && (entries != [] ==> |entries| < maxItems && bytes + size <= maxBytes)
      ensures var k := Shed(old(entries), size, maxItems, maxBytes);
        entries == old(entries)[k..] && dropped == old(dropped) + k
    {
      ghost var all, k := entries, 0;
      assert all[0..] == all;
      hide Shed, Size;
      while (|entries| >= maxItems || bytes + size > maxBytes) && |entries| > 0
        invariant k <= |all| && entries == all[k..]
        invariant Valid() && dropped == old(dropped) + k
        invariant Shed(all, size, maxItems, maxBytes) == k + Shed(entries, size, maxItems, maxBytes)
        decreases |entries|
      {
        assert all[k..][1..] == all[k + 1..];
        ShedUnfolds(entries, size, maxItems, maxBytes);
        SizeUnfolds(entries);
        bytes := bytes - entries[0].bytes;
        entries := entries[1..];
        dropped := dropped + 1;
        k := k + 1;
      }
      ShedUnfolds(entries, size, maxItems, maxBytes);
    }

    /**
     Pushes to the back, which may drop from the front, and moves the last entry to the front. A
     value that can never fit is dropped, and the last entry is moved all the same.
     */
    method PushFront(value: T, size: nat)
      requires Valid()
      modifies this
      ensures Valid()
      ensures size <= maxBytes ==>
        var k := Shed(old(entries), size, maxItems, maxBytes);
        entries == [Entry(value, size)] + old(entries)[k..] && dropped == old(dropped) + k
      ensures size > maxBytes ==> entries == Rotated(old(entries)) && dropped == old(dropped) + 1
    {
      PushBack(value, size);
      if |entries| > 0 {
        RotatedSize(entries);
        entries := Rotated(entries);
      }
    }

    method PopFront() returns (entry: Entry<T>)
      requires Valid() && entries != []
      modifies this
      ensures Valid() && entries == old(entries)[1..] && entry == old(entries)[0] && dropped == old(dropped)
    {
      entry := entries[0];
      entries := entries[1..];
      bytes := bytes - entry.bytes;
    }
  }

  /** Popping an entry and pushing it back in front restores the queue exactly. */
  method PopThenPushFront<T>(queue: BoundedQueue<T>)
    requires queue.Valid() && queue.entries != []
    modifies queue
    ensures queue.Valid() && queue.entries == old(queue.entries) && queue.dropped == old(queue.dropped)
  {
    var entry := queue.PopFront();
    queue.PushFront(entry.value, entry.bytes);
  }

  // ---- Ingest ----

  /** A batch of native evidence, numbered in submission order. */
  type BatchId = nat

  datatype SendResult = Sent | Retryable | Refused

  /** The server's answer to the n-th request. */
  type Server = nat -> SendResult

  function Ids(entries: seq<Entry<BatchId>>): seq<BatchId> {
    seq(|entries|, k requires 0 <= k < |entries| => entries[k].value)
  }

  /** What became of queued batches: those sent and refused, and those left after a failed send. */
  datatype Drained = Drained(sent: seq<BatchId>, refused: seq<BatchId>, left: seq<Entry<BatchId>>, requests: nat)

  /** Sends oldest first, from request number `n` on, until one cannot be sent for now. */
  function DrainAll(entries: seq<Entry<BatchId>>, server: Server, n: nat): Drained {
    if entries == [] then Drained([], [], [], n)
    else
      match server(n)
      case Retryable => Drained([], [], entries, n + 1)
      case Sent =>
        var rest := DrainAll(entries[1..], server, n + 1);
        rest.(sent := [entries[0].value] + rest.sent)
      case Refused =>
        var rest := DrainAll(entries[1..], server, n + 1);
        rest.(refused := [entries[0].value] + rest.refused)
  }

  /**
   A drain takes a prefix of the queue, each entry answered for good, and stops only at an empty
   queue or at a send that failed for now, which it leaves in place.
   */
  lemma {:induction false} DrainStopsAtFailure(entries: seq<Entry<BatchId>>, server: Server, n: nat)
    ensures var d := DrainAll(entries, server, n); var k := |d.sent| + |d.refused|;
      && k <= |entries| && d.left == entries[k..]
      && (forall m | n <= m < n + k :: !server(m).Retryable?)
      && (if d.left == [] then d.requests == n + k else d.requests == n + k + 1 && server(n + k).Retryable?)
    decreases |entries|
  {
    DrainNone(server, n);
    hide DrainAll;
    if entries != [] {
      DrainStep(entries, server, n, [], []);
      var d, e := DrainAll(entries, server, n), DrainAll(entries[1..], server, n + 1);
      assert |[] + d.sent| == |d.sent| && |[] + d.refused| == |d.refused|;
      if !server(n).Retryable? {
        DrainStopsAtFailure(entries[1..], server, n + 1);
        assert entries[1..][|e.sent| + |e.refused|..] == entries[|e.sent| + |e.refused| + 1..];
      }
    }
  }

  /** Only a batch whose own send succeeded counts as sent. */
  lemma {:induction false} SentWasAccepted(entries: seq<Entry<BatchId>>, server: Server, n: nat, b: BatchId)
      returns (j: nat)
    requires b in DrainAll(entries, server, n).sent
    ensures j < |entries| && entries[j].value == b && server(n + j).Sent?
    decreases |entries|
  {
    if server(n).Sent? && entries[0].value == b {
      j := 0;
    } else {
      var i := SentWasAccepted(entries[1..], server, n + 1, b);
      j := i + 1;
    }
  }

  /** How many entries a drain takes. */
  function Taken(entries: seq<Entry<BatchId>>, server: Server, n: nat): nat {
    var d := DrainAll(entries, server, n);
    |d.sent| + |d.refused|
  }

  /** The batches that a drain records with one answer. */
  function TakenWith(entries: seq<Entry<BatchId>>, server: Server, n: nat, answer: SendResult): seq<BatchId> {
    var d := DrainAll(entries, server, n);
    if answer.Sent? then d.sent else if answer.Refused? then d.refused else []
  }

  /** The answers to `k` requests. */
  function AnswersFrom(server: Server, n: nat, k: nat): seq<SendResult> {
    seq(k, j requires 0 <= j < k => server(n + j))
  }

  lemma ShiftedAnswers(server: Server, n: nat, k: nat, wanted: SendResult -> bool, rest: seq<nat>)
    requires Picks(AnswersFrom(server, n + 1, k), wanted, rest)
    ensures Picks(AnswersFrom(server, n, k + 1), wanted, Shifted(wanted(server(n)), rest))
  {
    var answers := AnswersFrom(server, n, k + 1);
    assert answers[1..] == AnswersFrom(server, n + 1, k) && answers[0] == server(n);
    hide AnswersFrom, Finds, Increasing, Shifted;
    ShiftedFinds(answers, wanted, rest);
    ShiftedIncreases(wanted(server(n)), rest);
  }

  lemma ShiftedIds(entries: seq<Entry<BatchId>>, head: bool, rest: seq<nat>, list: seq<BatchId>)
    requires entries != [] && Lists(Ids(entries[1..]), rest, list)
    ensures Lists(Ids(entries), Shifted(head, rest), (if head then [entries[0].value] else []) + list)
  {
    assert Ids(entries)[1..] == Ids(entries[1..]) && Ids(entries)[0] == entries[0].value;
    hide Ids, Lists, Shifted;
    ShiftedLists(Ids(entries), head, rest, list);
  }

  lemma TakenUnfolds(entries: seq<Entry<BatchId>>, server: Server, n: nat, answer: SendResult)
    requires entries != [] && !server(n).Retryable? && !answer.Retryable?
    ensures Taken(entries, server, n) == Taken(entries[1..], server, n + 1) + 1
    ensures TakenWith(entries, server, n, answer)
      == (if server(n) == answer then [entries[0].value] else []) + TakenWith(entries[1..], server, n + 1, answer)
  {
    var e := DrainAll(entries[1..], server, n + 1);
    assert [] + TakenWith(entries[1..], server, n + 1, answer) == TakenWith(entries[1..], server, n + 1, answer);
  }

  lemma NothingTaken(entries: seq<Entry<BatchId>>, server: Server, n: nat, answer: SendResult)
    requires entries == [] || server(n).Retryable?
    ensures Taken(entries, server, n) == 0 && TakenWith(entries, server, n, answer) == []
  {
  }

  /** `at` are the positions of exactly the requests with that answer, and of the batches recorded with it. */
  ghost predicate Accounts(
    entries: seq<Entry<BatchId>>, server: Server, n: nat, answer: SendResult, wanted: SendResult -> bool, at: seq<nat>)
  {
    && Picks(AnswersFrom(server, n, Taken(entries, server, n)), wanted, at)
    && Lists(Ids(entries), at, TakenWith(entries, server, n, answer))
  }

  /** The batches sent are exactly those whose own send succeeded, in order, and likewise for the refused ones. */
  lemma {:induction false} DrainedExactly(
    entries: seq<Entry<BatchId>>, server: Server, n: nat, answer: SendResult, wanted: SendResult -> bool)
      returns (at: seq<nat>)
    requires !answer.Retryable? && forall x :: wanted(x) <==> x == answer
    ensures Accounts(entries, server, n, answer, wanted, at)
    decreases |entries|
  {
    hide Taken, TakenWith;
    if entries == [] || server(n).Retryable? {
      at := [];
      NothingTaken(entries, server, n, answer);
    } else {
      var rest := DrainedExactly(entries[1..], server, n + 1, answer, wanted);
      at := Shifted(wanted(server(n)), rest);
      hide Picks, Lists, AnswersFrom, Ids, Shifted;
      TakenUnfolds(entries, server, n, answer);
      ShiftedAnswers(server, n, Taken(entries[1..], server, n + 1), wanted, rest);
      ShiftedIds(entries, wanted(server(n)), rest, TakenWith(entries[1..], server, n + 1, answer));
    }
  }

  lemma DrainNone(server: Server, n: nat)
    ensures DrainAll([], server, n) == Drained([], [], [], n)
  {
  }

  lemma DrainStep(entries: seq<Entry<BatchId>>, server: Server, n: nat, delivered: seq<BatchId>, refused: seq<BatchId>)
    requires entries != []
    ensures var d := DrainAll(entries, server, n); var e := DrainAll(entries[1..], server, n + 1);
      if server(n).Retryable? then d == Drained([], [], entries, n + 1)
      else
        && d.left == e.left && d.requests == e.requests
        && delivered + d.sent == (if server(n).Sent? then delivered + [entries[0].value] else delivered) + e.sent
        && refused + d.refused == (if server(n).Refused? then refused + [entries[0].value] else refused) + e.refused
  {
    var e := DrainAll(entries[1..], server, n + 1);
    assert delivered + ([entries[0].value] + e.sent) == (delivered + [entries[0].value]) + e.sent;
    assert refused + ([entries[0].value] + e.refused) == (refused + [entries[0].value]) + e.refused;
  }

  class BrokerClient {
    const server: Server
    const pending: BoundedQueue<BatchId>
    var requests: nat
    var submitted: nat
    ghost var delivered: seq<BatchId>
    ghost var refused: seq<BatchId>

    /**
     Delivered batches, then queued ones, follow submission order without repetition, and every
     submitted batch was delivered, refused or dropped or is queued.
     */
    ghost predicate Valid()
      reads this, pending
    {
      && pending.Valid()
      && Increasing(delivered + Ids(pending.entries))
      && (forall b | b in delivered + Ids(pending.entries) :: b < submitted)
      && submitted == |delivered| + |refused| + |pending.entries| + pending.dropped
    }

    constructor (server: Server)
      ensures Valid() && delivered == [] && refused == [] && submitted == 0 && pending.entries == [] && fresh(pending)
    {
      this.server := server;
      pending := new BoundedQueue(256, 8 * 1024 * 1024);
      requests, submitted, delivered, refused := 0, 0, [], [];
    }

    method Send(batch: BatchId) returns (result: SendResult)
      modifies this`requests, this`delivered, this`refused
      ensures result == server(old(requests)) && requests == old(requests) + 1
      ensures delivered == if result.Sent? then old(delivered) + [batch] else old(delivered)
      ensures refused == if result.Refused? then old(refused) + [batch] else old(refused)
    {
      result := server(requests);
      requests := requests + 1;
      if result.Sent? { delivered := delivered + [batch]; }
      if result.Refused? { refused := refused + [batch]; }
    }

    /** Sends queued batches oldest first until one cannot be sent for now, which goes back in front. */
    method Drain() returns (emptied: bool)
      requires Valid()
      modifies this, pending
      ensures Valid() && submitted == old(submitted) && pending.dropped == old(pending.dropped)
      ensures var d := DrainAll(old(pending.entries), server, old(requests));
        && delivered == old(delivered) + d.sent && refused == old(refused) + d.refused
        && pending.entries == d.left && requests == d.requests && emptied == (d.left == [])
    {
      DrainNone(server, requests);
      hide DrainAll, Increasing, Ids;
      while |pending.entries| > 0
        invariant Valid() && submitted == old(submitted) && pending.dropped == old(pending.dropped)
        invariant var d := DrainAll(old(pending.entries), server, old(requests));
          var e := DrainAll(pending.entries, server, requests);
          && old(delivered) + d.sent == delivered + e.sent && old(refused) + d.refused == refused + e.refused
          && d.left == e.left && d.requests == e.requests
        decreases |pending.entries|
      {
        DrainStep(pending.entries, server, requests, delivered, refused);
        emptied := DrainOne();
        if !emptied {
          return false;
        }
      }
      DrainNone(server, requests);
      emptied := true;
    }

    /** One round: the oldest batch leaves, or stays because it could not be sent for now. */
    method DrainOne() returns (gone: bool)
      requires Valid() && pending.entries != []
      modifies this, pending
      ensures Valid() && submitted == old(submitted) && pending.dropped == old(pending.dropped)
      ensures gone == !server(old(requests)).Retryable? && requests == old(requests) + 1
      ensures pending.entries == if gone then old(pending.entries)[1..] else old(pending.entries)
      ensures delivered == if server(old(requests)).Sent? then old(delivered) + [old(pending.entries)[0].value]
          else old(delivered)
      ensures refused == if server(old(requests)).Refused? then old(refused) + [old(pending.entries)[0].value]
          else old(refused)
    {
      ghost var before := pending.entries;
      HeadAndTail(delivered, before);
      var entry := pending.PopFront();
      var result := Send(entry.value);
      gone := !result.Retryable?;
      if !gone {
        pending.PushFront(entry.value, entry.bytes);
        assert pending.entries == before;
      }
    }

    method Ingest(size: nat) returns (queued: bool)
      requires Valid()
      modifies this, pending
      ensures Valid() && submitted == old(submitted) + 1
      ensures var d := DrainAll(old(pending.entries), server, old(requests));
        && queued == (d.left != [] || server(d.requests).Retryable?)
        && delivered == old(delivered) + d.sent + (if !queued && server(d.requests).Sent? then [old(submitted)] else [])
        && refused == old(refused) + d.refused + (if !queued && server(d.requests).Refused? then [old(submitted)]
                                                  else [])
        && (!queued ==> pending.entries == [])
        && (queued && size <= pending.maxBytes ==>
              pending.entries == d.left[Shed(d.left, size, pending.maxItems, pending.maxBytes)..]
                  + [Entry(old(submitted), size)])
        && (queued && size > pending.maxBytes ==> pending.entries == d.left)
    {
      hide DrainAll;
      var id := submitted;
      var emptied := Drain();
      if emptied {
        queued := SendNew(id);
      } else {
        queued := true;
      }
      if queued {
        Enqueue(id, size);
      }
    }

    /** Sends a new batch past an empty queue; whether it has to be queued. */
    method SendNew(id: BatchId) returns (queued: bool)
      requires Valid() && pending.entries == [] && id == submitted
      modifies this
      ensures queued == server(old(requests)).Retryable? && requests == old(requests) + 1
      ensures queued ==> Valid() && submitted == id
      ensures !queued ==> Valid() && submitted == id + 1
      ensures delivered == if server(old(requests)).Sent? then old(delivered) + [id] else old(delivered)
      ensures refused == if server(old(requests)).Refused? then old(refused) + [id] else old(refused)
    {
      assert Ids(pending.entries) == [] && delivered + [] == delivered;
      AppendKeepsOrder(delivered, id);
      var result := Send(id);
      queued := result.Retryable?;
      if !queued {
        submitted := submitted + 1;
      }
      assert delivered + [] == delivered;
    }

    method Enqueue(id: BatchId, size: nat)
      requires Valid() && id == submitted
      modifies this`submitted, pending
      ensures Valid() && submitted == id + 1
      ensures size <= pending.maxBytes ==>
        pending.entries == old(pending.entries)[Shed(old(pending.entries), size, pending.maxItems,
                                                     pending.maxBytes)..] + [Entry(id, size)]
      ensures size > pending.maxBytes ==> pending.entries == old(pending.entries)
    {
      EnqueueKeepsOrder(delivered, pending.entries, id, size,
                        Shed(pending.entries, size, pending.maxItems, pending.maxBytes));
      pending.PushBack(id, size);
      submitted := submitted + 1;
    }

    method FlushPendingIngest()
      requires Valid()
      modifies this, pending
      ensures Valid() && submitted == old(submitted)
      ensures var d := DrainAll(old(pending.entries), server, old(requests));
        && delivered == old(delivered) + d.sent && refused == old(refused) + d.refused && pending.entries == d.left
    {
      var emptied := Drain();
    }
  }

  lemma AppendKeepsOrder(s: seq<BatchId>, id: BatchId)
    requires Increasing(s) && forall b | b in s :: b < id
    ensures Increasing(s + [id]) && forall b | b in s + [id] :: b <= id
  {
    assert forall i | 0 <= i < |s| :: s[i] in s;
  }

  lemma HeadAndTail(delivered: seq<BatchId>, entries: seq<Entry<BatchId>>)
    requires entries != [] && Increasing(delivered + Ids(entries))
    ensures delivered + Ids(entries) == delivered + [entries[0].value] + Ids(entries[1..])
    ensures Increasing(delivered + Ids(entries[1..]))
    ensures forall b | b in delivered + Ids(entries[1..]) :: b in delivered + Ids(entries)
  {
    var all := delivered + Ids(entries);
    var rest := delivered + Ids(entries[1..]);
    assert Ids(entries) == [entries[0].value] + Ids(entries[1..]);
    forall i, j | 0 <= i < j < |rest| ensures rest[i] < rest[j] {
      var i', j' := if i < |delivered| then i else i + 1, if j < |delivered| then j else j + 1;
      assert rest[i] == all[i'] && rest[j] == all[j'];
    }
    forall b | b in rest ensures b in all {
      var i :| 0 <= i < |rest| && rest[i] == b;
      assert all[if i < |delivered| then i else i + 1] == b;
    }
  }

  lemma EnqueueKeepsOrder(delivered: seq<BatchId>, entries: seq<Entry<BatchId>>, id: BatchId, size: nat, k: nat)
    requires k <= |entries| && Increasing(delivered + Ids(entries)) && forall b | b in delivered + Ids(entries) ::
        b < id
    ensures var next := delivered + Ids(entries[k..] + [Entry(id, size)]);
      Increasing(next) && forall b | b in next :: b <= id
  {
    var all := delivered + Ids(entries);
    var next := delivered + Ids(entries[k..] + [Entry(id, size)]);
    forall i | 0 <= i < |next| - 1 ensures next[i] == all[if i < |delivered| then i else i + k] && next[i] < id {
      var m := if i < |delivered| then i else i + k;
      assert all[m] in all;
    }
    assert next[|next| - 1] == id;
  }
}

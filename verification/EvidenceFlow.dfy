/**
 Evidence conservation in the Node agent: every event offered to the buffer is delivered, dropped,
 queued or in flight, at every point of every run, with enqueues landing while a flush is awaited.
 */
module EvidenceFlow {
  import opened IngestIsolation
  import opened EventBuffer

  // ---- A flush as the source performs it ----

  lemma Halves(all: seq<Event>, k: nat)
    requires k <= |all|
    ensures multiset(all[..k]) + multiset(all[k..]) == multiset(all)
  {
    assert all == all[..k] + all[k..];
  }

  lemma Join(a: seq<Event>, b: seq<Event>)
    ensures multiset(a + b) == multiset(a) + multiset(b)
  {
  }

  /** What moves out of one part and into another leaves the sum alone. */
  lemma Shift(part: multiset<Event>, part': multiset<Event>, out: multiset<Event>, into: multiset<Event>,
              other: multiset<Event>)
    requires part' + out == part + into
    ensures part' + (other + out) == part + other + into
  {
    forall e ensures part'[e] + out[e] == part[e] + into[e] {
      assert (part' + out)[e] == (part + into)[e];
    }
  }

  lemma EnqueueConserves(before: seq<Event>, k: nat, event: Event)
    requires k <= |before|
    ensures multiset(before[k..] + [event]) + multiset(before[..k]) == multiset(before) + multiset{event}
  {
    Halves(before, k);
    Join(before[k..], [event]);
  }

  lemma {:induction false} ReversedConserves(events: seq<Event>)
    ensures multiset(Reversed(events)) == multiset(events)
  {
    if events != [] {
      ReversedConserves(events[1..]);
      assert events == [events[0]] + events[1..];
    }
  }

  lemma RequeueConserves(batch: seq<Event>, queue: seq<Event>, k: nat)
    requires k <= |batch| + |queue|
    ensures multiset((batch + queue)[..k]) + multiset(Reversed((batch + queue)[k..]))
        == multiset(batch) + multiset(queue)
  {
    var all := batch + queue;
    ReversedConserves(all[k..]);
    Halves(all, k);
    Join(batch, queue);
  }

  /** The queue after more events were offered, one by one. */
  function OfferAll(queue: seq<Event>, events: seq<Event>, maxBytes: nat): seq<Event>
    decreases |events|
  {
    if events == [] then queue
    else
      var front, event := OfferAll(queue, events[..|events| - 1], maxBytes), events[|events| - 1];
      if event.bytes > maxBytes then front
      else front[Excess(front, event.bytes, maxBytes)..] + [event]
  }

  lemma OneMore(queue: seq<Event>, events: seq<Event>, n: nat, maxBytes: nat)
    requires n < |events|
    ensures var front := OfferAll(queue, events[..n], maxBytes);
      OfferAll(queue, events[..n + 1], maxBytes) == if events[n].bytes > maxBytes then front
        else front[Excess(front, events[n].bytes, maxBytes)..] + [events[n]]
    ensures multiset(events[..n + 1]) == multiset(events[..n]) + multiset{events[n]}
  {
    assert events[..n + 1][..n] == events[..n];
    assert events[..n + 1] == events[..n] + [events[n]];
    Join(events[..n], [events[n]]);
  }

  method EnqueueAll(buffer: EventBuffer, events: seq<Event>)
    requires buffer.Valid()
    modifies buffer
    ensures buffer.Valid() && buffer.events == OfferAll(old(buffer.events), events, buffer.maxBytes)
    ensures multiset(buffer.events) + multiset(buffer.lost)
        == multiset(old(buffer.events)) + multiset(old(buffer.lost)) + multiset(events)
  {
    assert events[..0] == [];
    hide Excess, Size;
    for n := 0 to |events|
      invariant buffer.Valid() && buffer.events == OfferAll(old(buffer.events), events[..n], buffer.maxBytes)
      invariant multiset(buffer.events) + multiset(buffer.lost)
             == multiset(old(buffer.events)) + multiset(old(buffer.lost)) + multiset(events[..n])
    {
      EnqueueOne(buffer, events[n]);
      OneMore(old(buffer.events), events, n, buffer.maxBytes);
    }
    assert events[..|events|] == events;
  }

  method EnqueueOne(buffer: EventBuffer, event: Event)
    requires buffer.Valid()
    modifies buffer
    ensures buffer.Valid()
    ensures buffer.events == if event.bytes > buffer.maxBytes then old(buffer.events)
      else old(buffer.events)[Excess(old(buffer.events), event.bytes, buffer.maxBytes)..] + [event]
    ensures multiset(buffer.events) + multiset(buffer.lost)
        == multiset(old(buffer.events)) + multiset(old(buffer.lost)) + multiset{event}
  {
    ghost var before, lost := buffer.events, buffer.lost;
    var queued := buffer.Enqueue(event);
    ghost var k := Excess(before, event.bytes, buffer.maxBytes);
    hide Excess, Size;
    if queued {
      EnqueueConserves(before, k, event);
      Join(lost, before[..k]);
      Shift(multiset(before), multiset(buffer.events), multiset(before[..k]), multiset{event}, multiset(lost));
    } else {
      Join(lost, [event]);
    }
  }

  /** What becomes of the batch once its requests are answered. */
  method Settle(buffer: EventBuffer, rejected: seq<Event>, deferred: seq<Event>)
    requires buffer.Valid()
    modifies buffer
    ensures buffer.Valid()
    ensures var all := deferred + old(buffer.events); buffer.events == all[..Fitting(all, buffer.maxBytes)]
    ensures multiset(buffer.events) + multiset(buffer.lost)
         == multiset(old(buffer.events)) + multiset(old(buffer.lost)) + multiset(rejected) + multiset(deferred)
  {
    ghost var lost := buffer.lost;
    AllFit(buffer.events, buffer.maxBytes);
    hide Size, Fitting;
    if |rejected| > 0 {
      buffer.RecordRejected(rejected);
      Join(lost, rejected);
    }
    if |deferred| > 0 {
      ghost var queue, k := buffer.events, Fitting(deferred + buffer.events, buffer.maxBytes);
      RequeueConserves(deferred, queue, k);
      lost := buffer.lost;
      buffer.RequeueFront(deferred);
      ghost var out := Reversed((deferred + queue)[k..]);
      Join(lost, out);
      Shift(multiset(queue), multiset(buffer.events), multiset(out), multiset(deferred), multiset(lost));
    } else {
      assert deferred + buffer.events == buffer.events;
      assert buffer.events[..|buffer.events|] == buffer.events;
    }
  }

  /** The sums of a flush, part by part. */
  lemma Totals(queue: multiset<Event>, lost: multiset<Event>, accepted: multiset<Event>, drained: multiset<Event>,
               queued: multiset<Event>, batch: multiset<Event>, waiting: multiset<Event>, lost1: multiset<Event>,
               delivered: multiset<Event>, rejected: multiset<Event>, deferred: multiset<Event>,
                   during: multiset<Event>,
               arrived: multiset<Event>, lost2: multiset<Event>, queue': multiset<Event>, lost': multiset<Event>)
    requires queued + lost1 == queue + lost + drained && queued == batch + waiting
    requires delivered + rejected + deferred == batch
    requires arrived + lost2 == waiting + lost1 + during
    requires queue' + lost' == arrived + lost2 + rejected + deferred
    ensures queue' + lost' + (accepted + delivered) == queue + lost + accepted + drained + during
  {
    forall e
      ensures (queue' + lost' + (accepted + delivered))[e] == (queue + lost + accepted + drained + during)[e]
    {
      assert queued[e] + lost1[e] == (queue + lost + drained)[e] && queued[e] == batch[e] + waiting[e];
      assert (delivered + rejected + deferred)[e] == batch[e];
      assert (arrived + lost2)[e] == (waiting + lost1 + during)[e];
      assert (queue' + lost')[e] == (arrived + lost2 + rejected + deferred)[e];
    }
  }

  /** The queue, and what the batch comes to, at the end of a flush. */
  datatype Flushed = Flushed(queue: seq<Event>, isolation: Isolation)

  function FlushSpec(queue: seq<Event>, drained: seq<Event>, budget: nat, during: seq<Event>,
                     broker: Broker, requests: nat, maxBytes: nat): Flushed
  {
    var queued := OfferAll(queue, drained, maxBytes);
    var k := if budget == 0 then 0 else BatchLength(queued, budget, 0, true);
    var r := Isolate(queued[..k], broker, requests, MAX_INGEST_SPLITS);
    var all := r.deferred + OfferAll(queued[k..], during, maxBytes);
    Flushed(all[..Fitting(all, maxBytes)], r)
  }

  /**
   One `#flush`: the drained aggregates are queued, a batch is taken and sent, and `during` is what
   the application queues while the requests are awaited. Deferred events are back in front of
   everything that arrived meanwhile.
   */
  method Flush(buffer: EventBuffer, connection: Connection, drained: seq<Event>, byteBudget: nat, during: seq<Event>)
    requires buffer.Valid()
    modifies buffer, connection
    ensures buffer.Valid()
    ensures var f := FlushSpec(old(buffer.events), drained, byteBudget, during, connection.broker,
                               old(connection.requests), buffer.maxBytes);
      && buffer.events == f.queue && connection.accepted == old(connection.accepted) + f.isolation.delivered
      && connection.requests == f.isolation.requests
    ensures old(connection.requests) < connection.requests <= old(connection.requests) + 1 + 2 * MAX_INGEST_SPLITS
    ensures multiset(buffer.events) + multiset(buffer.lost) + multiset(connection.accepted)
         == multiset(old(buffer.events)) + multiset(old(buffer.lost)) + multiset(old(connection.accepted))
          + multiset(drained) + multiset(during)
  {
    hide Isolate, BatchLength, OfferAll, Fitting, Size;
    EnqueueAll(buffer, drained);
    ghost var queued := buffer.events;
    var batch := buffer.TakeBatch(byteBudget);
    assert multiset(queued) == multiset(batch) + multiset(buffer.events);
    assert batch == queued[..|batch|] && buffer.events == queued[|batch|..];
    var budget := new Budget(MAX_INGEST_SPLITS);
    IsolationConserves(batch, connection.broker, connection.requests, MAX_INGEST_SPLITS);
    RequestsAreBounded(batch, connection.broker, connection.requests, MAX_INGEST_SPLITS);
    ghost var r := Isolate(batch, connection.broker, connection.requests, MAX_INGEST_SPLITS);
    var rejected, deferred := IngestIsolating(batch, connection, budget);
    Join(old(connection.accepted), r.delivered);
    ghost var waiting, lost := buffer.events, buffer.lost;
    EnqueueAll(buffer, during);
    ghost var arrived, lost' := buffer.events, buffer.lost;
    Settle(buffer, rejected, deferred);
    Totals(multiset(old(buffer.events)), multiset(old(buffer.lost)), multiset(old(connection.accepted)),
           multiset(drained), multiset(queued), multiset(batch), multiset(waiting), multiset(lost),
           multiset(r.delivered), multiset(rejected), multiset(deferred), multiset(during),
           multiset(arrived), multiset(lost'), multiset(buffer.events), multiset(buffer.lost));
  }

  // ---- Every point of every run ----

  /** `flushing` says that a batch is out; at most one flush runs at a time. */
  datatype Flow = Flow(
    queue: seq<Event>, inFlight: seq<Event>, flushing: bool, requests: nat,
    offered: multiset<Event>, delivered: multiset<Event>, lost: multiset<Event>)

  const Start := Flow([], [], false, 0, multiset{}, multiset{}, multiset{})

  datatype Step =
    | Offer(event: Event)
    | Take(budget: nat)
    | Answered(splits: nat)

  predicate Enabled(f: Flow, step: Step) {
    match step
    case Offer(_) => true
    case Take(_) => !f.flushing
    case Answered(_) => f.flushing
  }

  function DoOffer(f: Flow, event: Event, maxBytes: nat): Flow {
    var k := Excess(f.queue, event.bytes, maxBytes);
    if event.bytes > maxBytes then f.(offered := f.offered + multiset{event}, lost := f.lost + multiset{event})
    else f.(queue := f.queue[k..] + [event], offered := f.offered + multiset{event},
            lost := f.lost + multiset(f.queue[..k]))
  }

  function DoTake(f: Flow, budget: nat): Flow {
    var k := if budget == 0 then 0 else BatchLength(f.queue, budget, 0, true);
    f.(queue := f.queue[k..], inFlight := f.queue[..k], flushing := true)
  }

  function DoAnswered(f: Flow, broker: Broker, maxBytes: nat, splits: nat): Flow {
    var r := Isolate(f.inFlight, broker, f.requests, splits);
    var all := r.deferred + f.queue;
    var k := Fitting(all, maxBytes);
    f.(queue := all[..k], inFlight := [], flushing := false, requests := r.requests,
       delivered := f.delivered + multiset(r.delivered),
       lost := f.lost + multiset(r.rejected) + multiset(all[k..]))
  }

  function Apply(f: Flow, broker: Broker, maxBytes: nat, step: Step): Flow {
    match step
    case Offer(event) => DoOffer(f, event, maxBytes)
    case Take(budget) => DoTake(f, budget)
    case Answered(splits) => DoAnswered(f, broker, maxBytes, splits)
  }

  ghost predicate Run(fs: seq<Flow>, broker: Broker, maxBytes: nat, steps: seq<Step>) {
    && |fs| == |steps| + 1
    && fs[0] == Start
    && forall k | 0 <= k < |steps| :: Enabled(fs[k], steps[k]) && fs[k + 1] == Apply(fs[k], broker, maxBytes, steps[k])
  }

  ghost predicate Conserved(f: Flow, maxBytes: nat) {
    && f.offered == f.delivered + f.lost + multiset(f.queue) + multiset(f.inFlight)
    && Size(f.queue) <= maxBytes
    && (!f.flushing ==> f.inFlight == [])
  }

  lemma OfferFits(queue: seq<Event>, event: Event, maxBytes: nat)
    requires event.bytes <= maxBytes
    ensures Size(queue[Excess(queue, event.bytes, maxBytes)..] + [event]) <= maxBytes
  {
    var k := Excess(queue, event.bytes, maxBytes);
    SizeConcat(queue[k..], [event]);
    assert Size([event]) == event.bytes;
  }

  lemma Offering(queue: multiset<Event>, queue': multiset<Event>, out: multiset<Event>, event: multiset<Event>,
                 lost: multiset<Event>, delivered: multiset<Event>, batch: multiset<Event>)
    requires queue' + out == queue + event
    ensures delivered + lost + queue + batch + event == delivered + (lost + out) + queue' + batch
  {
    forall e ensures queue'[e] + out[e] == queue[e] + event[e] {
      assert (queue' + out)[e] == (queue + event)[e];
    }
  }

  lemma OfferConserves(f: Flow, event: Event, maxBytes: nat)
    requires Conserved(f, maxBytes)
    ensures Conserved(DoOffer(f, event, maxBytes), maxBytes)
  {
    hide Excess, Size;
    var k := Excess(f.queue, event.bytes, maxBytes);
    if event.bytes <= maxBytes {
      OfferFits(f.queue, event, maxBytes);
      EnqueueConserves(f.queue, k, event);
      Offering(multiset(f.queue), multiset(f.queue[k..] + [event]), multiset(f.queue[..k]), multiset{event},
               f.lost, f.delivered, multiset(f.inFlight));
    }
  }

  lemma TakeConserves(f: Flow, budget: nat, maxBytes: nat)
    requires Conserved(f, maxBytes) && !f.flushing
    ensures Conserved(DoTake(f, budget), maxBytes)
  {
    var k := if budget == 0 then 0 else BatchLength(f.queue, budget, 0, true);
    assert f.queue == f.queue[..k] + f.queue[k..];
    SizeConcat(f.queue[..k], f.queue[k..]);
  }

  lemma AnsweredConserves(f: Flow, broker: Broker, maxBytes: nat, splits: nat)
    requires Conserved(f, maxBytes)
    ensures Conserved(DoAnswered(f, broker, maxBytes, splits), maxBytes)
  {
    hide Isolate, Size;
    IsolationConserves(f.inFlight, broker, f.requests, splits);
    var all := Isolate(f.inFlight, broker, f.requests, splits).deferred + f.queue;
    var k := Fitting(all, maxBytes);
    Halves(all, k);
    var r := Isolate(f.inFlight, broker, f.requests, splits);
    Join(r.deferred, f.queue);
    Settlement(multiset(f.inFlight), multiset(r.delivered), multiset(r.rejected), multiset(r.deferred),
               multiset(f.queue), multiset(all[..k]), multiset(all[k..]), f.delivered, f.lost);
  }

  lemma Settlement(batch: multiset<Event>, d: multiset<Event>, r: multiset<Event>, f: multiset<Event>,
                   queue: multiset<Event>, kept: multiset<Event>, cut: multiset<Event>, delivered: multiset<Event>,
                       lost: multiset<Event>)
    requires d + r + f == batch && kept + cut == f + queue
    ensures delivered + lost + queue + batch == (delivered + d) + (lost + r + cut) + kept
  {
    forall e ensures d[e] + r[e] + f[e] == batch[e] && kept[e] + cut[e] == f[e] + queue[e] {
      assert (d + r + f)[e] == batch[e] && (kept + cut)[e] == (f + queue)[e];
    }
  }

  lemma {:induction false} RunConserves(fs: seq<Flow>, broker: Broker, maxBytes: nat, steps: seq<Step>, k: nat)
    requires Run(fs, broker, maxBytes, steps) && k < |fs|
    ensures Conserved(fs[k], maxBytes)
  {
    hide DoOffer, DoTake, DoAnswered;
    if k > 0 {
      RunConserves(fs, broker, maxBytes, steps, k - 1);
      match steps[k - 1]
      case Offer(event) => OfferConserves(fs[k - 1], event, maxBytes);
      case Take(budget) => TakeConserves(fs[k - 1], budget, maxBytes);
      case Answered(splits) => AnsweredConserves(fs[k - 1], broker, maxBytes, splits);
    }
  }

  /** Offered = delivered + dropped + queued + in flight, and the queue stays within its bytes. */
  lemma EvidenceIsConserved(fs: seq<Flow>, broker: Broker, maxBytes: nat, steps: seq<Step>, k: nat)
    requires Run(fs, broker, maxBytes, steps) && k < |fs|
    ensures fs[k].offered == fs[k].delivered + fs[k].lost + multiset(fs[k].queue) + multiset(fs[k].inFlight)
    ensures Size(fs[k].queue) <= maxBytes
  {
    RunConserves(fs, broker, maxBytes, steps, k);
  }

  /**
   When every offered event is distinct, no delivered event is queued, in flight or dropped, and none
   is delivered twice.
   */
  lemma DeliveredStaysDelivered(fs: seq<Flow>, broker: Broker, maxBytes: nat, steps: seq<Step>, k: nat, event: Event)
    requires Run(fs, broker, maxBytes, steps) && k < |fs|
    requires fs[k].offered[event] <= 1 && event in fs[k].delivered
    ensures fs[k].delivered[event] == 1
    ensures event !in fs[k].queue && event !in fs[k].inFlight && event !in fs[k].lost
  {
    RunConserves(fs, broker, maxBytes, steps, k);
    assert multiset(fs[k].queue)[event] == 0 && multiset(fs[k].inFlight)[event] == 0;
  }
}

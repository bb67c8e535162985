/**
 The kernel-side accounting of native/bpf/src/liveprobe.bpf.c as atomic steps of many threads:
 hit reservation by fetch-add and undo, sampling, and a token bucket packed in one 64-bit word.
 Each program execution has its own id; any number of them interleave.
 */
module Kernel {

  const U32 := 0x1_0000_0000
  const U64 := 0x1_0000_0000_0000_0000

  type Exec = nat

  // ---- Hit reservation ----

  /** Where an execution is: it took the counter past the limit, holds a reservation, or submitted its event. */
  datatype Phase = Overshot | Reserved | Submitted

  /** `captures` is the shared counter. An execution that gave its slot back is gone from `phase`. */
  datatype Hits = Hits(captures: nat, phase: map<Exec, Phase>)

  datatype HitStep =
    | FetchAdd(e: Exec)
    | Undo(e: Exec)
    | RingFull(e: Exec)
    | Submit(e: Exec)

  /** Fewer than 2^64 executions hold the counter up at once, so fetch-add does not wrap. */
  predicate HitEnabled(s: Hits, a: HitStep) {
    match a
    case FetchAdd(e) => e !in s.phase && |s.phase| + 1 < U64
    case Undo(e) => e in s.phase && s.phase[e].Overshot?
    case RingFull(e) => e in s.phase && s.phase[e].Reserved?
    case Submit(e) => e in s.phase && s.phase[e].Reserved?
  }

  function HitApply(s: Hits, limit: nat, a: HitStep): Hits
    requires HitEnabled(s, a)
  {
    match a
    case FetchAdd(e) =>
      Hits((s.captures + 1) % U64, s.phase[e := if s.captures >= limit then Overshot else Reserved])
    case Undo(e) => Hits((s.captures + U64 - 1) % U64, s.phase - {e})
    case RingFull(e) => Hits((s.captures + U64 - 1) % U64, s.phase - {e})
    case Submit(e) => s.(phase := s.phase[e := Submitted])
  }

  /** Executions whose reservation stands. */
  ghost function Kept(s: Hits): set<Exec> {
    set e | e in s.phase && !s.phase[e].Overshot?
  }

  ghost function Overshooting(s: Hits): set<Exec> {
    set e | e in s.phase && s.phase[e].Overshot?
  }

  ghost predicate HitInv(s: Hits, limit: nat) {
    && s.captures == |s.phase| < U64
    && |Kept(s)| <= limit
  }

  lemma HitParts(s: Hits)
    ensures |s.phase| == |Kept(s)| + |Overshooting(s)|
  {
    assert s.phase.Keys == Kept(s) + Overshooting(s);
    assert |s.phase| == |s.phase.Keys|;
  }

  lemma ReserveKeepsInv(s: Hits, limit: nat, e: Exec)
    requires HitInv(s, limit) && HitEnabled(s, FetchAdd(e))
    ensures HitInv(HitApply(s, limit, FetchAdd(e)), limit)
  {
    var s' := HitApply(s, limit, FetchAdd(e));
    HitParts(s);
    assert s'.phase.Keys == s.phase.Keys + {e};
    assert |s'.phase| == |s'.phase.Keys| == |s.phase| + 1;
    assert Kept(s') == if s.captures >= limit then Kept(s) else Kept(s) + {e};
  }

  /** Undoing an overshoot, or giving a slot back when the ring is full. */
  lemma GiveBackKeepsInv(s: Hits, s': Hits, limit: nat, e: Exec)
    requires HitInv(s, limit) && e in s.phase
    requires s' == Hits((s.captures + U64 - 1) % U64, s.phase - {e})
    ensures HitInv(s', limit)
  {
    assert s.phase.Keys == s'.phase.Keys + {e};
    assert |s.phase| == |s.phase.Keys| == |s'.phase.Keys| + 1 == |s'.phase| + 1;
    assert Kept(s') == Kept(s) - {e};
    SubsetSize(Kept(s'), Kept(s));
  }

  lemma {:induction false} SubsetSize(a: set<Exec>, b: set<Exec>)
    requires a <= b
    ensures |a| <= |b|
  {
    if a != {} {
      var x :| x in a;
      SubsetSize(a - {x}, b - {x});
    }
  }

  lemma HitStepKeepsInv(s: Hits, limit: nat, a: HitStep)
    requires HitInv(s, limit) && HitEnabled(s, a)
    ensures HitInv(HitApply(s, limit, a), limit)
  {
    hide HitInv;
    match a
    case FetchAdd(e) => ReserveKeepsInv(s, limit, e);
    case Undo(e) => GiveBackKeepsInv(s, HitApply(s, limit, a), limit, e);
    case RingFull(e) => GiveBackKeepsInv(s, HitApply(s, limit, a), limit, e);
    case Submit(e) => SubmitKeepsInv(s, limit, e);
  }

  lemma SubmitKeepsInv(s: Hits, limit: nat, e: Exec)
    requires HitInv(s, limit) && HitEnabled(s, Submit(e))
    ensures HitInv(HitApply(s, limit, Submit(e)), limit)
  {
    var s' := HitApply(s, limit, Submit(e));
    assert s'.phase.Keys == s.phase.Keys;
    assert |s'.phase| == |s'.phase.Keys| == |s.phase.Keys| == |s.phase|;
    assert Kept(s') == Kept(s);
  }

  ghost predicate HitRun(states: seq<Hits>, limit: nat, steps: seq<HitStep>) {
    && |states| == |steps| + 1
    && states[0] == Hits(0, map[])
    && forall k | 0 <= k < |steps| :: HitEnabled(states[k], steps[k])
        && states[k + 1] == HitApply(states[k], limit, steps[k])
  }

  lemma {:induction false} HitRunInv(states: seq<Hits>, limit: nat, steps: seq<HitStep>, k: nat)
    requires HitRun(states, limit, steps) && k < |states|
    ensures HitInv(states[k], limit)
  {
    if k > 0 {
      HitRunInv(states, limit, steps, k - 1);
      HitStepKeepsInv(states[k - 1], limit, steps[k - 1]);
    } else {
      assert Kept(states[0]) == {};
    }
  }

  /**
   At every point of every interleaving at most `limit` reservations stand. The counter may exceed
   the limit, but only by executions still on their way to undo; once they have, it counts exactly
   the reservations that stand.
   */
  lemma ReservationsNeverExceedLimit(states: seq<Hits>, limit: nat, steps: seq<HitStep>, k: nat)
    requires HitRun(states, limit, steps) && k < |states|
    ensures |Kept(states[k])| <= limit
    ensures states[k].captures == |Kept(states[k])| + |Overshooting(states[k])|
    ensures Overshooting(states[k]) == {} ==> states[k].captures <= limit
  {
    HitRunInv(states, limit, steps, k);
    HitParts(states[k]);
  }

  // ---- Sampling ----

  /**
   `accepted` is the shared 64-bit counter, `holding` the sequence numbers of executions that have
   added to it and not decided yet, `passed` how many were let through, and `hits` how many there were.
   A plan that samples every zero hits counts nothing and lets nothing through.
   */
  datatype Sampling = Sampling(accepted: nat, holding: map<Exec, nat>, passed: nat, hits: nat)

  datatype SampleStep = AddRawHit(e: Exec) | Decide(e: Exec)

  predicate SampleEnabled(s: Sampling, a: SampleStep) {
    match a
    case AddRawHit(e) => e !in s.holding
    case Decide(e) => e in s.holding
  }

  predicate Passes(sequence: nat, every: nat)
    requires every > 0
  {
    every == 1 || sequence % every == 0
  }

  function SampleApply(s: Sampling, every: nat, a: SampleStep): Sampling
    requires SampleEnabled(s, a) && every > 0
  {
    match a
    case AddRawHit(e) =>
      var sequence := (s.accepted + 1) % U64;
      Sampling(sequence, s.holding[e := sequence], s.passed, s.hits + 1)
    case Decide(e) =>
      s.(holding := s.holding - {e}, passed := if Passes(s.holding[e], every) then s.passed + 1 else s.passed)
  }

  ghost predicate SampleRun(states: seq<Sampling>, every: nat, steps: seq<SampleStep>) {
    && every > 0 && |states| == |steps| + 1
    && states[0] == Sampling(0, map[], 0, 0)
    && forall k | 0 <= k < |steps| ::
         SampleEnabled(states[k], steps[k]) && states[k + 1] == SampleApply(states[k], every, steps[k])
  }

  /** Executions that will pass once they decide. */
  ghost function Passing(s: Sampling, every: nat): set<Exec>
    requires every > 0
  {
    set e | e in s.holding && Passes(s.holding[e], every)
  }

  ghost predicate SampleInv(s: Sampling, every: nat)
    requires every > 0
  {
    s.hits < U64 ==> s.accepted == s.hits && s.passed + |Passing(s, every)| == s.hits / every
  }

  lemma DivStep(n: nat, every: nat)
    requires every > 0
    ensures (n + 1) / every == n / every + (if (n + 1) % every == 0 then 1 else 0)
  {
    var q, r := n / every, n % every;
    assert n == q * every + r;
    if r + 1 == every {
      assert n + 1 == (q + 1) * every;
      DivUnique(n + 1, every, q + 1, 0);
    } else {
      DivUnique(n + 1, every, q, r + 1);
    }
  }

  lemma DivUnique(n: nat, d: nat, q: nat, r: nat)
    requires d > 0 && r < d && n == q * d + r
    ensures n / d == q && n % d == r
  {
    var q', r' := n / d, n % d;
    assert q * d + r == d * q' + r';
    assert (q - q') * d == r' - r;
    if q > q' { MulGap(q - q', d); }
    if q < q' { MulGap(q' - q, d); }
  }

  lemma MulGap(x: int, d: nat)
    requires x >= 1
    ensures x * d >= d
    ensures (0 - x) * d + d <= 0
  {
    assert (x - 1) * d >= 0;
  }

  lemma AddKeepsSamples(s: Sampling, every: nat, e: Exec)
    requires every > 0 && SampleInv(s, every) && SampleEnabled(s, AddRawHit(e))
    ensures SampleInv(SampleApply(s, every, AddRawHit(e)), every)
  {
    var s' := SampleApply(s, every, AddRawHit(e));
    if s'.hits < U64 {
      DivStep(s.hits, every);
      var passes := Passes(s.hits + 1, every);
      assert Passing(s', every) == if passes then Passing(s, every) + {e} else Passing(s, every);
      assert every == 1 ==> (s.hits + 1) % every == 0;
    }
  }

  lemma DecideKeepsSamples(s: Sampling, every: nat, e: Exec)
    requires every > 0 && SampleInv(s, every) && SampleEnabled(s, Decide(e))
    ensures SampleInv(SampleApply(s, every, Decide(e)), every)
  {
    var s' := SampleApply(s, every, Decide(e));
    assert Passing(s', every) == Passing(s, every) - {e};
    assert e in Passing(s, every) <==> Passes(s.holding[e], every);
  }

  lemma {:induction false} SampleRunInv(states: seq<Sampling>, every: nat, steps: seq<SampleStep>, k: nat)
    requires SampleRun(states, every, steps) && k < |states|
    ensures SampleInv(states[k], every)
  {
    if k == 0 {
      assert Passing(states[0], every) == {};
      DivUnique(0, every, 0, 0);
    } else {
      hide SampleApply, SampleInv;
      SampleRunInv(states, every, steps, k - 1);
      match steps[k - 1]
      case AddRawHit(e) => AddKeepsSamples(states[k - 1], every, e);
      case Decide(e) => DecideKeepsSamples(states[k - 1], every, e);
    }
  }

  /**
   Under every interleaving of additions and decisions, for up to 2^64 hits: of the hits so far one
   in `every` was let through or will be, and once all have decided exactly that many were.
   */
  lemma SamplingIsExact(states: seq<Sampling>, every: nat, steps: seq<SampleStep>, k: nat)
    requires SampleRun(states, every, steps) && k < |states| && states[k].hits < U64
    ensures states[k].passed + |Passing(states[k], every)| == states[k].hits / every
    ensures states[k].holding == map[] ==> states[k].passed == states[k].hits / every
  {
    SampleRunInv(states, every, steps, k);
    if states[k].holding == map[] { assert Passing(states[k], every) == {}; }
  }

  // ---- Token bucket ----

  datatype Plan = Plan(refill: nat, burst: nat)

  predicate PlanOk(p: Plan) {
    p.refill < U32 && p.burst < U32
  }

  /** `|` on natural numbers, bit by bit. */
  function BitOr(a: nat, b: nat): nat
    decreases a + b
  {
    if a == 0 && b == 0 then 0
    else (if a % 2 == 1 || b % 2 == 1 then 1 else 0) + 2 * BitOr(a / 2, b / 2)
  }

  /** 2^k. */
  function Shift(k: nat): nat {
    if k == 0 then 1 else 2 * Shift(k - 1)
  }

  lemma ShiftHalves(x: nat, k: nat)
    requires k > 0
    ensures (x * Shift(k)) % 2 == 0 && (x * Shift(k)) / 2 == x * Shift(k - 1)
  {
    assert x * Shift(k) == 2 * (x * Shift(k - 1));
  }

  /** Where the low `k` bits are zero, `|` with something that fits in them adds. */
  lemma {:induction false} OrAdds(x: nat, t: nat, k: nat)
    requires t < Shift(k)
    ensures BitOr(x * Shift(k), t) == x * Shift(k) + t
    decreases k
  {
    if k == 0 {
      OrZero(x);
    } else if x * Shift(k) != 0 || t != 0 {
      ShiftHalves(x, k);
      OrAdds(x, t / 2, k - 1);
    }
  }

  lemma {:induction false} OrZero(x: nat)
    ensures BitOr(x, 0) == x
  {
    if x > 0 { OrZero(x / 2); }
  }

  lemma {:induction false} ShiftSplit(j: nat, k: nat)
    ensures Shift(j + k) == Shift(j) * Shift(k)
  {
    if k > 0 { ShiftSplit(j, k - 1); }
  }

  lemma ShiftIsU32()
    ensures Shift(32) == U32
  {
    assert Shift(8) == 256;
    ShiftSplit(8, 8);
    ShiftSplit(16, 16);
  }

  /** `(second << 32) | (u32) tokens`, in 64-bit arithmetic. */
  function Pack(second: nat, tokens: nat): nat {
    BitOr((second * U32) % U64, tokens % U32)
  }

  function SecondOf(word: nat): nat {
    word / U32
  }

  function TokensOf(word: nat): nat {
    word % U32
  }

  /** Second and tokens share the word without touching each other. */
  lemma PackUnpacks(second: nat, tokens: nat)
    requires second < U32 && tokens < U32
    ensures Pack(second, tokens) == second * U32 + tokens < U64
    ensures SecondOf(Pack(second, tokens)) == second && TokensOf(Pack(second, tokens)) == tokens
  {
    PackIsSum(second, tokens);
    hide Pack;
  }

  lemma PackIsSum(second: nat, tokens: nat)
    requires second < U32 && tokens < U32
    ensures Pack(second, tokens) == second * U32 + tokens < U64
  {
    ShiftIsU32();
    OrAdds(second, tokens, 32);
    HalvesFit(second, tokens);
    hide BitOr, Shift;
  }

  lemma HalvesFit(second: nat, tokens: nat)
    requires second < U32 && tokens < U32
    ensures (second * 0x1_0000_0000) % U64 == second * 0x1_0000_0000 && tokens % U32 == tokens
    ensures second * 0x1_0000_0000 + tokens < U64
  {
  }

  /** Tokens seen by an execution that read `word` with clock `now`, in 64-bit arithmetic. */
  function Refilled(word: nat, plan: Plan, now: nat): nat {
    if now > SecondOf(word) then
      var added := ((now - SecondOf(word)) * plan.refill) % U64;
      var tokens := (TokensOf(word) + added) % U64;
      if tokens > plan.burst then plan.burst else tokens
    else TokensOf(word)
  }

  function NextWord(word: nat, plan: Plan, now: nat): nat
    requires Refilled(word, plan, now) > 0
  {
    Pack(if now > SecondOf(word) then now else SecondOf(word), Refilled(word, plan, now) - 1)
  }

  /** No intermediate value overflows while seconds fit 32 bits. */
  lemma RefillDoesNotOverflow(word: nat, plan: Plan, now: nat)
    requires PlanOk(plan) && word < U64 && now < U32 && now > SecondOf(word)
    ensures TokensOf(word) + (now - SecondOf(word)) * plan.refill < U64
    ensures Refilled(word, plan, now)
         == (var exact := TokensOf(word) + (now - SecondOf(word)) * plan.refill; if exact > plan.burst then plan.burst
             else exact)
  {
    var added := (now - SecondOf(word)) * plan.refill;
    MulMono(now - SecondOf(word), U32 - 1, plan.refill, U32 - 1);
    assert added <= 0xffff_fffe_0000_0001;
    SmallMod(added);
    SmallMod(TokensOf(word) + added);
  }

  lemma SmallMod(x: nat)
    requires x < U64
    ensures x % U64 == x
  {
  }

  lemma MulMono(a: nat, b: nat, c: nat, d: nat)
    requires a <= b && c <= d
    ensures a * c <= b * d
  {
    assert a * c <= b * c;
    assert b * c <= b * d;
  }

  /** An execution inside the retry loop: its clock and attempts left, before and after it loads the word. */
  datatype Looping = ToLoad(now: nat, left: nat) | Loaded(now: nat, left: nat, word: nat)

  datatype Bucket = Bucket(word: nat, threads: map<Exec, Looping>, grants: nat)

  datatype BucketStep =
    | Enter(e: Exec, now: nat)
    | Load(e: Exec)
    | CompareAndSwap(e: Exec)

  predicate BucketEnabled(s: Bucket, a: BucketStep) {
    match a
    case Enter(e, now) => e !in s.threads && now < U32
    case Load(e) => e in s.threads && s.threads[e].ToLoad?
    case CompareAndSwap(e) => e in s.threads && s.threads[e].Loaded?
  }

  /** One step of one execution. Eight lost races end it without a token. */
  function BucketApply(s: Bucket, plan: Plan, a: BucketStep): Bucket
    requires BucketEnabled(s, a)
  {
    match a
    case Enter(e, now) => s.(threads := s.threads[e := ToLoad(now, 8)])
    case Load(e) => s.(threads := s.threads[e := Loaded(s.threads[e].now, s.threads[e].left, s.word)])
    case CompareAndSwap(e) =>
      var t := s.threads[e];
      if Refilled(t.word, plan, t.now) == 0 then s.(threads := s.threads - {e})
      else if s.word == t.word then
        Bucket(NextWord(t.word, plan, t.now), s.threads - {e}, s.grants + 1)
      else if t.left <= 1 then s.(threads := s.threads - {e})
      else s.(threads := s.threads[e := ToLoad(t.now, t.left - 1)])
  }

  ghost predicate BucketInv(s: Bucket, plan: Plan, first: nat) {
    && s.word < U64
    && TokensOf(s.word) <= plan.burst
    && first <= SecondOf(s.word)
    && s.grants + TokensOf(s.word) <= plan.burst + plan.refill * (SecondOf(s.word) - first)
    && forall e | e in s.threads :: s.threads[e].now < U32
  }

  /** One granted token. */
  lemma GrantStep(word: nat, plan: Plan, now: nat, grants: nat, first: nat)
    requires PlanOk(plan) && word < U64 && now < U32 && Refilled(word, plan, now) > 0
    requires TokensOf(word) <= plan.burst && first <= SecondOf(word)
    requires grants + TokensOf(word) <= plan.burst + plan.refill * (SecondOf(word) - first)
    ensures var w := NextWord(word, plan, now);
      && w < U64 && TokensOf(w) < plan.burst && SecondOf(word) <= SecondOf(w)
      && grants + 1 + TokensOf(w) <= plan.burst + plan.refill * (SecondOf(w) - first)
  {
    var second := if now > SecondOf(word) then now else SecondOf(word);
    PackUnpacks(second, Refilled(word, plan, now) - 1);
    if now > SecondOf(word) {
      RefillDoesNotOverflow(word, plan, now);
      assert plan.refill * (now - first)
          == plan.refill * (now - SecondOf(word)) + plan.refill * (SecondOf(word) - first);
    }
  }

  lemma BucketStepKeepsInv(s: Bucket, plan: Plan, first: nat, a: BucketStep)
    requires PlanOk(plan) && BucketInv(s, plan, first) && BucketEnabled(s, a)
    ensures var s' := BucketApply(s, plan, a);
      BucketInv(s', plan, first) && SecondOf(s.word) <= SecondOf(s'.word)
  {
    hide Refilled, NextWord;
    if a.CompareAndSwap? {
      var t := s.threads[a.e];
      if Refilled(t.word, plan, t.now) > 0 && s.word == t.word {
        GrantStep(s.word, plan, t.now, s.grants, first);
      }
    }
  }

  /** A bucket is created full, at the second of its first execution. */
  ghost predicate BucketRun(states: seq<Bucket>, plan: Plan, first: nat, steps: seq<BucketStep>) {
    && |states| == |steps| + 1 && first < U32
    && states[0] == Bucket(Pack(first, plan.burst), map[], 0)
    && forall k | 0 <= k < |steps| :: BucketEnabled(states[k], steps[k])
        && states[k + 1] == BucketApply(states[k], plan, steps[k])
  }

  lemma {:induction false} BucketRunInv(states: seq<Bucket>, plan: Plan, first: nat, steps: seq<BucketStep>, k: nat)
    requires PlanOk(plan) && BucketRun(states, plan, first, steps) && k < |states|
    ensures BucketInv(states[k], plan, first)
  {
    if k > 0 {
      BucketRunInv(states, plan, first, steps, k - 1);
      BucketStepKeepsInv(states[k - 1], plan, first, steps[k - 1]);
    } else {
      PackUnpacks(first, plan.burst);
    }
  }

  /**
   For every interleaving, with clocks as stale as they like: tokens stay within the burst and grants
   within the rate.
   */
  lemma GrantsStayWithinRate(states: seq<Bucket>, plan: Plan, first: nat, steps: seq<BucketStep>, k: nat)
    requires PlanOk(plan) && BucketRun(states, plan, first, steps) && k < |states|
    ensures TokensOf(states[k].word) <= plan.burst
    ensures first <= SecondOf(states[k].word)
    ensures states[k].grants <= plan.burst + plan.refill * (SecondOf(states[k].word) - first)
  {
    BucketRunInv(states, plan, first, steps, k);
  }

  /** The stored second never goes back. */
  lemma {:induction false} SecondNeverDecreases(states: seq<Bucket>, plan: Plan, first: nat, steps: seq<BucketStep>,
                                                i: nat, j: nat)
    requires PlanOk(plan) && BucketRun(states, plan, first, steps) && i <= j < |states|
    ensures SecondOf(states[i].word) <= SecondOf(states[j].word)
    decreases j - i
  {
    if i < j {
      SecondNeverDecreases(states, plan, first, steps, i, j - 1);
      BucketRunInv(states, plan, first, steps, j - 1);
      BucketStepKeepsInv(states[j - 1], plan, first, steps[j - 1]);
    }
  }
}

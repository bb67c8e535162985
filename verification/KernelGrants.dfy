/**
 The other side of the kernel's limits: a token or a reservation that is there is not refused.
 Seconds and tokens are those stored in the packed word, and the arithmetic here is exact.
 */
module KernelGrants {
  import opened Kernel

  // ---- Reservations ----

  /**
   An execution gets a reservation exactly if it finds the counter below the limit. One that is refused
   while fewer than `limit` reservations stand met another on its way to undo.
   */
  lemma ReservationExactly(states: seq<Hits>, limit: nat, steps: seq<HitStep>, k: nat, e: Exec)
    requires HitRun(states, limit, steps) && k < |steps| && steps[k] == FetchAdd(e)
    ensures e in Kept(states[k + 1]) <==> states[k].captures < limit
    ensures Kept(states[k + 1]) == if states[k].captures < limit then Kept(states[k]) + {e} else Kept(states[k])
    ensures e !in Kept(states[k + 1]) ==> |Kept(states[k])| == limit || Overshooting(states[k]) != {}
    ensures Overshooting(states[k]) == {} ==> (e in Kept(states[k + 1]) <==> |Kept(states[k])| < limit)
  {
    ReservationsNeverExceedLimit(states, limit, steps, k);
    assert states[k + 1] == HitApply(states[k], limit, steps[k]);
  }

  /** Every other step: an undo leaves all reservations standing, a full ring ends one, and submitting keeps it. */
  lemma ReservationsEnd(states: seq<Hits>, limit: nat, steps: seq<HitStep>, k: nat)
    requires HitRun(states, limit, steps) && k < |steps| && !steps[k].FetchAdd?
    ensures Kept(states[k + 1]) == if steps[k].RingFull? then Kept(states[k]) - {steps[k].e} else Kept(states[k])
    ensures Overshooting(states[k + 1]) ==
      if steps[k].Undo? then Overshooting(states[k]) - {steps[k].e} else Overshooting(states[k])
  {
    assert states[k + 1] == HitApply(states[k], limit, steps[k]);
  }

  // ---- Tokens ----

  /** The tokens in a word at a given second: those stored, and the refill since, capped at the burst. */
  function Available(second: nat, tokens: nat, plan: Plan, now: nat): nat {
    if now <= second then tokens
    else
      var exact := tokens + (now - second) * plan.refill;
      if exact > plan.burst then plan.burst else exact
  }

  function Seen(t: Looping, plan: Plan): nat
    requires t.Loaded?
  {
    Available(SecondOf(t.word), TokensOf(t.word), plan, t.now)
  }

  function Later(a: nat, b: nat): nat {
    if a > b then a else b
  }

  ghost predicate LoadsOk(s: Bucket, plan: Plan) {
    forall e | e in s.threads && s.threads[e].Loaded? :: s.threads[e].word < U64
        && TokensOf(s.threads[e].word) <= plan.burst
  }

  lemma {:induction false} RunLoadsOk(states: seq<Bucket>, plan: Plan, first: nat, steps: seq<BucketStep>, k: nat)
    requires PlanOk(plan) && BucketRun(states, plan, first, steps) && k < |states|
    ensures LoadsOk(states[k], plan) && BucketInv(states[k], plan, first)
  {
    BucketRunInv(states, plan, first, steps, k);
    if k > 0 {
      RunLoadsOk(states, plan, first, steps, k - 1);
      hide Refilled, NextWord, TokensOf, SecondOf, Pack;
      assert states[k] == BucketApply(states[k - 1], plan, steps[k - 1]);
    }
  }

  lemma RefilledExactly(word: nat, plan: Plan, now: nat)
    requires PlanOk(plan) && word < U64 && now < U32 && TokensOf(word) <= plan.burst
    ensures Refilled(word, plan, now) == Available(SecondOf(word), TokensOf(word), plan, now) <= plan.burst
  {
    if now > SecondOf(word) {
      RefillDoesNotOverflow(word, plan, now);
    }
  }

  lemma NextWordExactly(word: nat, plan: Plan, now: nat)
    requires PlanOk(plan) && word < U64 && now < U32 && TokensOf(word) <= plan.burst && Refilled(word, plan, now) > 0
    ensures var w := NextWord(word, plan, now);
      && SecondOf(w) == Later(now, SecondOf(word))
      && TokensOf(w) == Available(SecondOf(word), TokensOf(word), plan, now) - 1
  {
    RefilledExactly(word, plan, now);
    PackUnpacks(Later(now, SecondOf(word)), Refilled(word, plan, now) - 1);
    hide Pack, Refilled, Available;
  }

  /** Whether the step handed out a token. */
  predicate Granted(states: seq<Bucket>, k: nat)
    requires k + 1 < |states|
  {
    states[k + 1].grants == states[k].grants + 1
  }

  /** How many attempts an execution has made since it entered. */
  function Attempts(steps: seq<BucketStep>, e: Exec, k: nat): nat
    requires k <= |steps|
  {
    if k == 0 then 0
    else match steps[k - 1]
      case Enter(f, _) => if f == e then 0 else Attempts(steps, e, k - 1)
      case Load(_) => Attempts(steps, e, k - 1)
      case CompareAndSwap(f) => Attempts(steps, e, k - 1) + if f == e then 1 else 0
  }

  lemma {:induction false} AttemptsLeft(states: seq<Bucket>, plan: Plan, first: nat, steps: seq<BucketStep>, k: nat,
                                        e: Exec)
    requires BucketRun(states, plan, first, steps) && k < |states| && e in states[k].threads
    ensures states[k].threads[e].left + Attempts(steps, e, k) == 8 && states[k].threads[e].left >= 1
  {
    if k > 0 {
      hide Refilled, NextWord;
      assert states[k] == BucketApply(states[k - 1], plan, steps[k - 1]);
      if e in states[k - 1].threads {
        AttemptsLeft(states, plan, first, steps, k - 1, e);
      }
    }
  }

  /**
   A compare-and-swap hands out a token exactly if the word is still the one that was loaded and has a
   token, counting the exact refill. It then stores that many less one, with the later of the two
   seconds. Otherwise the word stays. The execution goes on only if it lost a race for a token it saw,
   and not for the eighth time.
   */
  lemma SwapExactly(states: seq<Bucket>, plan: Plan, first: nat, steps: seq<BucketStep>, k: nat, e: Exec)
    requires PlanOk(plan) && BucketRun(states, plan, first, steps) && k < |steps| && steps[k] == CompareAndSwap(e)
    ensures e in states[k].threads && states[k].threads[e].Loaded?
    ensures var s, s', t := states[k], states[k + 1], states[k].threads[e];
      && (Granted(states, k) <==> s.word == t.word && Seen(t, plan) > 0)
      && (Granted(states, k) ==>
            SecondOf(s'.word) == Later(t.now, SecondOf(t.word)) && TokensOf(s'.word) == Seen(t, plan) - 1)
      && (!Granted(states, k) ==> s'.word == s.word && s'.grants == s.grants)
      && (e in s'.threads <==> s.word != t.word && Seen(t, plan) > 0 && Attempts(steps, e, k) < 7)
  {
    RunLoadsOk(states, plan, first, steps, k);
    var t := states[k].threads[e];
    RefilledExactly(t.word, plan, t.now);
    if Refilled(t.word, plan, t.now) > 0 {
      NextWordExactly(t.word, plan, t.now);
    }
    AttemptsLeft(states, plan, first, steps, k, e);
    hide Refilled, NextWord, Available, Later, Attempts, BucketInv, LoadsOk, SecondOf, TokensOf;
    assert states[k + 1] == BucketApply(states[k], plan, steps[k]);
  }

  /** Entering and loading hand out nothing and leave the word alone. */
  lemma OthersGrantNothing(states: seq<Bucket>, plan: Plan, first: nat, steps: seq<BucketStep>, k: nat)
    requires BucketRun(states, plan, first, steps) && k < |steps| && !steps[k].CompareAndSwap?
    ensures states[k + 1].word == states[k].word && states[k + 1].grants == states[k].grants
  {
    assert states[k + 1] == BucketApply(states[k], plan, steps[k]);
  }

  // ---- No word ever comes back ----

  predicate Passed(word: nat, word': nat) {
    || SecondOf(word) < SecondOf(word')
    || (SecondOf(word) == SecondOf(word') && TokensOf(word) > TokensOf(word'))
  }

  /** A step either hands out one token and moves the word on, or leaves both alone. */
  lemma StepPasses(states: seq<Bucket>, plan: Plan, first: nat, steps: seq<BucketStep>, k: nat)
    requires PlanOk(plan) && BucketRun(states, plan, first, steps) && k < |steps|
    ensures if Granted(states, k) then Passed(states[k].word, states[k + 1].word)
      else states[k + 1].word == states[k].word && states[k + 1].grants == states[k].grants
  {
    hide SecondOf, TokensOf, BucketRun;
    if steps[k].CompareAndSwap? {
      SwapExactly(states, plan, first, steps, k, steps[k].e);
    } else {
      OthersGrantNothing(states, plan, first, steps, k);
    }
  }

  lemma {:induction false} WordsPass(states: seq<Bucket>, plan: Plan, first: nat, steps: seq<BucketStep>, i: nat,
                                     j: nat)
    requires PlanOk(plan) && BucketRun(states, plan, first, steps) && i <= j < |states|
    ensures states[i].grants <= states[j].grants
    ensures if states[i].grants == states[j].grants then states[i].word == states[j].word
      else Passed(states[i].word, states[j].word)
    decreases j - i
  {
    if i < j {
      WordsPass(states, plan, first, steps, i, j - 1);
      StepPasses(states, plan, first, steps, j - 1);
      hide SecondOf, TokensOf, BucketRun;
    }
  }

  /** The execution loaded its word at step `j`. */
  lemma {:induction false} LoadedAt(states: seq<Bucket>, plan: Plan, first: nat, steps: seq<BucketStep>, k: nat,
                                    e: Exec)
      returns (j: nat)
    requires BucketRun(states, plan, first, steps) && k < |states|
    requires e in states[k].threads && states[k].threads[e].Loaded?
    ensures j < k && steps[j] == Load(e) && states[k].threads[e].word == states[j].word
    ensures forall m | j < m < k :: steps[m].e != e
  {
    hide Refilled, NextWord;
    assert states[k] == BucketApply(states[k - 1], plan, steps[k - 1]);
    if steps[k - 1] == Load(e) {
      j := k - 1;
    } else {
      j := LoadedAt(states, plan, first, steps, k - 1, e);
    }
  }

  /**
   A compare-and-swap is never fooled by a word that came back: it hands out a token exactly if it saw
   one and nobody was handed one since it loaded.
   */
  lemma GrantedUnlessOvertaken(states: seq<Bucket>, plan: Plan, first: nat, steps: seq<BucketStep>, k: nat, e: Exec)
      returns (j: nat)
    requires PlanOk(plan) && BucketRun(states, plan, first, steps) && k < |steps| && steps[k] == CompareAndSwap(e)
    ensures j < k && steps[j] == Load(e) && (forall m | j < m < k :: steps[m].e != e)
    ensures e in states[k].threads && states[k].threads[e].Loaded? && states[k].threads[e].word == states[j].word
    ensures Granted(states, k) <==> Seen(states[k].threads[e], plan) > 0 && states[j].grants == states[k].grants
  {
    SwapExactly(states, plan, first, steps, k, e);
    j := LoadedAt(states, plan, first, steps, k, e);
    WordsPass(states, plan, first, steps, j, k);
    hide SecondOf, TokensOf, BucketRun;
  }

  // ---- Eight lost races ----

  /** Since it entered at step `i`, each attempt of the execution was overtaken by a grant of its own. */
  lemma {:induction false} EnteredAt(states: seq<Bucket>, plan: Plan, first: nat, steps: seq<BucketStep>, k: nat,
                                     e: Exec)
      returns (i: nat)
    requires PlanOk(plan) && BucketRun(states, plan, first, steps) && k < |states| && e in states[k].threads
    ensures i < k && steps[i].Enter? && steps[i].e == e
    ensures forall m | i < m <= k :: e in states[m].threads
    ensures Attempts(steps, e, k) <= states[k].grants - states[i].grants
    ensures states[k].threads[e].Loaded? ==> exists j ::
      i < j < k && states[k].threads[e].word == states[j].word
      && Attempts(steps, e, k) <= states[j].grants - states[i].grants
  {
    hide Refilled, NextWord;
    var s, a := states[k - 1], steps[k - 1];
    assert states[k] == BucketApply(s, plan, a);
    if a.Enter? && a.e == e {
      i := k - 1;
    } else {
      assert e in s.threads;
      i := EnteredAt(states, plan, first, steps, k - 1, e);
      WordsPass(states, plan, first, steps, k - 1, k);
      hide SecondOf, TokensOf, BucketRun;
      if a == CompareAndSwap(e) {
        var j :| i < j < k - 1 && s.threads[e].word == states[j].word
                 && Attempts(steps, e, k - 1) <= states[j].grants - states[i].grants;
        SwapExactly(states, plan, first, steps, k - 1, e);
        WordsPass(states, plan, first, steps, j, k - 1);
      } else if a == Load(e) {
        assert states[k].threads[e].word == states[k - 1].word;
      }
    }
  }

  /** An execution that saw a token leaves without one only if eight others got theirs while it was in the loop. */
  lemma RefusedOnlyWhenOvertaken(states: seq<Bucket>, plan: Plan, first: nat, steps: seq<BucketStep>, k: nat, e: Exec)
      returns (i: nat)
    requires PlanOk(plan) && BucketRun(states, plan, first, steps) && k < |steps| && steps[k] == CompareAndSwap(e)
    requires e !in states[k + 1].threads && !Granted(states, k)
    ensures e in states[k].threads && states[k].threads[e].Loaded?
    ensures i < k && steps[i].Enter? && steps[i].e == e && (forall m | i < m <= k :: e in states[m].threads)
    ensures Seen(states[k].threads[e], plan) > 0 ==>
      Attempts(steps, e, k + 1) == 8 && states[k].grants - states[i].grants >= 8
  {
    SwapExactly(states, plan, first, steps, k, e);
    AttemptsLeft(states, plan, first, steps, k, e);
    i := EnteredAt(states, plan, first, steps, k, e);
    hide SecondOf, TokensOf;
    var t := states[k].threads[e];
    if Seen(t, plan) > 0 {
      var j :| i < j < k && t.word == states[j].word && Attempts(steps, e, k) <= states[j].grants - states[i].grants;
      WordsPass(states, plan, first, steps, j, k);
    }
  }

  // ---- One after the other ----

  /** The executions run one after the other, and no clock is past the second the bucket was created at. */
  ghost predicate OneByOne(steps: seq<BucketStep>, first: nat) {
    |steps| % 3 == 0 && forall n | 0 <= n < |steps| / 3 ::
      && steps[3 * n].Enter? && steps[3 * n].now <= first
      && steps[3 * n + 1] == Load(steps[3 * n].e) && steps[3 * n + 2] == CompareAndSwap(steps[3 * n].e)
  }

  /** One execution alone, from a bucket nobody is using. */
  lemma AloneIsGranted(states: seq<Bucket>, plan: Plan, first: nat, steps: seq<BucketStep>, n: nat)
    requires PlanOk(plan) && BucketRun(states, plan, first, steps) && OneByOne(steps, first) && 3 * n < |steps|
    requires states[3 * n].threads == map[] && SecondOf(states[3 * n].word) == first
    ensures var s, s' := states[3 * n], states[3 * n + 3];
      && s'.threads == map[] && SecondOf(s'.word) == first
      && s'.grants == s.grants + (if TokensOf(s.word) > 0 then 1 else 0)
      && TokensOf(s'.word) == TokensOf(s.word) - (if TokensOf(s.word) > 0 then 1 else 0)
  {
    var k, e, now := 3 * n, steps[3 * n].e, steps[3 * n].now;
    hide SecondOf, TokensOf;
    assert states[k + 1] == BucketApply(states[k], plan, steps[k]);
    assert states[k + 2] == BucketApply(states[k + 1], plan, steps[k + 1]);
    assert states[k + 2].threads == map[e := Loaded(now, 8, states[k].word)];
    SwapExactly(states, plan, first, steps, k + 2, e);
    assert states[k + 3] == BucketApply(states[k + 2], plan, steps[k + 2]);
    hide Refilled, NextWord;
    assert states[k + 3].threads == map[];
  }

  /** A bucket of `burst` tokens serves exactly the first `burst` executions of its first second. */
  lemma {:induction false} BurstIsServed(states: seq<Bucket>, plan: Plan, first: nat, steps: seq<BucketStep>, n: nat)
    requires PlanOk(plan) && BucketRun(states, plan, first, steps) && OneByOne(steps, first) && 3 * n < |states|
    ensures states[3 * n].threads == map[] && SecondOf(states[3 * n].word) == first
    ensures states[3 * n].grants == if n < plan.burst then n else plan.burst
    ensures TokensOf(states[3 * n].word) == plan.burst - states[3 * n].grants
  {
    if n == 0 {
      PackUnpacks(first, plan.burst);
    } else {
      BurstIsServed(states, plan, first, steps, n - 1);
      AloneIsGranted(states, plan, first, steps, n - 1);
    }
  }

  /** Within the first second nothing is lost: tokens handed out and tokens left always make up the burst. */
  lemma {:induction false} FirstSecondConserves(
    states: seq<Bucket>, plan: Plan, first: nat, steps: seq<BucketStep>, k: nat)
    requires PlanOk(plan) && BucketRun(states, plan, first, steps) && k < |states|
    requires forall m | 0 <= m < k && steps[m].Enter? :: steps[m].now <= first
    ensures states[k].grants + TokensOf(states[k].word) == plan.burst && SecondOf(states[k].word) == first
    ensures forall e | e in states[k].threads :: states[k].threads[e].now <= first
  {
    if k == 0 {
      PackUnpacks(first, plan.burst);
    } else {
      FirstSecondConserves(states, plan, first, steps, k - 1);
      hide SecondOf, TokensOf, Refilled, NextWord;
      assert states[k] == BucketApply(states[k - 1], plan, steps[k - 1]);
      if steps[k - 1].CompareAndSwap? {
        SwapExactly(states, plan, first, steps, k - 1, steps[k - 1].e);
      }
    }
  }
}

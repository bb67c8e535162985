/**
 What an expression evaluates to, rule by rule: which value it has, and with which error it fails.
 The rules speak of trails through the captured objects and of the operands' values; the evaluator
 is shown to follow them exactly.
 */
module EvaluationMeaning {
  import opened Expressions
  import opened Evaluation

  // ---------------------------------------------------------------- paths

  /** Each value on the trail is the stored property of the one before it that the path names. */
  ghost predicate Trail(heap: Heap, path: seq<Segment>, trail: seq<Value>) {
    && 0 < |trail| <= |path| + 1
    && forall i | 0 <= i < |trail| - 1 :: Stored(heap, trail[i], Key(path[i]), trail[i + 1])
  }

  predicate Stored(heap: Heap, v: Value, key: string, w: Value) {
    v.Object? && v.address in heap && key in heap[v.address] && heap[v.address][key] == Data(w)
  }

  /** None of the first `n` keys is redacted. */
  predicate Open(path: seq<Segment>, n: nat, policy: Policy)
    requires n <= |path|
  {
    forall i | 0 <= i < n :: !policy.redactedKey(Key(path[i]))
  }

  ghost predicate LeadsTo(heap: Heap, v: Value, path: seq<Segment>, w: Value, trail: seq<Value>) {
    Trail(heap, path, trail) && |trail| == |path| + 1 && trail[0] == v && trail[|path|] == w
  }

  /** Why the last value on a trail that goes no further cannot be passed or published. */
  ghost predicate StuckAt(heap: Heap, v: Value, path: seq<Segment>, i: nat, policy: Policy, error: string)
    requires i <= |path|
  {
    if i < |path| then
      if policy.redactedKey(Key(path[i])) then error == "redacted"
      else if v.Truncated? then error == "capture-truncated"
      else error == "missing" && !exists w :: Stored(heap, v, Key(path[i]), w)
    else if v.Truncated? then error == "capture-truncated"
    else
      && v.Prim?
      && (if v.scalar.Numeric? then error == "unsafe-number" && !IsPortable(v.scalar.n)
          else v.scalar.Text? && error == "redacted" && policy.redactedText(v.scalar.s))
  }

  /** The value was found along the path, and may be published. */
  ghost predicate Finds(root: Root, path: seq<Segment>, policy: Policy, w: Value) {
    && Publishable(w, policy) && Open(path, |path|, policy)
    && exists trail: seq<Value> :: LeadsTo(root.heap, root.value, path, w, trail)
  }

  /** The trail along the path ends before its end, or at something that may not be published. */
  ghost predicate Loses(root: Root, path: seq<Segment>, policy: Policy, error: string) {
    exists trail: seq<Value> ::
      && Trail(root.heap, path, trail) && trail[0] == root.value && Open(path, |trail| - 1, policy)
      && StuckAt(root.heap, trail[|trail| - 1], path, |trail| - 1, policy, error)
  }

  /** The whole trail that the evaluator follows, and what it makes of its end. */
  lemma {:induction false} ResolveFollows(heap: Heap, v: Value, path: seq<Segment>, policy: Policy)
      returns (trail: seq<Value>)
    ensures Trail(heap, path, trail) && trail[0] == v && Open(path, |trail| - 1, policy)
    ensures match Resolve(heap, v, path, policy)
      case Success(w) => |trail| == |path| + 1 && trail[|path|] == w && Publishable(w, policy)
      case Failure(error) => StuckAt(heap, trail[|trail| - 1], path, |trail| - 1, policy, error)
    decreases |path|
  {
    if path == [] {
      trail := [v];
    } else {
      var next := Follow(heap, v, path[0], policy);
      if next.Failure? {
        trail := [v];
      } else {
        var rest := ResolveFollows(heap, next.value, path[1..], policy);
        trail := [v] + rest;
        PrependedTrail(heap, v, path, rest, policy);
        assert trail[|trail| - 1] == rest[|rest| - 1];
        hide Trail, Open, Follow;
        assert |rest| - 1 < |path[1..]| ==> path[1..][|rest| - 1] == path[|rest|];
      }
    }
  }

  lemma PrependedTrail(heap: Heap, v: Value, path: seq<Segment>, rest: seq<Value>, policy: Policy)
    requires path != [] && Trail(heap, path[1..], rest) && Open(path[1..], |rest| - 1, policy)
    requires Follow(heap, v, path[0], policy) == Success(rest[0])
    ensures Trail(heap, path, [v] + rest) && Open(path, |rest|, policy)
  {
    var trail := [v] + rest;
    forall i | 0 <= i < |trail| - 1 ensures Stored(heap, trail[i], Key(path[i]), trail[i + 1]) {
      if i > 0 {
        assert path[1..][i - 1] == path[i] && Stored(heap, rest[i - 1], Key(path[i]), rest[i]);
      }
    }
    forall i | 0 <= i < |rest| ensures !policy.redactedKey(Key(path[i])) {
      if i > 0 {
        assert path[1..][i - 1] == path[i];
      }
    }
  }

  /** Trails along one path from one value agree as far as both go. */
  lemma {:induction false} TrailsAgree(heap: Heap, path: seq<Segment>, a: seq<Value>, b: seq<Value>, i: nat)
    requires Trail(heap, path, a) && Trail(heap, path, b) && a[0] == b[0] && i < |a| && i < |b|
    ensures a[i] == b[i]
  {
    if i > 0 {
      TrailsAgree(heap, path, a, b, i - 1);
      assert Stored(heap, a[i - 1], Key(path[i - 1]), a[i]) && Stored(heap, b[i - 1], Key(path[i - 1]), b[i]);
    }
  }

  /** A trail that is stuck is as long as any other that keeps to unredacted keys. */
  lemma StuckIsEnd(heap: Heap, path: seq<Segment>, a: seq<Value>, b: seq<Value>, policy: Policy, error: string)
    requires Trail(heap, path, a) && Trail(heap, path, b) && a[0] == b[0]
    requires StuckAt(heap, a[|a| - 1], path, |a| - 1, policy, error) && Open(path, |b| - 1, policy)
    ensures |b| <= |a|
  {
    if |b| > |a| {
      TrailsAgree(heap, path, a, b, |a| - 1);
      TrailStep(heap, path, b, |a| - 1);
    }
  }

  lemma TrailStep(heap: Heap, path: seq<Segment>, trail: seq<Value>, i: nat)
    requires Trail(heap, path, trail) && i + 1 < |trail|
    ensures Stored(heap, trail[i], Key(path[i]), trail[i + 1])
  {
  }

  lemma StuckIsUnpublishable(heap: Heap, v: Value, path: seq<Segment>, policy: Policy, error: string)
    ensures !(StuckAt(heap, v, path, |path|, policy, error) && Publishable(v, policy))
  {
  }

  /**
   A path is resolved to a value if and only if it leads there past no redacted key and the value may
   be published.
   */
  lemma ResolveExactly(root: Root, path: seq<Segment>, policy: Policy, w: Value)
    ensures Resolve(root.heap, root.value, path, policy) == Success(w) <==> Finds(root, path, policy, w)
  {
    var r := Resolve(root.heap, root.value, path, policy);
    var own := ResolveFollows(root.heap, root.value, path, policy);
    hide Resolve;
    if r == Success(w) {
      assert LeadsTo(root.heap, root.value, path, w, own);
    }
    if Finds(root, path, policy, w) {
      var trail: seq<Value> :| LeadsTo(root.heap, root.value, path, w, trail);
      if r.Failure? {
        StuckIsEnd(root.heap, path, own, trail, policy, r.error);
        TrailsAgree(root.heap, path, own, trail, |path|);
        StuckIsUnpublishable(root.heap, w, path, policy, r.error);
      } else {
        TrailsAgree(root.heap, path, own, trail, |path|);
      }
    }
  }

  lemma StuckErrorsAgree(heap: Heap, v: Value, path: seq<Segment>, i: nat, policy: Policy, e1: string, e2: string)
    requires i <= |path| && StuckAt(heap, v, path, i, policy, e1) && StuckAt(heap, v, path, i, policy, e2)
    ensures e1 == e2
  {
  }

  /** It fails with an error if and only if the trail is stuck for that reason. */
  lemma ResolveFailsExactly(root: Root, path: seq<Segment>, policy: Policy, error: string)
    ensures Resolve(root.heap, root.value, path, policy) == Failure(error) <==> Loses(root, path, policy, error)
  {
    var r := Resolve(root.heap, root.value, path, policy);
    var own := ResolveFollows(root.heap, root.value, path, policy);
    hide Resolve;
    if trail: seq<Value> :|
      && Trail(root.heap, path, trail) && trail[0] == root.value && Open(path, |trail| - 1, policy)
      && StuckAt(root.heap, trail[|trail| - 1], path, |trail| - 1, policy, error)
    {
      StuckIsEnd(root.heap, path, trail, own, policy, error);
      if r.Success? {
        TrailsAgree(root.heap, path, own, trail, |path|);
        StuckIsUnpublishable(root.heap, r.value, path, policy, error);
      } else {
        StuckIsEnd(root.heap, path, own, trail, policy, r.error);
        TrailsAgree(root.heap, path, own, trail, |own| - 1);
        StuckErrorsAgree(root.heap, own[|own| - 1], path, |own| - 1, policy, error, r.error);
      }
    }
  }

  // ---------------------------------------------------------------- values

  function Num(x: real): Value {
    Prim(Numeric(Finite(x)))
  }

  function Str(s: string): Value {
    Prim(Text(s))
  }

  predicate IsNum(v: Value, x: real) {
    v == Num(x) && IsPortable(Finite(x))
  }

  predicate IsComparison(op: BinaryOp) {
    op.Gt? || op.Gte? || op.Lt? || op.Lte?
  }

  predicate IsArithmetic(op: BinaryOp) {
    op.Add? || op.Subtract? || op.Multiply? || op.Divide? || op.Modulo?
  }

  /** The value of an operator that looks at both operands, the left one being `a` and the right one `b`. */
  ghost predicate Combines(op: BinaryOp, a: Value, b: Value, policy: Policy, arithmetic: Arithmetic, v: Value) {
    match op
    case Eq => IsScalar(a) && IsScalar(b) && v == Truth(a == b)
    case Ne => IsScalar(a) && IsScalar(b) && v == Truth(a != b)
    case Gt => exists x, y :: IsNum(a, x) && IsNum(b, y) && v == Truth(x > y)
    case Gte => exists x, y :: IsNum(a, x) && IsNum(b, y) && v == Truth(x >= y)
    case Lt => exists x, y :: IsNum(a, x) && IsNum(b, y) && v == Truth(x < y)
    case Lte => exists x, y :: IsNum(a, x) && IsNum(b, y) && v == Truth(x <= y)
    case And => false
    case Or => false
    case _ =>
      || (op.Add? && Publishable(v, policy) && exists s, t :: a == Str(s) && b == Str(t) && v == Str(s + t))
      || (exists x, y ::
            && IsNum(a, x) && IsNum(b, y) && ((op.Divide? || op.Modulo?) ==> y != 0.0)
            && v == Prim(Numeric(arithmetic(op, x, y))) && Publishable(v, policy))
  }

  /** The error of such an operator. */
  ghost predicate Clashes(op: BinaryOp, a: Value, b: Value, policy: Policy, arithmetic: Arithmetic, error: string) {
    if op.Eq? || op.Ne? then error == "expected-scalars" && !(IsScalar(a) && IsScalar(b))
    else if op.And? || op.Or? then false
    else if op.Add? && IsStr(a) && IsStr(b) then
      error == "redacted" && exists s, t :: a == Str(s) && b == Str(t) && policy.redactedText(s + t)
    else if exists x, y :: IsNum(a, x) && IsNum(b, y) then
      IsArithmetic(op) && exists x, y :: IsNum(a, x) && IsNum(b, y) && Overflows(op, x, y, arithmetic, error)
    else if IsUnsafeNumber(a) || IsUnsafeNumber(b) then error == "unsafe-number"
    else error == if b.Undefined? then "expected-number" else "expected-numbers"
  }

  predicate IsStr(v: Value) {
    v.Prim? && v.scalar.Text?
  }

  predicate Overflows(op: BinaryOp, x: real, y: real, arithmetic: Arithmetic, error: string) {
    if (op.Divide? || op.Modulo?) && y == 0.0 then error == "division-by-zero"
    else
      var n := arithmetic(op, x, y);
      if n.Finite? then error == "unsafe-number" && !IsPortable(n) else error == "non-finite-result"
  }

  /** The expression has the value. */
  ghost predicate Yields(n: Node, root: Root, policy: Policy, arithmetic: Arithmetic, v: Value)
    decreases n
  {
    match n
    case Literal(value) => v == Prim(value) && Publishable(v, policy)
    case Reference(path) => Finds(root, path, policy, v)
    case Unary(op, operand) =>
      if op.Not? then exists b :: Yields(operand, root, policy, arithmetic, Truth(b)) && v == Truth(!b)
      else exists x :: Yields(operand, root, policy, arithmetic, Num(x)) && IsPortable(Finite(x)) && v == Num(-x)
    case Binary(op, left, right) =>
      if op.And? || op.Or? then
        || (v == Truth(op.Or?) && Yields(left, root, policy, arithmetic, v))
        || (&& Yields(left, root, policy, arithmetic, Truth(op.And?))
            && IsBoolean(v) && Yields(right, root, policy, arithmetic, v))
      else
        exists a, b ::
          && Yields(left, root, policy, arithmetic, a) && Yields(right, root, policy, arithmetic, b)
          && Combines(op, a, b, policy, arithmetic, v)
  }

  /** The expression fails with the error: the first operand that fails decides, and then the operator. */
  ghost predicate Fails(n: Node, root: Root, policy: Policy, arithmetic: Arithmetic, error: string)
    decreases n
  {
    match n
    case Literal(value) =>
      || (error == "unsafe-number" && !IsPortableScalar(value))
      || (error == "redacted" && value.Text? && policy.redactedText(value.s))
    case Reference(path) => Loses(root, path, policy, error)
    case Unary(op, operand) =>
      || Fails(operand, root, policy, arithmetic, error)
      || exists v :: Yields(operand, root, policy, arithmetic, v)
           && if op.Not? then error == "expected-boolean" && !IsBoolean(v)
              else error == (if IsUnsafeNumber(v) then "unsafe-number" else "expected-number") && !IsPortableNumber(v)
    case Binary(op, left, right) =>
      || Fails(left, root, policy, arithmetic, error)
      || exists a :: Yields(left, root, policy, arithmetic, a)
           && if op.And? || op.Or? then
                || (error == "expected-boolean" && !IsBoolean(a))
                || (&& a == Truth(op.And?)
                    && (|| Fails(right, root, policy, arithmetic, error)
                        || (error == "expected-boolean"
                            && exists b :: Yields(right, root, policy, arithmetic, b) && !IsBoolean(b))))
              else
                || Fails(right, root, policy, arithmetic, error)
                || exists b ::
                     Yields(right, root, policy, arithmetic, b) && Clashes(op, a, b, policy, arithmetic, error)
  }

  // ---------------------------------------------------------------- the evaluator follows the rules

  lemma NegationIsPortable(x: real)
    ensures IsPortable(Finite(x)) <==> IsPortable(Finite(-x))
  {
    if IsInteger(x) {
      assert -x == (-(x.Floor)) as real;
    }
    if IsInteger(-x) {
      assert x == (-((-x).Floor)) as real;
    }
  }

  lemma CombinesExactly(op: BinaryOp, a: Value, b: Value, policy: Policy, arithmetic: Arithmetic, v: Value)
    requires !op.And? && !op.Or?
    ensures ApplyBinary(op, a, b, policy, arithmetic) == Success(v) <==> Combines(op, a, b, policy, arithmetic, v)
  {
    if IsArithmetic(op) {
      CalculatesExactly(op, a, b, policy, arithmetic, v);
    } else if IsComparison(op) {
      ComparesExactly(op, a, b, policy, arithmetic, v);
    }
  }

  lemma ComparesExactly(op: BinaryOp, a: Value, b: Value, policy: Policy, arithmetic: Arithmetic, v: Value)
    requires IsComparison(op)
    ensures ApplyBinary(op, a, b, policy, arithmetic) == Success(v) <==> Combines(op, a, b, policy, arithmetic, v)
  {
    if IsPortableNumber(a) && IsPortableNumber(b) {
      assert IsNum(a, a.scalar.n.value) && IsNum(b, b.scalar.n.value);
    }
    hide IsPortable, Calculate;
  }

  lemma CalculatesExactly(op: BinaryOp, a: Value, b: Value, policy: Policy, arithmetic: Arithmetic, v: Value)
    requires IsArithmetic(op)
    ensures ApplyBinary(op, a, b, policy, arithmetic) == Success(v) <==> Combines(op, a, b, policy, arithmetic, v)
  {
    if IsPortableNumber(a) && IsPortableNumber(b) {
      NumbersExactly(op, a.scalar.n.value, b.scalar.n.value, policy, arithmetic, v);
    } else if op.Add? && IsStr(a) && IsStr(b) {
      TextsExactly(a.scalar.s, b.scalar.s, policy, arithmetic, v);
    } else {
      NothingCombines(op, a, b, policy, arithmetic, v);
    }
    hide ApplyBinary, Combines;
  }

  lemma TextsExactly(s: string, t: string, policy: Policy, arithmetic: Arithmetic, v: Value)
    ensures ApplyBinary(Add, Str(s), Str(t), policy, arithmetic) == Success(v)
      <==> Combines(Add, Str(s), Str(t), policy, arithmetic, v)
  {
  }

  lemma NothingCombines(op: BinaryOp, a: Value, b: Value, policy: Policy, arithmetic: Arithmetic, v: Value)
    requires IsArithmetic(op) && !(IsPortableNumber(a) && IsPortableNumber(b)) && !(op.Add? && IsStr(a) && IsStr(b))
    ensures ApplyBinary(op, a, b, policy, arithmetic).Failure? && !Combines(op, a, b, policy, arithmetic, v)
  {
    hide IsPortable;
  }

  lemma NumbersExactly(op: BinaryOp, x: real, y: real, policy: Policy, arithmetic: Arithmetic, v: Value)
    requires IsArithmetic(op) && IsPortable(Finite(x)) && IsPortable(Finite(y))
    ensures ApplyBinary(op, Num(x), Num(y), policy, arithmetic) == Success(v)
      <==> Combines(op, Num(x), Num(y), policy, arithmetic, v)
  {
    hide IsInteger, IsSafeInteger, Compare;
    assert IsNum(Num(x), x) && IsNum(Num(y), y);
  }

  lemma ClashesExactly(op: BinaryOp, a: Value, b: Value, policy: Policy, arithmetic: Arithmetic, error: string)
    requires !op.And? && !op.Or?
    ensures ApplyBinary(op, a, b, policy, arithmetic) == Failure(error)
      <==> Clashes(op, a, b, policy, arithmetic, error)
  {
    if IsPortableNumber(a) && IsPortableNumber(b) {
      assert IsNum(a, a.scalar.n.value) && IsNum(b, b.scalar.n.value);
    }
    if IsStr(a) && IsStr(b) {
      assert a == Str(a.scalar.s) && b == Str(b.scalar.s);
    }
    hide IsPortable;
  }

  lemma NotExactly(operand: Node, root: Root, policy: Policy, arithmetic: Arithmetic, v: Value)
    requires forall w ::
      Evaluate(operand, root, policy, arithmetic) == Success(w) <==> Yields(operand, root, policy, arithmetic, w)
    ensures Evaluate(Unary(Not, operand), root, policy, arithmetic) == Success(v)
      <==> Yields(Unary(Not, operand), root, policy, arithmetic, v)
  {
    var r := Evaluate(operand, root, policy, arithmetic);
    if r.Success? && IsBoolean(r.value) {
      assert r.value == Truth(r.value.scalar.b);
    }
  }

  lemma NegateExactly(operand: Node, root: Root, policy: Policy, arithmetic: Arithmetic, v: Value)
    requires forall w ::
      Evaluate(operand, root, policy, arithmetic) == Success(w) <==> Yields(operand, root, policy, arithmetic, w)
    ensures Evaluate(Unary(Negate, operand), root, policy, arithmetic) == Success(v)
      <==> Yields(Unary(Negate, operand), root, policy, arithmetic, v)
  {
    var r := Evaluate(operand, root, policy, arithmetic);
    if r.Success? {
      NegatesExactly(r.value, policy, v);
    }
    hide IsPortable, ApplyUnary;
  }

  lemma NegatesExactly(a: Value, policy: Policy, v: Value)
    ensures ApplyUnary(Negate, a, policy) == Success(v)
      <==> exists x :: a == Num(x) && IsPortable(Finite(x)) && v == Num(-x)
  {
    if IsPortableNumber(a) {
      NegationIsPortable(a.scalar.n.value);
      assert a == Num(a.scalar.n.value);
    }
    hide IsPortable;
  }

  /** An expression evaluates to a value if and only if the rules give it that value. */
  lemma {:induction false} EvaluatesExactly(n: Node, root: Root, policy: Policy, arithmetic: Arithmetic, v: Value)
    ensures Evaluate(n, root, policy, arithmetic) == Success(v) <==> Yields(n, root, policy, arithmetic, v)
    decreases n
  {
    match n
    case Literal(_) =>
    case Reference(path) => ResolveExactly(root, path, policy, v);
    case Unary(op, operand) =>
      forall w ensures Evaluate(operand, root, policy, arithmetic) == Success(w)
          <==> Yields(operand, root, policy, arithmetic, w)
      {
        EvaluatesExactly(operand, root, policy, arithmetic, w);
      }
      if op.Not? {
        NotExactly(operand, root, policy, arithmetic, v);
      } else {
        NegateExactly(operand, root, policy, arithmetic, v);
      }
    case Binary(op, left, right) =>
      forall w
        ensures Evaluate(left, root, policy, arithmetic) == Success(w) <==> Yields(left, root, policy, arithmetic, w)
        ensures Evaluate(right, root, policy, arithmetic) == Success(w) <==> Yields(right, root, policy, arithmetic, w)
      {
        EvaluatesExactly(left, root, policy, arithmetic, w);
        EvaluatesExactly(right, root, policy, arithmetic, w);
      }
      if op.And? || op.Or? {
        LogicExactly(op, left, right, root, policy, arithmetic, v);
      } else {
        OperatorExactly(op, left, right, root, policy, arithmetic, v);
      }
  }

  lemma LogicExactly(
    op: BinaryOp, left: Node, right: Node, root: Root, policy: Policy, arithmetic: Arithmetic, v: Value)
    requires op.And? || op.Or?
    requires forall w ::
      Evaluate(left, root, policy, arithmetic) == Success(w) <==> Yields(left, root, policy, arithmetic, w)
    requires forall w ::
      Evaluate(right, root, policy, arithmetic) == Success(w) <==> Yields(right, root, policy, arithmetic, w)
    ensures Evaluate(Binary(op, left, right), root, policy, arithmetic) == Success(v)
      <==> Yields(Binary(op, left, right), root, policy, arithmetic, v)
  {
    var l := Evaluate(left, root, policy, arithmetic);
    assert l.Success? && IsBoolean(l.value) ==> l.value == Truth(l.value.scalar.b);
    hide Combines, ApplyBinary;
  }

  lemma OperatorExactly(
    op: BinaryOp, left: Node, right: Node, root: Root, policy: Policy, arithmetic: Arithmetic, v: Value)
    requires !op.And? && !op.Or?
    requires forall w ::
      Evaluate(left, root, policy, arithmetic) == Success(w) <==> Yields(left, root, policy, arithmetic, w)
    requires forall w ::
      Evaluate(right, root, policy, arithmetic) == Success(w) <==> Yields(right, root, policy, arithmetic, w)
    ensures Evaluate(Binary(op, left, right), root, policy, arithmetic) == Success(v)
      <==> Yields(Binary(op, left, right), root, policy, arithmetic, v)
  {
    var l, r := Evaluate(left, root, policy, arithmetic), Evaluate(right, root, policy, arithmetic);
    if l.Success? && r.Success? {
      CombinesExactly(op, l.value, r.value, policy, arithmetic, v);
    }
    hide Combines, ApplyBinary;
  }

  /** It fails with an error if and only if the rules say so. */
  lemma {:induction false} FailsExactly(n: Node, root: Root, policy: Policy, arithmetic: Arithmetic, error: string)
    ensures Evaluate(n, root, policy, arithmetic) == Failure(error) <==> Fails(n, root, policy, arithmetic, error)
    decreases n
  {
    match n
    case Literal(_) =>
    case Reference(path) => ResolveFailsExactly(root, path, policy, error);
    case Unary(op, operand) =>
      FailsExactly(operand, root, policy, arithmetic, error);
      UnaryFailsExactly(op, operand, root, policy, arithmetic, error);
    case Binary(op, left, right) =>
      FailsExactly(left, root, policy, arithmetic, error);
      FailsExactly(right, root, policy, arithmetic, error);
      if op.And? || op.Or? {
        LogicFailsExactly(op, left, right, root, policy, arithmetic, error);
      } else {
        OperatorFailsExactly(op, left, right, root, policy, arithmetic, error);
      }
  }

  lemma YieldsValue(n: Node, root: Root, policy: Policy, arithmetic: Arithmetic)
    ensures forall w :: Evaluate(n, root, policy, arithmetic) == Success(w) <==> Yields(n, root, policy, arithmetic, w)
  {
    forall w ensures Evaluate(n, root, policy, arithmetic) == Success(w) <==> Yields(n, root, policy, arithmetic, w) {
      EvaluatesExactly(n, root, policy, arithmetic, w);
    }
  }

  lemma UnaryFailsExactly(
    op: UnaryOp, operand: Node, root: Root, policy: Policy, arithmetic: Arithmetic, error: string)
    requires Evaluate(operand, root, policy, arithmetic) == Failure(error)
      <==> Fails(operand, root, policy, arithmetic, error)
    ensures Evaluate(Unary(op, operand), root, policy, arithmetic) == Failure(error)
      <==> Fails(Unary(op, operand), root, policy, arithmetic, error)
  {
    YieldsValue(operand, root, policy, arithmetic);
    var r := Evaluate(operand, root, policy, arithmetic);
    if r.Success? && IsPortableNumber(r.value) {
      NegationIsPortable(r.value.scalar.n.value);
    }
    hide IsPortable, Yields;
  }

  lemma LogicFailsExactly(
    op: BinaryOp, left: Node, right: Node, root: Root, policy: Policy, arithmetic: Arithmetic, error: string)
    requires op.And? || op.Or?
    requires Evaluate(left, root, policy, arithmetic) == Failure(error)
      <==> Fails(left, root, policy, arithmetic, error)
    requires Evaluate(right, root, policy, arithmetic) == Failure(error)
      <==> Fails(right, root, policy, arithmetic, error)
    ensures Evaluate(Binary(op, left, right), root, policy, arithmetic) == Failure(error)
      <==> Fails(Binary(op, left, right), root, policy, arithmetic, error)
  {
    YieldsValue(left, root, policy, arithmetic);
    YieldsValue(right, root, policy, arithmetic);
    var l := Evaluate(left, root, policy, arithmetic);
    assert l.Success? && IsBoolean(l.value) ==> l.value == Truth(l.value.scalar.b);
    hide Clashes, ApplyBinary, Yields;
  }

  lemma OperatorFailsExactly(
    op: BinaryOp, left: Node, right: Node, root: Root, policy: Policy, arithmetic: Arithmetic, error: string)
    requires !op.And? && !op.Or?
    requires Evaluate(left, root, policy, arithmetic) == Failure(error)
      <==> Fails(left, root, policy, arithmetic, error)
    requires Evaluate(right, root, policy, arithmetic) == Failure(error)
      <==> Fails(right, root, policy, arithmetic, error)
    ensures Evaluate(Binary(op, left, right), root, policy, arithmetic) == Failure(error)
      <==> Fails(Binary(op, left, right), root, policy, arithmetic, error)
  {
    YieldsValue(left, root, policy, arithmetic);
    YieldsValue(right, root, policy, arithmetic);
    var l, r := Evaluate(left, root, policy, arithmetic), Evaluate(right, root, policy, arithmetic);
    if l.Success? && r.Success? {
      ClashesExactly(op, l.value, r.value, policy, arithmetic, error);
    }
    hide Clashes, ApplyBinary, Yields;
  }
}

/**
 Evaluating a compiled expression over captured values (packages/sdk-node/src/safe-expression.ts).
 Captured values may share and may be cyclic, so objects live in a heap. The results of arithmetic
 are a parameter: everything here holds however doubles round.
 */
module Evaluation {
  import Numerals
  import opened Expressions

  datatype Value =
    | Prim(scalar: Scalar)
    | Undefined
    | Function
    | Truncated
    | Object(address: nat)

  /** An own property: a stored value, or a getter, which is never called. */
  datatype Property = Data(value: Value) | Accessor

  type Heap = map<nat, map<string, Property>>

  datatype Root = Root(heap: Heap, value: Value)

  /** What to keep out of results, and the arithmetic. */
  datatype Policy = Policy(redactedKey: string -> bool, redactedText: string -> bool)
  type Arithmetic = (BinaryOp, real, real) -> Number

  type Outcome = Result<Value>

  function Key(s: Segment): string {
    match s
    case Name(name) => name
    case Index(index) => Numerals.Decimal(index)
  }

  function Own(heap: Heap, v: Value, key: string): Option<Property> {
    if v.Object? && v.address in heap && key in heap[v.address] then Some(heap[v.address][key]) else None
  }

  function SafeResult(v: Value, policy: Policy): Outcome {
    if v.Prim? && v.scalar.Numeric? && !IsPortable(v.scalar.n) then Failure("unsafe-number")
    else if v.Prim? && v.scalar.Text? && policy.redactedText(v.scalar.s) then Failure("redacted")
    else Success(v)
  }

  /** One step along a path. */
  function Follow(heap: Heap, v: Value, s: Segment, policy: Policy): Outcome {
    if policy.redactedKey(Key(s)) then Failure("redacted")
    else if v.Truncated? then Failure("capture-truncated")
    else if !v.Object? then Failure("missing")
    else
      var own := Own(heap, v, Key(s));
      if own.Some? && own.value.Data? then Success(own.value.value) else Failure("missing")
  }

  function Resolve(heap: Heap, v: Value, path: seq<Segment>, policy: Policy): Outcome
    decreases |path|
  {
    if path == [] then
      if v.Truncated? then Failure("capture-truncated") else SafeResult(v, policy)
    else
      var next := Follow(heap, v, path[0], policy);
      if next.Failure? then next else Resolve(heap, next.value, path[1..], policy)
  }

  /** The loop over a path's segments. */
  method ResolvePath(root: Root, path: seq<Segment>, policy: Policy) returns (r: Outcome)
    ensures r == Resolve(root.heap, root.value, path, policy)
  {
    var current := root.value;
    for i := 0 to |path|
      invariant Resolve(root.heap, root.value, path, policy) == Resolve(root.heap, current, path[i..], policy)
    {
      assert path[i..][0] == path[i] && path[i..][1..] == path[i + 1..];
      var key := Key(path[i]);
      if policy.redactedKey(key) {
        return Failure("redacted");
      }
      if current.Truncated? {
        return Failure("capture-truncated");
      }
      if !current.Object? {
        return Failure("missing");
      }
      var own := Own(root.heap, current, key);
      if own.None? || own.value.Accessor? {
        return Failure("missing");
      }
      current := own.value.value;
    }
    if current.Truncated? {
      return Failure("capture-truncated");
    }
    return SafeResult(current, policy);
  }

  // ---------------------------------------------------------------- operators

  predicate IsPortableNumber(v: Value) {
    v.Prim? && v.scalar.Numeric? && IsPortable(v.scalar.n)
  }

  predicate IsUnsafeNumber(v: Value) {
    v.Prim? && v.scalar.Numeric? && !IsPortable(v.scalar.n)
  }

  predicate IsBoolean(v: Value) {
    v.Prim? && v.scalar.Boolean?
  }

  predicate IsScalar(v: Value) {
    v.Prim? && IsPortableScalar(v.scalar)
  }

  function Truth(b: bool): Value {
    Prim(Boolean(b))
  }

  function ApplyUnary(op: UnaryOp, v: Value, policy: Policy): Outcome {
    if op.Not? then
      if IsBoolean(v) then Success(Truth(!v.scalar.b)) else Failure("expected-boolean")
    else if IsPortableNumber(v) then SafeResult(Prim(Numeric(Finite(-v.scalar.n.value))), policy)
    else Failure(if IsUnsafeNumber(v) then "unsafe-number" else "expected-number")
  }

  function Compare(op: BinaryOp, a: real, b: real): bool {
    match op
    case Gt => a > b
    case Gte => a >= b
    case Lt => a < b
    case _ => a <= b
  }

  function Calculate(op: BinaryOp, a: real, b: real, policy: Policy, arithmetic: Arithmetic): Outcome {
    if (op.Divide? || op.Modulo?) && b == 0.0 then Failure("division-by-zero")
    else
      var n := arithmetic(op, a, b);
      if n.Finite? then SafeResult(Prim(Numeric(n)), policy) else Failure("non-finite-result")
  }

  /** Every operator but the two that may skip their right operand. */
  function ApplyBinary(op: BinaryOp, l: Value, r: Value, policy: Policy, arithmetic: Arithmetic): Outcome {
    if op.Eq? || op.Ne? then
      if !IsScalar(l) || !IsScalar(r) then Failure("expected-scalars")
      else Success(Truth((l.scalar == r.scalar) == op.Eq?))
    else if op.Add? && l.Prim? && l.scalar.Text? && r.Prim? && r.scalar.Text? then
      SafeResult(Prim(Text(l.scalar.s + r.scalar.s)), policy)
    else if !IsPortableNumber(l) || !IsPortableNumber(r) then
      Failure(if IsUnsafeNumber(l) || IsUnsafeNumber(r) then "unsafe-number" else MissingNumber(r))
    else if op.Gt? || op.Gte? || op.Lt? || op.Lte? then
      Success(Truth(Compare(op, l.scalar.n.value, r.scalar.n.value)))
    else Calculate(op, l.scalar.n.value, r.scalar.n.value, policy, arithmetic)
  }

  /** `numericError` takes an undefined right operand for a missing one. */
  function MissingNumber(r: Value): string {
    if r.Undefined? then "expected-number" else "expected-numbers"
  }

  function Evaluate(n: Node, root: Root, policy: Policy, arithmetic: Arithmetic): Outcome {
    match n
    case Literal(value) => SafeResult(Prim(value), policy)
    case Reference(path) => Resolve(root.heap, root.value, path, policy)
    case Unary(op, operand) =>
      var v := Evaluate(operand, root, policy, arithmetic);
      if v.Failure? then v else ApplyUnary(op, v.value, policy)
    case Binary(op, left, right) =>
      var l := Evaluate(left, root, policy, arithmetic);
      if l.Failure? then l
      else if op.And? || op.Or? then
        if !IsBoolean(l.value) then Failure("expected-boolean")
        else if l.value.scalar.b == op.Or? then l
        else
          var r := Evaluate(right, root, policy, arithmetic);
          if r.Failure? || IsBoolean(r.value) then r else Failure("expected-boolean")
      else
        var r := Evaluate(right, root, policy, arithmetic);
        if r.Failure? then r else ApplyBinary(op, l.value, r.value, policy, arithmetic)
  }

  // ---------------------------------------------------------------- where an expression looks

  function Paths(n: Node): seq<seq<Segment>> {
    match n
    case Literal(_) => []
    case Reference(path) => [path]
    case Unary(_, operand) => Paths(operand)
    case Binary(_, left, right) => Paths(left) + Paths(right)
  }

  class PathList {
    var paths: seq<seq<Segment>>

    constructor ()
      ensures paths == []
    {
      paths := [];
    }

    method Visit(n: Node)
      modifies this
      ensures paths == old(paths) + Paths(n)
      decreases n
    {
      match n
      case Literal(_) =>
      case Reference(path) => paths := paths + [path];
      case Unary(_, operand) => Visit(operand);
      case Binary(_, left, right) =>
        Visit(left);
        Visit(right);
    }
  }

  method ExpressionPaths(n: Node) returns (paths: seq<seq<Segment>>)
    ensures paths == Paths(n)
  {
    var list := new PathList();
    list.Visit(n);
    return list.paths;
  }

  // ---------------------------------------------------------------- equal up to redacted parts

  /** A pairing of the objects of one heap with those of another. */
  type Pairing = iset<(nat, nat)>

  ghost predicate SameValue(a: Value, b: Value, pairs: Pairing) {
    if a.Object? && b.Object? then (a.address, b.address) in pairs else a == b
  }

  ghost predicate SameOutcome(a: Outcome, b: Outcome, pairs: Pairing) {
    if a.Success? && b.Success? then SameValue(a.value, b.value, pairs) else a == b
  }

  ghost predicate SameProperty(a: Option<Property>, b: Option<Property>, pairs: Pairing) {
    if a.Some? && b.Some? && a.value.Data? && b.value.Data?
    then SameValue(a.value.value, b.value.value, pairs) else a == b
  }

  /**
   Paired objects have the same properties with the same values, except beneath redacted keys,
   where there may be anything or nothing. Cycles and sharing are allowed.
   */
  ghost predicate SameUpToRedaction(h1: Heap, h2: Heap, pairs: Pairing, policy: Policy) {
    forall a, b, key :: (a, b) in pairs && !policy.redactedKey(key) ==>
      SameProperty(Own(h1, Object(a), key), Own(h2, Object(b), key), pairs)
  }

  lemma {:induction false} ResolveIsBlind(
    h1: Heap, h2: Heap, a: Value, b: Value, path: seq<Segment>, policy: Policy, pairs: Pairing)
    requires SameUpToRedaction(h1, h2, pairs, policy) && SameValue(a, b, pairs)
    ensures SameOutcome(Resolve(h1, a, path, policy), Resolve(h2, b, path, policy), pairs)
    decreases |path|
  {
    if path != [] {
      var next1, next2 := Follow(h1, a, path[0], policy), Follow(h2, b, path[0], policy);
      assert SameOutcome(next1, next2, pairs) by {
        if a.Object? && !policy.redactedKey(Key(path[0])) {
          assert SameProperty(Own(h1, Object(a.address), Key(path[0])), Own(h2, Object(b.address), Key(path[0])),
                              pairs);
        }
      }
      if next1.Success? {
        ResolveIsBlind(h1, h2, next1.value, next2.value, path[1..], policy, pairs);
      }
    }
  }

  lemma UnaryKeepsSameness(op: UnaryOp, a: Value, b: Value, policy: Policy, pairs: Pairing)
    requires SameValue(a, b, pairs)
    ensures ApplyUnary(op, a, policy) == ApplyUnary(op, b, policy)
  {
  }

  lemma BinaryKeepsSameness(
    op: BinaryOp, l1: Value, l2: Value, r1: Value, r2: Value, policy: Policy, arithmetic: Arithmetic, pairs: Pairing)
    requires SameValue(l1, l2, pairs) && SameValue(r1, r2, pairs)
    ensures ApplyBinary(op, l1, r1, policy, arithmetic) == ApplyBinary(op, l2, r2, policy, arithmetic)
  {
  }

  /** The same answers at an expression's paths give the same outcome: nothing else is looked at. */
  lemma {:induction false} EvaluationReadsOnlyItsPaths(
    n: Node, root1: Root, root2: Root, policy: Policy, arithmetic: Arithmetic, pairs: Pairing)
    requires forall p :: p in Paths(n) ==>
      SameOutcome(Resolve(root1.heap, root1.value, p, policy), Resolve(root2.heap, root2.value, p, policy), pairs)
    ensures SameOutcome(Evaluate(n, root1, policy, arithmetic), Evaluate(n, root2, policy, arithmetic), pairs)
  {
    match n
    case Literal(_) =>
    case Reference(path) => assert path in Paths(n);
    case Unary(op, operand) =>
      EvaluationReadsOnlyItsPaths(operand, root1, root2, policy, arithmetic, pairs);
      var v1, v2 := Evaluate(operand, root1, policy, arithmetic), Evaluate(operand, root2, policy, arithmetic);
      if v1.Success? {
        UnaryKeepsSameness(op, v1.value, v2.value, policy, pairs);
      }
    case Binary(op, left, right) =>
      EvaluationReadsOnlyItsPaths(left, root1, root2, policy, arithmetic, pairs);
      EvaluationReadsOnlyItsPaths(right, root1, root2, policy, arithmetic, pairs);
      var l1, l2 := Evaluate(left, root1, policy, arithmetic), Evaluate(left, root2, policy, arithmetic);
      var r1, r2 := Evaluate(right, root1, policy, arithmetic), Evaluate(right, root2, policy, arithmetic);
      if l1.Success? && r1.Success? {
        BinaryKeepsSameness(op, l1.value, l2.value, r1.value, r2.value, policy, arithmetic, pairs);
      }
  }

  /** In particular, equal answers at the paths give equal outcomes. */
  lemma EvaluationDependsOnItsPaths(n: Node, root1: Root, root2: Root, policy: Policy, arithmetic: Arithmetic)
    requires forall p :: p in Paths(n) ==>
      Resolve(root1.heap, root1.value, p, policy) == Resolve(root2.heap, root2.value, p, policy)
    ensures Evaluate(n, root1, policy, arithmetic) == Evaluate(n, root2, policy, arithmetic)
  {
    var identity := iset a: nat :: (a, a);
    EvaluationReadsOnlyItsPaths(n, root1, root2, policy, arithmetic, identity);
  }

  /**
   Roots that differ only beneath redacted keys give the same outcome: the same error, the same
   scalar, or objects that again differ only beneath redacted keys.
   */
  lemma EvaluationIsBlindToRedactedParts(
    n: Node, root1: Root, root2: Root, policy: Policy, arithmetic: Arithmetic, pairs: Pairing)
    requires SameUpToRedaction(root1.heap, root2.heap, pairs, policy)
    requires SameValue(root1.value, root2.value, pairs)
    ensures SameOutcome(Evaluate(n, root1, policy, arithmetic), Evaluate(n, root2, policy, arithmetic), pairs)
  {
    forall p | p in Paths(n)
      ensures SameOutcome(Resolve(root1.heap, root1.value, p, policy), Resolve(root2.heap, root2.value, p, policy),
                          pairs)
    {
      ResolveIsBlind(root1.heap, root2.heap, root1.value, root2.value, p, policy, pairs);
    }
    EvaluationReadsOnlyItsPaths(n, root1, root2, policy, arithmetic, pairs);
  }

  // ---------------------------------------------------------------- what a result may be

  /** A number is finite and, if whole, safe; a text is not a redacted one; nothing is truncated. */
  predicate Publishable(v: Value, policy: Policy) {
    !v.Truncated? && (v.Prim? ==>
      IsPortableScalar(v.scalar) && (v.scalar.Text? ==> !policy.redactedText(v.scalar.s)))
  }

  lemma {:induction false} ResolvedIsPublishable(heap: Heap, v: Value, path: seq<Segment>, policy: Policy)
    requires Resolve(heap, v, path, policy).Success?
    ensures Publishable(Resolve(heap, v, path, policy).value, policy)
    ensures forall i :: 0 <= i < |path| ==> !policy.redactedKey(Key(path[i]))
    decreases |path|
  {
    if path != [] {
      ResolvedIsPublishable(heap, Follow(heap, v, path[0], policy).value, path[1..], policy);
      assert forall i :: 0 < i < |path| ==> path[i] == path[1..][i - 1];
    }
  }

  lemma {:induction false} ResultsArePublishable(n: Node, root: Root, policy: Policy, arithmetic: Arithmetic)
    requires Evaluate(n, root, policy, arithmetic).Success?
    ensures Publishable(Evaluate(n, root, policy, arithmetic).value, policy)
  {
    match n
    case Literal(_) =>
    case Reference(path) => ResolvedIsPublishable(root.heap, root.value, path, policy);
    case Unary(_, operand) => ResultsArePublishable(operand, root, policy, arithmetic);
    case Binary(op, left, right) =>
      ResultsArePublishable(left, root, policy, arithmetic);
      if (op.And? || op.Or?) && Evaluate(right, root, policy, arithmetic).Success? {
        ResultsArePublishable(right, root, policy, arithmetic);
      }
  }

  // ---------------------------------------------------------------- how the operators relate

  function Complement(op: BinaryOp): BinaryOp {
    match op
    case Lt => Gte case Gte => Lt case Gt => Lte case Lte => Gt case Eq => Ne case Ne => Eq
    case _ => op
  }

  /** Negating a comparison is the opposite comparison, in results and in errors. */
  lemma ComplementLaw(op: BinaryOp, left: Node, right: Node, root: Root, policy: Policy, arithmetic: Arithmetic)
    requires op.Lt? || op.Gte? || op.Gt? || op.Lte? || op.Eq? || op.Ne?
    ensures Evaluate(Unary(Not, Binary(op, left, right)), root, policy, arithmetic)
         == Evaluate(Binary(Complement(op), left, right), root, policy, arithmetic)
  {
    var l, r := Evaluate(left, root, policy, arithmetic), Evaluate(right, root, policy, arithmetic);
    var whole := Evaluate(Binary(op, left, right), root, policy, arithmetic);
    assert whole == if l.Failure? then l else if r.Failure? then r
        else ApplyBinary(op, l.value, r.value, policy, arithmetic);
  }

  function Dual(op: BinaryOp): BinaryOp {
    if op.And? then Or else if op.Or? then And else op
  }

  /** De Morgan's laws hold exactly: the same operands are skipped, and the same errors come first. */
  lemma DeMorgan(op: BinaryOp, left: Node, right: Node, root: Root, policy: Policy, arithmetic: Arithmetic)
    requires op.And? || op.Or?
    ensures Evaluate(Unary(Not, Binary(op, left, right)), root, policy, arithmetic)
         == Evaluate(Binary(Dual(op), Unary(Not, left), Unary(Not, right)), root, policy, arithmetic)
  {
    var l, r := Evaluate(left, root, policy, arithmetic), Evaluate(right, root, policy, arithmetic);
    var notL := Evaluate(Unary(Not, left), root, policy, arithmetic);
    var notR := Evaluate(Unary(Not, right), root, policy, arithmetic);
    assert notL == if l.Failure? then l else ApplyUnary(Not, l.value, policy);
    assert notR == if r.Failure? then r else ApplyUnary(Not, r.value, policy);
  }

  /** On numbers exactly one of less, equal and greater holds, and greater is less the other way round. */
  lemma NumbersAreOrdered(a: Value, b: Value, policy: Policy, arithmetic: Arithmetic)
    requires IsPortableNumber(a) && IsPortableNumber(b)
    ensures ApplyBinary(Gt, a, b, policy, arithmetic) == ApplyBinary(Lt, b, a, policy, arithmetic)
    ensures ApplyBinary(Lt, a, b, policy, arithmetic) == Success(Truth(true)) <==>
      ApplyBinary(Gt, a, b, policy, arithmetic) == Success(Truth(false))
          && ApplyBinary(Ne, a, b, policy, arithmetic) == Success(Truth(true))
    ensures a.scalar.n.value < b.scalar.n.value <==> ApplyBinary(Lt, a, b, policy, arithmetic) == Success(Truth(true))
  {
  }
}

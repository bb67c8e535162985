/**
 The broker's expression compiler (packages/broker/src/expression.ts) and the agent's check of what
 it is sent (packages/sdk-node/src/safe-expression.ts). The parser's output is taken as a tree, and
 a string is a sequence of UTF-16 code units.
 */
module Expressions {

  datatype Option<T> = None | Some(value: T)
  datatype Result<T> = Success(value: T) | Failure(error: string)

  /** A double, with both zeros taken as one number. */
  datatype Number = Finite(value: real) | Infinite(negative: bool) | NotANumber

  const MAX_SAFE_INTEGER: real := 9007199254740991.0

  predicate IsInteger(x: real) {
    x == x.Floor as real
  }

  predicate IsSafeInteger(x: real) {
    IsInteger(x) && -MAX_SAFE_INTEGER <= x <= MAX_SAFE_INTEGER
  }

  predicate IsPortable(n: Number) {
    n.Finite? && (IsInteger(n.value) ==> IsSafeInteger(n.value))
  }

  datatype Scalar = Null | Boolean(b: bool) | Text(s: string) | Numeric(n: Number)

  predicate IsPortableScalar(s: Scalar) {
    s.Numeric? ==> IsPortable(s.n)
  }

  // ---------------------------------------------------------------- compiled expressions

  datatype Segment = Name(name: string) | Index(index: nat)

  datatype UnaryOp = Not | Negate
  datatype BinaryOp = Add | Subtract | Multiply | Divide | Modulo
                    | Eq | Ne | Gt | Gte | Lt | Lte | And | Or

  datatype Node =
    | Literal(value: Scalar)
    | Reference(path: seq<Segment>)
    | Unary(uop: UnaryOp, operand: Node)
    | Binary(bop: BinaryOp, left: Node, right: Node)

  const MAX_AST_DEPTH := 20
  const MAX_AST_NODES := 100
  const MAX_PATH_SEGMENTS := 64
  const FORBIDDEN_SEGMENTS := {"__proto__", "prototype", "constructor"}

  predicate ValidName(s: string) {
    0 < |s| <= 128 && s !in FORBIDDEN_SEGMENTS
  }

  predicate ValidSegment(s: Segment) {
    match s
    case Name(name) => ValidName(name)
    case Index(index) => IsSafeInteger(index as real)
  }

  predicate ValidPath(path: seq<Segment>) {
    0 < |path| <= MAX_PATH_SEGMENTS && forall i :: 0 <= i < |path| ==> ValidSegment(path[i])
  }

  function Size(n: Node): (size: nat)
    ensures size >= 1
  {
    match n
    case Literal(_) => 1
    case Reference(_) => 1
    case Unary(_, operand) => 1 + Size(operand)
    case Binary(_, left, right) => 1 + Size(left) + Size(right)
  }

  function Max(a: nat, b: nat): nat {
    if a < b then b else a
  }

  function Depth(n: Node): nat {
    match n
    case Literal(_) => 0
    case Reference(_) => 0
    case Unary(_, operand) => 1 + Depth(operand)
    case Binary(_, left, right) => 1 + Max(Depth(left), Depth(right))
  }

  /** Every scalar is portable and every path is a legal one. */
  predicate WellFormed(n: Node) {
    match n
    case Literal(value) => IsPortableScalar(value)
    case Reference(path) => ValidPath(path)
    case Unary(_, operand) => WellFormed(operand)
    case Binary(_, left, right) => WellFormed(left) && WellFormed(right)
  }

  /** Every path starts at a variable's name. */
  predicate NameRooted(n: Node) {
    match n
    case Literal(_) => true
    case Reference(path) => |path| > 0 && path[0].Name?
    case Unary(_, operand) => NameRooted(operand)
    case Binary(_, left, right) => NameRooted(left) && NameRooted(right)
  }

  predicate WithinLimits(n: Node) {
    Size(n) <= MAX_AST_NODES && Depth(n) <= MAX_AST_DEPTH
  }

  // ---------------------------------------------------------------- the compiler

  /** A literal's value: a JSON scalar, or anything else a parser may produce. */
  datatype JsValue = ScalarValue(scalar: Scalar) | OtherValue

  datatype Jsep =
    | LiteralTree(value: JsValue)
    | Identifier(name: string)
    | Member(base: Jsep, property: Jsep, computed: bool, optional: bool)
    | UnaryTree(operator: string, argument: Jsep)
    | BinaryTree(operator: string, left: Jsep, right: Jsep)
    | OtherTree(kind: string)

  function SafeSegment(value: JsValue): (r: Result<Segment>)
    ensures r.Success? ==> ValidSegment(r.value)
  {
    match value
    case ScalarValue(Text(s)) =>
      if |s| == 0 || |s| > 128 || s in FORBIDDEN_SEGMENTS
      then Failure("property segment is not allowed")
      else Success(Name(s))
    case ScalarValue(Numeric(Finite(x))) =>
      if IsSafeInteger(x) && x >= 0.0 then Success(Index(x.Floor))
      else Failure("computed properties require a string or integer literal")
    case _ => Failure("computed properties require a string or integer literal")
  }

  function PropertySegment(property: Jsep, computed: bool): (r: Result<Segment>)
    ensures r.Success? ==> ValidSegment(r.value)
  {
    if computed then
      SafeSegment(if property.LiteralTree? then property.value else OtherValue)
    else if property.Identifier? then SafeSegment(ScalarValue(Text(property.name)))
    else Failure("property access must use a fixed name")
  }

  function ReferencePath(tree: Jsep): (r: Result<seq<Segment>>)
    ensures r.Success? ==> ValidPath(r.value) && r.value[0].Name?
  {
    match tree
    case Identifier(name) =>
      var segment := SafeSegment(ScalarValue(Text(name)));
      if segment.Success? then Success([segment.value]) else Failure(segment.error)
    case Member(base, property, computed, optional) =>
      if optional then Failure("optional chaining is not supported")
      else
        var prefix := ReferencePath(base);
        if prefix.Failure? then prefix
        else
          var segment := PropertySegment(property, computed);
          if segment.Failure? then Failure(segment.error)
          else if |prefix.value| + 1 > MAX_PATH_SEGMENTS then Failure("property path is too deep")
          else Success(prefix.value + [segment.value])
    case _ => Failure("member access must start at a local variable")
  }

  function UnaryOperator(operator: string): Option<UnaryOp> {
    if operator == "!" then Some(Not) else if operator == "-" then Some(Negate) else None
  }

  function BinaryOperator(operator: string): Option<BinaryOp> {
    if operator == "+" then Some(Add) else if operator == "-" then Some(Subtract)
    else if operator == "*" then Some(Multiply) else if operator == "/" then Some(Divide)
    else if operator == "%" then Some(Modulo)
    else if operator == "==" || operator == "===" then Some(Eq)
    else if operator == "!=" || operator == "!==" then Some(Ne)
    else if operator == ">" then Some(Gt) else if operator == ">=" then Some(Gte)
    else if operator == "<" then Some(Lt) else if operator == "<=" then Some(Lte)
    else if operator == "&&" then Some(And) else if operator == "||" then Some(Or)
    else None
  }

  /** What a tree means, leaving the limits on nodes and depth aside. */
  function Translate(tree: Jsep): Option<Node> {
    match tree
    case LiteralTree(ScalarValue(scalar)) =>
      if IsPortableScalar(scalar) then Some(Literal(scalar)) else None
    case LiteralTree(OtherValue) => None
    case UnaryTree(operator, argument) =>
      var op, operand := UnaryOperator(operator), Translate(argument);
      if op.Some? && operand.Some? then Some(Unary(op.value, operand.value)) else None
    case BinaryTree(operator, left, right) =>
      var op, l, r := BinaryOperator(operator), Translate(left), Translate(right);
      if op.Some? && l.Some? && r.Some? then Some(Binary(op.value, l.value, r.value)) else None
    case OtherTree(_) => None
    case _ =>
      var path := ReferencePath(tree);
      if path.Success? then Some(Reference(path.value)) else None
  }

  /** The limits seen from a point where `nodes` were counted and the tree sits `depth` deep. */
  predicate Fits(n: Node, nodes: nat, depth: nat) {
    nodes + Size(n) <= MAX_AST_NODES && depth + Depth(n) <= MAX_AST_DEPTH
  }

  /** The counter `convert` and `validateNode` share among their recursive calls. */
  class Counter {
    var count: nat

    constructor ()
      ensures count == 0
    {
      count := 0;
    }
  }

  method Convert(tree: Jsep, state: Counter, depth: nat) returns (r: Result<Node>)
    modifies state
    ensures r.Success? <==> Translate(tree).Some? && Fits(Translate(tree).value, old(state.count), depth)
    ensures r.Success? ==> r.value == Translate(tree).value && state.count == old(state.count) + Size(r.value)
    decreases tree
  {
    state.count := state.count + 1;
    if state.count > MAX_AST_NODES {
      return Failure("expression has too many nodes");
    }
    if depth > MAX_AST_DEPTH {
      return Failure("expression is too deeply nested");
    }
    match tree
    case LiteralTree(value) =>
      if value.OtherValue? || !IsPortableScalar(value.scalar) {
        return Failure("only finite JSON scalar literals within the safe integer range are supported");
      }
      return Success(Literal(value.scalar));
    case UnaryTree(operator, argument) =>
      var op := UnaryOperator(operator);
      if op.None? {
        return Failure("unary operator is not supported");
      }
      var operand := Convert(argument, state, depth + 1);
      if operand.Failure? {
        return operand;
      }
      return Success(Unary(op.value, operand.value));
    case BinaryTree(operator, left, right) =>
      var op := BinaryOperator(operator);
      if op.None? {
        return Failure("binary operator is not supported");
      }
      var l := Convert(left, state, depth + 1);
      if l.Failure? {
        return l;
      }
      var rr := Convert(right, state, depth + 1);
      if rr.Failure? {
        return rr;
      }
      return Success(Binary(op.value, l.value, rr.value));
    case OtherTree(_) =>
      return Failure("node is not supported");
    case _ =>
      var path := ReferencePath(tree);
      if path.Failure? {
        return Failure(path.error);
      }
      return Success(Reference(path.value));
  }

  // ---------------------------------------------------------------- the wire form

  datatype Json = JsonScalar(scalar: Scalar) | JsonArray(items: seq<Json>) | JsonObject(fields: map<string, Json>)

  function UnaryName(op: UnaryOp): string {
    if op.Not? then "not" else "negate"
  }

  function BinaryName(op: BinaryOp): string {
    match op
    case Add => "add" case Subtract => "subtract" case Multiply => "multiply"
    case Divide => "divide" case Modulo => "modulo" case Eq => "eq" case Ne => "ne"
    case Gt => "gt" case Gte => "gte" case Lt => "lt" case Lte => "lte"
    case And => "and" case Or => "or"
  }

  function String(s: string): Json {
    JsonScalar(Text(s))
  }

  function EncodeSegment(s: Segment): Json {
    match s
    case Name(name) => String(name)
    case Index(index) => JsonScalar(Numeric(Finite(index as real)))
  }

  function EncodePath(path: seq<Segment>): seq<Json> {
    seq(|path|, i requires 0 <= i < |path| => EncodeSegment(path[i]))
  }

  function Encode(n: Node): Json {
    match n
    case Literal(value) => JsonObject(map["type" := String("literal"), "value" := JsonScalar(value)])
    case Reference(path) => JsonObject(map["type" := String("reference"), "path" := JsonArray(EncodePath(path))])
    case Unary(op, operand) =>
      JsonObject(map["type" := String("unary"), "operator" := String(UnaryName(op)),
                     "operand" := Encode(operand)])
    case Binary(op, left, right) =>
      JsonObject(map["type" := String("binary"), "operator" := String(BinaryName(op)),
                     "left" := Encode(left), "right" := Encode(right)])
  }

  // ---------------------------------------------------------------- the agent's check

  predicate HasString(json: Json, key: string, s: string)
    requires json.JsonObject?
  {
    key in json.fields && json.fields[key] == String(s)
  }

  predicate ValidPathSegment(json: Json) {
    match json
    case JsonScalar(Text(s)) => ValidName(s)
    case JsonScalar(Numeric(Finite(x))) => IsSafeInteger(x) && x >= 0.0
    case _ => false
  }

  function DecodeSegment(json: Json): (s: Segment)
    requires ValidPathSegment(json)
    ensures ValidSegment(s) && EncodeSegment(s) == json
  {
    match json
    case JsonScalar(Text(s)) => Name(s)
    case JsonScalar(Numeric(Finite(x))) => Index(x.Floor)
  }

  function DecodeBinaryOp(s: string): (op: Option<BinaryOp>)
    ensures op.Some? ==> BinaryName(op.value) == s
  {
    if s == "add" then Some(Add) else if s == "subtract" then Some(Subtract)
    else if s == "multiply" then Some(Multiply) else if s == "divide" then Some(Divide)
    else if s == "modulo" then Some(Modulo) else if s == "eq" then Some(Eq)
    else if s == "ne" then Some(Ne) else if s == "gt" then Some(Gt)
    else if s == "gte" then Some(Gte) else if s == "lt" then Some(Lt)
    else if s == "lte" then Some(Lte) else if s == "and" then Some(And)
    else if s == "or" then Some(Or) else None
  }

  /** The expression that a JSON value spells out, with nothing missing and nothing added. */
  function Decode(json: Json): (r: Option<Node>)
    decreases json
  {
    if !json.JsonObject? then None
    else if HasString(json, "type", "literal") then DecodeLiteral(json)
    else if HasString(json, "type", "reference") then DecodeReference(json)
    else if HasString(json, "type", "unary") then
      if !("operand" in json.fields) || |json.fields| != 3 then None
      else
        var operand := Decode(json.fields["operand"]);
        if operand.None? then None
        else if HasString(json, "operator", "not") then Some(Unary(Not, operand.value))
        else if HasString(json, "operator", "negate") then Some(Unary(Negate, operand.value))
        else None
    else if HasString(json, "type", "binary") then
      if !("left" in json.fields && "right" in json.fields) || |json.fields| != 4 then None
      else
        var op, left, right := OperatorField(json), Decode(json.fields["left"]), Decode(json.fields["right"]);
        if op.Some? && left.Some? && right.Some? then Some(Binary(op.value, left.value, right.value)) else None
    else None
  }

  function DecodeLiteral(json: Json): Option<Node>
    requires json.JsonObject?
  {
    if HasScalar(json) && |json.fields| == 2 then Some(Literal(json.fields["value"].scalar)) else None
  }

  function DecodeReference(json: Json): Option<Node>
    requires json.JsonObject?
  {
    if HasPath(json) && |json.fields| == 2 then Some(Reference(DecodePath(json.fields["path"].items))) else None
  }

  predicate HasScalar(json: Json)
    requires json.JsonObject?
  {
    "value" in json.fields && json.fields["value"].JsonScalar? && IsPortableScalar(json.fields["value"].scalar)
  }

  predicate HasPath(json: Json)
    requires json.JsonObject?
  {
    "path" in json.fields && json.fields["path"].JsonArray? &&
    var items := json.fields["path"].items;
    0 < |items| <= MAX_PATH_SEGMENTS && forall i :: 0 <= i < |items| ==> ValidPathSegment(items[i])
  }

  function DecodePath(items: seq<Json>): (path: seq<Segment>)
    requires 0 < |items| <= MAX_PATH_SEGMENTS && forall i :: 0 <= i < |items| ==> ValidPathSegment(items[i])
    ensures ValidPath(path) && EncodePath(path) == items
  {
    seq(|items|, i requires 0 <= i < |items| => DecodeSegment(items[i]))
  }

  function OperatorField(json: Json): Option<BinaryOp>
    requires json.JsonObject?
  {
    if "operator" in json.fields && json.fields["operator"].JsonScalar? && json.fields["operator"].scalar.Text?
    then DecodeBinaryOp(json.fields["operator"].scalar.s) else None
  }

  method ValidateNode(json: Json, state: Counter, depth: nat) returns (ok: bool)
    modifies state
    ensures ok <==> Decode(json).Some? && Fits(Decode(json).value, old(state.count), depth)
    ensures ok ==> state.count == old(state.count) + Size(Decode(json).value)
    decreases json
  {
    state.count := state.count + 1;
    if state.count > 100 || depth > 20 || !json.JsonObject? {
      return false;
    }
    if HasString(json, "type", "literal") {
      return HasScalar(json) && |json.fields| == 2;
    }
    if HasString(json, "type", "reference") {
      return HasPath(json) && |json.fields| == 2;
    }
    if HasString(json, "type", "unary") {
      ok := HasString(json, "operator", "not") || HasString(json, "operator", "negate");
      ok := ok && "operand" in json.fields;
      if ok {
        ok := ValidateNode(json.fields["operand"], state, depth + 1);
      }
      return ok && |json.fields| == 3;
    }
    if HasString(json, "type", "binary") {
      ok := OperatorField(json).Some? && "left" in json.fields;
      if ok {
        ok := ValidateNode(json.fields["left"], state, depth + 1);
      }
      ok := ok && "right" in json.fields;
      if ok {
        ok := ValidateNode(json.fields["right"], state, depth + 1);
      }
      return ok && |json.fields| == 4;
    }
    return false;
  }

  // ---------------------------------------------------------------- what the two agree on

  /** A map with as many keys as the ones named has no others. */
  lemma OnlyKeys(m: map<string, Json>, keys: set<string>)
    requires keys <= m.Keys && |m| == |keys|
    ensures m.Keys == keys
  {
    assert |m.Keys| == |m|;
    var rest := m.Keys - keys;
    assert |rest| == |m.Keys| - |keys|;
    assert rest == {};
  }

  lemma DecodedLeaf(json: Json)
    requires Decode(json).Some? && (Decode(json).value.Literal? || Decode(json).value.Reference?)
    ensures WellFormed(Decode(json).value) && json == Encode(Decode(json).value)
  {
    if Decode(json).value.Literal? {
      OnlyKeys(json.fields, {"type", "value"});
    } else {
      OnlyKeys(json.fields, {"type", "path"});
    }
  }

  lemma DecodedUnary(json: Json)
    requires Decode(json).Some? && Decode(json).value.Unary?
    ensures json.JsonObject? && json.fields.Keys == {"type", "operator", "operand"}
    ensures Decode(json.fields["operand"]) == Some(Decode(json).value.operand)
    ensures HasString(json, "type", "unary")
    ensures HasString(json, "operator", UnaryName(Decode(json).value.uop))
  {
    OnlyKeys(json.fields, {"type", "operator", "operand"});
  }

  lemma DecodedBinary(json: Json)
    requires Decode(json).Some? && Decode(json).value.Binary?
    ensures json.JsonObject? && json.fields.Keys == {"type", "operator", "left", "right"}
    ensures Decode(json.fields["left"]) == Some(Decode(json).value.left)
    ensures Decode(json.fields["right"]) == Some(Decode(json).value.right)
    ensures HasString(json, "type", "binary")
    ensures HasString(json, "operator", BinaryName(Decode(json).value.bop))
  {
    OnlyKeys(json.fields, {"type", "operator", "left", "right"});
  }

  lemma {:induction false} DecodedWasEncoded(json: Json)
    requires Decode(json).Some?
    ensures WellFormed(Decode(json).value) && json == Encode(Decode(json).value)
    decreases json
  {
    var n := Decode(json).value;
    match n
    case Literal(_) => DecodedLeaf(json);
    case Reference(_) => DecodedLeaf(json);
    case Unary(_, _) =>
      DecodedUnary(json);
      hide Decode;
      DecodedWasEncoded(json.fields["operand"]);
      assert json.fields == Encode(n).fields;
    case Binary(_, _, _) =>
      DecodedBinary(json);
      hide Decode;
      DecodedWasEncoded(json.fields["left"]);
      DecodedWasEncoded(json.fields["right"]);
      assert json.fields == Encode(n).fields;
  }

  lemma BinaryOpRoundTrip(op: BinaryOp)
    ensures DecodeBinaryOp(BinaryName(op)) == Some(op)
  {
  }

  lemma PathRoundTrip(path: seq<Segment>)
    requires ValidPath(path)
    ensures forall i :: 0 <= i < |path| ==> ValidPathSegment(EncodePath(path)[i])
    ensures DecodePath(EncodePath(path)) == path
  {
    forall i | 0 <= i < |path|
      ensures ValidPathSegment(EncodePath(path)[i]) && DecodeSegment(EncodePath(path)[i]) == path[i]
    {
      assert ValidSegment(path[i]);
    }
  }

  lemma UnaryRoundTrip(op: UnaryOp, json: Json)
    requires Decode(json).Some?
    ensures Decode(JsonObject(map["type" := String("unary"), "operator" := String(UnaryName(op)), "operand" := json]))
         == Some(Unary(op, Decode(json).value))
  {
    var whole :=
      JsonObject(map["type" := String("unary"), "operator" := String(UnaryName(op)), "operand" := json]);
    assert whole.fields["operand"] == json;
    assert |whole.fields.Keys| == |{"type", "operator", "operand"}| by {
      assert whole.fields.Keys == {"type", "operator", "operand"};
    }
  }

  lemma BinaryRoundTrip(op: BinaryOp, left: Json, right: Json)
    requires Decode(left).Some? && Decode(right).Some?
    ensures Decode(JsonObject(map["type" := String("binary"), "operator" := String(BinaryName(op)),
                                  "left" := left, "right" := right]))
         == Some(Binary(op, Decode(left).value, Decode(right).value))
  {
    var whole := JsonObject(map["type" := String("binary"), "operator" := String(BinaryName(op)),
                                "left" := left, "right" := right]);
    assert whole.fields["left"] == left && whole.fields["right"] == right;
    assert |whole.fields.Keys| == |{"type", "operator", "left", "right"}| by {
      assert whole.fields.Keys == {"type", "operator", "left", "right"};
    }
    assert OperatorField(whole) == Some(op) by {
      BinaryOpRoundTrip(op);
    }
  }

  lemma {:induction false} EncodeRoundTrip(n: Node)
    requires WellFormed(n)
    ensures Decode(Encode(n)) == Some(n)
  {
    match n
    case Literal(_) =>
    case Reference(path) => PathRoundTrip(path);
    case Unary(op, operand) =>
      EncodeRoundTrip(operand);
      UnaryRoundTrip(op, Encode(operand));
    case Binary(op, left, right) =>
      EncodeRoundTrip(left);
      EncodeRoundTrip(right);
      BinaryRoundTrip(op, Encode(left), Encode(right));
  }

  lemma BinaryNamesDiffer(a: BinaryOp, b: BinaryOp)
    requires BinaryName(a) == BinaryName(b)
    ensures a == b
  {
    BinaryOpRoundTrip(a);
    BinaryOpRoundTrip(b);
  }

  lemma EncodedPathsDiffer(p: seq<Segment>, q: seq<Segment>)
    requires EncodePath(p) == EncodePath(q)
    ensures p == q
  {
    assert |p| == |q|;
    forall i | 0 <= i < |p| ensures p[i] == q[i] {
      assert EncodePath(p)[i] == EncodePath(q)[i];
    }
  }

  lemma EncodedFields(n: Node)
    ensures Encode(n).JsonObject?
    ensures n.Literal? <==> HasString(Encode(n), "type", "literal")
    ensures n.Reference? <==> HasString(Encode(n), "type", "reference")
    ensures n.Unary? <==> HasString(Encode(n), "type", "unary")
    ensures n.Binary? <==> HasString(Encode(n), "type", "binary")
  {
  }

  /** Different expressions are sent differently, legal or not. */
  lemma {:induction false} EncodeIsInjective(n: Node, m: Node)
    requires Encode(n) == Encode(m)
    ensures n == m
  {
    EncodedFields(n);
    EncodedFields(m);
    match n
    case Literal(_) => assert Encode(n).fields["value"] == Encode(m).fields["value"];
    case Reference(path) =>
      assert Encode(n).fields["path"] == Encode(m).fields["path"];
      EncodedPathsDiffer(path, m.path);
    case Unary(op, operand) =>
      assert Encode(n).fields["operand"] == Encode(m).fields["operand"];
      assert Encode(n).fields["operator"] == Encode(m).fields["operator"];
      EncodeIsInjective(operand, m.operand);
    case Binary(op, left, right) =>
      assert Encode(n).fields["left"] == Encode(m).fields["left"];
      assert Encode(n).fields["right"] == Encode(m).fields["right"];
      assert Encode(n).fields["operator"] == Encode(m).fields["operator"];
      EncodeIsInjective(left, m.left);
      EncodeIsInjective(right, m.right);
      BinaryNamesDiffer(op, m.bop);
  }

  // ---------------------------------------------------------------- what source trees mean

  /** The property of a member is written as a dotted name, or as a literal in brackets. */
  predicate SpellsSegment(property: Jsep, computed: bool, s: Segment) {
    match s
    case Name(name) =>
      if computed then property == LiteralTree(ScalarValue(Text(name))) else property == Identifier(name)
    case Index(index) => computed && property == LiteralTree(ScalarValue(Numeric(Finite(index as real))))
  }

  /** The tree is a chain of members from a variable, and the path's segments are its names from root to tip. */
  predicate Spells(tree: Jsep, path: seq<Segment>)
    decreases |path|
  {
    if |path| <= 1 then |path| == 1 && path[0].Name? && tree == Identifier(path[0].name)
    else
      var last := |path| - 1;
      && tree.Member? && !tree.optional
      && Spells(tree.base, path[..last]) && SpellsSegment(tree.property, tree.computed, path[last])
  }

  /** All ways to write an operator. */
  function BinarySymbols(op: BinaryOp): set<string> {
    match op
    case Add => {"+"} case Subtract => {"-"} case Multiply => {"*"} case Divide => {"/"} case Modulo => {"%"}
    case Eq => {"==", "==="} case Ne => {"!=", "!=="}
    case Gt => {">"} case Gte => {">="} case Lt => {"<"} case Lte => {"<="}
    case And => {"&&"} case Or => {"||"}
  }

  function UnarySymbol(op: UnaryOp): string {
    match op
    case Not => "!"
    case Negate => "-"
  }

  /** The tree is a way to write the expression. */
  predicate Means(tree: Jsep, n: Node)
    decreases n
  {
    match n
    case Literal(value) => tree == LiteralTree(ScalarValue(value))
    case Reference(path) => Spells(tree, path)
    case Unary(op, operand) => tree.UnaryTree? && tree.operator == UnarySymbol(op) && Means(tree.argument, operand)
    case Binary(op, left, right) =>
      tree.BinaryTree? && tree.operator in BinarySymbols(op) && Means(tree.left, left) && Means(tree.right, right)
  }

  /** An operator is read from its symbols and from nothing else. */
  lemma OperatorsExactly(symbol: string, op: BinaryOp, uop: UnaryOp)
    ensures BinaryOperator(symbol) == Some(op) <==> symbol in BinarySymbols(op)
    ensures UnaryOperator(symbol) == Some(uop) <==> symbol == UnarySymbol(uop)
  {
  }

  lemma SegmentExactly(property: Jsep, computed: bool, s: Segment)
    ensures PropertySegment(property, computed) == Success(s)
      <==> SpellsSegment(property, computed, s) && ValidSegment(s)
  {
  }

  /** A tree is read as a path if and only if it spells it and the path is legal. */
  lemma {:induction false} ReferencePathExactly(tree: Jsep, path: seq<Segment>)
    ensures ReferencePath(tree) == Success(path) <==> Spells(tree, path) && ValidPath(path)
    decreases tree
  {
    match tree
    case Identifier(name) =>
      if Spells(tree, path) && ValidPath(path) {
        assert path == [Name(name)] && ValidSegment(path[0]);
      }
    case Member(base, property, computed, optional) =>
      if |path| > 1 {
        var front, last := path[..|path| - 1], path[|path| - 1];
        assert path == front + [last];
        ReferencePathExactly(base, front);
        SegmentExactly(property, computed, last);
        hide PropertySegment, SpellsSegment, ValidSegment;
        MemberPath(tree, front, last);
        ValidFront(path);
      }
    case _ =>
  }

  lemma MemberPath(tree: Jsep, front: seq<Segment>, last: Segment)
    requires tree.Member?
    ensures ReferencePath(tree) == Success(front + [last]) <==>
      && !tree.optional && ReferencePath(tree.base) == Success(front)
      && PropertySegment(tree.property, tree.computed) == Success(last) && |front| + 1 <= MAX_PATH_SEGMENTS
  {
    var prefix, segment := ReferencePath(tree.base), PropertySegment(tree.property, tree.computed);
    hide PropertySegment;
    if ReferencePath(tree) == Success(front + [last]) {
      var path := prefix.value + [segment.value];
      assert path == front + [last];
      assert path[..|path| - 1] == prefix.value && (front + [last])[..|front|] == front;
      assert path[|path| - 1] == segment.value && (front + [last])[|front|] == last;
    }
  }

  lemma ValidFront(path: seq<Segment>)
    requires |path| > 1
    ensures ValidPath(path) <==>
      ValidPath(path[..|path| - 1]) && ValidSegment(path[|path| - 1]) && |path| <= MAX_PATH_SEGMENTS
  {
    hide ValidSegment;
    var front := path[..|path| - 1];
    if ValidPath(front) && ValidSegment(path[|path| - 1]) {
      forall i | 0 <= i < |path| ensures ValidSegment(path[i]) {
        assert i < |front| ==> path[i] == front[i];
      }
    }
  }

  /** A tree compiles to an expression if and only if it is a way to write it and the expression is legal. */
  lemma {:induction false} TranslateExactly(tree: Jsep, n: Node)
    ensures Translate(tree) == Some(n) <==> Means(tree, n) && WellFormed(n)
    decreases tree
  {
    match tree
    case LiteralTree(_) =>
    case UnaryTree(symbol, argument) =>
      if n.Unary? {
        OperatorsExactly(symbol, Add, n.uop);
        TranslateExactly(argument, n.operand);
      }
    case BinaryTree(symbol, left, right) =>
      if n.Binary? {
        OperatorsExactly(symbol, n.bop, Not);
        TranslateExactly(left, n.left);
        TranslateExactly(right, n.right);
        hide BinaryOperator, BinarySymbols;
      }
    case OtherTree(_) =>
    case _ =>
      if n.Reference? {
        ReferencePathExactly(tree, n.path);
      }
  }

  /** A tree that spells the path, with its names dotted or in brackets. */
  function PathTree(path: seq<Segment>, dotted: bool): Jsep
    requires |path| > 0 && path[0].Name?
    decreases |path|
  {
    if |path| == 1 then Identifier(path[0].name)
    else
      var base, last := PathTree(path[..|path| - 1], dotted), path[|path| - 1];
      if dotted && last.Name? then Member(base, Identifier(last.name), false, false)
      else Member(base, SegmentTree(last), true, false)
  }

  function SegmentTree(s: Segment): Jsep {
    match s
    case Name(name) => LiteralTree(ScalarValue(Text(name)))
    case Index(index) => LiteralTree(ScalarValue(Numeric(Finite(index as real))))
  }

  function BinarySymbol(op: BinaryOp): string {
    match op
    case Add => "+" case Subtract => "-" case Multiply => "*" case Divide => "/" case Modulo => "%"
    case Eq => "===" case Ne => "!==" case Gt => ">" case Gte => ">=" case Lt => "<" case Lte => "<="
    case And => "&&" case Or => "||"
  }

  /** The tree of an expression, as a parser would give it. */
  function Decompile(n: Node, dotted: bool): Jsep
    requires NameRooted(n)
  {
    match n
    case Literal(value) => LiteralTree(ScalarValue(value))
    case Reference(path) => PathTree(path, dotted)
    case Unary(op, operand) => UnaryTree(UnarySymbol(op), Decompile(operand, dotted))
    case Binary(op, left, right) => BinaryTree(BinarySymbol(op), Decompile(left, dotted), Decompile(right, dotted))
  }

  lemma {:induction false} PathTreeSpells(path: seq<Segment>, dotted: bool)
    requires |path| > 0 && path[0].Name?
    ensures Spells(PathTree(path, dotted), path)
    decreases |path|
  {
    if |path| > 1 {
      PathTreeSpells(path[..|path| - 1], dotted);
    }
  }

  lemma PathTreeCompiles(path: seq<Segment>, dotted: bool)
    requires ValidPath(path) && path[0].Name?
    ensures ReferencePath(PathTree(path, dotted)) == Success(path)
  {
    PathTreeSpells(path, dotted);
    ReferencePathExactly(PathTree(path, dotted), path);
  }

  lemma {:induction false} DecompileMeans(n: Node, dotted: bool)
    requires NameRooted(n)
    ensures Means(Decompile(n, dotted), n)
  {
    match n
    case Literal(_) =>
    case Reference(path) => PathTreeSpells(path, dotted);
    case Unary(_, operand) => DecompileMeans(operand, dotted);
    case Binary(_, left, right) =>
      DecompileMeans(left, dotted);
      DecompileMeans(right, dotted);
  }

  /** Every legal expression whose paths start at a variable has a source tree, with dots or with brackets. */
  lemma DecompileCompiles(n: Node, dotted: bool)
    requires WellFormed(n) && NameRooted(n)
    ensures Translate(Decompile(n, dotted)) == Some(n)
  {
    DecompileMeans(n, dotted);
    TranslateExactly(Decompile(n, dotted), n);
  }

  lemma {:induction false} TranslationIsWellFormed(tree: Jsep)
    requires Translate(tree).Some?
    ensures WellFormed(Translate(tree).value) && NameRooted(Translate(tree).value)
  {
    match tree
    case UnaryTree(_, argument) => TranslationIsWellFormed(argument);
    case BinaryTree(_, left, right) =>
      TranslationIsWellFormed(left);
      TranslationIsWellFormed(right);
    case _ =>
  }

  /** `compileExpression` on a parsed tree. */
  predicate Compiles(tree: Jsep, n: Node) {
    Translate(tree) == Some(n) && WithinLimits(n)
  }

  /** The agent's verdict on a whole expression. */
  predicate Accepted(json: Json) {
    Decode(json).Some? && WithinLimits(Decode(json).value)
  }

  /**
   What the broker can produce is exactly what the agent accepts, except for the paths that start
   at an index, which no source tree spells.
   */
  lemma CompilerAndValidatorAgree(n: Node)
    ensures (exists tree :: Compiles(tree, n)) <==> Accepted(Encode(n)) && NameRooted(n)
  {
    if tree :| Compiles(tree, n) {
      TranslationIsWellFormed(tree);
      EncodeRoundTrip(n);
    }
    if Accepted(Encode(n)) && NameRooted(n) {
      DecodedWasEncoded(Encode(n));
      EncodeIsInjective(n, Decode(Encode(n)).value);
      DecompileCompiles(n, true);
      assert Compiles(Decompile(n, true), n);
    }
  }

  /** The agent accepts a JSON value if and only if it spells a legal expression within the limits. */
  lemma AcceptedExactly(json: Json)
    ensures Accepted(json) <==> exists n :: WellFormed(n) && WithinLimits(n) && json == Encode(n)
  {
    if Accepted(json) {
      DecodedWasEncoded(json);
    }
    if n :| WellFormed(n) && WithinLimits(n) && json == Encode(n) {
      EncodeRoundTrip(n);
    }
  }

  /** An expression that the agent takes and the broker never sends. */
  lemma IndexRootIsAcceptedNotProduced(tree: Jsep)
    ensures Accepted(Encode(Reference([Index(0)])))
    ensures !Compiles(tree, Reference([Index(0)]))
  {
    EncodeRoundTrip(Reference([Index(0)]));
    if Compiles(tree, Reference([Index(0)])) {
      TranslationIsWellFormed(tree);
    }
  }

  /** The whole way of an expression from the broker's parser to the agent. */
  method CompileAndValidate(tree: Jsep) returns (compiled: Result<Node>, accepted: bool)
    ensures compiled.Success? <==> exists n :: Means(tree, n) && WellFormed(n) && WithinLimits(n)
    ensures compiled.Success? ==>
      Means(tree, compiled.value) && WellFormed(compiled.value) && WithinLimits(compiled.value)
    ensures accepted <==> compiled.Success?
  {
    var nodes := new Counter();
    compiled := Convert(tree, nodes, 0);
    forall n ensures Translate(tree) == Some(n) <==> Means(tree, n) && WellFormed(n) {
      TranslateExactly(tree, n);
    }
    hide Translate, Means, WellFormed;
    if compiled.Failure? {
      return compiled, false;
    }
    var n := compiled.value;
    assert Means(tree, n) && WellFormed(n) && WithinLimits(n);
    EncodeRoundTrip(compiled.value);
    var count := new Counter();
    accepted := ValidateNode(Encode(compiled.value), count, 0);
  }
}

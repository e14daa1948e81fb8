/**
 * The calculator's safe expression evaluator: a recursive interpreter over an
 * already-parsed Python expression tree that admits only whitelisted
 * operators, comparisons and functions.
 *
 * Python's int and float are one numeric kind here (a real); bool takes part
 * in arithmetic as 0 or 1, as in Python. Fractional powers, round and the
 * transcendental functions come from a Math value supplied by the caller.
 */
module ExprEval {
  import opened Wrappers
  import opened Numeric
  import opened Text

  /** The functions an expression may call. */
  datatype Builtin = Abs | Round | Min | Max | Pow | Sqrt | Log | Log10 | Exp | Floor | Ceil | Sin | Cos | Tan

  function BuiltinName(b: Builtin): string {
    match b
    case Abs => "abs"
    case Round => "round"
    case Min => "min"
    case Max => "max"
    case Pow => "pow"
    case Sqrt => "sqrt"
    case Log => "log"
    case Log10 => "log10"
    case Exp => "exp"
    case Floor => "floor"
    case Ceil => "ceil"
    case Sin => "sin"
    case Cos => "cos"
    case Tan => "tan"
  }

  /** The whitelisted function a name denotes, if any. */
  function BuiltinNamed(name: string): (r: Option<Builtin>)
    ensures r.Some? ==> BuiltinName(r.value) == name
    ensures r.None? ==> forall b :: BuiltinName(b) != name
  {
    match name
    case "abs" => Some(Abs)
    case "round" => Some(Round)
    case "min" => Some(Min)
    case "max" => Some(Max)
    case "pow" => Some(Pow)
    case "sqrt" => Some(Sqrt)
    case "log" => Some(Log)
    case "log10" => Some(Log10)
    case "exp" => Some(Exp)
    case "floor" => Some(Floor)
    case "ceil" => Some(Ceil)
    case "sin" => Some(Sin)
    case "cos" => Some(Cos)
    case "tan" => Some(Tan)
    case _ => None
  }

  /** A value an expression produces or a context holds. */
  datatype Value = Num(n: real) | Bool(b: bool) | Str(s: string) | Fn(f: Builtin) | NoneV

  /** Numbers and booleans take part in arithmetic. */
  predicate IsNumber(v: Value) {
    v.Num? || v.Bool?
  }

  function AsReal(v: Value): real
    requires IsNumber(v)
  {
    if v.Num? then v.n else if v.b then 1.0 else 0.0
  }

  /** Python truthiness. */
  predicate Truthy(v: Value) {
    match v
    case Num(n) => n != 0.0
    case Bool(b) => b
    case Str(s) => s != ""
    case Fn(_) => true
    case NoneV => false
  }

  function TypeName(v: Value): string {
    match v
    case Num(_) => "float"
    case Bool(_) => "bool"
    case Str(_) => "str"
    case Fn(_) => "builtin_function_or_method"
    case NoneV => "NoneType"
  }

  datatype BinOperator = Add | Sub | Mult | Div | FloorDiv | Mod | PowOp | OtherBinOp(name: string)
  datatype UnaryOperator = USub | UAdd | OtherUnaryOp(name: string)
  datatype CmpOperator = Eq | NotEq | Lt | LtE | Gt | GtE | OtherCmpOp(name: string)
  datatype BoolOperator = And | Or

  /** A parsed expression; OtherExpr stands for every node kind the evaluator refuses. */
  datatype Expr =
    | Const(value: Value)
    | Name(id: string)
    | BinOp(op: BinOperator, left: Expr, right: Expr)
    | UnaryOp(uop: UnaryOperator, operand: Expr)
    | Compare(first: Expr, ops: seq<CmpOperator>, comparators: seq<Expr>)
    | Call(func: Expr, args: seq<Expr>)
    | IfExp(test: Expr, body: Expr, orelse: Expr)
    | BoolOp(bop: BoolOperator, values: seq<Expr>)
    | OtherExpr(kind: string)

  /**
   * What the model does not compute itself: a power with a fractional
   * exponent (None where Python's result would not be a real number),
   * round(x) and round(x, digits), and the math functions (None for a
   * math domain error).
   */
  datatype Math = Math(
    pow: (real, real) -> Option<real>,
    round: (real, Option<int>) -> real,
    apply: (Builtin, seq<real>) -> Option<real>)

  /** round(x) or round(x, digits), as the supplied Math value computes it. */
  function RoundTo(m: Math, x: real, digits: Option<int>): real {
    m.round(x, digits)
  }

  /** Why an evaluation raised. */
  datatype EvalError =
    | UnknownVariable(name: string)
    | UnsupportedOperator(opName: string)
    | UnsupportedUnaryOperator(opName: string)
    | UnsupportedComparison(opName: string)
    | UnsupportedExpression(kind: string)
    | NotCallable(callee: Value)
    | BadOperands(detail: string)
    | DivisionByZero
    | MathDomain
    | NonRealPower
    | MissingArguments(funcName: string, names: seq<string>)

  /** str() of a value; numbers go through the supplied formatter. */
  function ValueText(v: Value, fmt: real -> string): string {
    match v
    case Num(n) => fmt(n)
    case Bool(b) => if b then "True" else "False"
    case Str(s) => s
    case Fn(f) => "<built-in function " + BuiltinName(f) + ">"
    case NoneV => "None"
  }

  /** The text of the exception an evaluation error raises. */
  function ErrorText(e: EvalError, fmt: real -> string): string {
    match e
    case UnknownVariable(name) => "Unknown variable: " + name
    case UnsupportedOperator(op) => "Unsupported operator: " + op
    case UnsupportedUnaryOperator(op) => "Unsupported unary operator: " + op
    case UnsupportedComparison(op) => "Unsupported comparison: " + op
    case UnsupportedExpression(kind) => "Unsupported expression type: " + kind
    case NotCallable(v) => "Not a callable: " + ValueText(v, fmt)
    case BadOperands(detail) => detail
    case DivisionByZero => "division by zero"
    case MathDomain => "math domain error"
    case NonRealPower => "complex result"
    case MissingArguments(f, names) =>
      f + "() missing " + IntToString(|names|) + " required positional argument" + (if |names| == 1 then "" else "s")
      + ": " + QuotedNames(names)
  }

  /** Names quoted and listed as Python lists them: 'a', 'a' and 'b', 'a', 'b', and 'c'. */
  function QuotedNames(names: seq<string>): string {
    if names == [] then ""
    else if |names| == 1 then "'" + names[0] + "'"
    else if |names| == 2 then "'" + names[0] + "' and '" + names[1] + "'"
    else Join(Quoted(names[..|names| - 1]), ", ") + ", and '" + names[|names| - 1] + "'"
  }

  function Quoted(names: seq<string>): (r: seq<string>)
    ensures |r| == |names|
  {
    if names == [] then [] else ["'" + names[0] + "'"] + Quoted(names[1..])
  }

  // ------------------------------------------------------------ names

  /**
   * A name is looked up in the context first, then among the whitelisted
   * functions, then as True or False; any other name raises.
   */
  function Lookup(id: string, ctx: map<string, Value>): (r: Result<Value, EvalError>)
    ensures id in ctx ==> r == Ok(ctx[id])
    ensures id !in ctx && BuiltinNamed(id).Some? ==> r == Ok(Fn(BuiltinNamed(id).value))
    ensures id !in ctx && BuiltinNamed(id).None? && id == "True" ==> r == Ok(Bool(true))
    ensures id !in ctx && BuiltinNamed(id).None? && id == "False" ==> r == Ok(Bool(false))
    ensures r.Err? <==> id !in ctx && BuiltinNamed(id).None? && id != "True" && id != "False"
    ensures r.Err? ==> r.error == UnknownVariable(id)
  {
    if id in ctx then Ok(ctx[id])
    else if BuiltinNamed(id).Some? then Ok(Fn(BuiltinNamed(id).value))
    else if id == "True" then Ok(Bool(true))
    else if id == "False" then Ok(Bool(false))
    else Err(UnknownVariable(id))
  }

  // ------------------------------------------------------------ operators

  /**
   * x ** y: an integral exponent is repeated multiplication (raising when 0
   * is raised to a negative power); a fractional one goes to the Math value.
   */
  function PyPow(x: real, y: real, m: Math): (r: Result<real, EvalError>)
    ensures y == y.Floor as real && y >= 0.0 ==> r == Ok(IntPow(x, y.Floor as nat))
    ensures y == y.Floor as real && y < 0.0 ==> (r.Err? <==> x == 0.0)
    ensures r.Err? && y == y.Floor as real ==> r.error == DivisionByZero
  {
    if y == y.Floor as real then
      if y >= 0.0 then Ok(IntPow(x, y.Floor as nat))
      else if x == 0.0 then Err(DivisionByZero)
      else Ok(IntPowZ(x, y.Floor))
    else
      match m.pow(x, y)
      case Some(r) => Ok(r)
      case None => Err(NonRealPower)
  }

  function BinSymbol(op: BinOperator): string {
    match op
    case Add => "+"
    case Sub => "-"
    case Mult => "*"
    case Div => "/"
    case FloorDiv => "//"
    case Mod => "%"
    case PowOp => "**"
    case OtherBinOp(name) => name
  }

  function OperandError(op: BinOperator, a: Value, b: Value): EvalError {
    BadOperands("unsupported operand type(s) for " + BinSymbol(op) + ": '" + TypeName(a) + "' and '" + TypeName(b) + "'")
  }

  /** Python floor division and modulo: the quotient rounds down, the remainder takes the divisor's sign. */
  function FloorQuotient(x: real, y: real): (q: int)
    requires y != 0.0
    ensures y > 0.0 ==> q as real * y <= x < (q + 1) as real * y
    ensures y < 0.0 ==> (q + 1) as real * y < x <= q as real * y
  {
    FloorBounds(x, y);
    (x / y).Floor
  }

  lemma FloorBounds(x: real, y: real)
    requires y != 0.0
    ensures y > 0.0 ==> (x / y).Floor as real * y <= x < ((x / y).Floor + 1) as real * y
    ensures y < 0.0 ==> ((x / y).Floor + 1) as real * y < x <= (x / y).Floor as real * y
  {
    var z := x / y;
    var n := z.Floor;
    DivMul(x, y);
    assert n as real <= z < (n + 1) as real;
    ScaleBetween(n as real, z, (n + 1) as real, y);
    assert z * y == x;
    if y > 0.0 {
      assert n as real * y <= x;
      assert x < (n + 1) as real * y;
    }
  }

  /** Multiplying lo <= z < hi by y keeps the order for y > 0 and flips it for y < 0. */
  lemma ScaleBetween(lo: real, z: real, hi: real, y: real)
    requires lo <= z < hi
    ensures y > 0.0 ==> lo * y <= z * y < hi * y
    ensures y < 0.0 ==> hi * y < z * y <= lo * y
  {
    if y > 0.0 {
      assert (z - lo) * y >= 0.0;
      assert (hi - z) * y > 0.0;
    } else if y < 0.0 {
      assert (z - lo) * y <= 0.0;
      assert (hi - z) * y < 0.0;
    }
  }

  function Remainder(x: real, y: real): (r: real)
    requires y != 0.0
    ensures y > 0.0 ==> 0.0 <= r < y
    ensures y < 0.0 ==> y < r <= 0.0
    ensures r + FloorQuotient(x, y) as real * y == x
  {
    x - y * FloorQuotient(x, y) as real
  }

  /**
   * A binary operator applied to already evaluated operands. Only the seven
   * whitelisted operators run; `+` joins two strings, and every other
   * success needs two numbers and yields a number.
   */
  function ApplyBinOp(op: BinOperator, a: Value, b: Value, m: Math): (r: Result<Value, EvalError>)
    ensures op.OtherBinOp? ==> r == Err(UnsupportedOperator(op.name))
    ensures r.Ok? && r.value.Str? ==> op == Add && a.Str? && b.Str? && r.value.s == a.s + b.s
    ensures r.Ok? ==> r.value.Num? || r.value.Str?
    ensures !(IsNumber(a) && IsNumber(b)) && !(op == Add && a.Str? && b.Str?) ==> r.Err?
    ensures !op.OtherBinOp? && IsNumber(a) && IsNumber(b) ==> r == NumericBinOp(op, AsReal(a), AsReal(b), m)
  {
    if op.OtherBinOp? then Err(UnsupportedOperator(op.name))
    else if op == Add && a.Str? && b.Str? then Ok(Str(a.s + b.s))
    else if !(IsNumber(a) && IsNumber(b)) then Err(OperandError(op, a, b))
    else NumericBinOp(op, AsReal(a), AsReal(b), m)
  }

  /**
   * A whitelisted operator on two numbers: `/`, `//` and `%` raise exactly
   * on a zero divisor, `/` and `-` undo `*` and `+`, and `//` and `%`
   * recombine to the dividend.
   */
  function NumericBinOp(op: BinOperator, x: real, y: real, m: Math): (r: Result<Value, EvalError>)
    requires !op.OtherBinOp?
    ensures r.Ok? ==> r.value.Num?
    ensures op == Div || op == FloorDiv || op == Mod ==> (r.Err? <==> y == 0.0)
    ensures op == Div && r.Ok? ==> r.value.n * y == x
    ensures op == Sub ==> r.Ok? && r.value.n + y == x
    ensures op == Add ==> r.Ok? && r.value.n - y == x
  {
    match op
    case Add => Ok(Num(x + y))
    case Sub => Ok(Num(x - y))
    case Mult => Ok(Num(x * y))
    case Div => if y == 0.0 then Err(DivisionByZero) else DivMul(x, y); Ok(Num(x / y))
    case FloorDiv => if y == 0.0 then Err(DivisionByZero) else Ok(Num(FloorQuotient(x, y) as real))
    case Mod => if y == 0.0 then Err(DivisionByZero) else Ok(Num(Remainder(x, y)))
    case PowOp =>
      (match PyPow(x, y, m)
       case Ok(r) => Ok(Num(r))
       case Err(e) => Err(e))
  }

  /** Unary minus and plus: defined exactly on numbers, minus negating and plus converting a boolean to a number. */
  function ApplyUnaryOp(op: UnaryOperator, v: Value): (r: Result<Value, EvalError>)
    ensures r.Ok? <==> IsNumber(v) && !op.OtherUnaryOp?
    ensures r.Ok? && op == USub ==> r.value.Num? && r.value.n + AsReal(v) == 0.0
    ensures r.Ok? && op == UAdd ==> r.value.Num? && r.value.n == AsReal(v)
  {
    match op
    case OtherUnaryOp(name) => Err(UnsupportedUnaryOperator(name))
    case USub => if IsNumber(v) then Ok(Num(-AsReal(v))) else Err(BadOperands("bad operand type for unary -: '" + TypeName(v) + "'"))
    case UAdd => if IsNumber(v) then Ok(Num(AsReal(v))) else Err(BadOperands("bad operand type for unary +: '" + TypeName(v) + "'"))
  }

  /** Python `==` on values: numbers and booleans compare by value, anything else structurally. */
  predicate PyEq(a: Value, b: Value) {
    if IsNumber(a) && IsNumber(b) then AsReal(a) == AsReal(b) else a == b
  }

  /** Lexicographic order on strings. */
  predicate StrLess(a: string, b: string) {
    if b == [] then false
    else if a == [] then true
    else if a[0] != b[0] then a[0] < b[0]
    else StrLess(a[1..], b[1..])
  }

  function CmpSymbol(op: CmpOperator): string {
    match op
    case Eq => "=="
    case NotEq => "!="
    case Lt => "<"
    case LtE => "<="
    case Gt => ">"
    case GtE => ">="
    case OtherCmpOp(name) => name
  }

  /**
   * One comparison. `==` and `!=` never raise and are complementary; the
   * orderings hold between two numbers by value and between two strings,
   * and raise for any other pair.
   */
  function CompareValues(op: CmpOperator, a: Value, b: Value): (r: Result<bool, EvalError>)
    ensures op.OtherCmpOp? ==> r.Err?
    ensures op == Eq ==> r == Ok(PyEq(a, b))
    ensures op == NotEq ==> r == Ok(!PyEq(a, b))
    ensures IsNumber(a) && IsNumber(b) && op == Lt ==> r == Ok(AsReal(a) < AsReal(b))
    ensures IsNumber(a) && IsNumber(b) && op == LtE ==> r == Ok(AsReal(a) <= AsReal(b))
    ensures IsNumber(a) && IsNumber(b) && op == Gt ==> r == Ok(AsReal(a) > AsReal(b))
    ensures IsNumber(a) && IsNumber(b) && op == GtE ==> r == Ok(AsReal(a) >= AsReal(b))
    ensures r.Err? && !op.OtherCmpOp? ==> op != Eq && op != NotEq && !(IsNumber(a) && IsNumber(b)) && !(a.Str? && b.Str?)
  {
    match op
    case OtherCmpOp(name) => Err(UnsupportedComparison(name))
    case Eq => Ok(PyEq(a, b))
    case NotEq => Ok(!PyEq(a, b))
    case _ =>
      if IsNumber(a) && IsNumber(b) then Ok(NumberOrder(op, AsReal(a), AsReal(b)))
      else if a.Str? && b.Str? then Ok(StringOrder(op, a.s, b.s))
      else
        Err(BadOperands("'" + CmpSymbol(op) + "' not supported between instances of '" + TypeName(a) + "' and '" + TypeName(b) + "'"))
  }

  /** <, <=, > or >= on numbers (any other operator reads as >=). */
  predicate NumberOrder(op: CmpOperator, x: real, y: real) {
    if op == Lt then x < y
    else if op == LtE then x <= y
    else if op == Gt then x > y
    else x >= y
  }

  predicate StringOrder(op: CmpOperator, a: string, b: string) {
    if op == Lt then StrLess(a, b)
    else if op == LtE then StrLess(a, b) || a == b
    else if op == Gt then StrLess(b, a)
    else StrLess(b, a) || a == b
  }

  // ------------------------------------------------------------ functions

  predicate AllNumbers(vs: seq<Value>) {
    forall i :: 0 <= i < |vs| ==> IsNumber(vs[i])
  }

  function Reals(vs: seq<Value>): (rs: seq<real>)
    requires AllNumbers(vs)
    ensures |rs| == |vs| && forall i :: 0 <= i < |vs| ==> rs[i] == AsReal(vs[i])
  {
    if vs == [] then [] else [AsReal(vs[0])] + Reals(vs[1..])
  }

  /** The first least (or, with largest, first greatest) of some numbers, as the value given. */
  function Extreme(vs: seq<Value>, largest: bool): (r: Value)
    requires |vs| > 0 && AllNumbers(vs)
    ensures r in vs
    ensures forall i :: 0 <= i < |vs| ==> if largest then AsReal(vs[i]) <= AsReal(r) else AsReal(r) <= AsReal(vs[i])
  {
    if |vs| == 1 then vs[0]
    else
      var rest := Extreme(vs[1..], largest);
      assert forall i :: 1 <= i < |vs| ==> vs[i] == vs[1..][i - 1];
      if (largest && AsReal(rest) > AsReal(vs[0])) || (!largest && AsReal(rest) < AsReal(vs[0])) then rest
      else vs[0]
  }

  function CallError(b: Builtin): EvalError {
    BadOperands("bad arguments to " + BuiltinName(b) + "()")
  }

  /**
   * A whitelisted function applied to evaluated arguments. Every function
   * needs numeric arguments and returns a number; abs gives the magnitude,
   * max and min (of two or more) one of the arguments bounding the rest,
   * and floor and ceil the integers just below and just above.
   */
  function CallBuiltin(b: Builtin, args: seq<Value>, m: Math): (r: Result<Value, EvalError>)
    ensures !AllNumbers(args) ==> r == Err(CallError(b))
    ensures r.Ok? ==> IsNumber(r.value)
    ensures b == Abs && AllNumbers(args) && |args| == 1 ==>
              r.Ok? && AsReal(r.value) >= 0.0 && (AsReal(r.value) == AsReal(args[0]) || AsReal(r.value) == -AsReal(args[0]))
    ensures (b == Max || b == Min) && AllNumbers(args) && |args| >= 2 ==>
              r.Ok? && r.value in args
              && forall i :: 0 <= i < |args| ==> if b == Max then AsReal(args[i]) <= AsReal(r.value) else AsReal(r.value) <= AsReal(args[i])
    ensures b == Floor && AllNumbers(args) && |args| == 1 ==>
              r.Ok? && r.value.Num? && r.value.n == r.value.n.Floor as real && r.value.n <= AsReal(args[0]) < r.value.n + 1.0
    ensures b == Ceil && AllNumbers(args) && |args| == 1 ==>
              r.Ok? && r.value.Num? && r.value.n == r.value.n.Floor as real && r.value.n - 1.0 < AsReal(args[0]) <= r.value.n
  {
    if !AllNumbers(args) then Err(CallError(b))
    else
      match b
      case Abs => if |args| == 1 then Ok(Num(if AsReal(args[0]) < 0.0 then -AsReal(args[0]) else AsReal(args[0]))) else Err(CallError(b))
      case Min => if |args| >= 2 then Ok(Extreme(args, false)) else Err(CallError(b))
      case Max => if |args| >= 2 then Ok(Extreme(args, true)) else Err(CallError(b))
      case Pow =>
        if |args| == 2 then
          (match PyPow(AsReal(args[0]), AsReal(args[1]), m)
           case Ok(r) => Ok(Num(r))
           case Err(e) => Err(e))
        else Err(CallError(b))
      case Round =>
        if |args| == 1 then Ok(Num(RoundTo(m, AsReal(args[0]), None)))
        else if |args| == 2 && AsReal(args[1]) == AsReal(args[1]).Floor as real then
          Ok(Num(RoundTo(m, AsReal(args[0]), Some(AsReal(args[1]).Floor))))
        else Err(CallError(b))
      case Floor => if |args| == 1 then Ok(Num(AsReal(args[0]).Floor as real)) else Err(CallError(b))
      case Ceil => if |args| == 1 then Ok(Num(-((-AsReal(args[0])).Floor) as real)) else Err(CallError(b))
      case _ =>
        match m.apply(b, Reals(args))
        case Some(r) => Ok(Num(r))
        case None => Err(MathDomain)
  }

  // ------------------------------------------------------------ evaluation

  /**
   * The value of an expression in a context, or the error it raises. A
   * constant is its own value, a name is looked up, comparisons and `and` /
   * `or` yield booleans, arithmetic yields a number or a joined string,
   * calling anything but a whitelisted function raises, and every other
   * node kind is refused.
   */
  function Eval(e: Expr, ctx: map<string, Value>, m: Math): (r: Result<Value, EvalError>)
    decreases e, 0
    ensures e.Const? ==> r == Ok(e.value)
    ensures e.Name? ==> r == Lookup(e.id, ctx)
    ensures (e.Compare? || e.BoolOp?) && r.Ok? ==> r.value.Bool?
    ensures (e.BinOp? || e.UnaryOp?) && r.Ok? ==> r.value.Num? || r.value.Str?
    ensures e.Call? && r.Ok? ==> IsNumber(r.value)
    ensures e.OtherExpr? ==> r == Err(UnsupportedExpression(e.kind))
  {
    match e
    case Const(v) => Ok(v)
    case Name(id) => Lookup(id, ctx)
    case BinOp(op, l, r) =>
      var a :- Eval(l, ctx, m);
      var b :- Eval(r, ctx, m);
      ApplyBinOp(op, a, b, m)
    case UnaryOp(op, x) =>
      var v :- Eval(x, ctx, m);
      ApplyUnaryOp(op, v)
    case Compare(first, ops, comparators) =>
      var v :- Eval(first, ctx, m);
      EvalChain(v, ops, comparators, ctx, m)
    case Call(f, args) =>
      var callee :- Eval(f, ctx, m);
      var vs :- EvalArgs(args, ctx, m);
      if callee.Fn? then CallBuiltin(callee.f, vs, m) else Err(NotCallable(callee))
    case IfExp(test, body, orelse) =>
      var c :- Eval(test, ctx, m);
      if Truthy(c) then Eval(body, ctx, m) else Eval(orelse, ctx, m)
    case BoolOp(op, values) => EvalBoolOp(op, values, ctx, m)
    case OtherExpr(kind) => Err(UnsupportedExpression(kind))
  }

  /**
   * The rest of a comparison chain, `left` being the value of the previous
   * operand; operators and operands pair up as zip() pairs them. The chain
   * is false at the first link that does not hold, and the later operands
   * are then not evaluated.
   */
  function EvalChain(left: Value, ops: seq<CmpOperator>, comparators: seq<Expr>, ctx: map<string, Value>, m: Math): (r: Result<Value, EvalError>)
    decreases comparators
    ensures r.Ok? ==> r.value.Bool?
  {
    if ops == [] || comparators == [] then Ok(Bool(true))
    else
      var right :- Eval(comparators[0], ctx, m);
      var holds :- CompareValues(ops[0], left, right);
      if !holds then Ok(Bool(false)) else EvalChain(right, ops[1..], comparators[1..], ctx, m)
  }

  /** Arguments are evaluated left to right; the first error wins. */
  function EvalArgs(args: seq<Expr>, ctx: map<string, Value>, m: Math): (r: Result<seq<Value>, EvalError>)
    decreases args
    ensures r.Ok? ==> |r.value| == |args|
  {
    if args == [] then Ok([])
    else
      assert args[0] in args;
      var v :- Eval(args[0], ctx, m);
      var rest :- EvalArgs(args[1..], ctx, m);
      Ok([v] + rest)
  }

  /** `and` / `or` over the operands, stopping at the first that decides; the result is a boolean. */
  function EvalBoolOp(op: BoolOperator, values: seq<Expr>, ctx: map<string, Value>, m: Math): (r: Result<Value, EvalError>)
    decreases values
    ensures r.Ok? ==> r.value.Bool?
  {
    if values == [] then Ok(Bool(op == And))
    else
      assert values[0] in values;
      var v :- Eval(values[0], ctx, m);
      if op == And && !Truthy(v) then Ok(Bool(false))
      else if op == Or && Truthy(v) then Ok(Bool(true))
      else EvalBoolOp(op, values[1..], ctx, m)
  }

  // ------------------------------------------------------------ properties

  /** Two contexts bind a name alike: both leave it unbound or bind it to the same value. */
  predicate SameBinding(id: string, c1: map<string, Value>, c2: map<string, Value>) {
    (id in c1 <==> id in c2) && (id in c1 ==> c1[id] == c2[id])
  }

  /** Two contexts bind alike every name that occurs in e. */
  predicate AgreeOn(e: Expr, c1: map<string, Value>, c2: map<string, Value>)
    decreases e
  {
    match e
    case Const(_) => true
    case Name(id) => SameBinding(id, c1, c2)
    case BinOp(_, l, r) => AgreeOn(l, c1, c2) && AgreeOn(r, c1, c2)
    case UnaryOp(_, x) => AgreeOn(x, c1, c2)
    case Compare(first, _, comparators) => AgreeOn(first, c1, c2) && AgreeOnAll(comparators, c1, c2)
    case Call(f, args) => AgreeOn(f, c1, c2) && AgreeOnAll(args, c1, c2)
    case IfExp(t, b, o) => AgreeOn(t, c1, c2) && AgreeOn(b, c1, c2) && AgreeOn(o, c1, c2)
    case BoolOp(_, values) => AgreeOnAll(values, c1, c2)
    case OtherExpr(_) => true
  }

  predicate AgreeOnAll(es: seq<Expr>, c1: map<string, Value>, c2: map<string, Value>)
    decreases es
  {
    es == [] || (AgreeOn(es[0], c1, c2) && AgreeOnAll(es[1..], c1, c2))
  }

  /**
   * An expression reads the context only through the names occurring in it:
   * contexts that agree on those names give the same value or the same error.
   */
  lemma {:induction false} EvalReadsOnlyItsNames(e: Expr, c1: map<string, Value>, c2: map<string, Value>, m: Math)
    requires AgreeOn(e, c1, c2)
    ensures Eval(e, c1, m) == Eval(e, c2, m)
    decreases e, 0
  {
    match e
    case Const(_) =>
    case Name(id) =>
    case BinOp(_, l, r) =>
      EvalReadsOnlyItsNames(l, c1, c2, m);
      EvalReadsOnlyItsNames(r, c1, c2, m);
    case UnaryOp(_, x) =>
      EvalReadsOnlyItsNames(x, c1, c2, m);
    case Compare(first, ops, comparators) =>
      EvalReadsOnlyItsNames(first, c1, c2, m);
      if Eval(first, c1, m).Ok? {
        ChainReadsOnlyItsNames(Eval(first, c1, m).value, ops, comparators, c1, c2, m);
      }
    case Call(f, args) =>
      EvalReadsOnlyItsNames(f, c1, c2, m);
      ArgsReadOnlyTheirNames(args, c1, c2, m);
    case IfExp(t, b, o) =>
      EvalReadsOnlyItsNames(t, c1, c2, m);
      EvalReadsOnlyItsNames(b, c1, c2, m);
      EvalReadsOnlyItsNames(o, c1, c2, m);
    case BoolOp(op, values) =>
      BoolOpReadsOnlyItsNames(op, values, c1, c2, m);
    case OtherExpr(_) =>
  }

  lemma {:induction false} ChainReadsOnlyItsNames(left: Value, ops: seq<CmpOperator>, comparators: seq<Expr>, c1: map<string, Value>, c2: map<string, Value>, m: Math)
    requires AgreeOnAll(comparators, c1, c2)
    ensures EvalChain(left, ops, comparators, c1, m) == EvalChain(left, ops, comparators, c2, m)
    decreases comparators
  {
    if ops != [] && comparators != [] {
      EvalReadsOnlyItsNames(comparators[0], c1, c2, m);
      var right := Eval(comparators[0], c1, m);
      if right.Ok? {
        ChainReadsOnlyItsNames(right.value, ops[1..], comparators[1..], c1, c2, m);
      }
    }
  }

  lemma {:induction false} ArgsReadOnlyTheirNames(args: seq<Expr>, c1: map<string, Value>, c2: map<string, Value>, m: Math)
    requires AgreeOnAll(args, c1, c2)
    ensures EvalArgs(args, c1, m) == EvalArgs(args, c2, m)
    decreases args
  {
    if args != [] {
      EvalReadsOnlyItsNames(args[0], c1, c2, m);
      ArgsReadOnlyTheirNames(args[1..], c1, c2, m);
    }
  }

  lemma {:induction false} BoolOpReadsOnlyItsNames(op: BoolOperator, values: seq<Expr>, c1: map<string, Value>, c2: map<string, Value>, m: Math)
    requires AgreeOnAll(values, c1, c2)
    ensures EvalBoolOp(op, values, c1, m) == EvalBoolOp(op, values, c2, m)
    decreases values
  {
    if values != [] {
      EvalReadsOnlyItsNames(values[0], c1, c2, m);
      BoolOpReadsOnlyItsNames(op, values[1..], c1, c2, m);
    }
  }

  /** Every operand evaluates without raising, to a value of the given truthiness. */
  predicate AllEvaluateTo(values: seq<Expr>, ctx: map<string, Value>, m: Math, truthy: bool) {
    forall i :: 0 <= i < |values| ==> Eval(values[i], ctx, m).Ok? && Truthy(Eval(values[i], ctx, m).value) == truthy
  }

  /**
   * `and` / `or` decide at the first operand that settles them: if the
   * operands before k evaluate without raising and do not settle, and the
   * operand at k does, the result is fixed whatever the later operands do.
   */
  lemma {:induction false} BoolOpStopsAtDecidingOperand(op: BoolOperator, values: seq<Expr>, k: nat, ctx: map<string, Value>, m: Math)
    requires k < |values|
    requires AllEvaluateTo(values[..k], ctx, m, op == And)
    requires Eval(values[k], ctx, m).Ok? && Truthy(Eval(values[k], ctx, m).value) != (op == And)
    ensures EvalBoolOp(op, values, ctx, m) == Ok(Bool(op == Or))
    decreases k
  {
    if k > 0 {
      assert values[..k][0] == values[0];
      assert values[1..][..k - 1] == values[..k][1..];
      assert values[1..][k - 1] == values[k];
      BoolOpStopsAtDecidingOperand(op, values[1..], k - 1, ctx, m);
    }
  }

  /** When no operand settles the operator, `and` is true and `or` is false. */
  lemma {:induction false} BoolOpWithoutDecidingOperand(op: BoolOperator, values: seq<Expr>, ctx: map<string, Value>, m: Math)
    requires AllEvaluateTo(values, ctx, m, op == And)
    ensures EvalBoolOp(op, values, ctx, m) == Ok(Bool(op == And))
    decreases values
  {
    if values != [] {
      assert values[0] == values[..][0];
      BoolOpWithoutDecidingOperand(op, values[1..], ctx, m);
    }
  }

  /** The meaning of one supported comparison between two numbers. */
  predicate NumberComparison(op: CmpOperator, x: real, y: real) {
    if op == Eq then x == y else if op == NotEq then x != y else NumberOrder(op, x, y)
  }

  /** Every adjacent pair of vs satisfies the comparison between them. */
  predicate ChainHolds(ops: seq<CmpOperator>, vs: seq<real>)
    requires |vs| == |ops| + 1
  {
    forall i :: 0 <= i < |ops| ==> NumberComparison(ops[i], vs[i], vs[i + 1])
  }

  function Constants(vs: seq<real>): (es: seq<Expr>)
    ensures |es| == |vs| && forall i :: 0 <= i < |vs| ==> es[i] == Const(Num(vs[i]))
  {
    if vs == [] then [] else [Const(Num(vs[0]))] + Constants(vs[1..])
  }

  /**
   * A comparison chain `v0 op0 v1 op1 v2 ...` over numbers means the
   * conjunction of its adjacent comparisons, each operand taken once.
   */
  lemma {:induction false} ChainIsConjunction(ops: seq<CmpOperator>, vs: seq<real>, ctx: map<string, Value>, m: Math)
    requires |vs| == |ops| + 1
    requires forall i :: 0 <= i < |ops| ==> !ops[i].OtherCmpOp?
    ensures Eval(Compare(Const(Num(vs[0])), ops, Constants(vs[1..])), ctx, m) == Ok(Bool(ChainHolds(ops, vs)))
  {
    ChainOfConstants(ops, vs, ctx, m);
  }

  lemma {:induction false} ChainOfConstants(ops: seq<CmpOperator>, vs: seq<real>, ctx: map<string, Value>, m: Math)
    requires |vs| == |ops| + 1
    requires forall i :: 0 <= i < |ops| ==> !ops[i].OtherCmpOp?
    ensures EvalChain(Num(vs[0]), ops, Constants(vs[1..]), ctx, m) == Ok(Bool(ChainHolds(ops, vs)))
    decreases ops
  {
    if ops != [] {
      var cs := Constants(vs[1..]);
      assert cs[0] == Const(Num(vs[1]));
      assert CompareValues(ops[0], Num(vs[0]), Num(vs[1])) == Ok(NumberComparison(ops[0], vs[0], vs[1]));
      assert cs[1..] == Constants(vs[2..]) by {
        assert vs[1..][1..] == vs[2..];
      }
      ChainOfConstants(ops[1..], vs[1..], ctx, m);
      assert vs[1..][0] == vs[1];
      if NumberComparison(ops[0], vs[0], vs[1]) {
        assert ChainHolds(ops, vs) == ChainHolds(ops[1..], vs[1..]);
      } else {
        assert !ChainHolds(ops, vs);
      }
    }
  }

  function N(x: real): Expr { Const(Num(x)) }

  function Nums(xs: seq<real>): (vs: seq<Value>)
    ensures |vs| == |xs| && forall i :: 0 <= i < |xs| ==> vs[i] == Num(xs[i])
  {
    if xs == [] then [] else [Num(xs[0])] + Nums(xs[1..])
  }

  /** Constant arguments evaluate to themselves, in order. */
  lemma {:induction false} ConstantArguments(xs: seq<real>, ctx: map<string, Value>, m: Math)
    ensures EvalArgs(Constants(xs), ctx, m) == Ok(Nums(xs))
  {
    if xs != [] {
      var cs := Constants(xs);
      assert cs[1..] == Constants(xs[1..]);
      ConstantArguments(xs[1..], ctx, m);
      assert Nums(xs) == [Num(xs[0])] + Nums(xs[1..]);
    }
  }

  /** Precedence lives in the tree: 2 + 3 * 4 is 14 and (2 + 3) * 4 is 20. */
  lemma PrecedenceExamples(m: Math)
    ensures Eval(BinOp(Add, N(2.0), BinOp(Mult, N(3.0), N(4.0))), map[], m) == Ok(Num(14.0))
    ensures Eval(BinOp(Mult, BinOp(Add, N(2.0), N(3.0)), N(4.0)), map[], m) == Ok(Num(20.0))
    ensures Eval(BinOp(Sub, Name("x"), BinOp(Mult, Name("y"), N(2.0))), map["x" := Num(10.0), "y" := Num(5.0)], m) == Ok(Num(0.0))
  {
  }

  /** Floor division and modulo round toward minus infinity, as in Python. */
  lemma FloorDivisionExamples(m: Math)
    ensures Eval(BinOp(FloorDiv, N(10.0), N(3.0)), map[], m) == Ok(Num(3.0))
    ensures Eval(BinOp(Mod, N(10.0), N(3.0)), map[], m) == Ok(Num(1.0))
    ensures Eval(BinOp(FloorDiv, N(-7.0), N(2.0)), map[], m) == Ok(Num(-4.0))
    ensures Eval(BinOp(Mod, N(-7.0), N(2.0)), map[], m) == Ok(Num(1.0))
  {
    assert FloorQuotient(10.0, 3.0) == 3;
    assert FloorQuotient(-7.0, 2.0) == -4;
  }

  /** 2 ** 3 is 8. */
  lemma PowerOperatorExample(m: Math)
    ensures Eval(BinOp(PowOp, N(2.0), N(3.0)), map[], m) == Ok(Num(8.0))
  {
    assert (3.0).Floor == 3;
    assert IntPow(2.0, 3) == 8.0;
    assert PyPow(2.0, 3.0, m) == Ok(8.0);
  }

  /** pow(2, 3) is 8. */
  lemma PowFunctionExample(m: Math)
    ensures Eval(Call(Name("pow"), [N(2.0), N(3.0)]), map[], m) == Ok(Num(8.0))
  {
    assert (3.0).Floor == 3;
    assert IntPow(2.0, 3) == 8.0;
    assert PyPow(2.0, 3.0, m) == Ok(8.0);
    ConstantArguments([2.0, 3.0], map[], m);
    assert Constants([2.0, 3.0]) == [N(2.0), N(3.0)];
    assert Nums([2.0, 3.0]) == [Num(2.0), Num(3.0)];
  }

  /** An unknown name and a division by zero raise. */
  lemma ErrorExamples(m: Math)
    ensures Eval(BinOp(Add, Name("undefined_var"), N(5.0)), map[], m) == Err(UnknownVariable("undefined_var"))
    ensures Eval(BinOp(Div, N(1.0), N(0.0)), map[], m) == Err(DivisionByZero)
    ensures Eval(Call(N(3.0), []), map[], m) == Err(NotCallable(Num(3.0)))
  {
  }

  /** A whitelisted function called on constants is applied to their values. */
  lemma CallWithConstants(name: string, b: Builtin, xs: seq<real>, m: Math)
    requires Lookup(name, map[]) == Ok(Fn(b))
    ensures Eval(Call(Name(name), Constants(xs)), map[], m) == CallBuiltin(b, Nums(xs), m)
  {
    assert Eval(Name(name), map[], m) == Ok(Fn(b));
    ConstantArguments(xs, map[], m);
  }

  lemma MaxExample(m: Math)
    ensures Eval(Call(Name("max"), [N(3.0), N(7.0), N(2.0)]), map[], m) == Ok(Num(7.0))
  {
    var vs := [Num(3.0), Num(7.0), Num(2.0)];
    assert Constants([3.0, 7.0, 2.0]) == [N(3.0), N(7.0), N(2.0)];
    assert Nums([3.0, 7.0, 2.0]) == vs;
    assert Lookup("max", map[]) == Ok(Fn(Max));
    CallWithConstants("max", Max, [3.0, 7.0, 2.0], m);
    MaxOfSample(vs, m);
  }

  lemma MaxOfSample(vs: seq<Value>, m: Math)
    requires vs == [Num(3.0), Num(7.0), Num(2.0)]
    ensures CallBuiltin(Max, vs, m) == Ok(Num(7.0))
  {
    assert AllNumbers(vs);
    var hi := Extreme(vs, true);
    assert AsReal(hi) >= AsReal(vs[1]);
    assert hi == Num(7.0);
  }

  lemma MinExample(m: Math)
    ensures Eval(Call(Name("min"), [N(3.0), N(7.0), N(2.0)]), map[], m) == Ok(Num(2.0))
  {
    var vs := [Num(3.0), Num(7.0), Num(2.0)];
    assert Constants([3.0, 7.0, 2.0]) == [N(3.0), N(7.0), N(2.0)];
    assert Nums([3.0, 7.0, 2.0]) == vs;
    assert Lookup("min", map[]) == Ok(Fn(Min));
    CallWithConstants("min", Min, [3.0, 7.0, 2.0], m);
    MinOfSample(vs, m);
  }

  lemma MinOfSample(vs: seq<Value>, m: Math)
    requires vs == [Num(3.0), Num(7.0), Num(2.0)]
    ensures CallBuiltin(Min, vs, m) == Ok(Num(2.0))
  {
    assert AllNumbers(vs);
    var lo := Extreme(vs, false);
    assert AsReal(lo) <= AsReal(vs[2]);
    assert lo == Num(2.0);
  }

  /** abs of a variable holding -5 is 5. */
  lemma AbsExample(m: Math)
    ensures Eval(Call(Name("abs"), [Name("x")]), map["x" := Num(-5.0)], m) == Ok(Num(5.0))
  {
  }

  /** floor(3.7) is 3 and ceil(3.2) is 4. */
  lemma FloorCeilExamples(m: Math)
    ensures Eval(Call(Name("floor"), [N(3.7)]), map[], m) == Ok(Num(3.0))
    ensures Eval(Call(Name("ceil"), [N(3.2)]), map[], m) == Ok(Num(4.0))
  {
  }

  /** The tax-regime ternary taking either branch. */
  lemma TernaryExamples(m: Math)
    ensures Eval(TaxChoice(), map["regime" := Str("old"), "tax_old" := Num(50000.0), "tax_new" := Num(30000.0)], m) == Ok(Num(50000.0))
    ensures Eval(TaxChoice(), map["regime" := Str("new"), "tax_old" := Num(50000.0), "tax_new" := Num(30000.0)], m) == Ok(Num(30000.0))
  {
  }

  /** `tax_old if regime == 'old' else tax_new` */
  function TaxChoice(): Expr {
    IfExp(Compare(Name("regime"), [Eq], [Const(Str("old"))]), Name("tax_old"), Name("tax_new"))
  }
}

/**
 * RPNEvaluator::evaluate: a stack machine over the postfix token sequence. Operands
 * are pushed as they are (a Variable stays a Variable); operators and functions pop
 * their arguments, resolve them to values of the three-way union {Integer, Real,
 * Boolean}, and push a fresh operand. The variable cells are an explicit store
 * threaded through the machine; assignments made before a failing step persist.
 */
module Evaluator {
  import opened Wrappers
  import Integers
  import opened Tokens

  /** std::variant<Integer::value_type, Real::value_type, bool> */
  datatype Value = IntV(i: int) | RealV(x: Float) | BoolV(b: bool)

  /** The variable cells: an id absent from the map is a Variable whose value is unset. */
  type Store = map<VarId, Value>

  /** The runtime_error messages of the evaluator. UnsupportedOperand also stands for
      std::bad_variant_access (a std::get of the wrong kind) and for cpp_int's
      division by zero. */
  datatype EvalError =
    | InsufficientOperands
    | TooManyOperands
    | VariableNotInitialized
    | AssignmentToNonVariable
    | UnsupportedOperand

  // ---------------------------------------------------------------------------
  // Values (the to_value, make_operand_from_value and promote lambdas)
  // ---------------------------------------------------------------------------

  /** to_value: a literal gives its value, a Variable gives the value in its cell. */
  function ToValue(store: Store, o: Operand): (r: Result<Value, EvalError>)
    ensures r.Err? <==> o.Variable? && o.id !in store
    ensures r.Err? ==> r.error == VariableNotInitialized
  {
    match o
    case Integer(i) => Ok(IntV(i))
    case Real(x) => Ok(RealV(x))
    case Boolean(b) => Ok(BoolV(b))
    case Variable(id) => if id in store then Ok(store[id]) else Err(VariableNotInitialized)
  }

  /** make_operand_from_value: the literal operand of a value. */
  function OfValue(v: Value): (o: Operand)
    ensures !o.Variable?
  {
    match v
    case IntV(i) => Integer(i)
    case RealV(x) => Real(x)
    case BoolV(b) => Boolean(b)
  }

  /** Turning a value into an operand and back gives the value; a literal operand
      turned into a value and back is itself. Only Variables are not literals. */
  lemma ValueRoundTrip(store: Store, v: Value, o: Operand)
    ensures ToValue(store, OfValue(v)) == Ok(v)
    ensures !o.Variable? ==> OfValue(ToValue(store, o).value) == o
  {
  }

  /** Real::value_type(v) for each alternative; a Boolean converts to 0 or 1. */
  function ToReal(fp: FloatOps, v: Value): Float {
    match v
    case IntV(i) => fp.fromInteger(i)
    case RealV(x) => x
    case BoolV(b) => fp.fromInteger(if b then 1 else 0)
  }

  /** promote: if either side is Real, both become Real; otherwise neither changes. */
  function Promote(fp: FloatOps, lhs: Value, rhs: Value): (p: (Value, Value))
    ensures lhs.RealV? || rhs.RealV? <==> p.0.RealV?
    ensures p.0.RealV? <==> p.1.RealV?
    ensures !p.0.RealV? ==> p == (lhs, rhs)
  {
    if lhs.RealV? || rhs.RealV? then (RealV(ToReal(fp, lhs)), RealV(ToReal(fp, rhs)))
    else (lhs, rhs)
  }

  /** Promotion converts a Boolean or an Integer beside a Real to the Real of its
      numeric value (a Boolean counts as 0 or 1), keeps a Real, and is idempotent. */
  lemma PromoteConverts(fp: FloatOps, b: bool, i: int, x: Float, y: Float)
    ensures Promote(fp, BoolV(b), RealV(x)) == (RealV(fp.fromInteger(if b then 1 else 0)), RealV(x))
    ensures Promote(fp, RealV(x), BoolV(b)) == (RealV(x), RealV(fp.fromInteger(if b then 1 else 0)))
    ensures Promote(fp, IntV(i), RealV(x)) == (RealV(fp.fromInteger(i)), RealV(x))
    ensures Promote(fp, RealV(x), IntV(i)) == (RealV(x), RealV(fp.fromInteger(i)))
    ensures Promote(fp, RealV(x), RealV(y)) == (RealV(x), RealV(y))
  {
  }

  lemma PromoteIdempotent(fp: FloatOps, lhs: Value, rhs: Value)
    ensures var p := Promote(fp, lhs, rhs); Promote(fp, p.0, p.1) == p
  {
  }

  /** get_real in the function branches: a number as a Real; a Boolean is the wrong
      alternative. */
  function GetReal(fp: FloatOps, v: Value): (r: Result<Float, EvalError>)
    ensures r.Err? <==> v.BoolV?
    ensures r.Err? ==> r.error == UnsupportedOperand
    ensures r.Ok? ==> r.value == ToReal(fp, v)
  {
    match v
    case RealV(x) => Ok(x)
    case IntV(i) => Ok(fp.fromInteger(i))
    case BoolV(_) => Err(UnsupportedOperand)
  }

  // ---------------------------------------------------------------------------
  // Integer arithmetic of the operators
  // ---------------------------------------------------------------------------

  /** Integer `**`: the result of multiplying 1 by base exp times. */
  function IntPower(base: int, exp: int): int {
    if exp <= 0 then 1 else Integers.Pow(base, exp)
  }

  /** The power loop: start from 1 and multiply by base while the counter is below
      exp. A zero or negative exponent runs no iteration. */
  method PowerLoop(base: int, exp: int) returns (result: int)
    ensures result == IntPower(base, exp)
    ensures exp <= 0 ==> result == 1
    ensures exp >= 0 ==> result == Integers.Pow(base, exp)
  {
    result := 1;
    var i := 0;
    while i < exp
      invariant 0 <= i
      invariant exp >= 0 ==> i <= exp
      invariant exp < 0 ==> i == 0
      invariant result == Integers.Pow(base, i)
    {
      result := result * base;
      i := i + 1;
    }
  }

  /** The factorial loop: multiply 1 by every i with 1 <= i <= n. */
  method FactorialLoop(n: int) returns (result: int)
    ensures n >= 0 ==> result == Integers.Factorial(n)
    ensures n < 0 ==> result == 1
  {
    result := 1;
    var i := 1;
    while i <= n
      invariant 1 <= i
      invariant n >= 0 ==> i <= n + 1
      invariant n < 0 ==> i == 1
      invariant result == Integers.Factorial(i - 1)
    {
      result := result * i;
      i := i + 1;
    }
  }

  // ---------------------------------------------------------------------------
  // Binary operators other than Assignment
  // ---------------------------------------------------------------------------

  /** Variant equality of the promoted values: the same alternative and equal
      contents; values of different alternatives are unequal. */
  predicate SameValue(fp: FloatOps, l: Value, r: Value) {
    match (l, r)
    case (IntV(a), IntV(b)) => a == b
    case (RealV(a), RealV(b)) => fp.eq(a, b)
    case (BoolV(a), BoolV(b)) => a == b
    case _ => false
  }

  /** The arithmetic operators on promoted values: Real if promotion made Reals,
      otherwise both sides must be Integers. */
  function Arithmetic(fp: FloatOps, op: LAssocOp, l: Value, r: Value): (res: Result<Value, EvalError>)
    requires op in {Addition, Subtraction, Multiplication}
    requires l.RealV? <==> r.RealV?
    ensures res.Ok? <==> l.RealV? || (l.IntV? && r.IntV?)
    ensures res.Ok? ==> (res.value.RealV? <==> l.RealV?) && !res.value.BoolV?
    ensures l.IntV? && r.IntV? ==>
              res.value.i == (if op == Addition then l.i + r.i
                              else if op == Subtraction then l.i - r.i
                              else l.i * r.i)
  {
    if l.RealV? then
      Ok(RealV(match op
               case Addition => fp.add(l.x, r.x)
               case Subtraction => fp.sub(l.x, r.x)
               case Multiplication => fp.mul(l.x, r.x)))
    else if l.IntV? && r.IntV? then
      Ok(IntV(match op
              case Addition => l.i + r.i
              case Subtraction => l.i - r.i
              case Multiplication => l.i * r.i))
    else Err(UnsupportedOperand)
  }

  /** The side of a comparison that must be the smaller one: the left operand of
      `<` and `<=`, the right operand of `>` and `>=`. */
  function Lower<T>(op: LAssocOp, l: T, r: T): T {
    if op in {Greater, GreaterEqual} then r else l
  }

  /** The side of a comparison that must be the larger one. */
  function Upper<T>(op: LAssocOp, l: T, r: T): T {
    if op in {Greater, GreaterEqual} then l else r
  }

  /** The relational operators on promoted values; `a > b` is `b < a` and `a >= b`
      is `b <= a`. Booleans are not ordered. */
  function Relational(fp: FloatOps, op: LAssocOp, l: Value, r: Value): (res: Result<Value, EvalError>)
    requires op in {Less, LessEqual, Greater, GreaterEqual}
    requires l.RealV? <==> r.RealV?
    ensures res.Ok? <==> l.RealV? || (l.IntV? && r.IntV?)
    ensures res.Ok? ==> res.value.BoolV?
    ensures l.IntV? && r.IntV? ==>
              (res.value.b <==> if op in {Less, Greater} then Lower(op, l.i, r.i) < Upper(op, l.i, r.i)
                                else Lower(op, l.i, r.i) <= Upper(op, l.i, r.i))
    ensures l.RealV? ==>
              (res.value.b <==> if op in {Less, Greater} then fp.lt(Lower(op, l.x, r.x), Upper(op, l.x, r.x))
                                else fp.le(Lower(op, l.x, r.x), Upper(op, l.x, r.x)))
  {
    if l.RealV? then
      Ok(BoolV(match op
               case Less => fp.lt(l.x, r.x)
               case LessEqual => fp.le(l.x, r.x)
               case Greater => fp.lt(r.x, l.x)
               case GreaterEqual => fp.le(r.x, l.x)))
    else if l.IntV? && r.IntV? then
      Ok(BoolV(match op
               case Less => l.i < r.i
               case LessEqual => l.i <= r.i
               case Greater => l.i > r.i
               case GreaterEqual => l.i >= r.i))
    else Err(UnsupportedOperand)
  }

  /** The logical operators on the unpromoted values. `&&` and `||` evaluate their
      right side only when the left one does not decide: the left side must be a
      Boolean, and the right side must be one only when it is looked at. */
  function Logical(op: LAssocOp, lhs: Value, rhs: Value): (res: Result<Value, EvalError>)
    requires op in {And, Or, Xor, Nand, Nor, Xnor}
    ensures res.Ok? ==> res.value.BoolV? && lhs.BoolV?
    ensures lhs.BoolV? && rhs.BoolV? ==> res.Ok?
    ensures !lhs.BoolV? ==> res == Err(UnsupportedOperand)
  {
    if !lhs.BoolV? then Err(UnsupportedOperand)
    else
      match op
      case And => if !lhs.b then Ok(BoolV(false)) else if rhs.BoolV? then Ok(BoolV(rhs.b)) else Err(UnsupportedOperand)
      case Or => if lhs.b then Ok(BoolV(true)) else if rhs.BoolV? then Ok(BoolV(rhs.b)) else Err(UnsupportedOperand)
      case Nand => if !lhs.b then Ok(BoolV(true)) else if rhs.BoolV? then Ok(BoolV(!rhs.b)) else Err(UnsupportedOperand)
      case Nor => if lhs.b then Ok(BoolV(false)) else if rhs.BoolV? then Ok(BoolV(!rhs.b)) else Err(UnsupportedOperand)
      case Xor => if rhs.BoolV? then Ok(BoolV(lhs.b != rhs.b)) else Err(UnsupportedOperand)
      case Xnor => if rhs.BoolV? then Ok(BoolV(lhs.b == rhs.b)) else Err(UnsupportedOperand)
  }

  /** Every binary operator except Assignment, applied to the resolved values. */
  function ApplyBinary(fp: FloatOps, op: Operator, lhs: Value, rhs: Value): (res: Result<Value, EvalError>)
    requires IsBinaryOperator(op) && op != RAssoc(Assignment)
    ensures res.Err? ==> res.error == UnsupportedOperand
  {
    var (l, r) := Promote(fp, lhs, rhs);
    match op
    case RAssoc(_) =>
      if l.RealV? then Ok(RealV(fp.pow(l.x, r.x)))
      else if l.IntV? && r.IntV? then Ok(IntV(IntPower(l.i, r.i)))
      else Err(UnsupportedOperand)
    case LAssoc(o) =>
      match o
      case Addition => Arithmetic(fp, o, l, r)
      case Subtraction => Arithmetic(fp, o, l, r)
      case Multiplication => Arithmetic(fp, o, l, r)
      case Division =>
        if l.RealV? then Ok(RealV(fp.div(l.x, r.x)))
        else if l.IntV? && r.IntV? && r.i != 0 then Ok(IntV(Integers.TruncDiv(l.i, r.i)))
        else Err(UnsupportedOperand)
      case Modulus =>
        if l.IntV? && r.IntV? && r.i != 0 then Ok(IntV(Integers.TruncMod(l.i, r.i)))
        else Err(UnsupportedOperand)
      case Equality => Ok(BoolV(SameValue(fp, l, r)))
      case Inequality => Ok(BoolV(!SameValue(fp, l, r)))
      case Less => Relational(fp, o, l, r)
      case LessEqual => Relational(fp, o, l, r)
      case Greater => Relational(fp, o, l, r)
      case GreaterEqual => Relational(fp, o, l, r)
      case And => Logical(o, lhs, rhs)
      case Or => Logical(o, lhs, rhs)
      case Xor => Logical(o, lhs, rhs)
      case Nand => Logical(o, lhs, rhs)
      case Nor => Logical(o, lhs, rhs)
      case Xnor => Logical(o, lhs, rhs)
  }

  // ---------------------------------------------------------------------------
  // The machine
  // ---------------------------------------------------------------------------

  datatype Machine = Machine(stack: seq<Operand>, store: Store)

  /** How many operands a token pops, by its class: unary and postfix operators and
      one-argument functions one, binary operators and two-argument functions two. */
  function Need(t: Token): nat {
    match t
    case OperatorToken(op) => if IsBinaryOperator(op) then 2 else 1
    case FunctionToken(f) => Arity(f)
    case _ => 0
  }

  /** How many operands a token pushes: one for operands, operators and functions;
      none for the structural tokens, which are skipped. */
  function Yield(t: Token): nat {
    if IsStructural(t) then 0 else 1
  }

  /** The machine after popping n operands and pushing o. */
  function Replace(m: Machine, n: nat, o: Operand): (r: Machine)
    requires n <= |m.stack|
    ensures |r.stack| == |m.stack| - n + 1 && r.stack[..|m.stack| - n] == m.stack[..|m.stack| - n]
    ensures r.stack[|m.stack| - n] == o && r.store == m.store
  {
    Machine(m.stack[..|m.stack| - n] + [o], m.store)
  }

  /** A unary or postfix operator applied to the top operand, already resolved to v. */
  function ApplyUnary(fp: FloatOps, op: Operator, top: Operand, v: Value): (r: Result<Operand, EvalError>)
    requires IsUnaryOperator(op)
    ensures r.Err? ==> r.error == UnsupportedOperand
  {
    match op
    case Postfix(Factorial) =>
      if v.IntV? && v.i >= 0 then Ok(Integer(Integers.Factorial(v.i))) else Err(UnsupportedOperand)
    case Unary(Identity) => Ok(top)
    case Unary(Negation) =>
      (match v
       case RealV(x) => Ok(Real(fp.neg(x)))
       case IntV(i) => Ok(Integer(-i))
       case BoolV(_) => Err(UnsupportedOperand))
    case Unary(Not) =>
      if v.BoolV? then Ok(Boolean(!v.b)) else Err(UnsupportedOperand)
  }

  /** A one-argument function applied to its resolved argument. */
  function ApplyOneArg(fp: FloatOps, f: OneArgFn, v: Value): (r: Result<Operand, EvalError>)
    ensures r.Err? ==> r.error == UnsupportedOperand
  {
    match f
    case Abs =>
      (match v
       case RealV(x) => Ok(Real(fp.abs(x)))
       case IntV(i) => Ok(Integer(Integers.Abs(i)))
       case BoolV(_) => Err(UnsupportedOperand))
    case ResultFn => Err(UnsupportedOperand)
    case _ =>
      var x :- GetReal(fp, v);
      Ok(Real(fp.apply1(f, x)))
  }

  /** A two-argument function applied to its resolved arguments, both as Reals. */
  function ApplyTwoArg(fp: FloatOps, f: TwoArgFn, lhs: Value, rhs: Value): (r: Result<Operand, EvalError>)
    ensures r.Err? ==> r.error == UnsupportedOperand
  {
    var l :- GetReal(fp, lhs);
    var x :- GetReal(fp, rhs);
    Ok(Real(fp.apply2(f, l, x)))
  }

  /** The shape of a step that needs n operands and has them: on success the n top
      operands are replaced by one, and the rest of the stack is untouched; a failure
      is never a shortage of operands. */
  predicate Consumes(m: Machine, n: nat, r: Result<Machine, EvalError>)
    requires n <= |m.stack|
  {
    && (r.Ok? ==> |r.value.stack| == |m.stack| - n + 1
                  && r.value.stack[..|m.stack| - n] == m.stack[..|m.stack| - n])
    && (r.Err? ==> r.error != InsufficientOperands)
  }

  /** Binary operators: pop rhs then lhs and resolve both (rhs first) before looking
      at the operator; Assignment then demands a Variable on the left, stores the
      right value in its cell and pushes the Variable itself. */
  function ExecBinary(fp: FloatOps, m: Machine, op: Operator): (r: Result<Machine, EvalError>)
    requires IsBinaryOperator(op) && |m.stack| >= 2
    ensures Consumes(m, 2, r)
    ensures r.Ok? && op != RAssoc(Assignment) ==> r.value.store == m.store
  {
    var n := |m.stack|;
    var rhsOp, lhsOp := m.stack[n - 1], m.stack[n - 2];
    var rhs :- ToValue(m.store, rhsOp);
    var lhs :- ToValue(m.store, lhsOp);
    if op == RAssoc(Assignment) then
      if lhsOp.Variable? then Ok(Machine(m.stack[..n - 2] + [lhsOp], m.store[lhsOp.id := rhs]))
      else Err(AssignmentToNonVariable)
    else
      var v :- ApplyBinary(fp, op, lhs, rhs);
      Ok(Replace(m, 2, OfValue(v)))
  }

  /** Unary and postfix operators: resolve the top operand and replace it. */
  function ExecUnary(fp: FloatOps, m: Machine, op: Operator): (r: Result<Machine, EvalError>)
    requires IsUnaryOperator(op) && |m.stack| >= 1
    ensures Consumes(m, 1, r)
    ensures r.Ok? ==> r.value.store == m.store
  {
    var top := m.stack[|m.stack| - 1];
    var v :- ToValue(m.store, top);
    var o :- ApplyUnary(fp, op, top, v);
    Ok(Replace(m, 1, o))
  }

  /** One-argument functions: resolve the top operand and replace it. */
  function ExecOneArg(fp: FloatOps, m: Machine, f: OneArgFn): (r: Result<Machine, EvalError>)
    requires |m.stack| >= 1
    ensures Consumes(m, 1, r)
    ensures r.Ok? ==> r.value.store == m.store
  {
    var v :- ToValue(m.store, m.stack[|m.stack| - 1]);
    var o :- ApplyOneArg(fp, f, v);
    Ok(Replace(m, 1, o))
  }

  /** Two-argument functions: resolve rhs then lhs and replace both. */
  function ExecTwoArg(fp: FloatOps, m: Machine, f: TwoArgFn): (r: Result<Machine, EvalError>)
    requires |m.stack| >= 2
    ensures Consumes(m, 2, r)
    ensures r.Ok? ==> r.value.store == m.store
  {
    var n := |m.stack|;
    var rhs :- ToValue(m.store, m.stack[n - 1]);
    var lhs :- ToValue(m.store, m.stack[n - 2]);
    var o :- ApplyTwoArg(fp, f, lhs, rhs);
    Ok(Replace(m, 2, o))
  }

  /** One iteration of the evaluation loop. */
  function Exec(fp: FloatOps, m: Machine, t: Token): (r: Result<Machine, EvalError>)
    ensures r.Err? && r.error == InsufficientOperands <==> |m.stack| < Need(t)
    ensures r.Ok? ==> |r.value.stack| == |m.stack| - Need(t) + Yield(t)
    ensures r.Ok? ==> r.value.stack[..|m.stack| - Need(t)] == m.stack[..|m.stack| - Need(t)]
    ensures r.Ok? && t != OperatorToken(RAssoc(Assignment)) ==> r.value.store == m.store
  {
    var n := |m.stack|;
    match t
    case OperandToken(o) => Ok(Machine(m.stack + [o], m.store))
    case LeftParenthesis => Ok(m)
    case RightParenthesis => Ok(m)
    case ArgumentSeparator => Ok(m)
    case OperatorToken(op) =>
      if IsBinaryOperator(op) then
        if n < 2 then Err(InsufficientOperands) else ExecBinary(fp, m, op)
      else
        if n < 1 then Err(InsufficientOperands) else ExecUnary(fp, m, op)
    case FunctionToken(OneArg(f)) =>
      if n < 1 then Err(InsufficientOperands) else ExecOneArg(fp, m, f)
    case FunctionToken(TwoArg(f)) =>
      if n < 2 then Err(InsufficientOperands) else ExecTwoArg(fp, m, f)
  }

  /** Where an evaluation stopped: the error and the cells as they were then. */
  datatype Halt = Halt(error: EvalError, store: Store)

  /** The evaluation loop over the remaining tokens. */
  function Run(fp: FloatOps, m: Machine, ts: seq<Token>): Result<Machine, Halt>
    decreases |ts|
  {
    if |ts| == 0 then Ok(m)
    else
      match Exec(fp, m, ts[0])
      case Err(e) => Err(Halt(e, m.store))
      case Ok(m') => Run(fp, m', ts[1..])
  }

  /** The final check: exactly one operand must remain, and it is the result. */
  function Finish(stack: seq<Operand>): (r: Result<Operand, EvalError>)
    ensures r.Ok? <==> |stack| == 1
    ensures r.Ok? ==> r.value == stack[0]
    ensures |stack| == 0 ==> r == Err(InsufficientOperands)
    ensures |stack| > 1 ==> r == Err(TooManyOperands)
  {
    if |stack| == 0 then Err(InsufficientOperands)
    else if |stack| != 1 then Err(TooManyOperands)
    else Ok(stack[0])
  }

  /** The result of an evaluation and the variable cells after it. */
  datatype Outcome = Outcome(result: Result<Operand, EvalError>, store: Store)

  /** RPNEvaluator::evaluate, starting from the given variable cells. */
  function Evaluate(fp: FloatOps, store: Store, rpn: seq<Token>): Outcome {
    match Run(fp, Machine([], store), rpn)
    case Err(h) => Outcome(Err(h.error), h.store)
    case Ok(m) => Outcome(Finish(m.stack), m.store)
  }

  // ---------------------------------------------------------------------------
  // Properties of single steps
  // ---------------------------------------------------------------------------

  /** Factorial is tested before the other unary operators: on a non-negative Integer
      it pushes the product 1 * ... * n, and on anything else (a negative Integer, a
      Real, a Boolean) it fails, where Identity would have pushed the operand back. */
  lemma FactorialStep(fp: FloatOps, m: Machine, o: Operand)
    requires |m.stack| >= 1 && m.stack[|m.stack| - 1] == o
    requires ToValue(m.store, o).Ok?
    ensures var v := ToValue(m.store, o).value;
            var r := Exec(fp, m, OperatorToken(Postfix(Factorial)));
            && (v.IntV? && v.i >= 0 ==> r == Ok(Replace(m, 1, Integer(Integers.Factorial(v.i)))))
            && (!(v.IntV? && v.i >= 0) ==> r == Err(UnsupportedOperand))
    ensures Exec(fp, m, OperatorToken(Unary(Identity))) == Ok(m)
  {
    assert m.stack[..|m.stack| - 1] + [o] == m.stack;
  }

  /** Negation keeps the kind of a number and rejects a Boolean. It resolves a
      Variable through its cell. */
  lemma NegationStep(fp: FloatOps, m: Machine)
    requires |m.stack| >= 1 && ToValue(m.store, m.stack[|m.stack| - 1]).Ok?
    ensures var v := ToValue(m.store, m.stack[|m.stack| - 1]).value;
            var r := Exec(fp, m, OperatorToken(Unary(Negation)));
            && (v.IntV? ==> r == Ok(Replace(m, 1, Integer(-v.i))))
            && (v.RealV? ==> r == Ok(Replace(m, 1, Real(fp.neg(v.x)))))
            && (v.BoolV? ==> r == Err(UnsupportedOperand))
  {
  }

  /** Not complements a Boolean and rejects a number. It resolves a Variable through
      its cell. */
  lemma NotStep(fp: FloatOps, m: Machine)
    requires |m.stack| >= 1 && ToValue(m.store, m.stack[|m.stack| - 1]).Ok?
    ensures var v := ToValue(m.store, m.stack[|m.stack| - 1]).value;
            var r := Exec(fp, m, OperatorToken(Unary(Not)));
            && (v.BoolV? ==> r == Ok(Replace(m, 1, Boolean(!v.b))))
            && (!v.BoolV? ==> r == Err(UnsupportedOperand))
  {
  }

  /** Assignment resolves both sides before it looks at the target: an unset target
      Variable fails as an uninitialized read; a literal target fails as an
      assignment to a non-variable; otherwise the target's cell takes the right value,
      the Variable itself is pushed, and reading it back gives that value. */
  lemma AssignmentStep(fp: FloatOps, m: Machine)
    requires |m.stack| >= 2
    requires ToValue(m.store, m.stack[|m.stack| - 1]).Ok?
    ensures var n := |m.stack|;
            var lhs, rhs := m.stack[n - 2], ToValue(m.store, m.stack[n - 1]).value;
            var r := Exec(fp, m, OperatorToken(RAssoc(Assignment)));
            && (lhs.Variable? && lhs.id !in m.store ==> r == Err(VariableNotInitialized))
            && (!lhs.Variable? ==> r == Err(AssignmentToNonVariable))
            && (lhs.Variable? && lhs.id in m.store ==>
                  && r == Ok(Machine(m.stack[..n - 2] + [lhs], m.store[lhs.id := rhs]))
                  && ToValue(r.value.store, lhs) == Ok(rhs))
  {
  }

  /** Integer `**` multiplies exp times, so a zero or negative exponent gives 1; with
      a Real on either side the result is a Real; a Boolean without a Real fails. */
  lemma PowerResults(fp: FloatOps, b: int, e: int, x: Float, v: Value)
    ensures ApplyBinary(fp, RAssoc(Power), IntV(b), IntV(e)) == Ok(IntV(IntPower(b, e)))
    ensures e <= 0 ==> ApplyBinary(fp, RAssoc(Power), IntV(b), IntV(e)) == Ok(IntV(1))
    ensures ApplyBinary(fp, RAssoc(Power), RealV(x), v).Ok?
    ensures ApplyBinary(fp, RAssoc(Power), RealV(x), v).value.RealV?
    ensures !v.RealV? ==> ApplyBinary(fp, RAssoc(Power), BoolV(true), v) == Err(UnsupportedOperand)
  {
  }

  /** Equality never fails: values of different kinds (after promotion) are unequal,
      Integers and Booleans compare by value, and Inequality is its negation. */
  lemma EqualityResults(fp: FloatOps, lhs: Value, rhs: Value)
    ensures var eq := ApplyBinary(fp, LAssoc(Equality), lhs, rhs);
            var ne := ApplyBinary(fp, LAssoc(Inequality), lhs, rhs);
            && eq.Ok? && eq.value.BoolV? && ne.Ok? && ne.value.BoolV?
            && ne.value.b == !eq.value.b
            && (lhs.IntV? && rhs.IntV? ==> eq.value.b == (lhs.i == rhs.i))
            && (lhs.BoolV? && rhs.BoolV? ==> eq.value.b == (lhs.b == rhs.b))
            && (lhs.IntV? && rhs.BoolV? ==> !eq.value.b)
            && (lhs.BoolV? && rhs.IntV? ==> !eq.value.b)
  {
  }

  /** On two Booleans the logical operators are the usual truth functions. */
  lemma LogicalTruthTables(fp: FloatOps, a: bool, b: bool)
    ensures ApplyBinary(fp, LAssoc(And), BoolV(a), BoolV(b)) == Ok(BoolV(a && b))
    ensures ApplyBinary(fp, LAssoc(Or), BoolV(a), BoolV(b)) == Ok(BoolV(a || b))
    ensures ApplyBinary(fp, LAssoc(Xor), BoolV(a), BoolV(b)) == Ok(BoolV(a != b))
    ensures ApplyBinary(fp, LAssoc(Nand), BoolV(a), BoolV(b)) == Ok(BoolV(!(a && b)))
    ensures ApplyBinary(fp, LAssoc(Nor), BoolV(a), BoolV(b)) == Ok(BoolV(!(a || b)))
    ensures ApplyBinary(fp, LAssoc(Xnor), BoolV(a), BoolV(b)) == Ok(BoolV(a == b))
  {
  }

  /** The logical operators see the unpromoted values and evaluate their right side
      only when needed: `false and 5` is false and `true or 5` is true, but `5 and
      false` fails, as does `true xor 5`. A Real never counts as a Boolean. */
  lemma LogicalShortCircuit(fp: FloatOps, v: Value, x: Float)
    ensures ApplyBinary(fp, LAssoc(And), BoolV(false), v) == Ok(BoolV(false))
    ensures ApplyBinary(fp, LAssoc(Or), BoolV(true), v) == Ok(BoolV(true))
    ensures ApplyBinary(fp, LAssoc(Nand), BoolV(false), v) == Ok(BoolV(true))
    ensures ApplyBinary(fp, LAssoc(Nor), BoolV(true), v) == Ok(BoolV(false))
    ensures !v.BoolV? ==> ApplyBinary(fp, LAssoc(And), v, BoolV(false)) == Err(UnsupportedOperand)
    ensures !v.BoolV? ==> ApplyBinary(fp, LAssoc(Xor), BoolV(true), v) == Err(UnsupportedOperand)
    ensures ApplyBinary(fp, LAssoc(And), BoolV(true), RealV(x)) == Err(UnsupportedOperand)
  {
  }

  /** Integer division and modulus truncate toward zero and recombine into the
      dividend; a zero divisor fails; modulus of a Real fails while division of one
      gives a Real. */
  lemma DivisionResults(fp: FloatOps, a: int, b: int, x: Float)
    ensures b != 0 ==>
              && ApplyBinary(fp, LAssoc(Division), IntV(a), IntV(b)) == Ok(IntV(Integers.TruncDiv(a, b)))
              && ApplyBinary(fp, LAssoc(Modulus), IntV(a), IntV(b)) == Ok(IntV(Integers.TruncMod(a, b)))
              && a == b * Integers.TruncDiv(a, b) + Integers.TruncMod(a, b)
    ensures b == 0 ==> ApplyBinary(fp, LAssoc(Division), IntV(a), IntV(b)) == Err(UnsupportedOperand)
    ensures b == 0 ==> ApplyBinary(fp, LAssoc(Modulus), IntV(a), IntV(b)) == Err(UnsupportedOperand)
    ensures ApplyBinary(fp, LAssoc(Modulus), RealV(x), IntV(b)) == Err(UnsupportedOperand)
    ensures ApplyBinary(fp, LAssoc(Division), RealV(x), IntV(b)).Ok?
    ensures ApplyBinary(fp, LAssoc(Division), RealV(x), IntV(b)).value.RealV?
  {
    if b != 0 {
      Integers.TruncDivModIdentity(a, b);
    }
  }

  /** Integer arithmetic stays Integer, a Real on either side makes the result Real,
      and an Integer beside a Boolean (no promotion happens) fails. */
  lemma ArithmeticKinds(fp: FloatOps, op: LAssocOp, a: int, b: int, x: Float, p: bool)
    requires op in {Addition, Subtraction, Multiplication}
    ensures ApplyBinary(fp, LAssoc(op), IntV(a), IntV(b)) ==
              Ok(IntV(if op == Addition then a + b else if op == Subtraction then a - b else a * b))
    ensures ApplyBinary(fp, LAssoc(op), IntV(a), RealV(x)).Ok?
    ensures ApplyBinary(fp, LAssoc(op), IntV(a), RealV(x)).value.RealV?
    ensures ApplyBinary(fp, LAssoc(op), BoolV(p), RealV(x)).Ok?
    ensures ApplyBinary(fp, LAssoc(op), IntV(a), BoolV(p)) == Err(UnsupportedOperand)
  {
  }

  /** One-argument functions: Abs keeps the kind of a number, Result always fails,
      the others give a Real; a Boolean argument fails. Two-argument functions give a
      Real unless an argument is a Boolean. */
  lemma FunctionResults(fp: FloatOps, f: OneArgFn, g: TwoArgFn, v: Value, w: Value)
    ensures ApplyOneArg(fp, Abs, v).Ok? <==> !v.BoolV?
    ensures v.IntV? ==> ApplyOneArg(fp, Abs, v) == Ok(Integer(Integers.Abs(v.i)))
    ensures v.RealV? ==> ApplyOneArg(fp, Abs, v).value.Real?
    ensures ApplyOneArg(fp, ResultFn, v) == Err(UnsupportedOperand)
    ensures f != Abs && f != ResultFn ==>
              && (ApplyOneArg(fp, f, v).Ok? <==> !v.BoolV?)
              && (!v.BoolV? ==> ApplyOneArg(fp, f, v) == Ok(Real(fp.apply1(f, ToReal(fp, v)))))
    ensures ApplyTwoArg(fp, g, v, w).Ok? <==> !v.BoolV? && !w.BoolV?
    ensures ApplyTwoArg(fp, g, v, w).Ok? ==> ApplyTwoArg(fp, g, v, w).value.Real?
  {
  }

  // ---------------------------------------------------------------------------
  // Properties of whole evaluations
  // ---------------------------------------------------------------------------

  /** The net change of stack depth over ts, from the tokens' classes alone. */
  function Net(ts: seq<Token>): int {
    if |ts| == 0 then 0 else Yield(ts[0]) - Need(ts[0]) + Net(ts[1..])
  }

  /** A successful run changes the stack depth by the net count of its tokens. */
  lemma {:induction false} RunDepth(fp: FloatOps, m: Machine, ts: seq<Token>)
    requires Run(fp, m, ts).Ok?
    ensures |Run(fp, m, ts).value.stack| == |m.stack| + Net(ts)
    decreases |ts|
  {
    if |ts| > 0 {
      RunDepth(fp, Exec(fp, m, ts[0]).value, ts[1..]);
    }
  }

  /** Evaluation succeeds only when the tokens' net count is exactly one operand: a
      run that leaves none fails with "insufficient operands" and one that leaves more
      fails with "too many operands". */
  lemma EvaluateCount(fp: FloatOps, store: Store, rpn: seq<Token>)
    ensures Evaluate(fp, store, rpn).result.Ok? ==> Net(rpn) == 1
    ensures Run(fp, Machine([], store), rpn).Ok? ==>
              && Net(rpn) >= 0
              && (Net(rpn) == 0 ==> Evaluate(fp, store, rpn).result == Err(InsufficientOperands))
              && (Net(rpn) > 1 ==> Evaluate(fp, store, rpn).result == Err(TooManyOperands))
              && (Net(rpn) == 1 ==> Evaluate(fp, store, rpn).result.Ok?)
  {
    if Run(fp, Machine([], store), rpn).Ok? {
      RunDepth(fp, Machine([], store), rpn);
    }
  }

  /** Without an Assignment token the variable cells come out as they went in, whether
      the evaluation succeeds or fails. */
  lemma {:induction false} RunKeepsStore(fp: FloatOps, m: Machine, ts: seq<Token>)
    requires forall k | 0 <= k < |ts| :: ts[k] != OperatorToken(RAssoc(Assignment))
    ensures Run(fp, m, ts).Ok? ==> Run(fp, m, ts).value.store == m.store
    ensures Run(fp, m, ts).Err? ==> Run(fp, m, ts).error.store == m.store
    decreases |ts|
  {
    if |ts| > 0 && Exec(fp, m, ts[0]).Ok? {
      RunKeepsStore(fp, Exec(fp, m, ts[0]).value, ts[1..]);
    }
  }

  lemma StoreOnlyChangesByAssignment(fp: FloatOps, store: Store, rpn: seq<Token>)
    requires forall k | 0 <= k < |rpn| :: rpn[k] != OperatorToken(RAssoc(Assignment))
    ensures Evaluate(fp, store, rpn).store == store
  {
    RunKeepsStore(fp, Machine([], store), rpn);
  }
}

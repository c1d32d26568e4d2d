/**
 * The closed token taxonomy of the expression evaluator: operands, the operator
 * class hierarchy with its precedence enumeration, the built-in functions and the
 * structural tokens. The C++ class hierarchy becomes nested datatypes; the
 * `is<Class>` queries become predicates over them.
 */
module Tokens {

  /** The floating-point value type of Real operands. Its representation belongs to a
      numeric library outside this model, so it is left opaque. */
  type Float(==)

  /** Everything the model needs from that numeric library. Every member is a total
      function: the model claims nothing about floating-point values beyond their kind. */
  datatype FloatOps = FloatOps(
    fromDigits: string -> Float,            // Real::value_type(text)
    fromInteger: int -> Float,              // Real::value_type(cpp_int)
    pi: Float,
    e: Float,
    neg: Float -> Float,
    add: (Float, Float) -> Float,
    sub: (Float, Float) -> Float,
    mul: (Float, Float) -> Float,
    div: (Float, Float) -> Float,
    pow: (Float, Float) -> Float,
    abs: Float -> Float,
    eq: (Float, Float) -> bool,
    lt: (Float, Float) -> bool,
    le: (Float, Float) -> bool,
    apply1: (OneArgFn, Float) -> Float,     // sin, cos, ..., floor, ceil
    apply2: (TwoArgFn, Float, Float) -> Float
  )

  /** A Variable is an index into the symbol table, not a shared pointer. */
  type VarId = nat

  // ---------------------------------------------------------------------------
  // Operators (operator.hpp)
  // ---------------------------------------------------------------------------

  /** Leaves of RAssocOperator. */
  datatype RAssocOp = Power | Assignment

  /** Leaves of LAssocOperator. */
  datatype LAssocOp =
    | Addition | And | Division | Equality | Greater | GreaterEqual | Inequality
    | Less | LessEqual | Multiplication | Modulus | Nand | Nor | Or | Subtraction
    | Xor | Xnor

  /** Leaves of UnaryOperator (other than the postfix ones). */
  datatype UnaryOp = Identity | Negation | Not

  /** Leaves of PostfixOperator. */
  datatype PostfixOp = Factorial

  /** Operator, split along its two intermediate bases: BinaryOperator (RAssoc, LAssoc)
      and NonAssociative (Unary, Postfix). */
  datatype Operator =
    | RAssoc(r: RAssocOp)
    | LAssoc(l: LAssocOp)
    | Unary(u: UnaryOp)
    | Postfix(p: PostfixOp)

  /** is<BinaryOperator> */
  predicate IsBinaryOperator(op: Operator) {
    op.RAssoc? || op.LAssoc?
  }

  /** is<RAssocOperator> */
  predicate IsRAssocOperator(op: Operator) {
    op.RAssoc?
  }

  /** is<LAssocOperator> */
  predicate IsLAssocOperator(op: Operator) {
    op.LAssoc?
  }

  /** is<NonAssociative> */
  predicate IsNonAssociative(op: Operator) {
    op.Unary? || op.Postfix?
  }

  /** is<UnaryOperator>: PostfixOperator derives from UnaryOperator, so a postfix
      operator is also a unary one. */
  predicate IsUnaryOperator(op: Operator) {
    op.Unary? || op.Postfix?
  }

  /** is<PostfixOperator> */
  predicate IsPostfixOperator(op: Operator) {
    op.Postfix?
  }

  /** The Precedence enumeration, in declaration order. */
  datatype Precedence =
    | MIN
    | ASSIGNMENT | LOGOR | LOGXOR | LOGAND | BITOR
    | BITXOR | BITAND | EQUALITY | RELATIONAL | BITSHIFT
    | ADDITIVE | MULTIPLICATIVE | UNARY | POWER | POSTFIX
    | MAX

  /** The integral value of each enumerator: MIN is 0 and each later one is one more. */
  function Ordinal(p: Precedence): nat {
    match p
    case MIN => 0
    case ASSIGNMENT => 1
    case LOGOR => 2
    case LOGXOR => 3
    case LOGAND => 4
    case BITOR => 5
    case BITXOR => 6
    case BITAND => 7
    case EQUALITY => 8
    case RELATIONAL => 9
    case BITSHIFT => 10
    case ADDITIVE => 11
    case MULTIPLICATIVE => 12
    case UNARY => 13
    case POWER => 14
    case POSTFIX => 15
    case MAX => 16
  }

  /** The precedence level each operator belongs to, by the enumerator names. */
  function Level(op: Operator): Precedence {
    match op
    case RAssoc(Power) => POWER
    case RAssoc(Assignment) => ASSIGNMENT
    case LAssoc(l) =>
      (match l
       case Or | Nor => LOGOR
       case Xor | Xnor => LOGXOR
       case And | Nand => LOGAND
       case Equality | Inequality => EQUALITY
       case Less | LessEqual | Greater | GreaterEqual => RELATIONAL
       case Addition | Subtraction => ADDITIVE
       case Multiplication | Division | Modulus => MULTIPLICATIVE)
    case Unary(_) => UNARY
    case Postfix(_) => POSTFIX
  }

  /** The enumeration is strictly increasing along its declaration order: every
      enumerator from ASSIGNMENT to POSTFIX lies strictly between MIN and MAX, and
      no two enumerators share a value. */
  lemma PrecedenceIsStrictlyOrdered(p: Precedence, q: Precedence)
    ensures p != q ==> Ordinal(p) != Ordinal(q)
    ensures p != MIN && p != MAX ==> Ordinal(MIN) < Ordinal(p) < Ordinal(MAX)
    ensures && Ordinal(MIN) < Ordinal(ASSIGNMENT) < Ordinal(LOGOR) < Ordinal(LOGXOR)
            && Ordinal(LOGXOR) < Ordinal(LOGAND) < Ordinal(BITOR) < Ordinal(BITXOR)
            && Ordinal(BITXOR) < Ordinal(BITAND) < Ordinal(EQUALITY) < Ordinal(RELATIONAL)
            && Ordinal(RELATIONAL) < Ordinal(BITSHIFT) < Ordinal(ADDITIVE) < Ordinal(MULTIPLICATIVE)
            && Ordinal(MULTIPLICATIVE) < Ordinal(UNARY) < Ordinal(POWER) < Ordinal(POSTFIX) < Ordinal(MAX)
  {
  }

  /** Power and Assignment are the only right-associative operators; every other
      binary operator is left-associative; unary and postfix operators are neither. */
  lemma AssociativityClasses(op: Operator)
    ensures IsRAssocOperator(op) <==> op == RAssoc(Power) || op == RAssoc(Assignment)
    ensures IsBinaryOperator(op) && !IsRAssocOperator(op) ==> IsLAssocOperator(op)
    ensures IsNonAssociative(op) <==> !IsBinaryOperator(op)
  {
    match op
    case RAssoc(r) =>
      match r {
        case Power =>
        case Assignment =>
      }
    case LAssoc(_) =>
    case Unary(_) =>
    case Postfix(_) =>
  }

  /** Factorial is a PostfixOperator and therefore also a UnaryOperator; Identity,
      Negation and Not are unary but not postfix. Both kinds are non-associative. */
  lemma UnaryAndPostfixClasses(op: Operator)
    ensures IsPostfixOperator(op) <==> op == Postfix(Factorial)
    ensures IsPostfixOperator(op) ==> IsUnaryOperator(op)
    ensures IsUnaryOperator(op) && !IsPostfixOperator(op) <==>
              op in {Unary(Identity), Unary(Negation), Unary(Not)}
    ensures IsUnaryOperator(op) ==> IsNonAssociative(op) && !IsBinaryOperator(op)
  {
    match op
    case Unary(u) =>
      match u {
        case Identity =>
        case Negation =>
        case Not =>
      }
    case Postfix(_) =>
    case RAssoc(_) =>
    case LAssoc(_) =>
  }

  // ---------------------------------------------------------------------------
  // Functions (function.hpp is not part of this model; the names and arities come
  // from the keyword dictionary and the evaluator's dispatch)
  // ---------------------------------------------------------------------------

  /** OneArgFunction leaves. `ResultFn` is the keyword `result`. */
  datatype OneArgFn =
    | Abs | Arccos | Arcsin | Arctan | Ceil | Cos | Exp | Floor | Lb | Ln | Log
    | ResultFn | Sin | Sqrt | Tan

  /** TwoArgFunction leaves. */
  datatype TwoArgFn = Arctan2 | Max | Min | Pow

  datatype Function = OneArg(f1: OneArgFn) | TwoArg(f2: TwoArgFn)

  /** The number of operands a function call consumes. */
  function Arity(f: Function): (n: nat)
    ensures n == 1 <==> f.OneArg?
    ensures n == 2 <==> f.TwoArg?
  {
    if f.OneArg? then 1 else 2
  }

  // ---------------------------------------------------------------------------
  // Operands and tokens
  // ---------------------------------------------------------------------------

  /** Operand leaves: a Variable carries only its identity; its value lives in the
      evaluator's store. */
  datatype Operand =
    | Integer(i: int)
    | Real(x: Float)
    | Boolean(b: bool)
    | Variable(id: VarId)

  datatype Token =
    | OperandToken(operand: Operand)
    | OperatorToken(op: Operator)
    | FunctionToken(f: Function)
    | LeftParenthesis
    | RightParenthesis
    | ArgumentSeparator

  /** Parentheses and the argument separator: tokens that steer the parser but never
      reach its output. */
  predicate IsStructural(t: Token) {
    t.LeftParenthesis? || t.RightParenthesis? || t.ArgumentSeparator?
  }
}

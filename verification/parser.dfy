/**
 * The parser (parser.cpp): Dijkstra's shunting-yard conversion of the infix token
 * sequence into postfix order, driven by a numeric precedence table and the
 * right-associativity of `**` and `=`. The operator stack is a sequence whose last
 * element is the top.
 */
module Parser {
  import opened Wrappers
  import opened Tokens

  // ---------------------------------------------------------------------------
  // Precedence table and associativity
  // ---------------------------------------------------------------------------

  /** The `precedence` lambda: higher binds tighter, 0 for anything that is not an
      operator. */
  function OperatorPrecedence(t: Token): nat {
    match t
    case OperatorToken(op) =>
      (match op
       case Postfix(Factorial) => 15
       case RAssoc(Power) => 14
       case Unary(_) => 13
       case LAssoc(Multiplication) | LAssoc(Division) | LAssoc(Modulus) => 12
       case LAssoc(Addition) | LAssoc(Subtraction) => 11
       case LAssoc(Less) | LAssoc(LessEqual) | LAssoc(Greater) | LAssoc(GreaterEqual) => 9
       case LAssoc(Equality) | LAssoc(Inequality) => 8
       case LAssoc(And) | LAssoc(Nand) => 6
       case LAssoc(Xor) | LAssoc(Xnor) => 5
       case LAssoc(Or) | LAssoc(Nor) => 4
       case RAssoc(Assignment) => 1)
    case _ => 0
  }

  /** The `is_right_associative` lambda. */
  predicate IsRightAssociative(t: Token) {
    t == OperatorToken(RAssoc(Power)) || t == OperatorToken(RAssoc(Assignment))
  }

  /** The parser's right-associative tokens are exactly the RAssocOperator class. */
  lemma RightAssociativityAgreesWithClasses(t: Token)
    ensures IsRightAssociative(t) <==> t.OperatorToken? && IsRAssocOperator(t.op)
  {
    if t.OperatorToken? && t.op.RAssoc? {
      match t.op.r {
        case Power =>
        case Assignment =>
      }
    }
  }

  /** The parser's table agrees with the Precedence enumeration: the same number for
      the assignment, equality, relational, additive, multiplicative, unary, power and
      postfix levels; different numbers for the three logical levels, but in the same
      order, so both rank every pair of operators alike. */
  lemma PrecedenceTableMatchesEnumeration(a: Operator, b: Operator)
    ensures Level(a) !in {LOGOR, LOGXOR, LOGAND} ==>
              OperatorPrecedence(OperatorToken(a)) == Ordinal(Level(a))
    ensures Level(a) in {LOGOR, LOGXOR, LOGAND} ==>
              OperatorPrecedence(OperatorToken(a)) == Ordinal(Level(a)) + 2
    ensures (OperatorPrecedence(OperatorToken(a)) < OperatorPrecedence(OperatorToken(b)))
              <==> (Ordinal(Level(a)) < Ordinal(Level(b)))
    ensures (OperatorPrecedence(OperatorToken(a)) == OperatorPrecedence(OperatorToken(b)))
              <==> (Level(a) == Level(b))
  {
    LevelShift(a);
    LevelShift(b);
  }

  /** The parser's number for an operator is a strictly increasing function of its
      enumerator: LOGOR..LOGAND are shifted up by two, everything else is equal. */
  function TableOf(p: Precedence): nat {
    if p in {LOGOR, LOGXOR, LOGAND} then Ordinal(p) + 2 else Ordinal(p)
  }

  lemma LevelShift(a: Operator)
    ensures OperatorPrecedence(OperatorToken(a)) == TableOf(Level(a))
    ensures Level(a) !in {MIN, BITOR, BITXOR, BITAND, BITSHIFT, MAX}
  {
    match a {
      case RAssoc(r) =>
        match r {
          case Power =>
          case Assignment =>
        }
      case LAssoc(l) =>
        match l {
          case Addition =>
          case And =>
          case Division =>
          case Equality =>
          case Greater =>
          case GreaterEqual =>
          case Inequality =>
          case Less =>
          case LessEqual =>
          case Multiplication =>
          case Modulus =>
          case Nand =>
          case Nor =>
          case Or =>
          case Subtraction =>
          case Xor =>
          case Xnor =>
        }
      case Unary(u) =>
        match u {
          case Identity =>
          case Negation =>
          case Not =>
        }
      case Postfix(p) =>
    }
  }

  // ---------------------------------------------------------------------------
  // Sequences of tokens
  // ---------------------------------------------------------------------------

  function Reverse<T>(s: seq<T>): (r: seq<T>)
    ensures |r| == |s|
    ensures forall k | 0 <= k < |s| :: r[k] == s[|s| - 1 - k]
  {
    if |s| == 0 then [] else [s[|s| - 1]] + Reverse(s[..|s| - 1])
  }

  /** Reversing a suffix starts with its last element. */
  lemma ReverseFromLast<T>(s: seq<T>, k: nat)
    requires k < |s|
    ensures Reverse(s[k..]) == [s[|s| - 1]] + Reverse(s[k..|s| - 1])
  {
    assert s[k..][..|s| - k - 1] == s[k..|s| - 1];
  }

  /** The tokens that must come out of the parser: everything but parentheses and
      argument separators, as a multiset. */
  function Payload(ts: seq<Token>): multiset<Token> {
    if |ts| == 0 then multiset{}
    else Payload(ts[..|ts| - 1]) + (if IsStructural(ts[|ts| - 1]) then multiset{} else multiset{ts[|ts| - 1]})
  }

  /** The operands among ts, in their order. */
  function Operands(ts: seq<Token>): seq<Token> {
    if |ts| == 0 then []
    else Operands(ts[..|ts| - 1]) + (if ts[|ts| - 1].OperandToken? then [ts[|ts| - 1]] else [])
  }

  /** The number of left parentheses among ts. */
  function Depth(ts: seq<Token>): nat {
    if |ts| == 0 then 0
    else Depth(ts[..|ts| - 1]) + (if ts[|ts| - 1].LeftParenthesis? then 1 else 0)
  }

  /** The number of right parentheses among ts. */
  function Closings(ts: seq<Token>): nat {
    if |ts| == 0 then 0
    else Closings(ts[..|ts| - 1]) + (if ts[|ts| - 1].RightParenthesis? then 1 else 0)
  }

  lemma {:induction false} PayloadAppend(a: seq<Token>, b: seq<Token>)
    ensures Payload(a + b) == Payload(a) + Payload(b)
    decreases |b|
  {
    if |b| > 0 {
      var c := a + b;
      assert c[..|c| - 1] == a + b[..|b| - 1];
      PayloadAppend(a, b[..|b| - 1]);
    } else {
      assert a + b == a;
    }
  }

  lemma {:induction false} OperandsAppend(a: seq<Token>, b: seq<Token>)
    ensures Operands(a + b) == Operands(a) + Operands(b)
    decreases |b|
  {
    if |b| > 0 {
      var c := a + b;
      assert c[..|c| - 1] == a + b[..|b| - 1];
      OperandsAppend(a, b[..|b| - 1]);
    } else {
      assert a + b == a;
    }
  }

  lemma {:induction false} DepthAppend(a: seq<Token>, b: seq<Token>)
    ensures Depth(a + b) == Depth(a) + Depth(b)
    ensures Closings(a + b) == Closings(a) + Closings(b)
    decreases |b|
  {
    if |b| > 0 {
      var c := a + b;
      assert c[..|c| - 1] == a + b[..|b| - 1];
      DepthAppend(a, b[..|b| - 1]);
    } else {
      assert a + b == a;
    }
  }

  lemma CountsAppend(a: seq<Token>, b: seq<Token>)
    ensures Payload(a + b) == Payload(a) + Payload(b)
    ensures Operands(a + b) == Operands(a) + Operands(b)
    ensures Depth(a + b) == Depth(a) + Depth(b)
    ensures Closings(a + b) == Closings(a) + Closings(b)
  {
    PayloadAppend(a, b);
    OperandsAppend(a, b);
    DepthAppend(a, b);
  }

  lemma {:induction false} CountsReverse(s: seq<Token>)
    ensures Payload(Reverse(s)) == Payload(s)
    ensures Depth(Reverse(s)) == Depth(s)
    decreases |s|
  {
    if |s| > 0 {
      var last := s[|s| - 1];
      CountsReverse(s[..|s| - 1]);
      CountsAppend([last], Reverse(s[..|s| - 1]));
      assert [last][..0] == [];
    }
  }

  /** What may sit on the operator stack: left parentheses, functions, operators. */
  predicate StackToken(t: Token) {
    t.LeftParenthesis? || t.FunctionToken? || t.OperatorToken?
  }

  /** The parser's invariant: the output holds no structural token and the stack
      holds only stack tokens. */
  ghost predicate WellShaped(output: seq<Token>, stack: seq<Token>) {
    && (forall k | 0 <= k < |output| :: !IsStructural(output[k]))
    && (forall k | 0 <= k < |stack| :: StackToken(stack[k]))
  }

  lemma {:induction false} NoOperandsOnStack(stack: seq<Token>)
    requires forall k | 0 <= k < |stack| :: StackToken(stack[k])
    ensures Operands(stack) == []
    ensures Operands(Reverse(stack)) == []
    decreases |stack|
  {
    if |stack| > 0 {
      NoOperandsOnStack(stack[..|stack| - 1]);
      CountsAppend([stack[|stack| - 1]], Reverse(stack[..|stack| - 1]));
      assert [stack[|stack| - 1]][..0] == [];
    }
  }

  /** Moving the stack's top part stack[k..] to the output, top first, keeps every
      token, keeps the operands' order and keeps the shape. */
  lemma MoveToOutput(output: seq<Token>, stack: seq<Token>, k: nat)
    requires k <= |stack|
    requires WellShaped(output, stack)
    requires forall m | k <= m < |stack| :: !stack[m].LeftParenthesis?
    ensures WellShaped(output + Reverse(stack[k..]), stack[..k])
    ensures Payload(output + Reverse(stack[k..])) + Payload(stack[..k]) == Payload(output) + Payload(stack)
    ensures Operands(output + Reverse(stack[k..])) == Operands(output)
    ensures Depth(stack[..k]) == Depth(stack)
  {
    MoveKeepsShape(output, stack, k);
    MoveKeepsCounts(output, stack, k);
  }

  lemma MoveKeepsShape(output: seq<Token>, stack: seq<Token>, k: nat)
    requires k <= |stack|
    requires WellShaped(output, stack)
    requires forall m | k <= m < |stack| :: !stack[m].LeftParenthesis?
    ensures WellShaped(output + Reverse(stack[k..]), stack[..k])
  {
    var moved := output + Reverse(stack[k..]);
    forall m | 0 <= m < |moved|
      ensures !IsStructural(moved[m])
    {
      if m >= |output| {
        assert moved[m] == Reverse(stack[k..])[m - |output|];
        assert moved[m] == stack[|stack| - 1 - (m - |output|)];
      }
    }
  }

  lemma MoveKeepsCounts(output: seq<Token>, stack: seq<Token>, k: nat)
    requires k <= |stack|
    requires WellShaped(output, stack)
    requires forall m | k <= m < |stack| :: !stack[m].LeftParenthesis?
    ensures Payload(output + Reverse(stack[k..])) + Payload(stack[..k]) == Payload(output) + Payload(stack)
    ensures Operands(output + Reverse(stack[k..])) == Operands(output)
    ensures Depth(stack[..k]) == Depth(stack)
  {
    assert stack == stack[..k] + stack[k..];
    CountsAppend(stack[..k], stack[k..]);
    CountsAppend(output, Reverse(stack[k..]));
    CountsReverse(stack[k..]);
    NoOperandsOnStack(stack[k..]);
    NoLeftParenthesis(stack[k..]);
  }

  lemma {:induction false} NoLeftParenthesis(s: seq<Token>)
    requires forall m | 0 <= m < |s| :: !s[m].LeftParenthesis?
    ensures Depth(s) == 0
    decreases |s|
  {
    if |s| > 0 {
      NoLeftParenthesis(s[..|s| - 1]);
    }
  }

  // ---------------------------------------------------------------------------
  // The shunting-yard loop
  // ---------------------------------------------------------------------------

  datatype ParseError =
    | NoMatchingLeftParenthesis   // a ")" with no "(" on the stack
    | MissingRightParenthesis     // a "(" still on the stack at the end

  datatype ParseState = ParseState(output: seq<Token>, stack: seq<Token>)

  /** Whether the operator on top of the stack leaves before t is pushed. */
  predicate PopsBefore(top: Token, t: Token) {
    && top.OperatorToken?
    && (OperatorPrecedence(top) > OperatorPrecedence(t)
        || (OperatorPrecedence(top) == OperatorPrecedence(t) && !IsRightAssociative(t)))
  }

  /** The popping loop the parser runs in three places: move the top of the stack to
      the output while it satisfies p. */
  function PopWhile(st: ParseState, p: Token -> bool): (r: ParseState)
    ensures |r.stack| <= |st.stack| && r.stack == st.stack[..|r.stack|]
    ensures r.output == st.output + Reverse(st.stack[|r.stack|..])
    ensures forall m | |r.stack| <= m < |st.stack| :: p(st.stack[m])
    ensures |r.stack| == 0 || !p(r.stack[|r.stack| - 1])
    decreases |st.stack|
  {
    if |st.stack| > 0 && p(st.stack[|st.stack| - 1]) then
      var top := st.stack[|st.stack| - 1];
      var r := PopWhile(ParseState(st.output + [top], st.stack[..|st.stack| - 1]), p);
      PopOne(st.output, st.stack, |r.stack|);
      r
    else st
  }

  /** Popping the top of the stack, then k' more entries, is popping from k on. */
  lemma PopOne<T>(output: seq<T>, stack: seq<T>, k: nat)
    requires k < |stack|
    ensures var below := stack[..|stack| - 1];
            && below[..k] == stack[..k]
            && (forall m | k <= m < |below| :: below[m] == stack[m])
            && output + [stack[|stack| - 1]] + Reverse(below[k..]) == output + Reverse(stack[k..])
  {
    var below := stack[..|stack| - 1];
    assert below[k..] == stack[k..|stack| - 1];
    ReverseFromLast(stack, k);
  }

  /** The inner loop for an operator token t: pop operators to the output while they
      bind at least as tightly (strictly, if t is right-associative). */
  function PopOperators(st: ParseState, t: Token): (r: ParseState)
    ensures |r.stack| <= |st.stack| && r.stack == st.stack[..|r.stack|]
    ensures r.output == st.output + Reverse(st.stack[|r.stack|..])
    ensures forall m | |r.stack| <= m < |st.stack| :: PopsBefore(st.stack[m], t)
    ensures |r.stack| == 0 || !PopsBefore(r.stack[|r.stack| - 1], t)
  {
    PopWhile(st, (top: Token) => PopsBefore(top, t))
  }

  /** The loop shared by "," and ")": pop to the output until a "(" is on top. */
  function PopToLeftParenthesis(st: ParseState): (r: ParseState)
    ensures |r.stack| <= |st.stack| && r.stack == st.stack[..|r.stack|]
    ensures r.output == st.output + Reverse(st.stack[|r.stack|..])
    ensures forall m | |r.stack| <= m < |st.stack| :: !st.stack[m].LeftParenthesis?
    ensures |r.stack| == 0 || r.stack[|r.stack| - 1].LeftParenthesis?
  {
    PopWhile(st, (top: Token) => !top.LeftParenthesis?)
  }

  /** One iteration of the main loop. */
  function Step(st: ParseState, t: Token): (r: Result<ParseState, ParseError>)
    ensures !t.RightParenthesis? ==> r.Ok?
    ensures r.Err? ==> r.error == NoMatchingLeftParenthesis
  {
    match t
    case OperandToken(_) => Ok(ParseState(st.output + [t], st.stack))
    case FunctionToken(_) => Ok(ParseState(st.output, st.stack + [t]))
    case ArgumentSeparator => Ok(PopToLeftParenthesis(st))
    case LeftParenthesis => Ok(ParseState(st.output, st.stack + [t]))
    case RightParenthesis =>
      var p := PopToLeftParenthesis(st);
      if |p.stack| == 0 then Err(NoMatchingLeftParenthesis)
      else
        var below := p.stack[..|p.stack| - 1];
        if |below| > 0 && below[|below| - 1].FunctionToken?
        then Ok(ParseState(p.output + [below[|below| - 1]], below[..|below| - 1]))
        else Ok(ParseState(p.output, below))
    case OperatorToken(_) =>
      var p := PopOperators(st, t);
      Ok(ParseState(p.output, p.stack + [t]))
  }

  /** The main loop over the remaining tokens. */
  function Run(st: ParseState, ts: seq<Token>): Result<ParseState, ParseError>
    decreases |ts|
  {
    if |ts| == 0 then Ok(st)
    else
      match Step(st, ts[0])
      case Err(e) => Err(e)
      case Ok(st') => Run(st', ts[1..])
  }

  /** The final loop: pop everything to the output, failing on a leftover "(". */
  function Drain(st: ParseState): (r: Result<seq<Token>, ParseError>)
    ensures r.Err? <==> Depth(st.stack) > 0
    ensures r.Err? ==> r.error == MissingRightParenthesis
    ensures r.Ok? ==> r.value == st.output + Reverse(st.stack)
    decreases |st.stack|
  {
    if |st.stack| == 0 then Ok(st.output)
    else
      var top := st.stack[|st.stack| - 1];
      if top.LeftParenthesis? then
        assert Depth(st.stack) > 0;
        Err(MissingRightParenthesis)
      else
        var r := Drain(ParseState(st.output + [top], st.stack[..|st.stack| - 1]));
        assert r.Ok? ==> r.value == st.output + Reverse(st.stack) by {
          assert Reverse(st.stack) == [top] + Reverse(st.stack[..|st.stack| - 1]);
        }
        r
  }

  /** Parser::parse */
  function Parse(ts: seq<Token>): Result<seq<Token>, ParseError> {
    match Run(ParseState([], []), ts)
    case Err(e) => Err(e)
    case Ok(st) => Drain(st)
  }

  // ---------------------------------------------------------------------------
  // Invariants of the loop
  // ---------------------------------------------------------------------------

  /** The facts a step keeps, between the state before and after consuming t. */
  ghost predicate Keeps(st: ParseState, t: Token, r: ParseState) {
    && WellShaped(r.output, r.stack)
    && Payload(r.output) + Payload(r.stack) == Payload(st.output) + Payload(st.stack) + Payload([t])
    && Operands(r.output) == Operands(st.output) + Operands([t])
    && Depth(r.stack) + Closings([t]) == Depth(st.stack) + Depth([t])
  }

  /** The counts of a single token. */
  lemma {:induction false} Single(t: Token)
    ensures Payload([t]) == if IsStructural(t) then multiset{} else multiset{t}
    ensures Operands([t]) == if t.OperandToken? then [t] else []
    ensures Depth([t]) == if t.LeftParenthesis? then 1 else 0
    ensures Closings([t]) == if t.RightParenthesis? then 1 else 0
  {
    assert [t][..0] == [];
  }

  /** The facts that moving operators from the stack to the output keeps. */
  ghost predicate Same(st: ParseState, r: ParseState) {
    && WellShaped(r.output, r.stack)
    && Payload(r.output) + Payload(r.stack) == Payload(st.output) + Payload(st.stack)
    && Operands(r.output) == Operands(st.output)
    && Depth(r.stack) == Depth(st.stack)
  }

  lemma SameThenKeeps(st: ParseState, p: ParseState, t: Token, r: ParseState)
    requires Same(st, p) && Keeps(p, t, r)
    ensures Keeps(st, t, r)
  {
  }

  lemma KeepsThenSame(st: ParseState, t: Token, p: ParseState, r: ParseState)
    requires Keeps(st, t, p) && Same(p, r)
    ensures Keeps(st, t, r)
  {
  }

  /** Moving the top part of the stack from index k on, none of it a "(", to the
      output. */
  lemma MoveSame(st: ParseState, k: nat)
    requires k <= |st.stack|
    requires WellShaped(st.output, st.stack)
    requires forall m | k <= m < |st.stack| :: !st.stack[m].LeftParenthesis?
    ensures Same(st, ParseState(st.output + Reverse(st.stack[k..]), st.stack[..k]))
  {
    MoveToOutput(st.output, st.stack, k);
  }

  lemma PushKeeps(st: ParseState, t: Token)
    requires WellShaped(st.output, st.stack)
    requires StackToken(t)
    ensures Keeps(st, t, ParseState(st.output, st.stack + [t]))
  {
    Single(t);
    CountsAppend(st.stack, [t]);
  }

  lemma EmitKeeps(st: ParseState, t: Token)
    requires WellShaped(st.output, st.stack)
    requires t.OperandToken?
    ensures Keeps(st, t, ParseState(st.output + [t], st.stack))
  {
    Single(t);
    CountsAppend(st.output, [t]);
  }

  lemma SeparatorKeeps(st: ParseState, t: Token)
    requires WellShaped(st.output, st.stack)
    requires t.ArgumentSeparator?
    ensures Keeps(st, t, PopToLeftParenthesis(st))
  {
    Single(t);
    MoveSame(st, |PopToLeftParenthesis(st).stack|);
  }

  lemma OperatorKeeps(st: ParseState, t: Token)
    requires WellShaped(st.output, st.stack)
    requires t.OperatorToken?
    ensures var p := PopOperators(st, t); Keeps(st, t, ParseState(p.output, p.stack + [t]))
  {
    var p := PopOperators(st, t);
    var k := |p.stack|;
    forall m | k <= m < |st.stack| ensures !st.stack[m].LeftParenthesis? {
      assert PopsBefore(st.stack[m], t);
    }
    MoveSame(st, k);
    PushKeeps(p, t);
    SameThenKeeps(st, p, t, ParseState(p.output, p.stack + [t]));
  }

  /** Dropping the "(" on top of the stack accounts for one ")". */
  lemma DropKeeps(p: ParseState, t: Token)
    requires WellShaped(p.output, p.stack)
    requires t.RightParenthesis? && |p.stack| > 0 && p.stack[|p.stack| - 1].LeftParenthesis?
    ensures Keeps(p, t, ParseState(p.output, p.stack[..|p.stack| - 1]))
  {
    Single(t);
    var below := p.stack[..|p.stack| - 1];
    var lp := p.stack[|p.stack| - 1];
    assert p.stack == below + [lp];
    CountsAppend(below, [lp]);
    Single(lp);
  }

  lemma CloseKeeps(st: ParseState, t: Token)
    requires WellShaped(st.output, st.stack)
    requires t.RightParenthesis? && |PopToLeftParenthesis(st).stack| > 0
    ensures var p := PopToLeftParenthesis(st);
            var below := p.stack[..|p.stack| - 1];
            Keeps(st, t, if |below| > 0 && below[|below| - 1].FunctionToken?
                         then ParseState(p.output + [below[|below| - 1]], below[..|below| - 1])
                         else ParseState(p.output, below))
  {
    var p := PopToLeftParenthesis(st);
    var q := ParseState(p.output, p.stack[..|p.stack| - 1]);
    DropAfterPopKeeps(st, t);
    var below := q.stack;
    if |below| > 0 && below[|below| - 1].FunctionToken? {
      CallKeeps(st, t, q);
    }
  }

  /** Popping to the "(" and dropping it. */
  lemma DropAfterPopKeeps(st: ParseState, t: Token)
    requires WellShaped(st.output, st.stack)
    requires t.RightParenthesis? && |PopToLeftParenthesis(st).stack| > 0
    ensures var p := PopToLeftParenthesis(st);
            Keeps(st, t, ParseState(p.output, p.stack[..|p.stack| - 1]))
  {
    var p := PopToLeftParenthesis(st);
    MoveSame(st, |p.stack|);
    DropKeeps(p, t);
    SameThenKeeps(st, p, t, ParseState(p.output, p.stack[..|p.stack| - 1]));
  }

  /** A function right under the matching "(" follows to the output. */
  lemma CallKeeps(st: ParseState, t: Token, q: ParseState)
    requires Keeps(st, t, q) && |q.stack| > 0 && q.stack[|q.stack| - 1].FunctionToken?
    ensures var f := q.stack[|q.stack| - 1];
            Keeps(st, t, ParseState(q.output + [f], q.stack[..|q.stack| - 1]))
  {
    var f := q.stack[|q.stack| - 1];
    MoveSame(q, |q.stack| - 1);
    assert q.stack[|q.stack| - 1..] == [f];
    assert Reverse([f]) == [f];
    KeepsThenSame(st, t, q, ParseState(q.output + [f], q.stack[..|q.stack| - 1]));
  }

  /** Every step keeps the shape, moves each non-structural token it consumes to the
      output or the stack without losing one, appends an operand to the output right
      after the operands already there, and changes the number of "(" on the stack by
      +1 for "(", -1 for ")" and 0 otherwise. */
  lemma StepInvariant(st: ParseState, t: Token)
    requires WellShaped(st.output, st.stack)
    requires Step(st, t).Ok?
    ensures Keeps(st, t, Step(st, t).value)
  {
    match t
    case OperandToken(_) =>
      assert Step(st, t).value == ParseState(st.output + [t], st.stack);
      EmitKeeps(st, t);
    case FunctionToken(_) =>
      assert Step(st, t).value == ParseState(st.output, st.stack + [t]);
      PushKeeps(st, t);
    case LeftParenthesis =>
      assert Step(st, t).value == ParseState(st.output, st.stack + [t]);
      PushKeeps(st, t);
    case ArgumentSeparator =>
      assert Step(st, t).value == PopToLeftParenthesis(st);
      SeparatorKeeps(st, t);
    case OperatorToken(_) =>
      assert Step(st, t).value == var p := PopOperators(st, t); ParseState(p.output, p.stack + [t]);
      OperatorKeeps(st, t);
    case RightParenthesis =>
      assert |PopToLeftParenthesis(st).stack| > 0;
      CloseKeeps(st, t);
  }

  /** A ")" closing the topmost "(", at position k of the stack: the operators above
      it go to the output top first, the "(" is dropped, and a function directly
      under it is emitted right after them. */
  lemma CloseEmitsFunction(st: ParseState, k: nat)
    requires k < |st.stack| && st.stack[k].LeftParenthesis?
    requires forall m | k < m < |st.stack| :: !st.stack[m].LeftParenthesis?
    ensures Step(st, RightParenthesis) ==
              Ok(if k > 0 && st.stack[k - 1].FunctionToken?
                 then ParseState(st.output + Reverse(st.stack[k + 1..]) + [st.stack[k - 1]], st.stack[..k - 1])
                 else ParseState(st.output + Reverse(st.stack[k + 1..]), st.stack[..k]))
  {
    var p := PopToLeftParenthesis(st);
    assert |p.stack| == k + 1;
    var below := p.stack[..k];
    assert below == st.stack[..k];
    assert p.output == st.output + Reverse(st.stack[k + 1..]);
    if k > 0 && below[k - 1].FunctionToken? {
      assert below[..k - 1] == st.stack[..k - 1];
    }
  }

  /** A step fails exactly on a ")" when the stack holds no "(" at all, whatever
      operators and functions it holds. */
  lemma StepFails(st: ParseState, t: Token)
    requires WellShaped(st.output, st.stack)
    ensures Step(st, t).Err? <==> t.RightParenthesis? && Depth(st.stack) == 0
  {
    if t.RightParenthesis? {
      var p := PopToLeftParenthesis(st);
      if |p.stack| == 0 {
        assert p.stack == st.stack[..0];
        NoLeftParenthesis(st.stack);
      } else {
        assert p.stack[|p.stack| - 1].LeftParenthesis?;
        LeftParenthesisDepth(st.stack, |p.stack| - 1);
      }
    }
  }

  /** A stack holding a "(" has a positive depth. */
  lemma {:induction false} LeftParenthesisDepth(s: seq<Token>, k: nat)
    requires k < |s| && s[k].LeftParenthesis?
    ensures Depth(s) > 0
    decreases |s|
  {
    if k < |s| - 1 {
      LeftParenthesisDepth(s[..|s| - 1], k);
    }
  }

  /** The facts the loop keeps over all the tokens ts it consumes. */
  ghost predicate KeepsAll(st: ParseState, ts: seq<Token>, r: ParseState) {
    && WellShaped(r.output, r.stack)
    && Payload(r.output) + Payload(r.stack) == Payload(st.output) + Payload(st.stack) + Payload(ts)
    && Operands(r.output) == Operands(st.output) + Operands(ts)
    && Depth(r.stack) + Closings(ts) == Depth(st.stack) + Depth(ts)
  }

  lemma KeepsThenKeepsAll(st: ParseState, t: Token, p: ParseState, rest: seq<Token>, r: ParseState)
    requires Keeps(st, t, p) && KeepsAll(p, rest, r)
    ensures KeepsAll(st, [t] + rest, r)
  {
    PayloadThenPayload(st, t, p, rest, r);
    CountsThenCounts(st, t, p, rest, r);
  }

  lemma PayloadThenPayload(st: ParseState, t: Token, p: ParseState, rest: seq<Token>, r: ParseState)
    requires Keeps(st, t, p) && KeepsAll(p, rest, r)
    ensures Payload(r.output) + Payload(r.stack) == Payload(st.output) + Payload(st.stack) + Payload([t] + rest)
  {
    PayloadAppend([t], rest);
  }

  lemma CountsThenCounts(st: ParseState, t: Token, p: ParseState, rest: seq<Token>, r: ParseState)
    requires Keeps(st, t, p) && KeepsAll(p, rest, r)
    ensures Depth(r.stack) + Closings([t] + rest) == Depth(st.stack) + Depth([t] + rest)
    ensures Operands(r.output) == Operands(st.output) + Operands([t] + rest)
  {
    OperandsAppend([t], rest);
    DepthAppend([t], rest);
  }

  /** The loop keeps, over all the tokens it consumes, what each step keeps. */
  lemma {:induction false} RunKeeps(st: ParseState, ts: seq<Token>)
    requires WellShaped(st.output, st.stack)
    requires Run(st, ts).Ok?
    ensures KeepsAll(st, ts, Run(st, ts).value)
    decreases |ts|
  {
    if |ts| == 0 {
      assert Run(st, ts).value == st;
    } else {
      var t, rest := ts[0], ts[1..];
      assert ts == [t] + rest;
      var st' := Step(st, t).value;
      assert Run(st, ts) == Run(st', rest);
      StepInvariant(st, t);
      RunKeeps(st', rest);
      KeepsThenKeepsAll(st, t, st', rest, Run(st, ts).value);
    }
  }

  /** A run of the loop from a given number d of open parentheses fails exactly when
      some prefix of the remaining tokens closes more parentheses than d plus those it
      opens. */
  ghost predicate Overdrawn(d: nat, ts: seq<Token>) {
    exists k | 0 <= k <= |ts| :: Closings(ts[..k]) > d + Depth(ts[..k])
  }

  /** Overdrawing after a first token t is overdrawing with t's effect on the count. */
  lemma OverdrawnCons(d: nat, d': nat, t: Token, rest: seq<Token>)
    requires d' + Closings([t]) == d + Depth([t])
    ensures Overdrawn(d, [t] + rest) <==> Overdrawn(d', rest)
  {
    var ts := [t] + rest;
    assert [t][..0] == [];
    forall k | 1 <= k <= |ts|
      ensures (Closings(ts[..k]) > d + Depth(ts[..k])) <==> (Closings(rest[..k - 1]) > d' + Depth(rest[..k - 1]))
    {
      assert ts[..k] == [t] + rest[..k - 1];
      CountsAppend([t], rest[..k - 1]);
    }
    if Overdrawn(d, ts) {
      var k :| 0 <= k <= |ts| && Closings(ts[..k]) > d + Depth(ts[..k]);
      assert k != 0 by { assert ts[..0] == []; }
      assert Closings(rest[..k - 1]) > d' + Depth(rest[..k - 1]);
    }
    if Overdrawn(d', rest) {
      var k :| 0 <= k <= |rest| && Closings(rest[..k]) > d' + Depth(rest[..k]);
      assert Closings(ts[..k + 1]) > d + Depth(ts[..k + 1]);
    }
  }

  lemma {:induction false} RunParentheses(st: ParseState, ts: seq<Token>)
    requires WellShaped(st.output, st.stack)
    ensures Run(st, ts).Err? <==> Overdrawn(Depth(st.stack), ts)
    ensures Run(st, ts).Err? ==> Run(st, ts).error == NoMatchingLeftParenthesis
    decreases |ts|
  {
    var d := Depth(st.stack);
    if |ts| == 0 {
      assert ts[..0] == [];
    } else {
      var t, rest := ts[0], ts[1..];
      assert ts == [t] + rest;
      assert [t][..0] == [];
      match Step(st, t)
      case Err(_) =>
        assert ts[..1] == [t];
        NoLeftParenthesis(st.stack);
        Single(t);
      case Ok(st') =>
        StepInvariant(st, t);
        RunParentheses(st', rest);
        OverdrawnCons(d, Depth(st'.stack), t, rest);
    }
  }

  /** An output free of structural tokens carries them all in its multiset. */
  lemma {:induction false} PayloadOfPlain(ts: seq<Token>)
    requires forall k | 0 <= k < |ts| :: !IsStructural(ts[k])
    ensures Payload(ts) == multiset(ts)
    decreases |ts|
  {
    if |ts| > 0 {
      PayloadOfPlain(ts[..|ts| - 1]);
      assert ts == ts[..|ts| - 1] + [ts[|ts| - 1]];
    }
  }

  lemma {:induction false} NoDepthNoLeftParenthesis(s: seq<Token>)
    requires Depth(s) == 0
    ensures forall m | 0 <= m < |s| :: !s[m].LeftParenthesis?
    decreases |s|
  {
    if |s| > 0 {
      NoDepthNoLeftParenthesis(s[..|s| - 1]);
    }
  }

  /** The final loop only moves operators to the output. */
  lemma DrainSame(st: ParseState)
    requires WellShaped(st.output, st.stack)
    requires Drain(st).Ok?
    ensures Same(st, ParseState(Drain(st).value, []))
  {
    NoDepthNoLeftParenthesis(st.stack);
    MoveSame(st, 0);
    assert st.stack[0..] == st.stack && st.stack[..0] == [];
  }

  /** On success the postfix output is the input without its parentheses and argument
      separators, reordered: the same tokens with the same multiplicities, and the
      operands in their original relative order. */
  lemma ParseIsPermutation(ts: seq<Token>)
    requires Parse(ts).Ok?
    ensures forall k | 0 <= k < |Parse(ts).value| :: !IsStructural(Parse(ts).value[k])
    ensures multiset(Parse(ts).value) == Payload(ts)
    ensures Operands(Parse(ts).value) == Operands(ts)
  {
    var st0 := ParseState([], []);
    var st := Run(st0, ts).value;
    RunKeeps(st0, ts);
    DrainSame(st);
    var out := Drain(st).value;
    assert out == Parse(ts).value;
    PayloadOfPlain(out);
  }

  /** Parenthesis errors: "no matching left parenthesis" exactly when some prefix
      closes more parentheses than it opens; otherwise "missing right parenthesis"
      exactly when more are opened than closed; otherwise success. */
  lemma ParseParentheses(ts: seq<Token>)
    ensures Parse(ts) == Err(NoMatchingLeftParenthesis) <==> Overdrawn(0, ts)
    ensures Parse(ts) == Err(MissingRightParenthesis) <==> !Overdrawn(0, ts) && Depth(ts) > Closings(ts)
    ensures Parse(ts).Ok? <==> !Overdrawn(0, ts) && Depth(ts) == Closings(ts)
  {
    var st0 := ParseState([], []);
    RunParentheses(st0, ts);
    if !Overdrawn(0, ts) {
      RunKeeps(st0, ts);
      assert ts[..|ts|] == ts;
      assert Closings(ts) <= Depth(ts);
    }
  }
}

/**
 * Worked runs of the parser and the evaluator on the token sequences the tokenizer
 * produces for small expressions. Each step of a run is stated on its own, as the
 * state the loop reaches after one more token.
 */
module Pipeline {
  import opened Wrappers
  import opened Tokens
  import Tokenizer
  import TokenizerExamples
  import Parser
  import opened Evaluator

  function Int(i: int): Token { OperandToken(Integer(i)) }

  const add := OperatorToken(LAssoc(Addition))
  const mul := OperatorToken(LAssoc(Multiplication))
  const div := OperatorToken(LAssoc(Division))
  const pow := OperatorToken(RAssoc(Power))
  const assign := OperatorToken(RAssoc(Assignment))
  const neg := OperatorToken(Unary(Negation))
  const fact := OperatorToken(Postfix(Factorial))
  const sin := FunctionToken(OneArg(Sin))
  const lp := LeftParenthesis
  const rp := RightParenthesis
  const sep := ArgumentSeparator

  /** One parser step, stated field by field. */
  lemma ParseStep(st: Parser.ParseState, t: Token, out: seq<Token>, stk: seq<Token>, rest: seq<Token>)
    requires Parser.Step(st, t).Ok?
    requires Parser.Step(st, t).value.output == out && Parser.Step(st, t).value.stack == stk
    ensures Parser.Run(st, [t] + rest) == Parser.Run(Parser.ParseState(out, stk), rest)
  {
    var ts := [t] + rest;
    assert ts[0] == t && ts[1..] == rest;
    assert Parser.Step(st, t).value == Parser.ParseState(out, stk);
  }

  /** One evaluator step, stated field by field. */
  lemma EvalStep(fp: FloatOps, m: Machine, t: Token, stk: seq<Operand>, store: Store, rest: seq<Token>)
    requires Exec(fp, m, t).Ok?
    requires Exec(fp, m, t).value.stack == stk && Exec(fp, m, t).value.store == store
    ensures Run(fp, m, [t] + rest) == Run(fp, Machine(stk, store), rest)
  {
    var ts := [t] + rest;
    assert ts[0] == t && ts[1..] == rest;
    assert Exec(fp, m, t).value == Machine(stk, store);
  }

  /** An operand step pushes the operand and changes nothing else. */
  lemma PushStep(fp: FloatOps, m: Machine, o: Operand, stk: seq<Operand>, rest: seq<Token>)
    requires stk == m.stack + [o]
    ensures Run(fp, m, [OperandToken(o)] + rest) == Run(fp, Machine(stk, m.store), rest)
  {
    var ts := [OperandToken(o)] + rest;
    assert ts[0] == OperandToken(o) && ts[1..] == rest;
  }

  // ---------------------------------------------------------------------------
  // 2+3*4
  // ---------------------------------------------------------------------------

  /** Multiplication binds tighter than addition: 2 3 4 * +. */
  lemma ParsePrecedence()
    ensures Parser.Parse([Int(2), add, Int(3), mul, Int(4)]) == Ok([Int(2), Int(3), Int(4), mul, add])
  {
    ParsePrecedenceStep1();
    ParsePrecedenceStep2();
    ParsePrecedenceStep3();
    ParsePrecedenceStep4();
    ParsePrecedenceStep5();
    ParsePrecedenceStep6();
    ParsePrecedenceStep7();
  }

  lemma ParsePrecedenceStep1()
    ensures Parser.Run(Parser.ParseState([], []), [Int(2), add, Int(3), mul, Int(4)]) == Parser.Run(Parser.ParseState([Int(2)], []), [add, Int(3), mul, Int(4)])
  {
    var s0 := Parser.ParseState([], []);
    var s1 := Parser.ParseState([Int(2)], []);
    assert [Int(2), add, Int(3), mul, Int(4)] == [Int(2)] + [add, Int(3), mul, Int(4)];
    ParseStep(s0, Int(2), s1.output, s1.stack, [add, Int(3), mul, Int(4)]);
  }

  lemma ParsePrecedenceStep2()
    ensures Parser.Run(Parser.ParseState([Int(2)], []), [add, Int(3), mul, Int(4)]) == Parser.Run(Parser.ParseState([Int(2)], [add]), [Int(3), mul, Int(4)])
  {
    var s1 := Parser.ParseState([Int(2)], []);
    var s2 := Parser.ParseState([Int(2)], [add]);
    assert [add, Int(3), mul, Int(4)] == [add] + [Int(3), mul, Int(4)];
    ParseStep(s1, add, s2.output, s2.stack, [Int(3), mul, Int(4)]);
  }

  lemma ParsePrecedenceStep3()
    ensures Parser.Run(Parser.ParseState([Int(2)], [add]), [Int(3), mul, Int(4)]) == Parser.Run(Parser.ParseState([Int(2), Int(3)], [add]), [mul, Int(4)])
  {
    var s2 := Parser.ParseState([Int(2)], [add]);
    var s3 := Parser.ParseState([Int(2), Int(3)], [add]);
    assert [Int(3), mul, Int(4)] == [Int(3)] + [mul, Int(4)];
    ParseStep(s2, Int(3), s3.output, s3.stack, [mul, Int(4)]);
  }

  lemma ParsePrecedenceStep4()
    ensures Parser.Run(Parser.ParseState([Int(2), Int(3)], [add]), [mul, Int(4)]) == Parser.Run(Parser.ParseState([Int(2), Int(3)], [add, mul]), [Int(4)])
  {
    var s3 := Parser.ParseState([Int(2), Int(3)], [add]);
    var s4 := Parser.ParseState([Int(2), Int(3)], [add, mul]);
    assert [mul, Int(4)] == [mul] + [Int(4)];
    ParseStep(s3, mul, s4.output, s4.stack, [Int(4)]);
  }

  lemma ParsePrecedenceStep5()
    ensures Parser.Run(Parser.ParseState([Int(2), Int(3)], [add, mul]), [Int(4)]) == Parser.Run(Parser.ParseState([Int(2), Int(3), Int(4)], [add, mul]), [])
  {
    var s4 := Parser.ParseState([Int(2), Int(3)], [add, mul]);
    var s5 := Parser.ParseState([Int(2), Int(3), Int(4)], [add, mul]);
    assert [Int(4)] == [Int(4)] + [];
    ParseStep(s4, Int(4), s5.output, s5.stack, []);
  }

  lemma ParsePrecedenceStep6()
    ensures Parser.Run(Parser.ParseState([Int(2), Int(3), Int(4)], [add, mul]), []) == Ok(Parser.ParseState([Int(2), Int(3), Int(4)], [add, mul]))
  {
  }

  lemma ParsePrecedenceStep7()
    ensures Parser.Drain(Parser.ParseState([Int(2), Int(3), Int(4)], [add, mul])).Ok? && Parser.Drain(Parser.ParseState([Int(2), Int(3), Int(4)], [add, mul])).value == [Int(2), Int(3), Int(4), mul, add]
  {
    var s5 := Parser.ParseState([Int(2), Int(3), Int(4)], [add, mul]);
    Parser.NoLeftParenthesis(s5.stack);
  }

  lemma EvaluatePrecedence(fp: FloatOps, store: Store)
    ensures Evaluate(fp, store, [Int(2), Int(3), Int(4), mul, add]) == Outcome(Ok(Integer(14)), store)
  {
    EvaluatePrecedenceStep1(fp, store);
    EvaluatePrecedenceStep2(fp, store);
    EvaluatePrecedenceStep3(fp, store);
    EvaluatePrecedenceStep4(fp, store);
    EvaluatePrecedenceStep5(fp, store);
  }

  /** The three stages together, from the text "2+3*4" to its value 14: the
      tokenizer adds no variable, and the evaluator leaves the cells alone. */
  lemma PrecedenceFromText(fp: FloatOps, store: Store)
    ensures var lexed := Tokenizer.Tokenize(fp, "2+3*4", map[]);
            && lexed == (Ok([Int(2), add, Int(3), mul, Int(4)]), map[])
            && Parser.Parse(lexed.0.value) == Ok([Int(2), Int(3), Int(4), mul, add])
            && Evaluate(fp, store, Parser.Parse(lexed.0.value).value) == Outcome(Ok(Integer(14)), store)
  {
    TokenizerExamples.TokenizePrecedence(fp);
    ParsePrecedence();
    EvaluatePrecedence(fp, store);
  }

  lemma EvaluatePrecedenceStep1(fp: FloatOps, store: Store)
    ensures Run(fp, Machine([], store), [Int(2), Int(3), Int(4), mul, add]) == Run(fp, Machine([Integer(2)], store), [Int(3), Int(4), mul, add])
  {
    assert [Int(2), Int(3), Int(4), mul, add] == [Int(2)] + [Int(3), Int(4), mul, add];
    PushStep(fp, Machine([], store), Integer(2), [Integer(2)], [Int(3), Int(4), mul, add]);
  }

  lemma EvaluatePrecedenceStep2(fp: FloatOps, store: Store)
    ensures Run(fp, Machine([Integer(2)], store), [Int(3), Int(4), mul, add]) == Run(fp, Machine([Integer(2), Integer(3)], store), [Int(4), mul, add])
  {
    var m1 := Machine([Integer(2)], store);
    var m2 := Machine([Integer(2), Integer(3)], store);
    assert [Int(3), Int(4), mul, add] == [Int(3)] + [Int(4), mul, add];
    PushStep(fp, m1, Integer(3), m2.stack, [Int(4), mul, add]);
  }

  lemma EvaluatePrecedenceStep3(fp: FloatOps, store: Store)
    ensures Run(fp, Machine([Integer(2), Integer(3)], store), [Int(4), mul, add]) == Run(fp, Machine([Integer(2), Integer(3), Integer(4)], store), [mul, add])
  {
    var m3 := Machine([Integer(2), Integer(3), Integer(4)], store);
    var m2 := Machine([Integer(2), Integer(3)], store);
    assert [Int(4), mul, add] == [Int(4)] + [mul, add];
    PushStep(fp, m2, Integer(4), m3.stack, [mul, add]);
  }

  lemma EvaluatePrecedenceStep4(fp: FloatOps, store: Store)
    ensures Run(fp, Machine([Integer(2), Integer(3), Integer(4)], store), [mul, add]) == Run(fp, Machine([Integer(2), Integer(12)], store), [add])
  {
    var m3 := Machine([Integer(2), Integer(3), Integer(4)], store);
    var m4 := Machine([Integer(2), Integer(12)], store);
    assert [mul, add] == [mul] + [add];
    EvalStep(fp, m3, mul, m4.stack, store, [add]);
  }

  lemma EvaluatePrecedenceStep5(fp: FloatOps, store: Store)
    ensures Run(fp, Machine([Integer(2), Integer(12)], store), [add]) == Ok(Machine([Integer(14)], store))
  {
    var m4 := Machine([Integer(2), Integer(12)], store);
    var m5 := Machine([Integer(14)], store);
    assert [add] == [add] + [];
    EvalStep(fp, m4, add, m5.stack, store, []);
  }

  // ---------------------------------------------------------------------------
  // 2**3**2
  // ---------------------------------------------------------------------------

  /** `**` is right-associative: 2 3 2 ** **, that is 2 ** (3 ** 2). */
  lemma ParsePowerRightAssociative()
    ensures Parser.Parse([Int(2), pow, Int(3), pow, Int(2)]) == Ok([Int(2), Int(3), Int(2), pow, pow])
  {
    ParsePowerRightAssociativeStep1();
    ParsePowerRightAssociativeStep2();
    ParsePowerRightAssociativeStep3();
    ParsePowerRightAssociativeStep4();
    ParsePowerRightAssociativeStep5();
    ParsePowerRightAssociativeStep6();
  }

  lemma ParsePowerRightAssociativeStep1()
    ensures Parser.Run(Parser.ParseState([], []), [Int(2), pow, Int(3), pow, Int(2)]) == Parser.Run(Parser.ParseState([Int(2)], [pow]), [Int(3), pow, Int(2)])
  {
    var s0 := Parser.ParseState([], []);
    var s2 := Parser.ParseState([Int(2)], [pow]);
    assert [Int(2), pow, Int(3), pow, Int(2)] == [Int(2)] + ([pow] + [Int(3), pow, Int(2)]);
    ParseStep(s0, Int(2), [Int(2)], [], [pow] + [Int(3), pow, Int(2)]);
    ParseStep(Parser.ParseState([Int(2)], []), pow, s2.output, s2.stack, [Int(3), pow, Int(2)]);
  }

  lemma ParsePowerRightAssociativeStep2()
    ensures Parser.Run(Parser.ParseState([Int(2)], [pow]), [Int(3), pow, Int(2)]) == Parser.Run(Parser.ParseState([Int(2), Int(3)], [pow]), [pow, Int(2)])
  {
    var s2 := Parser.ParseState([Int(2)], [pow]);
    var s3 := Parser.ParseState([Int(2), Int(3)], [pow]);
    assert [Int(3), pow, Int(2)] == [Int(3)] + [pow, Int(2)];
    ParseStep(s2, Int(3), s3.output, s3.stack, [pow, Int(2)]);
  }

  lemma ParsePowerRightAssociativeStep3()
    ensures Parser.Run(Parser.ParseState([Int(2), Int(3)], [pow]), [pow, Int(2)]) == Parser.Run(Parser.ParseState([Int(2), Int(3)], [pow, pow]), [Int(2)])
  {
    var s3 := Parser.ParseState([Int(2), Int(3)], [pow]);
    var s4 := Parser.ParseState([Int(2), Int(3)], [pow, pow]);
    assert [pow, Int(2)] == [pow] + [Int(2)];
    ParseStep(s3, pow, s4.output, s4.stack, [Int(2)]);
  }

  lemma ParsePowerRightAssociativeStep4()
    ensures Parser.Run(Parser.ParseState([Int(2), Int(3)], [pow, pow]), [Int(2)]) == Parser.Run(Parser.ParseState([Int(2), Int(3), Int(2)], [pow, pow]), [])
  {
    var s4 := Parser.ParseState([Int(2), Int(3)], [pow, pow]);
    var s5 := Parser.ParseState([Int(2), Int(3), Int(2)], [pow, pow]);
    assert [Int(2)] == [Int(2)] + [];
    ParseStep(s4, Int(2), s5.output, s5.stack, []);
  }

  lemma ParsePowerRightAssociativeStep5()
    ensures Parser.Run(Parser.ParseState([Int(2), Int(3), Int(2)], [pow, pow]), []) == Ok(Parser.ParseState([Int(2), Int(3), Int(2)], [pow, pow]))
  {
  }

  lemma ParsePowerRightAssociativeStep6()
    ensures Parser.Drain(Parser.ParseState([Int(2), Int(3), Int(2)], [pow, pow])).Ok? && Parser.Drain(Parser.ParseState([Int(2), Int(3), Int(2)], [pow, pow])).value == [Int(2), Int(3), Int(2), pow, pow]
  {
    var s5 := Parser.ParseState([Int(2), Int(3), Int(2)], [pow, pow]);
    Parser.NoLeftParenthesis(s5.stack);
  }

  lemma EvaluatePower(fp: FloatOps, store: Store)
    ensures Evaluate(fp, store, [Int(2), Int(3), Int(2), pow, pow]) == Outcome(Ok(Integer(512)), store)
  {
    EvaluatePowerStep1(fp, store);
    EvaluatePowerStep2(fp, store);
    EvaluatePowerStep3(fp, store);
    EvaluatePowerStep4(fp, store);
    EvaluatePowerStep5(fp, store);
  }

  lemma EvaluatePowerStep1(fp: FloatOps, store: Store)
    ensures Run(fp, Machine([], store), [Int(2), Int(3), Int(2), pow, pow]) == Run(fp, Machine([Integer(2)], store), [Int(3), Int(2), pow, pow])
  {
    assert [Int(2), Int(3), Int(2), pow, pow] == [Int(2)] + [Int(3), Int(2), pow, pow];
    PushStep(fp, Machine([], store), Integer(2), [Integer(2)], [Int(3), Int(2), pow, pow]);
  }

  lemma EvaluatePowerStep2(fp: FloatOps, store: Store)
    ensures Run(fp, Machine([Integer(2)], store), [Int(3), Int(2), pow, pow]) == Run(fp, Machine([Integer(2), Integer(3)], store), [Int(2), pow, pow])
  {
    var m1 := Machine([Integer(2)], store);
    var m2 := Machine([Integer(2), Integer(3)], store);
    assert [Int(3), Int(2), pow, pow] == [Int(3)] + [Int(2), pow, pow];
    PushStep(fp, m1, Integer(3), m2.stack, [Int(2), pow, pow]);
  }

  lemma EvaluatePowerStep3(fp: FloatOps, store: Store)
    ensures Run(fp, Machine([Integer(2), Integer(3)], store), [Int(2), pow, pow]) == Run(fp, Machine([Integer(2), Integer(3), Integer(2)], store), [pow, pow])
  {
    var m3 := Machine([Integer(2), Integer(3), Integer(2)], store);
    var m2 := Machine([Integer(2), Integer(3)], store);
    assert [Int(2), pow, pow] == [Int(2)] + [pow, pow];
    PushStep(fp, m2, Integer(2), m3.stack, [pow, pow]);
  }

  lemma EvaluatePowerStep4(fp: FloatOps, store: Store)
    ensures Run(fp, Machine([Integer(2), Integer(3), Integer(2)], store), [pow, pow]) == Run(fp, Machine([Integer(2), Integer(9)], store), [pow])
  {
    var m3 := Machine([Integer(2), Integer(3), Integer(2)], store);
    var m4 := Machine([Integer(2), Integer(9)], store);
    assert [pow, pow] == [pow] + [pow];
    EvalStep(fp, m3, pow, m4.stack, store, [pow]);
  }

  lemma EvaluatePowerStep5(fp: FloatOps, store: Store)
    ensures Run(fp, Machine([Integer(2), Integer(9)], store), [pow]) == Ok(Machine([Integer(512)], store))
  {
    var m4 := Machine([Integer(2), Integer(9)], store);
    var m5 := Machine([Integer(512)], store);
    assert [pow] == [pow] + [];
    EvalStep(fp, m4, pow, m5.stack, store, []);
  }

  // ---------------------------------------------------------------------------
  // --3 and -3!
  // ---------------------------------------------------------------------------

  /** Prefix operators of equal precedence pop left-associatively, so "--3" parses to
      the postfix form - 3 -, whose first Negation finds an empty stack. */
  lemma DoubleNegation(fp: FloatOps, store: Store)
    ensures Parser.Parse([neg, neg, Int(3)]) == Ok([neg, Int(3), neg])
    ensures Evaluate(fp, store, [neg, Int(3), neg]) == Outcome(Err(InsufficientOperands), store)
  {
    DoubleNegationStep1();
    DoubleNegationStep2();
    DoubleNegationStep3();
    DoubleNegationStep4();
    DoubleNegationStep5();
    DoubleNegationStep6(fp, store);
  }

  lemma DoubleNegationStep1()
    ensures Parser.Run(Parser.ParseState([], []), [neg, neg, Int(3)]) == Parser.Run(Parser.ParseState([], [neg]), [neg, Int(3)])
  {
    var s0 := Parser.ParseState([], []);
    var s1 := Parser.ParseState([], [neg]);
    assert [neg, neg, Int(3)] == [neg] + [neg, Int(3)];
    ParseStep(s0, neg, s1.output, s1.stack, [neg, Int(3)]);
  }

  lemma DoubleNegationStep2()
    ensures Parser.Run(Parser.ParseState([], [neg]), [neg, Int(3)]) == Parser.Run(Parser.ParseState([neg], [neg]), [Int(3)])
  {
    var s1 := Parser.ParseState([], [neg]);
    var s2 := Parser.ParseState([neg], [neg]);
    assert [neg, Int(3)] == [neg] + [Int(3)];
    ParseStep(s1, neg, s2.output, s2.stack, [Int(3)]);
  }

  lemma DoubleNegationStep3()
    ensures Parser.Run(Parser.ParseState([neg], [neg]), [Int(3)]) == Parser.Run(Parser.ParseState([neg, Int(3)], [neg]), [])
  {
    var s2 := Parser.ParseState([neg], [neg]);
    var s3 := Parser.ParseState([neg, Int(3)], [neg]);
    assert [Int(3)] == [Int(3)] + [];
    ParseStep(s2, Int(3), s3.output, s3.stack, []);
  }

  lemma DoubleNegationStep4()
    ensures Parser.Run(Parser.ParseState([neg, Int(3)], [neg]), []) == Ok(Parser.ParseState([neg, Int(3)], [neg]))
  {
  }

  lemma DoubleNegationStep5()
    ensures Parser.Drain(Parser.ParseState([neg, Int(3)], [neg])).Ok? && Parser.Drain(Parser.ParseState([neg, Int(3)], [neg])).value == [neg, Int(3), neg]
  {
    var s3 := Parser.ParseState([neg, Int(3)], [neg]);
    Parser.NoLeftParenthesis(s3.stack);
  }

  lemma DoubleNegationStep6(fp: FloatOps, store: Store)
    ensures Exec(fp, Machine([], store), neg) == Err(InsufficientOperands)
  {
  }

  /** Factorial binds tighter than Negation: "-3!" is - (3!), that is -6. */
  lemma ParseNegatedFactorial()
    ensures Parser.Parse([neg, Int(3), fact]) == Ok([Int(3), fact, neg])
  {
    ParseNegatedFactorialStep1();
    ParseNegatedFactorialStep2();
    ParseNegatedFactorialStep3();
    ParseNegatedFactorialStep4();
    ParseNegatedFactorialStep5();
  }

  lemma ParseNegatedFactorialStep1()
    ensures Parser.Run(Parser.ParseState([], []), [neg, Int(3), fact]) == Parser.Run(Parser.ParseState([], [neg]), [Int(3), fact])
  {
    var s0 := Parser.ParseState([], []);
    var s1 := Parser.ParseState([], [neg]);
    assert [neg, Int(3), fact] == [neg] + [Int(3), fact];
    ParseStep(s0, neg, s1.output, s1.stack, [Int(3), fact]);
  }

  lemma ParseNegatedFactorialStep2()
    ensures Parser.Run(Parser.ParseState([], [neg]), [Int(3), fact]) == Parser.Run(Parser.ParseState([Int(3)], [neg]), [fact])
  {
    var s1 := Parser.ParseState([], [neg]);
    var s2 := Parser.ParseState([Int(3)], [neg]);
    assert [Int(3), fact] == [Int(3)] + [fact];
    ParseStep(s1, Int(3), s2.output, s2.stack, [fact]);
  }

  lemma ParseNegatedFactorialStep3()
    ensures Parser.Run(Parser.ParseState([Int(3)], [neg]), [fact]) == Parser.Run(Parser.ParseState([Int(3)], [neg, fact]), [])
  {
    var s2 := Parser.ParseState([Int(3)], [neg]);
    var s3 := Parser.ParseState([Int(3)], [neg, fact]);
    assert [fact] == [fact] + [];
    ParseStep(s2, fact, s3.output, s3.stack, []);
  }

  lemma ParseNegatedFactorialStep4()
    ensures Parser.Run(Parser.ParseState([Int(3)], [neg, fact]), []) == Ok(Parser.ParseState([Int(3)], [neg, fact]))
  {
  }

  lemma ParseNegatedFactorialStep5()
    ensures Parser.Drain(Parser.ParseState([Int(3)], [neg, fact])).Ok? && Parser.Drain(Parser.ParseState([Int(3)], [neg, fact])).value == [Int(3), fact, neg]
  {
    var s3 := Parser.ParseState([Int(3)], [neg, fact]);
    Parser.NoLeftParenthesis(s3.stack);
  }

  lemma EvaluateNegatedFactorial(fp: FloatOps, store: Store)
    ensures Evaluate(fp, store, [Int(3), fact, neg]) == Outcome(Ok(Integer(-6)), store)
  {
    EvaluateNegatedFactorialStep1(fp, store);
    EvaluateNegatedFactorialStep2(fp, store);
    EvaluateNegatedFactorialStep3(fp, store);
  }

  lemma EvaluateNegatedFactorialStep1(fp: FloatOps, store: Store)
    ensures Run(fp, Machine([], store), [Int(3), fact, neg]) == Run(fp, Machine([Integer(3)], store), [fact, neg])
  {
    assert [Int(3), fact, neg] == [Int(3)] + [fact, neg];
    PushStep(fp, Machine([], store), Integer(3), [Integer(3)], [fact, neg]);
  }

  lemma EvaluateNegatedFactorialStep2(fp: FloatOps, store: Store)
    ensures Run(fp, Machine([Integer(3)], store), [fact, neg]) == Run(fp, Machine([Integer(6)], store), [neg])
  {
    var m1 := Machine([Integer(3)], store);
    var m2 := Machine([Integer(6)], store);
    assert [fact, neg] == [fact] + [neg];
    EvalStep(fp, m1, fact, m2.stack, store, [neg]);
  }

  lemma EvaluateNegatedFactorialStep3(fp: FloatOps, store: Store)
    ensures Run(fp, Machine([Integer(6)], store), [neg]) == Ok(Machine([Integer(-6)], store))
  {
    var m2 := Machine([Integer(6)], store);
    var m3 := Machine([Integer(-6)], store);
    assert [neg] == [neg] + [];
    EvalStep(fp, m2, neg, m3.stack, store, []);
  }

  // ---------------------------------------------------------------------------
  // Parenthesis errors
  // ---------------------------------------------------------------------------

  /** "(1+2" leaves a "(" on the stack; "1+2)" meets a ")" with none below it. */
  lemma UnbalancedParentheses()
    ensures Parser.Parse([lp, Int(1), add, Int(2)]) == Err(Parser.MissingRightParenthesis)
    ensures Parser.Parse([Int(1), add, Int(2), rp]) == Err(Parser.NoMatchingLeftParenthesis)
  {
    UnbalancedParenthesesStep1();
    UnbalancedParenthesesStep2();
    UnbalancedParenthesesStep3();
    UnbalancedParenthesesStep4();
    UnbalancedParenthesesStep5();
    UnbalancedParenthesesStep6();
    UnbalancedParenthesesStep7();
    UnbalancedParenthesesStep8();
    UnbalancedParenthesesStep9();
    UnbalancedParenthesesStep10();
  }

  lemma UnbalancedParenthesesStep1()
    ensures Parser.Run(Parser.ParseState([], []), [lp, Int(1), add, Int(2)]) == Parser.Run(Parser.ParseState([], [lp]), [Int(1), add, Int(2)])
  {
    var s0 := Parser.ParseState([], []);
    var s1 := Parser.ParseState([], [lp]);
    assert [lp, Int(1), add, Int(2)] == [lp] + [Int(1), add, Int(2)];
    ParseStep(s0, lp, s1.output, s1.stack, [Int(1), add, Int(2)]);
  }

  lemma UnbalancedParenthesesStep2()
    ensures Parser.Run(Parser.ParseState([], [lp]), [Int(1), add, Int(2)]) == Parser.Run(Parser.ParseState([Int(1)], [lp]), [add, Int(2)])
  {
    var s1 := Parser.ParseState([], [lp]);
    var s2 := Parser.ParseState([Int(1)], [lp]);
    assert [Int(1), add, Int(2)] == [Int(1)] + [add, Int(2)];
    ParseStep(s1, Int(1), s2.output, s2.stack, [add, Int(2)]);
  }

  lemma UnbalancedParenthesesStep3()
    ensures Parser.Run(Parser.ParseState([Int(1)], [lp]), [add, Int(2)]) == Parser.Run(Parser.ParseState([Int(1)], [lp, add]), [Int(2)])
  {
    var s2 := Parser.ParseState([Int(1)], [lp]);
    var s3 := Parser.ParseState([Int(1)], [lp, add]);
    assert [add, Int(2)] == [add] + [Int(2)];
    ParseStep(s2, add, s3.output, s3.stack, [Int(2)]);
  }

  lemma UnbalancedParenthesesStep4()
    ensures Parser.Run(Parser.ParseState([Int(1)], [lp, add]), [Int(2)]) == Parser.Run(Parser.ParseState([Int(1), Int(2)], [lp, add]), [])
  {
    var s3 := Parser.ParseState([Int(1)], [lp, add]);
    var s4 := Parser.ParseState([Int(1), Int(2)], [lp, add]);
    assert [Int(2)] == [Int(2)] + [];
    ParseStep(s3, Int(2), s4.output, s4.stack, []);
  }

  lemma UnbalancedParenthesesStep5()
    ensures Parser.Run(Parser.ParseState([Int(1), Int(2)], [lp, add]), []) == Ok(Parser.ParseState([Int(1), Int(2)], [lp, add]))
  {
  }

  lemma UnbalancedParenthesesStep6()
    ensures Parser.Depth(Parser.ParseState([Int(1), Int(2)], [lp, add]).stack) > 0
  {
    var s4 := Parser.ParseState([Int(1), Int(2)], [lp, add]);
    assert s4.stack == [lp] + [add];
    Parser.DepthAppend([lp], [add]);
    Parser.Single(lp);
  }

  lemma UnbalancedParenthesesStep7()
    ensures Parser.Run(Parser.ParseState([], []), [Int(1), add, Int(2), rp]) == Parser.Run(Parser.ParseState([Int(1)], []), [add, Int(2), rp])
  {
    var s0 := Parser.ParseState([], []);
    var t1 := Parser.ParseState([Int(1)], []);
    assert [Int(1), add, Int(2), rp] == [Int(1)] + [add, Int(2), rp];
    ParseStep(s0, Int(1), t1.output, t1.stack, [add, Int(2), rp]);
  }

  lemma UnbalancedParenthesesStep8()
    ensures Parser.Run(Parser.ParseState([Int(1)], []), [add, Int(2), rp]) == Parser.Run(Parser.ParseState([Int(1)], [add]), [Int(2), rp])
  {
    var t1 := Parser.ParseState([Int(1)], []);
    var t2 := Parser.ParseState([Int(1)], [add]);
    assert [add, Int(2), rp] == [add] + [Int(2), rp];
    ParseStep(t1, add, t2.output, t2.stack, [Int(2), rp]);
  }

  lemma UnbalancedParenthesesStep9()
    ensures Parser.Run(Parser.ParseState([Int(1)], [add]), [Int(2), rp]) == Parser.Run(Parser.ParseState([Int(1), Int(2)], [add]), [rp])
  {
    var t2 := Parser.ParseState([Int(1)], [add]);
    var t3 := Parser.ParseState([Int(1), Int(2)], [add]);
    assert [Int(2), rp] == [Int(2)] + [rp];
    ParseStep(t2, Int(2), t3.output, t3.stack, [rp]);
  }

  lemma UnbalancedParenthesesStep10()
    ensures Parser.Step(Parser.ParseState([Int(1), Int(2)], [add]), rp).Err?
  {
  }

  // ---------------------------------------------------------------------------
  // -7/2
  // ---------------------------------------------------------------------------

  /** Negation binds tighter than division, and integer division truncates toward
      zero: "-7/2" is -3, not the -4 of floor division. */
  lemma ParseNegatedQuotient()
    ensures Parser.Parse([neg, Int(7), div, Int(2)]) == Ok([Int(7), neg, Int(2), div])
  {
    ParseNegatedQuotientStep1();
    ParseNegatedQuotientStep2();
    ParseNegatedQuotientStep3();
    ParseNegatedQuotientStep4();
    ParseNegatedQuotientStep5();
    ParseNegatedQuotientStep6();
  }

  lemma ParseNegatedQuotientStep1()
    ensures Parser.Run(Parser.ParseState([], []), [neg, Int(7), div, Int(2)]) == Parser.Run(Parser.ParseState([], [neg]), [Int(7), div, Int(2)])
  {
    var s0 := Parser.ParseState([], []);
    var s1 := Parser.ParseState([], [neg]);
    assert [neg, Int(7), div, Int(2)] == [neg] + [Int(7), div, Int(2)];
    ParseStep(s0, neg, s1.output, s1.stack, [Int(7), div, Int(2)]);
  }

  lemma ParseNegatedQuotientStep2()
    ensures Parser.Run(Parser.ParseState([], [neg]), [Int(7), div, Int(2)]) == Parser.Run(Parser.ParseState([Int(7)], [neg]), [div, Int(2)])
  {
    var s1 := Parser.ParseState([], [neg]);
    var s2 := Parser.ParseState([Int(7)], [neg]);
    assert [Int(7), div, Int(2)] == [Int(7)] + [div, Int(2)];
    ParseStep(s1, Int(7), s2.output, s2.stack, [div, Int(2)]);
  }

  lemma ParseNegatedQuotientStep3()
    ensures Parser.Run(Parser.ParseState([Int(7)], [neg]), [div, Int(2)]) == Parser.Run(Parser.ParseState([Int(7), neg], [div]), [Int(2)])
  {
    var s2 := Parser.ParseState([Int(7)], [neg]);
    var s3 := Parser.ParseState([Int(7), neg], [div]);
    assert [div, Int(2)] == [div] + [Int(2)];
    ParseStep(s2, div, s3.output, s3.stack, [Int(2)]);
  }

  lemma ParseNegatedQuotientStep4()
    ensures Parser.Run(Parser.ParseState([Int(7), neg], [div]), [Int(2)]) == Parser.Run(Parser.ParseState([Int(7), neg, Int(2)], [div]), [])
  {
    var s3 := Parser.ParseState([Int(7), neg], [div]);
    var s4 := Parser.ParseState([Int(7), neg, Int(2)], [div]);
    assert [Int(2)] == [Int(2)] + [];
    ParseStep(s3, Int(2), s4.output, s4.stack, []);
  }

  lemma ParseNegatedQuotientStep5()
    ensures Parser.Run(Parser.ParseState([Int(7), neg, Int(2)], [div]), []) == Ok(Parser.ParseState([Int(7), neg, Int(2)], [div]))
  {
  }

  lemma ParseNegatedQuotientStep6()
    ensures Parser.Drain(Parser.ParseState([Int(7), neg, Int(2)], [div])).Ok? && Parser.Drain(Parser.ParseState([Int(7), neg, Int(2)], [div])).value == [Int(7), neg, Int(2), div]
  {
    var s4 := Parser.ParseState([Int(7), neg, Int(2)], [div]);
    Parser.NoLeftParenthesis(s4.stack);
  }

  lemma EvaluateTruncatingDivision(fp: FloatOps, store: Store)
    ensures Evaluate(fp, store, [Int(7), neg, Int(2), div]) == Outcome(Ok(Integer(-3)), store)
  {
    EvaluateTruncatingDivisionStep1(fp, store);
    EvaluateTruncatingDivisionStep2(fp, store);
    EvaluateTruncatingDivisionStep3(fp, store);
    EvaluateTruncatingDivisionStep4(fp, store);
  }

  lemma EvaluateTruncatingDivisionStep1(fp: FloatOps, store: Store)
    ensures Run(fp, Machine([], store), [Int(7), neg, Int(2), div]) == Run(fp, Machine([Integer(7)], store), [neg, Int(2), div])
  {
    assert [Int(7), neg, Int(2), div] == [Int(7)] + [neg, Int(2), div];
    PushStep(fp, Machine([], store), Integer(7), [Integer(7)], [neg, Int(2), div]);
  }

  lemma EvaluateTruncatingDivisionStep2(fp: FloatOps, store: Store)
    ensures Run(fp, Machine([Integer(7)], store), [neg, Int(2), div]) == Run(fp, Machine([Integer(-7)], store), [Int(2), div])
  {
    var m1 := Machine([Integer(7)], store);
    var m2 := Machine([Integer(-7)], store);
    assert [neg, Int(2), div] == [neg] + [Int(2), div];
    EvalStep(fp, m1, neg, m2.stack, store, [Int(2), div]);
  }

  lemma EvaluateTruncatingDivisionStep3(fp: FloatOps, store: Store)
    ensures Run(fp, Machine([Integer(-7)], store), [Int(2), div]) == Run(fp, Machine([Integer(-7), Integer(2)], store), [div])
  {
    var m2 := Machine([Integer(-7)], store);
    var m3 := Machine([Integer(-7), Integer(2)], store);
    assert [Int(2), div] == [Int(2)] + [div];
    PushStep(fp, m2, Integer(2), m3.stack, [div]);
  }

  lemma EvaluateTruncatingDivisionStep4(fp: FloatOps, store: Store)
    ensures Run(fp, Machine([Integer(-7), Integer(2)], store), [div]) == Ok(Machine([Integer(-3)], store))
  {
    var m3 := Machine([Integer(-7), Integer(2)], store);
    var m4 := Machine([Integer(-3)], store);
    assert [div] == [div] + [];
    EvalStep(fp, m3, div, m4.stack, store, []);
  }

  // ---------------------------------------------------------------------------
  // Assignment and variables
  // ---------------------------------------------------------------------------

  /** "5=3", in postfix 5 3 =: the target is not a Variable. */
  lemma AssignToLiteral(fp: FloatOps, store: Store)
    ensures Evaluate(fp, store, [Int(5), Int(3), assign]) == Outcome(Err(AssignmentToNonVariable), store)
  {
    AssignToLiteralStep1(fp, store);
    AssignToLiteralStep2(fp, store);
  }

  lemma AssignToLiteralStep1(fp: FloatOps, store: Store)
    ensures Run(fp, Machine([], store), [Int(5), Int(3), assign]) == Run(fp, Machine([Integer(5)], store), [Int(3), assign])
  {
    assert [Int(5), Int(3), assign] == [Int(5)] + [Int(3), assign];
    PushStep(fp, Machine([], store), Integer(5), [Integer(5)], [Int(3), assign]);
  }

  lemma AssignToLiteralStep2(fp: FloatOps, store: Store)
    ensures Run(fp, Machine([Integer(5)], store), [Int(3), assign]) == Run(fp, Machine([Integer(5), Integer(3)], store), [assign])
  {
    var m1 := Machine([Integer(5)], store);
    var m2 := Machine([Integer(5), Integer(3)], store);
    assert [Int(3), assign] == [Int(3)] + [assign];
    PushStep(fp, m1, Integer(3), m2.stack, [assign]);
  }

  /** "x=5" with x unset, in postfix x 5 =: both sides of an assignment are read
      before the target is looked at, so the assignment fails as a read of x. */
  lemma AssignToUnsetVariable(fp: FloatOps, x: VarId)
    ensures Evaluate(fp, map[], [OperandToken(Variable(x)), Int(5), assign])
            == Outcome(Err(VariableNotInitialized), map[])
  {
    AssignToUnsetVariableStep1(fp, x);
    AssignToUnsetVariableStep2(fp, x);
  }

  lemma AssignToUnsetVariableStep1(fp: FloatOps, x: VarId)
    ensures Run(fp, Machine([], map[]), [OperandToken(Variable(x)), Int(5), assign]) == Run(fp, Machine([Variable(x)], map[]), [Int(5), assign])
  {
    var vx := OperandToken(Variable(x));
    var e: Store := map[];
    assert [vx, Int(5), assign] == [vx] + [Int(5), assign];
    PushStep(fp, Machine([], e), Variable(x), [Variable(x)], [Int(5), assign]);
  }

  lemma AssignToUnsetVariableStep2(fp: FloatOps, x: VarId)
    ensures Run(fp, Machine([Variable(x)], map[]), [Int(5), assign]) == Run(fp, Machine([Variable(x), Integer(5)], map[]), [assign])
  {
    var e: Store := map[];
    assert [Int(5), assign] == [Int(5)] + [assign];
    PushStep(fp, Machine([Variable(x)], e), Integer(5), [Variable(x), Integer(5)], [assign]);
  }

  /** "x=5" once x holds any value: the cell takes 5 and the result is x itself. */
  lemma AssignToVariable(fp: FloatOps, x: VarId, v: Value)
    ensures Evaluate(fp, map[x := v], [OperandToken(Variable(x)), Int(5), assign])
            == Outcome(Ok(Variable(x)), map[x := IntV(5)])
  {
    AssignToVariableStep1(x, v);
    AssignToVariableStep2(fp, x, v);
    AssignToVariableStep3(fp, x, v);
    AssignToVariableStep4(fp, x, v);
  }

  lemma AssignToVariableStep1(x: VarId, v: Value)
    ensures map[x := v][x := IntV(5)] == map[x := IntV(5)]
  {
  }

  lemma AssignToVariableStep2(fp: FloatOps, x: VarId, v: Value)
    ensures Run(fp, Machine([], map[x := v]), [OperandToken(Variable(x)), Int(5), assign]) == Run(fp, Machine([Variable(x)], map[x := v]), [Int(5), assign])
  {
    var vx := OperandToken(Variable(x));
    var s: Store := map[x := v];
    assert [vx, Int(5), assign] == [vx] + [Int(5), assign];
    PushStep(fp, Machine([], s), Variable(x), [Variable(x)], [Int(5), assign]);
  }

  lemma AssignToVariableStep3(fp: FloatOps, x: VarId, v: Value)
    ensures Run(fp, Machine([Variable(x)], map[x := v]), [Int(5), assign]) == Run(fp, Machine([Variable(x), Integer(5)], map[x := v]), [assign])
  {
    var s: Store := map[x := v];
    assert [Int(5), assign] == [Int(5)] + [assign];
    PushStep(fp, Machine([Variable(x)], s), Integer(5), [Variable(x), Integer(5)], [assign]);
  }

  lemma AssignToVariableStep4(fp: FloatOps, x: VarId, v: Value)
    ensures Run(fp, Machine([Variable(x), Integer(5)], map[x := v]), [assign]) == Ok(Machine([Variable(x)], map[x := IntV(5)]))
  {
    var s: Store := map[x := v];
    var s5: Store := map[x := IntV(5)];
    assert [assign] == [assign] + [];
    EvalStep(fp, Machine([Variable(x), Integer(5)], s), assign, [Variable(x)], s5, []);
  }

  /** "x+1" after "x=5": the next evaluation reads the stored 5. */
  lemma ReadBackVariable(fp: FloatOps, x: VarId)
    ensures Evaluate(fp, map[x := IntV(5)], [OperandToken(Variable(x)), Int(1), add])
            == Outcome(Ok(Integer(6)), map[x := IntV(5)])
  {
    ReadBackVariableStep1(fp, x);
    ReadBackVariableStep2(fp, x);
    ReadBackVariableStep3(fp, x);
  }

  lemma ReadBackVariableStep1(fp: FloatOps, x: VarId)
    ensures Run(fp, Machine([], map[x := IntV(5)]), [OperandToken(Variable(x)), Int(1), add]) == Run(fp, Machine([Variable(x)], map[x := IntV(5)]), [Int(1), add])
  {
    var vx := OperandToken(Variable(x));
    var s5: Store := map[x := IntV(5)];
    assert [vx, Int(1), add] == [vx] + [Int(1), add];
    PushStep(fp, Machine([], s5), Variable(x), [Variable(x)], [Int(1), add]);
  }

  lemma ReadBackVariableStep2(fp: FloatOps, x: VarId)
    ensures Run(fp, Machine([Variable(x)], map[x := IntV(5)]), [Int(1), add]) == Run(fp, Machine([Variable(x), Integer(1)], map[x := IntV(5)]), [add])
  {
    var s5: Store := map[x := IntV(5)];
    assert [Int(1), add] == [Int(1)] + [add];
    PushStep(fp, Machine([Variable(x)], s5), Integer(1), [Variable(x), Integer(1)], [add]);
  }

  lemma ReadBackVariableStep3(fp: FloatOps, x: VarId)
    ensures Run(fp, Machine([Variable(x), Integer(1)], map[x := IntV(5)]), [add]) == Ok(Machine([Integer(6)], map[x := IntV(5)]))
  {
    var s5: Store := map[x := IntV(5)];
    assert [add] == [add] + [];
    assert ToValue(s5, Variable(x)) == Ok(IntV(5));
    assert Exec(fp, Machine([Variable(x), Integer(1)], s5), add).value.stack == [Integer(6)];
    EvalStep(fp, Machine([Variable(x), Integer(1)], s5), add, [Integer(6)], s5, []);
  }

  // ---------------------------------------------------------------------------
  // sin(1,2)
  // ---------------------------------------------------------------------------

  /** The argument separator only pops to the "(": "sin(1,2)" parses to 1 2 sin, and
      since sin takes one argument, two operands remain. */
  lemma ParseFunctionCall()
    ensures Parser.Parse([sin, lp, Int(1), sep, Int(2), rp]) == Ok([Int(1), Int(2), sin])
  {
    ParseFunctionCallStep1();
    ParseFunctionCallStep2();
    ParseFunctionCallStep3();
    ParseFunctionCallStep4();
    ParseFunctionCallStep5();
    ParseFunctionCallStep6();
    ParseFunctionCallStep7();
    ParseFunctionCallStep8();
  }

  lemma ParseFunctionCallStep1()
    ensures Parser.Run(Parser.ParseState([], []), [sin, lp, Int(1), sep, Int(2), rp]) == Parser.Run(Parser.ParseState([], [sin]), [lp, Int(1), sep, Int(2), rp])
  {
    var s0 := Parser.ParseState([], []);
    var s1 := Parser.ParseState([], [sin]);
    assert [sin, lp, Int(1), sep, Int(2), rp] == [sin] + [lp, Int(1), sep, Int(2), rp];
    ParseStep(s0, sin, s1.output, s1.stack, [lp, Int(1), sep, Int(2), rp]);
  }

  lemma ParseFunctionCallStep2()
    ensures Parser.Run(Parser.ParseState([], [sin]), [lp, Int(1), sep, Int(2), rp]) == Parser.Run(Parser.ParseState([], [sin, lp]), [Int(1), sep, Int(2), rp])
  {
    var s1 := Parser.ParseState([], [sin]);
    var s2 := Parser.ParseState([], [sin, lp]);
    assert [lp, Int(1), sep, Int(2), rp] == [lp] + [Int(1), sep, Int(2), rp];
    ParseStep(s1, lp, s2.output, s2.stack, [Int(1), sep, Int(2), rp]);
  }

  lemma ParseFunctionCallStep3()
    ensures Parser.Run(Parser.ParseState([], [sin, lp]), [Int(1), sep, Int(2), rp]) == Parser.Run(Parser.ParseState([Int(1)], [sin, lp]), [sep, Int(2), rp])
  {
    var s2 := Parser.ParseState([], [sin, lp]);
    var s3 := Parser.ParseState([Int(1)], [sin, lp]);
    assert [Int(1), sep, Int(2), rp] == [Int(1)] + [sep, Int(2), rp];
    ParseStep(s2, Int(1), s3.output, s3.stack, [sep, Int(2), rp]);
  }

  lemma ParseFunctionCallStep4()
    ensures Parser.Run(Parser.ParseState([Int(1)], [sin, lp]), [sep, Int(2), rp]) == Parser.Run(Parser.ParseState([Int(1)], [sin, lp]), [Int(2), rp])
  {
    var s3 := Parser.ParseState([Int(1)], [sin, lp]);
    assert [sep, Int(2), rp] == [sep] + [Int(2), rp];
    ParseStep(s3, sep, s3.output, s3.stack, [Int(2), rp]);
  }

  lemma ParseFunctionCallStep5()
    ensures Parser.Run(Parser.ParseState([Int(1)], [sin, lp]), [Int(2), rp]) == Parser.Run(Parser.ParseState([Int(1), Int(2)], [sin, lp]), [rp])
  {
    var s3 := Parser.ParseState([Int(1)], [sin, lp]);
    var s5 := Parser.ParseState([Int(1), Int(2)], [sin, lp]);
    assert [Int(2), rp] == [Int(2)] + [rp];
    ParseStep(s3, Int(2), s5.output, s5.stack, [rp]);
  }

  lemma ParseFunctionCallStep6()
    ensures Parser.Run(Parser.ParseState([Int(1), Int(2)], [sin, lp]), [rp]) == Parser.Run(Parser.ParseState([Int(1), Int(2), sin], []), [])
  {
    var s5 := Parser.ParseState([Int(1), Int(2)], [sin, lp]);
    var s6 := Parser.ParseState([Int(1), Int(2), sin], []);
    assert [rp] == [rp] + [];
    ParseStep(s5, rp, s6.output, s6.stack, []);
  }

  lemma ParseFunctionCallStep7()
    ensures Parser.Run(Parser.ParseState([Int(1), Int(2), sin], []), []) == Ok(Parser.ParseState([Int(1), Int(2), sin], []))
  {
  }

  lemma ParseFunctionCallStep8()
    ensures Parser.Drain(Parser.ParseState([Int(1), Int(2), sin], [])).Ok? && Parser.Drain(Parser.ParseState([Int(1), Int(2), sin], [])).value == [Int(1), Int(2), sin]
  {
  }

  lemma EvaluateTooManyArguments(fp: FloatOps, store: Store)
    ensures Evaluate(fp, store, [Int(1), Int(2), sin]).result == Err(TooManyOperands)
  {
    EvaluateTooManyArgumentsStep1(fp, store);
    EvaluateTooManyArgumentsStep2(fp, store);
    EvaluateTooManyArgumentsStep3(fp, store);
  }

  lemma EvaluateTooManyArgumentsStep1(fp: FloatOps, store: Store)
    ensures Run(fp, Machine([], store), [Int(1), Int(2), sin]) == Run(fp, Machine([Integer(1)], store), [Int(2), sin])
  {
    assert [Int(1), Int(2), sin] == [Int(1)] + [Int(2), sin];
    PushStep(fp, Machine([], store), Integer(1), [Integer(1)], [Int(2), sin]);
  }

  lemma EvaluateTooManyArgumentsStep2(fp: FloatOps, store: Store)
    ensures Run(fp, Machine([Integer(1)], store), [Int(2), sin]) == Run(fp, Machine([Integer(1), Integer(2)], store), [sin])
  {
    var m1 := Machine([Integer(1)], store);
    var m2 := Machine([Integer(1), Integer(2)], store);
    assert [Int(2), sin] == [Int(2)] + [sin];
    PushStep(fp, m1, Integer(2), m2.stack, [sin]);
  }

  lemma EvaluateTooManyArgumentsStep3(fp: FloatOps, store: Store)
    ensures Run(fp, Machine([Integer(1), Integer(2)], store), [sin]) == Ok(Machine([Integer(1), Real(fp.apply1(Sin, fp.fromInteger(2)))], store))
  {
    var m2 := Machine([Integer(1), Integer(2)], store);
    assert [sin] == [sin] + [];
    EvalStep(fp, m2, sin, [Integer(1), Real(fp.apply1(Sin, fp.fromInteger(2)))], store, []);
  }
}

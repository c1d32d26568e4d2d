/**
 * Concrete runs of the tokenizer: the context-sensitive signs, the two-character
 * operators, binary literals, the error offsets, and the symbol table that keeps the
 * variables created before a failure.
 */
module TokenizerExamples {
  import opened Wrappers
  import opened Tokens
  import opened Integers
  import opened Tokenizer

  const one := OperandToken(Integer(1))
  const two := OperandToken(Integer(2))

  /** A token at offset i (no blank before it) is emitted and the scan goes on after it. */
  lemma ScanOne(fp: FloatOps, s: string, i: nat, prev: PrevCategory, table: SymbolTable, acc: seq<Token>, sc: Scanned)
    requires i < |s| && !IsSpace(s[i])
    requires ScanToken(fp, s, i, prev, table) == Ok(sc)
    ensures Scan(fp, s, i, prev, table, acc) == Scan(fp, s, sc.next, Classify(sc.token), sc.table, acc + [sc.token])
  {
    assert SpanWhile(s, i, IsSpace) == i;
  }

  /** A token that fails to scan at offset i ends the scan with the table as it was. */
  lemma ScanFails(fp: FloatOps, s: string, i: nat, prev: PrevCategory, table: SymbolTable, acc: seq<Token>, e: LexError)
    requires i < |s| && !IsSpace(s[i])
    requires ScanToken(fp, s, i, prev, table) == Err(e)
    ensures Scan(fp, s, i, prev, table, acc) == (Err(e), table)
  {
    assert SpanWhile(s, i, IsSpace) == i;
  }

  /** "1-2": after an operand, "-" is Subtraction. */
  lemma TokenizeSubtraction(fp: FloatOps)
    ensures Tokenize(fp, "1-2", map[]) == (Ok([one, OperatorToken(LAssoc(Subtraction)), two]), map[])
  {
    SubtractionFirst(fp);
    SubtractionSecond(fp);
    SubtractionThird(fp);
  }

  lemma SubtractionFirst(fp: FloatOps)
    ensures Scan(fp, "1-2", 0, AtStart, map[], []) == Scan(fp, "1-2", 1, AfterOperand, map[], [one])
  {
    var s := "1-2";
    assert ScanToken(fp, s, 0, AtStart, map[]) == Ok(Scanned(one, 1, map[])) by {
      assert SpanWhile(s, 0, IsDigit) == 1;
      assert DecimalValue(s[0..1]) == 1 by { assert s[0..1] == "1"; assert "1"[1..] == []; }
    }
    ScanOne(fp, s, 0, AtStart, map[], [], Scanned(one, 1, map[]));
    assert [] + [one] == [one];
  }

  lemma SubtractionSecond(fp: FloatOps)
    ensures Scan(fp, "1-2", 1, AfterOperand, map[], [one])
            == Scan(fp, "1-2", 2, AfterOther, map[], [one, OperatorToken(LAssoc(Subtraction))])
  {
    var s := "1-2";
    var minus := OperatorToken(LAssoc(Subtraction));
    assert ScanToken(fp, s, 1, AfterOperand, map[]) == Ok(Scanned(minus, 2, map[]));
    ScanOne(fp, s, 1, AfterOperand, map[], [one], Scanned(minus, 2, map[]));
    assert [one] + [minus] == [one, minus];
  }

  lemma SubtractionThird(fp: FloatOps)
    ensures Scan(fp, "1-2", 2, AfterOther, map[], [one, OperatorToken(LAssoc(Subtraction))])
            == (Ok([one, OperatorToken(LAssoc(Subtraction)), two]), map[])
  {
    var s := "1-2";
    var minus := OperatorToken(LAssoc(Subtraction));
    assert ScanToken(fp, s, 2, AfterOther, map[]) == Ok(Scanned(two, 3, map[])) by {
      assert SpanWhile(s, 2, IsDigit) == 3;
      assert DecimalValue(s[2..3]) == 2 by { assert s[2..3] == "2"; assert "2"[1..] == []; }
    }
    ScanOne(fp, s, 2, AfterOther, map[], [one, minus], Scanned(two, 3, map[]));
    assert [one, minus] + [two] == [one, minus, two];
  }

  /** "-2": at the start, "-" is Negation. */
  lemma TokenizeNegation(fp: FloatOps)
    ensures Tokenize(fp, "-2", map[]) == (Ok([OperatorToken(Unary(Negation)), two]), map[])
  {
    NegationFirst(fp);
    NegationSecond(fp);
  }

  lemma NegationFirst(fp: FloatOps)
    ensures Scan(fp, "-2", 0, AtStart, map[], []) == Scan(fp, "-2", 1, AfterOther, map[], [OperatorToken(Unary(Negation))])
  {
    var s := "-2";
    var neg := OperatorToken(Unary(Negation));
    assert ScanToken(fp, s, 0, AtStart, map[]) == Ok(Scanned(neg, 1, map[]));
    ScanOne(fp, s, 0, AtStart, map[], [], Scanned(neg, 1, map[]));
    assert [] + [neg] == [neg];
  }

  lemma NegationSecond(fp: FloatOps)
    ensures Scan(fp, "-2", 1, AfterOther, map[], [OperatorToken(Unary(Negation))])
            == (Ok([OperatorToken(Unary(Negation)), two]), map[])
  {
    var s := "-2";
    var neg := OperatorToken(Unary(Negation));
    assert ScanToken(fp, s, 1, AfterOther, map[]) == Ok(Scanned(two, 2, map[])) by {
      assert SpanWhile(s, 1, IsDigit) == 2;
      assert DecimalValue(s[1..2]) == 2 by { assert s[1..2] == "2"; assert "2"[1..] == []; }
    }
    ScanOne(fp, s, 1, AfterOther, map[], [neg], Scanned(two, 2, map[]));
    assert [neg] + [two] == [neg, two];
  }

  /** A one-letter name that is neither a keyword nor in the table becomes the next
      Variable, and the scan goes on after it. */
  lemma ScanNewLetter(fp: FloatOps, s: string, i: nat, prev: PrevCategory, table: SymbolTable, acc: seq<Token>)
    requires i < |s| && IsAlpha(s[i]) && (i + 1 == |s| || !IsAlnum(s[i + 1]))
    requires Keyword(fp, [s[i]]).None? && [s[i]] !in table
    ensures Scan(fp, s, i, prev, table, acc) ==
              Scan(fp, s, i + 1, AfterOperand, table[[s[i]] := |table|], acc + [OperandToken(Variable(|table|))])
  {
    assert SpanWhile(s, i, IsAlnum) == i + 1;
    assert s[i..i + 1] == [s[i]];
    var sc := Scanned(OperandToken(Variable(|table|)), i + 1, table[[s[i]] := |table|]);
    assert ScanToken(fp, s, i, prev, table) == Ok(sc);
    ScanOne(fp, s, i, prev, table, acc, sc);
  }

  lemma NotKeywords(fp: FloatOps)
    ensures Keyword(fp, "a").None? && Keyword(fp, "b").None? && Keyword(fp, "x").None?
  {
    assert Lower("a") == "a" && Lower("b") == "b" && Lower("x") == "x";
  }

  const a := OperandToken(Variable(0))
  const b := OperandToken(Variable(1))
  const x := OperandToken(Variable(0))
  const eq := OperatorToken(LAssoc(Equality))
  const plus := OperatorToken(LAssoc(Addition))

  /** "a==b": "==" is one Equality, not two Assignments; each new name gets the next
      identity. */
  lemma TokenizeEquality(fp: FloatOps)
    ensures Tokenize(fp, "a==b", map[]) == (Ok([a, eq, b]), map["a" := 0, "b" := 1])
  {
    FirstOfEquality(fp);
    MiddleOfEquality(fp);
    LastOfEquality(fp);
  }

  lemma FirstOfEquality(fp: FloatOps)
    ensures Scan(fp, "a==b", 0, AtStart, map[], []) == Scan(fp, "a==b", 1, AfterOperand, map["a" := 0], [a])
  {
    var s := "a==b";
    NotKeywords(fp);
    assert [s[0]] == "a";
    ScanNewLetter(fp, s, 0, AtStart, map[], []);
    assert map[]["a" := 0] == map["a" := 0];
    assert [] + [a] == [a];
  }

  lemma MiddleOfEquality(fp: FloatOps)
    ensures Scan(fp, "a==b", 1, AfterOperand, map["a" := 0], [a]) == Scan(fp, "a==b", 3, AfterOther, map["a" := 0], [a, eq])
  {
    var s := "a==b";
    var t1 := map["a" := 0];
    assert ScanToken(fp, s, 1, AfterOperand, t1) == Ok(Scanned(eq, 3, t1));
    ScanOne(fp, s, 1, AfterOperand, t1, [a], Scanned(eq, 3, t1));
    assert [a] + [eq] == [a, eq];
  }

  lemma LastOfEquality(fp: FloatOps)
    ensures Scan(fp, "a==b", 3, AfterOther, map["a" := 0], [a, eq]) == (Ok([a, eq, b]), map["a" := 0, "b" := 1])
  {
    var s := "a==b";
    var t1 := map["a" := 0];
    NotKeywords(fp);
    assert |t1| == 1 && "b" !in t1 && [s[3]] == "b";
    ScanNewLetter(fp, s, 3, AfterOther, t1, [a, eq]);
    assert [a, eq] + [b] == [a, eq, b];
  }

  /** "x+#": the bad character is reported at its offset, and the variable x created
      before it stays in the table. */
  lemma BadCharacterKeepsVariables(fp: FloatOps)
    ensures Tokenize(fp, "x+#", map[]) == (Err(LexError(2, BadCharacter)), map["x" := 0])
  {
    FirstOfBadCharacter(fp);
    MiddleOfBadCharacter(fp);
    LastOfBadCharacter(fp);
  }

  lemma FirstOfBadCharacter(fp: FloatOps)
    ensures Scan(fp, "x+#", 0, AtStart, map[], []) == Scan(fp, "x+#", 1, AfterOperand, map["x" := 0], [x])
  {
    var s := "x+#";
    NotKeywords(fp);
    assert [s[0]] == "x";
    ScanNewLetter(fp, s, 0, AtStart, map[], []);
    assert map[]["x" := 0] == map["x" := 0];
    assert [] + [x] == [x];
  }

  lemma MiddleOfBadCharacter(fp: FloatOps)
    ensures Scan(fp, "x+#", 1, AfterOperand, map["x" := 0], [x]) == Scan(fp, "x+#", 2, AfterOther, map["x" := 0], [x, plus])
  {
    var s := "x+#";
    var t1 := map["x" := 0];
    assert ScanToken(fp, s, 1, AfterOperand, t1) == Ok(Scanned(plus, 2, t1));
    ScanOne(fp, s, 1, AfterOperand, t1, [x], Scanned(plus, 2, t1));
    assert [x] + [plus] == [x, plus];
  }

  lemma LastOfBadCharacter(fp: FloatOps)
    ensures Scan(fp, "x+#", 2, AfterOther, map["x" := 0], [x, plus]) == (Err(LexError(2, BadCharacter)), map["x" := 0])
  {
    ScanFails(fp, "x+#", 2, AfterOther, map["x" := 0], [x, plus], LexError(2, BadCharacter));
  }

  /** "!1": a factorial sign at the start fails at its own offset. */
  lemma FactorialAtStart(fp: FloatOps)
    ensures Tokenize(fp, "!1", map[]) == (Err(LexError(0, MisplacedFactorial)), map[])
  {
    ScanFails(fp, "!1", 0, AtStart, map[], [], LexError(0, MisplacedFactorial));
  }

  /** "0b101" is the Integer 5. */
  lemma TokenizeBinary(fp: FloatOps)
    ensures Tokenize(fp, "0b101", map[]) == (Ok([OperandToken(Integer(5))]), map[])
  {
    var s := "0b101";
    var five := OperandToken(Integer(5));
    assert ScanToken(fp, s, 0, AtStart, map[]) == Ok(Scanned(five, 5, map[])) by {
      assert SpanWhile(s, 2, IsBit) == 5;
      assert s[2..5] == "101";
      assert "101"[1..] == "01" && "01"[1..] == "1" && "1"[1..] == [];
    }
    ScanOne(fp, s, 0, AtStart, map[], [], Scanned(five, 5, map[]));
  }

  /** "1." lacks a digit after the point: the error is at the offset after it. */
  lemma RealNeedsFraction(fp: FloatOps)
    ensures Tokenize(fp, "1.", map[]) == (Err(LexError(2, MalformedNumber)), map[])
  {
    assert SpanWhile("1.", 0, IsDigit) == 1;
    ScanFails(fp, "1.", 0, AtStart, map[], [], LexError(2, MalformedNumber));
  }

  /** "sin 1": a function name must be followed by "(" after the blanks; the error is
      at the first character after them. */
  lemma FunctionNeedsParenthesis(fp: FloatOps)
    ensures Tokenize(fp, "sin 1", map[]) == (Err(LexError(4, FunctionWithoutParenthesis)), map[])
  {
    SinWithoutParenthesis(fp);
    ScanFails(fp, "sin 1", 0, AtStart, map[], [], LexError(4, FunctionWithoutParenthesis));
  }

  lemma SinWithoutParenthesis(fp: FloatOps)
    ensures ScanToken(fp, "sin 1", 0, AtStart, map[]) == Err(LexError(4, FunctionWithoutParenthesis))
  {
    SinIdentifier(fp);
    assert SpanWhile("sin 1", 3, IsSpace) == 4;
  }

  lemma SinIdentifier(fp: FloatOps)
    ensures ScanIdentifier(fp, "sin 1", 0, map[]) == Scanned(FunctionToken(OneArg(Sin)), 3, map[])
  {
    var s := "sin 1";
    SinSpan();
    assert s[0..3] == "sin";
    assert Lower("sin") == "sin";
  }

  lemma SinSpan()
    ensures SpanWhile("sin 1", 0, IsAlnum) == 3
  {
    assert SpanWhile("sin 1", 0, IsAlnum) == 3;
  }

  // ---------------------------------------------------------------------------
  // 2+3*4
  // ---------------------------------------------------------------------------

  /** A lone non-zero digit at offset i, followed by no digit and no ".", is an
      Integer operand of its digit value. */
  lemma ScanLoneDigit(fp: FloatOps, s: string, i: nat, prev: PrevCategory, table: SymbolTable, acc: seq<Token>)
    requires i < |s| && '1' <= s[i] <= '9'
    requires i + 1 == |s| || (!IsDigit(s[i + 1]) && s[i + 1] != '.')
    ensures Scan(fp, s, i, prev, table, acc) ==
              Scan(fp, s, i + 1, AfterOperand, table, acc + [OperandToken(Integer(DigitValue(s[i])))])
  {
    assert SpanWhile(s, i, IsDigit) == i + 1;
    assert DecimalValue(s[i..i + 1]) == DigitValue(s[i]) by {
      var w := s[i..i + 1];
      assert w == [s[i]] && w[1..] == [];
      assert Positional(10, w) == DigitValue(w[0]) * Integers.Pow(10, 0) + Positional(10, w[1..]);
    }
    var sc := Scanned(OperandToken(Integer(DigitValue(s[i]))), i + 1, table);
    assert ScanToken(fp, s, i, prev, table) == Ok(sc);
    ScanOne(fp, s, i, prev, table, acc, sc);
  }

  const three := OperandToken(Integer(3))
  const four := OperandToken(Integer(4))
  const times := OperatorToken(LAssoc(Multiplication))

  /** "2+3*4": three Integers separated by Addition and Multiplication. */
  lemma TokenizePrecedence(fp: FloatOps)
    ensures Tokenize(fp, "2+3*4", map[]) == (Ok([two, plus, three, times, four]), map[])
  {
    PrecedenceFirst(fp);
    PrecedenceSecond(fp);
    PrecedenceThird(fp);
    PrecedenceFourth(fp);
    PrecedenceLast(fp);
  }

  lemma PrecedenceFirst(fp: FloatOps)
    ensures Scan(fp, "2+3*4", 0, AtStart, map[], []) == Scan(fp, "2+3*4", 1, AfterOperand, map[], [two])
  {
    var s := "2+3*4";
    assert s[0] == '2' && s[1] == '+' && DigitValue('2') == 2;
    ScanLoneDigit(fp, s, 0, AtStart, map[], []);
    assert [] + [two] == [two];
  }

  lemma PrecedenceSecond(fp: FloatOps)
    ensures Scan(fp, "2+3*4", 1, AfterOperand, map[], [two]) == Scan(fp, "2+3*4", 2, AfterOther, map[], [two, plus])
  {
    var s := "2+3*4";
    assert ScanToken(fp, s, 1, AfterOperand, map[]) == Ok(Scanned(plus, 2, map[]));
    ScanOne(fp, s, 1, AfterOperand, map[], [two], Scanned(plus, 2, map[]));
    assert [two] + [plus] == [two, plus];
  }

  lemma PrecedenceThird(fp: FloatOps)
    ensures Scan(fp, "2+3*4", 2, AfterOther, map[], [two, plus])
            == Scan(fp, "2+3*4", 3, AfterOperand, map[], [two, plus, three])
  {
    var s := "2+3*4";
    assert s[2] == '3' && s[3] == '*' && DigitValue('3') == 3;
    ScanLoneDigit(fp, s, 2, AfterOther, map[], [two, plus]);
    assert [two, plus] + [three] == [two, plus, three];
  }

  lemma PrecedenceFourth(fp: FloatOps)
    ensures Scan(fp, "2+3*4", 3, AfterOperand, map[], [two, plus, three])
            == Scan(fp, "2+3*4", 4, AfterOther, map[], [two, plus, three, times])
  {
    var s := "2+3*4";
    assert Peek(s, 3) == '4';
    assert ScanToken(fp, s, 3, AfterOperand, map[]) == Ok(Scanned(times, 4, map[]));
    ScanOne(fp, s, 3, AfterOperand, map[], [two, plus, three], Scanned(times, 4, map[]));
    assert [two, plus, three] + [times] == [two, plus, three, times];
  }

  lemma PrecedenceLast(fp: FloatOps)
    ensures Scan(fp, "2+3*4", 4, AfterOther, map[], [two, plus, three, times])
            == (Ok([two, plus, three, times, four]), map[])
  {
    var s := "2+3*4";
    assert s[4] == '4' && DigitValue('4') == 4;
    ScanLoneDigit(fp, s, 4, AfterOther, map[], [two, plus, three, times]);
    assert [two, plus, three, times] + [four] == [two, plus, three, times, four];
    assert SpanWhile(s, 5, IsSpace) == 5;
  }
}

/**
 * The tokenizer (tokenizer.cpp): a left-to-right scanner that turns expression text
 * into tokens. Whether `+`, `-` and `!` are unary, binary or legal at all depends on
 * the category of the previously emitted token; identifiers resolve to a keyword,
 * then to an existing variable, then to a new variable added to the symbol table.
 */
module Tokenizer {
  import opened Wrappers
  import opened Integers
  import opened Tokens

  // ---------------------------------------------------------------------------
  // Character classes of the C locale
  // ---------------------------------------------------------------------------

  /** isspace: blank, tab, newline, vertical tab, form feed, carriage return. */
  predicate IsSpace(c: char) {
    c == ' ' || c == '\t' || c == '\n' || c == '\U{000B}' || c == '\U{000C}' || c == '\r'
  }

  /** isalpha */
  predicate IsAlpha(c: char) {
    'a' <= c <= 'z' || 'A' <= c <= 'Z'
  }

  /** isalnum */
  predicate IsAlnum(c: char) {
    IsAlpha(c) || IsDigit(c)
  }

  predicate IsBit(c: char) {
    c == '0' || c == '1'
  }

  /** The end of the maximal run of characters satisfying p that starts at i. */
  function SpanWhile(s: string, i: nat, p: char -> bool): (j: nat)
    requires i <= |s|
    ensures i <= j <= |s|
    ensures forall k | i <= k < j :: p(s[k])
    ensures j == |s| || !p(s[j])
    decreases |s| - i
  {
    if i < |s| && p(s[i]) then SpanWhile(s, i + 1, p) else i
  }

  // ---------------------------------------------------------------------------
  // Lookback, errors, symbol table
  // ---------------------------------------------------------------------------

  /** The category of the previously emitted token (PrevCategory). */
  datatype PrevCategory =
    | AtStart
    | AfterOperand
    | AfterRightParenthesis
    | AfterPostfixOp
    | AfterFunction
    | AfterOther

  /** classify_prev applied to an emitted token. */
  function Classify(t: Token): PrevCategory {
    match t
    case OperandToken(_) => AfterOperand
    case RightParenthesis => AfterRightParenthesis
    case OperatorToken(op) => if IsPostfixOperator(op) then AfterPostfixOp else AfterOther
    case FunctionToken(_) => AfterFunction
    case _ => AfterOther
  }

  /** The previous token closed an expression, so what follows is binary or postfix. */
  predicate EndsExpression(prev: PrevCategory) {
    prev == AfterOperand || prev == AfterPostfixOp || prev == AfterRightParenthesis
  }

  datatype LexErrorKind =
    | BadCharacter               // XBadCharacter: no rule matches
    | MalformedNumber            // "0b" with no bit, or "." with no digit after it
    | MisplacedFactorial         // "!" not after an expression
    | FunctionWithoutParenthesis // a function name not followed by "("

  /** An XTokenizer exception: what went wrong and at which offset of the text. */
  datatype LexError = LexError(offset: nat, kind: LexErrorKind)

  predicate IsVariableToken(t: Token) {
    t.OperandToken? && t.operand.Variable?
  }

  /** Every Variable among ts is one the table has handed out. */
  ghost predicate VariablesIn(ts: seq<Token>, t: SymbolTable) {
    forall k | 0 <= k < |ts| && IsVariableToken(ts[k]) :: ts[k].operand.id in t.Values
  }

  /** The variable dictionary: identifier text to variable identity. */
  type SymbolTable = map<string, VarId>

  /** Variable identities are 0 .. |t|-1, one per name, so |t| is always fresh. */
  ghost predicate WellFormedTable(t: SymbolTable) {
    && (forall n | n in t :: t[n] < |t|)
    && (forall n, m | n in t && m in t && n != m :: t[n] != t[m])
  }

  /** t2 keeps every binding of t1. */
  ghost predicate Extends(t2: SymbolTable, t1: SymbolTable) {
    forall n | n in t1 :: n in t2 && t2[n] == t1[n]
  }

  // ---------------------------------------------------------------------------
  // Keyword dictionary
  // ---------------------------------------------------------------------------

  function LowerChar(c: char): char {
    if 'A' <= c <= 'Z' then (c as int + 32) as char else c
  }

  function UpperChar(c: char): char {
    if 'a' <= c <= 'z' then (c as int - 32) as char else c
  }

  function Lower(w: string): (r: string)
    ensures |r| == |w|
    ensures forall k | 0 <= k < |w| :: r[k] == LowerChar(w[k])
  {
    if |w| == 0 then [] else [LowerChar(w[0])] + Lower(w[1..])
  }

  function Upper(w: string): (r: string)
    ensures |r| == |w|
    ensures forall k | 0 <= k < |w| :: r[k] == UpperChar(w[k])
  {
    if |w| == 0 then [] else [UpperChar(w[0])] + Upper(w[1..])
  }

  function Capitalized(w: string): (r: string)
    ensures |r| == |w|
  {
    if |w| == 0 then [] else [UpperChar(w[0])] + w[1..]
  }

  /** The dictionary's entries, by their lower-case spelling. */
  function LowerCaseKeyword(fp: FloatOps, base: string): (r: Option<Token>)
    ensures r.Some? ==> !IsVariableToken(r.value)
  {
    match base
    case "abs" => Some(FunctionToken(OneArg(Abs)))
    case "and" => Some(OperatorToken(LAssoc(And)))
    case "arccos" => Some(FunctionToken(OneArg(Arccos)))
    case "arcsin" => Some(FunctionToken(OneArg(Arcsin)))
    case "arctan" => Some(FunctionToken(OneArg(Arctan)))
    case "arctan2" => Some(FunctionToken(TwoArg(Arctan2)))
    case "ceil" => Some(FunctionToken(OneArg(Ceil)))
    case "cos" => Some(FunctionToken(OneArg(Cos)))
    case "e" => Some(OperandToken(Real(fp.e)))
    case "exp" => Some(FunctionToken(OneArg(Exp)))
    case "false" => Some(OperandToken(Boolean(false)))
    case "floor" => Some(FunctionToken(OneArg(Floor)))
    case "lb" => Some(FunctionToken(OneArg(Lb)))
    case "ln" => Some(FunctionToken(OneArg(Ln)))
    case "log" => Some(FunctionToken(OneArg(Log)))
    case "max" => Some(FunctionToken(TwoArg(Max)))
    case "min" => Some(FunctionToken(TwoArg(Min)))
    case "mod" => Some(OperatorToken(LAssoc(Modulus)))
    case "nand" => Some(OperatorToken(LAssoc(Nand)))
    case "nor" => Some(OperatorToken(LAssoc(Nor)))
    case "not" => Some(OperatorToken(Unary(Not)))
    case "or" => Some(OperatorToken(LAssoc(Or)))
    case "pi" => Some(OperandToken(Real(fp.pi)))
    case "pow" => Some(FunctionToken(TwoArg(Pow)))
    case "result" => Some(FunctionToken(OneArg(ResultFn)))
    case "sin" => Some(FunctionToken(OneArg(Sin)))
    case "sqrt" => Some(FunctionToken(OneArg(Sqrt)))
    case "tan" => Some(FunctionToken(OneArg(Tan)))
    case "true" => Some(OperandToken(Boolean(true)))
    case "xnor" => Some(OperatorToken(LAssoc(Xnor)))
    case "xor" => Some(OperatorToken(LAssoc(Xor)))
    case _ => None
  }

  /** Each entry is registered under exactly three spellings: lower case, capitalised
      and upper case. Any other mixture of cases is not a keyword. */
  function Keyword(fp: FloatOps, name: string): Option<Token> {
    var base := Lower(name);
    if name == base || name == Capitalized(base) || name == Upper(base)
    then LowerCaseKeyword(fp, base)
    else None
  }

  /** A word in lower case: letters a-z and digits. */
  predicate IsLowerWord(w: string) {
    forall k | 0 <= k < |w| :: 'a' <= w[k] <= 'z' || IsDigit(w[k])
  }

  /** Every dictionary entry is found under its lower-case, capitalised and upper-case
      spellings, all three denoting the same token. */
  lemma KeywordCaseVariants(fp: FloatOps, base: string)
    requires IsLowerWord(base)
    ensures Keyword(fp, base) == LowerCaseKeyword(fp, base)
    ensures Keyword(fp, Capitalized(base)) == LowerCaseKeyword(fp, base)
    ensures Keyword(fp, Upper(base)) == LowerCaseKeyword(fp, base)
  {
    assert Lower(base) == base;
    assert Lower(Upper(base)) == base;
    if |base| > 0 {
      var cap := Capitalized(base);
      assert cap[0] == UpperChar(base[0]);
      assert forall k | 1 <= k < |base| :: cap[k] == base[k];
      assert Lower(cap) == base;
    }
  }

  /** The converse of KeywordCaseVariants: a name is a keyword only when it is one of
      the three spellings of its own lower-case form, and that form is an entry. */
  lemma KeywordSpellings(fp: FloatOps, name: string)
    ensures Keyword(fp, name).Some? <==>
              && LowerCaseKeyword(fp, Lower(name)).Some?
              && (name == Lower(name) || name == Capitalized(Lower(name)) || name == Upper(Lower(name)))
    ensures Keyword(fp, name).Some? ==> Keyword(fp, name) == LowerCaseKeyword(fp, Lower(name))
  {
  }

  /** Mixed spellings other than the capitalised one are not keywords: "sIn" is an
      ordinary identifier, while "Sin" is the sine function. */
  lemma KeywordMixedCase(fp: FloatOps)
    ensures Keyword(fp, "sIn") == None
    ensures Keyword(fp, "Sin") == Some(FunctionToken(OneArg(Sin)))
  {
    LowerOfMixedSine();
  }

  lemma LowerOfMixedSine()
    ensures Lower("sIn") == "sin" && Lower("Sin") == "sin"
  {
    assert Lower("sIn") == "sin";
    assert Lower("Sin") == "sin";
  }

  // ---------------------------------------------------------------------------
  // Scanning one token
  // ---------------------------------------------------------------------------

  /** A scanned token, the offset just after it and the symbol table afterwards. */
  datatype Scanned = Scanned(token: Token, next: nat, table: SymbolTable)

  /** "0b" or "0B" at offset i: tokenize reads a binary literal there. */
  predicate BinaryPrefix(s: string, i: nat) {
    i + 1 < |s| && s[i] == '0' && (s[i + 1] == 'b' || s[i + 1] == 'B')
  }

  /** _get_number, together with the `0b` binary literal that tokenize handles before
      calling it. s[i] is a digit. */
  function ScanNumber(fp: FloatOps, s: string, i: nat, table: SymbolTable): (r: Result<Scanned, LexError>)
    requires i < |s| && IsDigit(s[i])
    ensures r.Ok? ==> i < r.value.next <= |s| && r.value.table == table
    ensures r.Ok? ==> r.value.token.OperandToken?
                      && (r.value.token.operand.Integer? || r.value.token.operand.Real?)
    ensures r.Err? ==> r.error.kind == MalformedNumber && i < r.error.offset <= |s|
    ensures BinaryPrefix(s, i) ==> r == ScanBinary(s, i, table)
    ensures !BinaryPrefix(s, i) ==> r == ScanDecimal(fp, s, i, table)
  {
    if BinaryPrefix(s, i) then ScanBinary(s, i, table) else ScanDecimal(fp, s, i, table)
  }

  /** A binary literal: the prefix, at least one bit, and the value of the maximal bit
      run; without a bit after the prefix the error is at the offset after it. */
  function ScanBinary(s: string, i: nat, table: SymbolTable): (r: Result<Scanned, LexError>)
    requires BinaryPrefix(s, i)
    ensures r.Ok? <==> i + 2 < |s| && IsBit(s[i + 2])
    ensures r.Err? ==> r.error == LexError(i + 2, MalformedNumber)
    ensures r.Ok? ==> var j := r.value.next;
                      && i + 2 < j <= |s|
                      && r.value.table == table
                      && AllDigits(2, s[i + 2..j])
                      && (j == |s| || !IsBit(s[j]))
                      && r.value.token == OperandToken(Integer(Positional(2, s[i + 2..j])))
  {
    var start := i + 2;
    if start == |s| || !IsBit(s[start]) then Err(LexError(start, MalformedNumber))
    else
      var j := SpanWhile(s, start, IsBit);
      var bits := s[start..j];
      assert AllDigits(2, bits) by {
        forall k | 0 <= k < |bits| ensures IsDigit(bits[k]) && DigitValue(bits[k]) < 2 {
          assert IsBit(s[start + k]);
        }
      }
      ShiftAndAddIsPositional(2, bits);
      Ok(Scanned(OperandToken(Integer(ShiftAndAdd(2, bits))), j, table))
  }

  /** A decimal literal: the maximal digit run, and a Real only with a digit after the
      "."; a "." without one is an error at the offset after it. */
  function ScanDecimal(fp: FloatOps, s: string, i: nat, table: SymbolTable): (r: Result<Scanned, LexError>)
    requires i < |s| && IsDigit(s[i])
    ensures var j := SpanWhile(s, i, IsDigit);
            && (j == |s| || s[j] != '.' ==>
                  r == Ok(Scanned(OperandToken(Integer(DecimalValue(s[i..j]))), j, table)))
            && (j < |s| && s[j] == '.' ==>
                  && (r.Ok? <==> j + 1 < |s| && IsDigit(s[j + 1]))
                  && (r.Err? ==> r.error == LexError(j + 1, MalformedNumber))
                  && (r.Ok? ==> r.value.next == SpanWhile(s, j + 1, IsDigit)
                                && r.value.table == table
                                && r.value.token == OperandToken(Real(fp.fromDigits(s[i..r.value.next])))))
  {
    var j := SpanWhile(s, i, IsDigit);
    if j == |s| || s[j] != '.' then
      Ok(Scanned(OperandToken(Integer(DecimalValue(s[i..j]))), j, table))
    else if j + 1 == |s| || !IsDigit(s[j + 1]) then
      Err(LexError(j + 1, MalformedNumber))
    else
      var k := SpanWhile(s, j + 1, IsDigit);
      Ok(Scanned(OperandToken(Real(fp.fromDigits(s[i..k]))), k, table))
  }

  /** The Integer a run of decimal digits denotes. */
  function DecimalValue(ds: string): (v: int)
    requires forall k | 0 <= k < |ds| :: IsDigit(ds[k])
    ensures AllDigits(10, ds) && v == Positional(10, ds)
  {
    assert AllDigits(10, ds);
    ShiftAndAddIsPositional(10, ds);
    ShiftAndAdd(10, ds)
  }

  /** Adding a new name under identity |t| adds exactly one entry and keeps the
      identities distinct and in range. */
  lemma AddVariable(t: SymbolTable, name: string)
    requires name !in t
    ensures |t[name := |t|]| == |t| + 1
    ensures Extends(t[name := |t|], t)
    ensures |t| in t[name := |t|].Values
    ensures WellFormedTable(t) ==> WellFormedTable(t[name := |t|])
  {
    assert t[name := |t|].Keys == t.Keys + {name};
    assert t[name := |t|][name] == |t|;
  }

  /** cpp_int's string constructor, which tokenizer.cpp:157 applies to the digit run:
      a leading '0' selects radix 8, and a digit 8 or 9 after it makes the constructor
      throw. This is the literal reading as written; the model uses DecimalValue. */
  function CppIntFromDigits(ds: string): (r: Option<int>)
    requires |ds| > 0 && forall k | 0 <= k < |ds| :: IsDigit(ds[k])
    ensures ds[0] != '0' ==> r == Some(DecimalValue(ds))
    ensures ds[0] == '0' ==> (r.Some? <==> AllDigits(8, ds))
    ensures r.Some? && ds[0] == '0' ==> r.value == Positional(8, ds)
  {
    if ds[0] != '0' then Some(DecimalValue(ds))
    else if AllDigits(8, ds) then
      ShiftAndAddIsPositional(8, ds);
      Some(ShiftAndAdd(8, ds))
    else None
  }

  /** The literal "010" is read as eight rather than ten, and "09" is rejected. */
  lemma LeadingZeroReadsAsOctal()
    ensures CppIntFromDigits("010") == Some(8)
    ensures DecimalValue("010") == 10
    ensures CppIntFromDigits("09").None?
  {
    assert "010"[1..] == "10" && "10"[1..] == "0" && "0"[1..] == [];
    assert !IsDigit('9') || DigitValue('9') >= 8;
  }

  /** Leading zeros do not change the value of a decimal literal. */
  lemma {:induction false} DecimalIgnoresLeadingZero(ds: string)
    requires forall k | 0 <= k < |ds| :: IsDigit(ds[k])
    ensures DecimalValue("0" + ds) == DecimalValue(ds)
  {
    assert ("0" + ds)[1..] == ds;
  }

  /** _get_identifier: the maximal alphanumeric run, resolved as a keyword, then as an
      existing variable, then as a new variable. */
  function ScanIdentifier(fp: FloatOps, s: string, i: nat, table: SymbolTable): (r: Scanned)
    requires i < |s| && IsAlpha(s[i])
    ensures i < r.next <= |s|
    ensures forall k | i <= k < r.next :: IsAlnum(s[k])
    ensures r.next == |s| || !IsAlnum(s[r.next])
    ensures Extends(r.table, table) && |r.table| <= |table| + 1
    ensures WellFormedTable(table) ==> WellFormedTable(r.table)
    ensures Keyword(fp, s[i..r.next]).None? && s[i..r.next] !in table ==>
              r.table == table[s[i..r.next] := |table|]
    ensures Keyword(fp, s[i..r.next]).Some? || s[i..r.next] in table ==> r.table == table
    ensures IsVariableToken(r.token) ==> r.token.operand.id in r.table.Values
    ensures Keyword(fp, s[i..r.next]).Some? ==> r.token == Keyword(fp, s[i..r.next]).value
    ensures Keyword(fp, s[i..r.next]).None? ==>
              s[i..r.next] in r.table && r.token == OperandToken(Variable(r.table[s[i..r.next]]))
  {
    var j := SpanWhile(s, i, IsAlnum);
    var name := s[i..j];
    match Keyword(fp, name)
    case Some(t) => Scanned(t, j, table)
    case None =>
      if name in table then
        assert table[name] in table.Values;
        Scanned(OperandToken(Variable(table[name])), j, table)
      else
        AddVariable(table, name);
        Scanned(OperandToken(Variable(|table|)), j, table[name := |table|])
  }

  /** The characters that begin an operator or structural token. */
  predicate IsOperatorChar(c: char) {
    c in "*/%(),<>!=+-"
  }

  /** The character after offset i, or a blank past the end of the text. */
  function Peek(s: string, i: nat): char {
    if i + 1 < |s| then s[i + 1] else ' '
  }

  /** The operator and structural rules: two-character operators are tried before
      the one-character ones, then `!`, `=` and the signs. */
  function ScanOperator(s: string, i: nat, prev: PrevCategory): (r: Result<(Token, nat), LexError>)
    requires i < |s| && IsOperatorChar(s[i])
    ensures r.Ok? ==> r.value.1 == i + 1 || (r.value.1 == i + 2 && i + 1 < |s|)
    ensures r.Err? ==> r.error == LexError(i, MisplacedFactorial)
    // two-character operators take priority over their one-character prefixes
    ensures s[i] == '<' && Peek(s, i) == '=' ==> r == Ok((OperatorToken(LAssoc(LessEqual)), i + 2))
    ensures s[i] == '>' && Peek(s, i) == '=' ==> r == Ok((OperatorToken(LAssoc(GreaterEqual)), i + 2))
    ensures s[i] == '=' && Peek(s, i) == '=' ==> r == Ok((OperatorToken(LAssoc(Equality)), i + 2))
    ensures s[i] == '!' && Peek(s, i) == '=' ==> r == Ok((OperatorToken(LAssoc(Inequality)), i + 2))
    ensures s[i] == '*' && Peek(s, i) == '*' ==> r == Ok((OperatorToken(RAssoc(Power)), i + 2))
    // an "=" not followed by "=" is an assignment
    ensures s[i] == '=' && Peek(s, i) != '=' ==> r == Ok((OperatorToken(RAssoc(Assignment)), i + 1))
    // factorial only after an expression
    ensures s[i] == '!' && Peek(s, i) != '=' ==>
              if EndsExpression(prev) then r == Ok((OperatorToken(Postfix(Factorial)), i + 1))
              else r.Err?
    // context-sensitive signs
    ensures s[i] == '+' ==>
              r == Ok((OperatorToken(if EndsExpression(prev) then LAssoc(Addition) else Unary(Identity)), i + 1))
    ensures s[i] == '-' ==>
              r == Ok((OperatorToken(if EndsExpression(prev) then LAssoc(Subtraction) else Unary(Negation)), i + 1))
    // the one-character operators and the structural tokens
    ensures s[i] == '*' && Peek(s, i) != '*' ==> r == Ok((OperatorToken(LAssoc(Multiplication)), i + 1))
    ensures s[i] == '/' ==> r == Ok((OperatorToken(LAssoc(Division)), i + 1))
    ensures s[i] == '%' ==> r == Ok((OperatorToken(LAssoc(Modulus)), i + 1))
    ensures s[i] == '<' && Peek(s, i) != '=' ==> r == Ok((OperatorToken(LAssoc(Less)), i + 1))
    ensures s[i] == '>' && Peek(s, i) != '=' ==> r == Ok((OperatorToken(LAssoc(Greater)), i + 1))
    ensures s[i] == '(' ==> r == Ok((LeftParenthesis, i + 1))
    ensures s[i] == ')' ==> r == Ok((RightParenthesis, i + 1))
    ensures s[i] == ',' ==> r == Ok((ArgumentSeparator, i + 1))
  {
    var c, c2 := s[i], Peek(s, i);
    if c == '<' && c2 == '=' then Ok((OperatorToken(LAssoc(LessEqual)), i + 2))
    else if c == '>' && c2 == '=' then Ok((OperatorToken(LAssoc(GreaterEqual)), i + 2))
    else if c == '=' && c2 == '=' then Ok((OperatorToken(LAssoc(Equality)), i + 2))
    else if c == '!' && c2 == '=' then Ok((OperatorToken(LAssoc(Inequality)), i + 2))
    else if c == '*' && c2 == '*' then Ok((OperatorToken(RAssoc(Power)), i + 2))
    else if c == '*' then Ok((OperatorToken(LAssoc(Multiplication)), i + 1))
    else if c == '/' then Ok((OperatorToken(LAssoc(Division)), i + 1))
    else if c == '%' then Ok((OperatorToken(LAssoc(Modulus)), i + 1))
    else if c == '(' then Ok((LeftParenthesis, i + 1))
    else if c == ')' then Ok((RightParenthesis, i + 1))
    else if c == ',' then Ok((ArgumentSeparator, i + 1))
    else if c == '<' then Ok((OperatorToken(LAssoc(Less)), i + 1))
    else if c == '>' then Ok((OperatorToken(LAssoc(Greater)), i + 1))
    else if c == '!' then
      if EndsExpression(prev) then Ok((OperatorToken(Postfix(Factorial)), i + 1))
      else Err(LexError(i, MisplacedFactorial))
    else if c == '=' then Ok((OperatorToken(RAssoc(Assignment)), i + 1))
    else if c == '+' then
      Ok((OperatorToken(if EndsExpression(prev) then LAssoc(Addition) else Unary(Identity)), i + 1))
    else
      Ok((OperatorToken(if EndsExpression(prev) then LAssoc(Subtraction) else Unary(Negation)), i + 1))
  }

  /** The written form of a token that has one made of operator characters; "" for
      operands, functions and the operators spelled only by a keyword. */
  function Symbol(t: Token): string {
    match t
    case LeftParenthesis => "("
    case RightParenthesis => ")"
    case ArgumentSeparator => ","
    case OperatorToken(op) =>
      (match op
       case RAssoc(Power) => "**"
       case RAssoc(Assignment) => "="
       case LAssoc(Addition) => "+"
       case LAssoc(Subtraction) => "-"
       case LAssoc(Multiplication) => "*"
       case LAssoc(Division) => "/"
       case LAssoc(Modulus) => "%"
       case LAssoc(Equality) => "=="
       case LAssoc(Inequality) => "!="
       case LAssoc(Less) => "<"
       case LAssoc(LessEqual) => "<="
       case LAssoc(Greater) => ">"
       case LAssoc(GreaterEqual) => ">="
       case LAssoc(_) => ""
       case Unary(Identity) => "+"
       case Unary(Negation) => "-"
       case Unary(Not) => ""
       case Postfix(Factorial) => "!")
    case _ => ""
  }

  /** The context in which a symbol denotes t: after an operand for the binary and
      postfix operators, at the start otherwise. */
  function SymbolContext(t: Token): PrevCategory {
    if t.OperatorToken? && (t.op.RAssoc? || t.op.LAssoc? || t.op.Postfix?) then AfterOperand else AtStart
  }

  /** Every operator scan consumes exactly the written form of the token it yields. */
  lemma ScanOperatorSpellsSymbol(s: string, i: nat, prev: PrevCategory)
    requires i < |s| && IsOperatorChar(s[i])
    ensures var r := ScanOperator(s, i, prev);
            r.Ok? ==> i < r.value.1 <= |s| && Symbol(r.value.0) == s[i..r.value.1]
  {
    var r := ScanOperator(s, i, prev);
    if r.Ok? {
      if r.value.1 == i + 2 {
        TwoCharacterSymbol(s, i, prev);
        assert s[i..i + 2] == [s[i], Peek(s, i)];
      } else {
        if s[i] in "*/%(),<>" {
          PlainSymbol(s, i, prev);
        } else {
          ContextSymbol(s, i, prev);
        }
        assert s[i..i + 1] == [s[i]];
      }
    }
  }

  lemma TwoCharacterSymbol(s: string, i: nat, prev: PrevCategory)
    requires i < |s| && IsOperatorChar(s[i])
    requires ScanOperator(s, i, prev).Ok? && ScanOperator(s, i, prev).value.1 == i + 2
    ensures Symbol(ScanOperator(s, i, prev).value.0) == [s[i], Peek(s, i)]
  {
  }

  lemma PlainSymbol(s: string, i: nat, prev: PrevCategory)
    requires i < |s| && s[i] in "*/%(),<>"
    requires ScanOperator(s, i, prev).Ok? && ScanOperator(s, i, prev).value.1 == i + 1
    ensures Symbol(ScanOperator(s, i, prev).value.0) == [s[i]]
  {
  }

  lemma ContextSymbol(s: string, i: nat, prev: PrevCategory)
    requires i < |s| && s[i] in "!=+-"
    requires ScanOperator(s, i, prev).Ok? && ScanOperator(s, i, prev).value.1 == i + 1
    ensures Symbol(ScanOperator(s, i, prev).value.0) == [s[i]]
  {
  }

  /** Conversely, the written form of every token that has one scans back to that
      token, consuming all of it. */
  lemma ScanOperatorReadsSymbol(t: Token)
    requires Symbol(t) != ""
    ensures IsOperatorChar(Symbol(t)[0])
    ensures ScanOperator(Symbol(t), 0, SymbolContext(t)) == Ok((t, |Symbol(t)|))
  {
    var w := Symbol(t);
    assert Peek(w, 0) == if |w| == 2 then w[1] else ' ';
    if t.OperatorToken? {
      match t.op {
        case RAssoc(_) =>
        case LAssoc(_) =>
        case Unary(_) =>
        case Postfix(p) =>
          assert p == Factorial && w == "!" && EndsExpression(SymbolContext(t));
      }
    }
  }

  /** An identifier token; a function name must be followed, after blanks, by "(".
      The reported offset is that of the first non-blank character after the name. */
  function ScanName(fp: FloatOps, s: string, i: nat, table: SymbolTable): (r: Result<Scanned, LexError>)
    requires i < |s| && IsAlpha(s[i])
    ensures r.Ok? ==> r == Ok(ScanIdentifier(fp, s, i, table))
    ensures r.Ok? && r.value.token.FunctionToken? ==>
              var after := SpanWhile(s, r.value.next, IsSpace);
              after < |s| && s[after] == '('
    ensures r.Err? <==> ScanIdentifier(fp, s, i, table).token.FunctionToken?
                        && var after := SpanWhile(s, ScanIdentifier(fp, s, i, table).next, IsSpace);
                           after == |s| || s[after] != '('
    ensures r.Err? ==> r.error.kind == FunctionWithoutParenthesis && i < r.error.offset <= |s|
    ensures r.Err? ==> r.error.offset == SpanWhile(s, ScanIdentifier(fp, s, i, table).next, IsSpace)
    ensures r.Err? ==> forall k | ScanIdentifier(fp, s, i, table).next <= k < r.error.offset :: IsSpace(s[k])
  {
    var id := ScanIdentifier(fp, s, i, table);
    var after := SpanWhile(s, id.next, IsSpace);
    if id.token.FunctionToken? && (after == |s| || s[after] != '(')
    then Err(LexError(after, FunctionWithoutParenthesis))
    else Ok(id)
  }

  /** Scans the token that starts at offset i, a non-space character: a number, an
      operator or structural token, or an identifier; any other character is bad. */
  function ScanToken(fp: FloatOps, s: string, i: nat, prev: PrevCategory, table: SymbolTable)
    : (r: Result<Scanned, LexError>)
    requires i < |s| && !IsSpace(s[i])
    ensures r.Ok? ==> i < r.value.next <= |s|
    ensures r.Ok? ==> Extends(r.value.table, table) && |r.value.table| <= |table| + 1
    ensures r.Ok? && WellFormedTable(table) ==> WellFormedTable(r.value.table)
    ensures r.Ok? && !IsAlpha(s[i]) ==> r.value.table == table
    ensures r.Ok? && IsVariableToken(r.value.token) ==> r.value.token.operand.id in r.value.table.Values
    ensures r.Err? ==> i <= r.error.offset <= |s|
    ensures IsDigit(s[i]) ==> r == ScanNumber(fp, s, i, table)
    ensures IsOperatorChar(s[i]) ==>
              match ScanOperator(s, i, prev)
              case Ok((t, j)) => r == Ok(Scanned(t, j, table))
              case Err(e) => r == Err(e)
    ensures IsAlpha(s[i]) ==> r == ScanName(fp, s, i, table)
    ensures !IsDigit(s[i]) && !IsAlpha(s[i]) && !IsOperatorChar(s[i]) ==> r == Err(LexError(i, BadCharacter))
  {
    if IsDigit(s[i]) then ScanNumber(fp, s, i, table)
    else if IsOperatorChar(s[i]) then
      match ScanOperator(s, i, prev)
      case Ok((t, j)) => Ok(Scanned(t, j, table))
      case Err(e) => Err(e)
    else if IsAlpha(s[i]) then ScanName(fp, s, i, table)
    else Err(LexError(i, BadCharacter))
  }

  // ---------------------------------------------------------------------------
  // Tokenizing a whole expression
  // ---------------------------------------------------------------------------

  /** The tokenize loop from offset i on, with `acc` already emitted. The symbol table
      is returned even when scanning fails: variables created before the failing
      character stay in the dictionary. */
  function Scan(fp: FloatOps, s: string, i: nat, prev: PrevCategory, table: SymbolTable, acc: seq<Token>)
    : (r: (Result<seq<Token>, LexError>, SymbolTable))
    requires i <= |s|
    ensures Extends(r.1, table)
    ensures WellFormedTable(table) ==> WellFormedTable(r.1)
    ensures r.0.Ok? ==> |r.0.value| >= |acc| && r.0.value[..|acc|] == acc
    ensures r.0.Ok? && VariablesIn(acc, table) ==> VariablesIn(r.0.value, r.1)
    ensures r.0.Err? ==> i <= r.0.error.offset <= |s|
    decreases |s| - i
  {
    var j := SpanWhile(s, i, IsSpace);
    if j == |s| then (Ok(acc), table)
    else
      match ScanToken(fp, s, j, prev, table)
      case Err(e) => (Err(e), table)
      case Ok(sc) =>
        var r := Scan(fp, s, sc.next, Classify(sc.token), sc.table, acc + [sc.token]);
        assert (acc + [sc.token])[..|acc|] == acc;
        assert VariablesIn(acc, table) ==> VariablesIn(acc + [sc.token], sc.table) by {
          if VariablesIn(acc, table) {
            forall k | 0 <= k < |acc| && IsVariableToken(acc[k])
              ensures acc[k].operand.id in sc.table.Values
            {
              var n :| n in table && table[n] == acc[k].operand.id;
              assert sc.table[n] == acc[k].operand.id;
            }
          }
        }
        r
  }

  /** Tokenizer::tokenize: the tokens of s, and the symbol table with every new
      identifier of s added. */
  function Tokenize(fp: FloatOps, s: string, table: SymbolTable): (r: (Result<seq<Token>, LexError>, SymbolTable))
    ensures Extends(r.1, table)
    ensures WellFormedTable(table) ==> WellFormedTable(r.1)
    ensures r.0.Err? ==> r.0.error.offset <= |s|
    ensures r.0.Ok? ==> VariablesIn(r.0.value, r.1)
  {
    Scan(fp, s, 0, AtStart, table, [])
  }

  /** A run that satisfies p all the way reaches the end of the text. */
  lemma {:induction false} SpanToEnd(s: string, i: nat, p: char -> bool)
    requires i <= |s|
    requires forall k | i <= k < |s| :: p(s[k])
    ensures SpanWhile(s, i, p) == |s|
    decreases |s| - i
  {
    if i < |s| {
      SpanToEnd(s, i + 1, p);
    }
  }

  /** Blank text, the empty text included, has no tokens and adds no variable. */
  lemma BlankTextHasNoTokens(fp: FloatOps, s: string, table: SymbolTable)
    requires forall k | 0 <= k < |s| :: IsSpace(s[k])
    ensures Tokenize(fp, s, table) == (Ok([]), table)
  {
    SpanToEnd(s, 0, IsSpace);
  }

  /** Blanks between tokens are skipped: the scan from a blank is the scan from the
      character after it. */
  lemma BlankSkipped(fp: FloatOps, s: string, i: nat, prev: PrevCategory, table: SymbolTable, acc: seq<Token>)
    requires i < |s| && IsSpace(s[i])
    ensures Scan(fp, s, i, prev, table, acc) == Scan(fp, s, i + 1, prev, table, acc)
  {
    assert SpanWhile(s, i, IsSpace) == SpanWhile(s, i + 1, IsSpace);
  }

  /** A token scanned against a table that already holds its name (with the same
      identity) comes out the same and leaves that table alone. */
  lemma ScanTokenStable(fp: FloatOps, s: string, i: nat, prev: PrevCategory, table: SymbolTable, sc: Scanned, final: SymbolTable)
    requires i < |s| && !IsSpace(s[i])
    requires ScanToken(fp, s, i, prev, table) == Ok(sc)
    requires Extends(final, sc.table)
    ensures ScanToken(fp, s, i, prev, final) == Ok(Scanned(sc.token, sc.next, final))
  {
    if IsAlpha(s[i]) {
      IdentifierStable(fp, s, i, table, final);
    }
  }

  /** An identifier scanned against an extension of the table it produced comes out the
      same and leaves that extension alone. */
  lemma IdentifierStable(fp: FloatOps, s: string, i: nat, table: SymbolTable, final: SymbolTable)
    requires i < |s| && IsAlpha(s[i])
    requires Extends(final, ScanIdentifier(fp, s, i, table).table)
    ensures var sc := ScanIdentifier(fp, s, i, table);
            ScanIdentifier(fp, s, i, final) == Scanned(sc.token, sc.next, final)
  {
    var sc := ScanIdentifier(fp, s, i, table);
    var id := ScanIdentifier(fp, s, i, final);
    assert id.next == sc.next;
    var name := s[i..sc.next];
    if Keyword(fp, name).None? {
      assert name in sc.table;
      assert id.token == sc.token;
    }
  }

  lemma ExtendsTransitive(t3: SymbolTable, t2: SymbolTable, t1: SymbolTable)
    requires Extends(t3, t2) && Extends(t2, t1)
    ensures Extends(t3, t1)
  {
  }

  lemma {:induction false} ScanStable(fp: FloatOps, s: string, i: nat, prev: PrevCategory, table: SymbolTable, acc: seq<Token>, final: SymbolTable)
    requires i <= |s|
    requires Scan(fp, s, i, prev, table, acc).0.Ok?
    requires Extends(final, Scan(fp, s, i, prev, table, acc).1)
    ensures Scan(fp, s, i, prev, final, acc) == (Scan(fp, s, i, prev, table, acc).0, final)
    decreases |s| - i
  {
    var j := SpanWhile(s, i, IsSpace);
    if j < |s| {
      var sc := ScanToken(fp, s, j, prev, table).value;
      var rest := Scan(fp, s, sc.next, Classify(sc.token), sc.table, acc + [sc.token]);
      ExtendsTransitive(final, rest.1, sc.table);
      ScanTokenStable(fp, s, j, prev, table, sc, final);
      ScanStable(fp, s, sc.next, Classify(sc.token), sc.table, acc + [sc.token], final);
    }
  }

  /** Tokenizing the same text a second time with the same tokenizer yields the same
      tokens, so the same names denote the same Variables, and adds no variable. */
  lemma TokenizeTwiceIsStable(fp: FloatOps, s: string, table: SymbolTable)
    requires Tokenize(fp, s, table).0.Ok?
    ensures Tokenize(fp, s, Tokenize(fp, s, table).1) == Tokenize(fp, s, table)
  {
    ScanStable(fp, s, 0, AtStart, table, [], Tokenize(fp, s, table).1);
  }
}

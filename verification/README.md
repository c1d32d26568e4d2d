# ExpressionEval core in Dafny

This project models the three stages of the ExpressionEval expression pipeline:

- **Tokenizer.** It scans the text of an infix expression into tokens. The meaning of `+`, `-` and `!` depends on the previous token. It reads `0b` binary literals, decimal Integers and Reals. It resolves each identifier to a keyword, an existing variable or a new variable.
- **Parser.** It converts the token list to postfix (RPN) with the shunting-yard algorithm. It uses a numeric precedence table, makes `**` and `=` right-associative, and emits a function token when its `)` closes. A mismatched parenthesis gives one of two errors.
- **RPN evaluator.** It runs the postfix list on a stack machine. Values are Integer, Real or Boolean, and a Real on either side promotes the other operand. It implements assignment into variable cells and the rule that exactly one operand must remain.

The closed token class hierarchy is one Dafny datatype per level:

- `Operator` → `BinaryOperator` {`RAssocOperator`, `LAssocOperator`}, and `NonAssociative` {`UnaryOperator`, `PostfixOperator`};
- `Function` → {`OneArgFunction`, `TwoArgFunction`};
- `Operand`;
- the structural tokens.

The `is<Class>` queries become predicates.

Conventions of the model:

- **Integers.** `Integer` values are Dafny `int`, like cpp_int they are unbounded. Integer `/` and `%` truncate toward zero and are written out (`Integers.TruncDiv`, `Integers.TruncMod`).
- **Reals.** A `Real` value has an opaque type `Float`. Every floating-point operation is a field of a `FloatOps` record passed in as a parameter, so the model proves only which kind of value each operation produces.
- **Variables.** A Variable is an identity (`VarId`), not a shared pointer.
  - The tokenizer's variable dictionary is a `map<string, VarId>`, and a new name gets the next identity.
  - The evaluator threads the variable cells as a `map<VarId, Value>`. An identity absent from that map is an unset Variable.
- **Side effects survive failures.** In the C++ code both the dictionary and the cells are updated in place, and the updates survive a later exception. So `Tokenize` and `Evaluate` return the updated table or cells together with the result, on failure too.

The modules are:

| module | file | contents |
|---|---|---|
| `Wrappers` | `wrappers.dfy` | Option and Result |
| `Tokens` | `tokens.dfy` | operator.hpp: the taxonomy, the `Precedence` enumeration, functions and operands |
| `Integers` | `integers.dfy` | digit strings, powers, factorials, truncating division |
| `Tokenizer` | `tokenizer.dfy` | tokenizer.cpp |
| `Parser` | `parser.dfy` | parser.cpp |
| `Evaluator` | `evaluator.dfy` | RPNEvaluator.cpp |
| `TokenizerExamples` | `tokenizer_examples.dfy` | worked tokenizer runs |
| `Pipeline` | `examples_pipeline.dfy` | worked parser and evaluator runs |

The Boolean operators are evaluated with C++'s `&&` and `||` (RPNEvaluator.cpp), which short-circuit: the right operand is only read when the left one does not decide the result. So `false and 5` yields false, while `5 and false` fails because 5 is not a Boolean. The model follows the code (`Evaluator.Logical`, `Evaluator.LogicalShortCircuit`).

Prefix operators are not right-associative in the parser's table. So two prefix operators in a row pop each other, and `--3` becomes the postfix `- 3 -`, which fails for lack of operands. The model reproduces this (`Pipeline.DoubleNegation`).

## Model

| member | source | states |
|---|---|---|
| Tokens.PrecedenceIsStrictlyOrdered | common/inc/ee/operator.hpp:93-97 | The Precedence enumerators have pairwise distinct values. Every level other than MIN and MAX lies strictly between them. |
| Tokens.AssociativityClasses | common/inc/ee/operator.hpp:103-193 | Power and Assignment are exactly the RAssocOperator leaves. Every other binary operator is an LAssocOperator. An operator is NonAssociative exactly when it is not binary. |
| Tokens.UnaryAndPostfixClasses | common/inc/ee/operator.hpp:197-220 | Factorial is the only PostfixOperator, and it is also a UnaryOperator. Identity, Negation and Not are exactly the unary operators that are not postfix. Every unary operator is non-associative and not binary. |
| Integers.ShiftAndAddIsPositional | common/src/tokenizer.cpp:224-229 | Reading digits left to right by shift-and-add, as the binary-literal loop does, yields their positional value: the sum of d_k * radix^(n-1-k). |
| Integers.TruncDivModIdentity | common/src/RPNEvaluator.cpp:194-204 | cpp_int's quotient and remainder recombine into the dividend. The remainder is smaller than the divisor in magnitude and is zero or has the dividend's sign. The quotient's magnitude times the divisor's magnitude does not exceed the dividend's magnitude. |
| Tokenizer.SpanWhile | common/src/tokenizer.cpp:207-209 | A scanning loop stops at the end of the maximal run: every character it passes satisfies the test, and the character it stops at, if any, does not. |
| Tokenizer.KeywordCaseVariants | common/src/tokenizer.cpp:76-108 | Every dictionary entry is found under its lower-case, capitalised and upper-case spellings, and all three denote the same token. |
| Tokenizer.KeywordSpellings | common/src/tokenizer.cpp:76-108 | A name is a keyword only if it is the lower-case, capitalised or upper-case spelling of a dictionary entry, and then it denotes that entry. Together with KeywordCaseVariants, exactly those three spellings are registered. |
| Tokenizer.KeywordMixedCase | common/src/tokenizer.cpp:100 | An instance: "sIn" is not a keyword, while "Sin" is the sine function. |
| Tokenizer.ScanNumber | common/src/tokenizer.cpp:214-240 | A token that starts with a digit is an Integer or a Real operand. It never changes the variable table and fails only as a malformed number past its first character. "0b"/"0B" selects the binary reading; anything else selects the decimal one. |
| Tokenizer.ScanBinary | common/src/tokenizer.cpp:217-233 | A binary literal succeeds exactly when a bit follows the prefix; otherwise it fails at the offset after the prefix. It consumes the maximal run of bits and yields the Integer whose value is the binary number they spell. |
| Tokenizer.ScanDecimal | common/src/tokenizer.cpp:147-167 | Without a following "." the maximal digit run is an Integer of its decimal value, which is the corrected reading of line 157 (see Findings). With a "." it is a Real exactly when a digit follows the "." (the maximal run of them is consumed); otherwise it fails at the offset after the ".". |
| Tokenizer.DecimalValue | common/src/tokenizer.cpp:157 | The Integer a digit run denotes is its positional base-10 value. This is the corrected reading (see Findings). |
| Tokenizer.AddVariable | common/src/tokenizer.cpp:133-136 | Adding a new name adds exactly one entry under the identity equal to the old size. Every existing binding is kept, and identities stay distinct and below the table's size. |
| Tokenizer.CppIntFromDigits | common/src/tokenizer.cpp:157 | As written, a digit run that does not start with 0 has its decimal value. One that starts with 0 is accepted only when every digit is octal, and then it has its base-8 value. |
| Tokenizer.LeadingZeroReadsAsOctal | common/src/tokenizer.cpp:157 | Under the as-written reading, "010" is 8 while its decimal value is 10, and "09" is rejected. |
| Tokenizer.DecimalIgnoresLeadingZero | common/src/tokenizer.cpp:157 | Under the corrected reading, a leading zero does not change the value of a digit run. |
| Tokenizer.ScanIdentifier | common/src/tokenizer.cpp:116-137 | An identifier is the maximal alphanumeric run. A keyword spelling yields the keyword's token and leaves the table alone. Otherwise a known name yields its existing Variable and leaves the table alone. Otherwise the name is added under a fresh identity and yields that Variable. |
| Tokenizer.ScanOperator | common/src/tokenizer.cpp:243-322 | "<=", ">=", "==", "!=" and "**" win over their one-character prefixes. "*", "/", "%", "<", ">" otherwise are Multiplication, Division, Modulus, Less and Greater; "(", ")" and "," are the structural tokens. A lone "=" is Assignment. "!" is Factorial after an operand, a postfix operator or ")", and otherwise an error at its offset. "+"/"-" are Addition/Subtraction exactly after an operand, a postfix operator or ")", and Identity/Negation otherwise. |
| Tokenizer.ScanOperatorSpellsSymbol | common/src/tokenizer.cpp:243-322 | Whatever the operator scan yields, the characters it consumed are exactly that token's written form in the independent table Symbol. |
| Tokenizer.ScanOperatorReadsSymbol | common/src/tokenizer.cpp:243-322 | Conversely, every token with a written form scans back from that text to itself, consuming all of it, in the context where it applies (after an operand for binary and postfix operators). |
| Tokenizer.ScanName | common/src/tokenizer.cpp:198-203 | A function name fails exactly when the next non-blank character is not "(" or there is none. The error offset is that of the first non-blank character after the name. Any other identifier is the identifier scan. |
| Tokenizer.ScanToken | common/src/tokenizer.cpp:213-336 | A digit starts a number, an operator character an operator or structural token, and a letter an identifier. Any other character is a bad character at its own offset. Only a letter can change the table, and by at most one entry. |
| Tokenizer.Scan | common/src/tokenizer.cpp:205-339 | The tokenize loop only extends the table, on failure too, so variables created before a bad character stay. It keeps the table well formed, every Variable it emits is one the table hands out, and an error offset lies within the text. |
| Tokenizer.Tokenize | common/src/tokenizer.cpp:176-340 | The resulting table extends the given one and stays well formed. Every Variable among the tokens is bound in it. An error offset lies within the text. |
| Tokenizer.BlankTextHasNoTokens | common/src/tokenizer.cpp:207-212 | Blank or empty text yields no tokens and leaves the table unchanged. |
| Tokenizer.BlankSkipped | common/src/tokenizer.cpp:207-209 | Scanning from a blank is scanning from the character after it. |
| Tokenizer.ScanTokenStable | common/src/tokenizer.cpp:128-131 | A token scanned again against a table that extends the one it produced comes out the same, and that table is left as it is. |
| Tokenizer.IdentifierStable | common/src/tokenizer.cpp:128-131 | A name looked up again in an extension of the table it produced denotes the same token and adds nothing. |
| Tokenizer.ScanStable | common/src/tokenizer.cpp:205-339 | A successful tokenize loop repeated against an extension of the table it produced yields the same tokens and leaves that table as it is. |
| Tokenizer.TokenizeTwiceIsStable | common/src/tokenizer.cpp:128-131 | Tokenizing the same text again with the same tokenizer yields the same tokens, so the same names denote the same Variables, and adds no variable. |
| TokenizerExamples.TokenizePrecedence | common/src/tokenizer.cpp:205-277 | "2+3*4" tokenizes to 2, Addition, 3, Multiplication, 4, and adds no variable. |
| TokenizerExamples.TokenizeSubtraction | common/src/tokenizer.cpp:312-322 | "1-2" tokenizes to 1, Subtraction, 2: after an operand "-" is binary. |
| TokenizerExamples.TokenizeNegation | common/src/tokenizer.cpp:312-322 | "-2" tokenizes to Negation, 2: at the start "-" is unary. |
| TokenizerExamples.TokenizeEquality | common/src/tokenizer.cpp:243-259 | "a==b" tokenizes to Variable 0, Equality, Variable 1, not to two Assignments, and the table binds a to 0 and b to 1. |
| TokenizerExamples.BadCharacterKeepsVariables | common/src/tokenizer.cpp:336 | "x+#" fails with a bad character at offset 2, and x stays in the table. |
| TokenizerExamples.FactorialAtStart | common/src/tokenizer.cpp:280-290 | "!1" fails with a misplaced factorial at offset 0. |
| TokenizerExamples.TokenizeBinary | common/src/tokenizer.cpp:217-233 | "0b101" tokenizes to the Integer 5. |
| TokenizerExamples.RealNeedsFraction | common/src/tokenizer.cpp:159-162 | "1." fails as a malformed number at offset 2. |
| TokenizerExamples.FunctionNeedsParenthesis | common/src/tokenizer.cpp:198-203 | "sin 1" fails at offset 4, the first character after the blanks. |
| Parser.RightAssociativityAgreesWithClasses | common/src/parser.cpp:62-64 | The parser's right-associative tokens are exactly the operators of the RAssocOperator class. |
| Parser.PrecedenceTableMatchesEnumeration | common/src/parser.cpp:47-60 | The parser's number equals the enumerator's value for the assignment, equality, relational, additive, multiplicative, unary, power and postfix levels. It is two more for the three logical levels. Both rank every pair of operators alike, and two operators share a number exactly when they share a level. |
| Parser.LevelShift | common/src/parser.cpp:47-60 | Every operator's number is its level's value shifted by the fixed table TableOf. No operator sits at MIN, MAX or a bitwise or bit-shift level. |
| Parser.MoveToOutput | common/src/parser.cpp:94-97 | Moving a top part of the stack that holds no "(" to the output, top first, keeps every token, keeps the operands' order and the number of "(" on the stack, and keeps the shape. |
| Parser.PopOperators | common/src/parser.cpp:111-124 | An operator pops a top part of the stack to the output, top first. Every popped entry is an operator that binds tighter, or equally tightly when the incoming operator is left-associative. The entry left on top, if any, is not such an operator. |
| Parser.PopToLeftParenthesis | common/src/parser.cpp:80-97 | "," and ")" pop the largest top part of the stack without a "(" to the output, top first. Afterwards the stack is empty or has a "(" on top. |
| Parser.CloseEmitsFunction | common/src/parser.cpp:93-107 | For every stack whose topmost "(" is at position k, a ")" moves the operators above it to the output top first and drops the "(". A function directly under that "(" is emitted right after them; otherwise the stack keeps everything below the "(". |
| Parser.StepFails | common/src/parser.cpp:93-102 | A step fails exactly on a ")" when the stack holds no "(", counted independently by Depth; the only parser error a step raises is NoMatchingLeftParenthesis. |
| Parser.Drain | common/src/parser.cpp:128-133 | The final loop fails with "missing right parenthesis" exactly when a "(" is left on the stack. Otherwise the result is the output followed by the stack, top first. |
| Parser.StepInvariant | common/src/parser.cpp:68-124 | Every step keeps structural tokens out of the output and keeps every non-structural token on the output or the stack. It appends an operand right after the operands already output, and changes the number of "(" on the stack by +1 for "(", -1 for ")" and 0 otherwise. |
| Parser.RunKeeps | common/src/parser.cpp:67-125 | The main loop keeps, over all the tokens it consumes, what every step keeps. |
| Parser.RunParentheses | common/src/parser.cpp:93-100 | The main loop fails exactly when some prefix of the input closes more parentheses than it opens, and then always with "no matching left parenthesis". |
| Parser.ParseIsPermutation | common/src/parser.cpp:67-135 | On success the postfix output holds no parenthesis or separator. It is a permutation of the input's other tokens, and keeps the operands in their input order. |
| Parser.ParseParentheses | common/src/parser.cpp:93-133 | Parsing fails with "no matching left parenthesis" exactly when some prefix closes more parentheses than it opens. Otherwise it fails with "missing right parenthesis" exactly when more are opened than closed. Otherwise it succeeds. |
| Evaluator.ToValue | common/src/RPNEvaluator.cpp:56-67 | Resolving an operand fails exactly on an unset Variable, with "variable not initialized". |
| Evaluator.ValueRoundTrip | common/src/RPNEvaluator.cpp:56-75 | A value made into an operand and resolved again is the same value. A literal operand resolved and made into an operand again is itself. |
| Evaluator.Promote | common/src/RPNEvaluator.cpp:77-87 | Both promoted values are Reals exactly when either input is a Real; otherwise both are returned unchanged. |
| Evaluator.PromoteConverts | common/src/RPNEvaluator.cpp:79-84 | Beside a Real, a Boolean becomes the Real of 0 or 1 and an Integer the Real of its value, on either side; a Real stays as it is. |
| Evaluator.PromoteIdempotent | common/src/RPNEvaluator.cpp:77-87 | Promoting twice is promoting once. |
| Evaluator.GetReal | common/src/RPNEvaluator.cpp:262 | A function argument is read as a Real exactly when it is a number; a Boolean is the wrong alternative. |
| Evaluator.PowerLoop | common/src/RPNEvaluator.cpp:209-214 | The Integer power loop computes base^exp for a non-negative exponent and 1 for any exponent at or below zero. |
| Evaluator.FactorialLoop | common/src/RPNEvaluator.cpp:111-113 | The factorial loop computes n! = 1 * 2 * ... * n for n at least zero, with 0! = 1. |
| Evaluator.Arithmetic | common/src/RPNEvaluator.cpp:173-193 | `+`, `-` and `*` succeed exactly when the promoted values are Reals or both Integers. The result is a Real exactly when they are Reals, and is never a Boolean. On Integers it is the exact sum, difference or product. |
| Evaluator.Relational | common/src/RPNEvaluator.cpp:220-247 | The relational operators succeed exactly when the promoted values are Reals or both Integers, and yield a Boolean. `a > b` is decided as `b < a` and `a >= b` as `b <= a`, on Integers and on Reals alike. |
| Evaluator.Logical | common/src/RPNEvaluator.cpp:248-253 | The logical operators fail when the left value is not a Boolean, succeed on two Booleans, and yield a Boolean. |
| Evaluator.ExecBinary | common/src/RPNEvaluator.cpp:150-165 | A binary operator replaces the two top operands by one and leaves the rest of the stack alone. Only Assignment changes the cells. |
| Evaluator.ExecUnary | common/src/RPNEvaluator.cpp:100-146 | A unary or postfix operator replaces the top operand by one, leaves the rest of the stack alone and does not change the cells. |
| Evaluator.ExecOneArg | common/src/RPNEvaluator.cpp:256-285 | A one-argument function replaces the top operand by one, leaves the rest of the stack alone and does not change the cells. |
| Evaluator.ExecTwoArg | common/src/RPNEvaluator.cpp:287-300 | A two-argument function replaces the two top operands by one, leaves the rest of the stack alone and does not change the cells. |
| Evaluator.Exec | common/src/RPNEvaluator.cpp:91-301 | A step fails with "insufficient operands" exactly when the stack holds fewer operands than the token needs: one for unary and postfix operators and one-argument functions, two for binary operators and two-argument functions. On success the depth changes by what the token pushes minus what it pops, the stack below is untouched, and only Assignment changes the cells. |
| Evaluator.Finish | common/src/RPNEvaluator.cpp:304-308 | The final check succeeds exactly when one operand remains, and that operand is the result. An empty stack gives "insufficient operands" and more than one operand gives "too many operands". |
| Evaluator.FactorialStep | common/src/RPNEvaluator.cpp:100-128 | Factorial is handled before the other unary operators. On a non-negative Integer it pushes n!, and on anything else it fails, where Identity would push the operand back. |
| Evaluator.NegationStep | common/src/RPNEvaluator.cpp:129-137 | Negation keeps an Integer an Integer and a Real a Real, negated, and rejects a Boolean; a Variable is resolved through its cell. |
| Evaluator.NotStep | common/src/RPNEvaluator.cpp:138-145 | Not complements a Boolean and rejects a number; a Variable is resolved through its cell. |
| Evaluator.AssignmentStep | common/src/RPNEvaluator.cpp:153-165 | Both sides are resolved before the target is checked, so an unset target fails as an uninitialized read. A literal target fails as an assignment to a non-variable. Otherwise the target's cell takes the right value, the Variable itself is pushed, and reading it back gives that value. |
| Evaluator.PowerResults | common/src/RPNEvaluator.cpp:205-217 | Integer `**` is repeated multiplication, so an exponent at or below zero gives 1. A Real on the left gives a Real. A Boolean without a Real fails. |
| Evaluator.EqualityResults | common/src/RPNEvaluator.cpp:218-219 | Equality and inequality never fail and are each other's negation. Integers and Booleans compare by value, and values of different kinds are unequal. |
| Evaluator.LogicalTruthTables | common/src/RPNEvaluator.cpp:248-253 | On two Booleans, and, or, xor, nand, nor and xnor are the usual truth functions. |
| Evaluator.LogicalShortCircuit | common/src/RPNEvaluator.cpp:248-253 | `and`/`nand` with a false left side and `or`/`nor` with a true left side do not look at the right side. A non-Boolean on the left, or on the right of xor, fails, and so does a Real right side when it is looked at. |
| Evaluator.DivisionResults | common/src/RPNEvaluator.cpp:194-204 | Integer `/` and `%` truncate toward zero and recombine into the dividend, and a zero divisor fails. `%` on a Real fails, while `/` with a Real gives a Real. |
| Evaluator.ArithmeticKinds | common/src/RPNEvaluator.cpp:173-193 | Integer `+`, `-` and `*` stay Integers with the exact result. An Integer beside a Real gives a Real. A Boolean beside a Real is promoted and succeeds. An Integer beside a Boolean fails, since nothing is promoted. |
| Evaluator.FunctionResults | common/src/RPNEvaluator.cpp:256-300 | Abs keeps the kind of a number and rejects a Boolean. The Result function always fails. The other one-argument functions give a Real of a number argument. A two-argument function gives a Real exactly when neither argument is a Boolean. |
| Evaluator.RunDepth | common/src/RPNEvaluator.cpp:91-301 | A successful run changes the stack depth by the net count of its tokens, which depends on their classes alone. |
| Evaluator.EvaluateCount | common/src/RPNEvaluator.cpp:304-308 | Evaluation succeeds only when the tokens' net count is one. After a successful run a net count of zero gives "insufficient operands" and more than one gives "too many operands". |
| Evaluator.RunKeepsStore | common/src/RPNEvaluator.cpp:158-164 | A run without an Assignment leaves the cells as they were, whether it succeeds or fails. |
| Evaluator.StoreOnlyChangesByAssignment | common/src/RPNEvaluator.cpp:158-164 | An evaluation without an Assignment token returns the cells it was given. |
| Pipeline.ParsePrecedence | common/src/parser.cpp:111-124 | "2+3*4" parses to 2 3 4 * +. |
| Pipeline.EvaluatePrecedence | common/src/RPNEvaluator.cpp:173-193 | 2 3 4 * + evaluates to 14. |
| Pipeline.PrecedenceFromText | common/src/parser.cpp:46-135 | The three stages composed on the text "2+3*4": the tokens parse to 2 3 4 * + and evaluate to 14, leaving the variable cells unchanged. |
| Pipeline.ParsePowerRightAssociative | common/src/parser.cpp:62-64 | "2**3**2" parses to 2 3 2 ** **. |
| Pipeline.EvaluatePower | common/src/RPNEvaluator.cpp:205-217 | 2 3 2 ** ** evaluates to 512. |
| Pipeline.DoubleNegation | common/src/parser.cpp:111-124 | "--3" parses to - 3 -, which fails with "insufficient operands". |
| Pipeline.ParseNegatedFactorial | common/src/parser.cpp:47-60 | "-3!" parses to 3 ! -. |
| Pipeline.EvaluateNegatedFactorial | common/src/RPNEvaluator.cpp:100-136 | 3 ! - evaluates to -6. |
| Pipeline.UnbalancedParentheses | common/src/parser.cpp:93-133 | "(1+2" fails with "missing right parenthesis" and "1+2)" with "no matching left parenthesis". |
| Pipeline.ParseNegatedQuotient | common/src/parser.cpp:111-124 | "-7/2" parses to 7 - 2 /. |
| Pipeline.EvaluateTruncatingDivision | common/src/RPNEvaluator.cpp:194-200 | 7 - 2 / evaluates to -3, truncated toward zero. |
| Pipeline.AssignToLiteral | common/src/RPNEvaluator.cpp:158-160 | 5 3 = fails with "assignment to a non-variable". |
| Pipeline.AssignToUnsetVariable | common/src/RPNEvaluator.cpp:153-160 | x 5 = with x unset fails with "variable not initialized". |
| Pipeline.AssignToVariable | common/src/RPNEvaluator.cpp:158-164 | x 5 = with x set yields the Variable x, whose cell then holds 5. |
| Pipeline.ReadBackVariable | common/src/RPNEvaluator.cpp:56-65 | x 1 + with x holding 5 evaluates to 6. |
| Pipeline.ParseFunctionCall | common/src/parser.cpp:80-107 | "sin(1,2)" parses to 1 2 sin. |
| Pipeline.EvaluateTooManyArguments | common/src/RPNEvaluator.cpp:304-308 | 1 2 sin leaves two operands and fails with "too many operands". |

## Left out

- Floating-point values: every Real operation (literal conversion, arithmetic, comparison, `pow`, the transcendental functions) is a field of `FloatOps`, so contracts about Reals state only that a Real results.
- Evaluator.Arithmetic: states the value of an Integer result but only the kind of a Real one, because floating-point arithmetic is outside the model.
- Evaluator.Relational: a comparison of Reals is stated through the `FloatOps` orderings `lt` and `le`, whose agreement with the real numbers is outside the model.
- Evaluator.PowerResults: states the value of Integer `**` but only the kind of a Real result, because floating-point `pow` is outside the model.
- Evaluator.DivisionResults: states the Integer quotient and remainder but only the kind of a Real quotient, because floating-point division is outside the model.
- Evaluator.ArithmeticKinds: states the exact Integer results but only the kind of a mixed Integer and Real result, because floating-point arithmetic is outside the model.
- Evaluator.FunctionResults: states the Integer result of Abs but only the kind of a Real one, because the floating-point functions are outside the model.
- Exception types and messages: each failure is a constructor.
  - The tokenizer's XTokenizer and XBadCharacter carry an offset and a kind but not the message text.
  - The evaluator's errors are five kinds. UnsupportedOperand also stands for `std::bad_variant_access` (a `std::get` of the wrong alternative) and for cpp_int's division by zero.
- `shared_ptr` ownership, `make<>` and the `is<>`/`convert<>` helpers: replaced by datatypes and pattern matching.
- Pi, E, True and False: their headers (real.hpp, boolean.hpp) are not part of this model. Pi and E are taken to be Real operands whose values come from `FloatOps`, and True and False are Boolean operands.
- Function and Result: function.hpp is not part of this model. The arities follow the evaluator's dispatch, and Result only fails, as the evaluator does for it.
- The initial state of a Variable: variable.hpp is not part of this model. Whether a fresh Variable is unset is left to the cells passed to `Evaluate`.
- Tokenizer.ScanDecimal: reads a digit run by its decimal value (DecimalValue), not by the octal reading the code performs on a leading zero (CppIntFromDigits), so "010" scans as 10 and "09" as 9 where the code gives 8 and throws (see Findings).
- AutoMarker/ut_test_phases.hpp: test-selection macros with no logic.

## Findings

| source | as written | input that shows it | evidently intended | confidence | as-written member | corrected member |
|---|---|---|---|---|---|---|
| common/src/tokenizer.cpp:157 | The digit run is handed to cpp_int's string constructor, which reads a leading 0 as the octal prefix. | "010" yields the Integer 8, and "09" makes the constructor throw. | A decimal literal has its decimal value whatever its leading zeros: "010" is 10 and "09" is 9. | medium, not executed | Tokenizer.CppIntFromDigits, Tokenizer.LeadingZeroReadsAsOctal | Tokenizer.DecimalValue, Tokenizer.DecimalIgnoresLeadingZero |

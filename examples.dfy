/** Concrete inputs for the tokenizer over a small sample library: ASCII
    letters and digits, the space as whitespace, the operator characters
    + - * / ^ %, the built-in functions sin and cos, and binary and unary
    + and -, binary * and /. Each input has its steps proved one by one and
    then the whole drain. */
module Examples {
  import opened Tokens
  import opened Lexing

  /** A sample operator descriptor: its symbol and argument count. */
  datatype Op = Op(symbol: string, argc: int)

  type SampleToken = Token<string, Op>
  type SampleCursor = Cursor<string, Op>

  const Sample: Library<string, Op> := Library(
    c => c == ' ',
    c => 'a' <= c <= 'z' || 'A' <= c <= 'Z',
    c => '0' <= c <= '9',
    c => c == '+' || c == '-' || c == '*' || c == '/' || c == '^' || c == '%',
    map["sin" := "sin", "cos" := "cos"],
    map[('+', 2) := Op("+", 2), ('-', 2) := Op("-", 2), ('*', 2) := Op("*", 2), ('/', 2) := Op("/", 2),
        ('+', 1) := Op("+", 1), ('-', 1) := Op("-", 1)])

  /** Draining from a cursor whose step succeeds yields that step's token,
      spanning from the first non-whitespace character to the new cursor,
      ahead of what draining from the new cursor yields. */
  lemma DrainCons(c: Context<string, Op>, cur: SampleCursor, t: SampleToken, next: SampleCursor,
                  start: nat, rest: seq<Lexed<string, Op>>, fin: SampleCursor, err: Option<LexError>)
    requires cur.pos < |c.expression| && next.pos <= |c.expression|
    requires Step(c, cur) == (Ok(t), next)
    requires SkipWhitespace(c.lib, c.expression, cur.pos) == start
    requires Drain(c, next) == (rest, fin, err)
    ensures Drain(c, cur) == ([Lexed(t, start, next.pos)] + rest, fin, err)
  {
  }

  /** Draining at the end of the expression yields nothing. */
  lemma DrainAtEnd(c: Context<string, Op>, cur: SampleCursor)
    requires cur.pos == |c.expression|
    ensures Drain(c, cur) == ([], cur, None)
  {
  }

  /** A number that the next character (or the end) closes after one digit,
      with no whitespace before it. */
  lemma OneDigitNumber(c: Context<string, Op>, q: nat, last: Option<SampleToken>)
    requires c.lib == Sample && q < |c.expression| && '0' <= c.expression[q] <= '9'
    requires q + 1 < |c.expression| ==> !IsNumeric(Sample, c.expression[q + 1])
    ensures Step(c, Cursor(q, last)) == (Ok(NumberToken(q, 1)), Cursor(q + 1, Some(NumberToken(q, 1))))
  {
    assert SkipWhitespace(Sample, c.expression, q) == q;
    assert RunEnd(Sample, Numeric, c.expression, q + 1) == q + 1;
  }

  /** A one-character built-in operator with no whitespace before it and no
      operator character after it, and no user operators. */
  lemma BuiltinOperator(c: Context<string, Op>, q: nat, last: Option<SampleToken>, op: Op)
    requires c.lib == Sample && c.userOperators.None? && q < |c.expression|
    requires Sample.isAllowedOperatorChar(c.expression[q])
    requires Lookup(Sample.builtinOperators, (c.expression[q], ArgCount(last))) == Some(op)
    ensures Step(c, Cursor(q, last)) ==
            (Ok(OperatorToken(Some(op))), Cursor(q + 1, Some(OperatorToken(Some(op)))))
  {
    assert SkipWhitespace(Sample, c.expression, q) == q;
    NoUserOperatorsSingleChar(c, q, Some(op), last);
    assert ScanOperator(c, q, last) == (OperatorToken(Some(op)), q + 1);
    assert Dispatch(c, q, last) == Ok((OperatorToken(Some(op)), q + 1));
  }

  // "3+4"

  const ThreePlusFourInput: Context<string, Op> := Context(Sample, "3+4", None, None)

  lemma ThreePlusFourSteps()
    ensures Step(ThreePlusFourInput, Cursor(0, None)) ==
            (Ok(NumberToken(0, 1)), Cursor(1, Some(NumberToken(0, 1))))
    ensures Step(ThreePlusFourInput, Cursor(1, Some(NumberToken(0, 1)))) ==
            (Ok(OperatorToken(Some(Op("+", 2)))), Cursor(2, Some(OperatorToken(Some(Op("+", 2))))))
    ensures Step(ThreePlusFourInput, Cursor(2, Some(OperatorToken(Some(Op("+", 2)))))) ==
            (Ok(NumberToken(2, 1)), Cursor(3, Some(NumberToken(2, 1))))
  {
    var e := ThreePlusFourInput.expression;
    assert e[0] == '3' && e[1] == '+' && e[2] == '4';
    OneDigitNumber(ThreePlusFourInput, 0, None);
    BuiltinOperator(ThreePlusFourInput, 1, Some(NumberToken(0, 1)), Op("+", 2));
    OneDigitNumber(ThreePlusFourInput, 2, Some(OperatorToken(Some(Op("+", 2)))));
  }

  /** "3+4" gives a number, the binary plus, a number. */
  lemma ThreePlusFour()
    ensures Drain(ThreePlusFourInput, Cursor(0, None)) ==
            ([Lexed(NumberToken(0, 1), 0, 1),
              Lexed(OperatorToken(Some(Op("+", 2))), 1, 2),
              Lexed(NumberToken(2, 1), 2, 3)],
             Cursor(3, Some(NumberToken(2, 1))), None)
  {
    var c := ThreePlusFourInput;
    var t0: SampleToken, t1: SampleToken, t2: SampleToken :=
      NumberToken(0, 1), OperatorToken(Some(Op("+", 2))), NumberToken(2, 1);
    var fin := Cursor(3, Some(t2));
    ThreePlusFourSteps();
    assert c.expression[0] == '3' && c.expression[1] == '+' && c.expression[2] == '4';
    DrainAtEnd(c, fin);
    assert SkipWhitespace(Sample, c.expression, 2) == 2;
    DrainCons(c, Cursor(2, Some(t1)), t2, fin, 2, [], fin, None);
    assert SkipWhitespace(Sample, c.expression, 1) == 1;
    assert [Lexed(t2, 2, 3)] + [] == [Lexed(t2, 2, 3)];
    DrainCons(c, Cursor(1, Some(t0)), t1, Cursor(2, Some(t1)), 1, [Lexed(t2, 2, 3)], fin, None);
    assert SkipWhitespace(Sample, c.expression, 0) == 0;
    assert [Lexed(t1, 1, 2)] + [Lexed(t2, 2, 3)] == [Lexed(t1, 1, 2), Lexed(t2, 2, 3)];
    assert [Lexed(t0, 0, 1)] + [Lexed(t1, 1, 2), Lexed(t2, 2, 3)] == [Lexed(t0, 0, 1), Lexed(t1, 1, 2), Lexed(t2, 2, 3)];
    DrainCons(c, Cursor(0, None), t0, Cursor(1, Some(t0)), 0, [Lexed(t1, 1, 2), Lexed(t2, 2, 3)], fin, None);
  }

  // "-3"

  const MinusThreeInput: Context<string, Op> := Context(Sample, "-3", None, None)

  lemma MinusThreeSteps()
    ensures Step(MinusThreeInput, Cursor(0, None)) ==
            (Ok(OperatorToken(Some(Op("-", 1)))), Cursor(1, Some(OperatorToken(Some(Op("-", 1))))))
    ensures Step(MinusThreeInput, Cursor(1, Some(OperatorToken(Some(Op("-", 1)))))) ==
            (Ok(NumberToken(1, 1)), Cursor(2, Some(NumberToken(1, 1))))
  {
    var e := MinusThreeInput.expression;
    assert e[0] == '-' && e[1] == '3';
    BuiltinOperator(MinusThreeInput, 0, None, Op("-", 1));
    OneDigitNumber(MinusThreeInput, 1, Some(OperatorToken(Some(Op("-", 1)))));
  }

  /** "-3": with nothing before it the minus is unary. */
  lemma UnaryMinus()
    ensures Drain(MinusThreeInput, Cursor(0, None)) ==
            ([Lexed(OperatorToken(Some(Op("-", 1))), 0, 1),
              Lexed(NumberToken(1, 1), 1, 2)],
             Cursor(2, Some(NumberToken(1, 1))), None)
  {
    var c := MinusThreeInput;
    var t0: SampleToken, t1: SampleToken := OperatorToken(Some(Op("-", 1))), NumberToken(1, 1);
    var fin := Cursor(2, Some(t1));
    MinusThreeSteps();
    assert c.expression[0] == '-' && c.expression[1] == '3';
    DrainAtEnd(c, fin);
    assert SkipWhitespace(Sample, c.expression, 1) == 1;
    DrainCons(c, Cursor(1, Some(t0)), t1, fin, 1, [], fin, None);
    assert SkipWhitespace(Sample, c.expression, 0) == 0;
    assert [Lexed(t1, 1, 2)] + [] == [Lexed(t1, 1, 2)];
    assert [Lexed(t0, 0, 1)] + [Lexed(t1, 1, 2)] == [Lexed(t0, 0, 1), Lexed(t1, 1, 2)];
    DrainCons(c, Cursor(0, None), t0, Cursor(1, Some(t0)), 0, [Lexed(t1, 1, 2)], fin, None);
  }

  // "2--3"

  const TwoMinusMinusThreeInput: Context<string, Op> := Context(Sample, "2--3", None, None)

  lemma TwoMinusMinusThreeSteps()
    ensures Step(TwoMinusMinusThreeInput, Cursor(0, None)) ==
            (Ok(NumberToken(0, 1)), Cursor(1, Some(NumberToken(0, 1))))
    ensures Step(TwoMinusMinusThreeInput, Cursor(1, Some(NumberToken(0, 1)))) ==
            (Ok(OperatorToken(Some(Op("-", 2)))), Cursor(2, Some(OperatorToken(Some(Op("-", 2))))))
    ensures Step(TwoMinusMinusThreeInput, Cursor(2, Some(OperatorToken(Some(Op("-", 2)))))) ==
            (Ok(OperatorToken(Some(Op("-", 1)))), Cursor(3, Some(OperatorToken(Some(Op("-", 1))))))
    ensures Step(TwoMinusMinusThreeInput, Cursor(3, Some(OperatorToken(Some(Op("-", 1)))))) ==
            (Ok(NumberToken(3, 1)), Cursor(4, Some(NumberToken(3, 1))))
  {
    var c := TwoMinusMinusThreeInput;
    var e := c.expression;
    assert e[0] == '2' && e[1] == '-' && e[2] == '-' && e[3] == '3';
    OneDigitNumber(c, 0, None);
    BuiltinOperator(c, 1, Some(NumberToken(0, 1)), Op("-", 2));
    BuiltinOperator(c, 2, Some(OperatorToken(Some(Op("-", 2)))), Op("-", 1));
    OneDigitNumber(c, 3, Some(OperatorToken(Some(Op("-", 1)))));
  }

  /** "2--3": the first minus follows a number and is binary, the second
      follows an operator and is unary; "--" is not one symbol. */
  lemma BinaryThenUnaryMinus()
    ensures Drain(TwoMinusMinusThreeInput, Cursor(0, None)) ==
            ([Lexed(NumberToken(0, 1), 0, 1),
              Lexed(OperatorToken(Some(Op("-", 2))), 1, 2),
              Lexed(OperatorToken(Some(Op("-", 1))), 2, 3),
              Lexed(NumberToken(3, 1), 3, 4)],
             Cursor(4, Some(NumberToken(3, 1))), None)
  {
    var c := TwoMinusMinusThreeInput;
    var t0: SampleToken, t1: SampleToken, t2: SampleToken, t3: SampleToken :=
      NumberToken(0, 1), OperatorToken(Some(Op("-", 2))), OperatorToken(Some(Op("-", 1))), NumberToken(3, 1);
    var fin := Cursor(4, Some(t3));
    TwoMinusMinusThreeSteps();
    assert c.expression[0] == '2' && c.expression[1] == '-' && c.expression[2] == '-' && c.expression[3] == '3';
    DrainAtEnd(c, fin);
    assert SkipWhitespace(Sample, c.expression, 3) == 3;
    DrainCons(c, Cursor(3, Some(t2)), t3, fin, 3, [], fin, None);
    assert SkipWhitespace(Sample, c.expression, 2) == 2;
    assert [Lexed(t3, 3, 4)] + [] == [Lexed(t3, 3, 4)];
    DrainCons(c, Cursor(2, Some(t1)), t2, Cursor(3, Some(t2)), 2, [Lexed(t3, 3, 4)], fin, None);
    assert SkipWhitespace(Sample, c.expression, 1) == 1;
    assert [Lexed(t2, 2, 3)] + [Lexed(t3, 3, 4)] == [Lexed(t2, 2, 3), Lexed(t3, 3, 4)];
    DrainCons(c, Cursor(1, Some(t0)), t1, Cursor(2, Some(t1)), 1, [Lexed(t2, 2, 3), Lexed(t3, 3, 4)], fin, None);
    assert SkipWhitespace(Sample, c.expression, 0) == 0;
    assert [Lexed(t1, 1, 2)] + [Lexed(t2, 2, 3), Lexed(t3, 3, 4)] == [Lexed(t1, 1, 2), Lexed(t2, 2, 3), Lexed(t3, 3, 4)];
    assert [Lexed(t0, 0, 1)] + [Lexed(t1, 1, 2), Lexed(t2, 2, 3), Lexed(t3, 3, 4)] == [Lexed(t0, 0, 1), Lexed(t1, 1, 2), Lexed(t2, 2, 3), Lexed(t3, 3, 4)];
    DrainCons(c, Cursor(0, None), t0, Cursor(1, Some(t0)), 0,
              [Lexed(t1, 1, 2), Lexed(t2, 2, 3), Lexed(t3, 3, 4)], fin, None);
  }

  // "sin(x)"

  const SinXInput: Context<string, Op> := Context(Sample, "sin(x)", None, None)

  lemma SinXName()
    ensures Step(SinXInput, Cursor(0, None)) == (Ok(FunctionToken("sin")), Cursor(3, Some(FunctionToken("sin"))))
  {
    var e := SinXInput.expression;
    assert e[0] == 's' && e[1] == 'i' && e[2] == 'n' && e[3] == '(';
    assert SkipWhitespace(Sample, e, 0) == 0;
    assert !Sample.isAllowedOperatorChar('s');
    assert RunEnd(Sample, NamePart, e, 1) == 3;
    assert e[0..3] == "sin";
  }

  lemma SinXGroups()
    ensures Step(SinXInput, Cursor(3, Some(FunctionToken("sin")))) ==
            (Ok(OpenParenthesesToken), Cursor(4, Some(OpenParenthesesToken)))
    ensures Step(SinXInput, Cursor(5, Some(VariableToken("x")))) ==
            (Ok(CloseParenthesesToken), Cursor(6, Some(CloseParenthesesToken)))
  {
    var e := SinXInput.expression;
    assert e[3] == '(' && e[5] == ')';
    assert SkipWhitespace(Sample, e, 3) == 3 && SkipWhitespace(Sample, e, 5) == 5;
  }

  lemma SinXVariable()
    ensures Step(SinXInput, Cursor(4, Some(OpenParenthesesToken))) ==
            (Ok(VariableToken("x")), Cursor(5, Some(VariableToken("x"))))
  {
    var e := SinXInput.expression;
    assert e[4] == 'x' && e[5] == ')';
    assert SkipWhitespace(Sample, e, 4) == 4;
    assert !Sample.isAllowedOperatorChar('x');
    assert RunEnd(Sample, NamePart, e, 5) == 5;
    assert e[4..5] == "x";
    assert "x" !in Sample.builtinFunctions;
  }

  /** What "sin(x)" drains to after the function name. */
  lemma SinXArgumentGroup()
    ensures Drain(SinXInput, Cursor(3, Some(FunctionToken("sin")))) ==
            ([Lexed(OpenParenthesesToken, 3, 4),
              Lexed(VariableToken("x"), 4, 5),
              Lexed(CloseParenthesesToken, 5, 6)],
             Cursor(6, Some(CloseParenthesesToken)), None)
  {
    var c := SinXInput;
    var t0: SampleToken, t1: SampleToken, t2: SampleToken, t3: SampleToken :=
      FunctionToken("sin"), OpenParenthesesToken, VariableToken("x"), CloseParenthesesToken;
    var fin := Cursor(6, Some(t3));
    SinXGroups();
    SinXVariable();
    assert c.expression[3] == '(' && c.expression[4] == 'x' && c.expression[5] == ')';
    DrainAtEnd(c, fin);
    assert SkipWhitespace(Sample, c.expression, 5) == 5;
    DrainCons(c, Cursor(5, Some(t2)), t3, fin, 5, [], fin, None);
    assert SkipWhitespace(Sample, c.expression, 4) == 4;
    assert [Lexed(t3, 5, 6)] + [] == [Lexed(t3, 5, 6)];
    DrainCons(c, Cursor(4, Some(t1)), t2, Cursor(5, Some(t2)), 4, [Lexed(t3, 5, 6)], fin, None);
    assert SkipWhitespace(Sample, c.expression, 3) == 3;
    assert [Lexed(t2, 4, 5)] + [Lexed(t3, 5, 6)] == [Lexed(t2, 4, 5), Lexed(t3, 5, 6)];
    DrainCons(c, Cursor(3, Some(t0)), t1, Cursor(4, Some(t1)), 3, [Lexed(t2, 4, 5), Lexed(t3, 5, 6)], fin, None);
    assert [Lexed(t1, 3, 4)] + [Lexed(t2, 4, 5), Lexed(t3, 5, 6)] == [Lexed(t1, 3, 4), Lexed(t2, 4, 5), Lexed(t3, 5, 6)];
  }

  /** "sin(x)": a built-in function name, an open group, a free variable,
      a close group. */
  lemma FunctionCallOfVariable()
    ensures Drain(SinXInput, Cursor(0, None)) ==
            ([Lexed(FunctionToken("sin"), 0, 3),
              Lexed(OpenParenthesesToken, 3, 4),
              Lexed(VariableToken("x"), 4, 5),
              Lexed(CloseParenthesesToken, 5, 6)],
             Cursor(6, Some(CloseParenthesesToken)), None)
  {
    var c := SinXInput;
    var t0: SampleToken, t1: SampleToken, t2: SampleToken, t3: SampleToken :=
      FunctionToken("sin"), OpenParenthesesToken, VariableToken("x"), CloseParenthesesToken;
    var fin := Cursor(6, Some(t3));
    SinXName();
    SinXArgumentGroup();
    assert c.expression[0] == 's';
    assert SkipWhitespace(Sample, c.expression, 0) == 0;
    DrainCons(c, Cursor(0, None), t0, Cursor(3, Some(t0)), 0,
              [Lexed(t1, 3, 4), Lexed(t2, 4, 5), Lexed(t3, 5, 6)], fin, None);
    assert [Lexed(t0, 0, 3)] + [Lexed(t1, 3, 4), Lexed(t2, 4, 5), Lexed(t3, 5, 6)] == [Lexed(t0, 0, 3), Lexed(t1, 3, 4), Lexed(t2, 4, 5), Lexed(t3, 5, 6)];
  }

  // "2**3" with a user operator "**"

  const PowerInput: Context<string, Op> := Context(Sample, "2**3", None, Some(map["**" := Op("**", 2)]))

  lemma PowerOperator()
    ensures Step(PowerInput, Cursor(1, Some(NumberToken(0, 1)))) ==
            (Ok(OperatorToken(Some(Op("**", 2)))), Cursor(3, Some(OperatorToken(Some(Op("**", 2))))))
  {
    var c := PowerInput;
    var t0: SampleToken := NumberToken(0, 1);
    assert c.expression[1] == '*' && c.expression[2] == '*' && c.expression[3] == '3';
    assert SkipWhitespace(Sample, c.expression, 1) == 1;
    assert Sample.isAllowedOperatorChar('*') && !Sample.isAllowedOperatorChar('3');
    assert "*" != "**" && c.expression[1..3] == "**";
    assert GetOperatorChar(Sample, c.userOperators, '*', Some(t0)) == Some(Op("*", 2));
    assert OperatorScan(c, 1, 2, Some(Op("**", 2)), Some(t0)) == (2, Some(Op("**", 2)));
    assert OperatorScan(c, 1, 1, Some(Op("*", 2)), Some(t0)) == (2, Some(Op("**", 2)));
  }

  lemma PowerNumbers()
    ensures Step(PowerInput, Cursor(0, None)) == (Ok(NumberToken(0, 1)), Cursor(1, Some(NumberToken(0, 1))))
    ensures Step(PowerInput, Cursor(3, Some(OperatorToken(Some(Op("**", 2)))))) ==
            (Ok(NumberToken(3, 1)), Cursor(4, Some(NumberToken(3, 1))))
  {
    var e := PowerInput.expression;
    assert e[0] == '2' && e[1] == '*' && e[3] == '3';
    OneDigitNumber(PowerInput, 0, None);
    OneDigitNumber(PowerInput, 3, Some(OperatorToken(Some(Op("**", 2)))));
  }

  /** What "2**3" drains to after the first number. */
  lemma PowerTail()
    ensures Drain(PowerInput, Cursor(1, Some(NumberToken(0, 1)))) ==
            ([Lexed(OperatorToken(Some(Op("**", 2))), 1, 3),
              Lexed(NumberToken(3, 1), 3, 4)],
             Cursor(4, Some(NumberToken(3, 1))), None)
  {
    var c := PowerInput;
    var t0: SampleToken, t1: SampleToken, t2: SampleToken :=
      NumberToken(0, 1), OperatorToken(Some(Op("**", 2))), NumberToken(3, 1);
    var fin := Cursor(4, Some(t2));
    PowerNumbers();
    PowerOperator();
    assert c.expression[1] == '*' && c.expression[3] == '3';
    DrainAtEnd(c, fin);
    assert SkipWhitespace(Sample, c.expression, 3) == 3;
    DrainCons(c, Cursor(3, Some(t1)), t2, fin, 3, [], fin, None);
    assert SkipWhitespace(Sample, c.expression, 1) == 1;
    assert [Lexed(t2, 3, 4)] + [] == [Lexed(t2, 3, 4)];
    DrainCons(c, Cursor(1, Some(t0)), t1, Cursor(3, Some(t1)), 1, [Lexed(t2, 3, 4)], fin, None);
    assert [Lexed(t1, 1, 3)] + [Lexed(t2, 3, 4)] == [Lexed(t1, 1, 3), Lexed(t2, 3, 4)];
  }

  /** "2**3" with a user operator "**": the longest resolving prefix wins
      over two built-in "*" tokens. */
  lemma LongestMatchUserOperator()
    ensures Drain(PowerInput, Cursor(0, None)) ==
            ([Lexed(NumberToken(0, 1), 0, 1),
              Lexed(OperatorToken(Some(Op("**", 2))), 1, 3),
              Lexed(NumberToken(3, 1), 3, 4)],
             Cursor(4, Some(NumberToken(3, 1))), None)
  {
    var c := PowerInput;
    var t0: SampleToken, t1: SampleToken, t2: SampleToken :=
      NumberToken(0, 1), OperatorToken(Some(Op("**", 2))), NumberToken(3, 1);
    var fin := Cursor(4, Some(t2));
    PowerNumbers();
    PowerTail();
    assert c.expression[0] == '2';
    assert SkipWhitespace(Sample, c.expression, 0) == 0;
    DrainCons(c, Cursor(0, None), t0, Cursor(1, Some(t0)), 0, [Lexed(t1, 1, 3), Lexed(t2, 3, 4)], fin, None);
    assert [Lexed(t0, 0, 1)] + [Lexed(t1, 1, 3), Lexed(t2, 3, 4)] == [Lexed(t0, 0, 1), Lexed(t1, 1, 3), Lexed(t2, 3, 4)];
  }

  // "3 & 4"

  const AmpersandInput: Context<string, Op> := Context(Sample, "3 & 4", None, None)

  lemma AmpersandSteps()
    ensures Step(AmpersandInput, Cursor(0, None)) == (Ok(NumberToken(0, 1)), Cursor(1, Some(NumberToken(0, 1))))
    ensures Step(AmpersandInput, Cursor(1, Some(NumberToken(0, 1)))) ==
            (Err(UnparsableChar('&', 2)), Cursor(2, Some(NumberToken(0, 1))))
  {
    var e := AmpersandInput.expression;
    assert e[0] == '3' && e[1] == ' ' && e[2] == '&';
    OneDigitNumber(AmpersandInput, 0, None);
    assert SkipWhitespace(Sample, e, 1) == 2;
    assert !Sample.isAllowedOperatorChar('&');
  }

  /** "3 & 4": after the number and the space, '&' belongs to no class;
      lexing stops there, reporting the character and position 2. */
  lemma UnknownCharacter()
    ensures Drain(AmpersandInput, Cursor(0, None)) ==
            ([Lexed(NumberToken(0, 1), 0, 1)],
             Cursor(2, Some(NumberToken(0, 1))), Some(UnparsableChar('&', 2)))
  {
    var c := AmpersandInput;
    var t0: SampleToken := NumberToken(0, 1);
    AmpersandSteps();
    assert c.expression[0] == '3';
    assert Drain(c, Cursor(1, Some(t0))) == ([], Cursor(2, Some(t0)), Some(UnparsableChar('&', 2)));
    assert SkipWhitespace(Sample, c.expression, 0) == 0;
    assert [Lexed(t0, 0, 1)] + [] == [Lexed(t0, 0, 1)];
    DrainCons(c, Cursor(0, None), t0, Cursor(1, Some(t0)), 0, [], Cursor(2, Some(t0)), Some(UnparsableChar('&', 2)));
  }

  // "1e-5"

  const ExponentInput: Context<string, Op> := Context(Sample, "1e-5", None, None)

  lemma ExponentSteps()
    ensures Step(ExponentInput, Cursor(0, None)) == (Ok(NumberToken(0, 2)), Cursor(2, Some(NumberToken(0, 2))))
    ensures Step(ExponentInput, Cursor(2, Some(NumberToken(0, 2)))) ==
            (Ok(OperatorToken(Some(Op("-", 2)))), Cursor(3, Some(OperatorToken(Some(Op("-", 2))))))
    ensures Step(ExponentInput, Cursor(3, Some(OperatorToken(Some(Op("-", 2)))))) ==
            (Ok(NumberToken(3, 1)), Cursor(4, Some(NumberToken(3, 1))))
  {
    var c := ExponentInput;
    var e := c.expression;
    assert e[0] == '1' && e[1] == 'e' && e[2] == '-' && e[3] == '5';
    assert SkipWhitespace(Sample, e, 0) == 0;
    assert RunEnd(Sample, Numeric, e, 1) == 2;
    BuiltinOperator(c, 2, Some(NumberToken(0, 2)), Op("-", 2));
    OneDigitNumber(c, 3, Some(OperatorToken(Some(Op("-", 2)))));
  }

  /** "1e-5" is not one number: the scan takes "1e" and stops at the sign,
      which then lexes as a binary minus. */
  lemma SignEndsExponent()
    ensures Drain(ExponentInput, Cursor(0, None)) ==
            ([Lexed(NumberToken(0, 2), 0, 2),
              Lexed(OperatorToken(Some(Op("-", 2))), 2, 3),
              Lexed(NumberToken(3, 1), 3, 4)],
             Cursor(4, Some(NumberToken(3, 1))), None)
  {
    var c := ExponentInput;
    var t0: SampleToken, t1: SampleToken, t2: SampleToken :=
      NumberToken(0, 2), OperatorToken(Some(Op("-", 2))), NumberToken(3, 1);
    var fin := Cursor(4, Some(t2));
    ExponentSteps();
    assert c.expression[0] == '1' && c.expression[2] == '-' && c.expression[3] == '5';
    DrainAtEnd(c, fin);
    assert SkipWhitespace(Sample, c.expression, 3) == 3;
    DrainCons(c, Cursor(3, Some(t1)), t2, fin, 3, [], fin, None);
    assert SkipWhitespace(Sample, c.expression, 2) == 2;
    assert [Lexed(t2, 3, 4)] + [] == [Lexed(t2, 3, 4)];
    DrainCons(c, Cursor(2, Some(t0)), t1, Cursor(3, Some(t1)), 2, [Lexed(t2, 3, 4)], fin, None);
    assert SkipWhitespace(Sample, c.expression, 0) == 0;
    assert [Lexed(t1, 2, 3)] + [Lexed(t2, 3, 4)] == [Lexed(t1, 2, 3), Lexed(t2, 3, 4)];
    assert [Lexed(t0, 0, 2)] + [Lexed(t1, 2, 3), Lexed(t2, 3, 4)] == [Lexed(t0, 0, 2), Lexed(t1, 2, 3), Lexed(t2, 3, 4)];
    DrainCons(c, Cursor(0, None), t0, Cursor(2, Some(t0)), 0, [Lexed(t1, 2, 3), Lexed(t2, 3, 4)], fin, None);
  }

  /** "exp(1)": the leading 'e' is numeric, so the scan takes the
      one-character number lexeme "e", not the name "exp". (The source then hands
      the lexeme to the NumberToken constructor, which computes its value
      and is not part of this model.) */
  lemma LeadingEOfName()
    ensures Step(Context(Sample, "exp(1)", None, None), Cursor(0, None)) ==
            (Ok(NumberToken(0, 1)), Cursor(1, Some(NumberToken(0, 1))))
  {
    var c := Context(Sample, "exp(1)", None, None);
    assert c.expression[0] == 'e' && c.expression[1] == 'x';
    assert SkipWhitespace(Sample, c.expression, 0) == 0;
    assert RunEnd(Sample, Numeric, c.expression, 1) == 1;
  }
}

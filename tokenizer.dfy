/** The tokenizer object: a read-only expression, the two user tables, and
    the cursor and last token that every parse method updates. Each method
    is proved to do what the matching function of Lexing says. */
module Tokenizer {
  import opened Tokens
  import opened Lexing

  class Tokenizer<F, O> {
    /** The collaborators outside the tokenizer (character predicates and
        built-in tables). */
    const lib: Library<F, O>
    const expression: string
    const userFunctions: Option<map<string, F>>
    const userOperators: Option<map<string, O>>

    var pos: nat
    var lastToken: Option<Token<F, O>>

    /** The immutable part of this tokenizer as a value. */
    function Ctx(): Context<F, O> {
      Context(lib, expression, userFunctions, userOperators)
    }

    /** The cursor never passes the end of the expression. */
    ghost predicate Valid()
      reads this
    {
      pos <= |expression|
    }

    constructor (lib: Library<F, O>, expression: string,
                 userFunctions: Option<map<string, F>>, userOperators: Option<map<string, O>>)
      ensures Ctx() == Context(lib, expression, userFunctions, userOperators)
      ensures pos == 0 && lastToken == None
      ensures Valid()
    {
      this.lib := lib;
      this.expression := expression;
      this.userFunctions := userFunctions;
      this.userOperators := userOperators;
      pos := 0;
      lastToken := None;
    }

    /** More input is left exactly while the cursor is before the end; once
        it is not, nextToken can only fail, leaving the state alone. */
    function HasNext(): (b: bool)
      reads this
      ensures b <==> pos < |expression|
      ensures Valid() && !b ==>
                Step(Ctx(), Cursor(pos, lastToken)) == (Err(OutOfBounds(pos)), Cursor(pos, lastToken))
    {
      |expression| > pos
    }

    /** Whether offset is past the last character; when it is not, a
        non-negative offset indexes the expression. */
    function IsEndOfExpression(offset: int): (b: bool)
      ensures !b && 0 <= offset ==> offset < |expression|
      ensures b ==> offset >= |expression|
    {
      |expression| <= offset
    }

    /** nextToken: skip whitespace, classify the character found, run the
        matching scan. The outcome and the new state are those of Step. */
    method NextToken() returns (r: Result<Token<F, O>>)
      requires Valid()
      modifies this
      ensures Valid()
      ensures (r, Cursor(pos, lastToken)) == Step(Ctx(), Cursor(old(pos), old(lastToken)))
    {
      if pos >= |expression| {
        // reading expression[pos] fails
        return Err(OutOfBounds(pos));
      }
      var ch := expression[pos];
      while lib.isWhitespace(ch)
        invariant old(pos) <= pos < |expression| && ch == expression[pos]
        invariant forall k :: old(pos) <= k < pos ==> lib.isWhitespace(expression[k])
        invariant lastToken == old(lastToken)
        decreases |expression| - pos
      {
        pos := pos + 1;
        if pos >= |expression| {
          // the skip loop runs off the end of the expression
          RunEndUnique(lib, Whitespace, expression, old(pos), pos);
          return Err(OutOfBounds(pos));
        }
        ch := expression[pos];
      }
      RunEndUnique(lib, Whitespace, expression, old(pos), pos);
      if IsNumeric(lib, ch) {
        var t := ParseNumberToken(ch);
        r := Ok(t);
      } else if IsArgumentSeparator(ch) {
        var t := ParseArgumentSeparatorToken(ch);
        r := Ok(t);
      } else if IsOpenParentheses(ch) {
        var t := ParseParentheses(true);
        r := Ok(t);
      } else if IsCloseParentheses(ch) {
        var t := ParseParentheses(false);
        r := Ok(t);
      } else if lib.isAllowedOperatorChar(ch) {
        var t := ParseOperatorToken(ch);
        r := Ok(t);
      } else if IsNameStart(lib, ch) {
        var t := ParseFunctionOrVariable();
        r := Ok(t);
      } else {
        r := Err(UnparsableChar(ch, pos));
      }
    }

    method ParseArgumentSeparatorToken(ch: char) returns (t: Token<F, O>)
      modifies this
      ensures t == ArgumentSeparatorToken
      ensures pos == old(pos) + 1 && lastToken == Some(t)
    {
      pos := pos + 1;
      lastToken := Some(ArgumentSeparatorToken);
      t := lastToken.value;
    }

    /** One token for all three opening symbols and one for all three
        closing symbols; the bracket variant is not kept. */
    method ParseParentheses(open: bool) returns (t: Token<F, O>)
      modifies this
      ensures t == if open then OpenParenthesesToken else CloseParenthesesToken
      ensures pos == old(pos) + 1 && lastToken == Some(t)
    {
      if open {
        lastToken := Some(OpenParenthesesToken);
      } else {
        lastToken := Some(CloseParenthesesToken);
      }
      pos := pos + 1;
      t := lastToken.value;
    }

    method ParseFunctionOrVariable() returns (t: Token<F, O>)
      requires pos < |expression|
      modifies this
      ensures var (name, end) := ScanName(Ctx(), old(pos));
              t == FunctionOrVariable(Ctx(), name) && pos == end
      ensures lastToken == Some(t)
    {
      var name := ParseName();
      var f := GetFunction(lib, userFunctions, name);
      if f.Some? {
        lastToken := Some(FunctionToken(f.value));
      } else {
        lastToken := Some(VariableToken(name));
      }
      t := lastToken.value;
    }

    /** The name at the cursor: the character there plus the maximal run of
        letters, digits and '_' after it; the cursor moves past it. */
    method ParseName() returns (name: string)
      requires pos < |expression|
      modifies this
      ensures (name, pos) == ScanName(Ctx(), old(pos))
      ensures lastToken == old(lastToken)
    {
      var offset := pos;
      var len := 1;
      while !IsEndOfExpression(offset + len) && IsNamePart(lib, expression[offset + len])
        invariant 1 <= len && offset + len <= |expression|
        invariant forall k :: offset + 1 <= k < offset + len ==> IsNamePart(lib, expression[k])
        decreases |expression| - offset - len
      {
        len := len + 1;
      }
      pos := pos + len;
      RunEndUnique(lib, NamePart, expression, offset + 1, offset + len);
      name := expression[offset..offset + len];
    }

    /** Longest match: start from the single-character lookup and extend
        while the next character is an operator character and the longer
        prefix resolves; commit to the last prefix that resolved. */
    method ParseOperatorToken(firstChar: char) returns (t: Token<F, O>)
      requires pos < |expression| && firstChar == expression[pos]
      modifies this
      ensures t == ScanOperator(Ctx(), old(pos), old(lastToken)).0
      ensures pos == ScanOperator(Ctx(), old(pos), old(lastToken)).1
      ensures lastToken == Some(t)
    {
      var offset := pos;
      var len := 1;
      var lastValid := GetOperatorChar(lib, userOperators, firstChar, lastToken);
      ghost var c, first := Ctx(), lastValid;
      while !IsEndOfExpression(offset + len) && lib.isAllowedOperatorChar(expression[offset + len])
        invariant 1 <= len && offset + len <= |expression|
        invariant lastToken == old(lastToken) && pos == offset
        invariant len == 1 ==> lastValid == first
        invariant len > 1 ==> lastValid == UserLookup(userOperators, expression[offset..offset + len])
        invariant forall j :: offset + 1 <= j < offset + len ==> lib.isAllowedOperatorChar(expression[j])
        invariant forall n :: 1 < n <= len ==> UserResolves(c, offset, n)
        decreases |expression| - offset - len
      {
        var tmp := GetOperator(lib, userOperators, expression[offset..offset + len + 1], lastToken);
        assert tmp.Some? <==> UserResolves(c, offset, len + 1);
        if tmp.None? {
          break;
        }
        lastValid := tmp;
        len := len + 1;
      }
      OperatorScanUnique(c, offset, 1, first, lastToken, len, lastValid);
      ScanOperatorCommits(c, offset, lastToken, len, lastValid);
      pos := pos + len;
      t := OperatorToken(lastValid);
      lastToken := Some(t);
    }

    /** The number at the cursor: the character there plus the maximal run
        of digits, '.' and 'e' after it. Only the lexeme is recorded, so
        firstChar (which the source parses when the number is the last
        character) plays no part. */
    method ParseNumberToken(firstChar: char) returns (t: Token<F, O>)
      requires pos < |expression|
      modifies this
      ensures (t, pos) == ScanNumber(Ctx(), old(pos))
      ensures lastToken == Some(t)
    {
      var offset := pos;
      var len := 1;
      pos := pos + 1;
      if IsEndOfExpression(offset + len) {
        RunEndUnique(lib, Numeric, expression, offset + 1, offset + 1);
        t := NumberToken(offset, 1);
        lastToken := Some(t);
        return;
      }
      while !IsEndOfExpression(offset + len) && IsNumeric(lib, expression[offset + len])
        invariant 1 <= len && offset + len <= |expression| && pos == offset + len
        invariant forall k :: offset + 1 <= k < offset + len ==> IsNumeric(lib, expression[k])
        decreases |expression| - offset - len
      {
        len := len + 1;
        pos := pos + 1;
      }
      RunEndUnique(lib, Numeric, expression, offset + 1, offset + len);
      t := NumberToken(offset, len);
      lastToken := Some(t);
    }
  }
}

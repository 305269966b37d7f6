/** What one call of Tokenizer.nextToken computes, as functions of the
    immutable context and the cursor, and what a caller that keeps calling
    it while hasNext holds observes. */
module Lexing {
  import opened Tokens

  // ---------------------------------------------------------------------
  // Character classes (the is* predicates of the tokenizer)

  /** Digits, '.' and 'e' (the exponent marker) make up a number. */
  predicate IsNumeric<F, O>(lib: Library<F, O>, ch: char) {
    lib.isDigit(ch) || ch == '.' || ch == 'e'
  }

  predicate IsArgumentSeparator(ch: char) {
    ch == ','
  }

  predicate IsOpenParentheses(ch: char) {
    ch == '(' || ch == '{' || ch == '['
  }

  predicate IsCloseParentheses(ch: char) {
    ch == ')' || ch == '}' || ch == ']'
  }

  /** A character that can start a name. */
  predicate IsNameStart<F, O>(lib: Library<F, O>, ch: char) {
    lib.isAlphabetic(ch) || ch == '_'
  }

  /** A character that can continue a name. */
  predicate IsNamePart<F, O>(lib: Library<F, O>, ch: char) {
    lib.isAlphabetic(ch) || lib.isDigit(ch) || ch == '_'
  }

  /** The separator and the two group classes are pairwise disjoint, so
      their order in the classification does not matter among themselves;
      each of the three bracket styles opens and closes. */
  lemma SymbolClasses(ch: char)
    ensures IsArgumentSeparator(ch) ==> !IsOpenParentheses(ch) && !IsCloseParentheses(ch)
    ensures IsOpenParentheses(ch) ==> !IsCloseParentheses(ch)
    ensures IsArgumentSeparator(',')
    ensures IsOpenParentheses('(') && IsOpenParentheses('{') && IsOpenParentheses('[')
    ensures IsCloseParentheses(')') && IsCloseParentheses('}') && IsCloseParentheses(']')
  {
  }

  /** Numbers are made of digits, '.' and 'e', and of nothing else. */
  lemma NumericClass<F, O>(lib: Library<F, O>, ch: char)
    ensures lib.isDigit(ch) ==> IsNumeric(lib, ch)
    ensures IsNumeric(lib, '.') && IsNumeric(lib, 'e')
    ensures IsNumeric(lib, ch) && !lib.isDigit(ch) ==> ch == '.' || ch == 'e'
  {
  }

  /** Every character that starts a name can continue one, and so can
      every digit; a digit that is not alphabetic continues a name but
      cannot start one. */
  lemma NameClasses<F, O>(lib: Library<F, O>, ch: char)
    ensures IsNameStart(lib, ch) ==> IsNamePart(lib, ch)
    ensures IsNameStart(lib, '_')
    ensures lib.isDigit(ch) ==> IsNamePart(lib, ch)
    ensures lib.isDigit(ch) && !lib.isAlphabetic(ch) && ch != '_' ==> !IsNameStart(lib, ch) && IsNamePart(lib, ch)
  {
  }

  /** The three classes whose maximal runs the tokenizer scans. */
  datatype RunClass = Whitespace | Numeric | NamePart

  predicate InClass<F, O>(lib: Library<F, O>, cls: RunClass, ch: char) {
    match cls
    case Whitespace => lib.isWhitespace(ch)
    case Numeric => IsNumeric(lib, ch)
    case NamePart => IsNamePart(lib, ch)
  }

  // ---------------------------------------------------------------------
  // Maximal runs

  /** The end of the maximal run of characters of class cls that starts at
      index i: every character in [i, e) is in the class, and the one at e
      (if any) is not. */
  function RunEnd<F, O>(lib: Library<F, O>, cls: RunClass, s: string, i: nat): (e: nat)
    requires i <= |s|
    ensures i <= e <= |s|
    ensures forall k :: i <= k < e ==> InClass(lib, cls, s[k])
    ensures e < |s| ==> !InClass(lib, cls, s[e])
    decreases |s| - i
  {
    if i < |s| && InClass(lib, cls, s[i]) then RunEnd(lib, cls, s, i + 1) else i
  }

  /** The two properties in RunEnd's contract pin the run's end down. */
  lemma RunEndUnique<F, O>(lib: Library<F, O>, cls: RunClass, s: string, i: nat, j: nat)
    requires i <= j <= |s|
    requires forall k :: i <= k < j ==> InClass(lib, cls, s[k])
    requires j < |s| ==> !InClass(lib, cls, s[j])
    ensures RunEnd(lib, cls, s, i) == j
  {
  }

  /** The index of the first non-whitespace character at or after p, or
      the length of s when there is none. */
  function SkipWhitespace<F, O>(lib: Library<F, O>, s: string, p: nat): (q: nat)
    requires p <= |s|
    ensures p <= q <= |s|
    ensures forall k :: p <= k < q ==> lib.isWhitespace(s[k])
    ensures q < |s| ==> !lib.isWhitespace(s[q])
  {
    RunEnd(lib, Whitespace, s, p)
  }

  // ---------------------------------------------------------------------
  // Lookups

  /** getFunction: the user table, when it is not null and has the name,
      shadows the built-in table. */
  function GetFunction<F, O>(lib: Library<F, O>, userFunctions: Option<map<string, F>>, name: string): (f: Option<F>)
    ensures userFunctions.Some? && name in userFunctions.value ==> f == Some(userFunctions.value[name])
    ensures !(userFunctions.Some? && name in userFunctions.value) ==> f == Lookup(lib.builtinFunctions, name)
    ensures f.Some? <==> (userFunctions.Some? && name in userFunctions.value) || name in lib.builtinFunctions
  {
    match UserLookup(userFunctions, name)
    case Some(g) => Some(g)
    case None => Lookup(lib.builtinFunctions, name)
  }

  /** The argument count hint for a built-in operator: unary at the start
      of the expression or right after another operator, binary after
      anything else (a number, a name, a group symbol or a separator). */
  function ArgCount<F, O>(lastToken: Option<Token<F, O>>): (argc: int)
    ensures argc == 1 || argc == 2
    ensures argc == 1 <==> lastToken.None? || lastToken.value.OperatorToken?
  {
    if lastToken.None? || lastToken.value.OperatorToken? then 1 else 2
  }

  /** getOperator(char[], offset, len) for the symbol s = expression[offset..offset+len]:
      the user table first; the built-in table only for a one-character
      symbol, with the argument count the last token implies. */
  function GetOperator<F, O>(lib: Library<F, O>, userOperators: Option<map<string, O>>,
                             symbol: string, lastToken: Option<Token<F, O>>): (op: Option<O>)
    ensures UserLookup(userOperators, symbol).Some? ==> op == UserLookup(userOperators, symbol)
    ensures |symbol| != 1 ==> op == UserLookup(userOperators, symbol)
    ensures |symbol| == 1 && UserLookup(userOperators, symbol).None? ==>
              op == Lookup(lib.builtinOperators, (symbol[0], ArgCount(lastToken)))
  {
    var user := UserLookup(userOperators, symbol);
    if user.None? && |symbol| == 1 then Lookup(lib.builtinOperators, (symbol[0], ArgCount(lastToken)))
    else user
  }

  /** getOperator(char): the one-character symbol looked up in the user
      table, falling back to the built-in table with the arity hint. */
  function GetOperatorChar<F, O>(lib: Library<F, O>, userOperators: Option<map<string, O>>,
                                 ch: char, lastToken: Option<Token<F, O>>): (op: Option<O>)
    ensures UserLookup(userOperators, [ch]).Some? ==> op == UserLookup(userOperators, [ch])
    ensures UserLookup(userOperators, [ch]).None? ==> op == Lookup(lib.builtinOperators, (ch, ArgCount(lastToken)))
  {
    var user := UserLookup(userOperators, [ch]);
    if user.None? then Lookup(lib.builtinOperators, (ch, ArgCount(lastToken))) else user
  }

  /** The two getOperator overloads agree on a one-character symbol. */
  lemma OperatorOverloadsAgree<F, O>(lib: Library<F, O>, userOperators: Option<map<string, O>>,
                                     ch: char, lastToken: Option<Token<F, O>>)
    ensures GetOperatorChar(lib, userOperators, ch, lastToken) == GetOperator(lib, userOperators, [ch], lastToken)
  {
  }

  /** A null user table behaves exactly like an empty one, for functions
      and for operators. */
  lemma NullTablesActAsEmpty<F, O>(lib: Library<F, O>, name: string, symbol: string, lastToken: Option<Token<F, O>>)
    ensures GetFunction(lib, None, name) == GetFunction(lib, Some(map[]), name)
    ensures GetOperator(lib, None, symbol, lastToken) == GetOperator(lib, Some(map[]), symbol, lastToken)
  {
  }

  // ---------------------------------------------------------------------
  // The scans behind the parse* methods

  /** parseNumberToken at offset q: the lexeme is the character at q plus
      the maximal run of digits, '.' and 'e' after it. */
  function ScanNumber<F, O>(c: Context<F, O>, q: nat): (r: (Token<F, O>, nat))
    requires q < |c.expression|
    ensures q < r.1 <= |c.expression|
    ensures r.0 == NumberToken(q, r.1 - q)
    ensures forall k :: q < k < r.1 ==> IsNumeric(c.lib, c.expression[k])
    ensures r.1 < |c.expression| ==> !IsNumeric(c.lib, c.expression[r.1])
  {
    var e := RunEnd(c.lib, Numeric, c.expression, q + 1);
    (NumberToken(q, e - q), e)
  }

  /** parseName at offset q: the character at q plus the maximal run of
      letters, digits and '_' after it; returns the name and its end. */
  function ScanName<F, O>(c: Context<F, O>, q: nat): (r: (string, nat))
    requires q < |c.expression|
    ensures q < r.1 <= |c.expression|
    ensures r.0 == c.expression[q..r.1]
    ensures forall k :: q < k < r.1 ==> IsNamePart(c.lib, c.expression[k])
    ensures r.1 < |c.expression| ==> !IsNamePart(c.lib, c.expression[r.1])
  {
    var e := RunEnd(c.lib, NamePart, c.expression, q + 1);
    (c.expression[q..e], e)
  }

  /** parseFunctionOrVariable's choice for a scanned name: a function token
      when the name resolves, else a variable holding exactly the name. */
  function FunctionOrVariable<F, O>(c: Context<F, O>, name: string): (t: Token<F, O>)
    ensures GetFunction(c.lib, c.userFunctions, name).Some? ==>
              t == FunctionToken(GetFunction(c.lib, c.userFunctions, name).value)
    ensures GetFunction(c.lib, c.userFunctions, name).None? ==> t == VariableToken(name)
  {
    match GetFunction(c.lib, c.userFunctions, name)
    case Some(f) => FunctionToken(f)
    case None => VariableToken(name)
  }

  /** The prefix of length n at offset is in the user operator table. */
  predicate UserResolves<F, O>(c: Context<F, O>, offset: nat, n: nat)
    requires offset + n <= |c.expression|
  {
    UserLookup(c.userOperators, c.expression[offset..offset + n]).Some?
  }

  /** The extension loop of parseOperatorToken, from a matched prefix of
      length len whose descriptor is lastValid. It extends while the next
      character is an operator character and the longer prefix is in the
      user table, and stops at the first prefix that fails. */
  function OperatorScan<F, O>(c: Context<F, O>, offset: nat, len: nat, lastValid: Option<O>,
                              lastToken: Option<Token<F, O>>): (r: (nat, Option<O>))
    requires 1 <= len && offset + len <= |c.expression|
    ensures len <= r.0 && offset + r.0 <= |c.expression|
    // the committed prefix: lastValid if nothing extended, else the longest resolved prefix
    ensures r.0 == len ==> r.1 == lastValid
    ensures r.0 > len ==> r.1.Some? && r.1 == UserLookup(c.userOperators, c.expression[offset..offset + r.0])
    // every character taken on is an operator character and every longer prefix resolved
    ensures forall j :: offset + len <= j < offset + r.0 ==> c.lib.isAllowedOperatorChar(c.expression[j])
    ensures forall n :: len < n <= r.0 ==> UserResolves(c, offset, n)
    // the scan stopped for a reason: end of input, a non-operator character, or an unresolved prefix
    ensures offset + r.0 < |c.expression| ==>
              !c.lib.isAllowedOperatorChar(c.expression[offset + r.0]) || !UserResolves(c, offset, r.0 + 1)
    decreases |c.expression| - offset - len
  {
    var e := c.expression;
    if offset + len < |e| && c.lib.isAllowedOperatorChar(e[offset + len]) then
      var symbol := e[offset..offset + len + 1];
      var tmp := GetOperator(c.lib, c.userOperators, symbol, lastToken);
      assert |symbol| == len + 1 && tmp == UserLookup(c.userOperators, symbol);
      assert tmp.Some? <==> UserResolves(c, offset, len + 1);
      if tmp.None? then (len, lastValid)
      else OperatorScan(c, offset, len + 1, tmp, lastToken)
    else
      (len, lastValid)
  }

  /** One round of the extension loop: when the next character is an
      operator character and the longer prefix resolves, the scan goes on
      from that prefix. */
  lemma OperatorScanExtends<F, O>(c: Context<F, O>, offset: nat, len: nat, lastValid: Option<O>,
                                  lastToken: Option<Token<F, O>>)
    requires 1 <= len && offset + len < |c.expression|
    requires c.lib.isAllowedOperatorChar(c.expression[offset + len])
    requires GetOperator(c.lib, c.userOperators, c.expression[offset..offset + len + 1], lastToken).Some?
    ensures OperatorScan(c, offset, len, lastValid, lastToken) ==
            OperatorScan(c, offset, len + 1,
                         GetOperator(c.lib, c.userOperators, c.expression[offset..offset + len + 1], lastToken),
                         lastToken)
  {
  }

  /** The extension loop stops, committing to the prefix it has, at the end
      of the input, at a non-operator character, or at an unresolved prefix. */
  lemma OperatorScanStops<F, O>(c: Context<F, O>, offset: nat, len: nat, lastValid: Option<O>,
                                lastToken: Option<Token<F, O>>)
    requires 1 <= len && offset + len <= |c.expression|
    requires offset + len == |c.expression| || !c.lib.isAllowedOperatorChar(c.expression[offset + len]) ||
             GetOperator(c.lib, c.userOperators, c.expression[offset..offset + len + 1], lastToken).None?
    ensures OperatorScan(c, offset, len, lastValid, lastToken) == (len, lastValid)
  {
  }

  /** The properties in OperatorScan's contract pin its result down: a
      length and descriptor that have them are what the scan returns. */
  lemma OperatorScanUnique<F, O>(c: Context<F, O>, offset: nat, len: nat, lastValid: Option<O>,
                                 lastToken: Option<Token<F, O>>, end: nat, op: Option<O>)
    requires 1 <= len <= end && offset + end <= |c.expression|
    requires end == len ==> op == lastValid
    requires end > len ==> op == UserLookup(c.userOperators, c.expression[offset..offset + end])
    requires forall j :: offset + len <= j < offset + end ==> c.lib.isAllowedOperatorChar(c.expression[j])
    requires forall n :: len < n <= end ==> UserResolves(c, offset, n)
    requires offset + end < |c.expression| ==>
               !c.lib.isAllowedOperatorChar(c.expression[offset + end]) || !UserResolves(c, offset, end + 1)
    ensures OperatorScan(c, offset, len, lastValid, lastToken) == (end, op)
  {
  }

  /** A symbol of two or more characters is never resolved against the
      built-in operator table: a longer match exists only through the user
      table, so without user operators every operator token is one
      character long. */
  lemma NoUserOperatorsSingleChar<F, O>(c: Context<F, O>, offset: nat, lastValid: Option<O>,
                                     lastToken: Option<Token<F, O>>)
    requires offset + 1 <= |c.expression|
    requires c.userOperators.None? || c.userOperators == Some(map[])
    ensures OperatorScan(c, offset, 1, lastValid, lastToken) == (1, lastValid)
  {
  }

  /** parseOperatorToken at offset q: the single-character lookup, then the
      extension loop; emits the committed descriptor. */
  function ScanOperator<F, O>(c: Context<F, O>, q: nat, lastToken: Option<Token<F, O>>): (r: (Token<F, O>, nat))
    requires q < |c.expression|
    ensures q < r.1 <= |c.expression|
    ensures r.0.OperatorToken?
    ensures r.1 == q + 1 ==>
              r.0.operator == GetOperatorChar(c.lib, c.userOperators, c.expression[q], lastToken)
    ensures r.1 > q + 1 ==>
              r.0.operator.Some? && r.0.operator == UserLookup(c.userOperators, c.expression[q..r.1])
    ensures forall j :: q < j < r.1 ==> c.lib.isAllowedOperatorChar(c.expression[j])
    // longest match: every prefix longer than one character up to the lexeme
    // resolves, and the lexeme cannot be extended
    ensures forall n :: 1 < n <= r.1 - q ==> UserResolves(c, q, n)
    ensures r.1 < |c.expression| ==>
              !c.lib.isAllowedOperatorChar(c.expression[r.1]) || !UserResolves(c, q, r.1 - q + 1)
  {
    var first := GetOperatorChar(c.lib, c.userOperators, c.expression[q], lastToken);
    var (len, op) := OperatorScan(c, q, 1, first, lastToken);
    (OperatorToken(op), q + len)
  }

  /** The operator scan commits to what the extension loop from the
      single-character lookup ends with. */
  lemma ScanOperatorCommits<F, O>(c: Context<F, O>, q: nat, lastToken: Option<Token<F, O>>, len: nat, op: Option<O>)
    requires q < |c.expression|
    requires OperatorScan(c, q, 1, GetOperatorChar(c.lib, c.userOperators, c.expression[q], lastToken), lastToken) == (len, op)
    ensures ScanOperator(c, q, lastToken) == (OperatorToken(op), q + len)
  {
  }

  // ---------------------------------------------------------------------
  // One nextToken step

  /** The classification of nextToken once whitespace is skipped: the first
      class in the fixed order numeric, separator, open group, close group,
      operator character, name start that claims the character at q
      decides the scan; no class is an error. Returns the token and the
      new cursor position. */
  function Dispatch<F, O>(c: Context<F, O>, q: nat, lastToken: Option<Token<F, O>>): (r: Result<(Token<F, O>, nat)>)
    requires q < |c.expression|
    ensures r.Ok? ==> q < r.value.1 <= |c.expression|
    ensures IsNumeric(c.lib, c.expression[q]) ==> r == Ok(ScanNumber(c, q))
    ensures !IsNumeric(c.lib, c.expression[q]) && IsArgumentSeparator(c.expression[q]) ==>
              r == Ok((ArgumentSeparatorToken, q + 1))
    ensures !IsNumeric(c.lib, c.expression[q]) && IsOpenParentheses(c.expression[q]) ==>
              r == Ok((OpenParenthesesToken, q + 1))
    ensures !IsNumeric(c.lib, c.expression[q]) && IsCloseParentheses(c.expression[q]) ==>
              r == Ok((CloseParenthesesToken, q + 1))
    ensures r.Ok? && r.value.0.OperatorToken? ==>
              c.lib.isAllowedOperatorChar(c.expression[q]) && r.value == ScanOperator(c, q, lastToken)
    ensures r.Ok? && (r.value.0.FunctionToken? || r.value.0.VariableToken?) ==>
              IsNameStart(c.lib, c.expression[q]) && !c.lib.isAllowedOperatorChar(c.expression[q]) &&
              var (name, end) := ScanName(c, q); r.value == (FunctionOrVariable(c, name), end)
    ensures !IsNumeric(c.lib, c.expression[q]) && !IsArgumentSeparator(c.expression[q]) &&
            !IsOpenParentheses(c.expression[q]) && !IsCloseParentheses(c.expression[q]) &&
            c.lib.isAllowedOperatorChar(c.expression[q]) ==>
              r == Ok(ScanOperator(c, q, lastToken))
    ensures !IsNumeric(c.lib, c.expression[q]) && !IsArgumentSeparator(c.expression[q]) &&
            !IsOpenParentheses(c.expression[q]) && !IsCloseParentheses(c.expression[q]) &&
            !c.lib.isAllowedOperatorChar(c.expression[q]) && IsNameStart(c.lib, c.expression[q]) ==>
              r == Ok((FunctionOrVariable(c, ScanName(c, q).0), ScanName(c, q).1))
    ensures r.Err? <==>
              !IsNumeric(c.lib, c.expression[q]) && !IsArgumentSeparator(c.expression[q]) &&
              !IsOpenParentheses(c.expression[q]) && !IsCloseParentheses(c.expression[q]) &&
              !c.lib.isAllowedOperatorChar(c.expression[q]) && !IsNameStart(c.lib, c.expression[q])
    ensures r.Err? ==> r.error == UnparsableChar(c.expression[q], q)
  {
    var ch := c.expression[q];
    if IsNumeric(c.lib, ch) then
      Ok(ScanNumber(c, q))
    else if IsArgumentSeparator(ch) then
      Ok((ArgumentSeparatorToken, q + 1))
    else if IsOpenParentheses(ch) then
      Ok((OpenParenthesesToken, q + 1))
    else if IsCloseParentheses(ch) then
      Ok((CloseParenthesesToken, q + 1))
    else if c.lib.isAllowedOperatorChar(ch) then
      Ok(ScanOperator(c, q, lastToken))
    else if IsNameStart(c.lib, ch) then
      var (name, end) := ScanName(c, q);
      Ok((FunctionOrVariable(c, name), end))
    else
      Err(UnparsableChar(ch, q))
  }

  /** One call of nextToken from cursor cur: reading at or past the end
      fails without moving; whitespace is skipped; running out of input
      while skipping fails with the cursor at the end; otherwise the
      character found is dispatched, and on success the cursor moves past
      the lexeme and the token becomes the last token. */
  function Step<F, O>(c: Context<F, O>, cur: Cursor<F, O>): (r: (Result<Token<F, O>>, Cursor<F, O>))
    requires cur.pos <= |c.expression|
    ensures r.1.pos <= |c.expression|
    ensures cur.pos == |c.expression| ==> r == (Err(OutOfBounds(cur.pos)), cur)
    ensures r.0.Ok? ==> cur.pos < r.1.pos && r.1.lastToken == Some(r.0.value)
    ensures r.0.Ok? ==> SkipWhitespace(c.lib, c.expression, cur.pos) < r.1.pos
    ensures r.0.Err? ==> r.1.lastToken == cur.lastToken && cur.pos <= r.1.pos
    ensures r.0.Err? && r.0.error.OutOfBounds? ==>
              r.0.error.index == r.1.pos == |c.expression| &&
              forall k :: cur.pos <= k < |c.expression| ==> c.lib.isWhitespace(c.expression[k])
    ensures r.0.Err? && r.0.error.UnparsableChar? ==>
              r.0.error.position == r.1.pos == SkipWhitespace(c.lib, c.expression, cur.pos) < |c.expression| &&
              r.0.error.ch == c.expression[r.1.pos]
  {
    if cur.pos >= |c.expression| then
      (Err(OutOfBounds(cur.pos)), cur)
    else
      var q := SkipWhitespace(c.lib, c.expression, cur.pos);
      if q == |c.expression| then
        (Err(OutOfBounds(q)), Cursor(q, cur.lastToken))
      else
        match Dispatch(c, q, cur.lastToken)
        case Ok((t, end)) => (Ok(t), Cursor(end, Some(t)))
        case Err(e) => (Err(e), Cursor(q, cur.lastToken))
  }

  /** The position and the token where the next lexeme begins: the first
      non-whitespace character at or after the cursor, and the token kind is
      decided by that character's class alone. */
  lemma StepStartsAfterWhitespace<F, O>(c: Context<F, O>, cur: Cursor<F, O>)
    requires cur.pos < |c.expression|
    ensures var q := SkipWhitespace(c.lib, c.expression, cur.pos);
            var (r, next) := Step(c, cur);
            q < |c.expression| ==>
              Dispatch(c, q, cur.lastToken) == (if r.Ok? then Ok((r.value, next.pos)) else Err(r.error))
  {
  }

  /** Because 'e' counts as numeric, a lexeme that begins with 'e' is always
      scanned as a number, never as a name (so a name never starts with 'e'). */
  lemma LeadingEIsNumber<F, O>(c: Context<F, O>, cur: Cursor<F, O>)
    requires cur.pos <= |c.expression|
    requires SkipWhitespace(c.lib, c.expression, cur.pos) < |c.expression|
    requires c.expression[SkipWhitespace(c.lib, c.expression, cur.pos)] == 'e'
    ensures Step(c, cur).0.Ok? && Step(c, cur).0.value.NumberToken?
    ensures Step(c, cur).0.value.offset == SkipWhitespace(c.lib, c.expression, cur.pos)
  {
  }

  /** The number scan does not take a sign: when '+' and '-' are not
      digits, a number lexeme holds neither, so "1e-5" is not one lexeme. */
  lemma NumberStopsAtSign<F, O>(c: Context<F, O>, q: nat)
    requires q < |c.expression|
    requires !c.lib.isDigit('-') && !c.lib.isDigit('+')
    ensures var (t, end) := ScanNumber(c, q);
            forall k :: q < k < end ==> c.expression[k] != '-' && c.expression[k] != '+'
  {
  }

  /** The arity hint seen by the single-character built-in lookup of a
      step is unary exactly at the start or after an operator token, so
      after a group symbol or a separator an operator is binary. */
  lemma ArityAfterGroupOrSeparator<F, O>(t: Token<F, O>)
    requires t.OpenParenthesesToken? || t.CloseParenthesesToken? || t.ArgumentSeparatorToken?
             || t.NumberToken? || t.VariableToken? || t.FunctionToken?
    ensures ArgCount(Some(t)) == 2
    ensures ArgCount<F, O>(None) == 1
  {
  }

  // ---------------------------------------------------------------------
  // Draining the tokenizer

  /** A token together with the span [start, end) of the expression that
      its step consumed after skipping whitespace. */
  datatype Lexed<F, O> = Lexed(token: Token<F, O>, start: nat, end: nat)

  /** The spans tile [from, to): in order, without overlap, each span
      starting on a non-whitespace character, and only whitespace between
      consecutive spans and after the last one. */
  ghost predicate Tiles<F, O>(lib: Library<F, O>, s: string, from: nat, spans: seq<Lexed<F, O>>, to: nat)
    decreases |spans|
  {
    if spans == [] then
      from <= to <= |s| && forall k :: from <= k < to ==> lib.isWhitespace(s[k])
    else
      from <= spans[0].start < spans[0].end && spans[0].start < |s| &&
      !lib.isWhitespace(s[spans[0].start]) &&
      (forall k :: from <= k < spans[0].start ==> lib.isWhitespace(s[k])) &&
      Tiles(lib, s, spans[0].end, spans[1..], to)
  }

  /** Where the last span ends, or from when there is none. */
  function LastEnd<F, O>(from: nat, spans: seq<Lexed<F, O>>): nat {
    if spans == [] then from else spans[|spans| - 1].end
  }

  /** Each span is what one successful step gives from where the previous
      span ended (from, at first), with the previous token (last, at first)
      as the last token: the step's token, starting at the first
      non-whitespace character and ending at the new cursor. */
  ghost predicate Follows<F, O>(c: Context<F, O>, from: nat, last: Option<Token<F, O>>, spans: seq<Lexed<F, O>>)
    decreases |spans|
  {
    if spans == [] then true
    else
      from <= |c.expression| &&
      spans[0].start == SkipWhitespace(c.lib, c.expression, from) &&
      Step(c, Cursor(from, last)) == (Ok(spans[0].token), Cursor(spans[0].end, Some(spans[0].token))) &&
      Follows(c, spans[0].end, Some(spans[0].token), spans[1..])
  }

  /** A caller's loop "while (hasNext()) nextToken()": the tokens with
      their spans, the final cursor, and the error that stopped it, if any.
      The spans are the successive steps' tokens; the loop ends at the end
      of the input or at the first step that fails, whose error it reports. */
  function Drain<F, O>(c: Context<F, O>, cur: Cursor<F, O>): (r: (seq<Lexed<F, O>>, Cursor<F, O>, Option<LexError>))
    requires cur.pos <= |c.expression|
    ensures Tiles(c.lib, c.expression, cur.pos, r.0, r.1.pos)
    ensures Follows(c, cur.pos, cur.lastToken, r.0)
    ensures r.2.None? ==> r.1.pos == |c.expression| == LastEnd(cur.pos, r.0)
    ensures r.2.Some? ==>
              LastEnd(cur.pos, r.0) < |c.expression| &&
              Step(c, Cursor(LastEnd(cur.pos, r.0), r.1.lastToken)) == (Err(r.2.value), r.1)
    ensures r.1.lastToken == if r.0 == [] then cur.lastToken else Some(r.0[|r.0| - 1].token)
    decreases |c.expression| - cur.pos
  {
    if cur.pos >= |c.expression| then
      ([], cur, None)
    else
      var (res, next) := Step(c, cur);
      match res
      case Err(e) => ([], next, Some(e))
      case Ok(t) =>
        var (rest, fin, err) := Drain(c, next);
        ([Lexed(t, SkipWhitespace(c.lib, c.expression, cur.pos), next.pos)] + rest, fin, err)
  }

  /** An expression of whitespace only yields no token and fails at the end
      of the input: the skip loop reads past the last character. */
  lemma WhitespaceOnlyFails<F, O>(c: Context<F, O>, lastToken: Option<Token<F, O>>)
    requires |c.expression| > 0
    requires forall k :: 0 <= k < |c.expression| ==> c.lib.isWhitespace(c.expression[k])
    ensures Drain(c, Cursor(0, lastToken)) ==
              ([], Cursor(|c.expression|, lastToken), Some(OutOfBounds(|c.expression|)))
  {
    RunEndUnique(c.lib, Whitespace, c.expression, 0, |c.expression|);
  }
}

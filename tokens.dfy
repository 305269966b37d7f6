/** Values the tokenizer works with: tokens, errors, the collaborators it
    consults, and the lexer state as a plain value. */
module Tokens {

  /** Stands in for a Java reference that may be null. */
  datatype Option<+T> = None | Some(value: T)

  /** Looks a key up in a map (Java's Map.get, with null for a missing key). */
  function Lookup<K, V>(m: map<K, V>, k: K): (r: Option<V>)
    ensures r.Some? <==> k in m
    ensures r.Some? ==> r.value == m[k]
  {
    if k in m then Some(m[k]) else None
  }

  /** Looks a key up in a map that may itself be null; a null map behaves
      like an empty one. */
  function UserLookup<K, V>(m: Option<map<K, V>>, k: K): (r: Option<V>)
    ensures r.Some? <==> m.Some? && k in m.value
    ensures r.Some? ==> r.value == m.value[k]
  {
    match m
    case None => None
    case Some(table) => Lookup(table, k)
  }

  /** The token kinds. A number keeps only its lexeme (offset and length in
      the expression), not its floating-point value. A function token holds
      the function descriptor, an operator token the operator descriptor
      that the scan settled on, which is null (None) when no prefix
      resolved. */
  datatype Token<F, O> =
    | NumberToken(offset: nat, length: nat)
    | VariableToken(name: string)
    | FunctionToken(func: F)
    | OperatorToken(operator: Option<O>)
    | OpenParenthesesToken
    | CloseParenthesesToken
    | ArgumentSeparatorToken

  /** Why nextToken gives up. OutOfBounds is the array access past the end of
      the expression (an ArrayIndexOutOfBoundsException in the source);
      UnparsableChar is the TokenizerException for a character that no
      class claims, with the character and its position. */
  datatype LexError =
    | OutOfBounds(index: nat)
    | UnparsableChar(ch: char, position: nat)

  datatype Result<+T> = Ok(value: T) | Err(error: LexError)

  /** The collaborators the tokenizer calls but does not define: the
      character predicates of java.lang.Character, the operator alphabet of
      Operator.isAllowedOperatorChar, and the built-in tables behind
      Functions.getBuiltinFunction and Operators.getBuiltinOperator (the
      latter keyed by symbol and argument count). */
  datatype Library<F, O> = Library(
    isWhitespace: char -> bool,
    isAlphabetic: char -> bool,
    isDigit: char -> bool,
    isAllowedOperatorChar: char -> bool,
    builtinFunctions: map<string, F>,
    builtinOperators: map<(char, int), O>)

  /** What a tokenizer is constructed with and never changes: the
      character buffer and the two user tables (each possibly null). */
  datatype Context<F, O> = Context(
    lib: Library<F, O>,
    expression: string,
    userFunctions: Option<map<string, F>>,
    userOperators: Option<map<string, O>>)

  /** The mutable part of a tokenizer: the cursor and the last token
      emitted (null before the first). */
  datatype Cursor<F, O> = Cursor(pos: nat, lastToken: Option<Token<F, O>>)
}

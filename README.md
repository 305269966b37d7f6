# exp4j expression tokenizer in Dafny

This project models the lexer of exp4j, `net.objecthunter.exp4j.tokenizer.Tokenizer`.
A tokenizer holds:

- a read-only character array;
- an optional user function table and an optional user operator table;
- a cursor `pos`;
- the last token it emitted, `lastToken`.

Each call of `nextToken` does four things. It skips whitespace and classifies the character it reaches. It then scans one lexeme: a number, a name (function or variable), a longest-match operator, a group symbol or an argument separator. Finally it moves the cursor past the lexeme and records the token as the last token.

The project has four files:

- `tokens.dfy` (module `Tokens`) holds the values: tokens, errors, and the collaborators the tokenizer calls but does not define. The collaborators are the `java.lang.Character` predicates, `Operator.isAllowedOperatorChar`, and the built-in function and operator tables. They are gathered in a `Library` value of uninterpreted predicates and maps. A user table that may be null is an `Option<map>`.
- `lexing.dfy` (module `Lexing`) specifies one `nextToken` call as the pure function `Step`. `Step` maps the immutable context and a cursor (position plus last token) to a result and a new cursor. The file also holds the scans and lookups `Step` uses, and properties about them. `Drain` specifies a caller that keeps calling `nextToken` while `hasNext` holds.
- `tokenizer.dfy` (module `Tokenizer`) is the class itself. It has the fields `expression`, `pos` and `lastToken`, the same loops as the Java methods, and one method per `parse*` method. Each method is proved to leave exactly the state and result that the matching function of `Lexing` describes, or, for the one-character separator and group parses, states them directly.
- `examples.dfy` (module `Examples`) proves what `Step` and `Drain` give on concrete inputs over a small sample library. The inputs are `3+4`, `-3`, `2--3`, `sin(x)`, `2**3` with a user operator `**`, `3 & 4`, `1e-5` and `exp(1)`.

A number token keeps its lexeme as an offset and a length, not a floating-point value.

`isNumeric` (`Tokenizer.java:211-213`) accepts `e` as well as digits and `.`. So a lexeme that starts with `e` always takes the number scan (`Lexing.LeadingEIsNumber`). On `exp(1)` the scan takes the one-character number lexeme `e` (`Examples.LeadingEOfName`). Because more input follows, the source passes that lexeme to `new NumberToken(expression, offset, len)` (`Tokenizer.java:207`). That constructor computes the token's value and is not part of this model, so what it does with `e` is not modelled. `Double.parseDouble` (`Tokenizer.java:200`) is called directly only when the number is the last character of the expression, as in `2+e`, and it throws `NumberFormatException` on `e` (see "Left out").

Reading past the end of the array throws `ArrayIndexOutOfBoundsException` in the source. There are two such cases:

- `nextToken` is called at the end;
- only whitespace is left before the end.

The model returns `Err(OutOfBounds(index))` in both cases and keeps the cursor where Java leaves it; it does not forbid the call. A character that no class claims gives `Err(UnparsableChar(ch, position))`, which stands for the `TokenizerException`.

## Model

| member | source | states |
|---|---|---|
| `Tokens.Lookup` | src/main/java/net/objecthunter/exp4j/tokenizer/Tokenizer.java:120 | `Map.get`: a value exactly when the key is in the map, and then the map's entry (null otherwise); the same lookup serves lines 174 and 186 |
| `Tokens.UserLookup` | src/main/java/net/objecthunter/exp4j/tokenizer/Tokenizer.java:119-121 | a lookup in a user table that may be null finds a value exactly when the table is non-null and has the key, and then it is that entry |
| `Lexing.SymbolClasses` | src/main/java/net/objecthunter/exp4j/tokenizer/Tokenizer.java:82-102 | the `isArgumentSeparator`, `isOpenParantheses` and `isCloseParantheses` classes are pairwise disjoint; `,` separates, each of `(` `{` `[` opens and each of `)` `}` `]` closes |
| `Lexing.NumericClass` | src/main/java/net/objecthunter/exp4j/tokenizer/Tokenizer.java:211-213 | `isNumeric` accepts every digit, `.` and `e`, and nothing else |
| `Lexing.NameClasses` | src/main/java/net/objecthunter/exp4j/tokenizer/Tokenizer.java:135-138 | the name-start test (alphabetic or `_`, line 68) implies the name-part test (alphabetic, digit or `_`); `_` starts a name; every digit continues a name, and one that is neither alphabetic nor `_` cannot start one |
| `Lexing.RunEnd` | src/main/java/net/objecthunter/exp4j/tokenizer/Tokenizer.java:135-140 | the maximal-run end: every character in `[i, e)` is in the class, the one at `e` (if any) is not, and `i <= e <= |s|` |
| `Lexing.RunEndUnique` | src/main/java/net/objecthunter/exp4j/tokenizer/Tokenizer.java:203-206 | any index with the two maximal-run properties is the end the run function computes |
| `Lexing.SkipWhitespace` | src/main/java/net/objecthunter/exp4j/tokenizer/Tokenizer.java:55-57 | the result is the first non-whitespace index at or after `p` (or the length), with only whitespace in between |
| `Lexing.GetFunction` | src/main/java/net/objecthunter/exp4j/tokenizer/Tokenizer.java:117-126 | a name in the non-null user table resolves to the user entry, otherwise to the built-in entry; it resolves exactly when one of the two tables has it |
| `Lexing.ArgCount` | src/main/java/net/objecthunter/exp4j/tokenizer/Tokenizer.java:177 | the arity hint is 1 or 2, and it is 1 exactly when there is no last token or the last token is an operator |
| `Lexing.GetOperator` | src/main/java/net/objecthunter/exp4j/tokenizer/Tokenizer.java:171-181 | the user table takes precedence; a symbol whose length is not 1 resolves only through the user table; a one-character symbol the user table lacks goes to the built-in table under the arity hint |
| `Lexing.GetOperatorChar` | src/main/java/net/objecthunter/exp4j/tokenizer/Tokenizer.java:183-193 | the user table keyed by the one-character string takes precedence, otherwise the built-in table under the arity hint |
| `Lexing.OperatorOverloadsAgree` | src/main/java/net/objecthunter/exp4j/tokenizer/Tokenizer.java:171-193 | the two getOperator overloads give the same descriptor for a one-character symbol |
| `Lexing.NullTablesActAsEmpty` | src/main/java/net/objecthunter/exp4j/tokenizer/Tokenizer.java:117-126 | a null user table behaves exactly like an empty one, for function and for operator lookup |
| `Lexing.ScanNumber` | src/main/java/net/objecthunter/exp4j/tokenizer/Tokenizer.java:195-209 | the number lexeme is the first character plus the maximal run of digits, `.` and `e` after it; the token records that offset and length, and the end is past the start |
| `Lexing.ScanName` | src/main/java/net/objecthunter/exp4j/tokenizer/Tokenizer.java:128-143 | the name is exactly the substring from the first character through the maximal run of letters, digits and `_` after it |
| `Lexing.FunctionOrVariable` | src/main/java/net/objecthunter/exp4j/tokenizer/Tokenizer.java:104-115 | a resolving name gives a function token with the resolved descriptor, any other name gives a variable token holding exactly the name |
| `Lexing.OperatorScan` | src/main/java/net/objecthunter/exp4j/tokenizer/Tokenizer.java:156-164 | the extension loop commits to the longest prefix that resolved: every character it took on is an operator character, every longer prefix is in the user table and the committed descriptor is that prefix's entry; it stops at the end, at a non-operator character, or at the first prefix that does not resolve |
| `Lexing.OperatorScanUnique` | src/main/java/net/objecthunter/exp4j/tokenizer/Tokenizer.java:156-164 | a committed length and descriptor with the loop's properties (operator characters taken, every longer prefix resolved, the descriptor of the last one, and no further extension) are exactly what the extension loop returns |
| `Lexing.OperatorScanExtends` | src/main/java/net/objecthunter/exp4j/tokenizer/Tokenizer.java:157-162 | one loop round: an operator character whose longer prefix resolves moves the scan on to that prefix and its descriptor |
| `Lexing.OperatorScanStops` | src/main/java/net/objecthunter/exp4j/tokenizer/Tokenizer.java:156-159 | at the end of input, at a non-operator character, or at an unresolved prefix the scan commits to what it has |
| `Lexing.NoUserOperatorsSingleChar` | src/main/java/net/objecthunter/exp4j/tokenizer/Tokenizer.java:171-181 | with no user operators (null or empty table) the scan never extends: every operator lexeme is one character long |
| `Lexing.ScanOperator` | src/main/java/net/objecthunter/exp4j/tokenizer/Tokenizer.java:145-169 | an operator token; a one-character lexeme carries the single-character lookup, a longer lexeme carries the user table's entry for exactly that lexeme; all characters after the first are operator characters; it is the longest match: every prefix longer than one character up to its end is in the user table, and it cannot be extended (the next character is not an operator character, or the longer prefix is not in the user table) |
| `Lexing.ScanOperatorCommits` | src/main/java/net/objecthunter/exp4j/tokenizer/Tokenizer.java:148-167 | the operator token carries the descriptor the extension loop ends with, starting from the single-character lookup, and the cursor moves by the committed length |
| `Lexing.Dispatch` | src/main/java/net/objecthunter/exp4j/tokenizer/Tokenizer.java:58-102 | the fixed classification order (numeric, `,`, open group, close group, operator character, name start), each class stated as "the first class that claims the character decides the scan": a numeric character gives the number scan, `,` and all three open or close symbols give their one token and advance by one, an operator character no earlier class claims gives the operator scan, a name start no earlier class claims gives the name scan and the function-or-variable choice; an error exactly when no class claims the character, reporting it and its position |
| `Lexing.Step` | src/main/java/net/objecthunter/exp4j/tokenizer/Tokenizer.java:52-74 | the cursor stays within bounds; a call at the end fails without moving; a success moves strictly forward, past the first non-whitespace character, and records the token; an out-of-bounds failure means only whitespace was left and leaves the cursor at the end; an unparsable character is the first non-whitespace one, at the reported position |
| `Lexing.StepStartsAfterWhitespace` | src/main/java/net/objecthunter/exp4j/tokenizer/Tokenizer.java:53-57 | the lexeme of a step is the one the classification picks at the first non-whitespace index at or after the old cursor |
| `Lexing.LeadingEIsNumber` | src/main/java/net/objecthunter/exp4j/tokenizer/Tokenizer.java:211-213 | a lexeme that starts with `e` is always a number token at that offset |
| `Lexing.NumberStopsAtSign` | src/main/java/net/objecthunter/exp4j/tokenizer/Tokenizer.java:203-213 | a number lexeme contains no `+` and no `-` after its first character |
| `Lexing.ArityAfterGroupOrSeparator` | src/main/java/net/objecthunter/exp4j/tokenizer/Tokenizer.java:177 | after a number, name, function, group symbol or separator the arity hint is binary, and at the start it is unary |
| `Lexing.Drain` | src/main/java/net/objecthunter/exp4j/tokenizer/Tokenizer.java:48-74 | repeated steps while input is left: each span is the token of one successful `Step` from where the previous span ended, starting at the first non-whitespace character; the spans are in order, without overlap, with only whitespace between them; with no error the last span ends at the end of the input; an error is exactly what `Step` gives from the last span's end, with the cursor it leaves; the last token is the last one emitted |
| `Lexing.WhitespaceOnlyFails` | src/main/java/net/objecthunter/exp4j/tokenizer/Tokenizer.java:55-56 | an all-whitespace expression yields no token and an out-of-bounds failure at its length |
| `Tokenizer.Tokenizer.constructor` | src/main/java/net/objecthunter/exp4j/tokenizer/Tokenizer.java:40-46 | the tokenizer holds the given expression and tables, with the cursor at 0 and no last token |
| `Tokenizer.Tokenizer.IsEndOfExpression` | src/main/java/net/objecthunter/exp4j/tokenizer/Tokenizer.java:215-217 | at the end exactly when the offset is at or past the length, so an offset that is not at the end indexes the expression |
| `Tokenizer.Tokenizer.HasNext` | src/main/java/net/objecthunter/exp4j/tokenizer/Tokenizer.java:48-50 | true exactly when the cursor is before the end; when false, the next step can only fail and changes nothing |
| `Tokenizer.Tokenizer.NextToken` | src/main/java/net/objecthunter/exp4j/tokenizer/Tokenizer.java:52-74 | the result, the new cursor and the new last token are those of one `Step` from the old state, and the cursor stays within bounds |
| `Tokenizer.Tokenizer.ParseArgumentSeparatorToken` | src/main/java/net/objecthunter/exp4j/tokenizer/Tokenizer.java:76-80 | a separator token; the cursor advances by one and the token becomes the last token |
| `Tokenizer.Tokenizer.ParseParentheses` | src/main/java/net/objecthunter/exp4j/tokenizer/Tokenizer.java:86-94 | an open or close group token as asked; the cursor advances by one and the token becomes the last token |
| `Tokenizer.Tokenizer.ParseFunctionOrVariable` | src/main/java/net/objecthunter/exp4j/tokenizer/Tokenizer.java:104-115 | the token and the new cursor are those of the name scan and the function-or-variable choice; the token becomes the last token |
| `Tokenizer.Tokenizer.ParseName` | src/main/java/net/objecthunter/exp4j/tokenizer/Tokenizer.java:128-143 | the name returned and the new cursor are those of the maximal name scan; the last token is untouched |
| `Tokenizer.Tokenizer.ParseOperatorToken` | src/main/java/net/objecthunter/exp4j/tokenizer/Tokenizer.java:145-169 | the token and the new cursor are those of the longest-match operator scan; the token becomes the last token; the loop keeps the scan's properties (operator characters taken, prefixes resolved, `lastValid` the current prefix's descriptor) as invariants |
| `Tokenizer.Tokenizer.ParseNumberToken` | src/main/java/net/objecthunter/exp4j/tokenizer/Tokenizer.java:195-209 | the token and the new cursor are those of the maximal number scan, including the one-character lexeme at the end of input; the token becomes the last token |
| `Examples.ThreePlusFour` | src/main/java/net/objecthunter/exp4j/tokenizer/Tokenizer.java:58-67 | `3+4` lexes to a number, the binary plus and a number, with their spans |
| `Examples.UnaryMinus` | src/main/java/net/objecthunter/exp4j/tokenizer/Tokenizer.java:189-190 | `-3` lexes to the unary minus and a number |
| `Examples.BinaryThenUnaryMinus` | src/main/java/net/objecthunter/exp4j/tokenizer/Tokenizer.java:156-164 | `2--3` lexes to a number, a binary minus, a unary minus and a number; `--` is not one symbol |
| `Examples.FunctionCallOfVariable` | src/main/java/net/objecthunter/exp4j/tokenizer/Tokenizer.java:104-126 | `sin(x)` lexes to the built-in function, an open group, the variable `x` and a close group |
| `Examples.LongestMatchUserOperator` | src/main/java/net/objecthunter/exp4j/tokenizer/Tokenizer.java:145-174 | with a user operator `**`, `2**3` lexes to a number, the single operator `**` and a number |
| `Examples.UnknownCharacter` | src/main/java/net/objecthunter/exp4j/tokenizer/Tokenizer.java:73 | `3 & 4` yields the number and then fails on `&` at position 2 |
| `Examples.SignEndsExponent` | src/main/java/net/objecthunter/exp4j/tokenizer/Tokenizer.java:203-213 | `1e-5` lexes to the number `1e`, a binary minus and the number `5` |
| `Examples.LeadingEOfName` | src/main/java/net/objecthunter/exp4j/tokenizer/Tokenizer.java:211-213 | the first lexeme of `exp(1)` is the one-character number `e` |

## Left out

- The numeric value of a number token is left out, because it is floating point. A number token keeps only its lexeme range. For a lexeme that ends at the last character, line 200 parses it with `Double.parseDouble`, which throws `NumberFormatException` on a malformed one such as `e`. Otherwise line 207 hands the lexeme to the `NumberToken` constructor, which is not part of this model. So a lexeme such as `e`, `1e` or `1..2` is a number token here whatever that parse or constructor does with it. `ParseNumberToken` takes `firstChar` only to match the Java signature, since in the source it only feeds the parsed value.
- The contents of `Functions.getBuiltinFunction` and `Operators.getBuiltinOperator`, and of `Operator.isAllowedOperatorChar`, are parameters (the maps and the predicate of `Library`). The Token, Function and Operator classes are not part of this model.
- The Unicode detail of `Character.isWhitespace`, `isAlphabetic` and `isDigit` is left out; they are abstract predicates on `char`. No proof needs digits and letters to be disjoint, so that is not assumed.
- The character encoding is left out. A Dafny `char` is a Unicode scalar value, while Java's `char[]` holds UTF-16 code units, and `pos`, offsets, lengths and reported positions count code units. A character outside the Basic Multilingual Plane is one element here but two surrogate halves in the source. No `Character` predicate accepts a surrogate half, so the source throws at the first half. The model agrees with the source only when the `Library` predicates are false on such a character.
- The text of the `TokenizerException` message is left out. The error keeps only the character and its position.
- The failure the `OperatorToken` constructor may raise for a null descriptor is left out, because that constructor is not part of this model. A scan that resolves nothing yields `OperatorToken(None)`.
- The end-of-expression guards in `parseName` (lines 132-134) and `parseOperatorToken` (lines 150-154) are left out. They can never fire, because `nextToken` has already read the character at `pos`.
- The unused local `val` (line 54) is left out.
- Java's 32-bit `int` for `pos` and lengths is left out. Positions are unbounded naturals, and an array longer than `Integer.MAX_VALUE` cannot exist anyway.

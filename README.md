# lflow front end: a verified model

This project models the front end of lflow, a small compiler for a toy
language written in C. It covers:

- the pull-based tokenizer with its whitespace-normalising pre-pass
  (`Tokenizer_Prime`);
- the token kinds and their leading-character table;
- the type model: structural comparison and the byte/word/dword/qword width
  ladder;
- the first part of the semantic analysis: the table of primitive types,
  lookup by name, and the walk over the syntax tree;
- the supporting containers: an append-only string buffer and a growable
  array;
- decimal conversion (`stoi`);
- the parser's two-token lookahead window.

Each C file has a module:

| module | file | form |
|---|---|---|
| `Wrappers` | `wrappers.dfy` | `Option` stands for a nullable pointer, `Status` for `STATUS_OK`/`STATUS_FAIL` |
| `Tokens` | `tokens.dfy` | `src/token.c`: the 28 token kinds, `TokenType_String`, `TokenType_Leading`, `Token_Create` (pure functions) |
| `XStrings` | `xstring.dfy` | `src/xstring.c`: class `XString` over a NUL-terminated `array<char>` |
| `Arrays` | `arr.dfy` | `src/arr.c`: class `Array` whose elements are a `seq` field |
| `Conv` | `conv.dfy` | `src/conv.c`: `ctoi` as a function, `stoi` as a loop proved against Horner's rule |
| `Types` | `types.dfy` | `src/type.c`: pure functions over a `Type` datatype |
| `Lexer` | `tokenizer.dfy` | `src/tokenizer.c`: class `Tokenizer` and the method `Prime` |
| `Semantic` | `semantic.dfy` | `src/semantic.c`: class `SemanticAnalysis` plus the expression analysis |
| `Parse` | `parse.dfy` | `src/parse.c`: class `Parser` |

`Tokenizer.Next` follows the C loop character by character. Its loop body is
split into `ScanCharacter`, `ScanLeading` and `ScanWord`. It is proved equal
to `NextToken`, a declarative description of the token scanned from a
position. The link between the two is `Run`, which is the same loop written
as a recursion over the input.

The properties are stated as lemmas about `NextToken`:

- the scan makes progress;
- the first character decides the token's kind;
- identifiers and integers are maximal munch;
- floats take punctuation;
- string literals are scanned as described below;
- two-character operators are single tokens.

### Behaviour reproduced as written

The model reproduces these behaviours of the C code:

- **`LAST_IDX` is never true inside the loop.** `LAST_IDX` tests
  `ix + 1 > length`, and the loop runs only while `ix < length`. So the
  `CONTINUE` tail always continues. The "float must not end with a dot" error
  and the "unclosed string literal" error are never reached:
  - `1.` scans as the float `1.`;
  - an unterminated string returns OK with the rest of the input.
- **Operator precedence makes floats swallow punctuation.** The condition at
  `src/tokenizer.c:144` groups as `(DIGIT(c) && type == TT_LINT) || type == TT_LFLOAT`.
  A float therefore takes every character up to whitespace or a quote, so
  `1.5;` is one float token.
- **A quote interrupts any token.** A `"` turns the token in progress into a
  string literal that keeps the text before it: `ab"c d"` scans as the
  string `abc d`.
- **`Tokenizer_Prime` also touches string literals and the end of the text.**
  It strips trailing whitespace too, and it collapses whitespace inside
  string literals, because it runs before any token is recognised.
- **The right operand is never analysed.** In
  `SemanticAnalysis_AnalyseExpression` the "right" type is computed from
  `binary.left` again (`src/semantic.c:34`).
- **`AnalyseExpression` has no final `return`.** Reading its result on the
  paths that fall off the end (`src/semantic.c:43-44`) is undefined in C. The
  model fixes that result as the parameter `fallOff`, a function of the node.
  Under that choice both analyses of `binary.left` agree, and the conflict
  check compares a type with itself and never fires. In C the conflict check
  runs only on values that are themselves undefined.
- **The header and the implementation disagree.** `src/include/type.h` and
  `src/include/ast.h` declare a `Type` and node kinds different from those
  `src/type.c` and `src/semantic.c` use. The model follows the `.c` files:
  - the four primitives are byte, word, dword and qword, in that order;
  - the node datatype holds exactly the kinds `src/semantic.c` dispatches on.

## Model

| member | source | states |
|---|---|---|
| Tokens.OfOrdinal | src/include/token.h:4-41 | a C enum value names a kind exactly when it lies in 0..27, and then the kind's ordinal is that value |
| Tokens.TokenTypeString | src/token.c:10-47 | each of the 28 enum values prints as its enumerator's name; every other value prints as "(Unknown type)" |
| Tokens.TokenTypeStringOfKind | src/token.c:10-47 | printing a kind's own value gives that kind's own name |
| Tokens.NamesDistinct | src/token.c:10-47 | no two kinds print the same name, and none prints the fallback |
| Tokens.Leading | src/token.c:70-93 | never yields IDEN, a literal kind or a compound kind |
| Tokens.LeadingKnownIffSymbol | src/token.c:70-93 | the kind is not UNKNOWN exactly for `( ) [ ] { } = + - * / : ; \ & \| > <` |
| Tokens.LeadingInjective | src/token.c:72-89 | no two bound characters share a kind |
| Tokens.AngleBrackets | src/token.c:88-89 | `>` is LGREATER and `<` is RGREATER |
| Tokens.CreateToken | src/token.c:51-58 | the token holds the given text and kind, and its length is the text's length |
| XStrings.XString.constructor | src/xstring.c:6-12 | a fresh buffer has length 0 and empty content |
| XStrings.XString.Append | src/xstring.c:19-27 | length grows by exactly 1; the content becomes the old content followed by `c`; `str[length]` stays NUL, given `c != 0` |
| XStrings.XString.Last | src/xstring.c:29-33 | returns 0 on an empty buffer and the final character otherwise (so `c` after `Append(c)`) |
| Arrays.Array.constructor | src/arr.c:5-10 | a fresh array has length 0 |
| Arrays.Array.Push | src/arr.c:17-20 | length grows by 1; `p` is stored at the old length; earlier elements are unchanged |
| Arrays.Array.At | src/arr.c:22-27 | returns NULL exactly when the index is outside 0..length-1, and otherwise the element at that index |
| Conv.Ctoi | src/conv.c:23-25 | maps '0'..'9' to 0..9; any other character also contributes its offset from '0', which lies outside 0..9 |
| Conv.Stoi | src/conv.c:7-21 | for a NUL-free text (the loop stops at `strlen`) where no step overflows, the result is Horner's accumulation over the string and fits in an `int` |
| Conv.HornerStep | src/conv.c:8-13 | `stoi("") = 0` and `stoi(s + [c]) = 10*stoi(s) + ctoi(c)` |
| Conv.HornerIsDecimal | src/conv.c:7-21 | Horner's accumulation equals the positional decimal value |
| Conv.DigitsBounds | src/conv.c:7-21 | the value of a digit string lies in [0, 10^n) |
| Conv.LeadingZero | src/conv.c:7-21 | leading zeros do not change the value |
| Conv.DigitsNoOverflow | src/conv.c:10-17 | a digit string whose value fits in an `int` never overflows on the way, so `Stoi` applies |
| Conv.NoValidation | src/conv.c:12 | a non-digit is not rejected: "1a" converts to 59 |
| Types.PrimitiveTypeString | src/type.c:9-18 | each width prints as its own lower-case name; the "Unknown type" default is never produced |
| Types.Identifier | src/type.c:102-117 | the contract is the definition: NULL gives "(none)", void gives "void", a primitive gives its width name, complex and placeholder types give their token's lexeme; every tag has a return |
| Types.PrimitiveTypeStringInjective | src/type.c:9-18 | the four widths print as distinct names |
| Types.Compare | src/type.c:119-136 | false whenever the tags differ |
| Types.CompareIsSameIdentifier | src/type.c:102-136 | two types compare equal exactly when their tags agree and they print the same identifier |
| Types.CompareEquivalence | src/type.c:119-136 | reflexive, symmetric and transitive |
| Types.Quantify | src/type.c:138-152 | -1 exactly for non-primitives; otherwise one of 8, 16, 32, 64 |
| Types.QuantifyLadder | src/type.c:138-152 | byte/word/dword/qword map to 2^3..2^6; width order is ladder order and equal width means equal primitive |
| Types.Larger | src/type.c:154-160 | NULL exactly when either argument is not primitive; otherwise one of the inputs with the larger width, and `b` on a tie |
| Types.LargerCommutesAndIdempotent | src/type.c:154-160 | swapping the arguments gives a type that compares equal; `Larger(a, a)` is `a` |
| Lexer.Tokenizer.constructor | src/tokenizer.c:8-16 | the tokenizer starts at index 0 over a copy of the input, with the empty UNKNOWN token as current |
| Lexer.Tokenizer.HasNext | src/tokenizer.c:25-38 | true exactly when `ix < length` |
| Lexer.Tokenizer.Next | src/tokenizer.c:40-172 | status, new index and new current token are exactly what `NextToken` gives from the old index; on failure the current token is kept |
| Lexer.ScanCharacter | src/tokenizer.c:46-79 | one pass of the loop body leaves the rest of the scan unchanged: quote handling, string contents and whitespace |
| Lexer.ScanLeading | src/tokenizer.c:83-130 | a letter or digit opens an identifier or integer; a bound symbol (with its operator partner) is a whole token; anything else fails at that index |
| Lexer.ScanWord | src/tokenizer.c:135-151 | the dot switch to float, the precedence-quirk continuation, and the token break that does not consume the character |
| Lexer.RunIsNextToken | src/tokenizer.c:46-172 | from a token boundary the loop scans exactly the token `NextToken` describes |
| Lexer.RunFromLeading | src/tokenizer.c:51-130 | at a character that is not whitespace, the loop and `NextToken` classify alike |
| Lexer.RunString | src/tokenizer.c:51-68 | in string mode the loop gathers up to the closing quote, which it consumes, or to the end of the input |
| Lexer.SkipRun | src/tokenizer.c:135-148 | inside a word-like token the loop takes the whole run of its character class |
| Lexer.WordEnd | src/tokenizer.c:51-151 | where a word-like token is not continued it ends there, or a quote turns it into a string |
| Lexer.RunIdent | src/tokenizer.c:144-151 | an identifier's scan ends where its letters and digits end |
| Lexer.RunInt | src/tokenizer.c:135-151 | an integer's scan ends where its digits end, or turns into a float at a dot |
| Lexer.RunFloat | src/tokenizer.c:144-151 | a float's scan runs to whitespace, a quote or the end |
| Lexer.IntToFloat | src/tokenizer.c:135-141 | a dot after digits keeps the dot and switches to float |
| Lexer.DotStep | src/tokenizer.c:135-141 | the loop's step at a dot inside an integer |
| Lexer.StringStep | src/tokenizer.c:61-68 | one more string character does not change where the literal ends |
| Lexer.SpanMaximal | src/tokenizer.c:144-151 | a character-class run stops at the first character outside the class, and everything it passes is inside |
| Lexer.SkipSpacesFirst | src/tokenizer.c:71-79 | whitespace skipping passes only whitespace and stops at the first character that is not |
| Lexer.Compound | src/tokenizer.c:100-120 | a two-character operator is recognised only after a bound character, with a real next character, and has a compound kind |
| Lexer.NextTokenProgress | src/tokenizer.c:46-171 | from `ix < length` a successful scan strictly increases `ix` and never passes `length`; a failure points inside the input |
| Lexer.NextTokenBounds | src/tokenizer.c:46-171 | one scan never moves the index backwards or past the end, and where it ends does not depend on the current token |
| Lexer.OnlyWhitespace | src/tokenizer.c:71-171 | with only whitespace left the scan returns OK with ("", UNKNOWN) at the end of the input |
| Lexer.SkipsWhitespace | src/tokenizer.c:71-79 | scanning from `i` is scanning from the first character that is not whitespace |
| Lexer.LeadingDecides | src/tokenizer.c:51-97 | quote: string; letter: identifier (or string); digit: integer or float (or string); bound symbol: that symbol or an operator; anything else: failure at that index |
| Lexer.LexemeStartsWithLeading | src/tokenizer.c:83-84 | apart from string literals, the lexeme begins with its leading character |
| Lexer.UnmappedFails | src/tokenizer.c:91-97 | an unmapped leading character returns FAIL with `ix` on it and `current` unchanged |
| Lexer.IdentifierMaximal | src/tokenizer.c:71-151 | an identifier is a maximal run of letters, digits and `_`; the next character is not consumed; only a following quote makes it a string |
| Lexer.IntegerMaximal | src/tokenizer.c:71-151 | an integer is a maximal run of digits; it stays an integer exactly when no dot and no quote follow |
| Lexer.FloatSwallows | src/tokenizer.c:135-148 | after the dot a float takes every character up to whitespace or the end |
| Lexer.StringLiteral | src/tokenizer.c:51-68 | the lexeme is the text between the quotes, with no escapes; the closing quote is consumed; without one the literal takes the rest of the input |
| Lexer.CompoundToken | src/tokenizer.c:99-125 | a bound character and its operator partner scan as one two-character token, with `ix` advanced by 2 |
| Lexer.TwoCharacterOperators | src/tokenizer.c:100-120 | `->`, `<-`, `==`, `&&`, `\|\|` become POINT_RIGHT, POINT_LEFT, DOUBLE_EQUALS, AND_AND, OR_OR |
| Lexer.SingleCharacterSymbol | src/tokenizer.c:91-125 | every other bound symbol is a one-character token, with `ix` advanced by 1 |
| Lexer.FloatTakesPunctuation | src/tokenizer.c:144 | `1.5;` is a single LFLOAT token |
| Lexer.TrailingDot | src/tokenizer.c:135-162 | `1.` ending the text scans OK as the float `1.`, ending at index 2: at the dot `LAST_IDX` is false, so the trailing-dot error never fires |
| Lexer.QuoteInterrupts | src/tokenizer.c:51-59 | `ab"c d" e` scans as the string `abc d`, ending after the closing quote |
| Lexer.UnterminatedString | src/tokenizer.c:61-68 | an unterminated string returns OK with the rest of the input |
| Lexer.FailsOnHash | src/tokenizer.c:91-97 | `#` after blanks fails at its own index |
| Lexer.Prime | src/tokenizer.c:178-207 | the loop with `spaces`/`lead` and its buffer produces `Primed(str)` |
| Lexer.PrimedSnoc | src/tokenizer.c:184-201 | one more input character is dropped, appended, or appended after one space |
| Lexer.PrimedEmpty | src/tokenizer.c:184-201 | the output is empty exactly when the input is all whitespace |
| Lexer.PrimedCanonical | src/tokenizer.c:178-207 | the output has no tab or newline, no space at either end, and no two spaces in a row |
| Lexer.PrimedKeepsText | src/tokenizer.c:178-207 | deleting whitespace from the output gives the same text as deleting it from the input |
| Lexer.PrimedShorter | src/tokenizer.c:184-201 | the output is never longer than the input |
| Lexer.CanonicalFixed | src/tokenizer.c:184-201 | a text already in normal form is left unchanged |
| Lexer.PrimeIdempotent | src/tokenizer.c:184-201 | priming twice gives the same as priming once |
| Lexer.PrimeExample | src/tokenizer.c:184-201 | a tab, space and newline mix around `a` and `b` becomes `a b` |
| Semantic.AnalyseExpression | src/semantic.c:28-44 | when an expression gets a type it is always the fall-off value, never a computed one; a node that is not a binary expression gets the fall-off value and reports nothing |
| Semantic.ExpressionNeverConflicts | src/semantic.c:34-42 | the conflict check compares the left type with itself, so no diagnostic is ever reported |
| Semantic.BinaryOutcome | src/semantic.c:29-44 | a binary expression fails exactly when its left operand fails; otherwise control falls off the end |
| Semantic.RightNeverAnalysed | src/semantic.c:30-34 | the right child takes no part in the result |
| Semantic.NodeOutcomes | src/semantic.c:46-60 | NULL fails; a block passes; binary, variable-reference and call nodes pass exactly when they get a type; every other kind passes |
| Semantic.BlockDoesNotShortCircuit | src/semantic.c:52-59 | a NULL child does not stop the block: later children are analysed and the block still passes |
| Semantic.LookupFirst | src/semantic.c:66-73 | lookup returns the first entry whose identifier equals the name, and NULL when none does |
| Semantic.InitialTableOrdered | src/semantic.c:13-16 | the initial table has exactly four primitives, in increasing width |
| Semantic.InitialLookup | src/semantic.c:13-73 | with the initial table, lookup succeeds exactly for "byte", "word", "dword", "qword" and yields the primitive of that name |
| Semantic.PrimitiveNameRoundTrip | src/semantic.c:13-73 | printing a primitive's identifier and looking it up in the initial table gives back that primitive |
| Semantic.SemanticAnalysis.constructor | src/semantic.c:7-19 | the table holds byte, word, dword and qword, in that order |
| Semantic.SemanticAnalysis.FindType | src/semantic.c:66-73 | returns the table's first entry named like the token's lexeme, or NULL; the table is not modified |
| Semantic.SemanticAnalysis.AnalyseNode | src/semantic.c:46-60 | the status and the diagnostics are those `NodeAnalysis` gives; block children are analysed in order and their results ignored |
| Parse.Parser.constructor | src/parse.c:5-15 | `current` is the first scanned token and `next` the second; the statuses are ignored |
| Parse.Parser.Consume | src/parse.c:27-33 | `current` becomes the old `next`; `next` is the token from exactly one more scan, whatever its status |

## Left out

- `src/io.c` and `main.c` are not part of this model. File reading, the
  driver loop and all `printf` output are I/O. The analysis's diagnostics are
  modelled as a returned list instead of printed text.
- `stof` in `src/conv.c` is left out: it works on floating point with `powf`.
- Memory management is left out: every `*_Destroy`, `Type_DestroyHard`, and
  the wrong destroy callback in `SemanticAnalysis_Destroy`. Tokens are
  values, so the parser sharing the tokenizer's current token (which
  `Tokenizer_Next` frees) is modelled as equality of values.
- Arrays.Array.Push: models the intended growth of the array. The C code
  discards `realloc`'s result (`src/arr.c:18`).
- `SemanticAnalysis_RunAnalysis` is left out: it passes an `Array*` where a
  `Node*` is expected (`src/semantic.c:63`).
- `src/ast.c`, `src/util.c`, `src/complex.c` and `src/param.c` are not part of
  this model:
  - they only allocate, destroy and print;
  - `Token_Dup` is called (src/type.c:24,36,67,74; src/complex.c:12,23; src/param.c:7-8), but `src/include/token.h` does not declare it and `src/token.c` does not define it;
  - complex types are reduced to their identifier token.
- `PrimitiveType_FitInteger`, `SemanticAnalysis_ResolveType` and
  `Array_DestroyCallBack` are left out: they are declared but have no body.
- `src/include/status.h` is not part of this model. The expression check
  returns `AnalyseExpression(...) != NULL`, and the model reads a non-NULL
  result as a pass.
- The dead branches of `Tokenizer_Next` are not written out, because
  `LAST_IDX` cannot hold inside the loop:
  - the `CONTINUE` tail's increment and the trailing-dot error
    (`src/tokenizer.c:154-164`);
  - the unclosed-string error (`src/tokenizer.c:63-66`).
- Lexer.Tokenizer.Next: indices and lengths are unbounded, so the 32-bit
  `unsigned` index and length are not modelled as wrapping. Inputs are
  assumed shorter than 2^32 characters.
- Lexer.Prime: `spaces` is unbounded. The C `int` counter would overflow after
  2^31 consecutive whitespace characters.
- Semantic.ExpressionNeverConflicts: the fall-off value is modelled as a
  fixed function of the node, so the two analyses of `binary.left` agree. In
  C both values are undefined, so "never conflicts" holds only under this
  choice. The same applies to Semantic.BinaryOutcome.
- Conv.Ctoi: a C `char` is read as its unsigned code point. Where `char` is
  signed (gcc on x86-64), a byte 0x80-0xFF gives a value 256 lower than the
  model's. The contract still holds, since such a result lies outside 0..9,
  but `Horner` and `Stoi` over such strings follow the unsigned reading.
- Conv.Stoi: overflow is undefined behaviour in C and the source's check has
  an empty body. Callers therefore have to keep every step in the `int`
  range (`NoOverflow`).
- Types.PrimitiveTypeStringInjective: the `default` branch of
  `PrimitiveType_String` ("Unknown type") cannot be reached, because the
  datatype has exactly the four widths.

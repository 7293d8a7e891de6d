# json-validator in Dafny

A model of the core of Hultan/json-validator, a small Go tool that checks
whether a file holds a JSON object. The tool has three parts:

- **Scanner** (`internal/lexer/lexer.go`). It turns the text into tokens, each
  with a kind, a literal, a line and a column.
- **Parser** (`internal/json-parser/parser.go`). A recursive descent over those
  tokens that records the first error it meets and stops.
- **Older parser** (`internal/parser/parser.go`). The same grammar with other
  error messages and a few helpers of its own.

The token kinds and the keyword table come from `internal/token/token.go`.

## Modules

- **Token** (`token.dfy`). The token kinds, the token record, and the keyword
  table with `LookupIdent`.
- **Scanner** (`scanner.dfy`). A functional specification of one `NextToken`
  call. It works on a `Cursor`: position, read position, line and column.
  - `Lex` skips blanks, then `ScanAt` switches on the current rune in the
    source's order.
  - A run-time panic of the source becomes the explicit outcome `OutOfRange`.
    This is the out-of-range index that `peekRuneN` and the final slice of
    `readString` can hit after a `\u` near the end of the input.
- **ScannerFacts** (`scanner_facts.dfy`). Properties of the scanner: how lines
  and columns advance, the shape of string, number and identifier tokens, the
  `\u` panic, and the EOF tokens repeated past the end of the input.
- **ScannerExamples** (`scanner_examples.dfy`). The expected token lists of the
  tests in `internal/json-lexer/lexer_test.go`, proved call by call with exact
  lines and columns.
- **Lexer** (`lexer.dfy`). The `Lexer` struct as a class whose methods update
  its fields in place. Every method is proved against the Scanner functions;
  `NextToken` is proved to return `Lex`'s token and to leave `Lex`'s state.
- **Grammar** (`grammar.dfy`). A functional specification of the recursive
  descent over the parser state (current token, peeked token, scanner state).
  - It is parameterised by the error messages: `Current` holds those of
    `json-parser` and `Legacy` those of `parser`.
  - A scanner panic during a parse is the outcome `Crashed`.
  - Termination rests on the measure `Fuel`, under the invariant `Sane`.
- **GrammarFacts** (`grammar_facts.dfy`). Properties of the grammar:
  - which messages can be reported and at which token;
  - that the two message sets describe the same grammar;
  - how commas, empty containers and an input ending inside a container are
    handled.
- **Documents** (`documents.dfy`). An independent description of what is
  accepted: documents (objects, arrays, scalar tokens) rendered as sequences
  of token kinds. It proves that the parse functions accept exactly the inputs
  that begin with such a rendering, and stop right after it.
- **Parser** (`parser.dfy`). The parser structs as one class with the `errors`
  list and the `curToken`/`peekToken` fields.
  - The two Go files differ only in their messages (the `messages` field) and
    in the older file's helpers (`CurTokenIs`, `PeekTokenIs`, `ExpectPeek`,
    `PeekError`, `GetTokenString`).
  - Each parse method is proved to report what the Grammar function reports
    from the method's starting state. On true, no error was added. On false,
    exactly one error was added, holding the current token at the failure.
  - A fresh parser (`New`) starts in Grammar's `Start` state. So `New` followed
    by `Parse` reports `Grammar.Parse` of the text.

The older parser counts parsed members (`count > 0`) where the newer one keeps
a flag (`!first`). Both mean "at least one member was parsed", and the model
uses the flag for both.

The "Expected right brace - }" branch of internal/json-parser/parser.go:93-96
cannot be reached: the member loop leaves only at a `}`. So `{"a":1` (a missing
closing brace) is rejected with "Expected string literal" at EOF
(`GrammarFacts.UnterminatedAtEof`).

## Model

| member | source | states |
|---|---|---|
| Token.Spelling | internal/token/token.go:16-32 | definition: the string constant of each kind, never empty; SpellingInjective and DelimiterSpelling are about it |
| Token.SpellingInjective | internal/token/token.go:7-32 | distinct kinds have distinct string constants, so comparing kinds is comparing the source's kind strings |
| Token.DelimiterSpelling | internal/token/token.go:22-28 | each delimiter kind is spelled as the one character it stands for |
| Token.Keywords | internal/token/token.go:34-38 | definition: the keyword table, mapping "true", "false" and "null" to their kinds; LookupIdent's contract states what looking it up gives |
| Token.LookupIdent | internal/token/token.go:34-45 | "true", "false" and "null" map to their keyword kinds (both directions); every other identifier maps to ILLEGAL |
| Scanner.IsLetterOrDigit | internal/lexer/lexer.go:193-195 | definition: a digit or a letter; WordEnd and IdentifierToken are stated with it |
| Scanner.IsLetter | internal/lexer/lexer.go:197-201 | definition: an ASCII letter or '_'; IdentEnd, ScanIdentifier and IdentifierToken are stated with it |
| Scanner.IsDigit | internal/lexer/lexer.go:203-205 | definition: '0' to '9'; DigitsEnd, DigitsRun and NumberLiteralShape are stated with it |
| Scanner.IsHexDigit | internal/lexer/lexer.go:207-209 | definition: a decimal digit or a letter 'a' to 'f' in either case; the source's one use of it has no effect, so UnicodeEscape proves the scan does not depend on the four runes |
| Scanner.IsWhitespace | internal/lexer/lexer.go:211-214 | definition: space or tab; SkipBlanksColumn counts them |
| Scanner.IsNewLine | internal/lexer/lexer.go:216-219 | definition: carriage return or line feed; SkipBlanksLines counts them |
| Scanner.Initial | internal/lexer/lexer.go:23-38 | a new scanner is at line 1, column 0, position 0; it has read the first rune exactly when the text is non-empty |
| Scanner.ReadRune | internal/lexer/lexer.go:103-111 | the next read becomes the current position, with line and column unchanged |
| Scanner.At | internal/lexer/lexer.go:103-119 | the rune read or peeked at an index: the input's rune there, or NUL past the end of the input |
| Scanner.SkipBlanks | internal/lexer/lexer.go:87-101 | the state after skipping stops at a non-blank rune, every rune skipped is blank, and the line never decreases |
| Scanner.WordEnd | internal/lexer/lexer.go:132-136 | a run of letters and digits is maximal: every rune in it qualifies and the rune after it does not |
| Scanner.IdentEnd | internal/lexer/lexer.go:129-138 | an identifier that starts at a letter ends past it, inside the input |
| Scanner.DigitsEnd | internal/lexer/lexer.go:145-147 | a run of digits is maximal: every rune in it is a digit and the rune after it is not |
| Scanner.NumberEnd | internal/lexer/lexer.go:140-164 | a number that starts at a digit or '-' ends past its first rune, inside the input |
| Scanner.MantissaEnd | internal/lexer/lexer.go:141-153 | the sign, integer digits, point and fraction of a number end past its start, inside the input |
| Scanner.ExponentEnd | internal/lexer/lexer.go:154-162 | the exponent part of a number ends at or after the mantissa, inside the input |
| Scanner.StringScan | internal/lexer/lexer.go:168-189 | when the loop of readString ends, it ends at a quote or at NUL |
| Scanner.StringEnd | internal/lexer/lexer.go:166-191 | readString ends past the opening quote, at a quote or at NUL, within the input, or panics |
| Scanner.Utf8Length | internal/lexer/lexer.go:59 | Go's len of a string counts UTF-8 bytes, between the number of runes and four times it |
| Scanner.Single | internal/lexer/lexer.go:45-66 | a one-rune token carries the current line and column; the scanner moves one read on and one column right |
| Scanner.ScanString | internal/lexer/lexer.go:56-59 | a string token exists exactly when readString does not panic; its literal is the text between the quotes and the column advances by its byte length plus two |
| Scanner.ScanIdentifier | internal/lexer/lexer.go:67-71 | an identifier token's kind is the keyword lookup of its literal, and the literal is the run of the input it covers |
| Scanner.ScanNumber | internal/lexer/lexer.go:72-76 | a number token's literal is the run of the input it covers, and the column advances by its length |
| Scanner.ScanAt | internal/lexer/lexer.go:45-84 | every token carries the line and column it starts at and moves the state forward; it is EOF exactly at NUL |
| Scanner.Lex | internal/lexer/lexer.go:40-85 | NextToken skips blanks first, then scans one token from the state after them |
| ScannerFacts.LexAdvances | internal/lexer/lexer.go:40-85 | once the first rune is read, every NextToken call moves the position forward; a non-EOF token starts inside the input, after the skipped blanks; an EOF token stands for a NUL and leaves the position at the read after it, one further when called at or past the end |
| ScannerFacts.SkipBlanksLines | internal/lexer/lexer.go:87-101 | skipping blanks adds one line per carriage return or line feed skipped |
| ScannerFacts.SkipBlanksColumn | internal/lexer/lexer.go:87-101 | after skipping blanks, the column counts the spaces and tabs since the last line break (or since the start) |
| ScannerFacts.CarriageReturnLineFeed | internal/lexer/lexer.go:90-93 | "\r\n" counts as two lines, and the column is then 0 |
| ScannerFacts.PlainStringEnd | internal/lexer/lexer.go:166-191 | in a string without backslashes, readString ends exactly at the first quote or NUL after the opening quote |
| ScannerFacts.SimpleEscapeSkipped | internal/lexer/lexer.go:170-174 | a backslash before a simple escape character is skipped together with that character |
| ScannerFacts.UnicodeEscape | internal/lexer/lexer.go:175-181 | after a backslash and 'u', the four peeks stay in range exactly when the input ends right after the 'u' or holds at least six more runes; otherwise the scan panics |
| ScannerFacts.DigitsRun | internal/lexer/lexer.go:145-147 | the runes a digits loop reads are all digits |
| ScannerFacts.ExponentRun | internal/lexer/lexer.go:154-162 | the exponent text is empty, or 'e'/'E', an optional sign and digits |
| ScannerFacts.FractionRun | internal/lexer/lexer.go:148-153 | the fraction text is an optional '.' followed by digits |
| ScannerFacts.NumberLiteralShape | internal/lexer/lexer.go:140-164 | a number literal is an optional '-', digits, an optional fraction and an optional exponent, and the rune after it is not a digit |
| ScannerFacts.IdentifierToken | internal/lexer/lexer.go:67-71 | an identifier token starts with a letter, holds only letters and digits, is the longest such run of the input, and has the keyword table's kind |
| ScannerFacts.DelimiterToken | internal/lexer/lexer.go:46-63 | a delimiter rune gives its kind with a one-character literal, one column further |
| ScannerFacts.IllegalRune | internal/lexer/lexer.go:77-79 | any other rune gives an ILLEGAL token whose literal is that rune |
| ScannerFacts.ScanTokens | internal/lexer/lexer.go:40-85 | k successive NextToken calls give k tokens, or a panic |
| ScannerFacts.PastEndStep | internal/lexer/lexer.go:64-65 | past the end of the input, NextToken gives EOF on the same line and moves one column right |
| ScannerFacts.PastEnd | internal/lexer/lexer.go:104-105 | past the end, k calls give k EOF tokens in successive columns of the same line |
| ScannerFacts.EmbeddedNul | internal/lexer/lexer.go:64-65 | a NUL inside the input gives an EOF token as well, and scanning resumes at the rune after it |
| ScannerFacts.EmptyInput | internal/lexer/lexer.go:33-36 | on empty input, the first token is EOF at line 1, column 0 |
| ScannerExamples.EmptyJsonTokens | internal/json-lexer/lexer_test.go:29-57 | the tokens, lines and columns the EmptyJSON test expects |
| ScannerExamples.ArraysTokens | internal/json-lexer/lexer_test.go:121-150 | the tokens, lines and columns the Arrays test expects |
| ScannerExamples.AdvancedTokens1 | internal/json-lexer/lexer_test.go:152-193 | the first tokens the AdvancedJSON test expects |
| ScannerExamples.AdvancedTokens2 | internal/json-lexer/lexer_test.go:152-193 | the remaining tokens the AdvancedJSON test expects |
| ScannerExamples.NumbersTokens1 | internal/json-lexer/lexer_test.go:59-119 | the first tokens the NumberLiterals test expects |
| ScannerExamples.NumbersTokens2 | internal/json-lexer/lexer_test.go:59-119 | the middle tokens the NumberLiterals test expects |
| ScannerExamples.NumbersTokens3 | internal/json-lexer/lexer_test.go:59-119 | the last tokens the NumberLiterals test expects |
| Lexer.Lexer.constructor | internal/lexer/lexer.go:23-38 | a new lexer is in the Initial state, with the first rune current when there is one |
| Lexer.Lexer.ReadRune | internal/lexer/lexer.go:103-111 | the fields move as Scanner.ReadRune says, and the current rune is the one at the new position |
| Lexer.Lexer.PeekRune | internal/lexer/lexer.go:113-119 | the rune at the next read, NUL past the end |
| Lexer.Lexer.PeekRuneN | internal/lexer/lexer.go:121-127 | the rune n past the next read; there is none (a panic) when the index is out of range |
| Lexer.Lexer.NewToken | internal/lexer/lexer.go:221-228 | a token of the given kind and literal, at the current line and column |
| Lexer.Lexer.SkipWhitespace | internal/lexer/lexer.go:87-101 | the fields end in the state SkipBlanks gives |
| Lexer.Lexer.ReadIdentifier | internal/lexer/lexer.go:129-138 | the position ends at IdentEnd, and the result is the text read |
| Lexer.Lexer.ReadDigits | internal/lexer/lexer.go:145-147 | the position ends at DigitsEnd |
| Lexer.Lexer.ReadNumber | internal/lexer/lexer.go:140-164 | the position ends at NumberEnd, and the result is the text read |
| Lexer.Lexer.ReadMantissa | internal/lexer/lexer.go:141-153 | the position ends at MantissaEnd |
| Lexer.Lexer.ReadExponent | internal/lexer/lexer.go:154-162 | the position ends at ExponentEnd |
| Lexer.Lexer.ReadString | internal/lexer/lexer.go:166-191 | no panic exactly when StringEnd finds an end; then the result is the text between the quotes |
| Lexer.Lexer.NextToken | internal/lexer/lexer.go:40-85 | a token exactly when Lex gives one; then it is Lex's token, and the fields hold Lex's next state |
| Grammar.Advance | internal/json-parser/parser.go:45-49 | nextToken makes the peeked token current and pulls the scanner's next token; past a non-EOF token it strictly lowers the measure |
| Grammar.Start | internal/json-parser/parser.go:27-43 | definition: NewParser's two nextToken calls from a fresh scanner; StartSane, StartTwice and Parser.Parser.New state what it gives |
| Grammar.StartAt | internal/json-parser/parser.go:38-42 | two nextToken calls from the start leave a state that satisfies Sane |
| Grammar.StartTwice | internal/json-parser/parser.go:38-42 | construction is two Advance calls from whatever the fields held; the current and peeked tokens are the scanner's first two |
| Grammar.StartSane | internal/json-parser/parser.go:38-42 | the state after construction satisfies Sane |
| Grammar.Shift | internal/json-parser/parser.go:104-117 | consuming the current token accepts exactly when nextToken succeeds, and never records an error |
| Grammar.SkipComma | internal/json-parser/parser.go:69-72 | a comma is skipped only after the first member; otherwise the state is unchanged |
| Grammar.Value | internal/json-parser/parser.go:102-123 | parseValue never moves back, and accepting moves forward |
| Grammar.Object | internal/json-parser/parser.go:55-100 | parseObject never moves back; past a '{', even a failure is past it |
| Grammar.Members | internal/json-parser/parser.go:64-91 | the member loop accepts only at a closing brace |
| Grammar.Array | internal/json-parser/parser.go:125-159 | parseArray never moves back; past a '[', even a failure is past it |
| Grammar.Elements | internal/json-parser/parser.go:134-150 | the element loop accepts only at a closing bracket |
| Grammar.Parse | internal/json-parser/parser.go:51-53 | Parse is parseObject on the constructed state; any verdict other than a panic needs construction to have succeeded |
| GrammarFacts.ValueExplained | internal/json-parser/parser.go:102-123 | every rejection inside a value names a token that really is wrong for its message |
| GrammarFacts.ObjectExplained | internal/json-parser/parser.go:55-100 | after a '{', every rejection names a token wrong for its message (string literal, colon or value) |
| GrammarFacts.MembersExplained | internal/json-parser/parser.go:64-91 | every rejection in the member loop names a token wrong for its message |
| GrammarFacts.ArrayExplained | internal/json-parser/parser.go:125-159 | after a '[', every rejection names a token wrong for its message |
| GrammarFacts.ElementsExplained | internal/json-parser/parser.go:134-150 | every rejection in the element loop names a token wrong for its message |
| GrammarFacts.ParseExplained | internal/json-parser/parser.go:51-61 | Parse rejects with "left brace" at the first token when it is not '{', or else for an inner reason |
| GrammarFacts.DeadMessages | internal/json-parser/parser.go:93-96 | the right-brace, right-bracket and left-bracket messages are never reported |
| GrammarFacts.MessageSetsDistinct | internal/parser/parser.go:101-226 | in both message sets, those three messages differ from the four live ones |
| GrammarFacts.ObjectSameShape | internal/parser/parser.go:98-159 | the two parsers' parseObject reach the same outcome and state, whatever the messages |
| GrammarFacts.ValueSameShape | internal/parser/parser.go:161-186 | the two parsers' parseValue reach the same outcome and state |
| GrammarFacts.ArraySameShape | internal/parser/parser.go:188-230 | the two parsers' parseArray reach the same outcome and state |
| GrammarFacts.MembersSameShape | internal/parser/parser.go:111-146 | the two member loops reach the same outcome and state |
| GrammarFacts.ElementsSameShape | internal/parser/parser.go:201-217 | the two element loops reach the same outcome and state |
| GrammarFacts.SameGrammar | internal/parser/parser.go:94-96 | on every input, the two parsers accept, reject and panic alike, at the same states; only the messages differ |
| GrammarFacts.RootNotObject | internal/json-parser/parser.go:55-61 | a root that is not '{' gives exactly the "left brace" error at the first token, without advancing |
| GrammarFacts.ValueRejectsAtStart | internal/json-parser/parser.go:118-121 | parseValue reports "value" at the token itself exactly when that token starts no value |
| GrammarFacts.ScalarValue | internal/json-parser/parser.go:104-117 | a scalar is one nextToken call and is never rejected |
| GrammarFacts.EmptyObject | internal/json-parser/parser.go:64-67 | "{}" is accepted, and the state after it holds the token after '}' |
| GrammarFacts.EmptyArray | internal/json-parser/parser.go:134-137 | "[]" is accepted, and the state after it holds the token after ']' |
| GrammarFacts.MissingCommaIgnored | internal/json-parser/parser.go:69-72 | a missing comma between members or elements goes unnoticed |
| GrammarFacts.LeadingCommaInObject | internal/json-parser/parser.go:69-75 | a comma before the first member is reported as a missing string literal, at the comma |
| GrammarFacts.TrailingCommaInObject | internal/json-parser/parser.go:69-75 | a comma before '}' is skipped, and the '}' is reported as a missing string literal |
| GrammarFacts.CommasInArray | internal/json-parser/parser.go:139-146 | leading, trailing and doubled commas in an array are reported as "value" at the offending token |
| GrammarFacts.UnterminatedAtEof | internal/json-parser/parser.go:64-91 | EOF at the head of the member loop is rejected with "string literal", and at the head of the element loop with "value" |
| GrammarFacts.KeyAtEof | internal/json-parser/parser.go:73-81 | EOF right after a member's key is rejected with "colon", at the EOF token |
| Documents.RenderStart | internal/json-parser/parser.go:102-123 | a well-formed document starts with a token that starts a value |
| Documents.Follow | internal/json-parser/parser.go:45-49 | walking k token kinds with nextToken lowers the measure by at least k |
| Documents.FollowAppend | internal/json-parser/parser.go:45-49 | walking a concatenation is walking one part and then the other |
| Documents.ValueComplete | internal/json-parser/parser.go:102-123 | parseValue accepts every rendered document and stops right after it |
| Documents.ArrayComplete | internal/json-parser/parser.go:125-159 | parseArray accepts every rendered array and stops right after it |
| Documents.ObjectComplete | internal/json-parser/parser.go:55-100 | parseObject accepts every rendered object and stops right after it |
| Documents.ElementsComplete | internal/json-parser/parser.go:134-150 | the element loop accepts every rendered element list that ends at ']' |
| Documents.MembersComplete | internal/json-parser/parser.go:64-91 | the member loop accepts every rendered member list that ends at '}' |
| Documents.ValueSound | internal/json-parser/parser.go:102-123 | whatever parseValue accepts is a rendered document (an object when it starts at '{') |
| Documents.ObjectSound | internal/json-parser/parser.go:55-100 | whatever parseObject accepts is a rendered object |
| Documents.ArraySound | internal/json-parser/parser.go:125-159 | whatever parseArray accepts is a rendered array |
| Documents.MembersSound | internal/json-parser/parser.go:64-91 | whatever the member loop accepts is a rendered member list |
| Documents.ElementsSound | internal/json-parser/parser.go:134-150 | whatever the element loop accepts is a rendered element list |
| Documents.ObjectAccepts | internal/json-parser/parser.go:55-100 | parseObject accepts, stopping at q, exactly when the tokens from its state begin with an object's rendering that ends at q |
| Documents.ParseAccepts | internal/json-parser/parser.go:51-53 | Parse accepts exactly the inputs whose tokens begin with an object's rendering; nothing after it is checked, though the two tokens that follow are scanned and may panic |
| Parser.Parser.constructor | internal/json-parser/parser.go:35 | a parser with no errors, before any token was read |
| Parser.Parser.New | internal/json-parser/parser.go:27-43 | the new parser is in Grammar's Start state with no errors, or construction panicked exactly when Start fails; the older parser at internal/parser/parser.go:28-44 behaves alike, with its own messages |
| Parser.Parser.Prime | internal/json-parser/parser.go:38-42 | the two nextToken calls of construction reach StartAt's state |
| Parser.Parser.NextToken | internal/json-parser/parser.go:45-49 | the fields move as Grammar.Advance says; a scanner panic is reported, and the errors are unchanged; the older parser at internal/parser/parser.go:46-50 behaves alike, with its own messages |
| Parser.Parser.AddError | internal/json-parser/parser.go:160-166 | exactly one error is appended, holding the current token; the tokens are unchanged |
| Parser.Parser.Parse | internal/json-parser/parser.go:51-53 | Parse reports what Grammar.Object reports: true with no new error, or false with exactly one new error at the failing current token; the older parser at internal/parser/parser.go:94-96 behaves alike, with its own messages |
| Parser.Parser.Consume | internal/json-parser/parser.go:104-117 | consuming a scalar reports Grammar.Shift |
| Parser.Parser.ParseValue | internal/json-parser/parser.go:102-123 | parseValue reports Grammar.Value: the new errors, verdict and state are those the function gives; the older parser at internal/parser/parser.go:161-186 behaves alike, with its own messages |
| Parser.Parser.ParseObject | internal/json-parser/parser.go:55-100 | parseObject reports Grammar.Object; the loop keeps the member loop's outcome and lowers the measure; the older parser at internal/parser/parser.go:98-159 behaves alike, with its own messages |
| Parser.Parser.ParseMember | internal/json-parser/parser.go:69-88 | one pass of the member loop: on success the rest of the loop equals the whole loop, otherwise it reports the member loop's failure |
| Parser.Parser.ParseArray | internal/json-parser/parser.go:125-158 | parseArray reports Grammar.Array; the older parser at internal/parser/parser.go:188-230 behaves alike, with its own messages |
| Parser.Parser.CurTokenIs | internal/parser/parser.go:52-54 | comparing the kind strings is comparing the kinds |
| Parser.Parser.PeekTokenIs | internal/parser/parser.go:56-58 | comparing the peeked kind's string is comparing the kinds |
| Parser.Parser.ExpectPeek | internal/parser/parser.go:60-68 | on the expected peeked kind it advances once; otherwise one error holding the current token (not the peeked one) is added, and nothing moves |
| Parser.Parser.PeekError | internal/parser/parser.go:70-79 | one error naming the expected kinds and the peeked kind, holding the current token |
| Parser.Parser.GetTokenString | internal/parser/parser.go:81-92 | the loop builds TokenList: the kinds before the last joined by ",", then " or " and the last kind |
| Parser.TokenList | internal/parser/parser.go:81-92 | definition: the kinds before the last joined by ",", then " or " and the last kind; GetTokenString is proved to build it, and TokenListFew, TokenListStarts, TokenListEnds and TokenListExample are about it |
| Parser.Unexpected | internal/parser/parser.go:70-79 | definition: peekError's message, "expected next token to be " + TokenList + ", got " + the peeked kind + " instead"; PeekError and ExpectPeek are proved to record it |
| Parser.TokenListFew | internal/parser/parser.go:81-92 | no kinds give "", and one kind gives " or " and the kind |
| Parser.TokenListStarts | internal/parser/parser.go:81-92 | with two kinds or more, the text begins with the first kind |
| Parser.TokenListEnds | internal/parser/parser.go:81-92 | with one kind or more, the text ends with " or " and the last kind |
| Parser.TokenListExample | internal/parser/parser.go:81-92 | `{`, `:`, `}` give "{,: or }" |

## Left out

- File and stream input: `os.Open` and `ioutil.ReadAll`, and their panics. The input is the text, as a sequence of runes.
- UTF-8 decoding. The text is taken as already decoded runes. Only the byte length that the string column rule uses is modelled (`Utf8Length`).
- The debug print in the older `nextToken` (internal/parser/parser.go:47), and the command in cmd/json-validator/main.go.
- The tests of internal/lexer/lexer_test.go.
- The scanner package of internal/json-lexer is not part of this model. `json-parser` is modelled over internal/lexer/lexer.go, whose columns match every expected column of internal/json-lexer/lexer_test.go.
- The BACKSLASH kind of internal/token/token.go: no code produces it.
- Integer widths: lines and columns are unbounded integers. Go's `int` cannot overflow on any input that fits in memory.
- Lexer.Lexer.ReadString: Go bounds the final slice by the slice's capacity; the model bounds it by the length. They differ only when `\u` is the last rune pair, where the model panics and Go might not.
- Parser.Parser.constructor: Go starts from the zero token, whose kind is the empty string. The model starts from `Placeholder`, an ILLEGAL token. Both are overwritten before they are read.
- Parser.Parser.ParseObject: the check for '}' after the loop is written as an assertion, since the loop leaves only at '}' (likewise ']' in ParseArray). `GrammarFacts.DeadMessages` proves the two messages are never reported.
- Parser.Parser.ParseMember: the member body of parseObject's loop is a separate method. The statements and their order are the source's.
- ScannerFacts.NumberLiteralShape: it states the shape of a number literal and that no digit follows it. It does not state that a longer literal of that shape is impossible.
- Grammar.Start: the fact that the state after construction is Sane is the lemma `Grammar.StartSane`, and its tokens are stated by `Grammar.StartTwice`, not by ensures of `Start`.
- Parser.Parser.Parse: it is stated from the state the method starts in. That this is `Grammar.Parse` for a parser made by `New` follows from `New`'s ensures and is not restated as one contract.
- Concurrency: none in the source.

# SCL in Dafny

SCL is a small configuration language. A file is a list of parameters `name :: tag { value }`:
- the tag says what the value is (`bool`, `num`, `fl`, `str`, `ml`, `class`, `list(...)`, `dynamic`);
- `[ ... ]` holds a comment.

The repository implements SCL six times:
- `lib/scl_parser`, the full Python library. It has list brackets, plain strings, `\u` escapes and a parser that keeps comments in an `SCLDocument`.
- Ports in Python (`python/scl_parser`), Rust, Go, C and Ruby. Each is a smaller dialect with its own lexer, parser and serializer.

This project models each of them as three stages:

1. **Tokenizer.**
   - Each lexer is a class: `Lexer` in every port except C, where it is `CLexer.LexState`.
   - Its fields are the cursor (`pos`, `line`, `column`) and the growing token sequence.
   - Each method is proved against a pure function that says which token starts at a given index (`CommentAt`, `StringAt`, `NumberAt`, ...).
   - The properties of the tokens are lemmas about those functions: positions, keywords, escapes, number shapes, and the single EOF at the end.
2. **Parser.**
   - Each parser is a class with a token sequence and a `pos` cursor.
   - Its methods are proved to agree with a pure recursive-descent grammar:
     - `Grammar` is shared by the lib parser and the strict Python, Go and Ruby dialects;
     - `CommentGrammar` covers the comment-keeping parser;
     - Rust and C each have their own grammar, because they build typed values.
   - Values are the shared `Values.Value`. Object entries are kept in insertion order, where the source uses ordered hashes. Go and Rust use Dafny maps.
3. **Serializer.**
   - Each serializer is a pure function from a value to text. Its error cases follow the source.
   - A class wraps it wherever the source loops over lines.
   - The lemmas state which values can be written at all, how a list's tag is chosen, and that a written `str`/`ml` literal reads back through the same port's lexer as the original string.

Further parts:
- The C port's growable arrays (the token array, class entries, list items, the string builder's buffer) are Dafny `array`s held by classes, with `len`/`cap` fields and in-place writes. Their methods state the new length and capacity, and that earlier entries are unchanged.
- `LibDocument.Document` models `SCLDocument`: its data and comment maps, and the subset invariant that `set` and `delete` keep.

Floats are kept as the lexeme the lexer read. Integer-to-float promotion is a change of tag. Input is taken to be ASCII.

## Model

| member | source | states |
|---|---|---|
| Text.Strip | lib/scl_parser/lexer.py:59-69 | the stripped text neither starts nor ends with a space |
| Text.StripKeepsCore | lib/scl_parser/lexer.py:59-69 | stripping removes only leading and trailing spaces; every character between the first and last non-space survives in place |
| Text.DecimalRoundTrip | lib/scl_parser/serializer.py:49-72 | the decimal text the serializers write for an integer is an integer literal that parses back to the same integer |
| Text.EscapeIsEscapeEach | lib/scl_parser/serializer.py:49-72 | escaping backslashes and then double quotes is the same as escaping each character once |
| Text.EscapeKeepsNewlines | lib/scl_parser/serializer.py:49-72 | escaping neither adds nor removes line breaks, so the one-line/multi-line choice survives it |
| Tokens.KeywordKind | lib/scl_parser/lexer.py:183-192 | only the eight type names map to a tag |
| Tokens.KeywordTableInverse | lib/scl_parser/lexer.py:183-192 | the keyword table and the spelling of each tag are inverse to each other |
| Tokens.BoolWord | lib/scl_parser/lexer.py:193-198 | a boolean word is never also a type keyword |
| Tokens.Significant | lib/scl_parser/parser_core.py:8-10 | the filtered stream is no longer, holds no newline or comment, and keeps the final EOF |
| Tokens.WithoutNewlines | lib/scl_parser/parser_with_comments.py:10-13 | the filtered stream holds no newline and keeps the final EOF |
| Tokens.SignificantIdempotent | lib/scl_parser/parser_core.py:8-10 | filtering twice is filtering once |
| Tokens.SignificantAfterWithoutNewlines | lib/scl_parser/parser_with_comments.py:10-13 | dropping newlines and then newlines and comments drops the same tokens as the plain parser's filter |
| Values.PutGet | lib/scl_parser/parser_core.py:28-33 | after config[name] = value, name maps to value and every other key is unchanged |
| Values.PutKeys | lib/scl_parser/parser_core.py:28-33 | assignment keeps insertion order: an existing key keeps its place, a new key is appended |
| Values.PutDistinct | lib/scl_parser/parser_core.py:28-33 | a dictionary built by assignment never holds a key twice |
| Values.RemoveGet | lib/scl_parser/document.py:21-27 | after del the key is absent and the other keys keep their values |
| Values.RemoveKeysSubset | lib/scl_parser/document.py:21-27 | deleting adds no key and never grows the dictionary |
| Scanning.LineAt | lib/scl_parser/lexer.py:24-34 | line numbers start at 1 |
| Scanning.ColAt | lib/scl_parser/lexer.py:24-34 | column numbers start at 1 |
| Scanning.PositionOfPrefix | lib/scl_parser/lexer.py:24-34 | line and column depend only on the text already consumed |
| Scanning.ColumnCountsFromLineStart | lib/scl_parser/lexer.py:24-34 | within a line, advancing k characters adds k to the column and keeps the line |
| Scanning.FindFrom | lib/scl_parser/lexer.py:59-69 | the first index at or after i holding the stop character, or the end of the text |
| Scanning.RunEnd | lib/scl_parser/lexer.py:36-38 | the end of the maximal run of matching characters |
| Scanning.ScanNumberBody | lib/scl_parser/lexer.py:155-167 | the body holds only digits and dots and stops at a non-digit or a second dot |
| Scanning.NumberBodyFlags | lib/scl_parser/lexer.py:155-170 | the dot flag is set exactly when the body holds a dot, and the digit flag exactly when it holds a digit |
| Scanning.NumberHasOneDot | lib/scl_parser/lexer.py:158-161 | no dot follows the first dot in a number's body |
| Scanning.SimpleQuoted | python/scl_parser/lexer.py:52-77 | a closed literal ends on its quote character |
| Scanning.RawQuoted | python/scl_parser/lexer.py:79-89 | a raw literal is exactly the text up to the next quote, which it does not contain |
| Scanning.SimpleQuotedPlain | python/scl_parser/lexer.py:52-77 | a body without backslashes or quotes decodes to itself |
| LibLexer.LastSignificant | lib/scl_parser/lexer.py:40-45 | the kind found is never a newline or a comment |
| LibLexer.LastSignificantIsLastOfFiltered | lib/scl_parser/lexer.py:40-57 | the backward scan returns the kind of the last token of the stream with newlines and comments removed, or None when there is none |
| LibLexer.CommentAt | lib/scl_parser/lexer.py:59-69 | a comment runs from '[' to the next ']' and advances past it; an unclosed comment is an error |
| LibLexer.Hex4 | lib/scl_parser/lexer.py:89-99 | four hex digits denote a value below 0x10000 |
| LibLexer.UnicodeAt | lib/scl_parser/lexer.py:89-99 | a \u escape consumes exactly four characters and fails when fewer remain or one is not hex |
| LibLexer.EscapeAt | lib/scl_parser/lexer.py:71-100 | an escape consumes at least one character after the backslash; a backslash at the end is an error |
| LibLexer.QuotedAt | lib/scl_parser/lexer.py:102-132 | a quoted body ends at the closing quote it stops on |
| LibLexer.StringAt | lib/scl_parser/lexer.py:102-116 | a double-quoted string gives a STRING token and advances past the closing quote |
| LibLexer.MultilineAt | lib/scl_parser/lexer.py:118-132 | a single-quoted literal gives a MULTILINE_STRING token and advances past the closing quote |
| LibLexer.PlainStringAt | lib/scl_parser/lexer.py:134-141 | a plain string stops at the next '}' without consuming it, or at the end of the text |
| LibLexer.NumberAt | lib/scl_parser/lexer.py:143-175 | a number token is NUMBER or FLOAT and consumes at least one character |
| LibLexer.IdentifierAt | lib/scl_parser/lexer.py:177-206 | the identifier reader never moves backwards and stays inside the text |
| LibLexer.IdentifierWithDigitsAt | lib/scl_parser/lexer.py:208-214 | a digit-led word is read without going backwards and stays inside the text |
| LibLexer.DispatchAt | lib/scl_parser/lexer.py:216-297 | each token consumes input and is never EOF; '[' is a bracket exactly in list context and a comment otherwise; plain strings occur only in plain-string context |
| LibLexer.StepAt | lib/scl_parser/lexer.py:36-38 | one turn of the tokenize loop consumes input when it succeeds |
| LibLexer.LexFrom | lib/scl_parser/lexer.py:216-298 | the stream extends the tokens already emitted, ends with EOF and holds no other EOF |
| LibLexer.LexEndsWithEof | lib/scl_parser/lexer.py:296-298 | a successful tokenize ends with exactly one EOF |
| LibLexer.LexFromKeepsContext | lib/scl_parser/lexer.py:221-229 | every bracket token and plain string in the stream was emitted in its context |
| LibLexer.LexContext | lib/scl_parser/lexer.py:47-57 | in the whole stream, '[' brackets occur only in list context and plain strings only in plain-string context |
| LibLexer.LoneColonRejected | lib/scl_parser/lexer.py:241-246 | a ':' not followed by ':' outside plain-string context is "Unexpected character: :" at its own line and column |
| LibLexer.TrailingBlanksFault | lib/scl_parser/lexer.py:36-38 | blanks that run to the end of the text raise TypeError, not a syntax error |
| LibLexer.NumberKinds | lib/scl_parser/lexer.py:143-175 | a number is FLOAT exactly when its text holds a dot, then it holds one and keeps its text; otherwise it carries the integer its digits denote |
| LibLexer.IdentifierKinds | lib/scl_parser/lexer.py:177-206 | the word is the maximal run of word characters; the eight type names become their tags, the four boolean words BOOLEAN literals, everything else an IDENTIFIER with its text |
| LibLexer.QuotedReadsOneEscaped | lib/scl_parser/lexer.py:71-100 | one escaped character as the serializers write it decodes to itself |
| LibLexer.QuotedReadsEscaped | lib/scl_parser/lexer.py:102-116 | an escaped body decodes to the original characters up to the closing quote |
| LibLexer.EscapedStringReadsBack | lib/scl_parser/serializer.py:49-72 | a string written by the serializer as an escaped quoted literal reads back through read_string as the same string |
| LibLexer.Lexer.constructor | lib/scl_parser/lexer.py:8-13 | a new lexer is at position 0, line 1, column 1, with no tokens |
| LibLexer.Lexer.Error | lib/scl_parser/lexer.py:14-15 | the error carries the line and column the cursor has reached in the text |
| LibLexer.Lexer.Peek | lib/scl_parser/lexer.py:17-21 | the character offset places ahead, and None exactly when that is past the end |
| LibLexer.Lexer.Advance | lib/scl_parser/lexer.py:24-34 | consumes one character; a line break moves to column 1 of the next line; at the end nothing changes and None is returned |
| LibLexer.Lexer.SkipWhitespace | lib/scl_parser/lexer.py:36-38 | stops at the first non-blank; reaching the end is the TypeError fault |
| LibLexer.Lexer.LastSignificantType | lib/scl_parser/lexer.py:40-45 | the loop returns LastSignificant of the tokens emitted |
| LibLexer.Lexer.IsListBracketContextNow | lib/scl_parser/lexer.py:47-49 | decides list-bracket context from the tokens emitted |
| LibLexer.Lexer.ReadComment | lib/scl_parser/lexer.py:59-69 | agrees with CommentAt: same token, same end position, same error |
| LibLexer.Lexer.ReadUntilBracket | lib/scl_parser/lexer.py:64-65 | consumes up to the next ']' or the end of the text, as FindFrom locates it, and returns exactly the characters passed; the tokens are untouched |
| LibLexer.Lexer.ReadEscape | lib/scl_parser/lexer.py:71-100 | agrees with EscapeAt |
| LibLexer.Lexer.ReadString | lib/scl_parser/lexer.py:102-116 | agrees with StringAt |
| LibLexer.Lexer.ReadMultilineString | lib/scl_parser/lexer.py:118-132 | agrees with MultilineAt |
| LibLexer.Lexer.ReadPlainString | lib/scl_parser/lexer.py:134-141 | agrees with PlainStringAt |
| LibLexer.Lexer.ReadNumberBody | lib/scl_parser/lexer.py:155-167 | the digit-and-dot loop stops where ScanNumberBody says and returns the text it passed |
| LibLexer.Lexer.ReadNumber | lib/scl_parser/lexer.py:143-175 | agrees with NumberAt |
| LibLexer.Lexer.ReadIdentifier | lib/scl_parser/lexer.py:177-206 | agrees with IdentifierAt |
| LibLexer.Lexer.ReadIdentifierWithDigits | lib/scl_parser/lexer.py:208-214 | agrees with IdentifierWithDigitsAt |
| LibLexer.Lexer.NextToken | lib/scl_parser/lexer.py:221-297 | agrees with DispatchAt for the tokens emitted so far |
| LibLexer.Lexer.Tokenize | lib/scl_parser/lexer.py:216-298 | returns Lex(text), so every property proved of Lex holds of its result |
| PyLexer.PyStringAt | python/scl_parser/lexer.py:52-77 | a closed string gives a STRING token and advances past its quote; every failure is a syntax error reported at the end of the text |
| PyLexer.PyMultilineAt | python/scl_parser/lexer.py:79-89 | a closed literal gives a MULTILINE_STRING token; an unclosed one is "Unclosed multiline string" at the end of the text |
| PyLexer.PyDispatchAt | python/scl_parser/lexer.py:164-227 | each token consumes input, is never EOF, and is never a list bracket or plain string (this port has neither) |
| PyLexer.PyStepAt | python/scl_parser/lexer.py:165-168 | one turn of the tokenize loop consumes input when it succeeds |
| PyLexer.PyLexFrom | python/scl_parser/lexer.py:164-230 | the stream extends the tokens already emitted, ends with one EOF at the end position, and holds no bracket or plain string |
| PyLexer.PyLexShape | python/scl_parser/lexer.py:229-230 | a successful tokenize ends with exactly one EOF, placed at the end of the text |
| PyLexer.BracketsAreComments | python/scl_parser/lexer.py:170-172 | '[' always starts a comment and a stray ']' is "Unexpected character: ]" |
| PyLexer.UnclosedComment | python/scl_parser/lexer.py:40-50 | a '[' with no ']' after it is "Unclosed comment" at the end of the text |
| PyLexer.DigitsThenLetterIsIdentifier | python/scl_parser/lexer.py:213-221 | digits followed by a letter or '_' are read as one identifier over the whole word |
| PyLexer.SimpleQuotedEscapes | python/scl_parser/lexer.py:58-71 | a backslash and the next character decode to newline for n, tab for t, and the character itself otherwise |
| PyLexer.BackslashAtEnd | python/scl_parser/lexer.py:59-62 | a backslash that ends the text is "Unexpected end of string after backslash" |
| PyLexer.PlainRunThenBackslash | python/scl_parser/lexer.py:57-62 | a string body that reaches a final backslash without a quote ends dangling |
| PyLexer.SimpleQuotedReadsOneEscaped | python/scl_parser/lexer.py:58-71 | one escaped character as the serializer writes it decodes to itself |
| PyLexer.SimpleQuotedReadsEscaped | python/scl_parser/lexer.py:52-77 | an escaped body decodes to the original characters up to the closing quote |
| PyLexer.PyEscapedStringReadsBack | python/scl_parser/serializer.py:10-70 | a string the serializer writes between double quotes reads back through read_string as the same string |
| PyLexer.PyRawStringReadsBack | python/scl_parser/lexer.py:79-89 | text between single quotes that holds no single quote reads back verbatim |
| PyLexer.Lexer.constructor | python/scl_parser/lexer.py:8-13 | a new lexer is at position 0, line 1, column 1, with no tokens |
| PyLexer.Lexer.Error | python/scl_parser/lexer.py:15-16 | the error carries the lexer's current line and column |
| PyLexer.Lexer.Peek | python/scl_parser/lexer.py:18-22 | returns the character offset places ahead, or None past the end |
| PyLexer.Lexer.Advance | python/scl_parser/lexer.py:24-34 | consumes one character; a line break moves to column 1 of the next line; at the end nothing changes |
| PyLexer.Lexer.SkipWhitespace | python/scl_parser/lexer.py:36-38 | stops at the first non-blank; reaching the end is the TypeError fault |
| PyLexer.Lexer.ReadComment | python/scl_parser/lexer.py:40-50 | agrees with CommentAt |
| PyLexer.Lexer.ReadString | python/scl_parser/lexer.py:52-77 | agrees with PyStringAt |
| PyLexer.Lexer.ReadMultilineString | python/scl_parser/lexer.py:79-89 | agrees with PyMultilineAt |
| PyLexer.Lexer.ReadNumberBody | python/scl_parser/lexer.py:103-115 | the digit-and-dot loop stops where ScanNumberBody says and returns the text it passed |
| PyLexer.Lexer.ReadNumber | python/scl_parser/lexer.py:91-123 | agrees with NumberAt |
| PyLexer.Lexer.ReadIdentifier | python/scl_parser/lexer.py:125-154 | agrees with IdentifierAt |
| PyLexer.Lexer.ReadIdentifierWithDigits | python/scl_parser/lexer.py:156-162 | agrees with IdentifierWithDigitsAt |
| PyLexer.Lexer.NextToken | python/scl_parser/lexer.py:169-227 | agrees with PyDispatchAt |
| PyLexer.Lexer.Tokenize | python/scl_parser/lexer.py:164-230 | returns PyLex(text) |
| GoLexer.Visible | go/lexer.go:203-207 | the text the lexer sees is the prefix before the first NUL byte, since peek's 0 ends the loop |
| GoLexer.GoCommentAt | go/lexer.go:56-69 | a comment consumes input and gives a COMMENT token; an unclosed one is "Unclosed comment" at the end of the text |
| GoLexer.GoNumberAt | go/lexer.go:120-156 | a number is a FLOAT, or a NUMBER carrying an integer that fits in 64 bits |
| GoLexer.GoDispatchAt | go/lexer.go:203-277 | each token consumes input, is never EOF, and is never a list bracket or plain string |
| GoLexer.GoLexFrom | go/lexer.go:193-282 | the stream extends the tokens already emitted, ends with one EOF at the end position, and holds no bracket or plain string |
| GoLexer.GoLexShape | go/lexer.go:280-281 | a successful Tokenize ends with exactly one EOF, placed at the end of the visible text |
| GoLexer.GoLexStopsAtNul | go/lexer.go:203-207 | a NUL byte ends the input: nothing after it is tokenized |
| GoLexer.GoBracketsAreComments | go/lexer.go:209-212 | '[' always starts a comment and a stray ']' is "Unexpected character: ]" |
| GoLexer.GoUnclosedComment | go/lexer.go:56-69 | a '[' with no ']' after it is "Unclosed comment" at the end of the text |
| GoLexer.GoDigitsThenLetterIsIdentifier | go/lexer.go:259-270 | digits followed by a letter or '_' are read as one identifier over the whole word |
| GoLexer.GoMinusNeedsDigit | go/lexer.go:254-277 | a '-' not followed by a digit is "Unexpected character: -" at its own position |
| GoLexer.GoIntegerRange | go/lexer.go:150-155 | an integer literal within 64 bits gives a NUMBER with its value; outside that range it is "Invalid number format" at the number's start |
| GoLexer.GoFloatRange | go/lexer.go:142-148 | a literal with a dot is accepted exactly when ParseFloat does not overflow, and then gives a FLOAT keeping its text |
| GoLexer.VisibleAt | go/lexer.go:35-48 | positions in the visible prefix have the same line and column as in the whole text |
| GoLexer.Lexer.constructor | go/lexer.go:17-25 | a new lexer is at position 0, line 1, column 1, with no tokens |
| GoLexer.Lexer.Error | go/lexer.go:120-156 | a syntax error carries the lexer's current line and column |
| GoLexer.Lexer.Peek | go/lexer.go:27-33 | returns the character offset places ahead, or 0 at the end of the visible text |
| GoLexer.Lexer.Advance | go/lexer.go:35-48 | consumes one byte; a line break moves to column 1 of the next line; at the end it returns 0 and changes nothing |
| GoLexer.Lexer.SkipWhitespace | go/lexer.go:50-54 | stops at the first character that is not a space or tab |
| GoLexer.Lexer.ReadComment | go/lexer.go:56-69 | agrees with GoCommentAt |
| GoLexer.Lexer.ReadString | go/lexer.go:71-103 | agrees with the Python port's string reader, whose rules it shares |
| GoLexer.Lexer.ReadMultilineString | go/lexer.go:105-118 | agrees with the Python port's multi-line reader |
| GoLexer.Lexer.ReadNumberBody | go/lexer.go:131-140 | the digit-and-dot loop stops where ScanNumberBody says and returns the text it passed |
| GoLexer.Lexer.ReadNumber | go/lexer.go:120-156 | agrees with GoNumberAt |
| GoLexer.Lexer.ReadIdentifier | go/lexer.go:158-191 | agrees with IdentifierAt |
| GoLexer.Lexer.NextToken | go/lexer.go:209-277 | agrees with GoDispatchAt |
| GoLexer.Lexer.Tokenize | go/lexer.go:193-282 | returns GoLex(text) |
| RustLexer.DriftOver | rust/src/lexer.rs:22-35 | the column drift survives a stretch of text without line breaks and is cleared by a line break |
| RustLexer.RCommentAt | rust/src/lexer.rs:51-67 | a comment consumes input and gives a COMMENT token; an unclosed one is "Unclosed comment" at the end of the text |
| RustLexer.RStringAt | rust/src/lexer.rs:69-96 | a closed string gives a STRING token; every failure is reported at the end of the text |
| RustLexer.RMultilineAt | rust/src/lexer.rs:98-114 | a closed literal gives a MULTILINE_STRING token; an unclosed one is "Unclosed multiline string" at the end of the text |
| RustLexer.RNumberAt | rust/src/lexer.rs:116-147 | a number token is NUMBER or FLOAT and carries exactly the text it consumed, at the number's start |
| RustLexer.RIdentOrNumberAt | rust/src/lexer.rs:149-180 | a digit-led word becomes an IDENTIFIER, a NUMBER or a FLOAT and consumes input |
| RustLexer.RIdentifierAt | rust/src/lexer.rs:182-214 | the identifier reader never moves backwards and never yields a bracket or plain-string token |
| RustLexer.RDispatchAt | rust/src/lexer.rs:219-243 | each token consumes input, is never EOF, and is never a list bracket or plain string |
| RustLexer.RLexFrom | rust/src/lexer.rs:216-249 | the stream extends the tokens already emitted, ends with one EOF on the last line, and holds no bracket or plain string |
| RustLexer.RLexShape | rust/src/lexer.rs:246-248 | a successful tokenize ends with exactly one EOF, on the text's last line |
| RustLexer.BracketIsComment | rust/src/lexer.rs:51-67 | '[' always starts a comment: with a later ']' it is a COMMENT token, without one it is "Unclosed comment" at the end |
| RustLexer.UnexpectedCharacter | rust/src/lexer.rs:241-242 | a character no branch accepts is "Unexpected character" at its own position |
| RustLexer.RNumberKinds | rust/src/lexer.rs:116-147 | '-' without a digit after it is "Expected digit after '-'" one column on; a number keeps its text and is FLOAT exactly when that text holds a dot, then only one |
| RustLexer.DigitsThenLetterIsIdentifier | rust/src/lexer.rs:158-174 | digits followed by a letter or '_' are read as one identifier over the whole word |
| RustLexer.NumberColumnShift | rust/src/lexer.rs:176-179 | after the rewind to a number the column stays where the digit scan left it: the token's column and every later column on the line are shifted by the number of digits |
| RustLexer.NewlineClearsDrift | rust/src/lexer.rs:22-35 | a line break resets the column to 1 and so ends any shift |
| RustLexer.ShiftedColumnsExample | rust/src/lexer.rs:149-180 | "1 a" lexes to NUMBER at column 2, IDENTIFIER at column 4 and EOF at column 5, not 1, 3 and 4 |
| RustLexer.BooleanWords | rust/src/lexer.rs:182-214 | a word is a BOOLEAN exactly when it is true, yes, false or no, and then carries the canonical "true" or "false" |
| RustLexer.RustEscapedStringReadsBack | rust/src/lexer.rs:69-96 | a string written by the serializer between double quotes reads back as the same string |
| RustLexer.RustRawStringReadsBack | rust/src/lexer.rs:98-114 | text between single quotes that holds no single quote reads back verbatim |
| RustLexer.Lexer.constructor | rust/src/lexer.rs:14-16 | a new lexer is at position 0, line 1, column 1, with no shift and no tokens |
| RustLexer.Lexer.Peek | rust/src/lexer.rs:18-20 | returns the byte off places ahead, or None past the end |
| RustLexer.Lexer.Advance | rust/src/lexer.rs:22-35 | consumes one byte; a line break clears the shift and moves to column 1 of the next line; at the end nothing changes |
| RustLexer.Lexer.Add | rust/src/lexer.rs:37-39 | appends one token and changes nothing else |
| RustLexer.Lexer.SkipWs | rust/src/lexer.rs:41-45 | stops at the first character that is not a space or tab |
| RustLexer.Lexer.Error | rust/src/lexer.rs:47-49 | the error carries the lexer's line and its actual, possibly shifted, column |
| RustLexer.Lexer.SkipUntil | rust/src/lexer.rs:51-67 | stops at the next occurrence of the stop character, or the end, tracking the shift |
| RustLexer.Lexer.ReadComment | rust/src/lexer.rs:51-67 | emits what RCommentAt gives, with the same end position and shift |
| RustLexer.Lexer.ReadString | rust/src/lexer.rs:69-96 | emits what RStringAt gives |
| RustLexer.Lexer.ReadMultilineString | rust/src/lexer.rs:98-114 | emits what RMultilineAt gives |
| RustLexer.Lexer.ReadNumber | rust/src/lexer.rs:116-147 | emits what RNumberAt gives |
| RustLexer.Lexer.ReadNumberBody | rust/src/lexer.rs:127-140 | the digit-and-dot loop stops where ScanNumberBody says and returns the text it passed |
| RustLexer.Lexer.SkipDigits | rust/src/lexer.rs:153-159 | stops at the end of the digit run |
| RustLexer.Lexer.ExtendWord | rust/src/lexer.rs:163-170 | extends the word to the end of the run of word characters |
| RustLexer.Lexer.ReadIdentifierOrNumber | rust/src/lexer.rs:149-180 | emits what RIdentOrNumberAt gives, including the shifted columns after the rewind |
| RustLexer.Lexer.ReadIdentifier | rust/src/lexer.rs:182-214 | emits what RIdentifierAt gives |
| RustLexer.Lexer.Dispatch | rust/src/lexer.rs:219-243 | emits what RDispatchAt gives |
| RustLexer.Lexer.Turn | rust/src/lexer.rs:217-244 | one loop turn either finishes the stream with EOF or consumes input, in step with RLexFrom |
| RustLexer.Lexer.Tokenize | rust/src/lexer.rs:216-249 | returns RLex(text) |
| RubyLexer.RubyCommentAt | ruby/lib/scl/lexer.rb:122-133 | a comment consumes input and gives a COMMENT token; an unclosed one is "Unclosed comment" at the end of the text |
| RubyLexer.RubyStringAt | ruby/lib/scl/lexer.rb:135-157 | a closed string gives a STRING token and advances past its quote |
| RubyLexer.RubyDispatchAt | ruby/lib/scl/lexer.rb:50-85 | each token consumes input, is never EOF, and is never a list bracket or plain string |
| RubyLexer.RubyLexFrom | ruby/lib/scl/lexer.rb:45-89 | the stream extends the tokens already emitted, ends with one EOF at the end position, and holds no bracket or plain string |
| RubyLexer.RubyLexShape | ruby/lib/scl/lexer.rb:87-88 | a successful tokenize ends with exactly one EOF, placed at the end of the text |
| RubyLexer.TrailingBlanksEndStream | ruby/lib/scl/lexer.rb:46-48 | blanks that run to the end of the text end the stream with EOF, not an error |
| RubyLexer.LoneColonAndMinus | ruby/lib/scl/lexer.rb:56-76 | a ':' not followed by ':' is "Unexpected ':'" and a '-' not followed by a digit is "Expected digit after '-'", both at their own position |
| RubyLexer.DigitsThenLetterIsIdentifier | ruby/lib/scl/lexer.rb:196-208 | digits followed by a letter or '_' are read as one identifier over the whole word |
| RubyLexer.RubyNumbersAreWellFormed | ruby/lib/scl/lexer.rb:172-194 | wherever the tokenizer calls the number reader, the number is well formed, so its own checks never fire |
| RubyLexer.StringsAsInPython | ruby/lib/scl/lexer.rb:135-157 | read_string decodes like the Python port's reader, except that a backslash ending the text raises TypeError from appending nil, exactly then |
| RubyLexer.CommentStripsNul | ruby/lib/scl/lexer.rb:122-133 | a comment holding only NUL is empty, because String#strip removes NUL |
| RubyLexer.Lexer.constructor | ruby/lib/scl/lexer.rb:33-39 | a new lexer is at position 0, line 1, column 1, with no tokens |
| RubyLexer.Lexer.Error | ruby/lib/scl/lexer.rb:243-245 | the error carries the lexer's current line and column |
| RubyLexer.Lexer.Peek | ruby/lib/scl/lexer.rb:97-101 | returns the character offset places ahead, or nil past the end |
| RubyLexer.Lexer.Advance | ruby/lib/scl/lexer.rb:103-114 | consumes one character; a line break moves to column 1 of the next line |
| RubyLexer.Lexer.SkipWhitespace | ruby/lib/scl/lexer.rb:116-120 | stops at the first character that is not a space or tab |
| RubyLexer.Lexer.ReadUntil | ruby/lib/scl/lexer.rb:125-128 | reads up to the next stop character or the end and returns the text it passed |
| RubyLexer.Lexer.ReadComment | ruby/lib/scl/lexer.rb:122-133 | agrees with RubyCommentAt |
| RubyLexer.Lexer.ReadString | ruby/lib/scl/lexer.rb:135-157 | agrees with RubyStringAt |
| RubyLexer.Lexer.ReadMultilineString | ruby/lib/scl/lexer.rb:159-170 | agrees with the Python port's multi-line reader |
| RubyLexer.Lexer.ReadNumberBody | ruby/lib/scl/lexer.rb:180-190 | the digit-and-dot loop stops where ScanNumberBody says and returns the text it passed |
| RubyLexer.Lexer.ReadNumber | ruby/lib/scl/lexer.rb:172-194 | gives the token NumberAt gives |
| RubyLexer.Lexer.ReadIdentifier | ruby/lib/scl/lexer.rb:210-237 | agrees with IdentifierAt |
| RubyLexer.Lexer.ReadNumberOrIdentifier | ruby/lib/scl/lexer.rb:196-208 | gives the token RubyDispatchAt gives at a digit |
| RubyLexer.Lexer.NextToken | ruby/lib/scl/lexer.rb:50-85 | agrees with RubyDispatchAt |
| RubyLexer.Lexer.Tokenize | ruby/lib/scl/lexer.rb:45-89 | returns RubyLex(text) |
| CLexer.Atoll | c-lang/src/scl_lexer.c:155 | the value always fits in long long; in range it is the decimal value, beyond the range it saturates at the nearest bound |
| CLexer.CCommentAt | c-lang/src/scl_lexer.c:88-98 | a comment consumes input and gives a COMMENT token |
| CLexer.CStringAt | c-lang/src/scl_lexer.c:112-130 | a closed string consumes input and gives a STRING token |
| CLexer.CMultilineAt | c-lang/src/scl_lexer.c:133-143 | a closed multi-line string consumes input and gives an MLSTRING token |
| CLexer.CSignedNumberAt | c-lang/src/scl_lexer.c:146-159 | a '-' and a digit consume at least both and give a FLOAT or a NUMBER |
| CLexer.CDigitsAt | c-lang/src/scl_lexer.c:162-175 | a digit run consumes input and gives an IDENT or a NUMBER |
| CLexer.CDispatchAt | c-lang/src/scl_lexer.c:83-205 | each token consumes input and is never EOF, a list bracket or a plain string |
| CLexer.CLexFrom | c-lang/src/scl_lexer.c:81-209 | the stream extends the tokens already stored and ends with one EOF at the end of the text |
| CLexer.CLexShape | c-lang/src/scl_lexer.c:81-209 | a successful lex ends with exactly one EOF, at the end of the text, and holds no bracket or plain string; a failure is a bare message |
| CLexer.CLexErrorsAreMessages | c-lang/src/scl_lexer.c:93-205 | every lexer error is a message without a position |
| CLexer.CCommentUntrimmed | c-lang/src/scl_lexer.c:88-98 | a comment keeps its text exactly as written, untrimmed, unlike the Go port which trims it; it fails exactly when no ']' follows |
| CLexer.CStringIsPyString | c-lang/src/scl_lexer.c:112-130 | a double-quoted string succeeds exactly when the Python port's does and then gives the same token |
| CLexer.CMultilineIsRaw | c-lang/src/scl_lexer.c:133-143 | a multi-line string succeeds exactly when a quote follows, and carries the raw text up to the first one |
| CLexer.CSignedNumberDots | c-lang/src/scl_lexer.c:146-159 | a signed number is a float exactly when its text has a dot, holds at most one dot, and a float keeps its text |
| CLexer.CUnsignedStopsAtDot | c-lang/src/scl_lexer.c:162-175 | an unsigned number stops before a dot and the dot is "Unexpected char", so "1.5" fails to lex |
| CLexer.CDigitsThenLetter | c-lang/src/scl_lexer.c:166-169 | a digit run followed by a letter or '_' is read as the identifier the other ports read |
| CLexer.GrownTokenCap | c-lang/src/scl_lexer.c:34-35 | a full token array always grows |
| CLexer.LexState.constructor | c-lang/src/scl_lexer.c:221-222 | a new state is at the start of the text with no tokens, no capacity and no error |
| CLexer.LexState.Push | c-lang/src/scl_lexer.c:33-40 | appends exactly one token, growing the array to 128 or double when it is full, and changes nothing else |
| CLexer.LexState.Peekc | c-lang/src/scl_lexer.c:43-46 | the code of the character off places ahead, and -1 exactly at the end of the text |
| CLexer.LexState.Adv | c-lang/src/scl_lexer.c:49-55 | returns the current code; at the end (-1) nothing moves, otherwise one character is consumed and a line break moves to column 1 of the next line |
| CLexer.LexState.SkipWs | c-lang/src/scl_lexer.c:58-61 | stops at the first character that is not a space or tab |
| CLexer.LexState.LexComment | c-lang/src/scl_lexer.c:88-98 | agrees with CCommentAt |
| CLexer.LexState.LexString | c-lang/src/scl_lexer.c:112-130 | agrees with CStringAt |
| CLexer.LexState.LexMultiline | c-lang/src/scl_lexer.c:133-143 | agrees with CMultilineAt |
| CLexer.LexState.LexSignedNumber | c-lang/src/scl_lexer.c:146-159 | agrees with CSignedNumberAt |
| CLexer.LexState.LexDigits | c-lang/src/scl_lexer.c:162-175 | agrees with CDigitsAt |
| CLexer.LexState.LexWord | c-lang/src/scl_lexer.c:178-202 | agrees with IdentifierAt, keywords and booleans included |
| CLexer.LexState.LexToken | c-lang/src/scl_lexer.c:83-205 | agrees with CDispatchAt |
| CLexer.LexState.Lex | c-lang/src/scl_lexer.c:81-209 | returns 0 exactly when CLexFrom succeeds, with the stored tokens equal to its stream, and -1 with its message otherwise |
| CLexer.LexAll | c-lang/src/scl_lexer.c:220-230 | returns CLex(text) |
| CLexer.DispatchDigit | c-lang/src/scl_lexer.c:162 | at a digit the lexer always takes the digit-run branch |
| CLexer.DigitLedWordIsPlain | c-lang/src/scl_lexer.c:184-193 | a word that starts with a digit is never a keyword or a boolean |
| Grammar.Eat | lib/scl_parser/parser_core.py:21-26 | succeeds exactly when the current token has the expected kind, then consumes that one token; otherwise a syntax error at that token |
| Grammar.Key | lib/scl_parser/parser_core.py:36-51 | a name is accepted exactly when it is an identifier, a type keyword, a number or a string; a number is named by its decimal text; any other token is an error at its position |
| Grammar.BracedLiteral | lib/scl_parser/parser_core.py:85-132 | a braced slot is '{', one literal the slot accepts, '}', and consumes exactly those three tokens |
| Grammar.BoolValue | lib/scl_parser/parser_core.py:85-89 | bool { BOOLEAN } gives that boolean and consumes three tokens |
| Grammar.NumValue | lib/scl_parser/parser_core.py:103-107 | num { NUMBER } gives that integer and consumes three tokens |
| Grammar.StrValue | lib/scl_parser/parser_core.py:91-101 | str { ... } gives the string of a STRING (or, in the reference library, PLAIN_STRING) token |
| Grammar.MlValue | lib/scl_parser/parser_core.py:122-132 | ml { ... } gives the string of a MULTILINE_STRING (or, in the reference library, PLAIN_STRING) token |
| Grammar.FlValue | lib/scl_parser/parser_core.py:109-120 | fl { ... } takes a FLOAT as written or a NUMBER promoted to a float, and nothing else |
| Grammar.DynamicDirect | lib/scl_parser/parser_core.py:246-262 | succeeds exactly on a scalar literal token, giving its scalar value; otherwise "dynamic supports only base types" at that token |
| Grammar.DynamicValue | lib/scl_parser/parser_core.py:264-268 | dynamic { literal } gives the literal's scalar value |
| Grammar.TypeClause | lib/scl_parser/parser_core.py:143-164 | an element-type clause opens with '(' (or '[' in the reference library) and closes with the matching bracket; the ports accept only scalar element types |
| Grammar.ElemType | lib/scl_parser/parser_core.py:178-244 | the ports accept num, fl, bool and str as one token; the reference library also ml, class, dynamic and nested list clauses |
| Grammar.Param | lib/scl_parser/parser_core.py:35-83 | a parameter consumes name, '::', tag and value, and its value has the shape its tag names and unique keys at every depth |
| Grammar.TypedValue | lib/scl_parser/parser_core.py:55-81 | the value parsed has the shape the tag demands; a token that is no type keyword is an error at that token |
| Grammar.Class | lib/scl_parser/parser_core.py:134-141 | a class value is an object whose keys are unique at every depth |
| Grammar.ClassBody | lib/scl_parser/parser_core.py:136-140 | the parameters up to '}' form an object whose keys are unique at every depth |
| Grammar.ListValue | lib/scl_parser/parser_core.py:159-176 | a list value is a list whose objects have unique keys at every depth |
| Grammar.Elem | lib/scl_parser/parser_core.py:182-242 | each element has the shape its element type names |
| Grammar.ListBody | lib/scl_parser/parser_core.py:167-176 | every element of the list has the shape of the element type |
| Grammar.ListBodyStep | lib/scl_parser/parser_core.py:168-173 | after an element, a comma or '}' continues the body and any other token is "Expected comma or closing brace" at that token |
| Grammar.ListBodyElemFails | lib/scl_parser/parser_core.py:169 | a malformed element fails the whole list with that element's error |
| Grammar.PutKeepsWellFormed | lib/scl_parser/parser_core.py:139 | assigning a key in a dict keeps every key unique and every value well formed |
| Grammar.PutValues | lib/scl_parser/parser_core.py:139 | every value after the assignment is the new value or one that was already there |
| Grammar.Config | lib/scl_parser/parser_core.py:28-33 | the parameters up to EOF form a dict with unique keys and well-formed values |
| Grammar.Parse | lib/scl_parser/parser_core.py:8-9 | after newlines and comments are removed, a successful parse yields unique keys and well-formed values at every depth |
| GrammarFacts.Params | lib/scl_parser/parser_core.py:28-33 | the parameters up to EOF in written order, each value well formed |
| GrammarFacts.LastValue | lib/scl_parser/parser_core.py:32 | a value is found exactly when the name occurs among the parameters |
| GrammarFacts.ConfigIsPutAll | lib/scl_parser/parser_core.py:28-33 | the parse loop succeeds exactly when the parameters parse, and then is those parameters assigned into the dict one by one; a failure is the same error |
| GrammarFacts.PutAllLastWins | lib/scl_parser/parser_core.py:32 | after assigning all parameters a name holds its last written value, and a name never written keeps its earlier value |
| GrammarFacts.LastValueOfCons | lib/scl_parser/parser_core.py:32 | the last value of a name is the one in the rest of the list, or the first entry's when the rest has none |
| GrammarFacts.ParseLastValueWins | lib/scl_parser/parser_core.py:28-33 | a name written more than once holds the value written last |
| GrammarFacts.ParseIgnoresLayout | lib/scl_parser/parser_core.py:8-9 | filtering newlines and comments a second time changes no parse |
| GrammarFacts.EmptyListBody | lib/scl_parser/parser_core.py:168 | an empty list body is accepted as the empty list |
| GrammarFacts.TrailingComma | lib/scl_parser/parser_core.py:168-175 | one element followed by a comma and '}' is the one-element list |
| GrammarFacts.MissingComma | lib/scl_parser/parser_core.py:172-173 | an element followed by neither a comma nor '}' fails with "Expected comma or closing brace" at that token |
| GrammarFacts.EmptyNumBraces | lib/scl_parser/parser_core.py:103-107 | num { } fails at the '}' with "Expected NUMBER, got }" |
| GrammarFacts.ParamValueError | lib/scl_parser/parser_core.py:53-81 | a parameter whose name and '::' are fine fails with the error of its value |
| GrammarFacts.NumTagError | lib/scl_parser/parser_core.py:62-64 | after num the error of the braced number is the error of the value |
| GrammarFacts.FirstParamError | lib/scl_parser/parser_core.py:30-31 | a stream whose first parameter fails fails as a whole with that error |
| GrammarFacts.EmptyNumFails | ruby/test/scl_parser_test.rb:22-29 | "x :: num { }" fails at the '}' because a NUMBER was expected there |
| GrammarFacts.SignificantKeepsAll | lib/scl_parser/parser_core.py:9 | a stream with no newline or comment is unchanged by the filter |
| StrictGrammarFacts.StrictStringSlots | python/scl_parser/parser_core.py:91-95 | in the ports str accepts exactly '{' STRING '}' and ml exactly '{' MULTILINE_STRING '}', giving that text |
| StrictGrammarFacts.StrictFloatSlot | python/scl_parser/parser_core.py:103-114 | fl accepts exactly a braced FLOAT or NUMBER |
| StrictGrammarFacts.StrictDynamicSlot | python/scl_parser/parser_core.py:169-186 | dynamic accepts exactly one braced NUMBER, FLOAT, BOOLEAN, STRING or MULTILINE_STRING and gives its value |
| StrictGrammarFacts.StrictElementTypes | python/scl_parser/parser_core.py:133-153 | the element type is accepted exactly when it is num, fl, bool or str; anything else is "Unsupported list element type" |
| StrictGrammarFacts.StrictTypeClause | python/scl_parser/parser_core.py:131-155 | the clause is accepted exactly as '(' scalar type ')' |
| StrictGrammarFacts.PutKeepsFlat | python/scl_parser/parser_core.py:127 | assigning a parameter keeps every list flat and of one scalar type |
| StrictGrammarFacts.ParamFlat | python/scl_parser/parser_core.py:35-83 | a parameter's value holds only flat lists of one scalar type |
| StrictGrammarFacts.TypedValueFlat | python/scl_parser/parser_core.py:55-83 | a typed value holds only flat lists of one scalar type |
| StrictGrammarFacts.ClassBodyFlat | python/scl_parser/parser_core.py:122-129 | a class holds only flat lists of one scalar type |
| StrictGrammarFacts.ListValueFlat | python/scl_parser/parser_core.py:131-167 | a list holds scalars only, all of the element type |
| StrictGrammarFacts.ConfigFlat | python/scl_parser/parser_core.py:28-33 | the top level holds only flat lists of one scalar type |
| StrictGrammarFacts.StrictParseFlat | python/scl_parser/parser_core.py:28-33 | every configuration the ports read holds only lists of scalars, all of one type |
| CommentGrammar.CommentRun | lib/scl_parser/parser_with_comments.py:45-47 | stops at the first token that is not a comment and appends the texts of the comments it passed, in order |
| CommentGrammar.PreComment | lib/scl_parser/parser_with_comments.py:49 | there is a comment before a parameter exactly when at least one comment precedes it |
| CommentGrammar.Entries | lib/scl_parser/parser_with_comments.py:43-65 | the document stays consistent (unique keys, well-formed values, comments only for existing keys) and keeps every key it had |
| CommentGrammar.AfterValue | lib/scl_parser/parser_with_comments.py:60-63 | the document stays consistent and keeps every key it had |
| CommentGrammar.AddEntry | lib/scl_parser/parser_with_comments.py:54-58 | the key holds the new value and every other key stays; a non-empty pre-comment is recorded for it, an absent one leaves the comments unchanged; inline comments are untouched |
| CommentGrammar.AddInline | lib/scl_parser/parser_with_comments.py:61-63 | the key gets the inline comment; data and pre-comments are unchanged |
| CommentGrammar.DocumentOf | lib/scl_parser/parser_with_comments.py:31-65 | a parsed document is consistent and has a header exactly when the stream opens with a comment |
| CommentGrammar.AfterValueStep | lib/scl_parser/parser_with_comments.py:60-63 | a comment right after a value becomes that key's inline comment and is consumed; any other token is left to the next entry |
| CommentGrammar.EntriesAtEof | lib/scl_parser/parser_with_comments.py:51-52 | comments that run up to EOF end the document without another entry |
| CommentGrammar.EntriesParamFails | lib/scl_parser/parser_with_comments.py:54 | a malformed parameter after the comment run fails the document with that parameter's error |
| CommentGrammar.EntriesStep | lib/scl_parser/parser_with_comments.py:44-58 | one entry adds its parameter with the comments before it and continues after the value |
| CommentGrammar.EntriesWithoutComments | lib/scl_parser/parser_with_comments.py:43-65 | without comments, collecting entries gives the same data or the same error as the plain parse loop |
| CommentGrammar.DocumentWithoutComments | lib/scl_parser/parser_with_comments.py:31-65 | a stream without comments parses exactly when the plain parse does, into its data with no comments and no header |
| CommentGrammar.HeaderJoinsLeadingComments | lib/scl_parser/parser_with_comments.py:34-41 | the header is the leading comments joined with single spaces, in order |
| ParserCore.Parser.constructor | lib/scl_parser/parser_core.py:8-10 | the parser holds the input filtered as its dialect filters it (newlines and comments, or only newlines for the comment parser) at position 0 |
| ParserCore.Parser.CurrentToken | lib/scl_parser/parser_core.py:16-19 | returns a token of the stream, and EOF once the position is at or past the last token |
| ParserCore.Parser.Error | lib/scl_parser/parser_core.py:12-14 | the syntax error carries the message and the line and column of the current token |
| ParserCore.Parser.Eat | lib/scl_parser/parser_core.py:21-26 | agrees with Grammar.Eat and does not move on an error |
| ParserCore.Parser.Parse | lib/scl_parser/parser_core.py:28-33 | returns Config over the filtered stream: unique keys, last value wins |
| ParserCore.Parser.ParseConfig | lib/scl_parser/parser_core.py:30-32 | the parse loop returns Config from the current position and stops at EOF |
| ParserCore.Parser.ParseParameter | lib/scl_parser/parser_core.py:35-83 | agrees with Grammar.Param |
| ParserCore.Parser.ParseKey | lib/scl_parser/parser_core.py:36-51 | agrees with Grammar.Key |
| ParserCore.Parser.ParseTypedValue | lib/scl_parser/parser_core.py:55-81 | agrees with Grammar.TypedValue |
| ParserCore.Parser.ParseBraced | lib/scl_parser/parser_core.py:85-132 | agrees with Grammar.BracedLiteral |
| ParserCore.Parser.ParseBoolValue | lib/scl_parser/parser_core.py:85-89 | agrees with Grammar.BoolValue |
| ParserCore.Parser.ParseNumValue | lib/scl_parser/parser_core.py:103-107 | agrees with Grammar.NumValue |
| ParserCore.Parser.ParseStrValue | lib/scl_parser/parser_core.py:91-101 | agrees with Grammar.StrValue |
| ParserCore.Parser.ParseMlValue | lib/scl_parser/parser_core.py:122-132 | agrees with Grammar.MlValue |
| ParserCore.Parser.ParseFlValue | lib/scl_parser/parser_core.py:109-120 | agrees with Grammar.FlValue |
| ParserCore.Parser.ParseDynamicValueDirect | lib/scl_parser/parser_core.py:246-262 | agrees with Grammar.DynamicDirect |
| ParserCore.Parser.ParseDynamicValue | lib/scl_parser/parser_core.py:264-268 | agrees with Grammar.DynamicValue |
| ParserCore.Parser.ParseClassValue | lib/scl_parser/parser_core.py:134-141 | agrees with Grammar.Class |
| ParserCore.Parser.EatOpenBracket | lib/scl_parser/parser_core.py:143-151 | succeeds exactly on '(' (or '[' in the reference library), consuming it and returning its kind; otherwise the type clause's error |
| ParserCore.Parser.EatCloseBracket | lib/scl_parser/parser_core.py:153-157 | eats the bracket that closes the one the clause was opened with |
| ParserCore.Parser.ParseListElementType | lib/scl_parser/parser_core.py:178-244 | agrees with Grammar.ElemType |
| ParserCore.Parser.ParseListValue | lib/scl_parser/parser_core.py:159-176 | agrees with Grammar.ListValue |
| ParserCore.Parser.ParseTypeClause | lib/scl_parser/parser_core.py:160-164 | agrees with Grammar.TypeClause: the opening bracket, the element type and the matching closing bracket |
| ParserCore.Parser.ParseElement | lib/scl_parser/parser_core.py:182-242 | agrees with Grammar.Elem: the element parser the type clause selected |
| ParserCore.Parser.ParseElements | lib/scl_parser/parser_core.py:165-176 | the element loop agrees with Grammar.ListBody |
| ParserCore.Parser.ParseListItem | lib/scl_parser/parser_core.py:168-173 | one loop step reads an element of the element type and keeps the rest of the loop's outcome unchanged; an error is the loop's error |
| ParserCore.Parser.CollectComments | lib/scl_parser/parser_with_comments.py:45-47 | agrees with CommentRun |
| ParserCore.Parser.ParseWithComments | lib/scl_parser/parser_with_comments.py:31-65 | fails exactly when DocumentOf fails, with its error; otherwise returns a fresh document whose header and dictionaries are DocumentOf's |
| ParserCore.Parser.ParseEntries | lib/scl_parser/parser_with_comments.py:43-64 | the entry loop ends in the state Entries gives, or with its error |
| ParserCore.Parser.ParseEntry | lib/scl_parser/parser_with_comments.py:44-63 | one loop step keeps the document consistent and the loop's outcome unchanged; at EOF it changes nothing |
| ParserCore.Parser.Record | lib/scl_parser/parser_with_comments.py:54-58 | the document's dictionaries become AddEntry's |
| ParserCore.Parser.ParseInlineComment | lib/scl_parser/parser_with_comments.py:60-63 | the document becomes what AfterValue continues from, and stays consistent |
| GoParser.MapFromLookup | go/parser.go:157-166 | the map built from the entries holds exactly the keys a dictionary lookup finds there, each with the looked-up value converted to Go |
| GoParser.MapOfLookup | go/parser.go:39-54 | the Go map of a parse holds exactly the keys of the parsed dictionary, with their values |
| GoParser.MapOfPut | go/parser.go:51-52 | assigning a parameter into the dictionary is assigning it into the Go map |
| GoParser.MapOfKeys | go/parser.go:39-54 | the Go map's keys are exactly the dictionary's keys |
| GoParser.ListFromItems | go/parser.go:168-217 | the slice has one Go element per list element, in order |
| GoParser.ParseMap | go/parser.go:39-54 | Parse returns the grammar's configuration as a Go map, or its error |
| GoParser.Loads | go/scl.go:11-29 | Loads tokenizes, then parses, returning GoLoads(text): a lexer error or the parsed map |
| RustParser.I64Of | rust/src/parser.rs:108 | a text read as i64 yields a value only in the i64 range |
| RustParser.ParseI64 | rust/src/parser.rs:108 | the number read always fits in i64, with 0 as the fallback |
| RustParser.REat | rust/src/parser.rs:36-43 | succeeds exactly when the current token has the expected kind, consuming it; otherwise an error at that token |
| RustParser.RKey | rust/src/parser.rs:55-66 | a name is accepted exactly when it is an identifier, a type keyword, a number or a string, and is that token's text; otherwise an error at that token |
| RustParser.RBoolValue | rust/src/parser.rs:86-95 | accepted exactly as a braced Boolean, true exactly for the texts "true" and "yes" |
| RustParser.RStrValue | rust/src/parser.rs:97-102 | accepted exactly as a braced String, giving its text |
| RustParser.RNumValue | rust/src/parser.rs:104-110 | accepted exactly as a braced Number, read as i64 with 0 as the fallback |
| RustParser.RFlValue | rust/src/parser.rs:112-122 | accepted exactly as a braced Float or Number |
| RustParser.RMlValue | rust/src/parser.rs:124-129 | accepted exactly as a braced MultilineString, giving its text |
| RustParser.BaseValue | rust/src/parser.rs:219-224 | a literal inside dynamic denotes a base value |
| RustParser.RDynamicValue | rust/src/parser.rs:216-229 | accepted exactly as one braced base literal, wrapped as a dynamic value |
| RustParser.EmptyList | rust/src/parser.rs:152-154 | the empty vector a list starts from has the element type its keyword names |
| RustParser.Push | rust/src/parser.rs:153-209 | appending an element keeps the list's element type |
| RustParser.RListItem | rust/src/parser.rs:155-209 | an element is accepted exactly when its token fits the list's type, and is appended; otherwise an error at that token |
| RustParser.RListItems | rust/src/parser.rs:152-212 | the element loop ends at '}' with a list of the same element type |
| RustParser.RListItemsStep | rust/src/parser.rs:155-162 | a misfit element is the loop's error; after a fitting one, a comma continues, '}' ends and any other token is "Expected comma or closing brace" |
| RustParser.RListValue | rust/src/parser.rs:142-214 | a list value opens with '(' and has the element type its keyword names |
| RustParser.RParam | rust/src/parser.rs:54-84 | a parameter's value has the variant its type keyword names, and every dynamic value in it holds a base value |
| RustParser.RTypedValue | rust/src/parser.rs:68-82 | the value has the variant its type keyword names; a token that is no type keyword is "Unknown type" with the token's Debug value |
| RustParser.RClassValue | rust/src/parser.rs:131-140 | a class value is a Class whose dynamic values hold base values |
| RustParser.RClassBody | rust/src/parser.rs:134-137 | the class body keeps every field already inserted and only adds fields |
| RustParser.RConfig | rust/src/parser.rs:45-52 | the parse loop keeps every key already inserted |
| RustParser.RParse | rust/src/parser.rs:27-52 | a successful parse holds dynamic values only of base types |
| RustParser.Parser.constructor | rust/src/parser.rs:27-30 | the parser holds the tokens without newlines and comments, at position 0 |
| RustParser.Parser.Cur | rust/src/parser.rs:32-34 | returns a token of the stream, and Eof once the position is at or past the last token |
| RustParser.Parser.Eat | rust/src/parser.rs:36-43 | agrees with REat and does not move on an error |
| RustParser.Parser.Parse | rust/src/parser.rs:45-52 | returns RConfig over its tokens |
| RustParser.Parser.ParseParameter | rust/src/parser.rs:54-84 | agrees with RParam |
| RustParser.Parser.ParseTypedValue | rust/src/parser.rs:68-82 | agrees with RTypedValue |
| RustParser.Parser.ParseBoolValue | rust/src/parser.rs:86-95 | agrees with RBoolValue |
| RustParser.Parser.ParseStrValue | rust/src/parser.rs:97-102 | agrees with RStrValue |
| RustParser.Parser.ParseNumValue | rust/src/parser.rs:104-110 | agrees with RNumValue |
| RustParser.Parser.ParseFlValue | rust/src/parser.rs:112-122 | agrees with RFlValue |
| RustParser.Parser.ParseMlValue | rust/src/parser.rs:124-129 | agrees with RMlValue |
| RustParser.Parser.ParseClassValue | rust/src/parser.rs:131-140 | agrees with RClassValue |
| RustParser.Parser.ParseListValue | rust/src/parser.rs:142-214 | agrees with RListValue |
| RustParser.Parser.ParseItems | rust/src/parser.rs:152-212 | the typed element loop agrees with RListItems |
| RustParser.Parser.ParseItem | rust/src/parser.rs:155-162 | one loop step appends a fitting element and keeps the rest of the loop's outcome unchanged; an error is the loop's error |
| RustParser.Parser.ParseDynamicValue | rust/src/parser.rs:216-229 | agrees with RDynamicValue |
| RustParserFacts.RParams | rust/src/parser.rs:45-52 | the parameters up to Eof in written order, each holding only base dynamic values |
| RustParserFacts.ConfigIsInsertAll | rust/src/parser.rs:45-52 | the parse loop succeeds exactly when the parameters parse, and then is each inserted into the map in turn; a failure is the same error |
| RustParserFacts.InsertAllLastWins | rust/src/parser.rs:49 | a name written at some index and never after holds the value written there |
| RustParserFacts.InsertAllUntouched | rust/src/parser.rs:49 | a name no parameter writes keeps the entry it had, or stays absent |
| RustParserFacts.ParseLastInsertWins | rust/src/parser.rs:45-52 | a name written several times holds the value of its last occurrence |
| RustParserFacts.RParseIgnoresLayout | rust/src/parser.rs:28 | filtering newlines and comments a second time changes no parse |
| RustParserFacts.ParseI64OfDecimal | rust/src/parser.rs:108 | reading back an integer's decimal text gives the integer when it fits in i64, and 0 otherwise |
| RustParserFacts.SignedDigitsHaveDigit | rust/src/parser.rs:108 | every text i64 parsing accepts holds a digit |
| RustParserFacts.ParseI64WithoutDigits | rust/src/parser.rs:108 | a text without a digit reads as 0 |
| RustParserFacts.BooleanWordsReadBack | rust/src/parser.rs:94 | a Boolean token reads as true exactly when its word is "true" or "yes" |
| RustParserFacts.TrailingCommaAccepted | rust/src/parser.rs:155-163 | a comma after the last element is accepted |
| RustParserFacts.MissingCommaFails | rust/src/parser.rs:158-162 | two elements with no comma between them fail with "Expected comma or closing brace" at the second |
| RustParserFacts.ListItemMisfit | rust/src/parser.rs:155-209 | a first element that does not fit the list's type fails the list at that element; in an fl list with "Expected float or number" |
| RubyParser.ParseTokens | ruby/lib/scl/parser.rb:7-13 | parse drops newlines and comments, reads the parameters and ends at EOF: the grammar's configuration, with unique keys and well-formed values |
| RubyParser.Loads | ruby/lib/scl_parser.rb:14-17 | loads is the Ruby lexer's tokens parsed, or the lexer's error |
| RubyParser.NumParam | ruby/lib/scl/parser.rb:27-51 | name :: num { NUMBER } is the pair of the name and that integer, six tokens long |
| RubyParser.BoolParam | ruby/lib/scl/parser.rb:53-58 | name :: bool { BOOLEAN } is the pair of the name and that boolean, six tokens long |
| RubyParser.StrParam | ruby/lib/scl/parser.rb:60-65 | name :: str { STRING } is the pair of the name and that string, six tokens long |
| RubyParser.ConfigStep | ruby/lib/scl/parser.rb:21-25 | one parameter at the top level merges into the hash and parsing goes on after it |
| RubyParser.ConfigOfTwo | ruby/lib/scl/parser.rb:21-25 | two parameters with different names give a hash of both, in order |
| RubyParser.ConfigOfThree | ruby/lib/scl/parser.rb:21-25 | three parameters with different names give a hash of the three, in order |
| RubyParser.LoadsSimpleConfiguration | ruby/test/scl_parser_test.rb:4-11 | "foo :: num { 42 }" and "flag :: bool { true }" parse to foo 42 and flag true, whatever newlines and comments surround them |
| RubyParser.LoadsSerializedExample | ruby/test/scl_parser_test.rb:13-20 | the serializer's three lines for title, count and enabled parse back to that hash, in that order |
| RubyParser.LoadsRaisesForInvalidNumber | ruby/test/scl_parser_test.rb:22-29 | any token other than a number inside num { } is a syntax error at that token, naming NUMBER as expected |
| CParser.BracedAt | c-lang/src/scl_parser.c:28-73 | '{' literal '}' gives the scalar the reader builds from that literal and the index after '}'; every failure is a bare message |
| CParser.ElementScalar | c-lang/src/scl_parser.c:108-112 | a list item has the list's element type |
| CParser.ListItems | c-lang/src/scl_parser.c:106-116 | the item loop extends the items already read, stops after '}', and every item has the element type |
| CParser.ListHeadAt | c-lang/src/scl_parser.c:95-104 | a list head '(' type ')' '{' names a real element type |
| CParser.ListValueAt | c-lang/src/scl_parser.c:94-119 | every item of a parsed list has the list's element type |
| CParser.ClassEntries | c-lang/src/scl_parser.c:78-89 | the class loop extends the entries already read and stops after '}' |
| CParser.ClassValueAt | c-lang/src/scl_parser.c:75-92 | a class value consumes at least its braces |
| CParser.RootEntries | c-lang/src/scl_parser.c:135-151 | the top-level loop extends the entries already read |
| CParser.SlotTypes | c-lang/src/scl_parser.c:28-73 | each typed reader builds values of its own type only |
| CParser.DynamicAgreesWithTyped | c-lang/src/scl_parser.c:121-132 | dynamic takes exactly the literals some typed reader takes, and builds what that reader builds (a number as num, not fl) |
| CParser.ElementLikeBraced | c-lang/src/scl_parser.c:108-111 | a list item is read as the braced reader of the element type reads its literal |
| CParser.FlTakesInteger | c-lang/src/scl_parser.c:54-63 | fl { 42 } reads the integer as a float with the same value, and num { 42 } as the integer |
| CParser.ListSeparators | c-lang/src/scl_parser.c:114-115 | a comma before '}' is accepted, and an item followed by neither ',' nor '}' is "Expected comma or closing brace" |
| CParser.ListRefusesNewline | c-lang/src/scl_parser.c:106-112 | inside a list body a newline is an item of the wrong type: "List element type mismatch" |
| CParser.TriviaOnlyRoot | c-lang/src/scl_parser.c:137-138 | a top level of newlines and comments only adds no entry |
| CParser.RootKeepsEveryPair | c-lang/src/scl_parser.c:139-148 | every top-level parameter adds one entry, in order, a repeated key included, under "" when its key is NULL |
| CParser.MakeScalar | c-lang/src/scl_parser.c:33-71 | builds a fresh value holding exactly the scalar |
| CParser.PState.constructor | c-lang/src/scl_parser.c:159 | the parser state holds the tokens at position 0 with no error |
| CParser.PState.Cur | c-lang/src/scl_parser.c:16 | the token under the cursor is a token of the stream, and EOF at the last position |
| CParser.PState.Next | c-lang/src/scl_parser.c:31 | steps over one token and leaves the error as it was |
| CParser.PState.Eat | c-lang/src/scl_parser.c:17-21 | steps over a token of the kind and returns it; otherwise records the message and stays |
| CParser.PState.ReadBraced | c-lang/src/scl_parser.c:28-73 | agrees with BracedAt: the scalar and the position after '}', or BracedAt's message recorded |
| CParser.PState.ParseBraced | c-lang/src/scl_parser.c:28-73 | builds a fresh value holding BracedAt's scalar and moves past '}', or records BracedAt's message |
| CParser.PState.ParseListHead | c-lang/src/scl_parser.c:95-104 | gives ListHeadAt's element type and moves past '{', or records its message |
| CParser.PState.ParseValueList | c-lang/src/scl_parser.c:94-119 | builds a fresh homogeneous list with ListValueAt's element type and items, or records its message |
| CParser.PState.ParseListRest | c-lang/src/scl_parser.c:103-119 | after the head, builds a fresh homogeneous list of the element type holding ListItems' items and moves past '}', or records ListItems' message |
| CParser.PState.ParseListBody | c-lang/src/scl_parser.c:106-117 | the item loop pushes exactly ListItems' items, or records its message; the list stays homogeneous |
| CParser.PState.ParseListItem | c-lang/src/scl_parser.c:107-115 | one pass pushes an item of the element type and keeps the loop's outcome unchanged, or records its message |
| CParser.PState.ReadPair | c-lang/src/scl_parser.c:79 | returns the pair read at the cursor, moving past it, or records its message |
| CParser.PState.ParseValueClass | c-lang/src/scl_parser.c:75-92 | builds a fresh class holding ClassValueAt's entries in order, or records its message |
| CParser.PState.ParseRoot | c-lang/src/scl_parser.c:135-151 | builds a fresh class holding RootEntries' entries in order and stops at EOF, or records its message |
| CParser.Loads | c-lang/src/scl_parser.c:154-171 | -1 for a NULL text or a NULL out_value; otherwise 0 exactly when LoadsText succeeds, with a fresh root class of its entries, and -1 with its message when it fails |
| CParser.DoubleUntil | c-lang/src/scl_parser.c:191 | doubling stops at the first capacity that fits, below twice what is needed |
| CParser.GrownBufferCap | c-lang/src/scl_parser.c:189-191 | a grown buffer fits what is needed and is larger than before: 256 or double, doubled until it fits |
| CParser.StringBuilder.constructor | c-lang/src/scl_parser.c:234 | an empty builder holds no text and no capacity |
| CParser.StringBuilder.Append | c-lang/src/scl_parser.c:187-197 | appends s in place when it fits, grows the buffer first when not, and drops s when realloc fails |
| CParser.JoinStep | c-lang/src/scl_parser.c:225-228 | joining one more line adds the separator unless it is the first line, then the line |
| CParser.DumpsInner | c-lang/src/scl_parser.c:223-230 | appends the lines of a class's entries joined by newlines, and nothing for any other value |
| CParser.Dumps | c-lang/src/scl_parser.c:233-243 | returns DumpsText at the indent width, 4 when the indent is not positive |
| CParser.DumpsEndsWithNewline | c-lang/src/scl_parser.c:237-240 | the text always ends with a newline |
| CParser.DumpsDefaultIndent | c-lang/src/scl_parser.c:236-239 | an indent that is not positive writes as an indent of 4 |
| CParser.DumpsSmallClasses | c-lang/src/scl_parser.c:233-243 | an empty class is a single newline, and a class of one entry is its line and a newline |
| CValue.TypeOf | c-lang/src/scl_value.c:24-28 | the type of a scalar is one of the scalar types |
| CValue.GrownCap | c-lang/src/scl_value.c:36 | a full entry or item array always grows: 8 the first time, then double |
| CValue.SclValue.AsScalar | c-lang/src/scl_value.c:24-28 | the scalar a value holds has the value's own type |
| CValue.SclValue.constructor | c-lang/src/scl_value.c:17-22 | a fresh NULL value with empty arrays and no element type |
| CValue.MakeNull | c-lang/src/scl_value.c:17-22 | a fresh NULL value with no entries, no items and no element type |
| CValue.MakeBool | c-lang/src/scl_value.c:24 | a fresh BOOL value holding b |
| CValue.MakeNum | c-lang/src/scl_value.c:25 | a fresh NUM value holding i |
| CValue.MakeFl | c-lang/src/scl_value.c:26 | a fresh FL value holding the number |
| CValue.MakeStr | c-lang/src/scl_value.c:27 | a fresh STR value holding a copy of the text, "" for NULL |
| CValue.MakeMl | c-lang/src/scl_value.c:28 | a fresh ML value holding a copy of the text, "" for NULL |
| CValue.MakeClass | c-lang/src/scl_value.c:29 | a fresh empty class |
| CValue.MakeList | c-lang/src/scl_value.c:30 | a fresh empty list of the given element type |
| CValue.ClassPut | c-lang/src/scl_value.c:33-46 | -1 for NULL or a non-class; otherwise 0 and the entry is appended after the others, a repeated key included, growing the array when full; nothing else changes |
| CValue.ListPush | c-lang/src/scl_value.c:49-65 | 0 exactly when the value is a scalar the list's element type admits, then appended and the first push fixing the element type; -1 otherwise with the list unchanged; a homogeneous list stays homogeneous |
| CValue.FirstPushFixes | c-lang/src/scl_value.c:52 | the first push into a list without element type is accepted and fixes it to the value's type, ml counting as str |
| CValue.FixedListRefuses | c-lang/src/scl_value.c:53-54 | once fixed, a push is refused exactly when the types differ, except ml into str and num into fl |
| LibDocument.Document.constructor | lib/scl_parser/document.py:5-9 | a new document has no data, no comments and no header |
| LibDocument.Document.Get | lib/scl_parser/document.py:11-12 | gives the key's value when it is present and the default otherwise |
| LibDocument.Document.Set | lib/scl_parser/document.py:14-19 | the value is always assigned; each comment only when it is truthy (not None and not ""); the header is untouched and comments stay attached to data keys |
| LibDocument.Document.Delete | lib/scl_parser/document.py:21-27 | the key leaves all three dictionaries and nothing else changes |
| LibDocument.Document.Has | lib/scl_parser/document.py:29-30 | true exactly when the key has data; a comment alone does not count |
| LibDocument.Document.KeyList | lib/scl_parser/document.py:32-33 | the data keys, in insertion order |
| LibDocument.Document.Len | lib/scl_parser/document.py:80-81 | the number of data keys |
| LibDocument.Document.SetComment | lib/scl_parser/document.py:47-48 | the key's comment is set, even for a key without data; nothing else changes |
| LibDocument.Document.SetInlineComment | lib/scl_parser/document.py:50-51 | the key's inline comment is set; nothing else changes |
| LibDocument.Document.SetHeaderComment | lib/scl_parser/document.py:53-54 | the header is set; the dictionaries are unchanged |
| LibDocument.Document.GetComment | lib/scl_parser/document.py:41-42 | a comment is found exactly when one is recorded for the key |
| LibDocument.Document.GetInlineComment | lib/scl_parser/document.py:44-45 | an inline comment is found exactly when one is recorded for the key |
| LibDocument.Document.GetHeaderComment | lib/scl_parser/document.py:56-57 | the header as setHeaderComment or the parser last set it; None on a new document |
| LibDocument.Document.ToDict | lib/scl_parser/document.py:59-60 | a copy of the data with unique keys, in key order |
| LibDocument.Document.GetItem | lib/scl_parser/document.py:68-69 | succeeds exactly when the key has data, giving its value; otherwise a KeyError |
| LibDocument.Document.SetItem | lib/scl_parser/document.py:71-72 | assigns the data only; the comment dictionaries are untouched |
| LibDocument.Document.DelItem | lib/scl_parser/document.py:74-75 | is delete: the key leaves all three dictionaries |
| LibDocument.FromDict | lib/scl_parser/document.py:62-66 | a fresh document holding a copy of the mapping, with no comments and no header |
| LibDocument.RemoveKeepsOthers | lib/scl_parser/document.py:23 | a key other than the removed one survives the removal |
| LibDocument.RemoveDropsKey | lib/scl_parser/document.py:23 | a key present after the removal was present before and is not the removed key |
| LibDocument.SetThenDelete | lib/scl_parser/document.py:14-27 | setting a key and deleting it again removes it and leaves every other key as it was |
| LibSerializer.IndentStr | lib/scl_parser/serializer.py:40 | indent times level spaces, and none when the product is not positive |
| LibSerializer.InnerType | lib/scl_parser/serializer.py:113 | the inner type is the list type without its "list(" and ")" |
| LibSerializer.ListType | lib/scl_parser/serializer.py:74-94 | an inferred list type is one serializeTypedList can write at every level; an unsupported first element is an error |
| LibSerializer.DynamicText | lib/scl_parser/serializer.py:163-175 | succeeds exactly on scalars; anything else is "Unsupported value type" with its Python type |
| LibSerializer.DictLines | lib/scl_parser/serializer.py:42-45 | one line per entry |
| LibSerializer.ItemWords | lib/scl_parser/serializer.py:115-127 | one word per item of a one-line list (a list, dict or None item of a num or fl list is a fault, see Left out) |
| LibSerializer.NestedItemText | lib/scl_parser/serializer.py:152-153 | the item of a nested list is written after its inner type (a true item that is not a list is a fault, see Left out) |
| LibSerializer.BlockParts | lib/scl_parser/serializer.py:130-158 | one part per item of a block list (with the faults of ItemPart, see Left out) |
| LibSerializer.TypedListText | lib/scl_parser/serializer.py:103-161 | an empty list is the type and "{ }"; otherwise the text starts with the type; a type not of the form list(...) is "Invalid list type" |
| LibSerializer.CommentLine | lib/scl_parser/serializer.py:25-26 | at most one comment line before a key |
| LibSerializer.DocLines | lib/scl_parser/serializer.py:24-34 | at least one line per entry |
| LibSerializer.DocEntry | lib/scl_parser/serializer.py:25-34 | an entry is one or two lines: its comment line, then the entry |
| LibSerializer.HeaderLines | lib/scl_parser/serializer.py:20-22 | a truthy header is two lines, the comment and an empty line; otherwise none |
| LibSerializer.Serializer.constructor | lib/scl_parser/serializer.py:8-9 | the serializer keeps the indent it is given |
| LibSerializer.Serializer.Serialize | lib/scl_parser/serializer.py:11-15 | a document is written by DocumentText, anything else by DictText at the level |
| LibSerializer.Serializer.SerializeDocument | lib/scl_parser/serializer.py:17-36 | returns DocumentText |
| LibSerializer.Serializer.SerializeDocEntry | lib/scl_parser/serializer.py:25-34 | returns DocEntry |
| LibSerializer.Serializer.SerializeDict | lib/scl_parser/serializer.py:38-47 | returns DictText |
| LibSerializer.Serializer.SerializeTypedList | lib/scl_parser/serializer.py:103-161 | returns TypedListText |
| LibSerializer.Serializer.SerializeBlockList | lib/scl_parser/serializer.py:128-159 | succeeds exactly when every item part does, giving the type, the parts one per line and the closing brace; otherwise the first part's error |
| LibSerializer.Serializer.SerializeItem | lib/scl_parser/serializer.py:128-159 | returns ItemPart |
| LibSerializer.Serializer.SerializeEntries | lib/scl_parser/serializer.py:141-142 | returns EntryLines |
| LibSerializer.ItemLinesSnoc | lib/scl_parser/serializer.py:130-134 | one more item adds its line, with a comma unless it is the last |
| LibSerializer.BlockPartsSnoc | lib/scl_parser/serializer.py:130-134 | one more written item extends the block list's parts by its text |
| LibSerializer.BlockPartsFailureStays | lib/scl_parser/serializer.py:130-158 | once an item fails, the block list fails with that error |
| LibSerializer.EntryLinesFailureStays | lib/scl_parser/serializer.py:141-142 | once an entry fails, the object fails with that error |
| LibSerializer.DictLinesFailureStays | lib/scl_parser/serializer.py:42-45 | once an entry fails, the dictionary fails with that error |
| LibSerializer.DocLinesFailureStays | lib/scl_parser/serializer.py:24-34 | once an entry fails, the document fails with that error |
| LibSerializerFacts.StrValueReadsBack | lib/scl_parser/serializer.py:62-63 | a string without a line break is written str { "escaped" }, and the lexer reads the quoted part back as the original string |
| LibSerializerFacts.QuotedReadsPlain | lib/scl_parser/lexer.py:102-116 | a quoted stretch without quote, backslash or line break reads back unchanged |
| LibSerializerFacts.MlValueReadsBack | lib/scl_parser/serializer.py:59-60 | a string with a line break is written in the ml form unescaped, and when it holds no quote or backslash the lexer reads it back unchanged |
| LibSerializerFacts.MultilineReadsPlain | lib/scl_parser/lexer.py:118-132 | a single-quoted stretch without quote or backslash reads back unchanged |
| LibSerializerFacts.MlTextReadsBack | lib/scl_parser/serializer.py:60 | the ml text's quoted part reads back as the original string |
| LibSerializerFacts.BooleanNeverNum | lib/scl_parser/serializer.py:52-55 | a boolean is written with the bool tag, never as a number |
| LibSerializerFacts.ListTypeFirstDecides | lib/scl_parser/serializer.py:78-94 | only the first element decides a list's type |
| LibSerializerFacts.ValueTextNoTypeStringError | lib/scl_parser/serializer.py:96-161 | the type strings getListType infers never hit "Invalid list type" or "Unknown inner type" |
| LibSerializerFacts.UnsupportedIsNoTypeStringError | lib/scl_parser/serializer.py:175 | the unsupported-type messages of serializeDynamic and of getListType (line 94) are neither type-string error |
| LibSerializerFacts.ListTypeNoTypeStringError | lib/scl_parser/serializer.py:74-94 | getListType's errors are neither type-string error |
| LibSerializerFacts.DictLinesNoTypeStringError | lib/scl_parser/serializer.py:42-45 | a dictionary's errors are neither type-string error |
| LibSerializerFacts.TypedListTextNoTypeStringError | lib/scl_parser/serializer.py:103-161 | a list written under an inferred type hits neither type-string error |
| LibSerializerFacts.ItemWordsNoTypeStringError | lib/scl_parser/serializer.py:115-127 | a one-line list fails only as the Python runtime would, never with a type-string error |
| LibSerializerFacts.BlockPartsNoTypeStringError | lib/scl_parser/serializer.py:128-159 | a block list's errors are neither type-string error |
| LibSerializerFacts.ItemPartNoTypeStringError | lib/scl_parser/serializer.py:128-159 | an item's errors are neither type-string error |
| LibSerializerFacts.EntryLinesNoTypeStringError | lib/scl_parser/serializer.py:141-142 | an object's entry errors are neither type-string error |
| LibSerializerFacts.HeaderComesFirst | lib/scl_parser/serializer.py:20-22 | a document with a truthy header starts with the header comment and an empty line |
| LibSerializerFacts.EmptyOutputs | lib/scl_parser/serializer.py:36-47 | an empty document without header is "", and an empty dictionary is a single line break |
| LibSerializerFacts.DocLinesWithoutComments | lib/scl_parser/serializer.py:24-34 | without comments, a document's lines are the dictionary's lines |
| LibSerializerFacts.DocumentWithoutCommentsIsDict | lib/scl_parser/serializer.py:17-47 | a non-empty document without header or comments is written exactly as serializeDict writes its data |
| PyValues.BoolWord | python/scl_parser/serializer.py:18 | a boolean is written as the word true or false |
| PyValues.StrOf | lib/scl_parser/serializer.py:119-123 | str() gives text exactly for scalars, and a string is its own text (repr() of a list, dict or None is a fault, see Left out) |
| PySerializer.TagName | python/scl_parser/serializer.py:37-63 | a list's element tag is one of bool, num, fl and str |
| PySerializer.FirstTag | python/scl_parser/serializer.py:37-65 | the first element picks a tag exactly when it is a scalar; any other first element is "Unsupported list element type" |
| PySerializer.MixedTypes | python/scl_parser/serializer.py:40-61 | a mixed-types message is an SCLParseError |
| PySerializer.Misfit | python/scl_parser/serializer.py:40-61 | the error for an element that does not fit its list's tag is an SCLParseError |
| PySerializer.CheckItems | python/scl_parser/serializer.py:40-61 | succeeds exactly when every element fits the tag; otherwise an SCLParseError |
| PySerializer.ItemWords | python/scl_parser/serializer.py:42-63 | one word per element, each the element's own form |
| PySerializer.ListText | python/scl_parser/serializer.py:33-66 | an empty list is written "list(str) { }"; every failure is an SCLParseError |
| PySerializer.DynamicText | python/scl_parser/serializer.py:72-84 | succeeds exactly on scalars; anything else is "Unsupported value type" |
| PySerializer.DictLines | python/scl_parser/serializer.py:14-69 | one line per entry |
| PySerializer.DictText | python/scl_parser/serializer.py:10-70 | the text of a dictionary ends with a line break |
| PySerializer.DictLinesFailureStays | python/scl_parser/serializer.py:14-69 | once an entry fails, the dictionary fails with that error |
| PySerializer.CheckItemsFailureStays | python/scl_parser/serializer.py:40-61 | once an element misfits, the list check fails with that error |
| PySerializer.Serializer.constructor | python/scl_parser/serializer.py:7-8 | the serializer keeps the indent it is given |
| PySerializer.Serializer.Serialize | python/scl_parser/serializer.py:10-70 | returns DictText |
| PySerializer.Serializer.SerializeValue | python/scl_parser/serializer.py:15-68 | returns ValueText |
| PySerializer.Serializer.SerializeList | python/scl_parser/serializer.py:33-66 | returns ListText |
| PySerializer.Serializer.CheckFloatItems | python/scl_parser/serializer.py:50-56 | a float list keeps every item when all are numbers and not booleans; otherwise the first misfit's error |
| PySerializerFacts.ValueTextOkIff | python/scl_parser/serializer.py:17-68 | a value can be written exactly when it is serializable at every depth |
| PySerializerFacts.DictLinesOkIff | python/scl_parser/serializer.py:14-69 | the entries can be written exactly when every value is serializable |
| PySerializerFacts.DictTextOkIff | python/scl_parser/serializer.py:10-70 | serialize succeeds exactly on a serializable dictionary |
| PySerializerFacts.ListTypedByFirst | python/scl_parser/serializer.py:33-66 | a list is written exactly when its first element is a scalar and every element fits that element's tag; a non-scalar first element is the unsupported-type error |
| PySerializerFacts.ListTagIsScalarType | python/scl_parser/serializer.py:66 | a written list starts with "list(" and a tag that the lexer reads as the bool, num, fl or str keyword |
| PySerializerFacts.FirstMisfitDecides | python/scl_parser/serializer.py:40-61 | a failing list check reports the first element that does not fit, and every element before it fits |
| PySerializerFacts.FirstMisfitIndex | python/scl_parser/serializer.py:40-61 | the index of that first misfit |
| PySerializerFacts.FloatListRefusesBool | python/scl_parser/serializer.py:51-53 | a boolean in a float list is refused with its own message, even after an integer |
| PySerializerFacts.NumListRefusesString | python/scl_parser/serializer.py:45-46 | a string in a num list gives "expected all int" |
| PySerializerFacts.BooleanNeverNum | python/scl_parser/serializer.py:17-20 | a boolean is written with the bool tag and never as num |
| PySerializerFacts.EmptyAndFinalNewline | python/scl_parser/serializer.py:70 | an empty dictionary is a single line break, and every written dictionary ends with one |
| PySerializerFacts.StrValueReadsBack | python/scl_parser/serializer.py:27-28 | a string without a line break is written str { "escaped" }, and the port's lexer reads the quoted part back as the original |
| PySerializerFacts.MlValueReadsBack | python/scl_parser/serializer.py:24-25 | a string with a line break is written in the ml block, and without a quote the lexer reads it back unchanged |
| PySerializerFacts.MlBlockReadsBack | python/scl_parser/lexer.py:79-89 | the quoted part of an ml block reads back as a MULTILINE_STRING token holding the string |
| GoSerializer.ItemText | go/serializer.go:61-103 | an element has a word in a list of kind k exactly when it is of that kind, or an int in a float list |
| GoSerializer.Items | go/serializer.go:58-106 | one word per element; a misfit returns the list's mixed-types message |
| GoSerializer.LevelLines | go/serializer.go:24-113 | one line per key |
| GoSerializer.LevelLinesCutStays | go/serializer.go:58-113 | once an entry returns early, the level returns that message |
| GoSerializer.ItemsCutStays | go/serializer.go:61-103 | once an element misfits, the list returns that message |
| GoSerializer.Serializer.constructor | go/serializer.go:12-14 | the serializer keeps the indent it is given |
| GoSerializer.Serializer.Serialize | go/serializer.go:16-18 | the text of the map at level 0, never an error |
| GoSerializer.Serializer.SerializeLevel | go/serializer.go:20-122 | returns LevelText: the lines joined by line breaks and a final one, or the first early-return message |
| GoSerializer.Serializer.SerializeValue | go/serializer.go:25-111 | returns ValueText |
| GoSerializer.Serializer.SerializeList | go/serializer.go:50-108 | returns ListText |
| GoSerializer.Dumps | go/scl.go:41-47 | writes the map at level 0 with the given indent, and with an indent of 4 when the given one is zero or less |
| GoSerializerFacts.ItemsEmitIff | go/serializer.go:58-106 | the items are written exactly when every element has a word, and then each is that element's word |
| GoSerializerFacts.ListTextCases | go/serializer.go:50-108 | an empty list is "list(str) { }"; an unsupported first element returns its type; otherwise the list is written exactly when every element fits the first one's kind, and a misfit returns the mixed-types message |
| GoSerializerFacts.FlListTakesInts | go/serializer.go:81-92 | a float list takes an int and writes it in decimal |
| GoSerializerFacts.LevelLinesEmitIff | go/serializer.go:24-113 | a level is written exactly when every key's entry is |
| GoSerializerFacts.LevelLinesAreEntries | go/serializer.go:24-113 | a written level's lines are its entries' lines, in key order |
| GoSerializerFacts.FirstCutDecides | go/serializer.go:24-113 | the first entry that returns early decides the whole output |
| GoSerializerFacts.EmptyClassBlock | go/serializer.go:46-49 | an empty nested map is written "class {", an empty line and the closing brace |
| GoSerializerFacts.WritableLevel | go/serializer.go:20-122 | a writable map is written as its entry lines joined by line breaks, with a final one |
| GoSerializerFacts.GetIndex | go/parser.go:47-50 | a key found in the parsed entries is at some index, with that value |
| GoSerializerFacts.FlatIsWritable | go/serializer.go:27-111 | every value the parser builds is writable |
| GoSerializerFacts.LoadedMapsAreWritten | go/scl.go:41-47 | dumps of a map that loads produced never returns an early message: it is the entry lines joined |
| GoSerializerFacts.QuoteDispatch | go/lexer.go:244-252 | the Go lexer reads quoted text as the Python port's string and multiline readers do |
| GoSerializerFacts.StrValueReadsBack | go/serializer.go:42-44 | a string without a line break is written str { "escaped" }, and the Go lexer reads it back as the original |
| GoSerializerFacts.MlValueReadsBack | go/serializer.go:39-40 | a string with a line break is written in the ml block, and without a quote the Go lexer reads it back unchanged |
| RustSerializer.TrimEnd | rust/src/serializer.rs:113 | trim_end_matches drops exactly the trailing run of c: the rest is a prefix not ending in c, and everything cut is c |
| RustSerializer.BoolItems | rust/src/serializer.rs:62-65 | one word per boolean |
| RustSerializer.NumItems | rust/src/serializer.rs:66-69 | one word per integer |
| RustSerializer.FlItems | rust/src/serializer.rs:70-73 | one word per float |
| RustSerializer.StrItems | rust/src/serializer.rs:74-77 | one quoted word per string |
| RustSerializer.DynamicText | rust/src/serializer.rs:84-107 | succeeds exactly on the base values; a class or typed list is "Unsupported value type for dynamic" |
| RustSerializer.ValueText | rust/src/serializer.rs:36-82 | a dumpable value is always written; the only failure is the expect panic "dynamic serialization failed" |
| RustSerializer.EntryLine | rust/src/serializer.rs:26-31 | a dumpable value's line is written; the only failure is the expect panic |
| RustSerializer.LevelLines | rust/src/serializer.rs:25-32 | one line per key, written whenever the map is dumpable; the only failure is the expect panic |
| RustSerializer.LevelText | rust/src/serializer.rs:22-34 | a dumpable map's level is written; the only failure is the expect panic |
| RustSerializer.MapText | rust/src/serializer.rs:15-20 | a dumpable map is written and ends with a line break |
| RustSerializer.Dumps | rust/src/lib.rs:31-33 | an indent of 0 writes as an indent of 4; a dumpable map is always written and ends with a line break |
| RustSerializer.Serializer.constructor | rust/src/serializer.rs:11-13 | an indent of 0 becomes 4, so the kept indent is positive |
| RustSerializer.Serializer.SerializeMap | rust/src/serializer.rs:15-20 | returns MapText, which succeeds on a dumpable map |
| RustSerializer.Serializer.SerializeLevel | rust/src/serializer.rs:22-34 | returns LevelText |
| RustSerializer.LevelLinesFailureStays | rust/src/serializer.rs:25-32 | once an entry panics, the level fails with that error |
| RustSerializerFacts.TrimFloatShape | rust/src/serializer.rs:110-118 | text without a dot is kept; otherwise the result is "0" or a prefix not ending in a dot, and everything cut is zeros and dots |
| RustSerializerFacts.TrimFloatIdempotent | rust/src/serializer.rs:110-118 | on text with at most one dot, trimming twice is trimming once |
| RustSerializerFacts.TrimFloatTwoDots | rust/src/serializer.rs:113 | with two dots trimming is not idempotent: "1.0.0" trims to "1.0", which trims to "1" |
| RustSerializerFacts.NewlineStringIsMl | rust/src/serializer.rs:41-53 | a string with a line break is written exactly as an ml value, and serialize_dynamic (lines 89-92) writes it the same way |
| RustSerializerFacts.StrValueReadsBack | rust/src/serializer.rs:46-47 | a string without a line break is written str { "escaped" }, and the Rust lexer reads it back as the original |
| RustSerializerFacts.MlValueReadsBack | rust/src/serializer.rs:50-52 | an ml value without a quote reads back through the Rust lexer as a MULTILINE_STRING token holding it |
| RustSerializerFacts.LevelLinesAreEntries | rust/src/serializer.rs:25-33 | a written level's lines are its entries' lines, in iteration order |
| RustSerializerFacts.DynamicWritesOnlyBase | rust/src/serializer.rs:78-104 | a dynamic value is written exactly when its inner value is a base value |
| RustSerializerFacts.ParsedMapsDump | rust/src/lib.rs:31-33 | every map the parser returns is dumped without a panic, in any iteration order and with any indent |
| RubySerializer.Pad | ruby/lib/scl/serializer.rb:17 | the padding is indent times level spaces; a negative product is Ruby's ArgumentError |
| RubySerializer.MlText | ruby/lib/scl/serializer.rb:33-35 | the ml form is written exactly when the padding can be |
| RubySerializer.EscapeAsWritten | ruby/lib/scl/serializer.rb:37 | the two gsub calls as written leave a string without double quotes unchanged, backslashes included |
| RubySerializer.ItemText | ruby/lib/scl/serializer.rb:53-62 | a list item is written in its own form: an integer as decimal text that reads back as that integer, a string between double quotes with its line breaks kept, anything that is no scalar not at all (quoting corrected, see Left out) |
| RubySerializer.ItemTexts | ruby/lib/scl/serializer.rb:53-62 | one word per element, each the element's own form (quoting corrected, see Left out) |
| RubySerializer.ListTag | ruby/lib/scl/serializer.rb:50-66 | a list has a tag exactly when it is empty or all booleans, all numbers or all strings |
| RubySerializer.ListText | ruby/lib/scl/serializer.rb:49-67 | a list is written exactly when it has a tag; otherwise "Unsupported list element type" with the first element's class |
| RubySerializer.ValueText | ruby/lib/scl/serializer.rb:24-47 | a boolean, a number or a one-line string is always written; a value of any other class goes to serialize_dynamic and is "Unsupported value type" with its class (quoting corrected, see Left out) |
| RubySerializer.DynamicText | ruby/lib/scl/serializer.rb:69-88 | every scalar except a multi-line string is written, and a multi-line string when its padding can be; anything else is "Unsupported value type" with its class |
| RubySerializer.ObjText | ruby/lib/scl/serializer.rb:16-22 | a negative indent times a positive level fails with Ruby's ArgumentError |
| RubySerializer.ObjLines | ruby/lib/scl/serializer.rb:18-21 | one line per remaining entry |
| RubySerializer.Serialize | ruby/lib/scl/serializer.rb:9-12 | anything but a Hash is "Expected Hash"; the text ends with a line break |
| RubySerializerFacts.ValueTextOkIff | ruby/lib/scl/serializer.rb:24-47 | a value is written exactly when it is writable at every depth |
| RubySerializerFacts.ObjLinesOkIff | ruby/lib/scl/serializer.rb:18-21 | the entries are written exactly when every value is writable |
| RubySerializerFacts.SerializeOkIff | ruby/lib/scl/serializer.rb:9-12 | serialize succeeds on a Hash exactly when it is writable |
| RubySerializerFacts.ValueTextTag | ruby/lib/scl/serializer.rb:24-47 | a written value starts with the tag of its kind; a host value is "Unsupported value type" with its class |
| RubySerializerFacts.ClassLayout | ruby/lib/scl/serializer.rb:41 | a nested Hash is written from "class {" and a line break to the closing brace at the current indent |
| RubySerializerFacts.ObjLinesAreEntries | ruby/lib/scl/serializer.rb:18-21 | each line is the padding, the key, " :: " and the value's text, in order |
| RubySerializerFacts.ObjLinesFirstError | ruby/lib/scl/serializer.rb:18-21 | the first entry that fails decides the error |
| RubySerializerFacts.NegativeIndent | ruby/lib/scl/serializer.rb:17-41 | with a negative indent any nested Hash, and any multi-line string below the top level, fails with ArgumentError |
| RubySerializerFacts.ListChecksEveryElement | ruby/lib/scl/serializer.rb:52-65 | an element of another type anywhere in the list makes it fail with the first element's class |
| RubySerializerFacts.ListTagChoice | ruby/lib/scl/serializer.rb:52-63 | all booleans give bool, all integers num, integers mixed with floats fl, all strings str |
| RubySerializerFacts.ListTextHead | ruby/lib/scl/serializer.rb:54-63 | a written list starts with "list(", its tag and ") { " |
| RubySerializerFacts.StrFormReadsBack | ruby/lib/scl/serializer.rb:37-38 | a string escaped by doubling backslashes and escaping quotes reads back through the Ruby lexer as the original, wherever it stands |
| RubySerializerFacts.MlFormReadsBack | ruby/lib/scl/serializer.rb:35 | a string without a single quote, between single quotes, reads back through the Ruby lexer unchanged |
| RubySerializerFacts.EscapeAgreesWithoutBackslash | ruby/lib/scl/serializer.rb:37 | on a string without a backslash the gsub calls as written and the corrected quoting give the same text, so there the model writes what the port writes |
| RubySerializerFacts.AsWrittenBackslashUnclosed | ruby/lib/scl/serializer.rb:37 | a lone backslash, escaped as written, leaves the closing quote escaped, and the Ruby lexer reports "Unclosed string" |
| RubySerializerFacts.LinesOfThree | ruby/lib/scl/serializer.rb:18-21 | three writable entries give three lines, key by key |
| RubySerializerFacts.SerializeThree | ruby/lib/scl/serializer.rb:9-21 | a Hash of three writable entries is their three lines joined by line breaks, with a final one |
| RubySerializerFacts.SerializeScalars | ruby/lib/scl/serializer.rb:27-38 | a string, an integer and a boolean are written with the str, num and bool tags (the string with the corrected quoting, see Left out) |
| RubySerializerFacts.SerializeExample | ruby/test/scl_parser_test.rb:13-18 | the test's Hash is written as three lines in key order ending with a line break |

## Left out

- File I/O: `load`/`dump` in every port only read or write a file around `loads`/`dumps`, and are not modelled. The `loads`/`dumps` compositions are modelled.
- Package metadata and re-export shims (`setup.py`, `__init__.py`, `parser.py`, `ruby/lib/scl_parser.rb` apart from `loads`) are not modelled.
- Floating point: no string-to-float conversion and no float printing (`float()`, `ParseFloat`, `atof`, `parse::<f64>`, `str(float)`, `%v`, `Float#to_s`). A float is its lexeme and is printed as that lexeme; an integer promoted to float prints in decimal.
- GoLexer.FloatOverflows: Go's `ParseFloat` range error is modelled only as a lexeme whose integer part reaches the largest float64; rounding near that bound is not.
- Unicode: the model assumes ASCII input. Python `isalnum`/`isdigit`, Go `unicode.IsLetter` and Rust's byte-as-char conversions are taken over ASCII only.
- The lib lexer's `\u` escapes that name a surrogate code point (D800-DFFF) cannot be a Dafny `char`; the model reports them as a fault instead of building the string.
- Error message formatting (the `errors` files of each port): an error is a positioned syntax error, a structural error or a host fault. Line and column formatting is not modelled.
- Error wording where the ports differ from the lib reference: the strict dialect's str/ml messages ("Expected STRING, got ...") and Ruby's symbol spelling of token kinds are written in the lib's words. The Ruby test expects ":number" in a message, while its interpolation gives "number"; the model checks only that an error is raised.
- Go panic/recover: every panic of the Go lexer and parser is a failure result.
- Go and Rust map iteration order is a parameter (`Order`). No property depends on line order in those serializers.
- GoSerializer.Serializer.constructor: takes a non-negative indent. `strings.Repeat` panics on a negative count, which only a direct `NewSerializer` call could give, since `Dumps` replaces an indent <= 0 with 4.
- The `%T` name of a host value that is not an SCL value is carried by the value as given.
- The Go lexer stops at the first NUL byte, as `peek` returns 0 there; the model reads only the text before it.
- Rust `serialize_dynamic` has no arm for a nested `Dynamic`; the model refuses it as an error.
- C memory ownership: `free`/`strdup` transfers and `scl_free` are not modelled; every `realloc` is taken to succeed.
- C gaps: `dumps_value_line` and `parse_parameter_pair` are not shown, so they are parameters (`LineWriter`, `PairReader`); a `PairReader` is assumed to consume at least one token. A NULL key from it is stored as "".
- The C list reader's `cur(ps)->as.b` names a field the token struct lacks; the model reads the token's boolean.
- Ruby: the lexer's `read_number` re-checks a '-' that tokenize has already checked; that unreachable error branch is left out. Hash keys that are not strings (`k.to_s`) are taken to be strings already.
- Every serializer writes a string with a line break in the `ml` form without escaping. A string holding a single quote therefore does not read back; the read-back lemmas require that it holds none and, for the reference library's reader, which also decodes backslashes in that form, that it holds no backslash.
- StrOf (PyValues.StrOf): Python's `str()` of a list, a dict or None is its `repr()` (`[2]`, `{'a': 1}`, `None`); the model does not build `repr()` and returns a fault for these values instead of text.
- ItemWords (LibSerializer.ItemWords): an item of a `num` or `fl` list that is a list, a dict or None is written by `str()` in the source (`{"x": [1, [2]]}` gives `x :: list(num) { 1, [2] }`); through StrOf the model returns a fault for it.
- ItemPart (LibSerializer.ItemPart): an item of an `ml` list that is a list, a dict or None is written by `f"'{item}'"` in the source; through StrOf the model returns a fault for it.
- NestedItemText (LibSerializer.NestedItemText): a true item of a nested list that is not a list is indexed and iterated by `serializeTypedList` in the source; a string item is written character by character (`{"x": [[1], "ab"]}` gives `{ a, b }`) and a dict or number item raises. The model returns a fault for every such item.
- BlockParts (LibSerializer.BlockParts): inherits the faults of ItemPart and NestedItemText above, so a block list holding such an item is a fault where the source writes text.
- ItemText (RubySerializer.ItemText): writes a string item with the corrected quoting `Escape`, which doubles backslashes. serializer.rb:62 uses the `gsub` calls that leave backslashes single (see Findings); the two agree on strings without a backslash (RubySerializerFacts.EscapeAgreesWithoutBackslash).
- ItemTexts (RubySerializer.ItemTexts): the corrected quoting of ItemText, for every item.
- ValueText (RubySerializer.ValueText): writes a one-line string with the corrected `Escape`, where serializer.rb:37 uses the `gsub` calls as written.
- DynamicText (RubySerializer.DynamicText): writes a one-line string with the corrected `Escape`, where serializer.rb:82 uses the `gsub` calls as written.
- ListText, ObjLines, ObjText and Serialize (RubySerializer): carry the corrected quoting of ItemText and ValueText; on a string holding a backslash they write the intended text, not the port's.
- SerializeScalars (RubySerializerFacts.SerializeScalars): states the string written with the corrected `Escape`; the port's output differs exactly when the string holds a backslash.
- The parser test examples are stated over the token streams the lexer gives for their texts, not over the texts themselves.
- The grammar functions require a token stream ending in EOF; every lexer guarantees one.
- LibDocument: `values()`, `items()` and `__repr__` are views or formatting of `data` and are not modelled.

## Findings

| source | as written | input that shows it | evidently intended | confidence | as-written member | corrected member |
|---|---|---|---|---|---|---|
| ruby/lib/scl/serializer.rb:37 | `gsub("\\", "\\\\")` reads its replacement as a backslash escape, so each backslash is replaced by one backslash (the same at lines 62 and 82) | the string `\` is written `str { "\" }`, whose closing quote the lexer reads as escaped: "Unclosed string" | every backslash doubled, so the literal reads back as the original | high, not executed | RubySerializerFacts.AsWrittenBackslashUnclosed | RubySerializerFacts.StrFormReadsBack |

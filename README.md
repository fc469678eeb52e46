# rlox expressions and a doubly-linked list, in Dafny

This project models two small programs and proves properties of them.

**The rlox expression pipeline** (`rlox/src`). A Lox front end in Rust runs
three stages with one shared error reporter:
- the **scanner** turns source chars into tokens that end with `EOF`;
- the **parser** is recursive descent with four binary precedence levels, a
  right-recursive unary level and a primary level, and returns
  `Option<Expr>`;
- the **evaluator** folds the tree into a literal value or a `RuntimeError`.

**The doubly-linked list** (`challenges/dll.c`). A C list of strings with
`head`, `tail` and `len`, and `prev`/`next` links in the nodes. It offers
`find`, `append`, `insert` and `delete`.

The model follows the shape of each source file:
- **Scanner.** Module `Lexical` says what one `scan_token` call does (`Step`)
  and what the whole scan does (`ScanFrom`). The cursor machine
  `Scanning.Scanner` (a class with `start`, `current`, `line` and `tokens`) is
  proved to compute exactly that. Module `ScanProperties` proves what the
  scanner promises about its output.
- **Parser.** Module `Syntax` gives the parse as functions of the tokens and a
  cursor. The class `Parsing.Parser`, whose one mutable field is `curr`, is
  proved to return the same tree, leave the same cursor and report the same
  errors in the same order. Module `ParseProperties` proves precedence,
  associativity, prefix nesting and transparent parentheses as one round trip:
  print any tree, parse it back, and you get the tree without its grouping
  nodes. It also proves that every failure carries an error and that the
  cursor never steps over `EOF`.
- **Evaluator.** Module `Evaluation` has one structural recursion, `Eval`. Its
  partner is a static type table, `TypeCheck`: evaluation succeeds exactly on
  the trees the table accepts.
- **Error reporter.** The class `ErrorReporting.ErrorReporter` keeps the
  reporter's fields and a ghost log of the lines it prints. The function
  `ReportedAll` folds a sequence of reports into that state.
- **Pipeline.** `Pipeline.Run` restates `Program::run` of `rlox/src/main.rs`:
  stop after the scanner if it reported anything, stop after the parser if it
  returned `None`, otherwise evaluate.
- **List.** The class `DoublyLinked.DoublyLinkedList` keeps the C fields. It
  also has a ghost sequence of nodes and a ghost sequence of their strings,
  and `Valid()` ties the links to that order.

Data shapes chosen where the Rust files disagree with each other:
- Literals carry `Boolean(bool)`, as in `parser.rs` and `interpreter.rs`.
- Unary and binary nodes carry the operator and the line of its token.
- The keyword table is the sixteen keyword variants of `token.rs`, each under
  its lower-case spelling.
- `parse_error` reports at the token's line, located " at end" for `EOF` and
  " at '<lexeme>'" otherwise.
- An f32 is kept as its 32-bit pattern and never computed with. The scanner
  takes `str::parse::<f32>` as a parameter, and the evaluator takes the f32
  operations as one (`FloatOps`).

Where the code behaves otherwise than one would expect of a Lox front end,
the model follows the code:
- An unterminated string is reported at the line counter reached at the end
  of the input, not at the line where the string started. The counter advances
  over the newlines inside the string.
- In `parse_primary`, a token that cannot start an expression has already been
  consumed when the error is raised. So the error blames the token after it:
  for `+ 1` it names `1`.
- A `(` with no expression after it reports two errors: the inner one, then
  "Expected an expression.".

## Model

| member | source | states |
|---|---|---|
| Lexical.RunEnd | rlox/src/scanner.rs:172-174 | the end of the run of one char kind from i lies within the source, and the char there is not of the kind |
| Lexical.RunEndMaximal | rlox/src/scanner.rs:172-174 | every char before the run's end is of the kind, so the run is maximal |
| Lexical.RunEndUnique | rlox/src/scanner.rs:188-190 | any end with only run chars before it and a non-run char after it is the one RunEnd finds |
| Lexical.CommentEnd | rlox/src/scanner.rs:130-135 | the block-comment scan stops at a `*/` or at the end of the input |
| Lexical.CommentEndFirst | rlox/src/scanner.rs:130-135 | no `*/` occurs before the stop, so comments end at the first closer and do not nest |
| Lexical.CommentEndUnique | rlox/src/scanner.rs:130-135 | the first closer after the opener, or the end of the input, is where the loop stops |
| Lexical.Step | rlox/src/scanner.rs:41-111 | one `scan_token` consumes at least one char, never lowers the line counter, pushes no `EOF` and never both pushes a token and reports; an error is a data error at the current line with no location |
| ScanProperties.ScanEndsWithEof | rlox/src/scanner.rs:30-38 | the tokens end with exactly one `EOF`, with lexeme "" and the final line counter; no earlier token is `EOF` |
| ScanProperties.ScanLinesMonotone | rlox/src/scanner.rs:96 | token lines never decrease and lie between the starting line and the final line counter |
| ScanProperties.ScanErrorsShape | rlox/src/scanner.rs:103-107 | every scan error has an empty location, the data-error code and a line within the scanned range |
| ScanProperties.TwoCharOperatorPeeksOnly | rlox/src/scanner.rs:56-83 | `!`, `=`, `<`, `>` before `=` give the two-char type but consume one char, with a one-char lexeme |
| ScanProperties.StepAtQuote | rlox/src/scanner.rs:93 | a `"` hands the step to the string scanner |
| ScanProperties.StepAtSlash | rlox/src/scanner.rs:84-92 | a `/` hands the step to the comment-or-slash choice |
| ScanProperties.StepAtLetter | rlox/src/scanner.rs:94 | a letter or `_` hands the step to the identifier scanner |
| ScanProperties.StepAtDigit | rlox/src/scanner.rs:100-101 | a digit hands the step to the number scanner |
| ScanProperties.StringLiteral | rlox/src/scanner.rs:148-169 | a terminated string's payload is exactly the chars between the quotes, its lexeme includes the quotes, and newlines inside advance the line |
| ScanProperties.StringStepTerminated | rlox/src/scanner.rs:161-168 | the string scanner reads up to the first closing quote and pushes the String token after it |
| ScanProperties.UnterminatedString | rlox/src/scanner.rs:156-160 | a string that never closes consumes the rest of the input, pushes nothing and reports "Unterminated string." at the final line |
| ScanProperties.StringStepUnterminated | rlox/src/scanner.rs:149-160 | the string scanner reaching the end reports the error with the line counter advanced over the string's newlines |
| ScanProperties.IdentifierToken | rlox/src/scanner.rs:171-185 | an identifier is a maximal alphanumeric run; an exact keyword gets the keyword's type, any other text `Identifier(text)` |
| ScanProperties.IdentifierStepRun | rlox/src/scanner.rs:172-184 | the identifier scanner stops at the end of the maximal run and looks the text up in the keyword table |
| ScanProperties.NumberToken | rlox/src/scanner.rs:187-207 | a number is a maximal digit run, extended by `.` and a second digit run only when a digit follows the `.` |
| ScanProperties.NumberStepRuns | rlox/src/scanner.rs:188-199 | the number scanner's two digit loops stop at the ends of the maximal runs |
| ScanProperties.LineComment | rlox/src/scanner.rs:120-124 | `//` skips to the next newline, leaves it for the next step and pushes nothing |
| ScanProperties.BlockComment | rlox/src/scanner.rs:126-146 | `/* */` ends after the first closer, pushes nothing and advances the line over the newlines inside |
| ScanProperties.UnterminatedBlockComment | rlox/src/scanner.rs:137-141 | an unclosed block comment consumes the rest of the input and reports "Unterminated block comment." |
| ScanProperties.UnrecognizedCharacter | rlox/src/scanner.rs:102-108 | any other char is reported as "Unrecognized character: c" and skipped; scanning goes on with the same tokens as from the next char |
| ScanExamples.ScanEqualEqual | rlox/src/scanner.rs:357-366 | `==` scans as `EqualEqual("=")`, then `Equal("=")`, then `EOF` |
| ScanExamples.ScanTrailingDot | rlox/src/scanner.rs:193-199 | `1.` scans as a Number token, then a Dot token |
| ScanExamples.ScanUnterminatedString | rlox/src/scanner.rs:156-160 | `"ab` gives only `EOF` and exactly one "Unterminated string." error |
| ScanExamples.ScanHello | rlox/src/scanner.rs:262-295 | the `scan_hello` test: `print "Hello, world!";` gives Print, the String token, SemiColon and `EOF`, all on line 1 |
| Scanning.Scanner.constructor | rlox/src/scanner.rs:17-28 | a new scanner has cursor 0, line 1 and no tokens |
| Scanning.Scanner.ScanTokens | rlox/src/scanner.rs:30-39 | the scan ends at the end of the source; the tokens, the final line and the reporter's state are those of ScanFrom, and the result ends with the single `EOF` |
| Scanning.Scanner.ScanToken | rlox/src/scanner.rs:41-111 | one call moves the cursor, the line, the tokens and the reporter exactly as Step says |
| Scanning.Scanner.ScanSlash | rlox/src/scanner.rs:84-92 | the `/` arm: line comment, block comment or Slash token, as SlashStep says |
| Scanning.Scanner.ScanOther | rlox/src/scanner.rs:97-109 | the catch-all arm: identifier, number or one "Unrecognized character" report |
| Scanning.Scanner.AddToken | rlox/src/scanner.rs:113-118 | pushes one token whose lexeme is the text from start to the cursor, at the current line |
| Scanning.Scanner.ScanInlineComment | rlox/src/scanner.rs:120-124 | the cursor stops at the next newline or the end |
| Scanning.Scanner.ScanBlockComment | rlox/src/scanner.rs:126-146 | cursor, line and reports as BlockCommentStep says: after the first `*/`, or at the end with one error |
| Scanning.Scanner.ScanString | rlox/src/scanner.rs:148-169 | cursor, line, tokens and reports as StringStep says |
| Scanning.Scanner.ScanIdentifier | rlox/src/scanner.rs:171-185 | cursor and tokens as IdentifierStep says, with the rlox keyword table |
| Scanning.Scanner.ScanNumber | rlox/src/scanner.rs:187-207 | cursor and tokens as NumberStep says |
| Scanning.Scanner.SkipDigits | rlox/src/scanner.rs:188-190 | the cursor moves to the end of the maximal digit run |
| Scanning.Scanner.Advance | rlox/src/scanner.rs:213-218 | returns the char under the cursor and moves one on |
| ErrorReporting.IntToString | rlox/src/error_reporter.rs:21 | the text of the line number `N` in `[line N]` is never empty; for a non-negative line it is its decimal digits, for a negative one a `-` before the digits of its magnitude |
| ErrorReporting.NatToString | rlox/src/error_reporter.rs:21 | decimal digits only, with no leading zero |
| ErrorReporting.NatToStringRoundTrip | rlox/src/error_reporter.rs:21 | the printed digits read back as the number |
| ErrorReporting.Rendered | rlox/src/error_reporter.rs:21 | one `[line N] Error<where>: <message>` line per report, in order |
| ErrorReporting.ReportedAllSingle | rlox/src/error_reporter.rs:20-24 | one report through the fold is that report |
| ErrorReporting.ReportedAllFlag | rlox/src/error_reporter.rs:22 | after any number of reports the flag is set iff it was set before or something was reported |
| ErrorReporting.ReportedAllLastCode | rlox/src/error_reporter.rs:23 | the exit code is that of the last report, so the last error wins; with no reports it is unchanged |
| ErrorReporting.ReportedAllPrinted | rlox/src/error_reporter.rs:21 | exactly one diagnostic line is printed per report, in order |
| ErrorReporting.ReportedAllAppend | rlox/src/error_reporter.rs:20-24 | reporting two batches in turn is reporting their concatenation |
| ErrorReporting.ErrorReporter.constructor | rlox/src/error_reporter.rs:9-14 | a new reporter has no error, no exit code and has printed nothing |
| ErrorReporting.ErrorReporter.Default | rlox/src/error_reporter.rs:27-31 | `default()` is the same state as `new()` |
| ErrorReporting.ErrorReporter.Error | rlox/src/error_reporter.rs:16-18 | `error` is `report` with an empty location |
| ErrorReporting.ErrorReporter.Report | rlox/src/error_reporter.rs:20-24 | prints `[line N] Error<where>: <message>`, sets the flag and stores the code |
| ErrorReporting.ErrorReporter.ParseError | rlox/src/parser.rs:199-203 | a report at the token's line, located " at end" for `EOF` and at the lexeme otherwise |
| Grammar.StripRemovesGrouping | rlox/src/parser.rs:137-154 | the stripped tree has no grouping node |
| Grammar.StripNoGrouping | rlox/src/parser.rs:137-154 | stripping a tree with no grouping node changes nothing |
| Syntax.Advanced | rlox/src/parser.rs:177-182 | `advance` moves the cursor one token on, and it stays put exactly at `EOF` |
| Syntax.ReportsOf | rlox/src/parser.rs:199-203 | one data-error report per parse error, located at its token, in order |
| Syntax.LevelOps | rlox/src/parser.rs:86-103 | no binary level lists `EOF` among its operators |
| Syntax.LevelOpsCovered | rlox/src/parser.rs:52-70 | a token matched by a level maps to a tree operator, so the "Expected a binary operator." arm is unreachable |
| Syntax.LiteralOf | rlox/src/parser.rs:131-136 | only Number, String, True, False and Nil tokens are literals; `EOF` and `(` are not |
| Syntax.ParsePrimary | rlox/src/parser.rs:125-160 | the primary parse leaves the cursor at or after where it started, within the tokens |
| Syntax.ParseGroup | rlox/src/parser.rs:137-154 | the group parse leaves the cursor at or after where it started, within the tokens |
| Syntax.ParseUnary | rlox/src/parser.rs:105-123 | the unary parse leaves the cursor at or after where it started, within the tokens |
| Syntax.ParseOperand | rlox/src/parser.rs:86-103 | a level's operand parse leaves the cursor at or after where it started, within the tokens |
| Syntax.ParseAt | rlox/src/parser.rs:42-84 | a binary level's parse leaves the cursor at or after where it started, within the tokens |
| Syntax.BinaryLoop | rlox/src/parser.rs:51-81 | the operator loop leaves the cursor at or after where it started, within the tokens |
| Syntax.SyncFrom | rlox/src/parser.rs:207-219 | the loop of `synchronize` never moves back and stays within the tokens |
| ParseProperties.OpTokenRoundTrip | rlox/src/parser.rs:52-63 | each operator's token is in its level's list and maps back to that operator |
| ParseProperties.MatchesLevel | rlox/src/parser.rs:166-189 | `match_type` on a level's list succeeds exactly on that level's operator tokens |
| ParseProperties.LoopStep | rlox/src/parser.rs:51-81 | one loop turn folds the operator and the next operand into the left tree: left-associativity |
| ParseProperties.UnaryStep | rlox/src/parser.rs:105-120 | a prefix `!` or `-` wraps the result of the recursive unary parse |
| ParseProperties.ParenStep | rlox/src/parser.rs:137-154 | `( e )` is the inner tree itself, with the `)` consumed |
| ParseProperties.ParenUnclosed | rlox/src/parser.rs:145-148 | an expression after `(` not followed by `)` fails with "Expected ')'." at the token after it |
| ParseProperties.ParenEmpty | rlox/src/parser.rs:138-143 | `(` with no expression after it keeps the inner errors and adds "Expected an expression." |
| ParseProperties.OperandAtEof | rlox/src/parser.rs:126-129 | at `EOF` an operand fails in place with "Expected a literal or '('." |
| ParseProperties.OperandRejected | rlox/src/parser.rs:155-158 | any other non-operand token is consumed and the error blames the token after it |
| ParseProperties.LiteralStep | rlox/src/parser.rs:131-136 | a literal token is a literal tree, one token on |
| ParseProperties.ContinueStops | rlox/src/parser.rs:51-83 | a level's loop stops before a token of a looser level and returns the tree read so far |
| ParseProperties.FailLifts | rlox/src/parser.rs:46-49 | a failure propagates upward unchanged through every looser level |
| ParseProperties.ParsedAlone | rlox/src/parser.rs:38-40 | a prefix expression followed by no binary operator is the whole parse, with the rest left unread |
| ParseProperties.ReadPrinted | rlox/src/parser.rs:1-10 | a tree printed for a place of some binding level reads back, at that level, as the tree without grouping nodes |
| ParseProperties.ReadBinary | rlox/src/parser.rs:42-84 | a binary node read from its printed left operand, operator and right operand |
| ParseProperties.BinaryGlue | rlox/src/parser.rs:51-81 | a level's loop that read `l` up to an operator whose right operand reads as `r` goes on with `l op r` |
| ParseProperties.ReadUnary | rlox/src/parser.rs:105-120 | a printed prefix node reads back as its stripped tree |
| ParseProperties.PrintParse | rlox/src/parser.rs:1-10 | the round trip: any tree, printed with the parentheses its shape needs and followed by `EOF`, parses to itself without grouping nodes and stops at `EOF`; this fixes precedence, left-associativity, prefix nesting and transparent parentheses |
| ParseProperties.PrimaryOk | rlox/src/parser.rs:125-160 | a failed primary parse carries an error, a parsed one has no grouping node, and the cursor steps over no `EOF` |
| ParseProperties.UnaryOk | rlox/src/parser.rs:105-123 | the same for the unary parse |
| ParseProperties.OperandOk | rlox/src/parser.rs:86-103 | the same for a level's operand parse |
| ParseProperties.AtOk | rlox/src/parser.rs:42-84 | the same for a binary level: every `None` was reported, no partial tree, the cursor never passes `EOF` |
| ParseProperties.LoopOk | rlox/src/parser.rs:51-81 | the same for the operator loop |
| ParseProperties.SyncFromFirst | rlox/src/parser.rs:207-219 | the loop of `synchronize` stops at the first boundary: `EOF`, just after `;`, or before a statement keyword |
| ParseProperties.SynchronizedFirstBoundary | rlox/src/parser.rs:177-220 | `synchronize` panics exactly when called on the first token and that token is `EOF` (`previous` indexes before the first token); otherwise it advances at least one token unless at `EOF`, and stops at the first boundary after that |
| ParseExamples.ParseEmpty | rlox/src/parser.rs:227-236 | the `parse_empty` test: `EOF` alone fails with "Expected a literal or '('." at `EOF` |
| ParseExamples.PairUnclosed | rlox/src/parser.rs:145-148 | `( a op b` then `EOF` fails with "Expected ')'." at `EOF` |
| ParseExamples.ParseMissingRightParen | rlox/src/parser.rs:238-269 | the `parse_missing_rparen` test: `( 1 + 2` fails with one "Expected ')'." error |
| ParseExamples.ParseLoneParen | rlox/src/parser.rs:137-144 | `(` alone reports the missing operand, then "Expected an expression.", both at `EOF` |
| ParseExamples.ParseLeadingPlus | rlox/src/parser.rs:155-158 | `+ 1` fails, and the error names `1` |
| ParseExamples.ParseTrailingToken | rlox/src/parser.rs:38-40 | `1 2` parses as `1`, leaves the cursor on `2` and reports nothing |
| ParseExamples.ParseLeftAssociative | rlox/src/parser.rs:51-81 | `a - b - c` parses as `(a - b) - c` |
| ParseExamples.ParseProductFirst | rlox/src/parser.rs:86-103 | `a + b * c` parses as `a + (b * c)` |
| Parsing.ReportedOne | rlox/src/parser.rs:199-203 | one `error` call hands the reporter exactly one report |
| Parsing.Parser.constructor | rlox/src/parser.rs:30-36 | a new parser has its cursor on the first token |
| Parsing.Parser.Parse | rlox/src/parser.rs:38-40 | result, final cursor and reports are those of the parse from the cursor at level 0 |
| Parsing.Parser.ParseEquality | rlox/src/parser.rs:86-88 | the same, for binary level 0 (`==`, `!=`) |
| Parsing.Parser.ParseComparison | rlox/src/parser.rs:90-95 | the same, for level 1 (`<`, `<=`, `>`, `>=`) |
| Parsing.Parser.ParseTerm | rlox/src/parser.rs:97-99 | the same, for level 2 (`+`, `-`) |
| Parsing.Parser.ParseFactor | rlox/src/parser.rs:101-103 | the same, for level 3 (`/`, `*`) |
| Parsing.Parser.ParseNext | rlox/src/parser.rs:86-103 | the `parse_next` of a level: the next tighter level, and `parse_unary` below factor |
| Parsing.Parser.ParseBinaryExpr | rlox/src/parser.rs:42-84 | the loop-based parse matches ParseAt: the same tree, cursor and reports |
| Parsing.Parser.ParseUnary | rlox/src/parser.rs:105-123 | matches the unary parse function |
| Parsing.Parser.ParsePrimary | rlox/src/parser.rs:125-160 | matches the primary parse function, including the reported error |
| Parsing.Parser.ParseGroup | rlox/src/parser.rs:137-154 | matches the group parse function; a failed inner parse adds "Expected an expression." after the inner errors |
| Parsing.Parser.MatchType | rlox/src/parser.rs:166-175 | consumes one token exactly when it is one of the types and not `EOF` |
| Parsing.Parser.Advance | rlox/src/parser.rs:177-182 | one token on except at `EOF`; returns the token just passed |
| Parsing.Parser.Error | rlox/src/parser.rs:199-203 | hands the reporter one data error located at the token |
| Parsing.Parser.Synchronize | rlox/src/parser.rs:177-220 | reports a panic exactly where Synchronized has none, leaving the cursor; otherwise the cursor ends where Synchronized says |
| Evaluation.UnaryTyping | rlox/src/interpreter.rs:35-72 | `!` and `-` succeed exactly on the operand type the table lists; otherwise the error names the operator, its line and the operand, with the data-error code |
| Evaluation.BinaryTyping | rlox/src/interpreter.rs:74-125 | each binary operator succeeds exactly on the operand types the table lists, with a value of the listed type; otherwise the error names the operator, its line and both operands |
| Evaluation.EvalTyped | rlox/src/interpreter.rs:11-33 | evaluation succeeds exactly on the trees the type table accepts, with a value of the table's type; a literal always succeeds |
| Evaluation.EvalErrorLocated | rlox/src/interpreter.rs:116-120 | a runtime error is at the line of some operator of the tree, with the data-error code |
| Evaluation.EvalStrip | rlox/src/interpreter.rs:127-129 | grouping is transparent: removing all grouping nodes changes no result |
| Evaluation.EvalLeftFirst | rlox/src/interpreter.rs:77-78 | the left operand's error wins whatever the right operand is; otherwise the right operand's error is returned unchanged |
| Evaluation.NotEqualNegatesEqual | rlox/src/interpreter.rs:96-102 | `!=` is defined on exactly the pairs `==` is, and is its negation there |
| Evaluation.NilEqualsNil | rlox/src/interpreter.rs:111-121 | `nil == nil` is an error, and the type table rejects it |
| Evaluation.TruePlusOne | rlox/src/interpreter.rs:111-121 | `true + 1` fails at the `+`, naming both operands |
| Evaluation.DoubleNot | rlox/src/interpreter.rs:40-53 | `!!x` gives back a boolean `x` and fails at the inner `!` otherwise |
| Pipeline.ScanIsShaped | rlox/src/main.rs:82-83 | the scanner's output ends with `EOF` and all its reports carry the data-error code |
| Pipeline.ParseReportsAreDataErrors | rlox/src/parser.rs:199-203 | every parse report carries the data-error code |
| Pipeline.DataErrorsReported | rlox/src/error_reporter.rs:20-24 | after data-error reports the flag is set iff there were any, and then the code is the data-error code |
| Pipeline.ParsedOutcomes | rlox/src/main.rs:89-97 | after the scanner the run prints iff the parse succeeds, prints the value of the parsed tree, and otherwise returns the data-error code |
| Pipeline.ScannedOutcomes | rlox/src/main.rs:85-97 | once scanned, the run never panics, returns only the data-error code when it stops, and prints iff there were no scan errors and the parse succeeded |
| Pipeline.RunNeverPanics | rlox/src/main.rs:85-93 | neither `exit_code.unwrap()` can fail, and a stopped run returns the data-error code |
| Pipeline.RunOutcomes | rlox/src/main.rs:81-100 | a run prints exactly when the scan reported nothing and the parse built a tree, and it prints that tree's value or runtime error |
| DoublyLinked.Node.constructor | challenges/dll.c:44-54 | a new node holds a copy of the string and the given links |
| DoublyLinked.IndexOf | challenges/dll.c:66-80 | the first index holding target: -1 iff target is absent, otherwise it holds target and no earlier index does |
| DoublyLinked.IndexOfAppended | challenges/dll.c:82-104 | `find` after `append` of x gives x's earlier index, or the new last index if x was absent |
| DoublyLinked.DeleteUndoesInsert | challenges/dll.c:144-187 | deleting at indx undoes inserting at indx |
| DoublyLinked.HoldsInsert | challenges/dll.c:132-135 | a node holding x put at indx holds x at indx of the strings |
| DoublyLinked.HoldsDelete | challenges/dll.c:170-185 | dropping the node at indx drops the string at indx |
| DoublyLinked.LinkedDistinct | challenges/dll.c:123-130 | linked nodes are pairwise distinct, so a walk never revisits a node |
| DoublyLinked.LinkedElsewhere | challenges/dll.c:153-158 | the node at one position occurs at no other position |
| DoublyLinked.LinkedInsert | challenges/dll.c:132-135 | linking a new node between its neighbours keeps the chain linked: `x.next.prev == x`, null at both ends |
| DoublyLinked.LinkedDelete | challenges/dll.c:170-184 | joining the neighbours of the removed node keeps the shorter chain linked |
| DoublyLinked.DoublyLinkedList.constructor | challenges/dll.c:56-64 | a new list has one node, both head and tail, holding the string, with null links and `len == 1` |
| DoublyLinked.DoublyLinkedList.Find | challenges/dll.c:66-80 | returns the first index holding target, or -1, also on an empty list |
| DoublyLinked.DoublyLinkedList.Append | challenges/dll.c:82-104 | contents gain data at the end, `len` grows by one, the new node is the tail, and an empty list gets `head == tail`; the list stays valid |
| DoublyLinked.DoublyLinkedList.Insert | challenges/dll.c:106-142 | past the end nothing changes; at the end it is `append`; inside, data goes in at indx, `len` grows, `head` is the new node iff indx is 0, and the tail stays; the list stays valid |
| DoublyLinked.DoublyLinkedList.NodeAt | challenges/dll.c:123-130 | the walk from the head reaches the node at indx |
| DoublyLinked.DoublyLinkedList.InsertBefore | challenges/dll.c:123-141 | a new node holding data goes in at indx, before the node there |
| DoublyLinked.DoublyLinkedList.InsertedValid | challenges/dll.c:132-141 | the list after linking a node in at indx is valid, with the new node at the head iff indx is 0 |
| DoublyLinked.DoublyLinkedList.LinkBefore | challenges/dll.c:132-135 | the new node sits between t and its old predecessor, which now points to it |
| DoublyLinked.DoublyLinkedList.Delete | challenges/dll.c:144-187 | past the end nothing changes; otherwise the node and string at indx go, `len` drops by one, and a one-node list ends with null head and tail; the list stays valid |
| DoublyLinked.DoublyLinkedList.Unlink | challenges/dll.c:170-186 | the node at indx of a list of two or more leaves the chain, through a new head, a new tail, or joined neighbours |

## Left out

- The REPL loop, file reading, `process::exit` and the printing of the result in `rlox/src/main.rs` are left out. `Pipeline.Run` covers the stage gating of `run` only. The flag reset between REPL lines is left out too.
- `println!` in `report` is modelled as a ghost log of the lines it would print, not as output.
- f32 arithmetic is not computed. `str::parse::<f32>` is the parameter `parseNumber`, and negation, `+ - * /` and the comparisons are the fields of `FloatOps`. NaN and infinity results are not modelled.
- Evaluation.RuntimeError: the message is kept as a structured complaint (the operator and the operand values). The `{:?}` text of Rust's Debug formatting is not modelled.
- The rendering of the result (`Display` of a literal) and `Token::to_string` depend on Rust formatting and are left out.
- The `Visitor` trait in `rlox/src/visitor.rs` has no logic. Evaluation is one function over the tree.
- Character classes are ASCII only, as `is_ascii_alphabetic` and `is_ascii_digit` are. Source text is a sequence of chars, not of UTF-8 bytes.
- Integer widths are not modelled: the line counter (`i32`) and the cursors (`usize`) of rlox, and `len` and `indx` (`int`) of `challenges/dll.c`, are unbounded integers. The overflow of `len++` in `append` and `insert` is not captured.
- `synchronize` is modelled and proved, though nothing in this grammar calls it. Its one panic, on a lone `EOF` at the first token, is modelled as a `panicked` result rather than as an abort.
- The exit code `Program::run` returns never reaches the process exit status: `run_file` and `run_prompt` discard it, and `main` always returns `exitcode::OK`. The `Pipeline` lemmas speak of the code `run` returns.
- DoublyLinked.Node.constructor: requires a string shorter than the 100-char buffer with no NUL inside. A longer string overflows the `strcpy` in `create_node`.
- DoublyLinked.DoublyLinkedList.Insert: requires `indx >= 0`. For a negative index the C loop walks off the list.
- DoublyLinked.DoublyLinkedList.Delete: requires `indx >= 0`, for the same reason.
- DoublyLinked.DoublyLinkedList.Find: compares whole strings. `strcmp` stops at a NUL, which no stored string contains.
- The messages `insert` and `delete` print for an index past the end are left out. So are `calloc`, `free`, `free_dll`, `print_node`, `traverse_dll` and `main` of `challenges/dll.c`. Memory is garbage-collected in Dafny, so the unfreed `data` buffers are not modelled.
- In `insert`, the test `if (indx == dll->len)` after the splice can never be true there, since that case returned earlier through `append`. It is left out.

# A verified model of the toy-language scanner and recognizer

This project models the front end of a small imperative toy language (declarations,
expressions, `if`/`else`, `while`, `goto`/`label`, `read`/`write`, nested blocks) in
Dafny and proves what it accepts and rejects. The front end has two parts:

* **The scanner `Scanner::getToken`.** This is a character-level state machine over a
  file cursor that has a one-character `unget`. It appends to two global tables: the
  identifier table, deduplicated by `addToIT`, and the string table, which is not
  deduplicated. The scanner exists twice, once in `syntax_analyzer.cpp` and once in
  `lexical_analyzer.cpp`. The two `getToken` bodies are the same; only the keyword table
  and the `TokenType` enum differ.
  * There is one model, parameterised by a `Dialect`: the keyword table and the ordinal
    of `FINAL`.
  * `SyntaxDialect` has 15 keywords including `while`, with `FINAL = 15`.
  * `LexicalDialect` has 14 keywords and no `while`, with `FINAL = 14`.
* **The recursive-descent recognizer `Parser`** of `syntax_analyzer.cpp`. It runs over a
  sequence of tokens; reading past the end keeps giving `FINAL`.

Token kinds are `int` ordinals with named constants, because the source builds them by
ordinal arithmetic (`TokenType(i)` for keyword i, `TokenType(FINAL + i)` for delimiter i).

## Layout

| file | module | contents |
|---|---|---|
| wrappers.dfy | `Wrappers` | `Result` and `Outcome`, for the `:-` error propagation that stands in for C++ exceptions |
| `token_kinds.dfy` | `TokenKinds` | the `TokenType` ordinals; the keyword and delimiter tables; `tableLookup` as `Lookup`; the alignment of the tables with the enum |
| symbols.dfy | `Symbols` | the `Identifier` record; the identifier and string tables; `addToIT`, as the function `Intern` and as the method `SymbolTables.AddToIT` |
| scanner.dfy | `Scanning` | one iteration of the `for(;;)` loop (`Step`) and a whole call (`Run`), both as functions; the class `Scanner`, whose fields are the cursor, `m_character` and the line counter, and whose `GetToken` runs the loop and is proved equal to `Run` |
| `scanner_facts.dfy` | `ScannerFacts` | lemmas about `Run`: table growth, end of input, maximal munch, keywords and delimiters, and what the look-behind flags do |
| grammar.dfy | `Grammar` | each `Parser` procedure as a function from a position in the token sequence to the position it stops at, or to an error |
| parser.dfy | `Parsing` | the class `Parser`, with the current position and the current token as fields, and its procedures as methods with the source's loops; each one is proved to agree with its `Grammar` function |
| `grammar_facts.dfy` | `GrammarFacts` | lemmas about the accepted language |

### The scanner

A `Machine` holds one iteration's state:
* the `Cursor`, which has the input, the position, a sticky `eof` flag and `ch`
  (`m_character`);
* the line counter;
* the `State`;
* `symbolBuffer` and `numberBuffer`;
* the tables.

`Step` does what one pass of the loop body does:
1. It computes `isComment`, `isAssign` and `isString` from `ch` *before* the read, so the
   flags test the previous character.
2. It reads one character. At end of input the read sets `eof` and leaves `ch` as it was.
3. It dispatches on the state: `STRING` falls through into `LESS_GREATER`, and unget moves
   the position back by one unless `eof` is set.

`Run` repeats `Step` until it returns, with termination measured by `Rank`. The class
method `Scanner.GetToken` is a `while` loop. Each pass calls `Iterate`, which computes the
flags, calls `GetCharacter` and hands over to one case method per state. The loop's
invariant is that `Run` from the current state is the final result. So the method returns
exactly `Run(dialect, old(Entry())).outcome` and leaves the object in `Run`'s last state.

The initial `m_character`, which the C++ leaves uninitialised, is a parameter of the
constructor.

What the code does, as proved, where it differs from what a reader would expect:

* The flags test the previous character:
  * the `NOT_EQUAL` state always throws. So a `!` whose previous character is neither `@`
    nor `"` is never accepted (`BangThrows`);
  * when the previous character is neither `@` nor `"`, `:`, `<` and `>` give the
    one-character delimiter with the lookahead put back (`ScanLessGreater`). So `<=` scans
    as LESS followed by ASSIGN (`LessEqualSplits`);
  * no call ever returns NEQ, LEQ or GEQ (`NoTwoCharComparisons`);
  * every string constant stored in the string table is the empty string
    (`NoTwoCharComparisons`);
  * a lone `@` or `"` after a character other than `@` or `"` is thrown as an unexpected character
    (`LoneAtOrQuoteThrown`);
  * FINAL can come in the middle of the input. After a previous `"`, a character that is not
    a space, letter, digit, `"` or `=` enters the `STRING` state. The next character then
    falls through into `LESS_GREATER` and is put back. If it is no delimiter, the lookup
    gives index 0, so the call returns `TokenType(FINAL + 0)`, FINAL itself, with input left
    to read (`StringFallThroughFinal`). After a `"`, the rest `;a;` gives FINAL first and the
    name `a` on the next call (`MidInputFinal`).
* `tableLookup` returns 0 both for "no match" and for a match at index 0, so `"@"` is not a
  delimiter (`AtSignIsNoMatch`).
* `while` is a keyword in `syntax_analyzer.cpp` and an identifier in
  `lexical_analyzer.cpp` (`WhileByDialect`).

### The recognizer

A parse position `p` is the index of the current token:
* `-1` before the first `getToken`;
* `|ts|` and beyond gives `FINAL`.

Every procedure of `Parser` is a `Grammar` function that either returns the position where
the procedure stops or returns a `SyntaxError`:
* `UnexpectedToken` for `checkToken`;
* `ExpectedNumber` and `ExpectedConstant` for `constant()`.

The seven expression procedures are one function `Level(ts, n, p)`. `Level 1` is
`multiplierOperand` and `Level 7` is `expression`. `Rest` is the loop that each level
except `andOperand` runs over its operators. The methods of the class `Parsing.Parser`
mutate `pos` and `token` through the same `while` and `do`-`while` loops as the source.
Each method ensures that it ends where the corresponding `Grammar` function says, or fails
with the error that function gives.

The code as written differs from the usual reading of the grammar:
* `constant()` succeeds only on a sign followed by a number. Its test `isConst` compares
  the same kind with NUMBER and with STRING_CONST, so it is always false (`Grammar.Constant`).
* `multiplierOperand` skips every sign before `value()`, so no literal is ever an operand:
  every level fails with "expected constant" (`LevelRejectsNonNames`).
* `declarations()` evaluates its loop guard once. After `program {`, an `int` or `string`
  makes `declarations()` fail, and so `analyze()` fails too (`Grammar.Declarations`,
  `Grammar.Analyze`).
* `goto` takes the keyword `label`, not a name (`GotoShape`).
* `andOperand` takes at most one relational operator (`ComparisonsDoNotChain`).
* `analyze()` reads END and FINAL after `statements()` has already stopped on an END. So an
  accepted program ends with two closing braces (`Analyze`, `ShortestProgram`).

Taken together:
* declarations are never accepted;
* operands are names or bracketed expressions only;
* no `!=`, `<=` or `>=` token is ever produced, and string contents are never stored;
* a program ends with two closing braces.

## Model

| member | source | states |
|---|---|---|
| TokenKinds.LookupFromIsFirstMatch | syntax_analyzer.cpp:169-177 | the lookup loop started at index i returns the first matching index at or after i below the size, and 0 when there is none |
| TokenKinds.LookupIsFirstMatch | lexical_analyzer.cpp:168-176 | `tableLookup` returns the least index below the size whose entry equals the buffer, and 0 when no entry does |
| TokenKinds.SyntaxKeywordsAligned | syntax_analyzer.cpp:209-215 | for every keyword index i ≥ 1, the enum's kind for the spelling `serviceWordTable[i]` is ordinal i, and the lookup of that spelling returns i |
| TokenKinds.LexicalKeywordsAligned | lexical_analyzer.cpp:208-214 | the same for the 14-keyword table, against the enum without WHILE |
| TokenKinds.DelimitersAligned | syntax_analyzer.cpp:212-215 | for every delimiter index i ≥ 1, the kind named by `delimiterTable[i]` has ordinal FINAL + i in both enums |
| TokenKinds.WhileIsNoLexicalKeyword | lexical_analyzer.cpp:208-209 | `"while"` matches no entry of the 14-keyword table |
| TokenKinds.AtSignIsNoMatch | syntax_analyzer.cpp:212 | the lookup of `"@"` in the delimiter table returns 0, the same as no match |
| Symbols.FindName | syntax_analyzer.cpp:154 | `std::find`: the first entry with that name at or after the start, or the end of the table |
| Symbols.Intern | syntax_analyzer.cpp:152-161 | `addToIT`: a name already present gives its index and leaves the tables unchanged; a new name appends exactly one entry, numbered by the counter, neither declared nor assigned, and gives the old length |
| Symbols.InternKeepsTablesValid | syntax_analyzer.cpp:56-61 | after `addToIT`, entry i still has ID i, the counter still equals the size, names stay distinct, the old entries stay a prefix, the result names the entry with that name, and the string table is untouched |
| Symbols.InternIdempotent | lexical_analyzer.cpp:151-160 | a second `addToIT` of the same name returns the same index and changes nothing |
| Symbols.SymbolTables.constructor | syntax_analyzer.cpp:148-150 | both tables start empty and the ID counter starts at 0 |
| Symbols.SymbolTables.NewIdentifier | syntax_analyzer.cpp:56-61 | a named `Identifier` takes the counter's value as its ID, is neither declared nor assigned, and increments the counter |
| Symbols.SymbolTables.Find | syntax_analyzer.cpp:154-157 | the search loop returns the first index holding the name, or the table size |
| Symbols.SymbolTables.AddToIT | syntax_analyzer.cpp:152-161 | the method returns the index and leaves the tables exactly as `Intern` does |
| Scanning.Read | syntax_analyzer.cpp:184-187 | a read keeps the input; it sets end of file exactly when end of file was already set or no character is left, and then keeps the position and the character; otherwise it moves one position on and takes the character it passed |
| Scanning.Unget | syntax_analyzer.cpp:299 | `unget` keeps the input, the end-of-file flag and the character, and moves back exactly one position unless end of file is set or the position is 0, where it stays |
| ScannerFacts.UngetRereads | syntax_analyzer.cpp:184-187 | after a successful read, putting the character back restores the position, and the next read returns the same character |
| Scanning.Step | syntax_analyzer.cpp:234-373 | one pass of the loop: when it continues, the invariant holds, the rank decreases, and the input and tables are unchanged; the STRING, LESS_GREATER and NOT_EQUAL states always return |
| Scanning.Run | syntax_analyzer.cpp:217-375 | a whole call of `getToken` from a machine state, repeating the pass until it returns; the input is never changed |
| Scanning.Scanner.constructor | syntax_analyzer.cpp:197-204 | a scanner opened on the input is at position 0, not at end of file, with the given initial character, line 1 and the given tables |
| Scanning.Scanner.TableLookup | syntax_analyzer.cpp:169-177 | the index loop returns `Lookup` of the buffer |
| Scanning.Scanner.GetCharacter | syntax_analyzer.cpp:184-187 | reads the next character, or at end of input sets end of file and leaves the character unchanged |
| Scanning.Scanner.PutBack | syntax_analyzer.cpp:299 | `unget` moves back one position unless end of file is set |
| Scanning.Scanner.StartCase | syntax_analyzer.cpp:242-291 | the start state's branch does exactly what `Step` prescribes for that state |
| Scanning.Scanner.PunctuationCase | syntax_analyzer.cpp:273-289 | the branch for a character that starts no name, number, comment or string does what `Step` prescribes: `:`, `<` and `>` enter LESS_GREATER, `!` enters NOT_EQUAL, and any other character is looked up as a one-character delimiter or thrown |
| Scanning.Scanner.IdentifierCase | syntax_analyzer.cpp:292-310 | the identifier state's branch does what `Step` prescribes, and the tables stay valid |
| Scanning.Scanner.NumberCase | syntax_analyzer.cpp:311-321 | the number state's branch does what `Step` prescribes |
| Scanning.Scanner.CommentCase | syntax_analyzer.cpp:322-335 | the comment state's branch does what `Step` prescribes |
| Scanning.Scanner.StringCase | syntax_analyzer.cpp:336-346 | the string state's branch, falling through into LESS_GREATER, does what `Step` prescribes and always returns |
| Scanning.Scanner.LessGreaterCase | syntax_analyzer.cpp:347-360 | the LESS_GREATER branch returns the delimiter for the buffer, with or without `=`, and puts the lookahead back in the second case |
| Scanning.Scanner.NotEqualCase | syntax_analyzer.cpp:361-372 | the NOT_EQUAL branch does what `Step` prescribes and always returns |
| Scanning.Scanner.Iterate | syntax_analyzer.cpp:236-373 | one pass of the loop body, with the flags taken before the read, has the effect of `Step` on the scanner's state |
| Scanning.Scanner.GetToken | syntax_analyzer.cpp:217-375 | `getToken` returns `Run`'s token or error and leaves the cursor, line and tables in `Run`'s last state |
| ScannerFacts.FinishWordTables | syntax_analyzer.cpp:297-309 | finishing a word yields a token that is not a string constant, keeps the tables valid, grows the identifier table by at most one entry at its end, and leaves the string table alone |
| ScannerFacts.CompoundTables | syntax_analyzer.cpp:347-360 | the LESS_GREATER branch returns `Token(FINAL + i, i)`, where i is the delimiter index of the buffer, with the current character appended when the previous one was `=`. i is 0, so the kind is FINAL itself, exactly when that spelling is no delimiter at index 1 or above. The lookahead is put back only without `=`, and no table changes |
| ScannerFacts.DelimiterIndexZero | syntax_analyzer.cpp:212-215 | the delimiter lookup gives an index below 20, and gives 0 exactly for a spelling that no entry at index 1 or above has |
| ScannerFacts.StepDoneTables | syntax_analyzer.cpp:292-346 | a returning pass keeps the tables valid, grows the identifier table by at most one, and pushes one string-table entry exactly when it returns STRING_CONST, whose payload is that entry's index |
| ScannerFacts.RunKeepsTables | lexical_analyzer.cpp:216-374 | the same for a whole call: each STRING_CONST pushes exactly one entry, its payload is the new size minus 1, and no other token touches the string table |
| ScannerFacts.AtEndOfInput | syntax_analyzer.cpp:242-249 | at end of input in the start state the call returns FINAL with payload 0 and sets end of file |
| ScannerFacts.FinalRepeats | syntax_analyzer.cpp:246-249 | the call after the FINAL returned at end of input returns the same FINAL and the same state again |
| ScannerFacts.TrailingSpace | syntax_analyzer.cpp:250-253 | white space up to the end is skipped: the result is FINAL, the line counter grows by the number of newlines, and the tables are unchanged |
| ScannerFacts.IdentifierTail | syntax_analyzer.cpp:292-310 | the identifier state reads the maximal run of letters and digits into the buffer and finishes the word on the first other character, which is put back |
| ScannerFacts.ScanWord | syntax_analyzer.cpp:256-259 | a letter in the start state starts a word whose spelling is the maximal run of letters and digits |
| ScannerFacts.WordToken | lexical_analyzer.cpp:291-309 | a word at keyword index i ≥ 1 gives `(TokenType(i), i)` with the tables unchanged; otherwise it gives IDENTIFIER whose payload indexes the entry with that spelling, and the table changes exactly when the spelling is new; the terminator is put back |
| ScannerFacts.DecimalAppend | syntax_analyzer.cpp:314 | appending a digit multiplies the decimal value by 10 and adds the digit |
| ScannerFacts.NumberStep | syntax_analyzer.cpp:311-321 | in the number state a digit extends the accumulator as `acc*10 + digit`, and another character returns NUMBER with the accumulator and is put back |
| ScannerFacts.NumberTail | syntax_analyzer.cpp:311-321 | the number state consumes the maximal digit run and returns its decimal value, with the terminator put back |
| ScannerFacts.DigitStarts | syntax_analyzer.cpp:260-264 | a digit in the start state enters the number state with the digit's value |
| ScannerFacts.ScanNumber | lexical_analyzer.cpp:259-263 | a digit starts a NUMBER whose value is the decimal value of the maximal digit run; the terminator is put back and nothing else changes |
| ScannerFacts.SyntaxWordKind | syntax_analyzer.cpp:209-210 | the lookup of any spelling in the 15-keyword table is the ordinal of the keyword it spells, and 0 for a non-keyword |
| ScannerFacts.LexicalWordKind | lexical_analyzer.cpp:208-209 | the lookup in the 14-keyword table is the lexical ordinal of the keyword it spells, and 0 for `while` and for non-keywords |
| ScannerFacts.DelimiterLookupIsIndex | syntax_analyzer.cpp:212-213 | every delimiter spelling at index i ≥ 1 is found at i, because the spellings are distinct |
| ScannerFacts.ScanDelimiter | lexical_analyzer.cpp:282-289 | a character reaching the last start branch gives `(TokenType(FINAL + i), i)` for its delimiter index i ≥ 1, and otherwise is thrown; one character is consumed and the tables are unchanged |
| ScannerFacts.LoneAtOrQuoteThrown | lexical_analyzer.cpp:264-271 | `@` or `"` after a character other than `@` and `"` is thrown as an unexpected character |
| ScannerFacts.BangThrows | syntax_analyzer.cpp:361-372 | a `!` whose previous character is neither `@` nor `"` ends in the "unexpected symbol '!'" error, whatever follows it |
| ScannerFacts.LessGreaterStarts | syntax_analyzer.cpp:273-277 | `:`, `<` or `>` in the start state, when the previous character is neither `@` nor `"`, is buffered and enters the LESS_GREATER state |
| ScannerFacts.ScanLessGreater | lexical_analyzer.cpp:346-359 | when the previous character is neither `@` nor `"`, `:`, `<` and `>` give their one-character delimiter and put the lookahead back, even when it is `=` |
| ScannerFacts.LessEqualSplits | syntax_analyzer.cpp:347-360 | when the previous character is neither `@` nor `"`, `<=` scans as LESS and then ASSIGN |
| ScannerFacts.NoComparisonSpelling | syntax_analyzer.cpp:212-213 | a one-character buffer, or one character doubled, is none of `!=`, `<=`, `>=` |
| ScannerFacts.StepKeepsCoherent | syntax_analyzer.cpp:265-282 | a pass that continues keeps the buffer facts the start state sets up on entering STRING, LESS_GREATER and NOT_EQUAL |
| ScannerFacts.CoherentStepDone | syntax_analyzer.cpp:336-372 | a returning pass from such a state never returns NEQ, LEQ or GEQ, and a STRING_CONST pushes the empty string |
| ScannerFacts.NoTwoCharComparisons | syntax_analyzer.cpp:236-239 | because the flags test the previous character, no call from the start state returns NEQ, LEQ or GEQ, and each string constant recorded is empty |
| ScannerFacts.WhileByDialect | lexical_analyzer.cpp:208-209 | `while` scans as the keyword WHILE with the 15-keyword table, and as an IDENTIFIER named `while` with the 14-keyword table |
| ScannerFacts.StringFallThroughFinal | syntax_analyzer.cpp:336-358 | after a previous `"`, a character that is not a space, letter, digit, `"` or `=` enters STRING; the next character falls through into LESS_GREATER and is put back; if it is no delimiter, the call returns FINAL with payload 0 while input remains |
| ScannerFacts.MidInputFinal | syntax_analyzer.cpp:269-272 | after a `"`, the input `;a;` gives FINAL at position 1, and the next call gives IDENTIFIER |
| Grammar.Advance | syntax_analyzer.cpp:385-390 | the parser's `getToken()` moves one token on, and stays put exactly when it is already at or past the end, where FINAL is |
| Grammar.Expect | syntax_analyzer.cpp:400-404 | `getToken(expected)` succeeds exactly when the next token has the expected kind, ending on it, and otherwise fails with UnexpectedToken |
| Grammar.Check | syntax_analyzer.cpp:392-398 | `checkToken(expected)` succeeds exactly when the current token has the expected kind, staying on it, and otherwise fails with UnexpectedToken |
| Grammar.SkipWhile | syntax_analyzer.cpp:421-428 | the skip loop stops at the first token not of the given kinds, and every token it passes is of those kinds |
| Grammar.Constant | syntax_analyzer.cpp:605-626 | `constant()` succeeds exactly on PLUS or MINUS followed by NUMBER, ending on the NUMBER; a sign without a number fails with "expected number", and everything else, a bare NUMBER or STRING_CONST included, fails with "expected constant" |
| Grammar.Value | syntax_analyzer.cpp:406-417 | `value()` succeeds exactly on an IDENTIFIER or a successful constant, and moves forward |
| Grammar.Operand | syntax_analyzer.cpp:419-445 | `multiplierOperand` moves forward when it succeeds |
| Grammar.Level | syntax_analyzer.cpp:447-514 | a successful level n moves forward and stops on a token that none of the operator loops at level n or below would take: ASSIGN at 7, OR at 6 and below it, AND at 5, PLUS/MINUS at 3, MULTIPLY/DIVIDE at 2 |
| Grammar.Rest | syntax_analyzer.cpp:447-514 | the operator loop of a level never moves back and stops on a token that no loop at that level or below takes |
| Grammar.WriteArgs | syntax_analyzer.cpp:532-537 | the `write` argument loop stops on a token that is not a comma |
| Grammar.Statement | syntax_analyzer.cpp:516-594 | a successful `statement()` moves forward and stops on a semicolon, colon or END |
| Grammar.Statements | syntax_analyzer.cpp:596-603 | a successful `statements()` stops on END |
| Grammar.Initializer | syntax_analyzer.cpp:641-646 | the optional `= constant` of a declaration item never moves back |
| Grammar.DeclItems | syntax_analyzer.cpp:635-648 | the declaration-item loop stops on a token that is not a comma |
| Grammar.DeclarationLoop | syntax_analyzer.cpp:633-652 | the outer declaration loop only ends by throwing; started on the last token or at the end, it throws UnexpectedToken because FINAL is not a name |
| Grammar.Declarations | syntax_analyzer.cpp:628-653 | `declarations()` returns exactly when the current token is neither INT nor STRING, and then consumes nothing |
| Grammar.Analyze | syntax_analyzer.cpp:660-671 | an accepted program starts START BEGIN, has no INT or STRING after BEGIN, and ends END END FINAL |
| Parsing.Parser.constructor | syntax_analyzer.cpp:655-658 | a new parser precedes the first token and holds the default token |
| Parsing.Parser.GetToken | syntax_analyzer.cpp:385-390 | moves to the next token, staying on FINAL at the end |
| Parsing.Parser.CheckToken | syntax_analyzer.cpp:392-398 | fails with UnexpectedToken exactly when the current kind is not the expected one, and moves nothing |
| Parsing.Parser.ExpectToken | syntax_analyzer.cpp:400-404 | advances, then checks the new token's kind |
| Parsing.Parser.Constant | syntax_analyzer.cpp:605-626 | ends where `Grammar.Constant` says, or fails with its error |
| Parsing.Parser.Value | syntax_analyzer.cpp:406-417 | ends where `Grammar.Value` says, or fails with its error |
| Parsing.Parser.MultiplierOperand | syntax_analyzer.cpp:419-445 | the two skip loops and the bracket or value agree with `Grammar.Operand` |
| Parsing.Parser.TermOperand | syntax_analyzer.cpp:447-456 | the MULTIPLY/DIVIDE loop agrees with `Level 2` |
| Parsing.Parser.CompareOperand | syntax_analyzer.cpp:458-467 | the PLUS/MINUS loop agrees with `Level 3` |
| Parsing.Parser.AndOperand | syntax_analyzer.cpp:469-481 | the single optional comparison agrees with `Level 4` |
| Parsing.Parser.OrOperand | syntax_analyzer.cpp:483-492 | the AND loop agrees with `Level 5` |
| Parsing.Parser.AssignOperand | syntax_analyzer.cpp:494-503 | the OR loop agrees with `Level 6` |
| Parsing.Parser.Expression | syntax_analyzer.cpp:505-514 | the ASSIGN loop agrees with `Level 7` |
| Parsing.Parser.WriteArguments | syntax_analyzer.cpp:532-537 | the `do`-`while` over comma-separated expressions agrees with `Grammar.WriteArgs` |
| Parsing.Parser.Statement | syntax_analyzer.cpp:516-594 | every statement form agrees with `Grammar.Statement` |
| Parsing.Parser.Statements | syntax_analyzer.cpp:596-603 | the loop up to END agrees with `Grammar.Statements` |
| Parsing.Parser.Declarations | syntax_analyzer.cpp:628-653 | the loop whose guard is computed once agrees with `Grammar.Declarations` |
| Parsing.Parser.Analyze | syntax_analyzer.cpp:660-671 | a fresh parser accepts or rejects exactly as `Grammar.Analyze` does |
| GrammarFacts.OperandStart | syntax_analyzer.cpp:421-428 | after skipping NOTs and then signs the current token is neither PLUS nor MINUS |
| GrammarFacts.LevelRejectsNonNames | syntax_analyzer.cpp:406-445 | at every level, an operand that after its prefixes is neither IDENTIFIER nor a bracket fails with "expected constant", literals included |
| GrammarFacts.NumberStatementRejected | syntax_analyzer.cpp:589-593 | an expression statement starting with a number or string constant, signed or not, is rejected |
| GrammarFacts.ReadShape | syntax_analyzer.cpp:518-527 | `read` is accepted exactly as `read ( IDENTIFIER ) ;` and ends on the semicolon |
| GrammarFacts.GotoShape | syntax_analyzer.cpp:578-583 | `goto` is accepted exactly as `goto label ;`; a name after `goto` is rejected |
| GrammarFacts.LabelShape | syntax_analyzer.cpp:574-577 | `label` is accepted exactly when a colon follows, ending on it |
| GrammarFacts.IfNeedsElse | syntax_analyzer.cpp:556-573 | an accepted `if` is `( expression )` with the bracket right after `if`, then the first branch, then ELSE as the very next token; the whole statement ends where the second branch, starting after ELSE, ends |
| GrammarFacts.ComparisonsDoNotChain | syntax_analyzer.cpp:469-481 | in `a < b < c` the expression stops at the second relational operator |
| GrammarFacts.ChainedComparisonRejected | syntax_analyzer.cpp:588-592 | an expression statement with a chained comparison is rejected |
| GrammarFacts.ShortestProgram | syntax_analyzer.cpp:660-671 | `program { } }` is accepted and `program { }` is rejected |

## Left out

- `main()` in both files and `Token::operator<<`: console output and formatting.
- Opening and closing the file, and the "can't open file" error. The input is an in-memory `seq<char>`.
- The exact `eofbit`/`failbit` behaviour of `get` and `unget` near the end of a file. It is modelled as a sticky `eof` flag; `unget` does nothing once that flag is set, and a read at the end leaves `m_character` unchanged.
- Overflow of `numberBuffer`, which is undefined behaviour in C++. The accumulator is an unbounded `int`.
- Exception types. `std::runtime_error` and the bare `throw m_character` become the variants of `LexError` (`UnexpectedCharacter(c)` carries the thrown character) and of `SyntaxError`. Process termination on an uncaught exception is not modelled.
- Locale-dependent `isalpha`, `isdigit` and `isspace`. ASCII predicates replace them.
- Bytes. The input is a `seq<char>` of Unicode scalar values, while the C++ reads bytes. So a non-ASCII character is reported in `UnexpectedCharacter` as one code point, not as its first byte.
- The unused members: the `Identifier` setters, `m_value` and `m_tokenType`; `addBuffer`; the `DELIMITER` state; the POLIZ token kinds, which keep only their ordinals.
- The static `currentLine` is a field of the scanner rather than a function-local static. It is never reported anywhere.
- The global tables belong to a `SymbolTables` object that the scanner holds, not to process-wide variables.
- Scanning.Scanner.constructor: requires `EndsCleanly(input)`, so the input may not end in a letter or digit. On such an input `getToken` loops forever, because the read at the end leaves `m_character` a letter or digit; the model has no non-terminating scans.
- Parsing.Parser.constructor: the parser reads a finished sequence of tokens instead of pulling each one from a scanner, so lexical errors are not interleaved with parsing. The token at the current position stands for `m_token`, `m_tokenType` and `m_value`.
- Parsing.Parser.WriteArguments: the `write` argument loop is a method of its own. In `statement()` it is an inline `do`-`while`.

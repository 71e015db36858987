# IOL compiler and interpreter, modelled in Dafny

This project models the core of a small compiler and interpreter for IOL, a teaching language.
An IOL program sits between the words `IOL` and `LOI`. It declares `INT` and `STR` variables,
reads them with `BEG`, assigns with `INTO v IS e`, prints with `PRINT` and `NEWLN`, and writes
arithmetic in prefix form (`ADD`, `SUB`, `MULT`, `DIV`, `MOD`).

The model follows the Python sources one module per file.

- `symbol_table.dfy` (`Symbols`): the symbol table, a name → {type, value} dictionary updated in place.
- `lexical_analyzer.dfy` (`Lexical`): the word classifier (keyword, then `IDENT`, then `INT_LIT`)
  and the line-by-line tokenizer. It records the identifiers it sees.
- `grammar.dfy` (`Grammar`): the production and parse tables shared by both predictive parsers.
  It covers the row and column searches, the cell → production lookup, and the reversed push of
  a production body, where `e` stands for the empty body.
- `parser.dfy` (`Parsing`): the table-driven LL(1) parser with its inline semantic checks.
  - It has declaration and assignment frames, the recursive typing of prefix expressions, and the
    error messages.
  - The pure functions give the meaning of each step; the class `Parser` is the object itself,
    and its methods are proved against those functions.
- `new_parser.dfy` (`DraftParsing`): the earlier syntax-only draft of the parser.
- `new_semantic_analyzer.dfy` (`TokenSemantics`): the single-pass checker over `(type, value, line)` triples.
- `runtime.dfy` (`Execution`): the release interpreter.
  - A cursor walks the line-numbered token dictionary, and statements dispatch on keywords.
  - Arithmetic is evaluated recursively in prefix order. A reference semantics (`Expr`, `ValueOf`)
    is connected to the token-level evaluator.
  - The class `Runtime` has the loops and the fields.
- `test_runtime.dfy` (`DraftExecution`): the draft interpreter. It only evaluates operators and
  prints their values.
- `parse_tree.dfy` (`ParseTrees`): parse-tree nodes with parent and children pointers, and the
  tree with a movable current node. The printout is modelled as a sequence of lines.
- `compiler.dfy` (`Compilation`): the check that a program starts with `IOL` and ends with `LOI`.
- `py.dfy` (`Py`) and `text.dfy` (`Text`) model the Python notions the sources rely on:
  - `None`, the exceptions as values, and negative list indexing;
  - `str.split()`, `str.split(sep)`, `str.strip()`, `int()`, `str()`, `str.isupper()`, and the
    regular expression `^[0-9]+$`.

Python exceptions are values of the datatype `Py.Exc`. Nothing in the modelled code catches
them, so a call that raises ends with the state it had reached at the raise.

External inputs are parameters:
- the Tk console is the sequence of strings inserted into it;
- the input dialog is a supplied sequence of optional replies;
- the grammar tables and the keyword list are passed in rather than read from files;
- the quotient of `DIV` is a caller-supplied function `divide`.

## Model

| member | source | states |
|---|---|---|
| Symbols.Add | symbol_table.py:10-11 | the name then maps to exactly {type, value}, overwriting both if it was present; every other name keeps its entry; no other key appears |
| Symbols.Lookup | symbol_table.py:13-14 | an entry is returned exactly when the name is present (KeyError otherwise), and it is the stored one |
| Symbols.Update | symbol_table.py:22-23 | fails exactly on an absent name; otherwise only that entry's value changes: its type, every other entry and the key set are kept |
| Symbols.GetAfterAdd | symbol_table.py:10-14 | after `add_symbol(s, t, v)`, `get_symbol(s)` is exactly {t, v} |
| Symbols.UpdateAfterAdd | symbol_table.py:10-23 | updating a freshly added name is the same as adding it with the new value: the type is unchanged |
| Symbols.SymbolTable.constructor | symbol_table.py:7-8 | the table starts empty |
| Symbols.SymbolTable.AddSymbol | symbol_table.py:10-11 | the dictionary becomes `Add` of the old one; a new name is appended to the key order, an existing one keeps its place |
| Symbols.SymbolTable.GetSymbol | symbol_table.py:13-14 | returns the stored entry exactly when the name is present |
| Symbols.SymbolTable.RemoveAllSymbols | symbol_table.py:16-17 | afterwards the table is empty |
| Symbols.SymbolTable.GetSymbolTable | symbol_table.py:19-20 | returns the dictionary itself, with its keys in insertion order |
| Symbols.SymbolTable.UpdateSymbol | symbol_table.py:22-23 | succeeds exactly when the name is present, and then the table becomes `Update` of the old one; on failure (KeyError) nothing changes; the key order is kept and the table is well formed afterwards exactly when it was before |
| Text.Words | lexical_analyzer.py:52 | `str.split()`: every word is non-empty and holds no whitespace |
| Text.SplitOn | lexical_analyzer.py:46 | `str.split(sep)`: at least one part, and no part holds the separator |
| Text.Strip | parser.py:257 | `str.strip()`: no longer than the input, and neither starts nor ends with whitespace |
| Lexical.IsVariable | lexical_analyzer.py:17-23 | `_isValidVariable`: a name that passes holds no whitespace and no `_` |
| Lexical.IsInteger | lexical_analyzer.py:25-29 | `_isValidInteger`: a word that passes is never also a valid variable, so the order of the checks in `tokenizeWord` matters only for keywords |
| Lexical.Classify | lexical_analyzer.py:59-75 | a keyword is returned as itself; otherwise an identifier gives `IDENT`, a leading digit gives `INT_LIT`; no token (the error path) exactly when none applies |
| Lexical.Recorded | lexical_analyzer.py:65-68 | the word is recorded exactly when it is an identifier and not a keyword |
| Lexical.LineOutcome | lexical_analyzer.py:51-53 | the reference for one line's word loop: at most one name is recorded per word, and a line that tokenizes has at least one character (the space after each token) per word; when it fails is stated by LineOkIff |
| Lexical.AddLine | lexical_analyzer.py:49-54 | one more line: the text and the names only grow, a failure is never undone, and a line that adds text ends it with a newline |
| Lexical.LinesOutcome | lexical_analyzer.py:46-54 | the reference for the line loop: the text is empty or ends with a newline; when it fails is stated by LinesOkIff |
| Lexical.Tokenize | lexical_analyzer.py:45-57 | `tokenizeInput` of a text: succeeds exactly when every word of every line of `split("\n")` is classified, and its text is empty or ends with a newline |
| Lexical.LineOkIff | lexical_analyzer.py:52-53 | a line is tokenized without error exactly when every one of its words is classified |
| Lexical.LinesOkIff | lexical_analyzer.py:45-54 | the whole input is tokenized without error exactly when every word of every line is classified |
| Lexical.LineIdentsAreVariables | lexical_analyzer.py:65-68 | every name recorded while tokenizing a line is an identifier that is not a keyword |
| Lexical.LineFailurePersists | lexical_analyzer.py:52-53 | once a word of a line fails, the words after it change nothing |
| Lexical.LinesFailurePersists | lexical_analyzer.py:49-54 | once a line fails, the lines after it change nothing |
| Lexical.IntegerChecksOnlyFirstChar | lexical_analyzer.py:25-29 | a word such as `12ab` is classified `INT_LIT`, since only its first character is checked |
| Lexical.LexicalAnalyzer.constructor | lexical_analyzer.py:3-10 | the keyword list is the one given, with no variables and no output yet |
| Lexical.LexicalAnalyzer.IsValidVariable | lexical_analyzer.py:17-23 | true exactly for a letter followed by letters and digits |
| Lexical.LexicalAnalyzer.TokenizeWord | lexical_analyzer.py:59-75 | returns `Classify` of the word and appends exactly `Recorded` of it to the variables |
| Lexical.LexicalAnalyzer.TokenizeLine | lexical_analyzer.py:51-54 | succeeds exactly when the line does; its text and the names it records are those of the line |
| Lexical.LexicalAnalyzer.TokenizeInput | lexical_analyzer.py:45-57 | succeeds exactly when the whole input does; `output` and `variables` grow by the input's text and names |
| TokenSemantics.Get | new_semantic_analyzer.py:56 | `dict.get`: a value exactly for a present key, and the stored one |
| TokenSemantics.CheckDeclaration | new_semantic_analyzer.py:20-30 | no error exactly when a variable token follows, and then the variable is recorded with the keyword as its type, overwriting; otherwise exactly one error is appended and nothing is recorded |
| TokenSemantics.CheckBeg | new_semantic_analyzer.py:32-47 | never changes the recorded variables; no error exactly when a declared variable follows and the token after it has the variable's recorded type as its kind; otherwise exactly one error is appended |
| TokenSemantics.CheckOperation | new_semantic_analyzer.py:49-59 | never changes the recorded variables; no error exactly when two variable tokens follow whose `get` types are equal; otherwise exactly one error is appended |
| TokenSemantics.Visit | new_semantic_analyzer.py:11-18 | one token adds at most one error and changes the variables only at a type keyword followed by a variable; a token other than `INT`, `STR`, `BEG` or an operator keyword changes nothing |
| TokenSemantics.Through | new_semantic_analyzer.py:6-18 | the checker after the first `k` tokens, each visited in order: no error count is lost and at most `k` are added; AtMostOneErrorPerToken and VariablesAreDeclared state what it keeps |
| TokenSemantics.AtMostOneErrorPerToken | new_semantic_analyzer.py:6-18 | after `k` tokens the earlier errors are kept and at most `k` errors were added |
| TokenSemantics.VariablesComeFromDeclarations | new_semantic_analyzer.py:11-28 | every recorded variable was known before, or is declared by a type keyword among the tokens read, with that keyword as its type |
| TokenSemantics.DeclarationRecords | new_semantic_analyzer.py:13-28 | a type keyword followed by a variable token records that variable with the keyword as its type |
| TokenSemantics.VariablesAreDeclared | new_semantic_analyzer.py:11-28 | after `k` tokens the variables are exactly the starting ones overridden by `Declared`, the fold of the declarations among those tokens in which the last declaration of a name wins; CheckBeg and CheckOperation contribute nothing |
| TokenSemantics.DeclaredOrigins | new_semantic_analyzer.py:13-28 | every name in `Declared` is declared by a type keyword among the tokens read, and its type is that keyword |
| TokenSemantics.UndeclaredBegReported | new_semantic_analyzer.py:32-37 | a `BEG` whose next token was not declared by the tokens before it appends exactly the undeclared-variable error |
| TokenSemantics.NewSemanticAnalyzer.constructor | new_semantic_analyzer.py:2-4 | no variables and no errors |
| TokenSemantics.NewSemanticAnalyzer.AnalyzeTokens | new_semantic_analyzer.py:6-18 | the loop leaves the checker in the state `Through` gives for all the tokens |
| TokenSemantics.NewSemanticAnalyzer.VisitToken | new_semantic_analyzer.py:12-18 | the new state is `Visit` of the old for token `i`: the keyword dispatch of one loop iteration |
| TokenSemantics.NewSemanticAnalyzer.CheckVariableDeclaration | new_semantic_analyzer.py:20-30 | the new state is `CheckDeclaration` of the old |
| TokenSemantics.NewSemanticAnalyzer.CheckBegOperation | new_semantic_analyzer.py:32-47 | the new state is `CheckBeg` of the old |
| TokenSemantics.NewSemanticAnalyzer.CheckOperationTokens | new_semantic_analyzer.py:49-59 | the new state is `CheckOperation` of the old |
| TokenSemantics.NewSemanticAnalyzer.GetErrors | new_semantic_analyzer.py:61-62 | returns the errors recorded |
| Grammar.FirstRowFrom | parser.py:73-75 | the first row at or after `from` whose first cell is the symbol; none when no such row exists |
| Grammar.FirstRow | parser.py:69-75 | the first row whose first cell is the symbol; None (the function falls off its end) when there is none |
| Grammar.FirstCellFrom | parser.py:81-83 | the first header cell at or after `from` equal to the symbol, or none |
| Grammar.FirstColumn | parser.py:77-83 | the first header cell equal to the symbol; None exactly when the symbol is not in the header |
| Grammar.ProductionOf | parser.py:255-256 | ValueError exactly when `int(cell)` fails; otherwise row `int(cell) - 1` of the production table, counted from the end when negative as Python does, gives cells 1 and 2 as name and body, and a row out of range or shorter than three cells is IndexError |
| Grammar.BodySymbols | parser.py:257 | splitting on a space never gives an empty list |
| Grammar.NonEpsilon | parser.py:296-298 | the body symbols kept are body symbols other than `e` |
| Grammar.NonEpsilonAppend | parser.py:296-298 | dropping `e` works piece by piece over a concatenation, so the kept symbols stay in the body's order |
| Grammar.NonEpsilonKeepsAll | parser.py:296-298 | a body without `e` is kept whole |
| Grammar.Reverse | parser.py:296 | `[::-1]`: the same length, element `k` is element `n-1-k` |
| Grammar.PushBody | parser.py:296-298 | the push loop gives the stack `Pushed` describes |
| Grammar.Pushed | parser.py:296-298 | the reference for the push loop: the old stack stays below, and the stack grows by exactly the number of non-`e` symbols of the body; PushedTop states what ends on top and in which order |
| Grammar.PushedTop | parser.py:296-300 | after the push the first non-`e` body symbol is on top, with the rest of the body reversed beneath it, over the old stack |
| Grammar.PushedEpsilon | parser.py:296-298 | a body made only of `e` pushes nothing |
| Grammar.RowOf | parser.py:69-75 | the row loop returns `FirstRow` |
| Grammar.ColumnOf | parser.py:77-83 | IndexError exactly on an empty parse table; otherwise `FirstColumn` of its header row |
| Grammar.TableEntry | parser.py:237-256 | IndexError for an empty table. Missing exactly when the row or column is absent or the cell is empty. Found only with the production the cell names |
| Parsing.ExprType | parser.py:89-114 | when no exception is raised, the read moves forward within the operation stack and the type is INT or STR; the only exceptions are IndexError (stack exhausted) and KeyError (undeclared identifier) |
| Parsing.OperandType | parser.py:93-112 | when no exception is raised the read moves forward within the stack; only IndexError or KeyError is raised |
| Parsing.ExprIntIff | parser.py:89-114 | an expression is typed INT exactly when every identifier it reads is declared INT |
| Parsing.OperandIntIff | parser.py:93-112 | an operand is typed INT exactly when every identifier it reads is declared INT |
| Parsing.DeclCheck | parser.py:116-135 | only the errors and the operation stack change; at most one error is appended, earlier ones kept |
| Parsing.DeclExpr | parser.py:130-135 | a declaration with an expression raises exactly what typing the expression raises; otherwise the operation stack is reset and one error is added exactly when the declared type differs from the expression's; nothing else changes |
| Parsing.DeclValue | parser.py:120-127 | only the errors change, by at most one |
| Parsing.AssignCheck | parser.py:138-157 | only the errors and the operation stack change; at most one error is appended, earlier ones kept |
| Parsing.AssignExpr | parser.py:151-157 | an assignment of an expression raises exactly what typing the expression raises; otherwise the operation stack is reset and one error is added exactly when the target is `INT` and the expression `STR`; nothing else changes |
| Parsing.ResetOps | parser.py:170-172 | `_resetOperationStates`: an empty operation stack at index 0; the parse, the errors and both frames are kept |
| Parsing.ResetDecl | parser.py:159-162 | `_resetVarDeclStates`: the declaration frame is closed and emptied; the parse, the errors, the assignment frame and the operation stack are kept |
| Parsing.ResetAssign | parser.py:164-168 | `_resetAssignState`: the assignment frame is closed and emptied; the parse, the errors, the declaration frame and the operation stack are kept |
| Parsing.CloseFrame | parser.py:209-215 | an open assignment frame is checked and closed before a declaration frame. Neither frame is left open when the assignment one was, and the stack, the buffer and validity are kept. At most one error is added |
| Parsing.HookDeclaration | parser.py:259-268 | the stack, the buffer and validity are kept, and errors are only appended |
| Parsing.HookDeclTail | parser.py:269-272 | the stack, the buffer and validity are kept, and errors are only appended |
| Parsing.HookAssignment | parser.py:274-282 | the stack, the buffer and validity are kept, and errors are only appended |
| Parsing.HookInputOutput | parser.py:284-292 | the stack, the buffer and validity are kept, and errors are only appended |
| Parsing.Hooks | parser.py:259-292 | the four hooks together keep the stack, the buffer and validity, and only append errors |
| Parsing.Step | parser.py:207-300 | errors are only appended; a step that stops the loop makes the parse invalid with exactly one new error; otherwise validity is kept; the buffer loses at most its front token |
| Parsing.MatchTerminal | parser.py:208-227 | a match never stops the parse or adds an error, and it consumes the front token exactly when it moves on |
| Parsing.Expand | parser.py:236-300 | the input is not consumed; it stops exactly when the table has no entry, and a stop invalidates the parse with exactly the no-production message; otherwise validity is kept |
| Parsing.Inner | parser.py:205-300 | the inner loop uses no more iterations than it is allowed |
| Parsing.InnerKeeps | parser.py:205-300 | the inner loop only appends errors, and an invalid parse always carries an error |
| Parsing.InnerAfter | parser.py:205-300 | after one iteration the rest of the loop continues from the new state and symbol, or ends where the iteration stopped or raised |
| Parsing.OneLine | parser.py:197-300 | one dictionary entry keeps earlier errors, and an invalid parse carries an error |
| Parsing.Lines | parser.py:190-300 | the outer loop keeps earlier errors, and an invalid parse carries an error |
| Parsing.Begin | parser.py:174-182 | the start of `parse`: buffer and errors emptied, `is_valid` true, `$` pushed over the old stack, which is not cleared; the open frames and the operation stack are not reset |
| Parsing.Parsed | parser.py:174-300 | a parse that ends invalid has reported at least one error |
| Parsing.DeclValueFlagged | parser.py:120-127 | a four-token declaration gets an error exactly when it declares `INT` from an identifier declared with another type |
| Parsing.DeclExprFlagged | parser.py:130-135 | a declaration from an expression resets the operation stack and gets an error exactly when its declared type is not the expression's, which is `INT` when every identifier of the expression is `INT` and `STR` otherwise |
| Parsing.AssignValueFlagged | parser.py:144-150 | assigning an identifier raises exactly when either name is undeclared, and gets an error exactly when it stores a `STR` into an `INT` |
| Parsing.AssignExprFlagged | parser.py:151-157 | assigning an expression resets the operation stack and gets an error exactly when the target is `INT` and some identifier of the expression is not `INT` |
| Parsing.AssignLiteralAccepted | parser.py:138-157 | assigning a value that is neither an identifier nor an operator to a declared variable changes nothing and is never an error |
| Parsing.RedeclarationKeepsFrame | parser.py:259-268 | a new `VariableDeclaration` while one is open checks the old frame but does not empty it, because the reset is referenced and not called at line 265 |
| Parsing.DeclTailKeepsFrame | parser.py:269-272 | an empty `VarDeclTail` in an open declaration checks the frame but leaves it open and unemptied, because the reset is referenced and not called at line 272 |
| Parsing.MatchConsumes | parser.py:208-227 | a matched terminal other than `LOI` leaves the buffer, joins the open frames, and the next symbol comes off the stack, with no error |
| Parsing.ExpandPushesBody | parser.py:236-300 | a found production replaces the nonterminal by its body: the first non-`e` symbol is examined next and the input is not consumed |
| Parsing.MismatchStops | parser.py:230-233 | a terminal that does not match the input adds exactly the mismatch message and makes the parse invalid |
| Parsing.MissingEntryStops | parser.py:240-252 | a nonterminal with an absent row, an absent column or an empty cell adds exactly the no-production message, makes the parse invalid and leaves stack and buffer alone |
| Parsing.InvalidStopsLines | parser.py:190-195 | once the parse is invalid, later entries of the token dictionary are not read; only the line number moves on |
| Parsing.StackNotCleared | parser.py:174-186 | `parse` does not clear the stack: with no input, the old stack stays under a new `$`, and the state is valid with no errors |
| Parsing.Parser.constructor | parser.py:5-33 | the given tables and symbol table, and the initial field values of the source |
| Parsing.Parser.GetOperationStackNextToken | parser.py:85-87 | the index moves on by one; the token is returned exactly when the old index was in range (IndexError otherwise) |
| Parsing.Parser.ExpressionSemanticAnalysis | parser.py:89-114 | the type, the final index and the exception are those of `ExprType` |
| Parsing.Parser.OperandSemanticAnalysis | parser.py:93-112 | the type, the final index and the exception are those of `OperandType` |
| Parsing.Parser.VarDeclarationSemanticAnalysis | parser.py:116-135 | the new state and the exception are `DeclCheck` of the old state |
| Parsing.Parser.AssignmentSemanticAnalysis | parser.py:138-157 | the new state and the exception are `AssignCheck` of the old state |
| Parsing.Parser.ResetVarDeclStates | parser.py:159-162 | the declaration frame is closed and emptied; nothing else changes |
| Parsing.Parser.ResetAssignState | parser.py:164-168 | the assignment frame is closed and emptied; nothing else changes |
| Parsing.Parser.ResetOperationStates | parser.py:170-172 | the operation stack is emptied and its index is 0 |
| Parsing.Parser.CloseOpenFrame | parser.py:209-215 | the new state is `CloseFrame` of the old |
| Parsing.Parser.RunHooks | parser.py:259-292 | the new state is `Hooks` of the old |
| Parsing.Parser.MatchInput | parser.py:208-227 | the new state and the step kind are `MatchTerminal` of the old |
| Parsing.Parser.ExpandNonterminal | parser.py:236-300 | the new state and the step kind are `Expand` of the old |
| Parsing.Parser.LookUpEntry | parser.py:237-256 | returns `TableEntry` for the symbol and the input name |
| Parsing.Parser.ApplyProduction | parser.py:259-300 | the hooks run, then the body is pushed and the next symbol popped, as `Expand` describes |
| Parsing.Parser.ParseStep | parser.py:207-300 | one iteration leaves the state `Step` gives |
| Parsing.Parser.ParseLine | parser.py:197-300 | one entry of the dictionary leaves the state `OneLine` gives |
| Parsing.Parser.Parse | parser.py:174-300 | the whole call leaves the state and the halt reason `Parsed` gives |
| Parsing.Parser.ParseLines | parser.py:190-300 | the outer loop leaves the state `Lines` gives |
| DraftParsing.DraftEntry | new_parser.py:104-113 | an absent row or column is used as an index and raises TypeError; exactly then the result is `TypeError` |
| DraftParsing.DraftEntryAgrees | new_parser.py:104-113 | both parsers find a production for the same inputs, and the same one; where the draft raises TypeError the checking parser reports a missing entry |
| DraftParsing.Step | new_parser.py:88-122 | a stop only sets `is_valid` false; an exception changes nothing; validity never returns; the buffer loses at most its front token |
| DraftParsing.Expand | new_parser.py:101-122 | the buffer is kept; it stops exactly when the cell is empty and raises exactly when the entry cannot be read; only a stop clears `is_valid` |
| DraftParsing.MatchConsumes | new_parser.py:90-94 | a matched terminal leaves the buffer and the next symbol comes off the stack; validity is kept |
| DraftParsing.ExpandPushesBody | new_parser.py:113-122 | a found production replaces the nonterminal on the stack by its body; the input is not consumed and validity is kept |
| DraftParsing.ExpandExaminesFirst | new_parser.py:113-122 | the body's first symbol other than `e` is examined next, with the rest of the body on the stack in reverse |
| DraftParsing.SyntaxErrorStops | new_parser.py:96-111 | a terminal mismatch or an empty cell ends the line's loop, setting `is_valid` false and changing nothing else |
| DraftParsing.Inner | new_parser.py:88-122 | the inner loop uses no more iterations than it is allowed |
| DraftParsing.OneLine | new_parser.py:84-88 | one entry uses no more iterations than it is allowed |
| DraftParsing.Lines | new_parser.py:82-122 | the outer loop over the entries uses no more inner-loop iterations than it is allowed; LinesNeverRevalidate states that it never makes the parse valid again |
| DraftParsing.Parsed | new_parser.py:72-80 | the draft `parse`: within its iteration budget; a production table with no first row of two cells raises IndexError with `$` pushed over the old stack; InvalidStaysInvalid states that an invalid parser stays invalid |
| DraftParsing.InnerNeverRevalidates | new_parser.py:88-122 | the inner loop never sets `is_valid` back to true |
| DraftParsing.InnerAfter | new_parser.py:88-122 | after one iteration the rest of the loop continues from the new state and symbol, or ends where the iteration stopped or raised |
| DraftParsing.LinesNeverRevalidate | new_parser.py:82-122 | the outer loop never sets `is_valid` back to true |
| DraftParsing.InvalidStaysInvalid | new_parser.py:72-122 | `parse` does not reset `is_valid`, so after a failed parse every later parse on the object reports failure |
| DraftParsing.MismatchRecurs | new_parser.py:84-99 | after a mismatch the next entry's tokens join the buffer behind the same unmatched token, and the loop stops again at once |
| DraftParsing.DraftParser.constructor | new_parser.py:8-21 | the given tables, empty stack and buffer, `is_valid` truthy |
| DraftParsing.DraftParser.LookUpEntry | new_parser.py:104-113 | returns `DraftEntry` |
| DraftParsing.DraftParser.ParseStep | new_parser.py:88-122 | one iteration leaves the state `Step` gives |
| DraftParsing.DraftParser.ExpandTop | new_parser.py:101-122 | the table branch leaves the state `Expand` gives |
| DraftParsing.DraftParser.ParseLine | new_parser.py:84-122 | one entry leaves the state `OneLine` gives; an empty buffer raises IndexError |
| DraftParsing.DraftParser.RunInner | new_parser.py:88-122 | the inner loop leaves the state `Inner` gives |
| DraftParsing.DraftParser.Parse | new_parser.py:72-122 | the whole call leaves the state and the halt reason `Parsed` gives |
| Execution.Next | runtime.py:22-35 | the next token in line-major order. Lines with no token left are skipped. An absent line is the KeyError. The cursor moves strictly forward past a returned token |
| Execution.Peek | runtime.py:37-42 | the token under the cursor exactly when its line exists and has one there; otherwise IndexError on an existing line and KeyError on an absent one |
| Execution.IntOfLexeme | runtime.py:60-61 | `int()` of a token value: TypeError for None, ValueError for malformed text, otherwise the integer Python reads |
| Execution.IntOfValue | runtime.py:58 | `int()` of a stored value: an int is itself, None is a TypeError, a string is read as a literal |
| Execution.Atom | runtime.py:51-61 | the cursor stays; at most one error is logged (none in the draft); a value that is read is never None |
| Execution.EvalOperand | runtime.py:48-65 | reading an operand moves the cursor forward; at most one error is logged; a None operand occurs only in the release |
| Execution.OperandAt | runtime.py:48-65 | the cursor does not move back, the token read is the one given, and at most one error is logged |
| Execution.Eval | runtime.py:44-100 | an operation moves the cursor forward; at most one error is logged (none in the draft); a None result only for a release operator outside the draft's four |
| Execution.Combine | runtime.py:85-100 | the result is None exactly for an operator with no branch (`MOD`); at most one error is logged |
| Execution.AtomOperand | runtime.py:48-61 | an operand token that is not an operator is read as an atom just after it |
| Execution.LiteralAtom | runtime.py:60-61 | the literal `str(n)` is read as `n` |
| Execution.OperatorOperand | runtime.py:63-65 | an operator operand is evaluated as a nested operation starting just after it |
| Execution.BothOperands | runtime.py:44-100 | when both operands are read, the operation's result is `Combine` of them |
| Execution.EvalInts | runtime.py:85-100 | two int operands, with a nonzero divisor for `DIV`, give `+`, `-`, `*` or the quotient |
| Execution.LeafEvaluates | runtime.py:48-61 | a literal or an INT variable holding an int is read as its value, one token on |
| Execution.OperationOperand | runtime.py:63-65 | an operator operand with two int operands is read as the operation's value |
| Execution.ApplyEvaluates | runtime.py:44-100 | an operation spelled in prefix form evaluates to `ValueOf` of it and ends just after its spelling |
| Execution.SpelledEvaluates | runtime.py:44-100 | any expression spelled in prefix form at the cursor evaluates to `ValueOf` of it, with the cursor just after it, in both dialects |
| Execution.DivisionByZeroVariable | runtime.py:92-96 | `DIV x z` with `z` an INT holding 0 raises the divide-by-zero-in-variable message with the line number, and the release logs it too |
| Execution.DivisionByZeroLiteral | runtime.py:97-99 | in the release, `DIV x 0` fails with AttributeError and logs nothing, because `error_message` is not an attribute of `Runtime`; the draft raises its literal message instead |
| Execution.NonIntegerOperandReported | runtime.py:51-56 | a variable whose type is not INT as an operand raises the not-an-integer exception; the release also logs it |
| Execution.ModYieldsNone | runtime.py:85-100 | `MOD` of two literals returns None, two tokens on |
| Execution.Store | runtime.py:167 | `update_symbol`: continues or raises KeyError; errors, console and types unchanged |
| Execution.Insert | runtime.py:111-112 | a console insert appends the text; inserting None fails as Tk does (TclError) |
| Execution.PrintStmt | runtime.py:102-129 | `PRINT` adds at most one console entry and never ends the loop; a normal finish adds no error and moves the cursor forward |
| Execution.PrintToken | runtime.py:108-129 | printing a fetched token adds at most one console entry, keeps the table and errors on a normal finish |
| Execution.IntoStmt | runtime.py:161-175 | `INTO v IS x` keeps every variable's type, never ends the loop; a normal finish adds no error and moves the cursor forward |
| Execution.IntoValue | runtime.py:166-175 | the assignment keeps every type and adds no error on a normal finish |
| Execution.DeclareStmt | runtime.py:177-193 | `INT v [IS x]` keeps every type and never ends the loop; a normal finish adds no error and moves the cursor forward |
| Execution.DeclareValue | runtime.py:184-193 | the initialisation keeps every type, leaves the cursor and adds no error on a normal finish |
| Execution.InputStmt | runtime.py:196-246 | `BEG v` keeps types, only extends the console; it ends the loop with exactly one new error, and a normal finish adds none |
| Execution.InputValue | runtime.py:206-246 | the reply is checked against the variable's type; a rejected reply ends the loop with exactly one new error |
| Execution.Statement | runtime.py:149-247 | one statement keeps the types and the program, never shortens console or errors, and a `break` adds exactly one error |
| Execution.Loop | runtime.py:144-249 | the loop keeps types and program, only extends errors and console, and a finish with no error has just read `LOI` |
| Execution.LoopStep | runtime.py:144-249 | a statement that continues is followed by the next token and another turn, or KeyError when the lines run out |
| Execution.Banner | runtime.py:253-265 | the success line alone, or the error header followed by one line per error |
| Execution.Lined | runtime.py:256-257 | each error on a line of its own |
| Execution.Process | runtime.py:131-265 | the run keeps the program and the types and only extends errors and console; a normal end appends the closing banner |
| Execution.EarlierErrorsStopEverything | runtime.py:144-147 | `errors` is never cleared: a runtime with errors from an earlier run executes nothing and prints the old errors again |
| Execution.SuccessEndsOnLoi | runtime.py:144-265 | a run with no error ends on `LOI` with the success line last; otherwise the error banner comes before the errors |
| Execution.DeclarationAtEndOfLineRaises | runtime.py:177-180 | `INT v` as the last tokens of its line raises IndexError at the peek, although it is a complete declaration |
| Execution.InputStoresNumber | runtime.py:218-233 | `BEG v` with an INT `v` and the reply `str(n)` stores `n`, keeps its type, prints the prompt and echoes the reply, and consumes one reply |
| Execution.CancelledInputRejected | runtime.py:213-221 | a cancelled dialog reads as empty, which an INT variable rejects with one error; the table is unchanged |
| Execution.DigitsRejectedForString | runtime.py:235-239 | a STR variable rejects an all-digit reply, with exactly the expected-a-string error |
| Execution.IntoStoresValue | runtime.py:161-175 | `INTO v IS e` with `e` in prefix form stores `ValueOf(e)` in `v`, changes no other variable, and moves past `e` |
| Execution.PrintsVariable | runtime.py:106-114 | `PRINT v` inserts the value of `v` as the console shows it (an int in decimal, a string as is); a variable holding None raises TclError |
| Execution.PrintsUndeclared | runtime.py:108-110 | `PRINT` of an undeclared variable raises KeyError and prints nothing |
| Execution.PrintsLiteral | runtime.py:116-121 | `PRINT` of an integer literal inserts its text as written |
| Execution.PrintsOperation | runtime.py:123-129 | `PRINT e` for an operation spelled in prefix form inserts the decimal value of `e` and moves past `e` |
| Execution.DeclareWithoutIsStoresNothing | runtime.py:177-180 | `INT v` followed by anything but `IS` stores nothing and leaves the cursor after `v` |
| Execution.DeclareStoresLiteral | runtime.py:180-185 | `INT v IS n` stores `n` in `v`, keeping its type, and moves past the literal |
| Execution.DeclareStoresVariable | runtime.py:187-193 | `INT v IS y` for a non-STR `y` holding an int stores that int in `v` |
| Execution.DeclareFromStringRaises | runtime.py:187-192 | `INT v IS y` for a STR `y` logs the store message, raises it, and stores nothing |
| Execution.IntoStoresLiteral | runtime.py:161-167 | `INTO v IS n` stores `n` in `v`, keeping its type, and moves past the literal |
| Execution.IntoStoresVariable | runtime.py:169-171 | `INTO v IS y` stores the int `y` holds in `v`, with no type check |
| Execution.NonDigitsRejectedForInt | runtime.py:218-221 | an INT variable rejects any reply that is not all digits: one error ends the loop, only the prompt is printed, nothing is stored |
| Execution.StringInputStored | runtime.py:235-246 | a STR variable stores any reply that is not all digits and echoes it on a line of its own |
| Execution.ZeroDivisorFails | runtime.py:92-99 | a zero divisor fails `DIV` whatever the dividend; a variable divisor is named in the exception (and logged in the release), a literal one reaches `self. error_message` and raises AttributeError in the release |
| Execution.Runtime.constructor | runtime.py:9-20 | a fresh empty symbol table, empty dictionary, the cursor at line 1 index 0, no errors, an empty console |
| Execution.Runtime.GetNextToken | runtime.py:22-35 | the token and the new cursor are `Next` of the old; an absent line raises KeyError |
| Execution.Runtime.PeekNextToken | runtime.py:37-42 | the token or the exception is `Peek` at the cursor |
| Execution.Runtime.ReadOperand | runtime.py:48-65 | the errors only grow; token, value, cursor and exception are `EvalOperand` of the old cursor |
| Execution.Runtime.ReadAtom | runtime.py:51-61 | the value, the exception and the logged error are those of `Atom` |
| Execution.Runtime.ProcessArithmeticOperator | runtime.py:44-100 | errors only grow; result, cursor and exception are `Eval` of the old cursor |
| Execution.Runtime.StoreValue | runtime.py:167 | the new state is `Store` of the old; the table's key order is kept |
| Execution.Runtime.InsertText | runtime.py:111-114 | the new state is `Insert` of the old |
| Execution.Runtime.ProcessPrint | runtime.py:102-129 | the new state is `PrintStmt` of the old |
| Execution.Runtime.PrintFetched | runtime.py:108-129 | the new state is `PrintToken` of the old |
| Execution.Runtime.ExecuteInto | runtime.py:161-175 | the new state is `IntoStmt` of the old |
| Execution.Runtime.AssignInto | runtime.py:166-175 | the new state is `IntoValue` of the old |
| Execution.Runtime.ExecuteDeclaration | runtime.py:177-193 | the new state is `DeclareStmt` of the old |
| Execution.Runtime.InitialiseDeclared | runtime.py:184-193 | the new state is `DeclareValue` of the old |
| Execution.Runtime.ExecuteInput | runtime.py:196-246 | the new state is `InputStmt` of the old |
| Execution.Runtime.ReadInput | runtime.py:206-246 | the new state is `InputValue` of the old |
| Execution.Runtime.ExecuteStatement | runtime.py:149-247 | the new state is `Statement` of the old |
| Execution.Runtime.RunLoop | runtime.py:141-249 | the loop ends in the state `Loop` gives |
| Execution.Runtime.ReportEnd | runtime.py:253-265 | the console is extended by exactly `Banner` of the errors |
| Execution.Runtime.ProcessInputCode | runtime.py:131-265 | the runtime adopts the given table; the final state and exception are `Process` of the old errors, console and replies |
| DraftExecution.DraftRun | test_runtime.py:90-97 | no contract of its own: reads the next token and goes on with `DraftLoop`; RunEndsAfterLoi states what it keeps and how it ends |
| DraftExecution.DraftLoop | test_runtime.py:92-97 | no contract of its own: the `while` loop entered with a current token; LoopEndsAfterLoi states what it keeps and how it ends |
| DraftExecution.DraftProcess | test_runtime.py:83-97 | no contract of its own: `DraftRun` from line 1, index 0, keeping what was printed before; `DraftRuntime.ProcessInputCode` is proved equal to it |
| DraftExecution.RunEndsAfterLoi | test_runtime.py:90-97 | a draft run keeps the table and program, only appends to what is printed, and a normal end has just read `LOI` |
| DraftExecution.LoopEndsAfterLoi | test_runtime.py:92-97 | the same for the loop entered with a current token |
| DraftExecution.OperationEvaluates | test_runtime.py:27-81 | an operation spelled in prefix form evaluates to `ValueOf` of it, ending just after its spelling |
| DraftExecution.OperationRuns | test_runtime.py:93-97 | an operation at the cursor is evaluated, its value printed, and the loop goes on after its spelling |
| DraftExecution.LeafRuns | test_runtime.py:92-97 | a literal or variable at the top level is passed over, printing nothing |
| DraftExecution.RunsExpression | test_runtime.py:92-97 | one expression at the cursor moves the loop past it, printing its value exactly when it is an operation |
| DraftExecution.StopsAtLoi | test_runtime.py:92 | `LOI` at the cursor ends the run just after it |
| DraftExecution.PrintsTopLevel | test_runtime.py:90-97 | a line spelling expressions and then `LOI` prints the values of its operations in order and ends after `LOI` |
| DraftExecution.ModPassedOver | test_runtime.py:13 | `MOD` is no operator of the draft: it is passed over and its operands run as top-level expressions |
| DraftExecution.AddLinePrintsSum | test_runtime.py:83-97 | a program whose first line is `ADD x y LOI` prints exactly `x + y` |
| DraftExecution.ZeroDivisorAborts | test_runtime.py:75-78 | `DIV x z` with `z` an INT holding 0 aborts with the draft's divide-by-zero message naming `z` and the line |
| DraftExecution.DraftRuntime.constructor | test_runtime.py:5-13 | a fresh empty symbol table, empty dictionary, cursor at line 1 index 0, nothing printed |
| DraftExecution.DraftRuntime.GetNextToken | test_runtime.py:15-25 | the token and the new cursor are `Next` of the old; an absent line raises KeyError |
| DraftExecution.DraftRuntime.ReadOperand | test_runtime.py:29-46 | token, value, cursor and exception are `EvalOperand` of the draft |
| DraftExecution.DraftRuntime.ReadAtom | test_runtime.py:32-41 | the value and exception are `Atom` of the draft |
| DraftExecution.DraftRuntime.ProcessArithmeticOperator | test_runtime.py:27-81 | result, cursor and exception are `Eval` of the draft |
| DraftExecution.DraftRuntime.ProcessInputCode | test_runtime.py:83-97 | the runtime adopts the given table; the final state, what was printed and the exception are `DraftProcess` |
| ParseTrees.Others | parse_tree.py:15 | every kept child is one of the children and not the node (by identity), every other child is kept, one fewer per occurrence of the node, and with the node absent nothing is dropped |
| ParseTrees.OthersAppend | parse_tree.py:15 | filtering keeps order: filtering a concatenation is the concatenation of the filtered parts |
| ParseTrees.OthersSingleton | parse_tree.py:15 | a single child is kept exactly when it is not the node |
| ParseTrees.ParseTreeNode.constructor | parse_tree.py:2-6 | the given value and type, no children, no parent |
| ParseTrees.ParseTreeNode.AddChild | parse_tree.py:8-10 | the child's parent becomes the node and the child is appended as the last child |
| ParseTrees.ParseTreeNode.Siblings | parse_tree.py:12-15 | none without a parent; otherwise only the parent's other children, each of them, one fewer than the children per occurrence of the node |
| ParseTrees.SiblingsAround | parse_tree.py:12-15 | for a node that occurs once among its parent's children, the siblings are the children before it followed by those after it, in order |
| ParseTrees.Indent | parse_tree.py:46 | `"  " * level`: two spaces per level |
| ParseTrees.ParseTree.constructor | parse_tree.py:18-20 | no root and no current node |
| ParseTrees.ParseTree.SetRoot | parse_tree.py:22-24 | a fresh non-terminal root with no children or parent, which becomes the current node |
| ParseTrees.ParseTree.AddNode | parse_tree.py:26-33 | on an empty tree the root is created (type ignored) and made current. Otherwise a fresh node is appended as the last child of the current node, which stays current, and its siblings are the old children. With no current node it raises AttributeError |
| ParseTrees.ParseTree.MoveTo | parse_tree.py:35-36 | the current node becomes the one given |
| ParseTrees.ParseTree.MoveUp | parse_tree.py:38-40 | the parent becomes current if there is one, and at the root nothing changes; AttributeError exactly when there is no current node |
| ParseTrees.ParseTree.Lines | parse_tree.py:42-48 | the node's own line first; every line is indented to the level, every later line one level deeper |
| ParseTrees.ParseTree.ChildLines | parse_tree.py:47-48 | the children's lines are indented to the level, at least one line per child |
| ParseTrees.ParseTree.PrintTree | parse_tree.py:42-48 | AttributeError exactly when neither a node nor a root exists; the first line is the given node's, or the root's |
| ParseTrees.RootLineFirst | parse_tree.py:42-48 | printing from the root: the root's line unindented first, every later line indented |
| Compilation.NewCompiler | compiler.py:2-3 | `complete` starts false |
| Compilation.Compile | compiler.py:5-16 | returns exactly for empty code (printing the message) or marked code (printing nothing). Whitespace-only code raises IndexError, other unmarked code the format exception. The compiler is unchanged |
| Compilation.WhitespaceOnlyFails | compiler.py:14-15 | non-empty whitespace-only code splits to no words and raises IndexError |
| Compilation.WrongStartRejected | compiler.py:14-16 | a first word other than `IOL` raises the format exception |
| Compilation.WrongEndRejected | compiler.py:14-16 | a last word other than `LOI` raises the format exception |
| Compilation.MarkedCodeAccepted | compiler.py:14-16 | `IOL ` + anything + ` LOI` returns normally, printing nothing, with `complete` still false |
| Compilation.SampleRejected | compiler.py:22 | the sample `LOI ADD 5 5 LOI` raises the format exception |

## Left out

- Reading `keywords.txt`, `grammar.prod` and `grammar.ptbl`, and writing `output.tkn`: file I/O. Keywords and tables are parameters.
- The Tk console and `tk.simpledialog.askstring`: windowing. The console is the sequence of inserted strings; the dialog is a supplied list of replies, and an exhausted list reads as a cancelled dialog.
- `config`, `see` and the other widget calls around each insert: they change nothing the model observes.
- The quotient of `DIV`: Python `/` gives a float, and floating point is not modelled. The caller supplies `divide`; only the zero-divisor checks are exact.
- The draft's `print(result)`: standard output is the sequence `printed` of integers.
- The debug `print` calls and the `__main__` demonstrations of the parsers and the lexer: console output only.
- `LexicalAnalyzer._storeToken` and `_raiseError`: the first does nothing; the second only prints, and the model keeps just its effect, the None that follows.
- `print_symbol_table`: console output only.
- `Parsing.Parser.Parse`, `DraftParsing.DraftParser.Parse`: a grammar can make the inner loop run forever, so both follow at most `fuel` iterations and report running out.
- `is_valid` and the parser's `total_output` and `action` lists, and `assignment_stack_index` (parser.py:167): only written, never read, except `is_valid`. The initial `bool` type object of `is_valid` is modelled as true, since it is truthy.
- `ParseTrees.ParseTree.PrintTree`: it requires the node to belong to the tree, so printing a node from another tree, or a cyclic structure, is not modelled. Node values are strings.
- Negative integer literals: `Expr.Literal` holds naturals, and the lexer never produces a negative `INT_LIT`.
- The `BEG` checks at runtime.py:201 and runtime.py:223-225 can never fire. `get_symbol` raises or returns a non-empty dictionary. Empty input already fails the digits match. The model has the same control flow, so these branches stay unreachable there too.
- The f-strings at runtime.py:192 and parser.py:149-150 nest double quotes, which Python accepts from version 3.12 on; the model takes them as valid.
- `Parsing.Hooks`, `Parsing.HookDeclaration`, `Parsing.HookDeclTail`, `Parsing.HookAssignment`, `Parsing.HookInputOutput`: their own contracts are frame conditions; what the frames check is stated by the `…Flagged` lemmas, `RedeclarationKeepsFrame` and `DeclTailKeepsFrame`.
- `Execution.PrintStmt`, `Execution.PrintToken`, `Execution.IntoStmt`, `Execution.IntoValue`, `Execution.DeclareStmt`, `Execution.DeclareValue`, `Execution.InputStmt`, `Execution.InputValue`: their own contracts are frame conditions and bounds; what each statement prints, stores or rejects is stated by the `Prints…`, `Declare…` and `…Stores…` lemmas, `InputStoresNumber`, `CancelledInputRejected`, `NonDigitsRejectedForInt`, `DigitsRejectedForString` and `StringInputStored`.
- `Parsing.DeclCheck`, `Parsing.AssignCheck`: their own contracts are frame conditions; which frames get an error is stated by `DeclValueFlagged`, `DeclExprFlagged`, `AssignValueFlagged`, `AssignExprFlagged` and `AssignLiteralAccepted`.
- `Parsing.InnerKeeps`: it does not state that the buffer only ever loses tokens from its front over the whole loop; `Parsing.Step` states it for one iteration.
- `DraftExecution.DraftRun`, `DraftExecution.DraftLoop`, `DraftExecution.DraftProcess`: no contract of their own, because as ensures of these mutually recursive functions the facts enter every proof that unfolds them and make the printing lemmas much dearer; `RunEndsAfterLoi` and `LoopEndsAfterLoi` state them, and `DraftRuntime.ProcessInputCode` is proved equal to `DraftProcess`.
- `DraftParsing.Inner`, `DraftParsing.OneLine`: their own contracts bound the fuel only; what they never do is stated by `InnerNeverRevalidates`, `LinesNeverRevalidate` and `MismatchRecurs`.
- Python's `isalpha`, `isalnum`, `isdigit` and `isupper` are modelled on ASCII letters and digits; other Unicode letters and digits are not.
- `semantic_analyzer.py`: it is built on Python's `ast` module, a foreign library.
- `main.py` and `PE03/main.py`: the Tk user interface. `PE03/parser.py`: its `parse` and `exportOutput` are empty.

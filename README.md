# nand2tetris toolchain in Dafny

This project models the three translators of the Go repository
tatsuya4559/nand2tetris and proves properties of each:

- **The Jack compiler** (`compiler/`):
  - a character scanner (`Tokenizer`) with line counting;
  - the keyword table;
  - a two-level `SymbolTable` with per-kind index counters;
  - a `VMWriter` that prints one VM command per line;
  - the single-pass recursive-descent `CompilationEngine`.

  The engine reads a token sequence with one token of lookahead. It writes VM operations as it reads, draws labels from a global counter and updates the symbol table.
- **The VM translator** (`vmtranslator/`). A line parser with one command of lookahead feeds a `CodeWriter`. The writer expands each VM command into Hack assembly. It uses the stack-frame call/return protocol of chapter 8 of *The Elements of Computing Systems*.
- **The Hack assembler** (`projects/06/assembler/` and `assembler/`):
  - a comment-stripping line scanner;
  - the A/C/L command parser;
  - the bit-field encoder of the Hack machine language, present in two copies;
  - the symbol table that allocates RAM from address 16;
  - the two passes of `assembler/main.go`, with its first pass `LoadLabelAddress` as written and, beside it, the intended first pass.

Stateful code is modelled as classes whose ensures give the whole new state, as a function of the old state. The classes are the tokenizer, the symbol tables, the writers, the parsers and the engine. Each such function is then the subject of lemmas.

The compilation engine is proved against a reference compiler over parse trees (module JackCodegen). When a compile method succeeds, two things hold:

- the tokens it consumed are the layout (JackSyntax `U…` functions) of the tree it returns;
- the VM operations it appended are exactly the code JackCodegen assigns to that tree.

The trees the engine returns stop where the engine stops each expression (JackSyntax `Maximal`, `WfClass`). JackLayout and JackDeclLayout prove that two such trees with the same layout are equal, so the tree, and the code, is a function of the tokens consumed.

The lemmas of JackProperties then use the reference compiler to show what engine.go promises:

- the code of every statement, subroutine and class is *closed*: its labels are drawn from consecutive counter values and never repeat, and every `goto`/`if-goto` lands on a label it defines;
- `nLocals` counts the names of the `var` lines;
- the constructor prologue is `push constant nFields; call Memory.alloc 1; pop pointer 0`.

Modules, one per file:

| file | module | models |
|---|---|---|
| common.dfy, text.dfy | Common, Text | Option; string helpers (prefix, search, TrimSpace, decimal numerals, `%d`) |
| jack_token.dfy | JackToken | compiler/token.go |
| jack_tokenizer.dfy | JackTokenizer | compiler/tokenizer.go |
| jack_symboltable.dfy | JackSymbols | compiler/symboltable.go |
| jack_vm.dfy | JackVM | compiler/vmwriter.go |
| jack_syntax.dfy | JackSyntax | the engine's token kinds, parse trees and their token layout |
| jack_layout.dfy | JackLayout | the expression and statement layouts are unambiguous on the trees the engine reads |
| jack_decl_layout.dfy | JackDeclLayout | the declaration and class layouts are unambiguous too |
| jack_codegen.dfy | JackCodegen | the code of each construct of compiler/engine.go |
| jack_engine_steps.dfy | JackEngineSteps | regrouping lemmas used by the engine's proofs |
| jack_engine.dfy | JackEngine | compiler/engine.go |
| jack_properties.dfy | JackProperties | properties of the generated VM code |
| vm_parser.dfy | VmParser | vmtranslator/parser.go |
| vm_codewriter.dfy | VmCodeWriter | vmtranslator/codewriter.go |
| hack_commands.dfy | HackCommands | projects/06/assembler/commands.go (and the same types in parser.go) |
| hack_parser.dfy | HackParser | projects/06/assembler/parser.go |
| hack_code.dfy | HackCode | projects/06/assembler/code.go |
| asm_code.dfy | AsmCode | assembler/code.go |
| hack_symbols.dfy | HackSymbols | projects/06/assembler/symboltable.go |
| asm_main.dfy | AsmMain | the passes and file naming of assembler/main.go |

Behaviour of the Go code kept as written and stated as a property:

- `ResetLocalScope` keeps all four counters, so argument and local indices keep growing across subroutines (`JackSymbols.ResetKeepsCounters`).
- The field count also counts every extra `static` name (`JackProperties.FieldCountAsWritten`, `JackProperties.ExtraStaticCountedAsField`).
- A digit-led token never becomes an integer token (`JackTokenizer.ScanDigitLed`).
- The keyword table spells the constructor keyword `constractor` (`JackToken.ConstructorMisspelled`).
- A label consumes a ROM address in `LoadLabelAddress` (`HackSymbols.LabelsConsumeRomAddresses`, and end to end `AsmMain.JumpTargetAsWritten`). `AsmMain.Assemble` and `AsmMain.Run` follow it; `AsmMain.AssembleIntended` and `AsmMain.RunIntended` use the intended first pass. See Findings.
- An array element assigned from an array element is not stored (`JackProperties.ArrayStoreAsWritten`); the engine keeps engine.go's ordering, and the corrected ordering is `JackProperties.ArrayLetCode`. See Findings.

Corrections the model applies, each with both halves in Findings:

- The engine pushes and pops a variable through `JackCodegen.ScopeSegment` (static, this, argument, local), not through engine.go's `Segment(entry.Scope)` conversion (`JackCodegen.RawScopeSegmentNamesNoSegment`).
- The Jack symbol table starts every counter at 0 (`JackSymbols.SymbolTable.constructor`), where NewSymbolTable leaves `nextIndex` nil (`JackSymbols.FirstDefinePanicsAsWritten`).

## Model

| member | source | states |
|---|---|---|
| JackToken.LookupKeyword | compiler/token.go:80-83 | found exactly when some keyword constant is spelled so, and then the constant is the one so spelled; a miss gives the zero Keyword |
| JackToken.IsKeyword | compiler/token.go:85-88 | agrees with the found flag of LookupKeyword |
| JackToken.LookupSpelling | compiler/token.go:56-78 | every one of the 21 constants is found under its own spelling |
| JackToken.SpellingInjective | compiler/token.go:56-78 | distinct constants have distinct spellings, so the table is one-to-one |
| JackToken.ConstructorMisspelled | compiler/token.go:61 | "constructor" is not a keyword, while "constractor" is found as KwConstructor |
| JackTokenizer.LineAtStep | compiler/tokenizer.go:42-53 | one readRune raises the line number by one exactly when a '\n' is left behind for a further character |
| JackTokenizer.SkipSpaces | compiler/tokenizer.go:96-100 | the first offset at or after i that holds no white space; everything skipped is white space |
| JackTokenizer.DigitsEnd | compiler/tokenizer.go:67-78 | the end of the maximal run of digits starting at i |
| JackTokenizer.LettersEnd | compiler/tokenizer.go:80-94 | the end of the maximal run of ASCII letters, '_' and digits starting at i |
| JackTokenizer.QuoteFrom | compiler/tokenizer.go:55-65 | the first '"' at or after i, or none when no quote follows |
| JackTokenizer.ScanAtEnd | compiler/tokenizer.go:108-109 | at end of input NextToken gives EOF with an empty literal and stays at the end, on every later call too |
| JackTokenizer.ScanSymbol | compiler/tokenizer.go:110-114 | after white space, a symbol character is a Symbol token of exactly that character, which alone is consumed |
| JackTokenizer.ScanString | compiler/tokenizer.go:115-117 | a string succeeds iff a closing quote follows; its literal is the quote-free text strictly between the quotes, and both quotes are consumed |
| JackTokenizer.ScanStuck | compiler/tokenizer.go:118-131 | a character outside every case gives an Identifier with an empty literal and the offset does not move past it |
| JackTokenizer.ScanDigitLed | compiler/tokenizer.go:119-130 | a digit-led token is never an integer: the digits are dropped, the token is the letter run after them and it is a Keyword exactly when that run is one |
| JackTokenizer.ScanWord | compiler/tokenizer.go:123-130 | a letter-led token is the longest letter run; it is a Keyword iff IsKeyword holds of it, otherwise an Identifier |
| JackTokenizer.Tokenizer.constructor | compiler/tokenizer.go:21-29 | the tokenizer starts at offset 0 on line 1 with the first character read |
| JackTokenizer.Tokenizer.CurrentLineNum | compiler/tokenizer.go:13-19 | the line number is 1 plus the newlines the scanner has passed, and at least 1 |
| JackTokenizer.Tokenizer.ReadRune | compiler/tokenizer.go:42-53 | moves one character on and counts the newline left behind |
| JackTokenizer.Tokenizer.SkipWhiteSpaces | compiler/tokenizer.go:96-100 | the loop ends at SkipSpaces of the start offset |
| JackTokenizer.Tokenizer.ReadInt | compiler/tokenizer.go:67-74 | the loop ends at DigitsEnd and returns the digits it passed |
| JackTokenizer.Tokenizer.ReadIdentifier | compiler/tokenizer.go:87-94 | the loop ends at LettersEnd and returns the letters it passed |
| JackTokenizer.Tokenizer.ReadString | compiler/tokenizer.go:55-65 | succeeds iff a closing quote follows; returns the text between the quotes and stops after the closing quote |
| JackTokenizer.Tokenizer.NextToken | compiler/tokenizer.go:102-134 | the token and the new offset are those of the scanning function Scan, whose cases are the lemmas above |
| JackSymbols.DefineEffect | compiler/symboltable.go:49-57 | Define files the name in its kind's table with the kind's current counter as index, raises that counter only, and leaves all other names and the other table alone |
| JackSymbols.DefinedAllIndices | compiler/symboltable.go:32-57 | distinct names defined in one kind get consecutive indices from the kind's counter, which ends that many higher; the other counters do not move |
| JackSymbols.DefinedAllKeeps | compiler/symboltable.go:49-57 | a name outside the defined list keeps its entry |
| JackSymbols.FreshCountersStartAtZero | compiler/symboltable.go:25-36 | in a fresh table each kind numbers distinct names 0, 1, 2, … independently of the other kinds |
| JackSymbols.RedefineUsesFreshIndex | compiler/symboltable.go:50-56 | redefining a name in the same kind overwrites its entry and uses up a fresh index, one more than the first |
| JackSymbols.LocalShadowsClass | compiler/symboltable.go:69-77 | a subroutine-scope name shadows a class-scope name of the same spelling |
| JackSymbols.LookupDefined | compiler/symboltable.go:69-77 | Find returns an entry exactly for names in one of the two tables, the class entry only when no local one exists |
| JackSymbols.ResetKeepsCounters | compiler/symboltable.go:79-81 | after ResetLocalScope only class names are found, every counter is unchanged, the subroutine kinds count 0 entries and the class kinds keep their count |
| JackSymbols.CountAfterDefine | compiler/symboltable.go:59-67 | Count rises by one on a Define of a name not yet held with that kind and stays put on an overwrite, so it can fall behind the number of Defines |
| JackSymbols.EmptyWellFormed | compiler/symboltable.go:25-30 | a fresh table is well formed: entries sit in their kind's table, under their own name, with distinct indices below the kind's counter |
| JackSymbols.DefinePreservesWellFormed | compiler/symboltable.go:49-57 | Define keeps a table well formed |
| JackSymbols.ResetPreservesWellFormed | compiler/symboltable.go:79-81 | ResetLocalScope keeps a table well formed |
| JackSymbols.CountBelowCounter | compiler/symboltable.go:59-67 | in a well-formed table no kind holds more names than its counter has handed out |
| JackSymbols.SymbolTable.constructor | compiler/symboltable.go:25-30 | both maps empty and every counter 0 |
| JackSymbols.SymbolTable.IssueIndex | compiler/symboltable.go:32-36 | returns the kind's current counter and raises that counter alone; the maps are untouched |
| JackSymbols.SymbolTable.GetTableForScope | compiler/symboltable.go:38-47 | the class map for static and field, the subroutine map for argument and var |
| JackSymbols.SymbolTable.Define | compiler/symboltable.go:49-57 | the new table is Define's effect on the old one (see DefineEffect) |
| JackSymbols.SymbolTable.Count | compiler/symboltable.go:59-67 | the loop counts the entries of the kind's table whose kind is the given one |
| JackSymbols.SymbolTable.Find | compiler/symboltable.go:69-77 | the lookup of LookupDefined and LocalShadowsClass |
| JackSymbols.SymbolTable.ResetLocalScope | compiler/symboltable.go:79-81 | the new table is the old one with the subroutine map emptied |
| JackSymbols.IssueIndexAsWritten | compiler/symboltable.go:32-36 | with the counter map left nil, issueIndex fails (Go panics on the increment) |
| JackSymbols.FirstDefinePanicsAsWritten | compiler/symboltable.go:25-36 | as written, the first Define of any kind fails |
| JackVM.RenderSplits | compiler/vmwriter.go:43-82 | when no name holds a line break, the text written has exactly one "\n" per operation, and cutting it at the breaks gives back each operation's line in order |
| JackVM.LinesTextAppend | compiler/vmwriter.go:43-46 | output is append-only: the text of two runs of lines is the concatenation of their texts |
| JackVM.SplitLinesText | compiler/vmwriter.go:43-46 | lines without breaks come back from their text: one "\n" each, and the lines between them |
| JackVM.LineHasNoBreak | compiler/vmwriter.go:48-82 | a formatted line holds no line break when its names hold none, so each Write adds exactly one line |
| JackVM.SegmentNamesDistinct | compiler/vmwriter.go:10-19 | the eight segment names are distinct, non-empty and free of spaces |
| JackVM.ArithLines | compiler/vmwriter.go:23-33 | an arithmetic line is one of the nine bare command names, and distinct commands print differently |
| JackVM.VMWriter.constructor | compiler/vmwriter.go:39-41 | nothing written yet |
| JackVM.VMWriter.Write | compiler/vmwriter.go:43-46 | appends one operation; the text grows by its line and a "\n" and nothing else |
| JackVM.VMWriter.WritePush | compiler/vmwriter.go:48-50 | appends `push seg index` |
| JackVM.VMWriter.WritePop | compiler/vmwriter.go:52-54 | appends `pop seg index` |
| JackVM.VMWriter.WriteArithmetic | compiler/vmwriter.go:56-58 | appends the bare command |
| JackVM.VMWriter.WriteLabel | compiler/vmwriter.go:60-62 | appends `label l` |
| JackVM.VMWriter.WriteGoto | compiler/vmwriter.go:64-66 | appends `goto l` |
| JackVM.VMWriter.WriteIf | compiler/vmwriter.go:68-70 | appends `if-goto l` |
| JackVM.VMWriter.WriteCall | compiler/vmwriter.go:72-74 | appends `call name nArgs` |
| JackVM.VMWriter.WriteFunction | compiler/vmwriter.go:76-78 | appends `function name nLocals` |
| JackVM.VMWriter.WriteReturn | compiler/vmwriter.go:80-82 | appends `return` |
| JackCodegen.RawScopeSegmentNamesNoSegment | compiler/engine.go:328 | `Segment(entry.Scope)` as written is a one-character string that names no segment |
| JackCodegen.ScopeSegment | compiler/engine.go:328 | the corrected mapping gives every kind a segment name |
| JackCodegen.ScopeSegmentInjective | compiler/engine.go:328 | the four kinds map to four distinct segments, none of them constant, pointer, that or temp |
| JackCodegen.LabelTextInjective | compiler/engine.go:436-442 | `prefix.N` labels are equal only when prefix and number are, so a fresh counter value never repeats a label |
| JackSyntax.BinaryOpOf | compiler/engine.go:376-412 | a token starts a binary operator exactly when its kind is one of the nine operator kinds, and then the operator is the one with that kind |
| JackSyntax.CallTailEndsWithParen | compiler/engine.go:413-433 | a call's argument list opens with '(' and is closed by ')', so a call is the last thing its expression reads |
| JackSyntax.BinaryOperatorPosition | compiler/engine.go:376-412 | in an expression with an operator, the operator comes straight after the term and its suffixes, and the whole rest of the expression is its right operand |
| JackSyntax.ExprNonEmpty | compiler/engine.go:304-359 | every expression reads at least one token |
| JackLayout.ExprLayoutUnique | compiler/engine.go:304-434 | the token layout is unambiguous on the trees compileExpression reads: two such expressions that read the front of the same tokens are the same tree, followed by the same tokens |
| JackLayout.NotTakesRest | compiler/engine.go:349-356 | `~ a + b` lays out the same tokens as `(~a) + b`, but only `~(a + b)` stops where compileExpression does |
| JackLayout.PartHeads | compiler/engine.go:361-433 | the token after an optional `.name`, `[index]` or tail is '.', '[', the operator or '(' when the part is present, otherwise the token after it |
| JackLayout.StmtsUnique | compiler/engine.go:182-303 | the statement layout is unambiguous: two runs of statements whose expressions stop where compileExpression stops, each followed by a token that is neither a statement keyword nor `else`, are the same statements when they read the same tokens |
| JackLayout.StmtUnique | compiler/engine.go:182-197 | one statement followed by anything but `else` is fixed by its tokens, and so is what follows it |
| JackLayout.IfUnique | compiler/engine.go:273-302 | an `if` with or without `else` is fixed by its tokens when the next token is not `else` |
| JackDeclLayout.SplitAt | compiler/engine.go:34-41 | two equal token streams cut before their first token of a given set of kinds (the kinds an expectPeek waits for) are cut at the same place |
| JackDeclLayout.ClassVarDecsUnique | compiler/engine.go:71-97 | the class variable declarations read up to the first token that is neither `static` nor `field` are fixed by their tokens |
| JackDeclLayout.VarDecsUnique | compiler/engine.go:157-180 | the local declarations read up to the first token that is not `var` are fixed by their tokens |
| JackDeclLayout.ParameterListUnique | compiler/engine.go:137-155 | a parenthesised parameter list, trailing comma included, is fixed by its tokens |
| JackDeclLayout.SubroutineUnique | compiler/engine.go:99-135 | a subroutine (kind, return type, name, parameters, locals, statements) is fixed by its tokens |
| JackDeclLayout.ClassLayoutUnique | compiler/engine.go:52-69 | two well-formed classes that read the same tokens are the same class, so the tree compileClass reads, and the code generated from it, is a function of the tokens consumed |
| JackEngine.LabelGenerator.constructor | compiler/engine.go:436 | the global label counter starts at 0 |
| JackEngine.LabelGenerator.GenLabel | compiler/engine.go:438-442 | returns `prefix.N` for the current counter N, then raises the counter by one |
| JackEngine.Engine.constructor | compiler/engine.go:20-28 | a fresh writer and an empty symbol table, with the first token loaded as lookahead |
| JackEngine.Engine.NextToken | compiler/engine.go:43-46 | the lookahead becomes the current token and one more token is consumed |
| JackEngine.Engine.ExpectPeek | compiler/engine.go:34-41 | consumes the lookahead iff its kind is one of those expected, otherwise fails (Die) |
| JackEngine.Engine.CompileTerm | compiler/engine.go:307-359 | the tokens read are the layout of the term returned, the code written is the term's code, and a parenthesised expression or a `~`/`-` operand inside it stops where its compileExpression call does, before the current lookahead |
| JackEngine.Engine.CompileKeywordConstant | compiler/engine.go:308-320 | the term is the constant read; null and false are `push constant 0`, true is `push constant 1; neg`, this is `push pointer 0` |
| JackEngine.Engine.CompileName | compiler/engine.go:321-328 | the term is the name read; a variable is pushed from its entry; an unknown name writes nothing and starts the call name |
| JackEngine.Engine.CompileStringConstant | compiler/engine.go:329-337 | the term is the literal read; `push constant len; call String.new 1`, then `push constant code; call String.appendChar 2` per character |
| JackEngine.Engine.CompileNumber | compiler/engine.go:338-344 | the term is the literal read; fails exactly when strconv.Atoi refuses it (not a decimal numeral, or above 2^63 − 1), otherwise pushes its value |
| JackEngine.Engine.CompileParen | compiler/engine.go:345-348 | `( e )` reads the parentheses around e, e stops at the `)`, and e's code is written |
| JackEngine.Engine.CompileUnary | compiler/engine.go:349-356 | `~`/`-` then an operand that stops only where its own compileExpression does, so it takes the whole rest of the expression (NotTakesRest); its code, then not or neg |
| JackEngine.Engine.CompileExpression | compiler/engine.go:304-434 | on success, the tokens read are the layout of the expression returned, the tree stops where compileExpression stops before the new lookahead (so by ExprLayoutUnique it is the only such tree for those tokens), and the code written is exactly that tree's reference code |
| JackEngine.Engine.CompileMember | compiler/engine.go:361-366 | `.name` is read exactly when '.' is the lookahead, and extends the call name with "." and the name |
| JackEngine.Engine.CompileIndex | compiler/engine.go:367-374 | `[i]` is read exactly when '[' is the lookahead, i stops at `]`; writes i's code, add, `pop pointer 1`, `push that 0` |
| JackEngine.Engine.CompileTail | compiler/engine.go:376-433 | reads one operator and the rest of the expression, or one call, or nothing (only when neither an operator nor '(' is the lookahead), each operand stopping where compileExpression does, and writes that tail's reference code |
| JackEngine.Engine.EmitOp | compiler/engine.go:377-412 | each operator's command; `*` and `/` are `call Math.multiply 2` and `call Math.divide 2` |
| JackEngine.Engine.CompileBinary | compiler/engine.go:377-412 | operators group to the right: the right operand is the whole rest of the expression, stopping where compileExpression does; its code comes first, then the operator's command |
| JackEngine.Engine.CompileCall | compiler/engine.go:413-433 | writes the arguments, each stopping at its comma or `)`, and then the call: `v.m(args)` with v a variable calls `Type.m` with one more argument, any other name is called as written with `#args` |
| JackEngine.Engine.CompileArgList | compiler/engine.go:422-432 | the arguments, each stopping at its comma or the `)`, then `)` and `call name n`, where n counts the arguments read on top of those already counted |
| JackEngine.Engine.CompileArgs | compiler/engine.go:422-430 | the comma-separated arguments up to `)`, each stopping at the comma or `)` after it, their code in order, and their count |
| JackEngine.Engine.CompileNextArg | compiler/engine.go:423-429 | one more argument and its comma, appended to those compiled so far; the argument stops at the comma or `)` after it |
| JackEngine.Engine.CompileArgSep | compiler/engine.go:425-429 | reads the comma when one is next and reports that another argument follows; otherwise reads nothing and leaves the next token as it was |
| JackEngine.Engine.CompileStatements | compiler/engine.go:130-132 | the statements up to `}`, every expression in them stopping where compileExpression does, with their code threaded through the label counter |
| JackEngine.Engine.CompileBlock | compiler/engine.go:252-256 | `{ statements }`, their expressions read as compileExpression reads them, and the statements' code |
| JackEngine.Engine.CompileStatement | compiler/engine.go:182-197 | the statement the keyword starts, with its expressions read as compileExpression reads them, and its code; any other token fails (the panic) |
| JackEngine.Engine.CompileDo | compiler/engine.go:199-204 | `do e;` with e stopping at `;`, writes e's code then `pop temp 0` |
| JackEngine.Engine.CompileLetIndex | compiler/engine.go:214-224 | `let a[i]` with i stopping at `]` writes `push a`, i's code, add, `pop pointer 1`; no index writes nothing |
| JackEngine.Engine.CompileLetValue | compiler/engine.go:226-228 | `= v ;` with v stopping at `;` writes v's code |
| JackEngine.Engine.CompileLet | compiler/engine.go:206-235 | `let a[i] = v;` is push a, i, add, pop pointer 1, v, pop that 0 (THAT set before v); `let x = v;` is v then a pop into x; an unknown name fails |
| JackEngine.Engine.CompileLetName | compiler/engine.go:209-212 | reads `let` and the variable's name |
| JackEngine.Engine.WriteLetStore | compiler/engine.go:230-234 | the store into `that 0` for an element, else into the variable; fails when the name has no entry |
| JackEngine.Engine.CompileWhileCondition | compiler/engine.go:244-249 | `( c )` with c stopping at `)` writes c's code, not, `if-goto E` |
| JackEngine.Engine.CompileWhileLoop | compiler/engine.go:244-258 | `label L`, the condition's code, not, `if-goto E`, the body block's code, `goto L`, `label E`, the condition and body read as compileExpression and compileStatements read them |
| JackEngine.Engine.CompileWhile | compiler/engine.go:237-259 | writes `label L; c; not; if-goto E; body; goto L; label E`, the labels drawn first |
| JackEngine.Engine.CompileReturn | compiler/engine.go:261-271 | `return;` writes `push constant 0; return`, `return e;` writes e's code then return |
| JackEngine.Engine.CompileIfCondition | compiler/engine.go:276-278 | `( c )` with c stopping at `)` writes c's code |
| JackEngine.Engine.CompileElse | compiler/engine.go:293-300 | an else block when else follows, nothing (and no else body) otherwise |
| JackEngine.Engine.CompileThen | compiler/engine.go:282-292 | not, `if-goto X`, the then block, `goto Y`, `label X` |
| JackEngine.Engine.CompileIfEnd | compiler/engine.go:293-301 | on success, once the then part's code is written, the else block if any and `label Y` complete the code of the whole if statement, and the tokens read are those of the whole if statement |
| JackEngine.Engine.CompileIfBranches | compiler/engine.go:282-301 | on success, once the condition's code is written and labels X and Y are drawn, the then part, the else part and `label Y` complete the code of the whole if statement |
| JackEngine.Engine.CompileIf | compiler/engine.go:273-302 | writes `c; not; if-goto X; then; goto Y; label X; [else]; label Y`, with `label Y` written even without else |
| JackEngine.Engine.CompileClassVarNames | compiler/engine.go:87-93 | each further `, name` is defined with the same type and kind, and counted |
| JackEngine.Engine.CompileTypedName | compiler/engine.go:76-80 | reads a type token and a name |
| JackEngine.Engine.DefineClassVarNames | compiler/engine.go:79-96 | defines the first name and the further ones; the count is 1 for a first field name plus every further name, whatever the storage |
| JackEngine.Engine.CompileClassVarDec | compiler/engine.go:71-97 | the declaration read, the names defined and the count are the declaration's effect on the table |
| JackEngine.Engine.CompileNextClassVarDec | compiler/engine.go:59-61 | one more declaration, on top of the effect of those before |
| JackEngine.Engine.CompileClassVarDecs | compiler/engine.go:58-61 | the class variable declarations, their effect on the table, and the summed field count |
| JackEngine.Engine.CompileParam | compiler/engine.go:140-146 | one `type name`, defined as the next argument |
| JackEngine.Engine.CompileParameterList | compiler/engine.go:137-155 | the parameters, each defined as an argument in order; the list may end in a comma |
| JackEngine.Engine.CompileVarNames | compiler/engine.go:170-176 | each further `, name` up to `;`, defined as a local |
| JackEngine.Engine.CompileLocalVarDec | compiler/engine.go:157-180 | one `var` line, its names defined as locals, and their number |
| JackEngine.Engine.CompileNextLocalVarDec | compiler/engine.go:118-120 | one more `var` line on top of those before |
| JackEngine.Engine.CompileLocals | compiler/engine.go:117-120 | the `var` lines, their effect on the table and the summed local count |
| JackEngine.Engine.CompileSignature | compiler/engine.go:100-112 | the kind, the return type and `className.name`, then the parameter list defined as arguments |
| JackEngine.Engine.CompileSignatureHead | compiler/engine.go:103-109 | reads the subroutine kind, the return type (void or a type) and the name |
| JackEngine.Engine.EmitPrologue | compiler/engine.go:123-128 | the constructor prologue, nothing for functions and methods |
| JackEngine.Engine.CompileSubroutineBody | compiler/engine.go:114-134 | `{`, the var lines, then `function name nLocals`, the prologue and the statements' code, then `}` |
| JackEngine.Engine.CompileBodyLocals | compiler/engine.go:115-120 | `{` and the var lines, which define the locals |
| JackEngine.Engine.CompileBodyStatements | compiler/engine.go:121-134 | `function name nLocals`, the prologue, the statements' code, then `}` |
| JackEngine.Engine.CompileSubroutine | compiler/engine.go:99-135 | the subroutine read and its reference code, on a reset local scope |
| JackEngine.Engine.CompileNextSubroutine | compiler/engine.go:63-67 | one more subroutine, its code after that of those before |
| JackEngine.Engine.CompileSubroutines | compiler/engine.go:63-67 | the subroutines, each compiled with the class name and the field count |
| JackEngine.Engine.CompileClass | compiler/engine.go:52-69 | on success, the tokens read are the layout of the class returned, every expression and statement in it stops where the engine stops (WfClass), so by JackDeclLayout.ClassLayoutUnique it is the only class those tokens lay out, and the code written is exactly that class's reference code |
| JackEngine.Engine.CompileClassHead | compiler/engine.go:53-56 | reads `class`, the class name and `{` |
| JackProperties.ExprNoFlow | compiler/engine.go:304-434 | an expression's code holds no label, goto or if-goto |
| JackProperties.WhileLabels | compiler/engine.go:237-259 | while's own labels are drawn at n and n + 1, around the body's |
| JackProperties.WhileJumps | compiler/engine.go:237-259 | while's if-goto and goto go to labels it defines |
| JackProperties.WhileClosed | compiler/engine.go:237-259 | while's code is closed |
| JackProperties.IfLabels | compiler/engine.go:273-302 | if's labels are drawn at n and n + 1, then the then block's, then the else block's |
| JackProperties.IfJumps | compiler/engine.go:273-302 | if's if-goto and goto go to labels it defines |
| JackProperties.IfClosed | compiler/engine.go:273-302 | if's code is closed, `label Y` included without else |
| JackProperties.StmtClosed | compiler/engine.go:182-302 | a statement's code is closed: its labels use counter values n to n' - 1 once each, and every jump lands on one of them |
| JackProperties.StmtsClosed | compiler/engine.go:130-132 | a statement sequence's code is closed |
| JackProperties.LocalsCountNames | compiler/engine.go:157-180 | nLocals is the number of names the var lines declare |
| JackProperties.SubroutineHeader | compiler/engine.go:108-128 | a subroutine's code opens with `function Class.name n`, n the number of var names with parameters not counted; a constructor's then has exactly the allocation prologue |
| JackProperties.SubroutineClosed | compiler/engine.go:99-135 | a subroutine's code is closed |
| JackProperties.SubroutinesClosed | compiler/engine.go:63-67 | the code of a run of subroutines is closed across subroutines |
| JackProperties.ClassClosed | compiler/engine.go:52-69 | a whole class's code is closed: no label is written twice and every jump lands on a label of the class |
| JackProperties.FieldCountAsWritten | compiler/engine.go:83-93 | nFields is the number of field names plus every static name after the first of its declaration |
| JackProperties.ExtraStaticCountedAsField | compiler/engine.go:87-93 | `static int a, b;` alone gives nFields 1 |
| JackProperties.ParamsAsArguments | compiler/engine.go:137-155 | distinct parameters become arguments in order, the i-th at the argument counter plus i |
| JackProperties.ArrayStoreAsWritten | compiler/engine.go:214-229 | for `let a[i] = b[j];` the code ends `pop pointer 1; push that 0; pop that 0`: the value's own index resets THAT after the address a + i was put there |
| JackProperties.ArrayStoreLost | compiler/engine.go:221-229 | with a + i in THAT and b + j on top of the stack, that ending puts b + j in THAT, reads b[j] and stores it straight back: the heap is unchanged, and a + i, put in THAT, is lost when b + j replaces it |
| JackProperties.ArrayLetCode | compiler/engine.go:214-229 | the corrected array assignment: the address, then the value's code, then the four-operation store that parks the value in temp 0 |
| JackProperties.ArrayStoreCorrected | compiler/engine.go:221-229 | whatever THAT the value's code left, the corrected store writes the value at the address a + i beneath it |
| VmParser.TrimComment | vmtranslator/parser.go:59-64 | a prefix of the line with no `//` in it; when shorter than the line, a `//` starts right after it |
| VmParser.Commands | vmtranslator/parser.go:42-57 | one non-empty field list per line that has fields |
| VmParser.ScanLine | vmtranslator/parser.go:44-53 | a line without fields adds no command; a line with fields is the next command |
| VmParser.ScanEnd | vmtranslator/parser.go:55-56 | once every line is read, every command has been found |
| VmParser.FindNext | vmtranslator/parser.go:44-56 | the loop finds the next command of the input in order, or reports that all were found |
| VmParser.CommandTypeOf | vmtranslator/parser.go:66-90 | arithmetic exactly for the nine words, each keyword its own type, failure for any other word or no fields |
| VmParser.KeywordTypes | vmtranslator/parser.go:70-85 | every keyword classifies as its own type |
| VmParser.Arg1 | vmtranslator/parser.go:92-100 | the command word for arithmetic, the second field otherwise; fails for return or a missing field |
| VmParser.Arg2 | vmtranslator/parser.go:102-114 | defined exactly for push, pop, function and call with a third field strconv.Atoi accepts (a decimal numeral up to 2^63 − 1), and then its value |
| VmParser.Parser.constructor | vmtranslator/parser.go:31-36 | no current command, the first command loaded as lookahead |
| VmParser.Parser.HasMoreCommands | vmtranslator/parser.go:38-40 | true until the last command has been made current |
| VmParser.Parser.ScanNext | vmtranslator/parser.go:44-56 | the next command of the input becomes the lookahead, or end of input is set |
| VmParser.Parser.Advance | vmtranslator/parser.go:42-57 | the lookahead becomes current, which is the next command of the input in order; at end of input the current command is empty |
| VmCodeWriter.SeqLabelInjective | vmtranslator/codewriter.go:39-42 | `prefix_N` labels are equal only for equal prefix and number, even when the prefix holds `_` |
| VmCodeWriter.DrawKeepsDistinct | vmtranslator/codewriter.go:10-14 | gen returns the key's count and raises that key alone, so every draw differs from the earlier ones |
| VmCodeWriter.DrawnLabelsDistinct | vmtranslator/codewriter.go:39-42 | distinct draws give distinct label texts, so no label is defined twice |
| VmCodeWriter.PointerRegister | vmtranslator/codewriter.go:197-205 | pointer accepts exactly indices 0 and 1 |
| VmCodeWriter.TempRegister | vmtranslator/codewriter.go:206-212 | temp accepts exactly 0..7 and maps i to R(i+5) |
| VmCodeWriter.PushLoad | vmtranslator/codewriter.go:166-215 | a load exists exactly for the accesses push accepts |
| VmCodeWriter.PushLines | vmtranslator/codewriter.go:163-220 | an accepted push is the comment, the load and the five-line push of D; everything else fails |
| VmCodeWriter.PopStore | vmtranslator/codewriter.go:247-307 | a store exists exactly for the accepted accesses |
| VmCodeWriter.PopLines | vmtranslator/codewriter.go:233-310 | pop accepts exactly what push accepts; it starts with the comment and the pop into D and R13, and ends with a blank line |
| VmCodeWriter.PushConstantLayout | vmtranslator/codewriter.go:182-184 | `push constant i` is `@i`, `D=A`, then the push of D |
| VmCodeWriter.PopConstantDiscards | vmtranslator/codewriter.go:261-264 | `pop constant` only decrements SP and copies the value to R13 |
| VmCodeWriter.RegisterSegments | vmtranslator/codewriter.go:197-212 | temp i and pointer 0/1 address R(i+5) and THIS/THAT in both directions |
| VmCodeWriter.StaticSymbolInjective | vmtranslator/codewriter.go:179-181 | two static accesses share the symbol `file.static_i` only when file and index agree |
| VmCodeWriter.ComparisonLayout | vmtranslator/codewriter.go:74-138 | eq/gt/lt compute x - y, store 0, skip the store of -1 on JNE/JLE/JGE, and the jump is taken exactly when the comparison does not hold |
| VmCodeWriter.UnknownArithmetic | vmtranslator/codewriter.go:54-160 | an unknown arithmetic command writes only its comment and a blank line |
| VmCodeWriter.QualifyInjective | vmtranslator/codewriter.go:323-326 | within one file and function, distinct VM labels give distinct `file.function$label` symbols |
| VmCodeWriter.JumpsReachLabel | vmtranslator/codewriter.go:328-352 | goto and if-goto jump to the symbol that label defines |
| VmCodeWriter.SaveLayout | vmtranslator/codewriter.go:363-368 | the call saves LCL, ARG, THIS, THAT in that order |
| VmCodeWriter.CallLayout | vmtranslator/codewriter.go:354-392 | five pushes (return address, LCL, ARG, THIS, THAT), ARG = SP - (nArgs + 5), LCL = SP, the jump, then the return label |
| VmCodeWriter.RepeatPushDLayout | vmtranslator/codewriter.go:402-404 | n pushes are n consecutive copies of the push of D |
| VmCodeWriter.FunctionLayout | vmtranslator/codewriter.go:394-407 | the entry label, D=0, and exactly nLocals pushes (none when nLocals <= 0) |
| VmCodeWriter.RestoreLayout | vmtranslator/codewriter.go:431-440 | return restores THAT, THIS, ARG, LCL from LCL-1 .. LCL-4 |
| VmCodeWriter.ReturnLayout | vmtranslator/codewriter.go:409-449 | `*(LCL-5)` is saved in R15 before the result is popped into argument 0; then SP = ARG + 1, the frame restored and the jump through R15 |
| VmCodeWriter.SaveFrameLines | vmtranslator/codewriter.go:364-368 | WriteCall's loop writes the saved frame of its registers |
| VmCodeWriter.PushDTimes | vmtranslator/codewriter.go:402-404 | WriteFunction's loop writes Iterations(nLocals) pushes |
| VmCodeWriter.RestoreFrameLines | vmtranslator/codewriter.go:432-440 | WriteReturn's loop writes the restore of its registers with offsets 1.. |
| VmCodeWriter.CodeWriter.constructor | vmtranslator/codewriter.go:23-28 | empty output and an empty generator |
| VmCodeWriter.CodeWriter.SetFilename | vmtranslator/codewriter.go:30-32 | sets the current file and nothing else |
| VmCodeWriter.CodeWriter.Write | vmtranslator/codewriter.go:34-37 | appends the lines in order and nothing else |
| VmCodeWriter.CodeWriter.WritePushD | vmtranslator/codewriter.go:222-231 | appends the five lines that push D |
| VmCodeWriter.CodeWriter.Gen | vmtranslator/codewriter.go:10-14 | returns the key's count (0 the first time) and raises that key alone |
| VmCodeWriter.CodeWriter.GenSequentialLabel | vmtranslator/codewriter.go:39-42 | returns `prefix_N` for a draw never made before by this writer, keeping all draws distinct |
| VmCodeWriter.CodeWriter.WriteArithmetic | vmtranslator/codewriter.go:44-161 | a comparison draws a fresh END_SET_TRUE label and writes its layout; any other command writes its lines without drawing |
| VmCodeWriter.CodeWriter.WritePush | vmtranslator/codewriter.go:163-220 | succeeds exactly for an accepted access and writes PushLines; otherwise only the comment is written |
| VmCodeWriter.CodeWriter.WritePop | vmtranslator/codewriter.go:233-310 | succeeds exactly for an accepted access and writes PopLines; otherwise it writes the comment and the pop into R13 |
| VmCodeWriter.CodeWriter.WritePushPop | vmtranslator/codewriter.go:312-321 | push or pop by command type; any other type fails and writes nothing |
| VmCodeWriter.CodeWriter.WriteLabel | vmtranslator/codewriter.go:328-332 | appends the qualified label definition |
| VmCodeWriter.CodeWriter.WriteGoto | vmtranslator/codewriter.go:334-339 | appends the jump to the qualified label |
| VmCodeWriter.CodeWriter.WriteIf | vmtranslator/codewriter.go:341-352 | appends the pop and the jump on nonzero to the qualified label |
| VmCodeWriter.CodeWriter.WriteCall | vmtranslator/codewriter.go:354-392 | draws a fresh RETURN_ADDR label and writes CallLines with it |
| VmCodeWriter.CodeWriter.WriteFunction | vmtranslator/codewriter.go:394-407 | the function becomes current and FunctionLines are written |
| VmCodeWriter.CodeWriter.WriteReturn | vmtranslator/codewriter.go:409-449 | writes ReturnLines of the current function |
| VmCodeWriter.CodeWriter.WriteInit | vmtranslator/codewriter.go:451-461 | SP = 256, Sys.init becomes current, then the call of Sys.init with a fresh return label |
| HackCommands.Command.Type | projects/06/assembler/commands.go:23-51 | three distinct tags, one per kind of command |
| HackParser.CommentAt | projects/06/assembler/parser.go:100 | an offset between the start and the end of the line |
| HackParser.CommentAtFirst | projects/06/assembler/parser.go:100-102 | the first `//`: one starts there unless none exists, and none starts before |
| HackParser.CleanLine | projects/06/assembler/parser.go:99-103 | what is kept of a line is trimmed |
| HackParser.CleanLineIsTrimSpace | projects/06/assembler/parser.go:99-103 | it is TrimSpace of the text before the first `//` |
| HackParser.CleanLineHasNoComment | projects/06/assembler/parser.go:99-103 | it holds no `//` |
| HackParser.TokensAreClean | projects/06/assembler/parser.go:92-109 | no token is empty, has white space around it or holds a comment |
| HackParser.ScanLine | projects/06/assembler/parser.go:94-108 | a blank line adds no token; a line with text left adds the next token |
| HackParser.ScanEnd | projects/06/assembler/parser.go:95-98 | once every line is read, every token has been found |
| HackParser.NextTokenInOrder | projects/06/assembler/parser.go:92-109 | successive scans yield the tokens one by one in order, and nothing exactly when all were taken |
| HackParser.ScanCommand | projects/06/assembler/parser.go:92-109 | the loop skips blank lines and stops after the first line with text left |
| HackParser.ParseA | projects/06/assembler/parser.go:139-146 | the symbol is everything after `@` |
| HackParser.ParseC | projects/06/assembler/parser.go:148-161 | a C-command with all three parts trimmed |
| HackParser.ParseL | projects/06/assembler/parser.go:163-172 | succeeds iff the token ends in `)`, with a trimmed symbol from inside the parentheses |
| HackParser.Parse | projects/06/assembler/parser.go:128-137 | `@` gives an A-command, `(` a label or an error, anything else a C-command; it fails only for a `(` token not ending in `)` |
| HackParser.ParseAString | projects/06/assembler/parser.go:139-146 | parsing a printed A-command gives it back |
| HackParser.ParseLString | projects/06/assembler/parser.go:163-172 | parsing a printed label with a trimmed symbol gives it back |
| HackParser.ParseCString | projects/06/assembler/parser.go:148-161 | parseCCommand inverts String for parts that are trimmed, with no `=` in dest and no `;` in comp |
| HackParser.ParseCommandString | projects/06/assembler/parser.go:128-161 | the same through parse, when dest does not start with `@` or `(` |
| HackParser.ParseCWithoutJump | projects/06/assembler/parser.go:148-161 | `dest=comp` gives the trimmed parts and an empty jump, so `D  = M` prints as `D=M;` |
| HackParser.ParseCWithoutDest | projects/06/assembler/parser.go:148-161 | `comp;jump` gives an empty dest and the trimmed parts, so `0; JMP` prints as `=0;JMP` |
| HackParser.Parser.constructor | projects/06/assembler/parser.go:70-78 | nothing read, no current command, not at end |
| HackParser.Parser.HasMoreCommand | projects/06/assembler/parser.go:80-82 | false only once an Advance found no token left |
| HackParser.Parser.Scan | projects/06/assembler/parser.go:92-118 | the next token of the input in order, or end of input |
| HackParser.Parser.Advance | projects/06/assembler/parser.go:111-126 | the next token parsed into the current command, an unparsable token being fatal; with no token left, only eof is set |
| HackCode.JumpBits | projects/06/assembler/code.go:20-29 | jump bits lie in bits 2..0 |
| HackCode.DestBits | projects/06/assembler/code.go:30-39 | dest bits lie in bits 5..3 |
| HackCode.CompBits | projects/06/assembler/code.go:40-69 | comp bits lie in bits 12..6 |
| HackCode.CWord | projects/06/assembler/code.go:81-85 | bits 15..13 are set and masking recovers each of the three fields, which are therefore disjoint |
| HackCode.AWord | projects/06/assembler/code.go:74-80 | defined exactly for a decimal numeral up to 65535, and then its value |
| HackCode.CommandToBinaryCode | projects/06/assembler/code.go:72-89 | an A-command is its value or an error, a C-command its word (at least 0xE000), and a label has no encoding (the panic) |
| HackCode.JumpRoundTrip | projects/06/assembler/code.go:20-29 | decoding a jump code gives back its mnemonic |
| HackCode.DestRoundTrip | projects/06/assembler/code.go:30-39 | decoding a dest code gives back its mnemonic |
| HackCode.CompRoundTrip | projects/06/assembler/code.go:40-69 | decoding a comp code gives back its mnemonic |
| HackCode.CWordRoundTrip | projects/06/assembler/code.go:81-85 | disassembling the word of known mnemonics gives back dest, comp and jump |
| HackCode.CWordInjective | projects/06/assembler/code.go:81-85 | distinct known C-commands have distinct words |
| HackCode.UnknownMnemonics | projects/06/assembler/code.go:82-84 | an unknown mnemonic encodes as 0 in its own field whatever the other two are; with all three unknown the word is the marker alone |
| HackCode.ACommandBelowCInstructions | projects/06/assembler/code.go:72-85 | an A-value below 32768 never equals a C-instruction word |
| HackCode.JumpBitsMeaning | projects/06/assembler/code.go:8-29 | the jump bits mean jump if positive, zero or negative, as the mnemonic says |
| HackCode.DestBitsMeaning | projects/06/assembler/code.go:11-39 | each dest bit is set exactly when its register's letter is in the mnemonic |
| HackCode.ABitMeaning | projects/06/assembler/code.go:40-69 | the a-bit is set exactly for the computations that read M |
| AsmCode.TablesAgree | assembler/code.go:19-69 | the three tables equal the other copy's, entry for entry |
| AsmCode.ConvertACommand | assembler/code.go:72-79 | the value when the symbol is a decimal up to 65535, otherwise an error |
| AsmCode.LookupsAgree | assembler/code.go:82-84 | every lookup gives the other copy's field bits, an unknown mnemonic 0 |
| AsmCode.ConvertCCommand | assembler/code.go:81-86 | the word is the other copy's C-instruction word |
| AsmCode.ConvertAgrees | assembler/code.go:72-86 | the two copies encode every A- and C-command alike |
| HackSymbols.Inc | projects/06/assembler/symboltable.go:55 | the uint16 increment wraps 0xFFFF to 0 |
| HackSymbols.PredefinedOutsideVariables | projects/06/assembler/symboltable.go:12-37 | every predefined symbol lies below 16 or at SCREEN and above |
| HackSymbols.LabelsConsumeRomAddresses | projects/06/assembler/symboltable.go:59-67 | in `(START) @1 (LOOP) 0;JMP` the pass as written binds LOOP to 2, the intended pass to 1 |
| HackSymbols.LabelsAsWrittenValue | projects/06/assembler/symboltable.go:59-67 | as written, a label last defined at position i is bound to i |
| HackSymbols.LabelsValue | projects/06/assembler/symboltable.go:59-67 | as intended, a label last defined at position i is bound to the number of instructions before it |
| HackSymbols.LabelsKeepOthers | projects/06/assembler/symboltable.go:59-67 | a symbol that is not a label keeps its binding, in both passes |
| HackSymbols.SymbolTable.constructor | projects/06/assembler/symboltable.go:10-39 | the predefined symbols, variables from 16 |
| HackSymbols.SymbolTable.GetAddress | projects/06/assembler/symboltable.go:41-44 | ok iff the key is bound, and then its address |
| HackSymbols.SymbolTable.AddEntry | projects/06/assembler/symboltable.go:46-48 | binds or rebinds the key without moving the allocator |
| HackSymbols.SymbolTable.AddAutoEntry | projects/06/assembler/symboltable.go:50-57 | binds the key to the next free address, returns it and moves the allocator on by one |
| HackSymbols.SymbolTable.LoadLabelAddress | projects/06/assembler/symboltable.go:59-67 | the table after the first pass as written (labels advance romAddr too) |
| HackSymbols.SymbolTable.LoadLabels | projects/06/assembler/symboltable.go:59-67 | the table after the corrected first pass (only instructions advance romAddr) |
| AsmMain.Ext | assembler/main.go:13 | a suffix of the path that is empty or starts with '.' |
| AsmMain.AsmExtension | assembler/main.go:12-16 | the extension is `.asm` exactly when the name ends in `.asm` |
| AsmMain.HackFileName | assembler/main.go:12-35 | refused unless the name ends in `.asm`; otherwise the same path with `.hack` |
| AsmMain.Binary16 | assembler/main.go:65 | `%016b`: sixteen binary digits |
| AsmMain.BitsValue | assembler/main.go:65 | the digits of a number below 2^len read back as that number |
| AsmMain.BitsTop | assembler/main.go:65 | the leading digit is 1 exactly when the number is at least 2^(len-1) |
| AsmMain.Binary16Value | assembler/main.go:65 | each output line reads back as its word |
| AsmMain.Binary16Top | assembler/main.go:65 | the first digit is set exactly for words of 32768 and above |
| AsmMain.Lines | assembler/main.go:45-66 | one line per word, each that word's `%016b` |
| AsmMain.Resolve | assembler/main.go:46-64 | a label emits nothing, any other command exactly one word after those before; it fails exactly for an out-of-range numeric A-command |
| AsmMain.PassFails | assembler/main.go:62-64 | the second pass fails exactly when some numeric A-command is out of range |
| AsmMain.PassWords | assembler/main.go:45-66 | one word per A/C command, appended to those before |
| AsmMain.PassKeepsBindings | assembler/main.go:52-56 | a bound symbol keeps its address through the pass |
| AsmMain.WordAt | assembler/main.go:45-66 | the word at an instruction's position is its C-word, its numeric value, or its symbol's final address |
| AsmMain.RepeatedSymbol | assembler/main.go:52-56 | every occurrence of a symbol encodes as the same address, so a new symbol reuses its first allocation |
| AsmMain.BoundSymbol | assembler/main.go:52-53 | a symbol bound before the pass encodes as that binding |
| AsmMain.Assemble | assembler/main.go:30-66 | main.go's assembly, LoadLabelAddress then the second pass: one output line per instruction |
| AsmMain.AssembleFrom | assembler/main.go:42-66 | the second pass from a table succeeds exactly when Pass does, with one line per instruction, each its word's `%016b` |
| AsmMain.AssembleIntended | assembler/main.go:30-66 | the assembly with the intended first pass: one output line per instruction |
| AsmMain.AssembleFailsAlike | assembler/main.go:62-64 | both assemblies fail exactly when some numeric A-command is out of range |
| AsmMain.LabelReferenceAsWritten | assembler/main.go:30-66 | as main.go runs it, `@L` for a label L last defined at position i of the command list encodes as i, labels counted |
| AsmMain.LabelReference | assembler/main.go:30-66 | with the intended first pass, `@L` for a label L encodes as the ROM address of the instruction after the label |
| AsmMain.JumpTargetAsWritten | assembler/main.go:30-66 | for `(START) @1 (LOOP) 0;JMP @LOOP` main.go writes the line of 2 for `@LOOP`, the intended pass the line of 1 |
| AsmMain.LoopProgram | assembler/main.go:30-66 | the example program has three instructions, with one instruction before (LOOP) and two before `@LOOP`, and no out-of-range number |
| AsmMain.LoopTargetAsWritten | assembler/main.go:30-66 | in a program of that shape main.go writes the `@LOOP` line as that of 2 |
| AsmMain.LoopTargetIntended | assembler/main.go:30-66 | in a program of that shape the intended first pass makes the `@LOOP` line that of 1 |
| AsmMain.ResolveCommand | assembler/main.go:46-64 | one iteration of the loop does what Resolve says, through GetAddress and AddAutoEntry |
| AsmMain.SecondPass | assembler/main.go:44-66 | the loop writes the lines of the pass on the table the first pass filled, or fails as the pass does |
| AsmMain.Run | assembler/main.go:30-66 | main with LoadLabelAddress: succeeds exactly when Assemble does, and writes its lines |
| AsmMain.RunIntended | assembler/main.go:30-66 | main with the intended first pass: succeeds exactly when AssembleIntended does, and writes its lines |

## Left out

- Command-line handling, file opening and creation, `Die`, `Assert` and `os.Exit` are not modelled; a failure is a `false` or `None` result. compiler/main.go, vmtranslator/main.go and projects/06/assembler/main.go are not part of this model.
- `bufio.Scanner` and `io.Writer` are not modelled. Input is a sequence of lines or characters, given to the constructors. Output is an append-only sequence of lines (`out`) or of VM operations (`ops`).
- Unicode is reduced to ASCII. `unicode.IsSpace` and `unicode.IsDigit` are the ASCII classes, and `bytesToRunes` is the identity on `seq<char>`.
- `strconv.Atoi`, `ParseUint` and `%d` are a decimal-digit specification. Signs and leading `+` are not accepted by the model. Atoi's range error on 64-bit int is modelled (Text.Atoi: a numeral above 2^63 − 1 is refused).
- Jack engine tokens: engine.go uses per-symbol token kinds (`TokenClass`, `TokenLBrace`, …) that compiler/token.go does not declare. The engine is modelled on its own kind datatype (JackSyntax.Kind), over a token sequence given as input. Converting the tokenizer's Keyword/Symbol tokens into those kinds is not in the source and is not modelled.
- JackTokenizer.Tokenizer.ReadString: where tokenizer.go loops forever on an unterminated string, the model returns failure.
- JackTokenizer.Tokenizer.CurrentLineNum: engine.go:40 calls it, but neither compiler/tokenizer.go nor compiler/engine.go defines it, so the model reads the `lineNum` field.
- JackEngine.Engine.CompileClass, JackEngine.Engine.CompileExpression: only correctness on success is proved. Every compile method of the engine states what holds when it returns true: what it read, what it wrote, and where it stopped. None of them states the converse, that it returns true whenever the tokens ahead lay out a tree with code. A method that always failed would meet these contracts. A proof of the converse through the engine's methods did not fit the verifier's resource limit per method, so it is left out for the expression, statement and declaration methods alike.
- JackEngine.Engine.CompileExpression: as for CompileClass on the line above, a well-formed expression is not proved to compile. When it does compile, JackLayout.ExprLayoutUnique makes the tree read, and so the code written, a function of the tokens consumed.
- JackEngine.Engine.CompileCall: computes the callee and the argument count through the reference function Callee instead of string surgery on `fn`. A method-call prefix `.m` without a variable entry fails, where the source dereferences nil.
- JackEngine.Engine.CompileSubroutine: the constructor prologue is chosen by the kind literal `"constructor"`, which the tokenizer's keyword table would never produce (its spelling is `constractor`).
- `Parse()`, called by LoadLabelAddress (projects/06/assembler/symboltable.go:61) and by assembler/main.go:45, is not defined in projects/06/assembler/parser.go. Both passes therefore take the command list as a `seq<Command>`.
- `SymbolIsDigit` (projects/06/assembler/commands.go:20) is assigned nowhere in projects/06/assembler/*.go, assembler/code.go or assembler/main.go. It is modelled as "the symbol is a non-empty run of decimal digits".
- `uint16` words are integers 0..65535. `bv16` is used only for the mnemonic tables and the bitwise OR.
- AsmMain.Ext: `filepath.Ext` is modelled with `/` as the only separator.
- AsmMain.Run, AsmMain.RunIntended: on a conversion error only failure is reported. The lines written before the error are not modelled.
- VmCodeWriter.CodeWriter.WriteArithmetic: the comparisons are described by their layout and by the jump condition over unbounded integers. The 16-bit wrap-around of `x - y` on the Hack CPU is not modelled.
- Execution of the emitted Hack assembly or VM code is not simulated. The properties are about the emitted text.
- vmtranslator/main.go, which loops over the parser and dispatches to the code writer, is not part of this model.
- `isValidSymbol`, called by projects/06/assembler/parser_test.go:152, is not defined in projects/06/assembler/, so it is not modelled. The generic `Set` of utils.go is not modelled either.
- compiler/ast.go, compiler/engine_test.go and compiler/main.go are not modelled. They declare an AST API that engine.go does not have.
- The parser test's normalised forms (`D  = M` to `D=M;`, `0; JMP` to `=0;JMP`) are covered by HackParser.ParseCWithoutJump and HackParser.ParseCWithoutDest for every input of that shape. No lemma names the literal strings themselves.

## Findings

| source | as written | input that shows it | evidently intended | confidence | as-written member | corrected member |
|---|---|---|---|---|---|---|
| compiler/engine.go:328 | `Segment(entry.Scope)` converts the integer Scope to a one-character string ("\x00" to "\x03") | any variable read, e.g. `return x;` with `var int x;` gives `push \x03 0` (the pop of `let x = 1;` at engine.go:233 converts the same way) | push and pop the variable's segment: static, this, argument or local | high, not executed | JackCodegen.RawScopeSegmentNamesNoSegment | JackCodegen.ScopeSegmentInjective |
| compiler/symboltable.go:25-36 | NewSymbolTable leaves `nextIndex` nil, so the increment in issueIndex panics on the first Define | any class with a variable, e.g. `class A { field int x; }` | counters start at 0 for each kind | high, not executed | JackSymbols.FirstDefinePanicsAsWritten | JackSymbols.FreshCountersStartAtZero |
| projects/06/assembler/symboltable.go:59-67 | romAddr is incremented after every command, labels included | `(START) @1 (LOOP) 0;JMP @LOOP`: LOOP is bound to 2 and `@LOOP` is written as 0000000000000010, but the instruction after (LOOP) is at ROM address 1 | only A- and C-commands advance romAddr, so a label is bound to the address of the next instruction | high, not executed | AsmMain.JumpTargetAsWritten | AsmMain.LabelReference |
| compiler/engine.go:214-229 | `pop pointer 1` for the target a[i] is written before the value is compiled, and a value that indexes an array pops pointer 1 again | `let a[i] = b[j];` ends `pop pointer 1; push that 0; pop that 0`, so b[j] is written back to itself and a[i] is never stored | compute the value first, park it in temp 0, then pop the address into pointer 1 and store | high, not executed | JackProperties.ArrayStoreAsWritten | JackProperties.ArrayStoreCorrected |

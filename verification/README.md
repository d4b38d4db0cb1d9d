# cheelang toolchains, modelled in Dafny

The repository holds three small toolchains for the same toy language.

- An LLVM compiler written in TypeScript.
  - `source/lexer.ts` is a line-by-line, regex-table lexer with `next(peek)`.
  - `source/parser/parser.ts` is a recursive-descent and precedence-climbing parser. It builds the AST of `source/parser/ast.ts`.
  - `source/generator/generator.ts` lowers that AST into LLVM IR. It uses the instruction, `llvm` and assembly helpers beside it.
- A C++ transpiler written in TypeScript.
  - `source/parser.ts` is its parser.
  - `source/gen/generator.ts` and `source/gen/func.ts` print C++ text. They dispatch on node classes that `source/parser.ts` does not define, so the parser never builds them: `while`, `break`, function declarations and returns, namespaces, classes, `new`, property access and `use`. The model gives those classes the fields the two printers read.
- An interpreter written in JavaScript.
  - `src/lexer.js` lexes the whole text up front.
  - `src/parser.js` parses it.
  - `src/interpreter/interpreter.js` walks the tree with nested scopes.

The model keeps each file's own form.

- Objects whose methods move a cursor or fill a buffer are Dafny classes. Each such method is proved against a pure specification function. Examples: the lexers, the parsers, the IR builder and the interpreter.
- Pure tree-to-text and tree-to-value code is written as functions.
- Errors that the source throws are `Err` values of a `Result` type. Each `Err` carries the source's message text, with two exceptions. A TypeError from reading a property of `undefined` is the fixed `Results.UndefinedRead`, which does not name the property read. A case the model leaves out fails with `ScriptInterpreter.Unmodelled`, which is no message of the source.

Shared modules:
- `Results` holds `Option` and `Result`.
- `Text` models the JavaScript string methods that the code relies on: `trim`, `split`, `substring`, `indexOf`, `replace`, `parseInt`, `String(n)`.
- `Patterns` models the regular-expression token tables.
- `Tokens` models the token record and the `eat` step of the parsers.

The lemmas state what the code promises. This includes:
- operator precedence and associativity in each parser;
- one-token look-ahead that never consumes;
- peek/next agreement in the lexers;
- the blocks and branches that each `if`, `while` and `for` creates, and scope save and restore for any body, in the IR generator;
- the scoping, aliasing and error behaviour of the interpreter;
- round trips such as parsing a printed number back.

## Model

| member | source | states |
|---|---|---|
| `Text.Split` | source/lexer.ts:73 | splitting on a one-character separator gives at least one piece, and no piece contains the separator |
| `Text.SplitJoin` | source/lexer.ts:73 | joining the pieces of a split with the separator gives the text back |
| `Text.Trim` | source/lexer.ts:73 | the trimmed line neither starts nor ends with white space and is no longer than the line |
| `Text.TrimIsSlice` | source/lexer.ts:73 | the trimmed line is the slice of the line that starts after its leading white space, and everything cut before and after that slice is white space |
| `Text.IndexOf` | source/lexer.ts:92 | the result is the leftmost position where the pattern occurs; when there is none, it occurs nowhere |
| `Text.ReplaceFirst` | source/lexer.ts:92 | only the leftmost occurrence is replaced; a text without the pattern is unchanged |
| `Text.ParseNatToString` | src/interpreter/interpreter.js:72 | `parseInt` of the decimal notation of a natural number gives that number back |
| `Lexer.TrimAll` | source/lexer.ts:73 | the lexer keeps one trimmed line per input line, in order |
| `Lexer.CommentLineTrimmed` | source/lexer.ts:86 | a line counts as a comment exactly when its trimmed text starts with `#` |
| `Lexer.BlankLines` | source/lexer.ts:92 | removing only the first space means exactly the empty line and a lone space are blank |
| `Lexer.Step` | source/lexer.ts:80-117 | `next(peek)` as a function of the lines and the line index: it keeps the number of lines and never moves the line index back |
| `Lexer.SkippedLine` | source/lexer.ts:86-89 | on a comment or blank line, `next` gives what it gives from the following line |
| `Lexer.SkipYields` | source/lexer.ts:110-114 | a result reached from the following line is also reached from a skipped line |
| `Lexer.MatchedLine` | source/lexer.ts:92-109 | a line holding text goes to the pattern loop |
| `Lexer.OnLine` | source/lexer.ts:93-116 | the pattern loop keeps the number of lines and never moves the line index back |
| `Lexer.Emit` | source/lexer.ts:105-107 | a token spans the length of the matched text, carries that text, the pattern's name and the current line; its column is stated by `Lexer.TokensAreNotWhitespace` |
| `Lexer.Lexer.constructor` | source/lexer.ts:72-75 | the lines are split on newlines and trimmed; the untouched copy equals them and the lexer starts on line 0 |
| `Lexer.Lexer.CurrentLine` | source/lexer.ts:123-125 | the current line, or undefined once past the last line |
| `Lexer.Lexer.Next` | source/lexer.ts:80-117 | the new lines, line index and returned token are exactly what `Step` gives for the old state |
| `Lexer.Lexer.NextLine` | source/lexer.ts:86-89 | on a skipped line, the call agrees with `Step` on the old state |
| `Lexer.Lexer.NextOnLine` | source/lexer.ts:92-116 | the pattern loop on the current line agrees with `OnLine` on the old state |
| `Lexer.PeekThenNext` | source/lexer.ts:100 | a peek followed by `next` leaves the same state as `next` alone |
| `Lexer.PeekTwice` | source/lexer.ts:100 | a second peek changes nothing and returns the same token: peeking only cuts white space |
| `Lexer.Shifted` | source/lexer.ts:105-107 | the token that `next` returns after a peek: same text, pattern and line, but starting at the peeked token's end |
| `Lexer.NextAfterPeek` | source/lexer.ts:100-107 | after a peek, `next` returns the peeked token with its columns shifted by its own length, since the line is cut before `from` is computed |
| `Lexer.TokensAreNotWhitespace` | source/lexer.ts:102-107 | a returned token, by `peek` or by `next`, is never white space, is non-empty, spans `to - from == length`, carries the line the lexer stands on, and starts at the number of characters already cut from that trimmed line |
| `Lexer.UndefinedIsFinal` | source/lexer.ts:83 | once `next` returns undefined, calling it again changes nothing and returns undefined again |
| `Lexer.OnlyFrontsAreCut` | source/lexer.ts:100 | every line is a suffix of what it was; lines before the start line and after the end line are untouched |
| `Patterns.Run` | source/lexer.ts:4 | a character-class run is the longest prefix whose characters are all in the class |
| `Patterns.FirstPrefix` | source/lexer.ts:8 | an alternation takes the first alternative that is a prefix, and it takes something whenever one is |
| `Patterns.StringLiteral` | source/lexer.ts:3 | a string-literal match opens and closes with a quote and holds none in between |
| `Patterns.FindFirst` | source/lexer.ts:93-98 | the loop over the table's keys returns what `FirstMatch` specifies |
| `Patterns.FirstMatchIsFirst` | source/lexer.ts:93-98 | the chosen pattern matches, and every pattern before it in table order does not; when none is chosen, none matches |
| `Patterns.WhitespaceName` | source/lexer.ts:9 | exactly the white-space pattern is named `WHITESPACE` |
| `Patterns.TablesShareOrder` | source/lexer.ts:3-19 | both lexers try the first seventeen patterns in the same order |
| `Patterns.WordSkipsSymbols` | source/lexer.ts:3-16 | a word that starts with a lower-case letter other than `t` and `f` passes every symbol pattern |
| `Patterns.KeywordBeforeIdentifier` | source/lexer.ts:18 | `if` is matched by the `IF_STATEMENT` pattern before `IDENTIFIER` can take it, and only the two letters are taken |
| `Patterns.DoubleEqualsIsRelational` | source/lexer.ts:8 | `==` is one relational-operator token and never two `EQUALS` tokens |
| `Patterns.DotIsArithmetic` | source/lexer.ts:7 | the range `+-/` in the arithmetic class admits `.`, so `.` lexes as an arithmetic operator |
| `Patterns.FirstPrefixMiss` | source/lexer.ts:8 | an alternation matches nothing when no alternative starts with the text's first character |
| `Patterns.FirstPrefixSkip` | source/lexer.ts:8 | alternatives that do not match can be skipped without changing the match |
| `Patterns.RelationalStart` | source/lexer.ts:8 | a relational operator starts with one of `& \| < > = !` |
| `Patterns.EqualsPairMatched` | source/lexer.ts:8 | the relational pattern takes both characters of `==` |
| `ScriptLexer.NearestMatch` | src/lexer.js:130-144 | the match record holds the matched prefix, the pattern name and the line, with `to - from` the match length |
| `ScriptLexer.NextTokenInString` | src/lexer.js:112-125 | a token found is a non-empty prefix of the input, never a reserved identifier, on the given line, with `from` the input length less five |
| `ScriptLexer.Tokenize` | src/lexer.js:67-85 | on success the tokens' texts concatenate to the input, all on the given line |
| `ScriptLexer.TokenizeErr` | src/lexer.js:75-76 | tokenizing fails only with `Unexpected string.` |
| `ScriptLexer.TokenizeFront` | src/lexer.js:72-81 | tokenizing is the first token followed by tokenizing the rest of the input |
| `ScriptLexer.ColumnsCountDown` | src/lexer.js:136-141 | columns are measured from the end of the rest of the input: each token's `from` is the previous one's less the previous text's length |
| `ScriptLexer.NonWhitespace` | src/lexer.js:52 | the kept tokens are exactly the non-white-space tokens of the line |
| `ScriptLexer.NonWhitespaceKeeps` | src/lexer.js:52 | a token is kept exactly when it was produced and is not white space |
| `ScriptLexer.KeptOnLine` | src/lexer.js:52 | filtering keeps every token on its line |
| `ScriptLexer.LexLine` | src/lexer.js:52 | a lexed line yields non-white-space tokens on that line |
| `ScriptLexer.LineResults` | src/lexer.js:49-54 | one lexing result per line |
| `ScriptLexer.CollectClean` | src/lexer.js:49-54 | the collected tokens are free of white space; a failure is `Unexpected string.` |
| `ScriptLexer.FailurePersists` | src/lexer.js:75-76 | once a line fails, the whole lexing fails with that line's error |
| `ScriptLexer.LinesInOrder` | src/lexer.js:49-54 | the collected tokens' line numbers never decrease |
| `ScriptLexer.LexedInOrder` | src/lexer.js:40-55 | the lexed array lists the lines in order and holds no white space |
| `ScriptLexer.Lexer.Create` | src/lexer.js:40-55 | the constructor succeeds exactly when every line lexes; the lines, the tokens and position 0 are then what `Lex` specifies |
| `ScriptLexer.Lexer.LexLines` | src/lexer.js:49-54 | the loop over the lines collects what `Collect` specifies |
| `ScriptLexer.Lexer.TokenizeLine` | src/lexer.js:67-85 | the loop equals `Tokenize` |
| `ScriptLexer.Lexer.GetNextTokenInString` | src/lexer.js:112-125 | the loop over the table equals `NextTokenInString` |
| `ScriptLexer.Lexer.Peek` | src/lexer.js:60-62 | `peek` returns the token after the current one, not the current one, and undefined past the end |
| `ScriptLexer.At` | src/lexer.js:61 | an array read gives the element within bounds and undefined outside |
| `ScriptLexer.NextToken` | src/lexer.js:90-97 | `getNextToken` returns the token at the position and moves one step on, except at the end, where it returns undefined and stays |
| `ScriptLexer.PreviousToken` | src/lexer.js:102-107 | `getPreviousToken` returns undefined at 0; otherwise it returns the token at the old position, not the previous one, and steps back |
| `ScriptLexer.Lexer.GetNextToken` | src/lexer.js:90-97 | the new position and the token returned are what `NextToken` gives; the tokens are unchanged |
| `ScriptLexer.Lexer.GetPreviousToken` | src/lexer.js:102-107 | the new position and the token returned are what `PreviousToken` gives |
| `ScriptLexer.ReadsInOrder` | src/lexer.js:90-97 | `k` reads from a position return the next `k` tokens, in order |
| `ScriptLexer.PreviousAfterNext` | src/lexer.js:96-106 | `getPreviousToken` right after `getNextToken` restores the position but returns the token after the one just read |
| `ScriptLexer.PeekIsSecondRead` | src/lexer.js:60-62 | `peek` shows the token that the second `getNextToken` will return |
| `ScriptLexer.ScriptTableOrder` | src/lexer.js:3-24 | the interpreter's table tries the shared patterns, then `RETURN_STATEMENT`, `VARIABLE_DEFINITION` and `IDENTIFIER` |
| `ScriptLexer.KeywordsNeverReserved` | src/lexer.js:117-118 | an identifier match is never `if`, `else`, `return` or `let`, because their patterns come first |
| `ScriptLexer.TypeNameIsIdentifier` | src/lexer.js:23 | `boolean`, `string` and `number` are matched by `IDENTIFIER` |
| `ScriptLexer.TypeNameRejected` | src/lexer.js:26-27 | a type name is reserved, so it fails with `Unexpected string.` |
| `ScriptLexer.ReservedRejected` | src/lexer.js:117-118 | a reserved identifier matched as `IDENTIFIER` makes tokenizing fail |
| `ScriptLexer.SemicolonMatchesNothing` | src/lexer.js:3-24 | no pattern matches `;` |
| `ScriptLexer.SemicolonRejected` | src/lexer.js:42 | a `;` left after the first is replaced is rejected with `Unexpected string.` |
| `Ast.NewDataTypeArray` | source/parser/ast.ts:19-23 | an array type keeps its element type and size flag; the size defaults to 64 |
| `Ast.TagIdentifiesClass` | source/parser/ast.ts:28-183 | two nodes share a `type` string exactly when they come from the same class, and no node has the array or parameter tag, so dispatching on `type` dispatches on the class |
| `LlvmText.Texts` | source/generator/llvm.ts:119 | each part is printed by its own `toString`, in order |
| `LlvmText.Llvm.constructor` | source/generator/llvm.ts:106 | a new module holds no parts |
| `LlvmText.Llvm.DefineFunction` | source/generator/llvm.ts:111-113 | defining a function appends exactly one function part and keeps the earlier parts |
| `LlvmText.Llvm.ToString` | source/generator/llvm.ts:118-120 | an empty module prints as the empty text, and a one-part module prints as that part |
| `LlvmText.DefinitionAppendsLine` | source/generator/llvm.ts:111-120 | after a definition, the module's text is the old text, a newline and the new function's text |
| `LlvmText.BlockCommaJoined` | source/generator/llvm.ts:94 | block items are joined by a bare comma, which is JavaScript's default array-to-text |
| `LlvmText.VoidFunctionHeader` | source/generator/llvm.ts:79-94 | a `void` function with one `i32 x` parameter prints as `define void @name(i32 x) {` followed by an empty line and `}` |
| `LlvmInstructions.IntegerType` | source/generator/instructions.ts:37-39 | an integer type prints as `i` and its width, and ends in `*` exactly when it is a pointer |
| `LlvmInstructions.IntegerWidthReadsBack` | source/generator/instructions.ts:37-39 | the width reads back from the type's text |
| `LlvmInstructions.StringType` | source/generator/instructions.ts:26-30 | a string constant is addressed through a `getelementptr` on an `i8` array two longer than the text |
| `LlvmInstructions.DefineExtendsDeclare` | source/generator/instructions.ts:94-121 | a definition prints what the declaration of the same function prints, with `define` for `declare`, followed by a braced body |
| `LlvmInstructions.EmptyDefinition` | source/generator/instructions.ts:94-99 | a definition with no instructions prints an empty line between its braces |
| `LlvmInstructions.UnnamedParameters` | source/generator/instructions.ts:96 | parameters without names print as their types alone, separated by `, ` |
| `LlvmInstructions.GlobalAttributes` | source/generator/instructions.ts:169-171 | a global prints its attributes and a space only when it has some |
| `LlvmInstructions.LoadReadsWhatStoreWrites` | source/generator/instructions.ts:226-249 | a store and a load of the same slot end with the same typed location and alignment |
| `LlvmInstructions.DefinePrintsType` | source/generator/instructions.ts:98 | a definition prints its return type right after `define ` |
| `LlvmInstructions.ReturnUsesFunctionType` | source/generator/instructions.ts:264-266 | `ret` prints the return type of its own function, the same type that the function's definition prints |
| `Assembly.InstructionStartsWithMnemonic` | source/generator/assembly.ts:25-27 | a built instruction starts with its mnemonic and a space |
| `Assembly.InstructionEndsWithComment` | source/generator/assembly.ts:25-27 | a built instruction ends with a tab and then `; comment`, or with the tab alone when the comment is `none` |
| `Assembly.AbsentOperandsOmitted` | source/generator/assembly.ts:25-27 | operands given as `none` print as nothing |
| `Assembly.SourceSeparator` | source/generator/assembly.ts:26 | the source operand follows `, ` for label instructions and a single space for section instructions |
| `Assembly.FindGroup` | source/generator/assembly.ts:164-165 | `findIndex` gives the first group with the name, or nothing when no group has it |
| `Assembly.Select` | source/generator/assembly.ts:162-187 | selecting a name points at a group with that name: an existing group when there is one, else a new empty group appended at the end |
| `Assembly.Push` | source/generator/assembly.ts:111 | an instruction is appended to the selected group only; every other group is unchanged |
| `Assembly.Assembler.constructor` | source/generator/assembly.ts:99-103 | a new assembler holds the `.text` section with the `global` instruction for the main function, and one empty label named after it |
| `Assembly.Assembler.Find` | source/generator/assembly.ts:164-165 | the search loop returns what `FindGroup` specifies |
| `Assembly.Assembler.AddInstruction` | source/generator/assembly.ts:110-112 | the instruction, with its semicolon separator, goes to the end of the current label; nothing else changes |
| `Assembly.Assembler.SectionInstruction` | source/generator/assembly.ts:119-121 | the instruction, with a space separator, goes to the end of the current section; nothing else changes |
| `Assembly.Assembler.BackSection` | source/generator/assembly.ts:126-128 | the current section becomes the last one; nothing else changes |
| `Assembly.Assembler.SetLabel` | source/generator/assembly.ts:162-171 | the labels and the current label are what `Select` gives; the sections are untouched |
| `Assembly.Assembler.SetSection` | source/generator/assembly.ts:176-187 | the old current section becomes the last one, and the sections and the current section are what `Select` gives |
| `Assembly.Assembler.Build` | source/generator/assembly.ts:133-157 | the built text is the rendering of all sections, with the labels printed after each `.text` section |
| `Assembly.Assembler.BuildSection` | source/generator/assembly.ts:137-153 | one section's text: its header, its instructions, a blank line unless it is the last section, then the labels when it is `.text` |
| `Assembly.Assembler.AppendLabels` | source/generator/assembly.ts:146-153 | the loop appends every label's name, its instructions and a blank line |
| `Assembly.Assembler.AppendLines` | source/generator/assembly.ts:139-140 | the loop appends each instruction on its own tab-indented line |
| `Assembly.SelectKeepsUnique` | source/generator/assembly.ts:162-187 | selecting never creates a second group with the same name |
| `Assembly.SelectIdempotent` | source/generator/assembly.ts:162-187 | selecting the same name twice is selecting it once |
| `Assembly.SelectedIsOnly` | source/generator/assembly.ts:164-165 | with unique names, the selected index is the only group with that name |
| `Assembly.LabelsOnlyAfterText` | source/generator/assembly.ts:145 | without a `.text` section, no label is printed |
| `Assembly.GlobalLine` | source/generator/assembly.ts:101 | the constructor's instruction prints as `global main` and a tab, then `; Main function` |
| `Assembly.FreshBuild` | source/generator/assembly.ts:99-157 | a fresh assembler builds to the `.text` header, the `global` line and the empty main label |
| `Ir.TypeByName` | source/generator/generator.ts:46-64 | an array type becomes an i32 array of its size; each of the seven known names maps to its LLVM type; any other name fails |
| `Ir.FindVariable` | source/generator/generator.ts:95 | the first binding with the name, or nothing exactly when no binding has it |
| `Ir.FindFunction` | source/generator/generator.ts:128 | the first function with the name, or nothing exactly when no function has it |
| `Ir.ValueOf` | source/generator/generator.ts:71-138 | every variable and function that a lowered value uses resolves in the current scope and module; a value emits no instruction exactly when it is a literal constant |
| `Ir.ConstantOf` | source/generator/generator.ts:73-92 | exactly the four literal kinds become constants |
| `Ir.BinaryOf` | source/generator/generator.ts:102-124 | an expression lowers only for the thirteen known operators, to an operation on resolved operands |
| `Ir.CallOf` | source/generator/generator.ts:125-134 | a call lowers only when the callee exists in the module |
| `Ir.ValuesFrom` | source/generator/generator.ts:133 | the arguments lower to one resolved value each, in order |
| `Ir.LastComputes` | source/generator/generator.ts:100-133 | a value that is not a constant is the result of the last instruction its lowering emits |
| `IrGenerator.Emit` | source/generator/generator.ts:160-203 | emitting at the insertion point only grows the current block: the cursors, scopes and slots stay as they were |
| `IrGenerator.EmitEmit` | source/generator/generator.ts:160-203 | emitting two runs one after the other is emitting their concatenation |
| `IrGenerator.FindFunctionShape` | source/generator/generator.ts:128 | adding instructions to blocks does not change which functions the module declares |
| `IrGenerator.ValueOfShape` | source/generator/generator.ts:71-138 | lowering a value does not depend on the blocks' contents |
| `IrGenerator.AppendBlocks` | source/generator/generator.ts:214-216 | creating blocks appends them to the current function and changes nothing else |
| `IrGenerator.MoveTo` | source/generator/generator.ts:219 | `setInsertionPoint` moves only the insertion point |
| `IrGenerator.Bind` | source/generator/generator.ts:190 | pushing a variable appends one binding to the current array, at the next slot |
| `IrGenerator.Snapshot` | source/generator/generator.ts:222 | saving the scope appends a copy of the current bindings and keeps the rest |
| `IrGenerator.Restore` | source/generator/generator.ts:227 | restoring makes the saved array the current one and changes nothing else |
| `IrGenerator.ParamTypes` | source/generator/generator.ts:318 | the parameter types resolve exactly when every parameter's type name is known, one type per parameter |
| `IrGenerator.ParamBindings` | source/generator/generator.ts:329-342 | parameter `i` is bound to slot `base + i` with its own type |
| `IrGenerator.ParamInstrs` | source/generator/generator.ts:331-339 | each parameter gets an `alloca` and a store of the incoming argument, in parameter order |
| `IrGenerator.IfHead` | source/generator/generator.ts:212-222 | the start of an `if` leaves the generator in the function with three new blocks and the scope saved |
| `IrGenerator.WhileHead` | source/generator/generator.ts:246-253 | the start of a `while` adds three blocks and keeps the scope |
| `IrGenerator.ForStart` | source/generator/generator.ts:278-282 | the loop variable is bound to the next slot with the start value's type |
| `IrGenerator.CondHead` | source/generator/generator.ts:254-258 | a loop condition leaves the generator ready for the body, with the scope saved |
| `IrGenerator.Leave` | source/generator/generator.ts:227-230 | leaving an arm or a loop body restores the saved scope |
| `IrGenerator.Step` | source/generator/generator.ts:145-384 | a lowered statement only grows the state: no function, block, scope array or slot disappears |
| `IrGenerator.StepSimple` | source/generator/generator.ts:147-205 | the same for calls, assignments, definitions and returns |
| `IrGenerator.StepCompound` | source/generator/generator.ts:206-361 | the same for `if`, `while`, `for` and function definitions |
| `IrGenerator.StepCall` | source/generator/generator.ts:147-161 | a call statement only grows the state |
| `IrGenerator.StepSet` | source/generator/generator.ts:162-174 | an assignment only grows the state |
| `IrGenerator.StepDefine` | source/generator/generator.ts:175-205 | a definition only grows the state |
| `IrGenerator.StepIf` | source/generator/generator.ts:206-239 | an `if` only grows the state |
| `IrGenerator.IfArms` | source/generator/generator.ts:224-238 | the two arms only grow the state |
| `IrGenerator.ElseArm` | source/generator/generator.ts:230-238 | the else arm only grows the state |
| `IrGenerator.StepWhile` | source/generator/generator.ts:240-267 | a `while` only grows the state |
| `IrGenerator.LoopBody` | source/generator/generator.ts:260 | a loop body only grows the state |
| `IrGenerator.StepFor` | source/generator/generator.ts:268-304 | a `for` only grows the state |
| `IrGenerator.ForLoop` | source/generator/generator.ts:284-303 | the loop part of a `for` only grows the state |
| `IrGenerator.ForBody` | source/generator/generator.ts:292-303 | the body and step of a `for` only grow the state |
| `IrGenerator.Opened` | source/generator/generator.ts:317-326 | a new function becomes current with an entry block; a builder is created at that block only when there was none |
| `IrGenerator.Entered` | source/generator/generator.ts:317-344 | after the prologue, the insertion point is the entry block and the variables are exactly the parameter bindings |
| `IrGenerator.StepFunction` | source/generator/generator.ts:305-361 | a function definition only grows the state |
| `IrGenerator.FunctionBody` | source/generator/generator.ts:346-360 | after a body the generator is outside any function and still has a builder |
| `IrGenerator.StepReturn` | source/generator/generator.ts:362-382 | a return only grows the state |
| `IrGenerator.StepBody` | source/generator/generator.ts:224 | a statement list only grows the state |
| `IrGenerator.StepEntry` | source/generator/generator.ts:224 | one entry of a statement list only grows the state |
| `IrGenerator.StepAll` | source/generator/generator.ts:390 | the top-level statements only grow the state |
| `IrGenerator.ModuleOf` | source/generator/generator.ts:389-393 | the module's functions are those that lowering every top-level statement leaves, and the module fails exactly when a statement fails |
| `IrGenerator.Generator.constructor` | source/generator/generator.ts:18-41 | a new generator has no function, no builder and one empty variable array |
| `IrGenerator.Generator.Append` | source/generator/generator.ts:160-203 | appending instructions agrees with `Emit` |
| `IrGenerator.Generator.CreateBlocks` | source/generator/generator.ts:214-216 | agrees with `AppendBlocks` |
| `IrGenerator.Generator.SetInsertionPoint` | source/generator/generator.ts:219 | agrees with `MoveTo` |
| `IrGenerator.Generator.Push` | source/generator/generator.ts:190 | agrees with `Bind` |
| `IrGenerator.Generator.SaveScope` | source/generator/generator.ts:222 | agrees with `Snapshot` and returns the saved array |
| `IrGenerator.Generator.GenerateValue` | source/generator/generator.ts:71-138 | the value returned and the instructions appended are what `ValueOf` gives for the old scope |
| `IrGenerator.Generator.GenerateBinary` | source/generator/generator.ts:102-124 | agrees with `BinaryOf` |
| `IrGenerator.Generator.GenerateCallValue` | source/generator/generator.ts:125-134 | agrees with `CallOf` |
| `IrGenerator.Generator.GenerateArgs` | source/generator/generator.ts:133 | the loop over the arguments agrees with `ValuesFrom` |
| `IrGenerator.Generator.GenerateExpression` | source/generator/generator.ts:145-384 | the new state, or the error, is what `Step` gives for the old state |
| `IrGenerator.Generator.GenerateSimple` | source/generator/generator.ts:147-205 | agrees with `StepSimple` |
| `IrGenerator.Generator.GenerateCompound` | source/generator/generator.ts:206-361 | agrees with `StepCompound` |
| `IrGenerator.Generator.GenerateCall` | source/generator/generator.ts:147-161 | agrees with `StepCall` |
| `IrGenerator.Generator.GenerateSet` | source/generator/generator.ts:162-174 | agrees with `StepSet` |
| `IrGenerator.Generator.GenerateDefine` | source/generator/generator.ts:175-205 | agrees with `StepDefine` |
| `IrGenerator.Generator.OpenIf` | source/generator/generator.ts:212-222 | agrees with `IfHead` |
| `IrGenerator.Generator.LeaveScope` | source/generator/generator.ts:227-230 | agrees with `Leave` |
| `IrGenerator.Generator.GenerateIf` | source/generator/generator.ts:206-239 | agrees with `StepIf` |
| `IrGenerator.Generator.GenerateArms` | source/generator/generator.ts:224-238 | agrees with `IfArms` |
| `IrGenerator.Generator.GenerateElse` | source/generator/generator.ts:230-238 | agrees with `ElseArm` |
| `IrGenerator.Generator.OpenWhile` | source/generator/generator.ts:246-253 | agrees with `WhileHead` |
| `IrGenerator.Generator.OpenBody` | source/generator/generator.ts:254-258 | agrees with `CondHead` |
| `IrGenerator.Generator.GenerateWhile` | source/generator/generator.ts:240-267 | agrees with `StepWhile` |
| `IrGenerator.Generator.GenerateLoopBody` | source/generator/generator.ts:260 | agrees with `LoopBody` |
| `IrGenerator.Generator.StartFor` | source/generator/generator.ts:278-282 | agrees with `ForStart` |
| `IrGenerator.Generator.GenerateFor` | source/generator/generator.ts:268-304 | agrees with `StepFor` |
| `IrGenerator.Generator.GenerateForLoop` | source/generator/generator.ts:284-303 | agrees with `ForLoop` |
| `IrGenerator.Generator.GenerateForBody` | source/generator/generator.ts:292-303 | agrees with `ForBody` |
| `IrGenerator.Generator.AllocateParams` | source/generator/generator.ts:329-342 | the loop over the parameters returns `ParamBindings` and appends `ParamInstrs` |
| `IrGenerator.Generator.OpenFunction` | source/generator/generator.ts:317-326 | agrees with `Opened` |
| `IrGenerator.Generator.EnterFunction` | source/generator/generator.ts:317-344 | agrees with `Entered` |
| `IrGenerator.Generator.GenerateFunction` | source/generator/generator.ts:305-361 | agrees with `StepFunction` |
| `IrGenerator.Generator.GenerateFunctionBody` | source/generator/generator.ts:346-360 | agrees with `FunctionBody` |
| `IrGenerator.Generator.GenerateReturn` | source/generator/generator.ts:362-382 | agrees with `StepReturn` |
| `IrGenerator.Generator.GenerateScope` | source/generator/generator.ts:224 | the loop over a statement list agrees with `StepBody` |
| `IrGenerator.Generator.GenerateEntry` | source/generator/generator.ts:224 | agrees with `StepEntry` |
| `IrGenerator.Generator.Generate` | source/generator/generator.ts:389-393 | generating a fresh generator's tree gives `ModuleOf` the tree |
| `IrGeneratorProperties.StatementsNeedAFunction` | source/generator/generator.ts:150-151 | calls, assignments, definitions, `if`, `while`, `for` and `return` fail outside a function |
| `IrGeneratorProperties.NoNestedFunctions` | source/generator/generator.ts:308-309 | a function definition inside a function fails with the source's message |
| `IrGeneratorProperties.FirstBindingWins` | source/generator/generator.ts:95 | appending a binding does not change what an already bound name resolves to |
| `IrGeneratorProperties.NewBindingFound` | source/generator/generator.ts:95 | a name bound for the first time resolves to its new binding |
| `IrGeneratorProperties.RedeclaredNameKeepsFirstSlot` | source/generator/generator.ts:186-203 | redefining a bound name allocates a new slot, but later reads still find the first binding |
| `IrGeneratorProperties.DefinitionBindsFreshSlot` | source/generator/generator.ts:186-203 | a first definition makes the name resolve to the fresh slot |
| `IrGeneratorProperties.UntypedDefinitionFails` | source/generator/generator.ts:181-187 | the guard tests the node's tag, never its data type, so a definition without type or value fails as an unknown type `""` |
| `IrGeneratorProperties.OperandsLeftThenRight` | source/generator/generator.ts:104-123 | the left operand's error wins, then the right one's, then an unknown operator's; a success is the operation on both values |
| `IrGeneratorProperties.UnknownVariableFails` | source/generator/generator.ts:97-98 | reading an unbound name fails with `Variable x doesn't exist.` |
| `IrGeneratorProperties.IfOpensThreeBlocks` | source/generator/generator.ts:212-222 | `if_scope`, `if_else` and `end_scope` are appended, the current block ends in a conditional branch to the first two, and the insertion point moves to `if_scope` with the scope saved |
| `IrGeneratorProperties.WhileOpensThreeBlocks` | source/generator/generator.ts:246-253 | `while_condition`, `while_scope` and `end_scope` are appended and the current block branches to the condition block |
| `IrGeneratorProperties.LoopConditionBranches` | source/generator/generator.ts:254-258 | a loop condition branches to the body block or the end block, and the insertion point moves to the body |
| `IrGeneratorProperties.LeaveBranchesAndRestores` | source/generator/generator.ts:227-230 | every arm and loop body ends with a branch, with the saved scope restored and the insertion point moved on |
| `IrGeneratorProperties.ArmsEndAtEndScope` | source/generator/generator.ts:224-238 | after both arms of an `if`, the insertion point is its `end_scope` block |
| `IrGeneratorProperties.IfEndsAtEndScope` | source/generator/generator.ts:206-239 | after an `if`, the insertion point is the third block it created |
| `IrGeneratorProperties.WhileEndsAtEndScope` | source/generator/generator.ts:240-267 | after a `while`, the insertion point is the third block it created |
| `IrGeneratorProperties.LoopEndsAtEndScope` | source/generator/generator.ts:284-303 | a `for` loop from its condition block ends at its `end_scope` block |
| `IrGeneratorProperties.ForEndsAtEndScope` | source/generator/generator.ts:268-304 | after a `for`, the insertion point is the third block it created |
| `IrGeneratorProperties.DefineIntStep` | source/generator/generator.ts:186-190 | `let x: int` allocates one slot and appends its binding to the current array in place |
| `IrGeneratorProperties.StepKeeps` | source/generator/generator.ts:147-385 | lowering any statement only appends to the array `this.variables` refers to; every other array is untouched, and afterwards the field refers to that array or to one created meanwhile |
| `IrGeneratorProperties.SimpleKeeps` | source/generator/generator.ts:147-205 | calls, assignments, definitions and returns keep that frame; a definition appends to the current array |
| `IrGeneratorProperties.StepBodyKeeps` | source/generator/generator.ts:224 | a statement list keeps that frame, whatever it nests |
| `IrGeneratorProperties.IfKeeps` | source/generator/generator.ts:206-239 | an `if` keeps that frame: its saved copy is a new array, and both arms end with it current |
| `IrGeneratorProperties.WhileKeeps` | source/generator/generator.ts:240-267 | a `while` keeps that frame |
| `IrGeneratorProperties.ForKeeps` | source/generator/generator.ts:268-304 | a `for` keeps that frame; its induction variable is appended to the current array |
| `IrGeneratorProperties.FunctionKeeps` | source/generator/generator.ts:305-361 | a function definition keeps that frame: its parameters go into a new array |
| `IrGeneratorProperties.EnteredKeeps` | source/generator/generator.ts:329-343 | entering a function makes a new array of its parameters current and changes no other array |
| `IrGeneratorProperties.FunctionBodyKeeps` | source/generator/generator.ts:346-361 | a function body, with the `ret void` added at its end, keeps that frame |
| `IrGeneratorProperties.ThenArmDefinitionDiscarded` | source/generator/generator.ts:222-227 | with no else-arm, nothing any then-arm binds is visible after the `if`: the saved copy is current and unchanged |
| `IrGeneratorProperties.ElseArmDefinitionSurvives` | source/generator/generator.ts:227-235 | after any then-arm, the saved copy itself is current, so a definition heading the else-arm is written into it and is still bound after the `if`, right after the bindings saved before it, whatever follows in the arm |
| `IrGeneratorProperties.ForBodyDefinitionDiscarded` | source/generator/generator.ts:292-300 | nothing any `for` body or step binds is visible after the loop: the saved copy is current and unchanged |
| `IrGeneratorProperties.FunctionEndRules` | source/generator/generator.ts:349-356 | `ret void` is appended exactly when the body is empty, ends in undefined, or is void without a final return; a non-void body without a final return fails |
| `IrGeneratorProperties.BareReturnNeedsVoid` | source/generator/generator.ts:368-374 | `return` without a value succeeds exactly in a void function |
| `IrGeneratorProperties.ExternalDeclaredOnce` | source/generator/generator.ts:311-314 | declaring an external function that already exists changes nothing |
| `IrGeneratorProperties.TypeNameTable` | source/generator/generator.ts:53-63 | exactly the seven names resolve; `float` and `double` map to their types |
| `LlvmParser.ExpectAt` | source/parser/parser.ts:26-38 | at the end of the stream `expect` does nothing; otherwise it succeeds exactly when the current token has the kind, and then moves one token on |
| `LlvmParser.FactorAt` | source/parser/parser.ts:43-78 | a factor consumes at least one token and builds an expression node |
| `LlvmParser.UnaryAt` | source/parser/parser.ts:48-55 | an arithmetic-operator token gives a unary node only for `+`, `-` or `!` |
| `LlvmParser.ParenthesizedAt` | source/parser/parser.ts:56-61 | a parenthesized expression consumes its tokens and builds an expression node |
| `LlvmParser.TermAt` | source/parser/parser.ts:88-100 | a term consumes at least one token and builds an expression node |
| `LlvmParser.TermTail` | source/parser/parser.ts:91-97 | the `*` and `/` loop never moves back and folds expression nodes into an expression node |
| `LlvmParser.IdentifierAt` | source/parser/parser.ts:105-141 | an identifier use consumes at least one token and builds a call, an assignment or a variable read |
| `LlvmParser.ArgsAt` | source/parser/parser.ts:119-125 | the argument loop stops at a `)` token, keeps the arguments already read, and adds expression nodes only |
| `LlvmParser.ExpressionAt` | source/parser/parser.ts:146-177 | an expression consumes at least one token and builds an expression node |
| `LlvmParser.ExpressionTail` | source/parser/parser.ts:156-171 | the additive loop and the logical tail never move back and keep the node an expression node |
| `LlvmParser.BodyAt` | source/parser/parser.ts:196-197 | a statement loop stops at the end of the stream or at a `}` |
| `LlvmParser.BlockAt` | source/parser/parser.ts:194-199 | a braced block never moves back |
| `LlvmParser.DecidePartAt` | source/parser/parser.ts:390-411 | every statement, even a skipped token, consumes at least one token |
| `LlvmParser.KeywordAt` | source/parser/parser.ts:182-384 | a keyword statement consumes at least the keyword |
| `LlvmParser.IfAt` | source/parser/parser.ts:189-228 | an `if` consumes at least its keyword |
| `LlvmParser.ElseAt` | source/parser/parser.ts:201-217 | an optional else part never moves back |
| `LlvmParser.WhileAt` | source/parser/parser.ts:229-246 | a `while` consumes at least its keyword |
| `LlvmParser.ForAt` | source/parser/parser.ts:247-274 | a `for` consumes at least its keyword |
| `LlvmParser.ParamsAt` | source/parser/parser.ts:291-319 | the parameter loop never moves back |
| `LlvmParser.ReturnTypeAt` | source/parser/parser.ts:323-327 | the optional `: type` never moves back |
| `LlvmParser.FunctionAt` | source/parser/parser.ts:275-347 | a function header consumes at least one token |
| `LlvmParser.ReturnAt` | source/parser/parser.ts:348-355 | the optional return value never moves back |
| `LlvmParser.VarAt` | source/parser/parser.ts:356-380 | a `var` statement consumes at least its name |
| `LlvmParser.VarTypeAt` | source/parser/parser.ts:362-368 | the optional `: type` never moves back |
| `LlvmParser.ItemsAt` | source/parser/parser.ts:419-424 | the statement loop of `parse` keeps the nodes already collected, in order |
| `LlvmParser.Parser.constructor` | source/parser/parser.ts:19-21 | the parser starts at the first token |
| `LlvmParser.Parser.Expect` | source/parser/parser.ts:26-38 | agrees with `ExpectAt`, and moves only on success |
| `LlvmParser.Parser.UnaryFactor` | source/parser/parser.ts:48-55 | the node or error and the new position agree with `UnaryAt` |
| `LlvmParser.Parser.Parenthesized` | source/parser/parser.ts:56-61 | agrees with `ParenthesizedAt` |
| `LlvmParser.Parser.Factor` | source/parser/parser.ts:43-78 | agrees with `FactorAt` |
| `LlvmParser.Parser.Term` | source/parser/parser.ts:88-100 | agrees with `TermAt` |
| `LlvmParser.Parser.TermLoop` | source/parser/parser.ts:91-97 | the `while` loop agrees with `TermTail` |
| `LlvmParser.Parser.Identifier` | source/parser/parser.ts:105-141 | agrees with `IdentifierAt` |
| `LlvmParser.Parser.AdditiveLoop` | source/parser/parser.ts:156-171 | the `while` loop and the logical tail agree with `ExpressionTail` |
| `LlvmParser.Parser.Expression` | source/parser/parser.ts:146-177 | agrees with `ExpressionAt` |
| `LlvmParser.Parser.Scope` | source/parser/parser.ts:194-199 | agrees with `BlockAt` |
| `LlvmParser.Parser.Keyword` | source/parser/parser.ts:182-384 | agrees with `KeywordAt` |
| `LlvmParser.Parser.ElseBranch` | source/parser/parser.ts:201-217 | agrees with `ElseAt` |
| `LlvmParser.Parser.IfStatement` | source/parser/parser.ts:189-228 | agrees with `IfAt` |
| `LlvmParser.Parser.WhileStatement` | source/parser/parser.ts:229-246 | agrees with `WhileAt` |
| `LlvmParser.Parser.ForStatement` | source/parser/parser.ts:247-274 | agrees with `ForAt` |
| `LlvmParser.Parser.FunctionStatement` | source/parser/parser.ts:275-347 | agrees with `FunctionAt` |
| `LlvmParser.Parser.Parameters` | source/parser/parser.ts:291-321 | the parameter loop agrees with `ParamsAt` |
| `LlvmParser.Parser.ReturnType` | source/parser/parser.ts:323-327 | agrees with `ReturnTypeAt` |
| `LlvmParser.Parser.ReturnStatement` | source/parser/parser.ts:348-355 | agrees with `ReturnAt` |
| `LlvmParser.Parser.VarStatement` | source/parser/parser.ts:356-380 | agrees with `VarAt` |
| `LlvmParser.Parser.DecidePart` | source/parser/parser.ts:390-411 | agrees with `DecidePartAt` |
| `LlvmParser.Parser.Parse` | source/parser/parser.ts:416-433 | from the first token, the tree is `ProgramOf` the tokens |
| `LlvmParserProperties.LiteralOf` | source/parser/parser.ts:63-74 | a literal token becomes a literal node |
| `LlvmParserProperties.LiteralFactor` | source/parser/parser.ts:63-74 | a literal token is a whole factor of one token |
| `LlvmParserProperties.LiteralTerm` | source/parser/parser.ts:88-100 | a literal not followed by `*` or `/` is a whole term |
| `LlvmParserProperties.TermLeftAssociative` | source/parser/parser.ts:91-97 | `a * b / c` parses as `(a * b) / c` |
| `LlvmParserProperties.ExpressionLeftAssociative` | source/parser/parser.ts:156-162 | `a - b - c` parses as `(a - b) - c`, for every additive-level operator |
| `LlvmParserProperties.MultiplicationBindsTighter` | source/parser/parser.ts:88-162 | `a + b * c` parses as `a + (b * c)` |
| `LlvmParserProperties.RemainderIsAdditive` | source/parser/parser.ts:156 | `%` sits at the additive level, so `a % b * c` parses as `a % (b * c)` |
| `LlvmParserProperties.LogicalRightRecursive` | source/parser/parser.ts:165-171 | `a && b \|\| c` parses as `a && (b \|\| c)` |
| `LlvmParserProperties.LogicalBindsLoosest` | source/parser/parser.ts:165-171 | a logical operator takes everything after it: `a && b + c` is `a && (b + c)` |
| `LlvmParserProperties.ExpressionLeftAssociativeOne` | source/parser/parser.ts:156-162 | `b + c` followed by no operator is one expression node |
| `LlvmParserProperties.IdentifierLookahead` | source/parser/parser.ts:112-140 | one token after an identifier decides: `(` makes a call and `=` an assignment to that name; anything else is a variable read that consumes only the name |
| `LlvmParserProperties.LiteralExpression` | source/parser/parser.ts:146-177 | a literal followed by no operator is a whole expression |
| `LlvmParserProperties.CallArgumentsInOrder` | source/parser/parser.ts:112-129 | `f(a, b)` is a call to `f` with the arguments in order |
| `LlvmParserProperties.EmptyWhileVanishes` | source/parser/parser.ts:240-243 | `while c { }` produces undefined, and `parse` moves past it without adding a node |
| `LlvmParserProperties.EmptyIfVanishes` | source/parser/parser.ts:222-225 | `if c { }` produces undefined, whatever else part follows |
| `LlvmParserProperties.ElseIfIsFatal` | source/parser/parser.ts:202-203 | `else` must be followed by `{`, so `else if` is fatal |
| `LlvmParserProperties.SkippedToken` | source/parser/parser.ts:406-407 | a token that starts neither a keyword statement nor an expression is consumed and produces nothing |
| `LlvmParserProperties.BooleanStatementSkipped` | source/parser/parser.ts:398-407 | a boolean literal cannot start a statement, so `true` on its own is skipped |
| `LlvmParserProperties.VarArgMustBeLast` | source/parser/parser.ts:293-304 | `...` sets the vararg flag when `)` follows it, and is fatal otherwise |
| `LlvmParserProperties.DefaultReturnType` | source/parser/parser.ts:283-327 | without `: type` after the parameters, the return type is `void` |
| `LlvmParserProperties.FunctionShape` | source/parser/parser.ts:275-347 | a function header always yields a function node with the `external` flag it was given, and an external function has no body |
| `LlvmParserProperties.ReturnValueIff` | source/parser/parser.ts:348-355 | `return` carries a value exactly when the next token can start an expression |
| `LlvmParserProperties.ReturnTrueHasNoValue` | source/parser/parser.ts:351 | `return true` is a value-less return, leaving the literal to be skipped as a statement |
| `TranspilerParser.FactorAt` | source/parser.ts:223-249 | a factor consumes at least one token and builds an expression node |
| `TranspilerParser.LeafAt` | source/parser.ts:230-248 | a factor without a sign consumes at least one token and builds an expression node |
| `TranspilerParser.TermAt` | source/parser.ts:259-271 | a term consumes at least one token and builds an expression node |
| `TranspilerParser.TermTail` | source/parser.ts:262-268 | the `*` and `/` loop never moves back and keeps the node an expression node |
| `TranspilerParser.ExpressionAt` | source/parser.ts:279-307 | an expression consumes at least one token and builds an expression node |
| `TranspilerParser.ExpressionTail` | source/parser.ts:289-304 | the additive loop and the logical tail never move back and keep the node an expression node |
| `TranspilerParser.IdentifierAt` | source/parser.ts:315-340 | an identifier statement consumes at least one token and is a call or an assignment, never a bare read |
| `TranspilerParser.ArgsAt` | source/parser.ts:325-330 | the argument loop keeps the arguments already read and stops at `)` or the end of the stream |
| `TranspilerParser.IfStatementAt` | source/parser.ts:345-359 | an `if` consumes at least one token and builds an if node |
| `TranspilerParser.BodyAt` | source/parser.ts:353-354 | the body loop keeps what it has read and stops at `}` or the end of the stream |
| `TranspilerParser.VariableDeclarationAt` | source/parser.ts:364-386 | a declaration consumes at least one token and builds a declaration node |
| `TranspilerParser.TypedNameAt` | source/parser.ts:369-381 | the peeked token decides: after a `:` the type is the token after it and three tokens are consumed; otherwise the type is `auto` and only the name is consumed |
| `TranspilerParser.Defined` | source/parser.ts:388-414 | a parsed statement is wrapped as a defined node, and errors pass through |
| `TranspilerParser.CodeBlockAt` | source/parser.ts:388-415 | every statement, even a skipped token, consumes at least one token |
| `TranspilerParser.ItemsAt` | source/parser.ts:420-427 | the loop of `work` keeps the nodes already collected and adds only defined ones |
| `TranspilerParser.TreeOf` | source/parser.ts:11-17 | the tree carries its name and holds no undefined node |
| `TranspilerParser.Parser.constructor` | source/parser.ts:190-193 | the parser starts at the first token |
| `TranspilerParser.Parser.Eat` | source/parser.ts:208-218 | agrees with `EatAt`: a no-op at the end of the stream, one step on a match, an error otherwise |
| `TranspilerParser.Parser.Factor` | source/parser.ts:223-249 | the node or error and the new position agree with `FactorAt` |
| `TranspilerParser.Parser.Leaf` | source/parser.ts:230-248 | the literal, parenthesis and identifier branches agree with `LeafAt` |
| `TranspilerParser.Parser.Term` | source/parser.ts:259-271 | agrees with `TermAt` |
| `TranspilerParser.Parser.TermLoop` | source/parser.ts:262-268 | the `while` loop agrees with `TermTail` |
| `TranspilerParser.Parser.AdditiveLoop` | source/parser.ts:289-304 | the `while` loop and the logical tail agree with `ExpressionTail` |
| `TranspilerParser.Parser.Expression` | source/parser.ts:279-307 | agrees with `ExpressionAt` |
| `TranspilerParser.Parser.Identifier` | source/parser.ts:315-340 | agrees with `IdentifierAt` |
| `TranspilerParser.Parser.IfStatement` | source/parser.ts:345-359 | agrees with `IfStatementAt` |
| `TranspilerParser.Parser.VariableDeclaration` | source/parser.ts:364-386 | agrees with `VariableDeclarationAt` |
| `TranspilerParser.Parser.TypedName` | source/parser.ts:369-381 | agrees with `TypedNameAt` |
| `TranspilerParser.Parser.CodeBlock` | source/parser.ts:388-415 | agrees with `CodeBlockAt` |
| `TranspilerParser.Parser.Work` | source/parser.ts:420-427 | from the first token, the tree is `TreeOf` the tokens |
| `TranspilerParserProperties.LiteralOf` | source/parser.ts:230-238 | a literal token becomes an integer, string or boolean node |
| `TranspilerParserProperties.LiteralFactor` | source/parser.ts:230-238 | a literal token is a whole factor of one token |
| `TranspilerParserProperties.SignedFactor` | source/parser.ts:227-229 | a leading `+` or `-` applies to the factor after it, whatever the token's kind |
| `TranspilerParserProperties.VariableFactor` | source/parser.ts:246-248 | any other token must be an identifier, which becomes a variable read |
| `TranspilerParserProperties.LiteralTerm` | source/parser.ts:259-271 | a literal not followed by `*` or `/` is a whole term |
| `TranspilerParserProperties.LiteralExpression` | source/parser.ts:279-307 | a literal followed by no operator is a whole expression |
| `TranspilerParserProperties.ParenthesizedFactor` | source/parser.ts:239-243 | `(a)` is the node of `a` itself |
| `TranspilerParserProperties.TermLeftAssociative` | source/parser.ts:262-268 | `a * b / c` parses as `(a * b) / c` |
| `TranspilerParserProperties.ExpressionLeftAssociative` | source/parser.ts:289-295 | `a - b - c` parses as `(a - b) - c`, for every additive-level operator |
| `TranspilerParserProperties.MultiplicationBindsTighter` | source/parser.ts:259-295 | `a + b * c` parses as `a + (b * c)` |
| `TranspilerParserProperties.LogicalRightRecursive` | source/parser.ts:298-304 | `a && b \|\| c` parses as `a && (b \|\| c)` |
| `TranspilerParserProperties.IdentifierLookahead` | source/parser.ts:320-339 | one token after the name decides: `(` makes a call, always marked integrated, and anything but `(` or `=` is fatal |
| `TranspilerParserProperties.CallArgumentsInOrder` | source/parser.ts:320-334 | `f(a, b)` is a call with the arguments in order |
| `TranspilerParserProperties.ArgumentsWithoutSeparator` | source/parser.ts:328-329 | the separator is optional: `f(a b)` is the same call as `f(a, b)` |
| `TranspilerParserProperties.SeparatorMustBeComma` | source/parser.ts:328-329 | a `,` that is not of kind `COMMA` is fatal |
| `TranspilerParserProperties.UntypedDeclaration` | source/parser.ts:364-385 | `let x = a` declares `x` with the type `auto` |
| `TranspilerParserProperties.TypedDeclaration` | source/parser.ts:372-385 | `let x : t = a` declares `x` with the type `t` |
| `TranspilerParserProperties.DeclarationNeedsEquals` | source/parser.ts:383 | the `=` of a declaration is mandatory |
| `TranspilerParserProperties.SkippedToken` | source/parser.ts:410-411 | a token that starts no statement is consumed, and `work` adds nothing for it |
| `TranspilerParserProperties.FloatStatementFatal` | source/parser.ts:405-408 | a float literal starts an expression statement, but `factor` has no case for it, so it is fatal |
| `TranspilerParserProperties.IfBodyKeepsUndefined` | source/parser.ts:353-354 | an `if` body keeps every result of `codeBlock`, so `if c { true }` holds one undefined entry |
| `CppGenerator.FindType` | source/gen/generator.ts:294 | the lookup succeeds exactly when some key of the table is the given key, and then yields a value paired with that key |
| `CppGenerator.ToCodeType` | source/gen/generator.ts:293-295 | a type name has a C++ type exactly when its upper-case form is a key of `VariableTypes`, and the type is that key's value; otherwise it is `undefined` |
| `CppGenerator.ExpressionTexts` | source/gen/generator.ts:52 | one text per argument, each that argument's `expression` text, in order |
| `CppGenerator.SubstituteArguments` | source/gen/generator.ts:153-157 | the `forEach` loop restarts from the template at every argument, so only the last argument's placeholder is filled |
| `CppGenerator.CallToString` | source/gen/generator.ts:148-159 | a plain call prints as `name(args)`; an integrated call prints its template after the substitution, and a name outside the table fails |
| `CppGenerator.EndedTextsItems` | source/gen/generator.ts:275-277 | a code block prints exactly when every part prints, with one item per part in order and `;` after exactly the parts whose `requiresEnd` is set |
| `CppGenerator.CodePartOf` | source/gen/generator.ts:297-336 | `generateCodePart` yields `CodeNone` exactly for an undefined entry or a node kind it has no case for |
| `CppGenerator.NodePart` | source/gen/generator.ts:297-336 | on a node, `CodeNone` comes exactly from the kinds without a case |
| `CppGenerator.Parameters` | source/gen/generator.ts:299-302 | one `CodeFunctionParameter` per parameter, in order, with its type looked up by `toCodeType` |
| `CppGenerator.ScopeOf` | source/gen/generator.ts:341-347 | a generated scope has one part per node |
| `CppGenerator.GenerateScope` | source/gen/generator.ts:341-347 | the `forEach` loop pushes one part per node, in order, each the node's `generateCodePart` |
| `CppGenerator.HeaderEntry` | source/gen/generator.ts:359-369 | a node adds one header entry exactly when it is a function declaration or a `use` statement, and none otherwise |
| `CppGenerator.HeaderEntriesAppend` | source/gen/generator.ts:359-369 | the header entries of two runs of nodes are those of the first run followed by those of the second, so the header keeps source order |
| `CppGenerator.GenerateHeader` | source/gen/generator.ts:352-372 | the header is the three includes `iostream`, `vector` and `string`, then the entries of the nodes in order |
| `CppGenerator.PrototypeInHeader` | source/gen/generator.ts:360-365 | every function declaration of the block has its prototype in the header |
| `CppGenerator.SourceParts` | source/gen/generator.ts:378-382 | the source file's parts are the include of its own header, then one part per node of the tree's block |
| `CppGenerator.Work` | source/gen/generator.ts:377-391 | the `.cpp` text prints the source parts and the `.h` text prints the header; either fails when one of its parts fails |
| `CppGenerator.SourceStartsWithOwnHeader` | source/gen/generator.ts:382 | the `.cpp` file starts by including `name.h` |
| `CppGenerator.HeaderStartsWithIostream` | source/gen/generator.ts:355 | the `.h` file starts by including `iostream`, whatever entries follow |
| `CppGenerator.ToCodeTypeIgnoresCase` | source/gen/generator.ts:294 | the type lookup ignores case |
| `CppGenerator.StringTypeExamples` | source/gen/generator.ts:294 | `string` and `String` both become `std::string` |
| `CppGenerator.UnlistedTypeUndefined` | source/gen/generator.ts:294 | a type outside the enum, such as `bool`, is `undefined`, and a template prints that word |
| `CppGenerator.PrintlnSubstitution` | source/gen/generator.ts:155 | the `println` template with its placeholder filled is `std::cout << x << std::endl` |
| `CppGenerator.PrintlnOneArgument` | source/gen/generator.ts:148-159 | `println(x)` prints as `std::cout << x << std::endl` |
| `CppGenerator.PrintlnTwoArguments` | source/gen/generator.ts:155 | with two arguments, the last step looks for `$2`, which the template lacks, so `println(x, y)` prints the template with `$1` still in it |
| `CppGenerator.UnknownIntegratedFails` | source/gen/generator.ts:152-153 | an integrated call to a name outside `println`, `input` and `system` fails |
| `CppGenerator.CountConcat` | source/gen/generator.ts:30 | counting a character is additive over concatenation |
| `CppGenerator.ExpressionTextBalanced` | source/gen/generator.ts:25-62 | a printed expression built from operators, literals and variables without parentheses of their own has balanced parentheses |
| `CppFunctions.ExpressionTexts` | source/gen/func.ts:103 | one text per argument, each that argument's `expression` text, in order |
| `CppFunctions.StatementLines` | source/gen/func.ts:34-64 | one statement pushes at most one line, and an undefined entry fails |
| `CppFunctions.BlockLines` | source/gen/func.ts:30-67 | every line `codeBlock` returns ends with `;` |
| `CppFunctions.CallExpression` | source/gen/func.ts:90-104 | a plain call prints as `name(args)`; an integrated call fails for a name outside the table or a wrong number of arguments, and otherwise prints its filled template; a name inherited from `Object.prototype` passes the lookup and fails at the arity check or the substitution |
| `CppFunctions.ConditionalStatement` | source/gen/func.ts:15-25 | `if` and `while` print the keyword, the condition and the block's lines on their own lines between braces, or fail with the block |
| `CppFunctions.Statement` | source/gen/func.ts:35-63 | the `switch` agrees with `StatementLines` |
| `CppFunctions.CodeBlock` | source/gen/func.ts:30-67 | the `forEach` loop and the final `map` agree with `BlockLines` |
| `CppFunctions.LinesFailureStops` | source/gen/func.ts:34-64 | once an entry fails, the whole block fails with that entry's error |
| `CppFunctions.LinesAppend` | source/gen/func.ts:34-64 | the lines of two runs of entries are those of the first run followed by those of the second |
| `CppFunctions.BreakLine` | source/gen/func.ts:52-66 | `break` prints as `break;` |
| `CppFunctions.IntegratedCallFails` | source/gen/func.ts:91-98 | an integrated call fails exactly when the name is not `println` or `input` or there is not exactly one argument |
| `CppFunctions.InheritedNameArity` | source/gen/func.ts:92-98 | `toString()` and the other inherited names fail at the arity check with "functions toString requires undefined arguments"; with arguments they fail reading a property of undefined |
| `CppFunctions.ExpressionTextAgrees` | source/gen/func.ts:109-137 | on the nodes the expression parser builds, this printer and the generator's `expression` agree |
| `CppFunctions.ExpressionTextsAgree` | source/gen/func.ts:103 | on arguments the expression parser builds, `callExpression` here and in the generator print the same argument texts |
| `CppFunctions.CallInExpressionDropped` | source/gen/func.ts:109-137 | a call inside an expression prints as nothing here, while the generator prints it |
| `ScriptParser.VariableAt` | src/parser.js:54-62 | `variable()` succeeds exactly on an identifier, which becomes a reference to its name, one token on |
| `ScriptParser.FactorAt` | src/parser.js:67-94 | a factor consumes at least one token |
| `ScriptParser.TermAt` | src/parser.js:104-121 | a term consumes at least one token |
| `ScriptParser.TermTail` | src/parser.js:107-118 | the `/` and `*` loop never moves back |
| `ScriptParser.DefaultExprAt` | src/parser.js:129-169 | at the end of the stream the expression is `undefined` and nothing is consumed; otherwise at least one token is consumed |
| `ScriptParser.AdditiveTail` | src/parser.js:139-166 | the additive and comparison loop and the logical tail never move back |
| `ScriptParser.ExpectFrom` | src/parser.js:43-46 | `expect` keeps the entries collected so far and adds one entry per syntax item, an expression exactly for `EXPR` |
| `ScriptParser.ExpectAt` | src/parser.js:40-49 | the result holds the current token and then one entry per syntax item, an expression exactly for `EXPR` |
| `ScriptParser.VariableDefinitionAt` | src/parser.js:176-196 | a definition consumes at least one token and builds a declaration node |
| `ScriptParser.IfStatementAt` | src/parser.js:203-219 | an `if` consumes at least one token and builds an if node |
| `ScriptParser.IdentifierAt` | src/parser.js:227-260 | an identifier statement consumes at least one token; it is a call to the identifier exactly when the next token is `(`, and an assignment to it otherwise |
| `ScriptParser.ArgumentsAt` | src/parser.js:237-242 | the argument loop keeps the arguments already read and stops at `)` or the end of the stream |
| `ScriptParser.FunctionDefinitionAt` | src/parser.js:267-300 | a function definition consumes at least one token and builds a function node |
| `ScriptParser.ScopeTestAt` | src/parser.js:307-313 | `scopeTest` consumes at least one token, and yields `undefined` exactly when the token starts no statement, in which case it skips just that token |
| `ScriptParser.BodyAt` | src/parser.js:209-211 | the body loop keeps the statements already read and stops at `}` or the end of the stream |
| `ScriptParser.ProgramFrom` | src/parser.js:321-322 | the loop of `parse` keeps the statements already read and adds at most one per token |
| `ScriptParser.ParseOf` | src/parser.js:318-328 | a program has at most one statement per token |
| `ScriptParser.DeclarationEntries` | src/parser.js:178-195 | `kind name = e` declares the name with the keyword's text and the expression after the `=`, since index 4 of the expectation is that expression |
| `ScriptParser.SkippedTokensUndefined` | src/parser.js:312-322 | a run of tokens of which none starts a statement parses to one `undefined` per token |
| `ScriptParser.OperandOf` | src/parser.js:67-94 | a literal gives the literal node of its kind, and an identifier exactly gives a variable reference |
| `ScriptParser.OperandFactor` | src/parser.js:67-94 | a literal or identifier that is no sign is a factor of one token |
| `ScriptParser.OperandTerm` | src/parser.js:104-121 | such an operand not followed by `*` or `/` is a whole term |
| `ScriptParser.OperandExpression` | src/parser.js:139-166 | such an operand followed by no operator is a whole expression |
| `ScriptParser.SubtractionGroupsLeft` | src/parser.js:139-150 | `a op b op c` groups as `(a op b) op c` for any operands and any two additive or comparison operators |
| `ScriptParser.ProductBindsTighter` | src/parser.js:104-150 | `a op b * c` groups as `a op (b * c)` for any operands, any additive or comparison operator and either of `*` and `/` |
| `ScriptParser.LogicNestsRight` | src/parser.js:153-166 | `a && b \|\| c` nests as `a && (b \|\| c)` for any operands and any two logical operators |
| `ScriptParser.IdentifierExpression` | src/parser.js:54-62 | an identifier followed by a token that continues no expression is a variable reference of one token |
| `ScriptParser.CallArgumentsSeparated` | src/parser.js:232-250 | `f(a, b)` is a call to `f` with the arguments `a` and `b` in order, at any position and for any two literal or identifier operands |
| `ScriptParser.Parser.constructor` | src/parser.js:7-10 | the parser starts at the first token |
| `ScriptParser.Parser.Eat` | src/parser.js:25-35 | agrees with `EatAt`: a no-op at the end of the stream, one step on a match, an error otherwise, and returns the new current token |
| `ScriptParser.Parser.Expect` | src/parser.js:40-49 | agrees with `ExpectAt` |
| `ScriptParser.Parser.Variable` | src/parser.js:54-62 | agrees with `VariableAt` |
| `ScriptParser.Parser.Factor` | src/parser.js:67-94 | agrees with `FactorAt` |
| `ScriptParser.Parser.Term` | src/parser.js:104-121 | agrees with `TermAt` |
| `ScriptParser.Parser.TermLoop` | src/parser.js:107-118 | the `while` loop agrees with `TermTail` |
| `ScriptParser.Parser.DefaultExpr` | src/parser.js:129-169 | agrees with `DefaultExprAt` |
| `ScriptParser.Parser.AdditiveLoop` | src/parser.js:139-166 | the `while` loop and the logical tail agree with `AdditiveTail` |
| `ScriptParser.Parser.VariableDefinition` | src/parser.js:176-196 | agrees with `VariableDefinitionAt` |
| `ScriptParser.Parser.IfStatement` | src/parser.js:203-219 | agrees with `IfStatementAt` |
| `ScriptParser.Parser.Identifier` | src/parser.js:227-260 | agrees with `IdentifierAt` |
| `ScriptParser.Parser.Arguments` | src/parser.js:237-242 | agrees with `ArgumentsAt` |
| `ScriptParser.Parser.FunctionDefinition` | src/parser.js:267-300 | agrees with `FunctionDefinitionAt` |
| `ScriptParser.Parser.Body` | src/parser.js:209-211 | agrees with `BodyAt` |
| `ScriptParser.Parser.ScopeTest` | src/parser.js:307-313 | agrees with `ScopeTestAt` |
| `ScriptParser.Parser.Parse` | src/parser.js:318-328 | the program of the statements read from the current position; from the first token it is `ParseOf` the tokens |
| `ScriptInterpreter.LooseEquals` | src/interpreter/interpreter.js:38-39 | `==` is defined on two values of one type or with `undefined` on a side, and then holds exactly when the values are equal; across other types JavaScript coerces, which is outside the model |
| `ScriptInterpreter.Apply` | src/interpreter/interpreter.js:29-54 | `\|\|` and `&&` yield one of their operands by truthiness; arithmetic on two integers yields an integer and a comparison a boolean; an operator outside the `switch` yields `undefined` |
| `ScriptInterpreter.Eval` | src/interpreter/interpreter.js:60-97 | a unary node throws, since it has no `value` field; a variable reads exactly when the current scope declares it, and then yields its binding's value |
| `ScriptInterpreter.EvalBinary` | src/interpreter/interpreter.js:24-27 | the right operand is evaluated before the left one, so the right operand's error wins |
| `ScriptInterpreter.EvalAll` | src/interpreter/interpreter.js:147 | the arguments evaluate one value each, in order |
| `ScriptInterpreter.BindParams` | src/interpreter/interpreter.js:156-163 | a call adds one fresh `let` binding per parameter, holding its argument, and binds exactly the parameters' names; older bindings are untouched |
| `ScriptInterpreter.Merge` | src/interpreter/interpreter.js:110-111 | the merged scope has the names of both scopes, and a name of the calling scope keeps the calling scope's entry |
| `ScriptInterpreter.ExecItem` | src/interpreter/interpreter.js:113-174 | one item keeps every binding and its kind, keeps `const` values, only appends output, and only a declaration changes the scope; an undefined item throws |
| `ScriptInterpreter.IfOf` | src/interpreter/interpreter.js:125-130 | an `if` leaves the scope as it was; it succeeds only when its condition is truthy, and a falsy condition throws on the missing `else` |
| `ScriptInterpreter.DeclareOf` | src/interpreter/interpreter.js:118-124 | a declaration adds a fresh binding with the value and the keyword and points the name at it, and fails exactly when the value fails |
| `ScriptInterpreter.AssignOf` | src/interpreter/interpreter.js:131-141 | an undeclared name and a `const` binding throw; otherwise only the name's binding changes, to the new value with the same kind |
| `ScriptInterpreter.CallOf` | src/interpreter/interpreter.js:142-152 | an unknown callee and a wrong number of arguments throw; a call leaves the scope as it was and keeps the store's bindings |
| `ScriptInterpreter.ExecBody` | src/interpreter/interpreter.js:113-175 | a body keeps every binding and its kind, keeps `const` values and only appends output |
| `ScriptInterpreter.InterpretOf` | src/interpreter/interpreter.js:102-180 | `interpret` restores the scope it was called in, keeps the store's bindings and only appends output |
| `ScriptInterpreter.RunProgram` | src/interpreter/interpreter.js:102-180 | a program ends in the global scope holding only `println` |
| `ScriptInterpreter.NotEqualsNegates` | src/interpreter/interpreter.js:38-41 | `!=` is defined where `==` is and is its negation |
| `ScriptInterpreter.StringLiteralUnquoted` | src/interpreter/interpreter.js:67-68 | a string literal evaluates to its text without the quotes |
| `ScriptInterpreter.IntegerLiteralValue` | src/interpreter/interpreter.js:71-72 | an integer literal evaluates to the number it spells |
| `ScriptInterpreter.NegativeLiteralThrows` | src/interpreter/interpreter.js:73-85 | `-1` parses to a unary node, and evaluating it throws |
| `ScriptInterpreter.ExecSingle` | src/interpreter/interpreter.js:113 | a body of one item runs that item |
| `ScriptInterpreter.EvalSingle` | src/interpreter/interpreter.js:147 | a single argument evaluates to its own value |
| `ScriptInterpreter.AssignmentVisibleOutside` | src/interpreter/interpreter.js:110-179 | an assignment inside an `if` body changes the binding the enclosing scope sees |
| `ScriptInterpreter.CallerBindingOverridesParameter` | src/interpreter/interpreter.js:110-168 | inside a called function, a caller's variable of the same name hides the parameter |
| `ScriptInterpreter.DeclaredFunctionArity` | src/interpreter/interpreter.js:146-170 | calling a function right after its declaration with another number of arguments than its parameters throws |
| `ScriptInterpreter.DeclarationInIfVanishes` | src/interpreter/interpreter.js:106-179 | a name declared only inside an `if` body is not defined after it |
| `ScriptInterpreter.EvalAllFailureStops` | src/interpreter/interpreter.js:147 | once an argument fails, the argument list fails with that error |
| `ScriptInterpreter.ExecBodyFailureStops` | src/interpreter/interpreter.js:113-175 | once an item throws, the body fails with that error |
| `ScriptInterpreter.Interpreter.constructor` | src/interpreter/interpreter.js:6-19 | a fresh interpreter is in the global scope with `println`, an empty store and no output |
| `ScriptInterpreter.Interpreter.ParseBinaryOperator` | src/interpreter/interpreter.js:24-55 | agrees with `EvalBinary` on the current scope |
| `ScriptInterpreter.Interpreter.ParseExpression` | src/interpreter/interpreter.js:60-97 | agrees with `Eval` on the current scope |
| `ScriptInterpreter.Interpreter.ParseArguments` | src/interpreter/interpreter.js:147 | the `map` over the arguments agrees with `EvalAll` |
| `ScriptInterpreter.Interpreter.Interpret` | src/interpreter/interpreter.js:102-180 | the new state, or the error, agrees with `InterpretOf` |
| `ScriptInterpreter.Interpreter.Execute` | src/interpreter/interpreter.js:114-174 | the `switch` agrees with `ExecItem` |
| `ScriptInterpreter.Interpreter.If` | src/interpreter/interpreter.js:125-130 | agrees with `IfOf` |
| `ScriptInterpreter.Interpreter.Declare` | src/interpreter/interpreter.js:118-124 | agrees with `DeclareOf` |
| `ScriptInterpreter.Interpreter.Assign` | src/interpreter/interpreter.js:131-141 | agrees with `AssignOf` |
| `ScriptInterpreter.Interpreter.Call` | src/interpreter/interpreter.js:142-152 | agrees with `CallOf` |
| `ScriptInterpreter.Interpreter.BindArguments` | src/interpreter/interpreter.js:156-163 | the parameter loop appends the bindings `BindParams` gives and leaves the scope and output alone |
| `Tokens.EatAt` | src/parser.js:25-35 | `eat` is a no-op at the end of the stream; otherwise it advances by one token exactly when the current token has the expected kind, and fails when it does not |

## Left out

- Process-level I/O is not modelled: reading source files, the command-line drivers, the winston logger and `process.exit`.
- `error(...)` of `src/error.js` prints the offending line with a caret and exits. Here each fatal error is an `Err` carrying the message; the printing is not modelled.
- The files `work` of `source/gen/generator.ts` writes under `output/bin` are not modelled, only their texts. The same holds for the tree dump of the parsers (`tree.json`, and the `JSON.stringify` of `AstTree`).
- `logger.warn` diagnostics of the parsers are not modelled, since they do not change the tree.
- llvm-node is replaced by an abstract IR of types, values, instructions, blocks and functions. Left out: `module.print` text, `createGlobalStringPtr` interning, value-name uniquing and real LLVM types.
- `Text.ParseInt`: reads the digits as an exact unbounded integer. JavaScript's `parseInt` returns a double, which is exact only within ±2^53, so a longer literal is rounded there. This applies to every parser and the interpreter, which all read integer literals with it.
- `Text.NumToString`: prints every integer in plain decimal digits. JavaScript's `String(n)` prints the rounded double beyond 2^53, and switches to exponent form from 1e21: a transpiled `let x = 1000000000000000000000` prints `1e+21` in the source and the 22 digits here.
- `Text.ParseNatToString`: the round trip is proved for every natural number. In JavaScript it holds only up to 2^53, and it fails from 1e21 on, where the printed text has an exponent.
- `CppGenerator.ExpressionText` and `CppFunctions.ExpressionText` print integer literals with `Text.NumToString`, so they share its limits.
- `Ir.ConstantOf`: an integer constant keeps the exact value the parser read. `llvm.ConstantInt.get` makes a 32-bit constant of the double it receives; that conversion is not modelled.
- `LlvmInstructions.StringType`: the array length counts Dafny characters, one per code point. The source's `value.length` counts UTF-16 code units, so a character outside the Basic Multilingual Plane counts twice there: for the string `"😀"` the source prints `[4 x i8]` and the model `[3 x i8]`.
- `Lexer.Emit` and `ScriptLexer.NextTokenInString`: token columns count Dafny characters. The source's offsets and `length` count UTF-16 code units, so the two differ on lines holding characters outside the Basic Multilingual Plane.
- Floating point is not modelled: `FloatLiteral` and `ConstantFP` carry their digits as an opaque tag, and `parseFloat` is not modelled.
- `ScriptInterpreter.Apply`: division on any operands, even integers that divide exactly (`6 / 2`, which is `3` in JavaScript), arithmetic and ordering on strings, on booleans or on `undefined` (`true + true`, `true < false`, `undefined + undefined`), and any operator on two values of different types fail with `Unmodelled`. JavaScript converts them to numbers or strings, or yields a float or `NaN` (`2`, `false` and `NaN` in those three examples).
- `ScriptInterpreter.Apply`: `+`, `-` and `*` on integers are exact. JavaScript numbers are doubles, so a result beyond ±2^53 is rounded there: `9007199254740992 + 1` is `9007199254740992` in JavaScript and `9007199254740993` here.
- `ScriptInterpreter.LooseEquals`: `==` between values of different types, other than `undefined`, fails with `Unmodelled` instead of coercing.
- `ScriptInterpreter.Eval`: an integer literal that `parseInt` reads as `NaN` fails with `Unmodelled`.
- `ScriptInterpreter.Eval`: a name is bound only if the scope holds it. The source's scopes are plain objects, so a name inherited from `Object.prototype` (`constructor`, `toString`, `valueOf`, `hasOwnProperty` and the like, all valid identifiers) is found there. `println(constructor)` logs `undefined` in JavaScript and fails with "not defined" here.
- `ScriptInterpreter.AssignOf`: for the same reason, `toString = 1` succeeds silently in JavaScript by writing a `value` property on the inherited function; here it fails with "not defined".
- `ScriptInterpreter.CallOf`: for the same reason, `valueOf(1)` fails in JavaScript with "takes undefined arguements", the arity check against the inherited function's missing `requiredArguments`; here it fails with "is not defined".
- `ScriptInterpreter.IntegerLiteralValue`: a literal beyond ±2^53 keeps its exact value here, while `parseInt` rounds it to the nearest double: `println(9007199254740993)` logs `9007199254740992` in JavaScript.
- `ScriptInterpreter.CallOf`: user calls are bounded by a `depth` parameter. A call nested deeper fails with a stack-overflow error, so unbounded recursion is not modelled.
- The `console.log` output of the interpreter is the sequence of printed values. How JavaScript formats them as text is not modelled.
- `Text.ReplaceFirst`: the `$` patterns of a replacement string (`$&`, `$1` and the like) are taken literally, while `String.replace` expands them. So an integrated call whose argument text contains `$` may print differently.
- `Text.ToUpper` changes only ASCII letters, where `toUpperCase` maps every cased letter.
- The `declaration: {id, init}` object of the interpreted dialect's variable declaration is flattened into the declaration node.
- `position` of `source/lexer.ts` is never read or written and is not modelled.
- `context.constantString` of `LLVMType.string` is taken as a parameter, since it is not defined on the generator.

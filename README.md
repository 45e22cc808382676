# A verified model of a toy C-like compiler pipeline

This project models, in Dafny, the core of a small Python compiler for a toy
C-like language, one module per source file, and proves what each stage
promises. The stages are:

- **Scanner** (`scanner.dfy`, scanner.py): the closure that maps a character
  position to a 1-based (line, column) coordinate and caches the line it last
  reached, and the tokenizer that tries an ordered rule table and takes the
  first rule that matches. The class `CoordinateGenerator` holds the closure's
  state. Each rule's regular expression is an abstract matcher that returns
  the length of a match.
- **Predictive parser** (`syntax.dfy`, syntax.py): an explicit stack of
  pending tree nodes over an arena of nodes indexed by number. A non-terminal
  expands by the first derivation whose trigger fits the token. A nullable
  one may take the empty derivation and reprocess the same token. A terminal
  consumes the token. Completion flags spread to the parent, and a
  semantic-rule hook fires bottom-up once per node. The class `TreeBuilder`
  is generic in the grammar table and in the state the rules keep. Its
  invariant says the arena is a tree, the processed flags are sound and
  complete, and the log of fired rules lists each node once, after its
  children.
- **Type checker** (`definition.dfy`, definition.py): the grammar table and
  the attribute rules. These cover declarations in a function's own table or
  the global one, lookups where a local name hides a global one, call
  signatures, numeric promotion, void poisoning, pinning of return types and
  registration of functions. Each rule is a function from the checker's state
  (the symbol tables, the function table and every node's properties) to a
  new state or an error. The grammar table has no `Start` entry, yet the
  parser roots every tree at `Start`. `CheckProgram` proves that this parser
  and this table reject every program.
- **Older type checker** (`define.dfy`, define.py): the `Start -> Block`
  grammar and its rules over one flat symbol table. Lemmas compare each
  decision with the newer checker's.
- **Code generator** (`translator.dfy`, translator.py): the label counter
  and the LIFO pool of released temporaries are the fields of the class
  `Translator`. Each `Produce` rule is a method. The lowering of `if`,
  `while`, `do` and `for` is given by module functions, and lemmas place each
  instruction and each patched `break`/`continue` jump. `enable_jump` keeps
  its in-place loop over an array. For trees whose argument lists have the
  shape the grammar gives them, the generated code defines every label at
  most once.
- **Virtual machine** (`machine.dfy`, machine.py): instruction
  classification, operand coercion with the 32-bit mask, Python truthiness,
  the label-index pre-pass and the program-counter loop. The class `Machine`
  keeps the variable dictionary across runs.
- `wrappers.dfy`, `properties.dfy` and `decimal.dfy` hold shared pieces:
  - `Option` and `Result`.
  - The data types and node properties shared by the checkers and the
    generator.
  - Decimal printing of numbers, whose round trip makes label and temporary
    names distinct.

The source files do not fit together, and each is modelled as written:
- The parser's root symbol exists only in the older grammar.
- The newer rules read `node.function`, which the parser never sets.
- The machine rejects most of the generator's opcodes.

The one exception is the newer checker's `FunctionBody` rule, which can
never fire as written (see "## Findings"). Its as-written form is kept
beside the corrected one, and the checker uses the corrected one.

The enclosing-function map and the per-function symbol tables are inputs of
the checker's state. The generator's instructions are plain records, not the
machine's `Instruction`. A `new_inst` call whose arguments hold no temporary
is written as the instruction itself. `NothingReleased` proves that such a
call leaves the pool unchanged.

## Model

| member | source | states |
|---|---|---|
| Scanner.Split | scanner.py:31 | `code.split('\n')`: at least one piece, no piece holds a newline, and the pieces joined with newlines give the code back |
| Scanner.LineStartAtEnd | scanner.py:39-43 | stepping over every line and its newline ends one past the end of the code |
| Scanner.LineStartShift | scanner.py:42-43 | a line start is the first line's length plus one plus the start in the remaining lines |
| Scanner.JoinIndex | scanner.py:31-42 | character j of line k sits at that line's start plus j, and the position after the line's last character holds the newline |
| Scanner.LineStartMonotone | scanner.py:42-43 | later lines start no earlier |
| Scanner.ResumeScan | scanner.py:35-44 | resuming the scan at the cached line, which starts at or before the position, answers what a scan from the first line would |
| Scanner.ScanMeaning | scanner.py:39-44 | a scan from line k answers the line whose span (its newline included) holds the position and the column from that line's start, or (-1, -1) exactly when the position lies past the last line |
| Scanner.CoordinateMeaning | scanner.py:39-44 | the same for a scan from the first line: 1-based line and column, (-1, -1) exactly past the end |
| Scanner.CoordinateOfCodePosition | scanner.py:30-44 | every position of the code gets a real coordinate, and the character there is the one the coordinate names, or the newline ending that line |
| Scanner.CoordinateGenerator.constructor | scanner.py:30-34 | the closure starts at line 0, line start 0 and last position 0 over the split lines |
| Scanner.CoordinateGenerator.GetCoordinate | scanner.py:35-44 | with positions not decreasing (the `assert`), each answer equals the coordinate a fresh scan gives, and the last position is recorded |
| Scanner.FirstRuleFromMeaning | scanner.py:54-61 | the rule chosen is the first in table order whose matcher matches at the position; none is chosen exactly when no rule matches |
| Scanner.ScannedMeaning | scanner.py:51-61 | every token yielded is the one the first matching rule gives where the texts of the earlier tokens end |
| Scanner.FoundToken | scanner.py:53-58 | a token carries the first matching rule's kind, the matched text and the coordinate of its start |
| Scanner.AppendToken | scanner.py:56-59 | appending the token found at the end of the consumed prefix extends the prefix by the token's text and keeps every token the scanner's |
| Scanner.MatchFirst | scanner.py:54-61 | the loop over the table returns the first matching rule and a non-empty match inside the code |
| Scanner.GetTokens | scanner.py:48-63 | the token texts concatenate to a prefix of the code; each token is the first matching rule's at its start; no exception exactly when the whole code is consumed, and otherwise the exception carries the coordinate where no rule matches |
| Syntax.Kinds | definition.py:5-23 | the token kinds are the scanner table's kinds, one per rule, in order |
| Syntax.GetSyntaxItemType | syntax.py:94-101 | the item is a non-terminal when it starts with an upper-case letter, a token-type item when it names a token kind, and a literal string otherwise |
| Syntax.FirstTriggerMeaning | syntax.py:137-152 | the derivation chosen is the first whose trigger ('ANY', the token's kind or its text) selects the token, and none is chosen exactly when none selects it |
| Syntax.ChooseDerivation | syntax.py:136-152 | the expansion loop stops at the first selecting derivation in table order and reports none exactly when no derivation selects the token |
| Syntax.ProcessedDescendant | syntax.py:47-56 | every node below a processed node is processed |
| Syntax.MarkDone | syntax.py:53-56 | marking a node whose children are all processed keeps the flags sound and leaves at most its parent to be completed |
| Syntax.ExpandedChildren | syntax.py:86-91 | after an expansion, child k is a fresh node for the k-th symbol of the derivation, whose parent is the expanded node |
| Syntax.ExpandKeepsShape | syntax.py:86-91 | an expansion keeps the nodes a tree rooted at `Start`, with parent and child links agreeing |
| Syntax.ExpandKeepsCompletion | syntax.py:47-91 | an expansion keeps the processed flags sound and complete |
| Syntax.FireKeepsLog | syntax.py:111-123 | a node's rule fires after the rules of all its children that have one, and at most once |
| Syntax.SignificantMeaning | syntax.py:175-179 | the tokens parsed are exactly the scanned tokens that are not comments or white space |
| Syntax.TreeBuilder.constructor | syntax.py:105-108 | the tree is the root `Start` alone on the stack, nothing processed and no rule fired |
| Syntax.TreeBuilder.HasUnprocessed | syntax.py:48-52 | the scan answers true exactly when some child is unprocessed |
| Syntax.TreeBuilder.CheckProcessed | syntax.py:47-56 | nodes only become processed, only on the chain above the node, and afterwards every node whose children are all processed is processed |
| Syntax.TreeBuilder.MatchToken | syntax.py:58-79 | a token-type item matches exactly the token's kind and a literal its text; a match records the token and completes the node and its chain, a mismatch changes nothing |
| Syntax.TreeBuilder.SetEmpty | syntax.py:81-84 | the node is processed, the completion spreads only up its chain and every invariant of the tree is kept |
| Syntax.TreeBuilder.FireRule | syntax.py:112-120 | a node without a rule passes; a rule's result becomes the new state, and its failure becomes a `SyntaxError` at the current token's coordinate |
| Syntax.TreeBuilder.SetProperties | syntax.py:111-123 | rules fire only on the node's chain; when all succeed no processed node with a rule is left unfired; a failure is a `SyntaxError` at the token or a fault of the rule |
| Syntax.TreeBuilder.Expand | syntax.py:126-150 | the node gets one fresh child per symbol, in order, the leftmost child ends on top of the stack, and the derivation is recorded |
| Syntax.TreeBuilder.Derive | syntax.py:130-163 | a missing grammar entry is a `KeyError`; the first selecting derivation expands the node; with none, a missing 'empty' key is a `KeyError`, a false one `InvalidSyntax` at the token, and a true one takes the empty derivation |
| Syntax.TreeBuilder.Match | syntax.py:164-173 | the terminal takes the token exactly when its kind or text matches, or else parsing stops with `InvalidSyntax` at the token |
| Syntax.TreeBuilder.Step | syntax.py:125-173 | one pass pops the pending node, and an empty stack is an error; a terminal on top takes the token exactly when it fits it by kind or by text, else parsing stops with `InvalidSyntax`; a non-terminal on top is a `KeyError` without a grammar entry, expands by the first selecting derivation and goes round again, or else is refused or takes the empty derivation as its `empty` key says; only the popped terminal can take the token |
| Syntax.TreeBuilder.ProcessToken | syntax.py:110-173 | the token goes to exactly one terminal node that held no token and fits it by kind or by text, or parsing stops with an error at that token |
| Syntax.TreeBuilder.Finish | syntax.py:182-192 | only nullable non-terminals are popped; success exactly when the stack empties; otherwise `InvalidSyntax` at the last token, or a `KeyError` for a missing entry |
| Syntax.TreeBuilder.ParseTokens | syntax.py:175-180 | each parsed token, in order, went to its own terminal node and no other node holds a token |
| Syntax.TreeBuilder.Run | syntax.py:175-194 | success leaves an empty stack with every parsed token placed; empty input fails on the unbound last token; a scanning failure is raised; a grammar without `Start` always fails |
| Syntax.GetSyntaxTree | syntax.py:104-194 | on success the scanned texts make up the code, the processed flags are sound and complete and the stack is empty; a scanning failure carries the coordinate where scanning stopped; only empty code fails for want of tokens |
| Definition.StartMissing | definition.py:52-56 | the grammar table has a `Program` entry and no `Start` entry, the symbol the parser roots its tree at |
| Definition.ArgListNeverEmpty | definition.py:230-237 | the one derivation of `ArgList` is triggered by any token, so an argument list always expands to an expression |
| Definition.Put | definition.py:396 | writing a node's properties makes them the node's properties |
| Definition.Child | definition.py:393-402 | a child lookup that succeeds names a child of an existing node |
| Definition.Merge | definition.py:379-387 | the merged table holds the names of both tables, and a function's own entry hides the global one |
| Definition.Resolve | definition.py:419-424 | a lookup succeeds exactly when the name is bound to a non-empty type, and then gives that type |
| Definition.LocalShadowsGlobal | definition.py:379-424 | a name local to the function resolves from the function's table, any other from the globals, and the lookup fails exactly when neither binds it |
| Definition.Declare | definition.py:405-413 | a declaration fails exactly when the name is already bound; otherwise it adds the name with its type and leaves every other name unchanged |
| Definition.DeclareThenResolve | definition.py:399-424 | a declared variable resolves to its type, a second declaration of it fails, and other names keep their binding |
| Definition.WithActive | definition.py:405-410 | writing the active table changes only the function's symbols inside a function and only the globals outside |
| Definition.ParamTypes | definition.py:773 | the parameter types are the parameters' types, in order |
| Definition.Register | definition.py:770-776 | a function is registered with its parameter types exactly when its name is new |
| Definition.SetReturn | definition.py:712-737 | recording a return type needs the function's entry and changes only that entry's return type |
| Definition.CallType | definition.py:442-456 | a call type-checks exactly when the function exists, the argument types equal its parameter types and its return type is known, and then has that type; an unknown name reports `No such function` |
| Definition.CallAfterDefinition | definition.py:442-456 | once a function is registered and its return type set, a call to it checks exactly when the argument types are the parameter types, and has the return type; registering it again fails |
| Definition.CallBeforeReturnKnown | definition.py:444-449 | a call to a function whose return type is not set yet raises a `KeyError` for `return_type` |
| Definition.LastParam | definition.py:768-769 | the type bound to a name by the parameter list is that of its last occurrence, and none when it is not a parameter |
| Definition.BindParamsMeaning | definition.py:768-769 | after binding the parameters a name has the type of its last parameter occurrence, or its previous type |
| Definition.InsertParameters | definition.py:768-769 | the binding loop computes the parameter binding |
| Definition.ChainTypeMeaning | definition.py:558-577 | a chain of `*`, `/`, `+`, `-` operands is void when one operand is, double when one is, and otherwise the promoted type of the last operand |
| Definition.BoolType | definition.py:610-628 | a comparison is void exactly when one side is, and bool otherwise; without a comparison the item's type passes through |
| Definition.UnaryType | definition.py:531-551 | a void operand stays void; `!` needs a bool; a plain operand keeps its type |
| Definition.UnaryMeaning | definition.py:546-550 | `+` and `-` give double exactly for a double operand, int for int or bool, and are idempotent on their result |
| Definition.PinReturn | definition.py:667-679 | once a function's return type is known, a `return` agrees exactly when its type is the same |
| Definition.ReturnsAgree | definition.py:667-679 | a function's returns check exactly when they all have the type of the first |
| Definition.PinnedStays | definition.py:667-679 | with the return type pinned, every later return must have that type |
| Definition.DetectedReturn | definition.py:724-730 | the detected return type is the pinned one or void; a type the body carries must equal it, and without one any detected type is accepted |
| Definition.LiteralType | definition.py:510-520 | a literal's type comes from the three value token kinds, and any other kind is a `KeyError` |
| Definition.Parent | definition.py:644 | the parent lookup names the node's parent |
| Definition.FunctionNode | definition.py:667-670 | the enclosing function lookup succeeds exactly when the node is inside a function |
| Definition.TypeRule | definition.py:391-397 | the node's type is the type named by its keyword token |
| Definition.DeclRule | definition.py:399-413 | a declaration succeeds exactly when the name is unbound in the active table, and then binds it to the declared type; otherwise `Duplicate definition for variable` |
| Definition.VarRule | definition.py:415-424 | a variable reference succeeds exactly when the name is bound in the merged tables, and takes its type |
| Definition.VarCallRule | definition.py:426-459 | a variable takes its bound type; a call takes the function's return type when the arguments match, and records the function name |
| Definition.VarCallRightRule | definition.py:461-474 | no children means a plain variable, and a call carries its argument types up |
| Definition.ArgListWrapperRule | definition.py:476-479 | the wrapper carries the list's argument types |
| Definition.ArgsRule | definition.py:481-505 | the argument types are the first expression's type followed by the rest of the list's, and empty for an empty list |
| Definition.OprandRule | definition.py:507-522 | a variable or call operand keeps its type and its temporary; a literal takes its token kind's type |
| Definition.ParExprRule | definition.py:524-529 | a parenthesised expression has its inner expression's type |
| Definition.UnaryRule | definition.py:531-555 | the node's type is the unary typing of its operand, and the rule fails exactly when that typing does |
| Definition.SetNumberType | definition.py:558-577 | the node's type is the arithmetic typing of its item and the rest of the chain |
| Definition.ChainHeadRule | definition.py:579-598 | `Term` and `Arith` type their first child with the rest of the chain |
| Definition.ChainRightRule | definition.py:585-607 | an empty rest of the chain changes nothing; otherwise its operand is typed with the chain after it |
| Definition.SetBoolType | definition.py:610-628 | a comparison is typed by `BoolType` of both sides and keeps its temporaries; without one the item's type passes up |
| Definition.ExprRule | definition.py:642-655 | an expression typed void is accepted only as an `eval` statement; otherwise `Void expression in calculation` |
| Definition.CheckCondition | definition.py:662-666 | a condition must be int or bool |
| Definition.StmtRule | definition.py:657-694 | `if`/`while` check child 2 and `do`/`for` child 4 as conditions; `return` outside a function fails, and inside one pins or checks the function's return type |
| Definition.ReturnValueRule | definition.py:696-703 | a return value has its expression's type, or void |
| Definition.FunctionBodyRule | definition.py:705-710 | as written: only a right-hand side starting with `->` would carry the child's return type, and any other leaves the state unchanged |
| Definition.FunctionBodyShapes | definition.py:88-93 | `FunctionBody` has two derivations, and neither right-hand side starts with `->` |
| Definition.FunctionBodyRuleInert | definition.py:705-710 | on either right-hand side of `FunctionBody` the rule as written leaves the state unchanged |
| Definition.DeclaredTypeLost | definition.py:705-730 | a body `-> int` whose type child recorded `int` carries no type, so `Function` detects void and accepts it where the declared `int` should be refused |
| Definition.FunctionBodyRuleCorrected | definition.py:705-710 | a right-hand side starting with `FunctionType` carries that child's return type, and any other leaves the state unchanged |
| Definition.DeclaredTypeChecked | definition.py:705-730 | with the corrected rule a declared type reaches `Function`, which accepts exactly when it equals the pinned type, or void when none was pinned |
| Definition.FunctionTypeRule | definition.py:712-718 | the declared return type is recorded on the node and in the function's entry, and nothing else changes |
| Definition.FunctionRule | definition.py:720-738 | the type the body carries, if any, must equal the detected one, which is then recorded on the node and in the function's entry; a conflict is a rule error |
| Definition.ParamsOf | definition.py:740-766 | a parameter list is its first type and name followed by the rest of the list |
| Definition.ParaListRightRule | definition.py:740-753 | the tail of the parameter list is recorded |
| Definition.BindInto | definition.py:768-769 | the parameters are bound in the function's own table, and nothing else changes |
| Definition.ParaListRule | definition.py:755-777 | the parameters are bound and the function registered with their types when its name is new; otherwise `Duplicate definition` |
| Definition.Apply | definition.py:390-777 | a node without a rule passes unchanged, and `FunctionBody` uses the corrected rule; only a global `Decl` changes the globals and only the function rules change the function table |
| Definition.RulesInGrammar | definition.py:52-363 | every symbol with a rule has a grammar entry |
| Definition.RulesAreNonTerminals | definition.py:390 | every symbol with a rule is a non-terminal |
| Definition.CheckProgram | syntax.py:104-105 | the parser with this grammar rejects every program, because the table has no `Start`; only empty code fails for lack of tokens |
| Define.Typed | define.py:296 | setting a node's type changes that node's type and nothing else |
| Define.StartsWithBlock | define.py:53-60 | this grammar roots the program at `Start`, which always expands to a `Block` |
| Define.OprandLacksEmpty | define.py:265-275 | the `Oprand` entry has no 'empty' key, so a token that starts no operand ends in a `KeyError` for 'empty' |
| Define.Declare | define.py:298-306 | a declaration fails exactly when the name is already bound, and otherwise binds it to its type |
| Define.DeclareAgrees | define.py:298-306 | this declaration behaves exactly like the one of the function-aware checker |
| Define.UnaryType | define.py:339-357 | `!` needs a bool, a plain operand keeps its type, `+` and `-` give double for a double and int otherwise |
| Define.UnaryAgrees | define.py:339-357 | on non-void operands the unary typing equals the function-aware checker's, which alone passes void through |
| Define.ChainAgrees | define.py:359-371 | an arithmetic chain is double when one operand is and otherwise the promoted type of its last operand; without void it matches the function-aware checker |
| Define.BoolType | define.py:403-411 | a comparison is bool, and without one the item's type passes through |
| Define.BoolAgrees | define.py:403-411 | without void operands the comparison typing matches the function-aware checker's; with one, this checker says bool where the other says void |
| Define.TypeRule | define.py:290-296 | the node's type is the type named by its keyword token |
| Define.DeclRule | define.py:298-306 | a declaration succeeds exactly when the name is unbound, and then binds it to the declared type |
| Define.VarRule | define.py:308-315 | a variable reference succeeds exactly when the name is bound, and takes its type |
| Define.OprandRule | define.py:317-331 | a variable operand keeps its type; a literal takes its token kind's type |
| Define.ParExprRule | define.py:333-337 | a parenthesised expression has its inner expression's type |
| Define.UnaryRule | define.py:339-357 | the node's type is the unary typing of its operand, and the rule fails exactly when that typing does |
| Define.SetNumberType | define.py:359-371 | the node's type is the arithmetic typing of its item and the rest of the chain |
| Define.ChainHeadRule | define.py:373-392 | `Term` and `Arith` type their first child with the rest of the chain |
| Define.ChainRightRule | define.py:379-401 | an empty rest of the chain changes nothing; otherwise its operand is typed with the chain after it |
| Define.SetBoolType | define.py:403-427 | a node with a comparison is bool, and otherwise takes its item's type |
| Define.StmtRule | define.py:429-447 | `if`/`while` check child 2 and `do`/`for` child 4 as int-or-bool conditions, all with the message `if: bool expression required` |
| Define.Apply | define.py:289-447 | a node without a rule passes; only `Decl` changes the table, and no rule changes another node's properties |
| Translator.ArgOf | translator.py:63-71 | an absent argument (a void call's `None`) is the only one that becomes no argument |
| Translator.DefaultVal | translator.py:15-19 | int, double and bool have a default literal of their own type; any other type is a `KeyError` |
| Translator.ConcatAppend | translator.py:50-54 | flattening a list of code lists distributes over appending lists |
| Translator.ExpandCodeList | translator.py:50-54 | the loop concatenates the code lists in order |
| Translator.LabelRoundTrip | translator.py:27-30 | the label number can be read back from the label text |
| Translator.FreshPoolOk | translator.py:23-26 | the fresh pool, with nothing issued or released, is well formed |
| Translator.NextLabel | translator.py:27-30 | taking a label only advances the label counter |
| Translator.LabelsNeverRepeat | translator.py:27-30 | a new label differs from every label issued before it |
| Translator.TakeIdent | translator.py:31-39 | the most recently released temporary is reused first; otherwise a fresh temporary one past the highest is issued |
| Translator.Release | translator.py:40-44 | releasing a temporary appends it to the pool once, and releasing it again changes nothing |
| Translator.Cancel | translator.py:45-49 | cancelling takes the temporary back only when it was the last released, and otherwise changes nothing |
| Translator.PoolOkKept | translator.py:31-49 | taking, releasing and cancelling keep the released list and set in agreement and every temporary below the counter |
| Translator.TakenNotReleased | translator.py:31-39 | the temporary taken is no longer marked released |
| Translator.ReleaseThenTake | translator.py:31-44 | taking right after releasing a temporary gives it back and restores the pool |
| Translator.CancelUndoesRelease | translator.py:40-49 | cancelling a release just made restores the pool |
| Translator.TempsOfMeaning | translator.py:66-69 | the temporaries of an argument list are exactly its identifier arguments with a temporary name |
| Translator.ReleasedByMeaning | translator.py:60-70 | an instruction releases exactly its temporary arguments, except the destination of `mov`, `override` and the calculations |
| Translator.ReleaseAllOk | translator.py:40-44 | releasing a list of temporaries keeps the pool well formed |
| Translator.NothingReleased | translator.py:55-71 | an instruction without temporary arguments leaves the pool as it was |
| Translator.JumpReleases | translator.py:167-222 | a conditional jump releases its condition's temporary and nothing for the label |
| Translator.MovReleases | translator.py:242-301 | a `mov` releases its source's temporary, never its destination |
| Translator.PrintReleases | translator.py:259 | `print` releases its argument's temporary |
| Translator.DestinationKept | translator.py:63-65 | a calculation releases its source temporaries and keeps its destination |
| Translator.Patch | translator.py:149-154 | a `break` marker becomes a jump to the break label, a `continue` marker one to the continue label, anything else is kept |
| Translator.Patched | translator.py:149-154 | patching keeps the length and patches each element in place |
| Translator.InnermostLoopWins | translator.py:149-154 | after patching no marker is left, so an enclosing loop's patch does not change it |
| Translator.LabelDefsAppend | translator.py:50-54 | the labels defined by joined code are those of each part, in order |
| Translator.LabelDefsPatched | translator.py:149-154 | patching defines no label and removes none |
| Translator.EnableJump | translator.py:149-154 | the in-place loop over the code array leaves it patched |
| Translator.PatchCode | translator.py:149-154 | the code, copied into an array and patched, is the patched code |
| Translator.StagedConcat | translator.py:72-78 | children translated one after another define distinct labels within the range they took |
| Translator.ProgramCode | translator.py:80-85 | the program is its children's code followed by `start` and `call main` |
| Translator.ProgramWithin | translator.py:80-85 | the program defines distinct labels from the range its children took |
| Translator.ParamCodeLayout | translator.py:102-116 | parameters are handled last to first, each by an `alloc` with its default and a `mov` from its argument slot; the code fails exactly when a parameter type has no default |
| Translator.ParamCodeFails | translator.py:104-116 | the first failing parameter, counting from the last, decides the error |
| Translator.ParamCodePlain | translator.py:102-116 | the parameter code defines no label and holds no marker |
| Translator.FunctionCodeOk | translator.py:98-138 | a function is `proc`, its return slot when not void, its parameters, its body, `exit` for `main` or `ret`, and `end` |
| Translator.FunctionCodeFails | translator.py:101-128 | a missing `para_list`, a bad parameter type, a missing `name` or `return_type`, or a return type without a default gives the corresponding error, in that order |
| Translator.FunctionLayout | translator.py:131-138 | each part of the function's code sits at the stated positions |
| Translator.FunctionWithin | translator.py:98-138 | a function defines exactly the labels of its body |
| Translator.IfLayout | translator.py:156-173 | the condition, a jump to the else label when false, the then-branch, a jump past the else part, the else label, the else part and the end label, in that order |
| Translator.WhileJumps | translator.py:174-190 | a `while` starts with its back label and the condition, leaves at the tail label when false, and in its body `break` jumps to the tail and `continue` to the back label |
| Translator.DoJumps | translator.py:191-206 | a `do` runs the body first, with `break` to the tail and `continue` to the back label, then jumps back while the condition holds |
| Translator.ForJumps | translator.py:207-227 | a `for` runs the initialisation once before its back label, and in the body `continue` jumps to the back label before the condition, so the increment is skipped |
| Translator.IfWithin | translator.py:156-173 | an `if` defines distinct labels: its children's, then the two it takes |
| Translator.WhileWithin | translator.py:174-190 | a `while` defines distinct labels: its children's, then the two it takes |
| Translator.DoWithin | translator.py:191-206 | a `do` defines distinct labels: its children's, then the two it takes |
| Translator.ForWithin | translator.py:207-227 | a `for` defines distinct labels: its children's, then the two it takes |
| Translator.ReturnWithin | translator.py:234-248 | a `return` defines only its expression's labels |
| Translator.PrintWithin | translator.py:255-259 | a `print` defines only its expression's labels |
| Translator.ArgPart | translator.py:316-329 | the code of argument 0 is the first expression's; any other must be a nested code list, or the spread fails |
| Translator.OverrideCodeOk | translator.py:320-329 | the override loop succeeds exactly when there is a type for each argument and a nested code list for each argument after the first |
| Translator.OverrideFault | translator.py:320-329 | the first argument whose code or type is missing decides the error |
| Translator.OverrideLayout | translator.py:320-329 | each argument's code is followed directly by its `override` into argument slot i |
| Translator.OverrideDefs | translator.py:320-329 | an argument list defines the labels of its argument codes, in order |
| Translator.ArgListWithin | translator.py:308-330 | an argument list defines distinct labels from the range its children took |
| Translator.RightCodeWithin | translator.py:331-342 | the rest of an argument list defines distinct labels from that range |
| Translator.ConcatWithin | translator.py:72-78 | the concatenated children, followed by code without labels, define distinct labels from their range |
| Translator.ChainRule | translator.py:411-459 | each chain symbol maps its operators to calculations of the machine, and the `Right` forms are marked |
| Translator.Translator.constructor | translator.py:22-26 | translation starts with no label or temporary issued and nothing released |
| Translator.Translator.GetLabel | translator.py:27-30 | the method takes the next label as `NextLabel` does |
| Translator.Translator.GetIdent | translator.py:31-39 | the method takes a temporary as `TakeIdent` does |
| Translator.Translator.ReleaseIdent | translator.py:40-44 | the method releases as `Release` does |
| Translator.Translator.CancelReleasedIdent | translator.py:45-49 | the method cancels as `Cancel` does |
| Translator.Translator.NewInst | translator.py:55-71 | the instruction is built and every temporary it releases goes back to the pool |
| Translator.Translator.ProduceProgram | translator.py:80-85 | the program's code is `ProgramCode` of its children, and the pool is unchanged |
| Translator.Translator.ProduceDecl | translator.py:86-97 | a declaration is `alloc` inside a function and `static` outside, with the type's default; missing `ident` or a type without default is a `KeyError` |
| Translator.Translator.ParameterCode | translator.py:102-116 | the loop from the last parameter down builds the parameter code |
| Translator.Translator.ProduceFunction | translator.py:98-138 | a function's code is `FunctionCode` of its attributes and its last child's code |
| Translator.Translator.StmtIf | translator.py:156-173 | an `if` takes two new labels, lays out as `IfCode` and releases its condition's temporary |
| Translator.Translator.StmtWhile | translator.py:174-190 | a `while` takes two new labels, lays out as `WhileCode` and releases its condition's temporary |
| Translator.Translator.StmtDo | translator.py:191-206 | a `do` takes two new labels, lays out as `DoCode` and releases its condition's temporary |
| Translator.Translator.StmtFor | translator.py:207-227 | a `for` takes two new labels, lays out as `ForCode` and releases its condition's temporary |
| Translator.Translator.StmtReturn | translator.py:234-248 | a non-void return moves its value into the return slot, then `exit` in `main` and `ret` elsewhere; outside a function the `assert` fails |
| Translator.Translator.StmtRead | translator.py:249-254 | `read` names the variable with its type, and a missing `ident` is a `KeyError` |
| Translator.Translator.StmtPrint | translator.py:255-259 | `print` follows its expression's code and releases its temporary |
| Translator.Translator.ProduceStmt | translator.py:144-261 | by the statement's keyword: `if`, `while`, `do` and `for` give their lowering with the next two labels and release the condition's temporary, or an `IndexError` when children are missing; `return`, `read` and `print` give their instruction and its errors; `break` and `continue` give markers; any other statement concatenates its children's code with the pool unchanged |
| Translator.Translator.ProduceReturnValue | translator.py:139-143 | the return value's code is its children's, and it takes its expression's argument |
| Translator.Translator.ProduceAssign | translator.py:262-272 | an assignment is its expression's code and a `mov` into the variable, releasing the expression's temporary |
| Translator.Translator.ProduceOprand | translator.py:273-282 | an operand passes up its variable's argument or becomes a literal of its type with the token's text |
| Translator.Translator.ProduceVarCall | translator.py:283-307 | a variable is its named argument; a call is its argument code and `call`, and a non-void call copies the result into a new temporary; an array reference fails on the unbound `arg` |
| Translator.Translator.ProduceArgList | translator.py:308-330 | the arguments are collected and each is overridden into its slot after its own code, releasing the argument temporaries |
| Translator.Translator.ProduceArgListRight | translator.py:331-342 | the rest of an argument list collects its arguments and keeps each argument's code as a nested list |
| Translator.Translator.ProduceParExpr | translator.py:343-346 | a parenthesised expression passes its inner argument up |
| Translator.Translator.ProduceUnary | translator.py:347-367 | `+`, a parenthesised expression or an operand pass their argument up; `-` subtracts from zero and `!` negates into a new temporary; anything else fails the `assert` |
| Translator.Translator.PassUp | translator.py:354-355 | the node takes the child's argument and the code is its children's |
| Translator.Translator.UnaryCalc | translator.py:356-364 | the operation writes a new temporary after the children's code and releases the operand's temporary |
| Translator.Translator.ProduceCalc | translator.py:368-410 | a chain with an operator computes into a new temporary from the item and the rest of the chain, releasing both temporaries; without one the item's argument passes up; an empty `Right` form gives no code |
| Translator.Translator.CalcFold | translator.py:372-388 | the operator recorded by the rest of the chain selects the calculation, and an unknown or missing operator is a `KeyError` |
| Translator.Translator.CalcPass | translator.py:389-394 | without the rest of a chain the item's argument passes up |
| Translator.Translator.RecordOp | translator.py:385-393 | a node derived by an operator records that operator's text |
| Translator.Translator.Calculate | translator.py:380-383 | the calculation writes a new temporary and releases its source temporaries |
| Translator.Translator.Synthesize | translator.py:72-78 | the translator stays well formed, label numbers only grow, and the labels the code defines are distinct and were handed out during this call |
| Translator.Translator.Produce | translator.py:74-78 | a statement is produced as `ProduceStmt` states; `HandleCalc` and `HandleCalcItem` are a `TypeError`; a symbol with no rule of its own and no calculation chain concatenates its children's code with the pool unchanged |
| Translator.Translate | translator.py:22-26 | the translation defines every label at most once, each with its number in the text |
| Machine.NewInstruction | machine.py:85-96 | an instruction is built exactly for a command of the calculation table or the operation list, and classed as a calculation exactly when it is in the table; anything else is `Invalid Instruction` |
| Machine.Truth | machine.py:63-64 | Python truthiness: zero, false and the empty string are false, every other integer, bool or string true; a float is outside the model |
| Machine.IntOfText | machine.py:71 | `int()` of a non-empty string of decimal digits succeeds |
| Machine.Mask32 | machine.py:71 | masking with `0xffffffff` gives a value in [0, 2^32) and keeps one already there |
| Machine.Val | machine.py:59-80 | an identifier bound to nothing or to a falsy value is `Variable Not Found`; an int argument reads as a value in [0, 2^32) and a bool as a bool; a type other than int, double or bool is `Invalid Data Type` |
| Machine.ValReadsBack | machine.py:59-80 | a variable holding a positive 32-bit integer reads back as that integer, and as true when read as bool |
| Machine.ValOf | machine.py:141-157 | reading an argument slot reads the argument; an empty slot is a missing `val` attribute |
| Machine.IdentOf | machine.py:140-146 | the identifier of an argument slot, none for a data argument, and a missing attribute for a label or empty slot |
| Machine.Calc | machine.py:1-20 | every calculation but `div` succeeds; arithmetic gives an integer, comparisons and `not` a bool, `and`/`or` one of their operands, `mov` its first |
| Machine.LogicOnBools | machine.py:15-17 | on bools `and`, `or` and `not` are the logical operators |
| Machine.LabelIndex | machine.py:122-127 | every label maps to the position of an instruction that defines it |
| Machine.LabelIndexComplete | machine.py:122-127 | every label defined in the program is indexed, at its last definition |
| Machine.Calculate | machine.py:138-143 | a calculation writes its destination variable, leaves every other variable unchanged and moves to the next instruction; a failure changes nothing |
| Machine.Read | machine.py:144-147 | `read` consumes one line of input and moves on, fails on exhausted input, and prints nothing |
| Machine.Print | machine.py:148-149 | `print` succeeds exactly when its argument can be read, appends its value to the output and moves on |
| Machine.Jump | machine.py:152-168 | a jump changes only the position; a taken jump resumes just after the target label |
| Machine.Step | machine.py:130-171 | calculations, `read`, `print` and `label` move to the next instruction when they succeed |
| Machine.JumpToFirstLabel | machine.py:159-166 | a jump to a label defined only at position 0 is `Invalid Label`, since the lookup's result 0 is falsy |
| Machine.JumpResumesAfterLabel | machine.py:159-162 | a jump to a label whose last definition is at a later position resumes just after it |
| Machine.Exec | machine.py:128-171 | a run that ends without error has stepped past the last instruction, and a run started past it does nothing |
| Machine.StraightLineHalts | machine.py:128-171 | a program without jumps finishes, or stops on a runtime error, within one step per instruction |
| Machine.StepForward | machine.py:130-171 | without jumps, each step either fails or moves to the next instruction |
| Machine.IndexLabels | machine.py:122-127 | the label loop builds the label index |
| Machine.Machine.constructor | machine.py:115-119 | a new machine has no variables |
| Machine.Machine.Clear | machine.py:118-119 | clearing forgets every variable |
| Machine.Machine.Run | machine.py:121-171 | a run executes the program from the first instruction on the machine's variables and keeps the variables it ends with |
| Decimal.DigitValue | translator.py:30 | a decimal digit's value is below ten and prints back as that digit |
| Decimal.NatStr | translator.py:30 | `str` of a natural number is a non-empty string of decimal digits, one digit long exactly below ten |
| Decimal.ParseDigits | machine.py:71 | a string parses as a number exactly when it is a non-empty string of decimal digits |
| Decimal.ParsePrinted | translator.py:27-30 | parsing the printed number gives the number back |
| Decimal.PrintInjective | translator.py:27-30 | distinct numbers print as distinct strings, so distinct labels and temporaries have distinct names |
| Properties.FromName | definition.py:391-397 | a type keyword names int, double, bool or void, each exactly by its own keyword |
| Properties.Str | definition.py:396 | the printed type name reads back as the same type |

## Left out

- interpreter.py, test.py, the `main` and `process_file` functions, and the debug printing (`e_print`, `print_syntax_tree`, the `DEBUG` branch of `translate`): these are command-line and file glue. The `common` module is not part of this model.
- The regular expressions of the token table: each rule is an abstract matcher. The parser is given the kind names the table declares.
- Floating point: the machine's `div`, `float()` coercion and the truth value of a float end in an `Unmodelled` error. The generator keeps the double default 0.0 as a constant.
- Console input and output: `read` takes lines from an input sequence, and `print` appends values to an output sequence.
- The array branches the source marks as unfinished. The checker accepts an array reference without typing it. The generator then fails on the unbound `arg`, as Python would.
- A machine for `call`, `ret`, `proc`, `override`, `alloc`, `static` and `exit`: machine.py rejects these opcodes, so no call-frame machine is modelled.
- End-to-end runs from source text to machine output: the modules do not link as written.
- `RuntimeError.__str__` of machine.py refers to unbound names and is not modelled.
- Syntax.TreeBuilder.ProcessToken: the source re-enters `process_token` for the same token. The model loops with a `fuel` bound instead of Python's recursion limit, and running out is an `OutOfFuel` error.
- Machine.Exec: the program-counter loop runs under a `fuel` bound. A program that does not halt within it ends with `OutOfFuel`.
- Machine.Val: a `double` argument ends in an `Unmodelled` error instead of a float. `int()` of text accepts an optional sign and decimal digits. Python's `int()` also accepts surrounding white space and underscores between digits; here those are a `ValueError`.
- Translator.Translate: the label guarantee needs argument lists with the grammar's shape (an `ArgList` never has one child, an `ArgListRight` never two). Labels are stated to be distinct and numbered, not to be exactly the ones issued.
- Translator.Translator.Synthesize: the result is not tied to the children's code or to the node's rule, because each child's code comes from a method call that no function describes; the contract states the translator's well-formedness, growing label numbers and the labels the code defines.
- Translator.Translator.Produce: for the symbols with a rule of their own other than `Stmt`, and for the calculation chain, the contract states only the label guarantee; each rule's own row states the rest.
- Translator.Translator.ProduceArgList: when the override loop fails part-way, the pool's state is stated only as well formed.
- Translator.ArgPart: when a later argument's code is not a nested code list, Python would spread a marker string into its characters. The model reports a `TypeError`, which the grammar cannot produce.
- `HandleCalc` and `HandleCalcItem` are helpers, not grammar symbols. A node named after one of them ends in a `TypeError`, as Python's call with missing arguments would.

## Findings

| source | as written | input that shows it | evidently intended | confidence | as-written member | corrected member |
|---|---|---|---|---|---|---|
| definition.py:707 | `FunctionBody` tests `deriv_tuple[0] == '->'`, but the recorded value is the right-hand side, which starts with `{` or `FunctionType` | `def f() -> int { }`: the body carries no type, `Function` detects void and accepts it | test the first symbol against `FunctionType`, so that the declared type reaches `Function`'s conflict check | not executed | Definition.DeclaredTypeLost | Definition.DeclaredTypeChecked |

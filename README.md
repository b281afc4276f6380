# A verified model of the TDL runtime core

TDL is a small scripting language. Its runtime has two parts, and this project models both in Dafny and proves properties about the models.

**The namespace tree** (astlib/symbolTable.py)
- A `Group` is a dynamic container of named members.
- The `symbolTable` is the root group. It holds itself under `_main` and holds the core groups `_sys`, `_builtin` and `_math`.
- It keeps:
  - a registry of language modules (`_sys.modules`) and of host modules (`_sys.pymodules`);
  - a local group and a module group;
  - a memoised search path.
- `_lookup` resolves dotted names, creating missing segments on request.
- `setSymbol`, `delSymbol` and `delGroup` bind and remove names.
- `import_module` loads a module once and installs it, or selected members, in the module group.

**The statement evaluator** (lib/Eval.py)
- A reader assembles logical statements from a stack of text lines:
  - it joins lines until the brackets balance;
  - it cuts comments;
  - it splits a line at an unquoted `;`.
- `compile` turns a statement, reading on to the terminator of a block, into a tagged statement tree.
- `interpret`, `do_assign` and `run_procedure` execute that tree. Control flow is carried by a numeric interrupt level: 0 pass, 1 continue, 2 break, 3 return.
- `run` drives the loop: pop a line, compile it, execute it.

## Structure

Both parts follow the same shape.
1. The behaviour of each operation is a function over a value: `Scope.State` for the namespace, and `Reader.Reader`, `Interp.Machine` and `TdlTypes.Store` for the evaluator.
2. The source's objects are classes whose fields the methods update in place: `SymbolTable.Table` and `Evaluator.Evaluator`.
3. Every method is proved to leave its object in the state that the function of the same name computes from the old state, and to return the same outcome.
4. The properties of the source are lemmas about those functions.

The modules are:

| module | models |
|---|---|
| `Basics`, `Strings` | Option, and the Python string operations the two files rely on (`split`, `join`, `strip`, `find`, `rfind`, slicing, ASCII `lower`, the first word, `sorted`) |
| `Namespace` | `Group` objects in a heap indexed by object id, so that identity and sharing are explicit (the root holds itself) |
| `Scope` | `symbolTable` as functions: construction, the search path, lookup, binding, deletion, import |
| `SymbolTable` | class `Table`, whose methods update the table in place |
| `TdlTypes`, `TdlStore` | values, tokens, the statement tree, the symbol store and the engine Eval.py calls |
| `Reader` | `load_statements`, `get_next_textline`, `get_next_statement` |
| `Compiler`, `CompilerProps` | `compile` and its properties |
| `Interp`, `InterpProps` | `do_assign`, `interpret`, `run_procedure`, `run` and their properties |
| `Evaluator` | class `Evaluator`, whose methods update its fields in place |

Functions over loops that need not end take a `fuel` bound. Running out of fuel is the outcome `Diverged`. This covers two loops:
- a block whose terminator never comes, which the source reads for ever at the end of the input;
- a `while` loop whose condition stays true.

Some of the evaluator's loop invariants are stated with non-recursive names: `Compiler.IfRest`, `Compiler.TryRest`, `Compiler.BlockRest` and `Interp.RunRest`. Each one only names its loop.

Several quirks of the source are modelled as written:
- The first segment of a dotted name resolves to the member of the last search group that has it, because that loop has no `break`.
- `setSymbol` creates a missing intermediate group but does not enter it.
- A `break` leaves the interrupt level at 2, so it also ends every enclosing loop.
- The statements of a `try` body do not look at the interrupt level.
- `run` pops lines without counting them.
- A statement that compiles to nothing inside a one-line body fails when it is executed.
- When a statement that compiled to nothing fails inside a procedure, the error report itself fails. The call group is then not deleted and the data group is not restored.

Four defects of the source are corrected in the model that the rest of it uses. Their as-written versions stand beside it, each with a lemma exhibiting the defect (see "Findings"):
- `_parentOf` of a name without a dot, and so `delSymbol` of such a name;
- `delGroup`, which looks up an undefined name; the corrected version looks up `name` and finds the group's parent with the corrected `_parentOf`, since the source's `_parentOf` fails for the undotted names a group usually has;
- `elif`, whose condition is lost: `compile`, and the `Evaluator` methods that model it, run the corrected `if` block loop;
- `del`, which uses up its own compiled argument list: `interpret` runs a `del` that leaves the list as it is.

## Model

| member | source | states |
|---|---|---|
| Strings.JoinSplit | astlib/symbolTable.py:365-368 | joining the parts of `name.split('.')` with dots gives back `name` |
| Strings.SplitJoin | astlib/symbolTable.py:365-368 | splitting a dot-join of dot-free parts gives back the parts |
| Strings.SortedNames | astlib/symbolTable.py:29-35 | `sorted` over a set of names is strictly increasing and holds exactly the set's names |
| Strings.StripIdempotent | lib/Eval.py:96 | stripping a stripped line changes nothing |
| Strings.Find | lib/Eval.py:323 | `find` returns -1 exactly when the character is absent, else the index of its first occurrence |
| Strings.RFind | lib/Eval.py:323 | `rfind` returns -1 exactly when the character is absent, else the index of its last occurrence |
| Strings.WordPrefixBlankFree | lib/Eval.py:174-176 | the first word of a statement contains no blank |
| Strings.LowerChars | lib/Eval.py:176 | the key is the first word lowered character by character |
| Namespace.Dir | astlib/symbolTable.py:29-31 | a group's listing is strictly sorted and holds exactly its members not starting with `_Group__` |
| Namespace.Len | astlib/symbolTable.py:19-20 | `len(group)` is the number of listed members |
| Namespace.Subgroups | astlib/symbolTable.py:33-35 | `_subgroups` is strictly sorted and holds exactly the members whose value is a group |
| Namespace.SetAttr | astlib/symbolTable.py:25-27 | `setattr` changes that one member of that one object and nothing else |
| Namespace.DelAttr | astlib/symbolTable.py:376 | `delattr` removes that one member of that one object and nothing else |
| Scope.InitialFacts | astlib/symbolTable.py:47-70 | after construction the root holds itself under `_main`; each core group exists, is a member of the root and is registered; local and module group are the root; the search names are the core names; the state is valid |
| Scope.CoreNamesAdded | astlib/symbolTable.py:189-194 | a new table's search names are `_sys`, `_builtin`, `_math`, once each, in order |
| Scope.CoreGroupsResolved | astlib/symbolTable.py:196-210 | a new table's search path is the three core groups in order |
| Scope.AddMissingKeeps | astlib/symbolTable.py:189-194 | the recomputed search names keep every old name and hold every core name |
| Scope.ResolveFacts | astlib/symbolTable.py:196-210 | the resolved search path has no group twice, holds the group of every registered name, and only registered groups |
| Scope.Fix | astlib/symbolTable.py:156-213 | `_fix_searchGroups` changes nothing when the cache matches; otherwise it refreshes the cache from the current groups, changes only the search names and the cache, keeps the table valid, and puts every core name in the search names |
| Scope.FixSearchesCoreGroups | astlib/symbolTable.py:190-210 | after a refresh no group is searched twice and every registered core group is searched |
| Scope.FixIdempotent | astlib/symbolTable.py:176-178 | refreshing twice is refreshing once |
| Scope.SetLocalMod | astlib/symbolTable.py:152-154 | `_set_local_mod` installs the two groups, leaves the cache fresh and keeps the table valid |
| Scope.SearchList | astlib/symbolTable.py:253-256 | the search order starts with the local and the module group and always includes the root |
| Scope.FirstIndex | astlib/symbolTable.py:260-262 | the first search group that has the name: none before it has it |
| Scope.LastIndex | astlib/symbolTable.py:272-274 | the last search group that has the name: none after it has it |
| Scope.CreateGrows | astlib/symbolTable.py:283-287 | creating a missing segment keeps the table valid and only adds to the heap |
| Scope.Walk | astlib/symbolTable.py:279-291 | the segment walk changes only the heap; without `create` it changes nothing; with it the table stays valid and every old member keeps its value |
| Scope.Lookup | astlib/symbolTable.py:249-291 | `_lookup` refreshes the search path and otherwise changes only the heap, and only with `create`; the table stays valid |
| Scope.LookupFrom | astlib/symbolTable.py:253-262 | the same, once the search path is refreshed |
| Scope.LookupTop | astlib/symbolTable.py:266-277 | the same, for the dotted case |
| Scope.LookupUndotted | astlib/symbolTable.py:258-262 | an undotted name resolves to the member of the first search group that has it |
| Scope.LocalShadows | astlib/symbolTable.py:254-262 | a member of the local group shadows every other member of that name |
| Scope.LookupMainIsRoot | astlib/symbolTable.py:269-270 | `_main` as the first segment starts the walk at the root |
| Scope.LookupUnknownFirst | astlib/symbolTable.py:266-277 | a first segment that is not `_main` and that no search group has raises LookupError |
| Scope.WalkMissing | astlib/symbolTable.py:288-289 | without `create`, a missing later segment raises LookupError and changes nothing |
| Scope.WalkCreatesLast | astlib/symbolTable.py:283-287 | with `create`, a missing last segment is bound to None in the current object |
| Scope.WalkCreatesIntermediate | astlib/symbolTable.py:283-287 | with `create`, a missing intermediate segment becomes a new empty group, bound in the current object and then entered |
| Scope.WalkStable | astlib/symbolTable.py:279-291 | a path a creating walk built is followed to the same value by a non-creating walk in any heap that extends it |
| Scope.LookupCreateThenFind | astlib/symbolTable.py:293-295 | after `getSymbol(name, create=True)` succeeds, `getSymbol(name)` finds the same value and changes nothing |
| Scope.TopStable | astlib/symbolTable.py:272-274 | a creating walk does not change where a first segment it does not walk resolves |
| Scope.WalkKeepsTop | astlib/symbolTable.py:279-287 | a creating walk only adds members named by the segments it walks |
| Scope.GetGroup | astlib/symbolTable.py:297-303 | `getGroup` succeeds exactly when the lookup succeeds with a group, and returns that group |
| Scope.Through | astlib/symbolTable.py:349-355 | the prefix loop of `setSymbol` ends at a group, keeps the table valid and only adds to the heap |
| Scope.SetSymbol | astlib/symbolTable.py:344-358 | `setSymbol` returns the bound value, keeps the table valid and the local and module group; when it succeeds the last segment of the name is bound to the value in some object, and every other member of every existing object keeps its value |
| Scope.Bind | astlib/symbolTable.py:347-358 | from a chosen starting group: a failure is ValueError; a success binds the last segment to the value in the group the prefix loop reaches, and every other member of every existing object keeps its value |
| Scope.SetSymbolLocal | astlib/symbolTable.py:344-358 | an undotted name is bound in the local group, and no other member of any object changes |
| Scope.SetSymbolInGroup | astlib/symbolTable.py:344-357 | with a group named, an undotted name is bound in the group `getGroup` returns, and no other member of any object changes |
| Scope.SetSymbolThroughGroup | astlib/symbolTable.py:344-357 | with `a` a group held in the local group, `setSymbol('a.b', v)` binds `b` in that group, and no other member of any object changes |
| Scope.SetSymbolThroughNonGroup | astlib/symbolTable.py:350-353 | passing through an existing member that is not a group raises ValueError and binds nothing |
| Scope.SetSymbolDoesNotDescend | astlib/symbolTable.py:354-357 | with `a` missing, `setSymbol('a.b', v)` creates an empty group `a` and binds `b` in the local group, not in `a` |
| Scope.BindPair | astlib/symbolTable.py:347-357 | the same, starting from any group |
| Scope.ParentOfAsWritten | astlib/symbolTable.py:360-369 | `_parentOf` as written only refreshes the search path |
| Scope.ParentOfAsWrittenFailsUndotted | astlib/symbolTable.py:365-369 | as written, the parent of an undotted name is the lookup of "" and raises LookupError |
| Scope.ParentOfAsWrittenAfterBinding | astlib/symbolTable.py:344-369 | a name just bound in the local group is found, yet its parent is not |
| Scope.BoundThenParent | astlib/symbolTable.py:360-369 | a name bound in the local group is found while its parent lookup fails |
| Scope.ParentOfAsWrittenWitness | astlib/symbolTable.py:360-376 | on a new table, after `setSymbol('x', 1)` the name `x` is found but its parent is not |
| Scope.ParentOf | astlib/symbolTable.py:360-369 | corrected `_parentOf`: it agrees with the source on every dotted name |
| Scope.Remove | astlib/symbolTable.py:376 | removing a child keeps the table valid and the local and module group |
| Scope.DelSymbol | astlib/symbolTable.py:371-376 | the corrected `delSymbol`, whose parent is found by the corrected `_parentOf`, keeps the table valid and the local and module group |
| Scope.DelSymbolAsWritten | astlib/symbolTable.py:371-376 | `delSymbol` as written keeps the table valid, and on a dotted name it is the corrected `delSymbol` |
| Scope.DelSymbolAsWrittenAfterBinding | astlib/symbolTable.py:344-376 | after binding a name without a dot to a non-group, `delSymbol` of it as written raises LookupError, whenever no object has a member named "" |
| Scope.DelSymbolAsWrittenFails | astlib/symbolTable.py:371-376 | once the name is found and is no group, `delSymbol` as written fails exactly as `_parentOf` as written does |
| Scope.DelSymbolDotted | astlib/symbolTable.py:371-376 | deleting `a.b`, where `a` resolves to a group `g` holding a non-group member `b`, removes exactly member `b` of `g`; apart from the search cache nothing else changes |
| Scope.DelSymbolRefusesGroup | astlib/symbolTable.py:372-374 | deleting a name that denotes a group raises LookupError and removes nothing |
| Scope.DelSymbolUndotted | astlib/symbolTable.py:371-376 | deleting an undotted non-group removes exactly that member from the first search group that has it |
| Scope.DelGroupAsWritten | astlib/symbolTable.py:378-379 | `delGroup` as written raises NameError and changes nothing |
| Scope.DelGroupAsWrittenNeverDeletes | astlib/symbolTable.py:378-386 | as written a deletable group is never deleted; the corrected version deletes it |
| Scope.DelGroupRemoves | astlib/symbolTable.py:378-386 | a deletable group is removed from the first search group that has it and nothing else changes |
| Scope.DelGroup | astlib/symbolTable.py:378-386 | corrected `delGroup` (looks up `name`, deletes through the corrected `_parentOf`) keeps the table valid and the local and module group |
| Scope.DelGroupProtected | astlib/symbolTable.py:382-383 | a group whose status is `nodelete` stays; only a message is written |
| Scope.RunModule | astlib/symbolTable.py:97-119 | running a module file registers a new group under its name, puts the file's bindings there and restores the caller's local and module group; since the file's run is given as the bindings it leaves in its own group, every old object stays as it was |
| Scope.ScanPath | astlib/symbolTable.py:92-119 | the path scan keeps the caller's groups; a module it returns is the one registered under the name; with no module file it changes nothing |
| Scope.HostImport | astlib/symbolTable.py:121-125 | a host module is taken from, or added to, `pymodules` |
| Scope.Load | astlib/symbolTable.py:86-129 | a registered module is reused unless `reload`; a loaded module is the one registered; existing objects are left as they were |
| Scope.LoadAgain | astlib/symbolTable.py:126-129 | a second load without `reload` returns the module the first load registered |
| Scope.CopyMembers | astlib/symbolTable.py:138-140 | the import-from loop changes only the module group: it binds only listed names and keeps every unlisted member |
| Scope.CopyMembersCopies | astlib/symbolTable.py:138-140 | the loop fails exactly when a listed name is not an attribute of the module; on success every listed name holds the module's value for it |
| Scope.CopyKeepsSource | astlib/symbolTable.py:139-140 | copying one member leaves the module's attributes as they were, even when the module is the module group |
| Scope.Install | astlib/symbolTable.py:131-140 | installing changes only the heap and keeps the table valid; a full import binds the module under `asname` in the module group |
| Scope.Import | astlib/symbolTable.py:76-140 | `import_module` writes one message and keeps the caller's local and module group; a failed load fails the import; a loaded module is bound under `asname`, default `name`, in a full import |
| Scope.ImportBindsModule | astlib/symbolTable.py:86-136 | a full import succeeds exactly when loading does, and binds under `asname`, default `name`, the module registered for `name` |
| Scope.ImportReusesRegistered | astlib/symbolTable.py:86-136 | importing a registered module without `reload` allocates nothing and binds the registered module under `asname`, default `name` |
| Scope.ImportTwiceSameObject | astlib/symbolTable.py:86-136 | importing twice binds the identical module object |
| Scope.ImportFromCopiesListed | astlib/symbolTable.py:137-140 | an import-from binds only the listed names, each to the loaded module's value for it, and keeps every other member of the module group |
| SymbolTable.Table.constructor | astlib/symbolTable.py:47-70 | `__init__` builds the initial table, which is valid |
| SymbolTable.Table.FixSearchGroups | astlib/symbolTable.py:156-213 | the refresh loop leaves the table as `Scope.Fix` says |
| SymbolTable.Table.SetLocalMod | astlib/symbolTable.py:152-154 | `_set_local_mod` in place, as `Scope.SetLocalMod` |
| SymbolTable.Table.FirstGroupHaving | astlib/symbolTable.py:260-262 | the search loop returns `Scope.FirstIndex` |
| SymbolTable.Table.LastGroupHaving | astlib/symbolTable.py:272-274 | the loop without `break` returns the last match |
| SymbolTable.Table.CreateMember | astlib/symbolTable.py:283-287 | creating a segment in place, as `Scope.Create` |
| SymbolTable.Table.Lookup | astlib/symbolTable.py:249-291 | `_lookup` in place, as `Scope.Lookup` |
| SymbolTable.Table.LookupFrom | astlib/symbolTable.py:253-262 | as `Scope.LookupFrom` |
| SymbolTable.Table.LookupTop | astlib/symbolTable.py:266-277 | as `Scope.LookupTop` |
| SymbolTable.Table.Walk | astlib/symbolTable.py:279-291 | the `while parts` loop, as `Scope.Walk` |
| SymbolTable.Table.GetGroup | astlib/symbolTable.py:297-303 | as `Scope.GetGroup` |
| SymbolTable.Table.Through | astlib/symbolTable.py:349-355 | the prefix loop of `setSymbol`, as `Scope.Through` |
| SymbolTable.Table.SetSymbol | astlib/symbolTable.py:344-358 | as `Scope.SetSymbol`: on success the last segment is bound to the value and every other member keeps its value |
| SymbolTable.Table.Bind | astlib/symbolTable.py:347-358 | as `Scope.Bind`: the last segment is bound in the group the prefix loop reaches |
| SymbolTable.Table.ParentOf | astlib/symbolTable.py:360-369 | as the corrected `Scope.ParentOf` |
| SymbolTable.Table.Remove | astlib/symbolTable.py:376 | as `Scope.Remove` |
| SymbolTable.Table.DelSymbol | astlib/symbolTable.py:371-376 | as the corrected `Scope.DelSymbol` |
| SymbolTable.Table.DelGroup | astlib/symbolTable.py:378-386 | as the corrected `Scope.DelGroup`, which looks up `name` and deletes through the corrected `_parentOf` |
| SymbolTable.Table.RunModule | astlib/symbolTable.py:97-119 | as `Scope.RunModule`, whose frame rests on a module run binding only in its own group |
| SymbolTable.Table.ScanPath | astlib/symbolTable.py:92-119 | the loop over `_sys.path`, as `Scope.ScanPath` |
| SymbolTable.Table.HostImport | astlib/symbolTable.py:121-125 | as `Scope.HostImport` |
| SymbolTable.Table.Load | astlib/symbolTable.py:86-129 | as `Scope.Load` |
| SymbolTable.Table.Install | astlib/symbolTable.py:131-140 | the install and import-from loop, as `Scope.Install`: the module bound under `asname`, or the listed members copied (`Scope.CopyMembersCopies`) |
| SymbolTable.Table.ImportModule | astlib/symbolTable.py:76-140 | `import_module` in place, as `Scope.Import`: the loaded module bound under `asname`, or its listed members copied |
| TdlTypes.Items | lib/Eval.py:542 | `for x in v` yields a list's items; for a string, item i is the one-character string of character i; None and numbers are refused with TypeError |
| TdlStore.GetVariable | lib/Eval.py:428 | the symbol of that name in the current data group, when there is one |
| TdlStore.SetVariable | lib/Eval.py:543 | binds a plain non-constant variable and leaves every other name alone |
| TdlStore.SetVariables | lib/Eval.py:589-590 | binds every keyword value and leaves every other name and group alone |
| TdlStore.SetDefVariable | lib/Eval.py:496 | binds a formula symbol and leaves every other name alone |
| TdlStore.AddDefPro | lib/Eval.py:558-559 | binds a procedure symbol and leaves every other name alone |
| TdlStore.DeleteSymbol | lib/Eval.py:485 | succeeds exactly when the name is bound; it removes that name only |
| TdlStore.AddRandomGroup | lib/Eval.py:578 | a new empty group under a name not in use, or None; the current group stays |
| TdlStore.DeleteGroup | lib/Eval.py:612 | removes that group only |
| TdlStore.SetDataGroup | lib/Eval.py:581 | changes the current data group only |
| Reader.Loaded | lib/Eval.py:89-96 | one line is pushed per given line |
| Reader.NumberedAt | lib/Eval.py:94-96 | the i-th given line is stripped, numbered from the end, and lands at its mirrored place on the stack |
| Reader.LoadStatementsOrder | lib/Eval.py:89-96 | loading keeps the old stack below and pushes the lines so that they are read back in their given order |
| Reader.NextTextline | lib/Eval.py:117-128 | pops and counts the top line; on an empty stack it returns the end-of-input line and changes nothing |
| Reader.LoadThenRead | lib/Eval.py:89-128 | after loading, the first given line is read first, whatever was pending |
| Reader.Settle | lib/Eval.py:152-177 | the buffer and both quote flags are reset; the key is the lower-case first word of the statement |
| Reader.NextStatementSettled | lib/Eval.py:130-177 | every statement comes back with the buffer empty, both flags down and its key as its lower-case first word |
| Reader.NextStatementSteps | lib/Eval.py:130-177 | `get_next_statement` is the first line, then the quote toggle, then the continuation loop, then the settling |
| Reader.GatherBalanced | lib/Eval.py:144-150 | the continuation loop ends with balanced brackets or at end of input; it only pops lines and keeps the quote flags |
| Reader.GatherJoinsNext | lib/Eval.py:143-150 | an unbalanced line is joined to the next line with the join text, and waits in the buffer meanwhile |
| Reader.GatherAtEnd | lib/Eval.py:145-148 | input that runs out inside an unbalanced statement makes the statement the end-of-input marker |
| Reader.SemicolonSplits | lib/Eval.py:159-165 | a `;` before the comment ends the statement; the rest up to the comment is pushed back with the current line number |
| Reader.CommentDropped | lib/Eval.py:159-161 | without such a `;` the comment is cut off and nothing is pushed back |
| Reader.BareHeaderRewritten | lib/Eval.py:171 | `else:`, `try:`, `except:` become `else :`, `try :`, `except :` |
| Reader.NoParenKeywords | lib/Eval.py:168-169 | the `kw(` rewriting leaves a statement without `(` alone |
| Compiler.Zip | lib/Eval.py:238 | `zip` pairs conditions and bodies in order, up to the shorter list |
| Compiler.IfLoop | lib/Eval.py:208-238 | the corrected `if` block loop returns as many conditions as bodies, starting with the `if` condition |
| Compiler.IfStep | lib/Eval.py:214-236 | a turn keeps one more condition than finished bodies; `endif` returns the parts with the last body closed |
| Compiler.IfStepAsWritten | lib/Eval.py:220-228 | the `elif` turn as written closes a body without adding a condition |
| Compiler.IfLoopAsWritten | lib/Eval.py:214-238 | the loop as written always returns at least one more body than it started with |
| Compiler.ForHead | lib/Eval.py:280-287 | a `for` header compiles only when its loop variable compiles to exactly a variable token and its name |
| Compiler.DefVarHead | lib/Eval.py:301-312 | `def x = expr` compiles only when its target is a variable, and stores the target as the name and the symbol tag |
| Compiler.ProcHead | lib/Eval.py:313-353 | a procedure header compiles only to a function token whose arity equals the counted parameters, with no bare parameter after a default |
| Compiler.ArgLoop | lib/Eval.py:328-351 | the parameter loop keeps the names in order, counts names and defaults, and refuses a bare parameter after a default |
| Compiler.Peel | lib/Eval.py:374-377 | one pair of enclosing brackets is dropped exactly when the text is wrapped in them with no other closing bracket inside; any other text comes back unchanged |
| Compiler.PeelTest | lib/Eval.py:375-377 | the source's test (starts with the opening bracket, ends with the closing one, and the first closing one is the last character) holds exactly when the text is wrapped in one pair |
| Compiler.CompileList | lib/Eval.py:372-383 | `del`, `print`, `return` with no argument text carry none; otherwise the unwrapped arguments are compiled as the list `[args]`, and a failed compilation fails the statement; that the bracketed and bare forms agree is `CompilerProps.ListForms` |
| CompilerProps.ListForms | lib/Eval.py:372-381 | `del (a, b)`, `del [a, b]` and `del a, b` take the same argument text `a, b` and compile to the same statement; likewise `print` and `return` |
| CompilerProps.ParenArgs | lib/Eval.py:373-377 | `key (x)` takes the argument text `x` |
| CompilerProps.BracketArgs | lib/Eval.py:373-377 | `key [x]` takes the argument text `x` |
| CompilerProps.BracketedArgs | lib/Eval.py:373-377 | an argument list in parentheses or brackets loses exactly that pair |
| CompilerProps.BareArgs | lib/Eval.py:373-377 | an argument list without brackets is taken as it is |
| Strings.StripAfterBlank | lib/Eval.py:373 | stripping the blank after the keyword gives back the argument text |
| Compiler.CompileJump | lib/Eval.py:385-391 | `break` and `continue` compile exactly when nothing follows the keyword |
| CompilerProps.TerminatorRejected | lib/Eval.py:194-195 | a statement starting with a block terminator raises a syntax error naming it |
| CompilerProps.ElifAfterElse | lib/Eval.py:220-222 | an `elif` after `else` raises "elif after else" |
| CompilerProps.ElifBodyDropped | lib/Eval.py:220-238 | as written, `if h:`, a body, `elif`, a statement, `endif` compiles to the first branch only |
| CompilerProps.ElifBodyKept | lib/Eval.py:220-238 | corrected, the same lines compile to both branches, each body under its own condition |
| CompilerProps.LastBody | lib/Eval.py:214-238 | a body of one statement closed by `endif` is returned as the last body |
| CompilerProps.Zipped | lib/Eval.py:238 | zipping one condition with two bodies drops the second body |
| CompilerProps.ElifTurnAsWritten | lib/Eval.py:220-228 | as written an `elif` line closes the body and adds no condition |
| CompilerProps.ElifTurn | lib/Eval.py:220-228 | corrected, an `elif` line closes the body and adds its own condition |
| CompilerProps.StatementTurn | lib/Eval.py:234-236 | a statement line joins the body being read |
| CompilerProps.EndifTurn | lib/Eval.py:217-219 | `endif` closes the body and returns the collected parts |
| CompilerProps.TryHeaderRejected | lib/Eval.py:240-246 | a `try` header with text after its `:` is a syntax error |
| CompilerProps.TryHeaderAccepted | lib/Eval.py:240-253 | otherwise the block loop starts with the one condition `1` and nothing read |
| CompilerProps.TryTurn | lib/Eval.py:254-267 | one turn of the `try` block loop |
| CompilerProps.EndtryTurn | lib/Eval.py:257-259 | `endtry` closes the part being read and pairs every part with its condition |
| CompilerProps.ExceptTurn | lib/Eval.py:260-264 | `except` closes the part being read and opens one guarded by `1` |
| CompilerProps.TryStatementTurn | lib/Eval.py:265-267 | a statement line joins the part being read |
| CompilerProps.TryExceptEndtry | lib/Eval.py:240-268 | `try:`, a statement, `except:`, a statement, `endtry` compile to two parts guarded by `1`, the `try` body first |
| CompilerProps.CompileAtEnd | lib/Eval.py:187-188 | at the end of the input the marker compiles to the end-of-input statement and the reader stays |
| CompilerProps.UnendedBlockDiverges | lib/Eval.py:360-369 | a block whose terminator never comes does not finish within any bound |
| CompilerProps.BlockTurnAtEnd | lib/Eval.py:362-369 | at the end of the input a block turn keeps the marker and reads on |
| CompilerProps.LastBlockTurn | lib/Eval.py:362-369 | the last turn at the end of the input runs out of steps |
| CompilerProps.BlockTurn | lib/Eval.py:362-369 | a statement line of a block is compiled and joins the block, or its failure ends the block |
| CompilerProps.AssignmentForms | lib/Eval.py:404-415 | a statement with `=` compiles exactly when the target is a variable or an array; the target stack starts with the symbol tag and then 0 for a variable |
| CompilerProps.ExpressionForms | lib/Eval.py:404-407 | nothing after `=` gives an evaluation; a refused split gives nothing |
| Interp.SetItem | lib/Eval.py:444-445 | `x[i] = rhs` on a copy replaces exactly one item, counting a negative index from the end |
| Interp.DoAssign | lib/Eval.py:421-454 | an assignment succeeds exactly when the symbol exists, is not constant, is not a formula assigned in part, and the index fits; the symbol then becomes a plain non-constant variable holding the new value, and nothing else changes |
| Interp.Exec | lib/Eval.py:456-563 | executing a statement changes only the current data group and only appends output (for expressions that call no procedure) |
| Interp.RunAll | lib/Eval.py:505-513 | a `try` part runs to its first failure and produces None |
| Interp.Block | lib/Eval.py:522-524 | a body only changes the current group and appends output (for expressions that call no procedure) |
| Interp.IfExec | lib/Eval.py:515-527 | the branches of an `if` only change the current group and append output (for expressions that call no procedure) |
| Interp.WhileLoop | lib/Eval.py:528-537 | a `while` loop only changes the current group and appends output (for expressions that call no procedure) |
| Interp.ForLoop | lib/Eval.py:538-548 | a `for` loop only changes the current group and appends output (for expressions that call no procedure) |
| Interp.ExecDel | lib/Eval.py:473-487 | `del` as intended, reading its argument list without using it up: it writes no output and changes only the current group |
| Interp.ExecDelAsWritten | lib/Eval.py:473-487 | `del` as written has the same outcome, and leaves in the statement only the tokens it did not pop, in reverse order |
| Interp.DelPopped | lib/Eval.py:474-485 | `del` pops no more than the whole list, and the tag and the count whenever there are two tokens |
| Interp.PairsPopped | lib/Eval.py:480-485 | the deletion loop pops no more tokens than there are |
| Interp.DelNames | lib/Eval.py:480-485 | the deletion loop removes the named symbols when it succeeds and changes no other name |
| Interp.ExecPrint | lib/Eval.py:488-492 | `print` without arguments writes an empty line; otherwise it succeeds exactly when the arguments evaluate to a list or string, writes one line holding its items and leaves the store alone; on failure nothing is written |
| Interp.ExecAssign | lib/Eval.py:497-500 | an assignment only changes the current group (for expressions that call no procedure) |
| Interp.Docstring | lib/Eval.py:550-556 | a docstring is taken off the body; without one the body is kept whole |
| Interp.ExecDef | lib/Eval.py:549-559 | `def` fails on an empty body (IndexError) or a first statement that compiled to nothing (TypeError); otherwise the name is bound to a procedure with the parameters, keywords, and the body and description `Docstring` splits; no other name changes and nothing is written |
| Interp.BindArgs | lib/Eval.py:583 | binding succeeds exactly when every parameter is a name; each parameter is then bound to the argument at its last position, and no other name or group changes |
| Interp.KwValues | lib/Eval.py:585-590 | each keyword that is a name maps to its value, and nothing else is bound |
| Interp.ProcLoop | lib/Eval.py:595-604 | a procedure body fails only when a statement that compiled to nothing is in it |
| Interp.Unwrap | lib/Eval.py:606-609 | a one-element list becomes its element; anything else is kept |
| Interp.EnterCall | lib/Eval.py:577-590 | the call group becomes current and no other group changes; it succeeds exactly when all parameters and keywords are names, and then binds each keyword to its value, each other parameter to its argument, and leaves every other name as the group had it |
| Interp.LeaveCall | lib/Eval.py:611-613 | the call group is deleted and the saved group is current again |
| Interp.RunProcedure | lib/Eval.py:567-614 | a call succeeds only for a procedure given as many arguments as parameters, and only appends output; what the body runs in is `InterpProps.ProcedureBindsArguments` |
| Interp.LineOutcome | lib/Eval.py:106-111 | one line of `run` only changes the current group and appends output (for expressions that call no procedure) |
| Interp.RunLoopTurn | lib/Eval.py:101-111 | `run` pops its top line, handles it, and goes on |
| InterpProps.IfRunsFirstTrue | lib/Eval.py:515-527 | when the earlier conditions are false and condition k is true, exactly body k runs, whatever the later conditions are |
| InterpProps.IfAllFalse | lib/Eval.py:519-527 | when every condition is false nothing runs and the value is None |
| InterpProps.WhileExit | lib/Eval.py:528-537 | a `while` that finishes saw its condition false in the final store, or a break or return pending |
| InterpProps.NestedBreakEndsOuter | lib/Eval.py:528-537 | a `break` in an inner loop also ends the outer loop, and level 2 stays set |
| InterpProps.ForBindsLast | lib/Eval.py:538-548 | after a `for` with an empty body the loop variable holds the last item |
| InterpProps.ForPrefix | lib/Eval.py:538-548 | a `for` loop over the items is the loop over the first k items followed, when those ran through, by the loop over the rest |
| InterpProps.ForRunsItem | lib/Eval.py:542-548 | after the first k items have run through, the body runs with the loop variable bound to item k, and the loop goes on with the later items unless that run failed or ended it |
| InterpProps.TryBodyIgnoresBreak | lib/Eval.py:503-510 | the statements after a `break` in a `try` body still run |
| InterpProps.TryOutcome | lib/Eval.py:503-513 | a failing `try` body runs the `except` part; a body that does not finish is not caught |
| InterpProps.PairsDeleted | lib/Eval.py:480-485 | deleting the pairs of a list of names succeeds exactly when the names differ and are all bound |
| InterpProps.PairsTargets | lib/Eval.py:480-485 | the names the deletion loop reads from the pairs of a list of names are those names, in order |
| InterpProps.PairsRead | lib/Eval.py:480-485 | a deletion loop over the pairs of a list of names that succeeds pops every pair |
| InterpProps.DelRemovesNames | lib/Eval.py:473-487 | `del n1, ..., nk` succeeds exactly when the names differ and are all bound; it then removes exactly those names, otherwise it raises the `del` error; no other name changes and nothing is written |
| InterpProps.DelTwiceAsWritten | lib/Eval.py:474-482 | as written a successful `del` empties its own list, so running it again raises IndexError whatever the names are bound to |
| InterpProps.PrintEmptyLine | lib/Eval.py:488-492 | `print` without arguments writes an empty line and changes nothing else |
| InterpProps.PrintList | lib/Eval.py:488-492 | a list argument is written as its items |
| InterpProps.PrintString | lib/Eval.py:488-492 | a string argument is written one character per item |
| InterpProps.PrintNotIterable | lib/Eval.py:488-492 | None or a number raises TypeError and nothing is written |
| InterpProps.DefTakesDocstring | lib/Eval.py:549-559 | a body opening with a lone string constant stores the trimmed string as description and the rest as code |
| InterpProps.DefWithoutDocstring | lib/Eval.py:549-559 | any other body is stored whole, without description |
| InterpProps.ProcedureRestoresStore | lib/Eval.py:577-613 | a call that returns leaves every group and the current group as they were |
| InterpProps.GroupsRestored | lib/Eval.py:578-612 | a group added and then removed, with nothing else touched, leaves the groups as they were |
| InterpProps.ProcedureReportsErrors | lib/Eval.py:595-604 | once past its checks, a call reports errors in its body instead of raising them |
| InterpProps.ProcedureReturnsValue | lib/Eval.py:595-609 | a `return` reached after the statements before it ran through ends the call with the returned value (its element when a one-element list), clears the interrupt level and leaves the groups as they were |
| InterpProps.ReturnEndsBody | lib/Eval.py:596-601 | a `return` reached after the statements before it ran through ends the body with its value and clears the interrupt level; the statements after it never run |
| InterpProps.ProcLoopSplit | lib/Eval.py:596-601 | a body whose first statements run through goes on with the rest from where they left it |
| InterpProps.ProcedureBindsArguments | lib/Eval.py:577-613 | a call past its checks runs the body in its new group, current and holding exactly the keywords (the caller's over the defaults) and the other parameters bound to their arguments; afterwards the group is removed, the caller's group is current again and a one-element list is returned as its element |
| InterpProps.CallerKeywordsWin | lib/Eval.py:585-587 | the caller's keywords override the defaults |
| InterpProps.RunSkipsEmptyLines | lib/Eval.py:101-106 | empty lines are skipped and change nothing |
| InterpProps.RunConsumesText | lib/Eval.py:101-105 | a `run` that succeeds has used up every pending line |
| InterpProps.RunKeepsGroups | lib/Eval.py:98-112 | `run` only changes the current group and only appends output (for expressions that call no procedure) |
| Evaluator.Evaluator.constructor | lib/Eval.py:44-54 | a new evaluator has nothing pending, an empty buffer, both flags down, and interrupt level 0 |
| Evaluator.Evaluator.LoadStatements | lib/Eval.py:89-96 | the push loop leaves the stack as `Reader.LoadStatements` |
| Evaluator.Evaluator.GetNextTextline | lib/Eval.py:117-128 | as `Reader.NextTextline` |
| Evaluator.Evaluator.GetNextStatement | lib/Eval.py:130-177 | leaves the reader and returns the statement and key as `Reader.NextStatement` |
| Evaluator.Evaluator.GetFirstLine | lib/Eval.py:133 | the given line, or the next text line |
| Evaluator.Evaluator.ToggleQuotes | lib/Eval.py:136-139 | the triple-quote flags, as `Reader.Toggle` |
| Evaluator.Evaluator.GatherLines | lib/Eval.py:143-150 | the continuation loop, as `Reader.Gather` |
| Evaluator.Evaluator.SettleLine | lib/Eval.py:152-177 | as `Reader.Settle` |
| Evaluator.Evaluator.TidyLine | lib/Eval.py:157-171 | comment, semicolon and keyword handling, as `Reader.Tidy` |
| Evaluator.Evaluator.Compile | lib/Eval.py:180-188 | `compile` leaves the reader and returns the tree as `Compiler.Compile`, which runs the corrected `elif` |
| Evaluator.Evaluator.CompileStatement | lib/Eval.py:187-417 | the dispatch on the first word, as `Compiler.CompileStatement` |
| Evaluator.Evaluator.CompileIf | lib/Eval.py:198-238 | as `Compiler.CompileIf`, with the corrected `elif` |
| Evaluator.Evaluator.IfBlock | lib/Eval.py:208-238 | the corrected `if` block loop, as `Compiler.IfLoop` |
| Evaluator.Evaluator.IfTurn | lib/Eval.py:215-236 | one turn of the corrected loop, with the loop's remaining result unchanged |
| Evaluator.Evaluator.CompileTry | lib/Eval.py:240-268 | as `Compiler.CompileTry` |
| Evaluator.Evaluator.TryBlock | lib/Eval.py:248-268 | the `try` block loop, as `Compiler.TryLoop` |
| Evaluator.Evaluator.TryTurn | lib/Eval.py:255-267 | one turn of that loop |
| Evaluator.Evaluator.CompileHead | lib/Eval.py:271-370 | `def`, `for`, `while`, as `Compiler.CompileHead` |
| Evaluator.Evaluator.Body | lib/Eval.py:357-370 | the one-line or block body, as `Compiler.Body` |
| Evaluator.Evaluator.BlockBody | lib/Eval.py:360-370 | the loop up to `end<key>`, as `Compiler.BlockLoop` |
| Evaluator.Evaluator.BodyTurn | lib/Eval.py:363-369 | one turn of that loop |
| Evaluator.Evaluator.DoAssign | lib/Eval.py:421-454 | the store becomes `Interp.DoAssign`'s on success and stays on failure |
| Evaluator.Evaluator.Interpret | lib/Eval.py:456-563 | `interpret` leaves the machine and returns the outcome as `Interp.Exec` |
| Evaluator.Evaluator.Simple | lib/Eval.py:468-502 | the statements without a body, as `Interp.Exec` |
| Evaluator.Evaluator.Compound | lib/Eval.py:503-548 | `try`, `if`, `while`, `for`, as `Interp.Exec` |
| Evaluator.Evaluator.Delete | lib/Eval.py:473-487 | as the corrected `Interp.ExecDel` |
| Evaluator.Evaluator.DeleteNames | lib/Eval.py:480-485 | the deletion loop, as `Interp.DelNames` |
| Evaluator.Evaluator.PrintItems | lib/Eval.py:488-492 | as `Interp.ExecPrint`: one line with the items of the evaluated list or string |
| Evaluator.Evaluator.AssignStatement | lib/Eval.py:497-500 | as `Interp.ExecAssign` |
| Evaluator.Evaluator.Define | lib/Eval.py:549-559 | as `Interp.ExecDef`: the name bound to the procedure with its description split off |
| Evaluator.Evaluator.RunPart | lib/Eval.py:505-513 | the loop over a `try` part, as `Interp.RunAll` |
| Evaluator.Evaluator.BlockRun | lib/Eval.py:522-524 | the loop over a body that polls the interrupt level, as `Interp.Block` |
| Evaluator.Evaluator.IfRun | lib/Eval.py:515-527 | as `Interp.IfExec` |
| Evaluator.Evaluator.WhileRun | lib/Eval.py:528-537 | as `Interp.WhileLoop` |
| Evaluator.Evaluator.ForRun | lib/Eval.py:538-548 | as `Interp.ForLoop` |
| Evaluator.Evaluator.RunProcedure | lib/Eval.py:567-614 | `run_procedure`, as `Interp.RunProcedure`, whose binding of arguments is `InterpProps.ProcedureBindsArguments` |
| Evaluator.Evaluator.EnterGroup | lib/Eval.py:577-590 | as `Interp.EnterCall`: keywords and arguments are bound in the call group |
| Evaluator.Evaluator.BindParams | lib/Eval.py:583 | the argument loop, as `Interp.BindArgs`: each parameter is bound to its argument |
| Evaluator.Evaluator.ProcRun | lib/Eval.py:595-604 | the body loop of a call, as `Interp.ProcLoop` |
| Evaluator.Evaluator.Run | lib/Eval.py:98-112 | `run` leaves the reader and machine and returns the value as `Interp.RunLoop` |
| Evaluator.Evaluator.RunTurn | lib/Eval.py:101-111 | one turn of `run` |
| Evaluator.Evaluator.RunStatement | lib/Eval.py:106-111 | one line of `run`, as `Interp.LineOutcome` |

## Left out

- The expression engine (`Expression.compile`, `Expression.eval`, `opcodes`) and the text utilities (`split_delim`, `find_unquoted_char`, `parens_matched`, `split_list`, `trimstring`, `Command2Expr`) are not part of this model. They are total functions held in `TdlTypes.Engine`.
  - A compilation with `reverse=True` is modelled by reading the unreversed stack from its front.
  - The end-of-input marker is a string of the engine.
- The symbol-table API Eval.py calls (the `Symbol` module) is not part of this model. `TdlStore` defines it over a store of named groups, resolving names in the current data group only.
- `addRandomGroup` picks a random name. The model uses a counter, so a taken name is possible but not random.
- Interactive mode is left out because it is console I/O: `get_input`, the prompt, and the rule that the reader waits for more input instead of stopping at the end. The model is the non-interactive evaluator.
- Also left out, as file I/O or unused settings: `load_file`, `eval`, `clear`, `set_debug`, `Help`, `addBuiltin('GUI')`, `debug` and `GUI`.
- `raise_error` appends the line number and text to its message. Errors are tagged values here, and message texts are kept only where they are short.
- The float-to-int conversion of indices in `do_assign`, floats in general, dictionaries and tuple indices are left out. A tuple index on a list is modelled as the TypeError the list raises. `deepcopy` is implicit, because values are immutable.
- `print` output is recorded as its items, not as their `str` text. `PrintShortExcept` is recorded as the procedure name and the error.
- The `text` argument of `interpret` (`Expression.text`) and the `_status` attribute that `run` sets are left out; nothing in the core reads them.
- Compiler.Compile: reading is bounded by `fuel` statements. A block whose terminator never comes yields `Diverged` instead of looping for ever.
- Interp.WhileLoop: each loop is bounded by `fuel` iterations, and using it up is `Diverged`. `Diverged` is not an exception, so no `try` or procedure call catches it.
- Scope.Import: the files and host modules are inputs (`Scope.Env`):
  - the listings of the directories, with a missing listing standing for `os.listdir` raising;
  - the bindings that running each module file leaves in its group;
  - the attributes of each host module.
  
  The messages printed while importing are not modelled. Errors raised while a module file runs are swallowed, as in the source.
- `_sys.pymodules` starts empty. The source shares the host's `sys.modules`, which this model does not have.
- The bookkeeping members of `_sys` are fields of the state, not members of that group. This applies to `localGroup`, `moduleGroup`, `searchGroups`, `modules`, `pymodules` and `path`, and to the table's private attributes.
- The attributes of the class `symbolTable` and the `compiler` attribute are not members of the root.
- In `_fix_searchGroups`, the branch that searches the values of `_sys.modules` for an unregistered name is left out. Only the core names and names already registered ever enter the search names.
- `list_groups`, `show_group`, `has_symbol`, `has_group` and `__repr__` are left out because they only format output.
- `createGroup` is left out because it only constructs a group.
- `_load_functions` is left out because it wraps host closures.
- `placeGroup` is left out because it is broken: it has no `self` and refers to `selg`.
- Scope.LookupCreateThenFind: the names it excludes are those whose later segments repeat the first. Creating such a member in a search group can change where the first segment resolves.
- Scope.ParentOfAsWrittenAfterBinding: it holds for tables in which no object has a member named "". Such a member would make the lookup of "" succeed.
- Scope.DelSymbol: the model deletes with the corrected `_parentOf`; the source's version is Scope.DelSymbolAsWritten (see "Findings").
- Scope.DelGroup: besides looking up `name` for the undefined `gname`, it deletes through the corrected `_parentOf`; with the source's `_parentOf` an undotted group name would still raise LookupError (see "Findings").
- SymbolTable.Table.DelGroup: it is the corrected Scope.DelGroup, with both corrections.
- Scope.RunModule: running a module file is given as the bindings it leaves in its own group (`Scope.Env`). A module file that rebinds or deletes names of other groups is not modelled, and the claim that old objects stay as they were rests on that.
- Scope.Walk: `hasattr` and `getattr` see only members of objects in the heap. Python also finds attributes of numbers and strings (`x.real` for a number `x`) and the class attributes of `Group` (`_subgroups`, the dunder methods); for those the model reports LookupError, or AttributeError when creating.
- Interp.Exec: expressions cannot call procedures. The source hands `run_procedure` to the expression engine (lib/Eval.py:39-40), so an expression such as `f(1)` runs a procedure, which adds and removes a call group and moves the group counter; a call whose error report fails leaves its group current. `Engine.eval` here is a function of the store alone, so the frame contracts below hold for expressions that call no procedure.
- Interp.Block: its frame (only the current group changes) holds for expressions that call no procedure.
- Interp.IfExec: its frame holds for conditions that call no procedure.
- Interp.WhileLoop: its frame holds for conditions and bodies whose expressions call no procedure.
- Interp.ForLoop: its frame holds for expressions that call no procedure.
- Interp.ExecAssign: its frame holds for a right side that calls no procedure.
- Interp.LineOutcome: its frame holds for expressions that call no procedure.
- Interp.RunProcedure: a body's expressions call no procedure, so nested calls are not modelled.
- InterpProps.RunKeepsGroups: it holds for expressions that call no procedure.
- Interp.ExecDel: `interpret` runs `del` as intended, reading the argument list without using it up. The source's in-place reversal and popping is Interp.ExecDelAsWritten (see "Findings").
- Evaluator.Evaluator.Delete: it runs the corrected `del` of Interp.ExecDel.
- Compiler.IfLoop: `compile` and the `Evaluator` methods that model it run this corrected `if` block loop; the source's `elif` handling is Compiler.IfLoopAsWritten (see "Findings").
- InterpProps.ForBindsLast: it is stated for a loop with an empty body; for any body, the order of the iterations is InterpProps.ForRunsItem.

## Findings

| source | as written | input that shows it | evidently intended | confidence | as-written member | corrected member |
|---|---|---|---|---|---|---|
| astlib/symbolTable.py:365-368 | `_parentOf` looks up the dot-join of every segment but the last. For a name without a dot that is the lookup of "", which raises LookupError. | `setSymbol('x', 1)`, then `delSymbol('x')` on a new table | the parent of an undotted name is the search group where `_lookup` found it | high; not executed | Scope.ParentOfAsWritten, Scope.DelSymbolAsWritten, Scope.DelSymbolAsWrittenAfterBinding, Scope.ParentOfAsWrittenWitness | Scope.ParentOf, Scope.DelSymbolUndotted |
| astlib/symbolTable.py:379 | `delGroup` looks up `gname`, a name the method does not define, so every call raises NameError | `delGroup('g')` for a deletable group `g` | look up `name`, and find its parent with the corrected `_parentOf` (the first finding), without which an undotted `g` still raises LookupError | high; not executed | Scope.DelGroupAsWritten, Scope.DelGroupAsWrittenNeverDeletes | Scope.DelGroup, Scope.DelGroupRemoves, Scope.DelGroupProtected |
| lib/Eval.py:223-228 | an `elif` line splits the `if` line again and adds no condition, so each body after the first is paired with the next recorded condition. Without an `else`, the `elif` bodies are dropped by `zip`. With an `else`, the first `elif` body runs under the `else`'s constant `1` and the `else` body is dropped. | the lines `if a:`, `x = 1`, `elif b:`, `y = 2`, `endif` | the condition of the `elif` line is compiled and paired with its body | high; not executed | Compiler.IfLoopAsWritten, CompilerProps.ElifBodyDropped | Compiler.IfLoop, CompilerProps.ElifBodyKept |
| lib/Eval.py:474-482 | `del` reverses its compiled argument list in place and pops every token it reads, so the statement's own list is used up. Running the same statement again pops from an empty list and raises IndexError, which the `del` code does not catch (an enclosing `try` body or procedure call would). | the lines `for x in [1, 2]:`, `del x`, `endfor`: `for` binds `x` again on each pass, and the second `del x` fails | `del` reads its argument list without changing it, so every run deletes the names again | high; not executed | Interp.ExecDelAsWritten, InterpProps.DelTwiceAsWritten | Interp.ExecDel, InterpProps.DelRemovesNames |

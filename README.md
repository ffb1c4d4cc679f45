# Script Report shell core, modelled in Dafny

This project models the core of the Script Report JavaScript shell (`engine/shell.cpp`) and the SQL connection table of its `sql` script library (`scriptlibs/srsql/scriptablesql.cpp`), and proves properties of the model.

- **Expression completion** (`completion.dfy`, with `strings.dfy` and `values.dfy`). `completeScriptExpression` splits a partial expression from the right. The trailing identifier run is the `name`, and its start offset is reported. The dot-separated segments in front of it form the `path`. `findCompletions` resolves the path against the context's `this` object, skipping a leading `this`. It collects the property names that start with `name`, adds the reserved words `this`, `true`, `false` and `null` when the path is empty, and sorts the list. It also narrows the longest common prefix of the matching names and writes the part after `name` to `commonName`.
  - The script engine's value graph is a datatype. Objects are ordered property lists with first-match lookup. The order is the one the property iterator visits.
  - The splitting loops, the collecting loop and the common-prefix inner loop are methods proved against specification functions: `SplitExpression`, `PathBefore`, `Collected`, `CommonName` and `LongestCommonPrefix`.
- **Installing the shell into an engine** (`binding.dfy`). `initEngine` either merges the old global object into the scriptable shell engine's wrapper, or keeps the old global object and installs an undeletable `print`. Both policies then add an undeletable `sr` with an undeletable `engine`. The static `print` forwarder is also here.
- **Run modes** (`runmodes.dfy`, `runproofs.dfy`, `shell.dfy`). The shell's private state is a `Shell` class. It holds a `ScriptEngine` object with the global object and the process-events interval. The five `run*` methods, `exit`, `reset`, `engine()`, the lazy initialisation guard and the setters are methods. Each is proved equal, through `State()`, to a function of the pure state machine in `RunModes`, where `Run(mode, s)` is the state after one run.
  - The state has two halves. The `Session` is the line number, the exit flag and code, the file name, the reader's remaining input and the output logs. The `Setup` is the isInitialized flag, the policy, the engine's global object and interval, and the count of initEngine calls. The class reads them through `SessionState()` and `SetupState()`.
  - The line reader and the engine's `evaluate` are oracles: a list of chunks, each giving the text `readSentence`/`readAll` returns, the line number it leaves behind, and the outcome of evaluating that text. The outcome is a value, whether it threw, and an `exit(code)` the script called.
  - Printing and the `finished` signal are logs.
  - `Taken`, `Apply` and the filter functions are a reference account of a run: which chunks it reads, and what each log gains. `RunProofs.RunApply` shows `Run` agrees with it, and the other lemmas of `RunProofs` are derived from that.
- **SQL connections** (`sql.dfy`). The connection table is a `map` from names to wrappers. The SQL library's set of registered connection names is a `set`, of which each object holds its own copy. `addDatabase`, `cloneDatabase`, `database`, `removeDatabase`, `setAutoThrow` and the destructor are methods of a `ScriptableSql` class. Each is proved equal to a function on `SqlState`, and the lemmas state the acceptance, refusal, removal and cleanup rules.

Modelling choices:
- Identifier characters are ASCII letters, ASCII digits and `_`. `QChar::isLetter` and `QChar::isNumber` also accept other Unicode letters and numbers.
- The order `qStableSort` uses is lexicographic on characters (`Strings.StrLe`). It is a total order, so the sorted result is unique (`Strings.SortedUnique`), and stability makes no difference.
- The context's `this` object, during completion from the top level, is the engine's global object.
- `readAll` and `readSentence` take their text from the same chunk list.

## Model

Rows whose third column starts with "definition" name the reference functions the other rows are proved against; they carry no contract of their own.

| member | source | states |
|---|---|---|
| Completion.IsIdentifierChar | engine/shell.cpp:508-512 | definition: a letter, a digit or `_`, with ASCII letters and digits (see "## Left out") |
| Completion.IdentifierStart | engine/shell.cpp:616-618 | the backward scan stops at the start of the maximal run of identifier characters ending at the given index: every character in the run is one, and the one before it is not |
| Completion.ScanIdentifier | engine/shell.cpp:616-618 | the `while` loop returns exactly `IdentifierStart` |
| Completion.PathBeforeText | engine/shell.cpp:623-633 | the text the path loop consumed is its segments written out left to right, each followed by a dot |
| Completion.PathBeforeSegments | engine/shell.cpp:625-631 | every path segment consists of identifier characters only |
| Completion.PathBefore | engine/shell.cpp:623-633 | definition: while the character at the position is a dot past index 0, the identifier run before it is the next segment to the left |
| Completion.PathStart | engine/shell.cpp:623-633 | definition: where the text the path loop consumed starts |
| Completion.SplitExpression | engine/shell.cpp:607-633 | definition: the trailing identifier run is `name`, its start is the completion start, and the path is read in front of it |
| Completion.PathBeforeStops | engine/shell.cpp:625 | the path loop stops where no identifier character is glued to the path and no consumable dot precedes it; a dot at index 0 is never consumed |
| Completion.PathBeforeStep | engine/shell.cpp:625-632 | one round of the dot loop prepends the identifier run before the dot to the rest of the path |
| Completion.ScanPath | engine/shell.cpp:623-633 | the dot loop with `prepend` returns exactly `PathBefore` |
| Completion.SplitScriptExpression | engine/shell.cpp:607-633 | the index arithmetic of completeScriptExpression, including its empty-expression branch, computes exactly `SplitExpression` |
| Completion.SplitName | engine/shell.cpp:612-622 | `name` is the maximal trailing run of identifier characters, and the start offset is where it begins |
| Completion.SplitPathText | engine/shell.cpp:612-633 | the text before `name` is the path segments, each followed by a dot |
| Completion.SplitPathSegments | engine/shell.cpp:623-633 | the segments are identifier runs; two dots in a row give an empty segment |
| Completion.SplitPathStops | engine/shell.cpp:623-633 | the path cannot be extended further to the left, and a leading dot of the expression is never part of it |
| Completion.SplitAfterNonIdentifier | engine/shell.cpp:616-621 | an expression ending in a non-identifier character has an empty `name` starting at its length |
| Completion.SplitExamplesNoPath | engine/shell.cpp:607-633 | "" gives start 0 with no path or name; ".foo" leaves the leading dot unconsumed and completes "foo" from 1 |
| Completion.SplitExampleThis | engine/shell.cpp:607-633 | "this." gives path ["this"] and an empty name at 5 |
| Completion.SplitExampleNested | engine/shell.cpp:607-633 | "a.b.ba" gives path ["a", "b"] and name "ba" at 4 |
| Completion.SplitExampleDoubleDot | engine/shell.cpp:607-633 | "a..b" gives an empty segment: path ["a", ""] and name "b" at 3 |
| Completion.Matching | engine/shell.cpp:546-550 | definition: the property names that start with `name`, in iteration order |
| Completion.Walk | engine/shell.cpp:524-526 | definition: one property lookup per path segment |
| Completion.Resolve | engine/shell.cpp:515-527 | definition: a leading `this` is skipped and the rest of the path is walked from the context object |
| Completion.Collected | engine/shell.cpp:529-585 | definition: the matching property names of the resolved value, then the matching reserved words when the path is empty |
| Completion.CommonName | engine/shell.cpp:544-566 | definition: the longest common prefix of the matching property names with `name` cut off, when `name` is non-empty and some name matched |
| Completion.WalkConcat | engine/shell.cpp:521-526 | following a path is following its parts one after the other |
| Completion.WalkUndefined | engine/shell.cpp:524-526 | every lookup on undefined is undefined |
| Completion.WalkDeadEnd | engine/shell.cpp:524-526 | a segment naming a missing property makes the whole resolution undefined |
| Completion.ResolveThis | engine/shell.cpp:518-523 | only a leading `this` is skipped; `this` anywhere else is looked up as a property |
| Completion.ResolvePath | engine/shell.cpp:515-527 | the resolution loop computes exactly `Resolve` |
| Completion.MatchingMembers | engine/shell.cpp:546-550 | the collected names are exactly the property names that have `name` as a case-sensitive prefix |
| Completion.MatchingAppend | engine/shell.cpp:546-563 | filtering distributes over concatenation, which is how the loop extends `result` |
| Completion.MatchingEmptyName | engine/shell.cpp:530-535 | with an empty `name` every property name is collected, in iteration order |
| Completion.MatchingReserved | engine/shell.cpp:567-585 | the reserved words are tested in the order `this`, `true`, `false`, `null`, each kept exactly when it starts with `name` |
| Completion.CollectAll | engine/shell.cpp:530-535 | the empty-name loop collects every property name |
| Completion.SharedPrefixLength | engine/shell.cpp:554-559 | the inner loop stops at the length of the common prefix of `common` and the property name |
| Completion.CollectMatching | engine/shell.cpp:544-563 | the loop collects exactly the matching names, and `common` is null until a name matches and then the longest common prefix of the names matched so far |
| Completion.AppendReserved | engine/shell.cpp:567-585 | the four tests append exactly the matching reserved words |
| Completion.CollectedMembers | engine/shell.cpp:529-585 | a word is a candidate exactly when it is a property name of the resolved value starting with `name`, or a reserved word starting with `name` while the path is empty |
| Completion.CollectedEmptyName | engine/shell.cpp:530-542 | with nothing typed, the candidates are all property names, then all four reserved words when the path is empty |
| Completion.DeadEndHasNoCandidates | engine/shell.cpp:518-566 | a non-empty path, with or without a leading `this`, through a missing property yields no candidates and leaves `commonName` untouched |
| Completion.CommonNameSpec | engine/shell.cpp:544-566 | `commonName` is written exactly when `name` is non-empty and a property matched; `name` followed by it is a prefix of every matching property name, and it is the longest such prefix; reserved words take no part |
| Completion.FindCompletions | engine/shell.cpp:514-589 | the result is sorted and a permutation of the collected candidates, and `commonName` is the common-prefix remainder or is left unchanged |
| Completion.CompleteExpression | engine/shell.cpp:598-636 | completion start, sorted candidates and `commonName` exactly as the split expression determines them |
| Strings.IsPrefix | engine/shell.cpp:548-549 | definition: `startsWith`, case-sensitive: the first characters of the string are the prefix |
| Strings.StrLe | engine/shell.cpp:587 | definition: the order `qStableSort` sorts by, lexicographic on characters (see "## Left out") |
| Strings.PrefixTransitive | engine/shell.cpp:548 | a prefix of a prefix is a prefix |
| Strings.PrefixLength | engine/shell.cpp:554-559 | the strings agree up to the returned index, which is where they first differ or where the shorter one ends |
| Strings.PrefixLengthUnique | engine/shell.cpp:554-559 | any index with those properties is that index |
| Strings.CommonPrefix | engine/shell.cpp:560 | `common.mid(0, i)` is a prefix of both strings |
| Strings.CommonPrefixIsLongest | engine/shell.cpp:554-560 | every common prefix of two strings is a prefix of `CommonPrefix` |
| Strings.LongestCommonPrefix | engine/shell.cpp:544-563 | narrowing `common` over the list yields a prefix of every element |
| Strings.LongestCommonPrefixIsLongest | engine/shell.cpp:544-563 | every prefix all elements share is a prefix of the narrowed `common` |
| Strings.StrLeTotal | engine/shell.cpp:587 | the string order is total |
| Strings.StrLeTransitive | engine/shell.cpp:587 | the string order is transitive |
| Strings.StrLeAntisymmetric | engine/shell.cpp:587 | the string order is antisymmetric |
| Strings.Insert | engine/shell.cpp:587 | inserting into a sorted list keeps it sorted and adds exactly one element |
| Strings.SortStrings | engine/shell.cpp:587 | the sort gives a sorted permutation |
| Strings.SortedUnique | engine/shell.cpp:587 | two sorted permutations of the same list are equal, so the result does not depend on how it was sorted |
| ScriptValues.NamesOf | engine/shell.cpp:531-534 | the iterator yields one name per property, in order |
| ScriptValues.FindIndex | engine/shell.cpp:524 | the first property with the name, or none |
| ScriptValues.FindIndexUnique | engine/shell.cpp:524 | that index is the only one with those properties |
| ScriptValues.Find | engine/shell.cpp:524 | a property is found exactly when the name occurs, and it carries that name |
| ScriptValues.Lookup | engine/shell.cpp:525 | definition: the value of the first own property with the name; undefined when there is none, or when the value looked in is not an object |
| ScriptValues.SetProperty | engine/shell.cpp:140 | definition: `setProperty` replaces the property of that name in place, or appends a new one |
| ScriptValues.SetPropertyFind | engine/shell.cpp:140 | after `setProperty` the name has the new property, every other name keeps its old one, and unique names stay unique |
| ScriptValues.FindAppend | engine/shell.cpp:140 | an appended property never hides an earlier one of the same name |
| EngineBinding.Merge | engine/shell.cpp:132-144 | definition: every old global other than `print` is set on the wrapper, in iteration order, with its flags |
| EngineBinding.Installed | engine/shell.cpp:125-157 | definition: the merge or isolate step, then the `sr` object |
| EngineBinding.MergeFind | engine/shell.cpp:132-144 | after the copy loop, every old global other than `print` shadows the wrapper's member of the same name; `print` and names the old global object lacks keep the wrapper's member |
| EngineBinding.InstalledFind | engine/shell.cpp:125-157 | under each policy, what every global name holds after initEngine: `sr` is the new object; merge gives old globals except `print` over the wrapper's members; isolate gives the forwarder as `print` over the old globals |
| EngineBinding.InstalledSr | engine/shell.cpp:152-156 | `sr` and `sr.engine` are undeletable under both policies, and `sr.engine` is the scriptable shell engine's wrapper |
| EngineBinding.IsolatedPrint | engine/shell.cpp:145-150 | the isolate policy installs the forwarder as an undeletable `print` |
| EngineBinding.MergeUnique | engine/shell.cpp:132-144 | merging keeps property names unique |
| EngineBinding.InstalledUnique | engine/shell.cpp:125-157 | initEngine keeps property names unique |
| EngineBinding.PrintForward | engine/shell.cpp:52-67 | one printOut call per argument, in order, with `last` true only for the final one; no call for no arguments; the script gets undefined |
| RunModes.Initial | engine/shell.cpp:26-46 | definition: the ShellPrivate defaults: line 1, no exit, code 0, empty file name, not initialised, merge policy, a fresh engine, nothing logged |
| RunModes.Begin | engine/shell.cpp:165-170 | definition: the run prologue, the lazy guard and then exit and exitCode cleared |
| RunModes.RunSession | engine/shell.cpp:172-290 | definition: the loop with or without printing and then the epilogue, the single read then the epilogue, or the single read alone, per mode |
| RunModes.EnsureInitialized | engine/shell.cpp:165-168 | definition: the lazy guard sets the flag and installs the shell only when the flag was clear |
| RunModes.ExitShell | engine/shell.cpp:306-310 | definition: exit set, exitCode stored, `finished(code)` emitted |
| RunModes.Report | engine/shell.cpp:179-183 | definition: an uncaught exception is logged; otherwise a non-undefined result is printed in the printing modes |
| RunModes.Step | engine/shell.cpp:173-183 | definition: one read, its evaluation at the line held before the read, an exit() of the script, the report |
| RunModes.Loop | engine/shell.cpp:172-185 | definition: steps repeat while the text read was not null and exit was not called |
| RunModes.Finish | engine/shell.cpp:187-189 | definition: `finished(0)` unless exit was called |
| RunModes.Run | engine/shell.cpp:164-290 | definition: the prologue, then the loop or the single step of the mode, then the epilogue of the looping and batch modes |
| RunModes.Reset | engine/shell.cpp:498-506 | definition: line 1, the new engine's standard global object with the old interval, not initialised, exit cleared |
| RunModes.Taken | engine/shell.cpp:174-185 | the loop reads the chunks in order, up to and including the first with a null text or an exit() call, or all of them followed by the end-of-input read |
| RunProofs.StepApply | engine/shell.cpp:259-266 | one read, one evaluation and its report agree with the reference account of that single read |
| RunProofs.ConsParts | engine/shell.cpp:174-185 | each reference function on a read followed by more reads is that read's part followed by the rest |
| RunProofs.ApplyCons | engine/shell.cpp:174-185 | a read that does not stop the loop, followed by the rest, is all of them read together |
| RunProofs.LoopApply | engine/shell.cpp:172-185 | the do-while loop reads exactly `Taken` and adds exactly what those reads produce to each log |
| RunProofs.RunApply | engine/shell.cpp:164-290 | every run mode equals the reference account of the chunks it reads |
| RunProofs.EvaluationLines | engine/shell.cpp:173-178 | evaluation i is given the line number held before read i |
| RunProofs.OneRead | engine/shell.cpp:173-183 | a single read is evaluated once at the line held before it, leaves its own next line, and reports its exception, its printable result and its exit() code |
| RunProofs.RunSessionApply | engine/shell.cpp:172-189 | after the prologue, the loop, the single step and the epilogue of each mode are the reference account of the chunks the mode reads |
| RunProofs.CodesOfLast | engine/shell.cpp:185 | when no read but the last called exit(), the codes requested are those of the last read |
| RunProofs.TakenRequestsAtMostOnce | engine/shell.cpp:185 | of the chunks the loop reads, only the last can have called exit() |
| RunProofs.AtMostOneCode | engine/shell.cpp:164-290 | given one exit() per evaluation (see "## Left out"), every run requests at most one exit code |
| RunProofs.RunLogs | engine/shell.cpp:164-290 | what every run adds to the evaluation, result and exception logs, and where it leaves the line number and the reader; the file name is kept |
| RunProofs.QuietModesPrintNoResults | engine/shell.cpp:197-267 | runQuiet, runBatch and runOneSentence never print a result |
| RunProofs.RunExit | engine/shell.cpp:164-290 | every run clears exit first; afterwards exit is set exactly when a script called exit(), exitCode is the code of that call (given one exit() per evaluation, see "## Left out") or 0, and `finished(0)` is added only by the looping and batch modes and only without an exit() |
| RunProofs.RunFinishedOnce | engine/shell.cpp:164-246 | given one exit() per evaluation (see "## Left out"), runInteractive, runQuiet and runBatch emit `finished` exactly once, with the exit code |
| RunProofs.RunIgnoresPriorExit | engine/shell.cpp:169-170 | the exit flag and code before a run make no difference to its outcome |
| RunProofs.RunInitializes | engine/shell.cpp:165-168 | after a run the engine is initialised; initEngine ran once if it had not, and never otherwise; policy, interval and API are kept |
| RunProofs.InitializedOnce | engine/shell.cpp:165-168 | two runs in a row initialise the engine at most once |
| RunProofs.ResetReinitializes | engine/shell.cpp:498-506 | after reset the next run installs the globals again, into the new engine's standard global object; file name and policy survive |
| RunProofs.SingleEvaluation | engine/shell.cpp:227-290 | runBatch and the one-sentence runs read once and evaluate once, at the line number held before the read |
| RunProofs.LoopReads | engine/shell.cpp:172-185 | runInteractive and runQuiet evaluate every read, the final null one included, in input order; every read before the last had a text and no exit() call |
| RunProofs.LoopStops | engine/shell.cpp:185 | the loop stops after a null text or once exit was called |
| ShellDriver.ScriptEngine.constructor | engine/shell.cpp:502 | a new engine has its standard global object and the default interval |
| ShellDriver.ScriptEngine.SetProcessEventsInterval | engine/shell.cpp:460-462 | sets the interval, nothing else |
| ShellDriver.Shell.constructor | engine/shell.cpp:26-46 | the ShellPrivate defaults: line 1, not initialised, merge policy, no exit, code 0, empty file name, a new engine |
| ShellDriver.Shell.InitEngine | engine/shell.cpp:125-157 | the copy loop and the installation leave the global object as `Installed` says |
| ShellDriver.Shell.EnsureInitialized | engine/shell.cpp:165-168 | the setup becomes `RunModes.EnsureInitialized` of the old setup; the session and the engine object are unchanged |
| ShellDriver.Shell.Exit | engine/shell.cpp:306-310 | sets exit and exitCode and emits `finished(code)` once |
| ShellDriver.Shell.Read | engine/shell.cpp:175 | the next text, with the following line number stored in lineNumber |
| ShellDriver.Shell.Evaluate | engine/shell.cpp:177 | logs the evaluation at the given line; an exit() of the script goes through Shell::exit |
| ShellDriver.Shell.PrintUncaughtException | engine/shell.cpp:116-118 | logs the exception |
| ShellDriver.Shell.PrintResult | engine/shell.cpp:106-108 | logs the result |
| ShellDriver.Shell.ReportOutcome | engine/shell.cpp:179-183 | an uncaught exception is reported; otherwise a non-undefined result is printed only by the printing modes |
| ShellDriver.Shell.BeginRun | engine/shell.cpp:165-170 | the prologue of every run: the lazy guard, then exit and exitCode cleared |
| ShellDriver.Shell.EvaluateSentences | engine/shell.cpp:172-185 | the do-while loop computes exactly `Loop` |
| ShellDriver.Shell.EvaluateOnce | engine/shell.cpp:259-266 | one read, evaluation and report compute exactly `Step` |
| ShellDriver.Shell.FinishRun | engine/shell.cpp:187-189 | `finished(0)` is emitted only when exit was not called |
| ShellDriver.Shell.RunInteractive | engine/shell.cpp:164-190 | the new state is `Run(Interactive, old state)` |
| ShellDriver.Shell.RunQuiet | engine/shell.cpp:197-221 | the new state is `Run(Quiet, old state)` |
| ShellDriver.Shell.RunBatch | engine/shell.cpp:227-246 | the new state is `Run(Batch, old state)` |
| ShellDriver.Shell.RunOneSentence | engine/shell.cpp:252-267 | the new state is `Run(OneSentence, old state)` |
| ShellDriver.Shell.RunOneSentenceInteractive | engine/shell.cpp:273-290 | the new state is `Run(OneSentenceInteractive, old state)` |
| ShellDriver.Shell.Reset | engine/shell.cpp:498-506 | line 1, a new engine with the old interval, not initialised, exit cleared; exitCode, file name and policy untouched |
| ShellDriver.Shell.Engine | engine/shell.cpp:486-492 | returns the engine after the lazy guard |
| ShellDriver.Shell.CompleteScriptExpression | engine/shell.cpp:598-636 | the lazy guard, then completion against the engine's global object as `CompleteExpression` states |
| ShellDriver.Shell.SetUseGlobalEngine | engine/shell.cpp:401-403 | sets the policy, nothing else |
| ShellDriver.Shell.SetFileName | engine/shell.cpp:435-437 | sets the file name, nothing else |
| ShellDriver.Shell.SetCurrentLineNumber | engine/shell.cpp:447-449 | sets the line number, nothing else |
| ShellDriver.Shell.SetProcessEventsInterval | engine/shell.cpp:460-462 | sets the engine's interval, nothing else |
| ShellDriver.SetArguments | engine/shell.cpp:419-424 | definition: the scriptable shell engine is created if needed and holds the list |
| ShellDriver.Arguments | engine/shell.cpp:411-417 | definition: the getter with the null test the right way round: the engine's arguments, or the empty list without an engine |
| ShellDriver.ArgumentsAsWritten | engine/shell.cpp:411-417 | the getter as written dereferences a missing engine and returns the empty list for an existing one |
| ShellDriver.ArgumentsAsWrittenLosesArguments | engine/shell.cpp:411-424 | arguments stored by setArguments are not returned by the getter as written |
| ShellDriver.ArgumentsRoundTrip | engine/shell.cpp:411-424 | the corrected getter returns what setArguments stored, and the empty list without an engine |
| SqlConnections.ReplaceError | scriptlibs/srsql/scriptablesql.cpp:90 | definition: the error text thrown on refusal, the same at lines 96, 114 and 120 (untranslated) |
| SqlConnections.CanReplace | scriptlibs/srsql/scriptablesql.cpp:84-98 | definition: the name is free, or tracked by a wrapper the object owns |
| SqlConnections.Added | scriptlibs/srsql/scriptablesql.cpp:83-105 | definition: addDatabase is the common creation step with the object's autoThrow |
| SqlConnections.Cloned | scriptlibs/srsql/scriptablesql.cpp:107-130 | definition: cloneDatabase is the common creation step with the other wrapper's autoThrow |
| SqlConnections.Removed | scriptlibs/srsql/scriptablesql.cpp:72-81 | definition: the name leaves the table, and the connection name of an owned wrapper leaves the registry |
| SqlConnections.Destroyed | scriptlibs/srsql/scriptablesql.cpp:35-46 | definition: the owned wrappers' connection names leave the registry and the table is cleared |
| SqlConnections.Create | scriptlibs/srsql/scriptablesql.cpp:83-130 | a wrapper is returned exactly when the name is free or owned by a non-read-only wrapper; an error is raised exactly when the call is refused and autoThrow is set |
| SqlConnections.LookedUp | scriptlibs/srsql/scriptablesql.cpp:132-142 | a tracked wrapper is returned with nothing changed; otherwise a new read-only wrapper with the object's autoThrow is inserted and returned, naming the connection when it is registered and nothing otherwise, while the registry and the flag are unchanged |
| SqlConnections.RefusedForeign | scriptlibs/srsql/scriptablesql.cpp:94-98 | an untracked name that is already registered is refused, the table is unchanged, and an error is raised exactly when autoThrow is set; clone behaves the same |
| SqlConnections.RefusedReadOnly | scriptlibs/srsql/scriptablesql.cpp:84-117 | a read-only wrapper blocks the call; it has been taken out of the table and is not put back, while the registry and the other entries are untouched; clone behaves the same |
| SqlConnections.Accepted | scriptlibs/srsql/scriptablesql.cpp:101-104 | an accepted call inserts a new owned wrapper under the name and registers the name; addDatabase gives it the object's autoThrow, cloneDatabase the other wrapper's |
| SqlConnections.CreateValid | scriptlibs/srsql/scriptablesql.cpp:83-130 | adding and cloning keep every owned wrapper registered under its own key |
| SqlConnections.LookedUpValid | scriptlibs/srsql/scriptablesql.cpp:132-142 | lookup keeps that invariant |
| SqlConnections.RemovedEffect | scriptlibs/srsql/scriptablesql.cpp:72-81 | afterwards the name is untracked and the other entries are unchanged; an owned wrapper's name leaves the registry, and a read-only or absent entry leaves the registry alone |
| SqlConnections.AddThenRemove | scriptlibs/srsql/scriptablesql.cpp:72-105 | adding a connection and removing it again leaves neither the name in the table nor in the registry |
| SqlConnections.LookupIdempotent | scriptlibs/srsql/scriptablesql.cpp:132-142 | looking a name up twice gives the same wrapper and table as once |
| SqlConnections.DestroyedEffect | scriptlibs/srsql/scriptablesql.cpp:35-46 | the destructor unregisters exactly the keys of the owned wrappers and empties the table |
| SqlConnections.OwnedAmongAdd | scriptlibs/srsql/scriptablesql.cpp:38-43 | examining one more key unregisters its connection name exactly when the wrapper is owned |
| SqlConnections.ScriptableSql.constructor | scriptlibs/srsql/scriptablesql.cpp:30-33 | a new object tracks nothing, has autoThrow set and satisfies `Valid` |
| SqlConnections.ScriptableSql.SetAutoThrow | scriptlibs/srsql/scriptablesql.cpp:60-62 | sets autoThrow, nothing else, and `Valid` is kept |
| SqlConnections.ScriptableSql.AddDatabase | scriptlibs/srsql/scriptablesql.cpp:83-105 | the new table, registry, returned wrapper and error are those of `Added`, and `Valid` is kept |
| SqlConnections.ScriptableSql.CloneDatabase | scriptlibs/srsql/scriptablesql.cpp:107-130 | the new table, registry, returned wrapper and error are those of `Cloned`, and `Valid` is kept |
| SqlConnections.ScriptableSql.Database | scriptlibs/srsql/scriptablesql.cpp:132-142 | the new table and the returned wrapper are those of `LookedUp`, and `Valid` is kept |
| SqlConnections.ScriptableSql.RemoveDatabase | scriptlibs/srsql/scriptablesql.cpp:72-81 | the new table and registry are those of `Removed`, and `Valid` is kept |
| SqlConnections.ScriptableSql.Destroy | scriptlibs/srsql/scriptablesql.cpp:35-46 | the loop over the tracked wrappers, in any order, leaves the state `Destroyed` describes, which satisfies `Valid` |

## Left out

- The real QScriptEngine is left out. `evaluate` is an oracle carried by each read. `checkSyntax` and `isCompleteSententence` are not modelled. Property iteration order is the given order of an object's property list.
- Identifier characters are ASCII only. Non-ASCII letters and digits that `QChar::isLetter`/`isNumber` accept are not identifier characters in the model.
- QObject wrappers are plain property lists. Setting a property whose name is a Qt property or slot of the wrapped object writes a script property in the model; the Qt meta-object behaviour is not modelled.
- Property flags are carried along but not enforced: a read-only property is replaced by `setProperty` like any other.
- The virtual I/O hooks `readSentence`, `readAll`, `printOut`, `printErr`, `printForReadCommand`, `readCommand` and `helpCommand` are not modelled. Their implementations live in subclasses that are not part of this model. Reads come from a chunk list, and printing and `finished` are logs.
- The `print` forwarder returns its calls to the caller instead of invoking `printOut` on the shell found in the callee's data.
- `helpMessage` and `version` are fixed texts, and the simple getters only read a field; they are not modelled.
- Signals are appended to the `finished` log. Ownership and deletion of objects are not modelled.
- A script can call exit() at most once per evaluation: the outcome records one code. In the source `Shell::exit` does not stop the evaluation, so a script running `exit(1); exit(2)` emits `finished(1)` and `finished(2)` and leaves exitCode 2.
- RunProofs.AtMostOneCode: holds only under the one-exit()-per-evaluation outcome; a script that calls exit() twice requests two codes in the source.
- RunProofs.RunFinishedOnce: holds only under the one-exit()-per-evaluation outcome; a script that calls exit() twice makes the source emit `finished` twice.
- RunProofs.RunExit: the exit code is that of the single exit() call the outcome records; with several calls in one evaluation the source keeps the last.
- The integer fields are unbounded. `int` in the source is 32 bits, but nothing here does arithmetic on them.
- In `addDatabase`, the driver type is dropped, and so is `open` in `database`. Opening a connection, cloning a real connection, and the queries `drivers`, `connectionNames`, `contains` and `isDriverAvailable` are not modelled. The SQL library's registry is a set of names.
- `database()` for a name nobody registered wraps an invalid database whose connection name is empty. The model records that empty name.
- ShellDriver.Shell.Evaluate: keeps the global object unchanged. Globals a script defines are not added to it, so `CompleteScriptExpression` offers only the globals initEngine installed, while the source completes against the live engine.
- Completion.SplitExpression: offsets count characters (Unicode scalar values), while the source counts UTF-16 code units. For an expression holding a character above U+FFFF before the name, such as "\U{1F600}.le", the source reports a start one larger than the model. Completion.SplitScriptExpression, Completion.CompleteExpression and ShellDriver.Shell.CompleteScriptExpression inherit this.
- Completion.CommonName: common prefixes are measured in characters, so a prefix never splits a surrogate pair. For names such as "a\U{1F600}" and "a\U{1F601}" with name "a", the source's commonName is a lone high surrogate, while the model's is empty.
- SqlConnections.ScriptableSql: each object holds its own copy of the registered connection names, taken in its constructor. Names registered or removed later by another ScriptableSql or by C++ code are invisible to it, so a later `addDatabase` of such a name is accepted in the model, while the source refuses it.
- ScriptValues.Value: function values, such as the `print` forwarder, are modelled as plain values without members, while a QtScript function is an object with its own properties; completing `print.` finds no candidates in the model.
- ScriptValues.Lookup: looks at own properties only. `QScriptValue::property` also follows the prototype chain, so a path through an inherited member such as `x.constructor.` resolves in the source and is a dead end in the model.
- SqlConnections.Cloned: always registers the name and gives the new wrapper that connection name. Cloning an invalid database, such as one `database()` returned for an unregistered name, gives an invalid database in Qt and registers nothing.
- Strings.StrLe: compares characters as Unicode scalar values. `QString::operator<` compares UTF-16 code units, so names that mix characters above U+FFFF with characters in U+E000 to U+FFFF can sort differently.
- SqlConnections.ScriptableSql.Destroy: visits the wrappers in any order, while the QMap iterator visits them in key order. The resulting state is the same, and the model proves it for every order.
- Editor, command-line front end and plugin declaration: the Qt user interface, file dialogs, translators and application entry points are not part of this model.

## Findings

| source | as written | input that shows it | evidently intended | confidence | as-written member | corrected member |
|---|---|---|---|---|---|---|
| engine/shell.cpp:411-417 | `arguments()` returns the scriptable shell engine's arguments only when the pointer is null, and the empty list otherwise | `setArguments(["x"])` then `arguments()` gives `[]`; with no engine yet, the getter dereferences a null pointer | return the stored arguments when the engine exists, else the empty list | high (from reading the code; not executed) | ShellDriver.ArgumentsAsWrittenLosesArguments | ShellDriver.ArgumentsRoundTrip |

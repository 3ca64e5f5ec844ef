# Verified models of four course projects

Dafny models of the hardest code in this repository, with proofs of what that code is for.  The models keep the
form of the code they follow: objects that change are classes whose methods are proved against functions on
values, loops have invariants, and concurrent code is a machine whose steps may interleave in any order.
`dafny verify dfyconfig.toml` checks everything.

## What is modelled

**The Cool compiler** (`Stanford/CS143/PA4/semant.cc`, `Stanford/CS143/PA5/cgen.cc`).  `CoolSyntax` and
`CoolSemantics` are the typed programs and a fuelled interpreter for section 13 of the Cool Reference Manual;
`Mips` is the machine, with stack, heap and data segment; `CodeGen` specifies the instructions for every expression,
method and initialiser.  `Emission` is the generator itself, which writes instructions, draws labels and opens scopes
in place, and is proved to write what `CodeGen` says.  `Layout`, `ClassTags` and `Inheritance` are the class layouts,
the tags with the order of `case` branches, and the hierarchy checks; `Driver` puts them together.  The modules whose
names start with `Sim` build up to `Simulation`, one induction over expressions, argument lists, cases, calls and
initialisers; `Labels`, `NewClasses` and `Correctness` show that the emitted image meets its assumptions, and
`WholeProgram` states the result for whole programs in both directions, divergence included.  `Typing` is the type
checker, `analyze` of every expression and feature, with what it reports and what it lets pass in silence;
`TypingRules` has the typing rules of section 12 of the manual as a judgement, and `TypingDecided` proves that the
checker decides it;
`TypeSoundness` proves that a program whose checks all succeed never goes wrong, `CheckedPrograms` closes
the case of ill-typed evaluation in the theorems on whole programs, and `CheckedImages`, with `Retagging`, leads from a
checked program through `Driver` to an image that behaves as the interpreter does.

Numbers are signed 32-bit words: `add`, `sub` and `neg` trap on overflow, `mul` wraps, division truncates and faults
on zero.  `CoolArithmetic` says what the operators compute; `Mips` has its own definitions of the instructions.  The run-time system that the emitted code calls is not part of this repository; a routine is a label and one
machine step, and the start-up code is `(new Main).main()` followed by a halt.  `Object.copy` allocates a fresh block
and preserves `$sp`, `$fp` and `$s0`.  The data segment holds an object for every Int and String constant; the
generator writes those that its tables list, which are the ones that the code refers to.  `_has_calced_layout` is never
initialised in the source; the model starts it as false.  In `typcase_class::code` the label of the first test is
`next_label` itself, read before it is drawn, which is the number drawn right after.  An attribute without initialiser
is stored again with its default when its turn comes, as in the source.  The interpreter has an outcome `Wrong`
for ill-typed evaluation, about which the compiler theorems claim nothing.  They ask that no class named in a
`new` of the program redefines `copy` or inherits a redefinition; other classes may.

**JOS memory** (`MIT/6.828/kern/pmap.c`, `env.c`, `syscall.c`).  Pages are sequences of table entries, the free list
is threaded through `link`, and page directories and page tables are themselves counted pages.  `PageTables` and
`FrameAccounting` hold the facts about references and counts, `AddressSpaces` the effect of each update on the map that
the two-level tables stand for, `EnvIds` environment ids with their generations, and `PageKernel` the kernel's methods.
Between system calls every managed page counts exactly the references to it and is free if and only if there is none.

**JOS processes.**  `CowFork` is copy-on-write fork (`lib/fork.c`), one step per system call, copy or store.
`PrimeSieve` is `user/primes.c` on top of rendezvous IPC, and `SieveRuns` has runs of it that print any number of primes.  `KernelLock` is the big kernel lock with the scheduler on any
number of processors; the lock's xchg, the work of a trap and the way out of the kernel are separate steps, and
`Residency` is about when an environment can be on two processors.  `PipeFifo` and `PipeClosed` are the data path of a
pipe and the detection of its end.

**The JOS file system image.**  `FileImage` has the blocks and the 256-byte file structures of `inc/fs.h`, `FsFormat`
is `fs/fsformat.c`, which writes an image, `FileServer` is `fs/fs.c`, which reads one, and `FsRoundTrip` puts the two
together.  What the source calls a panic is a result of its own.

**The CS207 graph** (`Harvard/CS207/Graph.hpp`).  `SlotGraph` is the slot map with its free chain and the doubly stored
adjacency lists, `GraphEdges` the edge iterator.

**The CS224n parser** (`Stanford/CS224n/a3/parser_transitions.py`).  `TransitionParser` has the parses, as values and as
objects, and the batched driver over shared objects; `ParseTrees` proves that complete runs and projective trees
correspond, over token positions, and `MapRun` carries this over to words.

## Where the code does less

The models keep the code as it is.  Where it does less than it seems to promise, there is a concrete input and the
exact condition:

- Copy-on-write isolation: pgfault leaves PFTEMP mapped (`lib/fork.c:53-61`), so after a fault and a fork a parent can
  store through PFTEMP to a page that its child reads privately: `CowFork.TempLeak`, with `CowFork.IsolatedIff`.  Only a
  process that has taken no fault since its last duppage can, such as one whose stack is PTE_SHARE: `CowFork.FaultHeals`.
- Single residency: `sys_env_set_status` and `sys_ipc_try_send` may make an environment runnable that another processor
  still runs, and a second `env_destroy` frees a dying one under the processor that runs it: `Residency.TwiceRunnable`,
  `Residency.SentWhileRunning` and `Residency.DestroyedTwice`, with `Residency.ResidencyIff`.
- `new C` calls the `copy` that C resolves to (`PA5/cgen.cc:2464-2502`), on the prototype itself:
  `CopyOverridden.CopyIsEntered`, with `NewCopy.NewCopies`.
- The type checker accepts some programs that go wrong: many failed checks return without a report, such as those of
  `not`, arithmetic, comparisons, conditions and `new` of an unknown class (`PA4/semant.cc:142`, `876-880`, `976-985`,
  `1015-1024`, `1056-1061`, `1078`): `CheckedPrograms.AcceptedYetWrong`.
  With no such failure a program never goes wrong, `CheckedPrograms.NeverWrong`.  The converse does not hold: a failed
  check may be in code that never runs.
- `fsformat` copies a name of 128 bytes or more beyond f_name (`fs/fsformat.c:164`): `FsFormat.Format`, with the exact
  lists of files on which it does; nothing is said of the image then.
- The root directory of an image without files has a block that is not allocated: `FsFormat.RootAllocated`.
- `sys_ipc_recv` leaves its caller not runnable when it refuses the address: `PageKernel.Kernel.SysIpcRecv`.
- `Node::valid()` reads outside of `i2u_` for one removed uid, the end of the free chain, and `remove_node` answers 0
  only for a node of another graph, although its comment promises 0 for every node that is gone:
  `SlotGraph.RemovedTwice`, with `SlotGraph.HasNodeIff` and `SlotGraph.Graph.RemoveNode`.

## Model

| member | source | states |
|---|---|---|
| WholeProgram.CompilerCorrect | Stanford/CS143/PA5/cgen.cc:1025-1064 | For every program that passes the checks and creates by name no class with a redefined `copy`, and every amount of fuel, the emitted image, started in its initial state, ends as the interpreter of section 13 of the Cool manual does: same output and normal end, same output and same run-time error, or still running when the interpreter runs out of fuel |
| WholeProgram.EndingsAgree | Stanford/CS143/PA5/cgen.cc:138-168 | The other direction: whenever the machine halts, the interpreter ends in the same way, with the same output, within as many units of fuel as the machine took steps |
| WholeProgram.DivergenceAgrees | Stanford/CS143/PA5/cgen.cc:138-168 | The interpreter diverges if and only if the machine never halts |
| Simulation.SimExpr | Stanford/CS143/PA5/cgen.cc:1796-1801 | For every expression in any scope: from a state with `$sp = $fp + 4*tmp_offs` and the generator scope matching the environment, the emitted code ends with the value in `$a0`; `$sp`, `$fp` and `$s0` are restored, live stack words are kept but for assigned variables, and blocks of Int, Bool and String objects never change |
| Simulation.SimCall | Stanford/CS143/PA5/cgen.cc:1421-1449 | A call runs the body of the nearest definition with formal i at `$fp + 4*(n-i)` and returns with its arguments popped and `$fp`, `$s0` restored |
| Simulation.SimInit | Stanford/CS143/PA5/cgen.cc:1451-1491 | An initialiser runs the initialisers of its ancestors first and then its own attributes, and returns the object it got |
| SimSelect.FirstTest | Stanford/CS143/PA5/cgen.cc:2083-2143 | In the emitted chain of tag tests, the first test that succeeds belongs to the closest ancestor of the dynamic class |
| SimSelect.NoTest | Stanford/CS143/PA5/cgen.cc:2083-2143 | If every test fails, no branch of the `case` names an ancestor |
| SimDispatch.DispatchJump | Stanford/CS143/PA5/cgen.cc:1877-1934 | The code behind the receiver of a dispatch jumps to the definition nearest to the dynamic class, through the slot that the static class gives |
| SimDispatch.StaticJump | Stanford/CS143/PA5/cgen.cc:1808-1875 | A static dispatch jumps through the table of the named class |
| SimCalls.ExitReturned | Stanford/CS143/PA5/cgen.cc:1435-1449 | The exit sequence restores the three saved words and pops exactly the frame and the arguments |
| SimCreation.CopyProto | Stanford/CS143/PA5/cgen.cc:2464-2502 | Copying a prototype makes a new object of the class, in a fresh block, and disturbs nothing that existed |
| SimFinish.ArithFinish | Stanford/CS143/PA5/cgen.cc:2203-2234 | Arithmetic puts its result in a fresh Int, so no existing Int is changed; add and sub fault on overflow, div on zero |
| CoolArithmetic.ArithMeans | Stanford/CS143/PA5/cgen.cc:2236-2279 | Operands m and n give m + n and m - n or an overflow fault, exactly when these do not fit 32 bits; the product modulo 2^32; and the quotient truncated toward zero, or a fault exactly for n = 0 |
| CoolArithmetic.CompareMeans | Stanford/CS143/PA5/cgen.cc:2308-2401 | `<` gives true exactly when n - m is positive, and `<=` also for equal operands |
| CoolArithmetic.UnaryMeans | Stanford/CS143/PA5/cgen.cc:2281-2306 | `~` gives the number that adds up to 0, or an overflow fault for the least number; `not` the other truth value |
| CoolArithmetic.DivLaws | Stanford/CS143/PA5/cgen.cc:2271-2279 | There is exactly one quotient whose remainder is smaller than the divisor and has the sign of the dividend, and division computes it; only -2^31 by -1 wraps |
| Mips.AluIs | Stanford/CS143/PA5/cgen.cc:2203-2306 | The instructions, defined on the bits of their results, compute what the operators of Cool mean |
| Correctness.ImageCorrect | Stanford/CS143/PA5/cgen.cc:1025-1064 | What the generator emits is an image that the simulation accepts: methods and initialisers stand at their labels, tables and object table are right |
| Correctness.ProgramLabels | Stanford/CS143/PA5/cgen.cc:634-647 | Every label of the whole text is defined once |
| Labels.ExprLabels | Stanford/CS143/PA5/cgen.cc:634-647 | The code of an expression defines exactly the labels it draws from next_label, each once |
| NewClasses.OnlyBoot | Stanford/CS143/PA5/cgen.cc:2464-2502 | The text loads the prototype of a class only for a `new` of that class in the program, but for the Main object of the start-up code; so only the classes that the program names in `new` need the inherited `copy` |
| NewCopy.NewCopies | Stanford/CS143/PA5/cgen.cc:2464-2502 | `new C` runs the run-time copy routine on the prototype if and only if the copy that C resolves to is the routine; with a redefined `copy` it enters that method with the prototype itself as self |
| CopyOverridden.CopyIsEntered | Stanford/CS143/PA5/cgen.cc:2464-2502 | A whole program that passes the checks and creates a class whose `copy` divides by zero: the interpreter ends it with a value, the emitted image stops with an arithmetic fault |
| Layout.AttrPrefix | Stanford/CS143/PA5/cgen.cc:1284-1344 | The attribute layout of a class is a prefix of that of every class below it |
| Layout.MethPrefix | Stanford/CS143/PA5/cgen.cc:1284-1344 | The method layout of a class is a prefix of that of every class below it |
| Layout.MethNearest | Stanford/CS143/PA5/cgen.cc:1284-1349 | The method table holds each method once and names its nearest definer |
| Layout.SlotFindsNearest | Stanford/CS143/PA5/cgen.cc:1284-1366 | The slot computed from the static class holds, in the table of every class below it, the same method with its nearest definition |
| Layout.CgenNode.MethodOffset | Stanford/CS143/PA5/cgen.cc:1338-1344 | The linear search finds the slot of a method, and ~0 exactly when there is none |
| Layout.CgenNode.Extend | Stanford/CS143/PA5/cgen.cc:1284-1344 | After it the node has the layout of its class: the parent copied, attributes appended, methods appended or overridden in place |
| Layout.CgenClassTable.CalcLayout | Stanford/CS143/PA5/cgen.cc:1284-1344 | Lays out a class after its parent and leaves laid-out classes as they are |
| Layout.CgenClassTable.CalcClassesLayout | Stanford/CS143/PA5/cgen.cc:981-997 | After it every class has its layout |
| ClassTags.AssignClassTags | Stanford/CS143/PA5/cgen.cc:950-975 | `tag(D) <= tag(C) <= tag_end(D)` if and only if C descends from D |
| ClassTags.Tagger.AssignImpl | Stanford/CS143/PA5/cgen.cc:925-948 | The depth-first numbering gives a subtree consecutive tags that nest as the classes inherit, and touches no other class |
| ClassTags.BuildInheritanceTree | Stanford/CS143/PA5/cgen.cc:831-858 | Each class is in the list of its parent, once |
| ClassTags.ArrangeBranches | Stanford/CS143/PA5/cgen.cc:2037-2072 | The depth-first arrangement is the reference order: a permutation with inner intervals before outer ones |
| ClassTags.BranchSorter.ArrangeImpl | Stanford/CS143/PA5/cgen.cc:2014-2035 | One visit appends the branches of an interval in the reference order and marks exactly them |
| ClassTags.OrderedUnique | Stanford/CS143/PA5/cgen.cc:2037-2072 | Only one arrangement of distinct intervals puts inner before outer and earlier before later |
| ClassTags.ClosestIsClosest | Stanford/CS143/PA5/cgen.cc:2076-2143 | The branch selected by section 7.9 of the Cool manual exists when any branch is an ancestor, and lies at or below every such branch |
| ClassTags.FirstCoverIsClosest | Stanford/CS143/PA5/cgen.cc:2076-2143 | In the emitted order the first interval that covers the tag of the dynamic class is that of the closest ancestor; none covers it exactly when no branch is an ancestor |
| ClassTags.IntervalsLaminar | Stanford/CS143/PA5/cgen.cc:2037-2072 | The intervals of the branches start at different tags and are nested or disjoint |
| Emission.GenerateText | Stanford/CS143/PA5/cgen.cc:1231-1254 | The imperative generator writes exactly the text that the correctness theorem is about |
| Emission.Emitter.Code | Stanford/CS143/PA5/cgen.cc:1796-2558 | For every expression the imperative `code` methods write exactly the specified instructions, use up exactly its labels, and leave the scopes as they were |
| Emission.Emitter.TypCaseCode | Stanford/CS143/PA5/cgen.cc:2076-2148 | The branches are written in the order of arrange_branches with their chained labels |
| Emission.Emitter.DispatchCode | Stanford/CS143/PA5/cgen.cc:1877-1934 | Arguments, receiver, void check, table load and jump as specified; tmp_offs grows with every argument |
| Emission.Emitter.StaticDispatchCode | Stanford/CS143/PA5/cgen.cc:1808-1875 | The same through the dispatch table of the named class |
| Emission.Emitter.ArithCode | Stanford/CS143/PA5/cgen.cc:2203-2279 | code_arithm_expr keeps the first operand on the stack while the second is evaluated |
| Emission.Emitter.LetCode | Stanford/CS143/PA5/cgen.cc:2168-2193 | The variable is pushed, in scope in the body only, and popped |
| Emission.Emitter.LoopCode | Stanford/CS143/PA5/cgen.cc:1974-2003 | Labels and branches of a loop |
| Emission.Emitter.CondCode | Stanford/CS143/PA5/cgen.cc:1941-1972 | Labels and branches of a conditional |
| Emission.Emitter.Lookup | Stanford/CS143/PA5/cgen.cc:2549-2558 | The symbol table finds the innermost binding |
| Emission.Emitter.CodeInit | Stanford/CS143/PA5/cgen.cc:1451-1491 | code_init writes the initialiser that the specification names |
| Emission.Emitter.CodeMethod | Stanford/CS143/PA5/cgen.cc:1493-1524 | code_method puts the formals in scope at their words and writes entry, body and exit |
| Emission.Emitter.CodeMethods | Stanford/CS143/PA5/cgen.cc:1526-1555 | code_methods puts every attribute of the layout in scope and writes initialiser and methods |
| Emission.Emitter.CodeClasses | Stanford/CS143/PA5/cgen.cc:1231-1254 | The loop over the classes writes their code in order, with labels that never repeat |
| Emission.Emitter.CodeDispTab | Stanford/CS143/PA5/cgen.cc:1351-1366 | The dispatch table of a class has the label of the nearest definition at every slot |
| Emission.Emitter.CodeProtObj | Stanford/CS143/PA5/cgen.cc:1368-1419 | Tag, size, dispatch pointer and default attributes of a prototype |
| Emission.Emitter.CodeClassObjTab | Stanford/CS143/PA5/cgen.cc:1147-1175 | The row of each tag is the class with that tag |
| Emission.Emitter.CodeDispTabs | Stanford/CS143/PA5/cgen.cc:1177-1189 | The loop over the classes writes every dispatch table of the image |
| Emission.Emitter.CodeProtObjs | Stanford/CS143/PA5/cgen.cc:1191-1203 | The loop over the classes writes every prototype |
| Driver.Work | Stanford/CS143/PA5/cgen.cc:1025-1064 | From a program that passes the checks: tags that make it one the theorems above accept, and exactly the image that they are about, with text, dispatch tables, class_objTab and prototypes |
| Driver.AcceptedOK | Stanford/CS143/PA5/cgen.cc:950-975 | Numbering the classes changes no resolution of methods or attributes: an accepted program stays accepted |
| Mips.StoppedStays | Stanford/CS143/PA5/cgen.cc:170-336 | The machine is deterministic: a run that stops is not running later, and prints one output |
| SimObjects.NativeRun | Stanford/CS143/PA5/cgen.cc:680-805 | A run-time routine, as one step, does what the interpreter says and returns as a method does |
| Inheritance.Validate | Stanford/CS143/PA4/semant.cc:198-219 | Terminates, and accepts exactly the graphs in which every chain of parents ends |
| Inheritance.WalkToObject | Stanford/CS143/PA4/semant.cc:207-217 | The walk from one class reaches Object, or sees a class twice, exactly when the chain ends or does not |
| Inheritance.FillClassMap | Stanford/CS143/PA4/semant.cc:412-449 | Accepts exactly the class lists with a Main and with names that are distinct and not built in |
| Inheritance.FillInheritenceGraph | Stanford/CS143/PA4/semant.cc:457-495 | Accepts exactly the class lists whose parents are all declared and may be inherited from; the graph has one edge per class |
| Inheritance.CheckHierarchy | Stanford/CS143/PA4/semant.cc:1118-1133 | The three checks together accept exactly the class lists that form a hierarchy: distinct new names, proper parents, no cycle; the result has Object on top and every parent declared |
| Inheritance.IsSubclass | Stanford/CS143/PA4/semant.cc:225-249 | Terminates with the order on types, SELF_TYPE included |
| Inheritance.BelowPartialOrder | Stanford/CS143/PA4/semant.cc:225-249 | That order is reflexive, transitive and antisymmetric |
| Inheritance.Lub | Stanford/CS143/PA4/semant.cc:251-300 | Terminates with the least upper bound of two types, SELF_TYPE included, and with none exactly when one is missing |
| CheckedPrograms.NeverWrong | Stanford/CS143/PA4/semant.cc:1118-1155 | Type soundness for whole programs: when every check of the type checker succeeds and Main has a main method without formals, which the checker does not look for, the interpreter never goes wrong, for any amount of fuel |
| CheckedPrograms.CheckedEnds | Stanford/CS143/PA5/cgen.cc:138-168 | For such a program, whenever the machine halts the interpreter ends in the same way with the same output; no case is left open |
| CheckedPrograms.CheckedDiverges | Stanford/CS143/PA5/cgen.cc:138-168 | For such a program, the image runs for ever if and only if no amount of fuel suffices to interpret it |
| CheckedPrograms.AcceptedYetWrong | Stanford/CS143/PA4/semant.cc:1056-1064 | The checker accepts a program whose main method complements an Int, since THROW_ERR_SCOPE_TYPE returns without a report; the interpreter goes wrong on it |
| TypingDecided.Decided | Stanford/CS143/PA4/semant.cc:729-1103 | Soundness and completeness of analyze() with respect to the typing rules of section 12 of the Cool manual, given as a judgement: for every expression in any scope, no check fails and the type is T if and only if the rules derive T; and no error is reported and the type is T if and only if T is derived with the rules for the silent failures |
| TypingDecided.MethodDecided | Stanford/CS143/PA4/semant.cc:609-713 | The same for methods: known formals and result, the signature of the redefined method, a body that conforms to the result |
| TypingDecided.ProgramDecided | Stanford/CS143/PA4/semant.cc:502-507 | A program is accepted, and passes every check, exactly when the rules type all its methods and attributes |
| CheckedImages.CompileChecked | Stanford/CS143/PA5/cgen.cc:1025-1064 | The compiler as a whole: for every program whose checks all succeed, that creates by name no class with a redefined `copy` and whose main takes no arguments, the image that it writes ends as the interpreter does on that program, with the same output, and runs for ever if and only if the interpreter does |
| CheckedImages.ChecksAnalysed | Stanford/CS143/PA4/semant.cc:729-1103 | What the type checker establishes is what the generator relies on: variables in scope, methods and classes that exist, distinct branches |
| Retagging.RunKept | Stanford/CS143/PA5/cgen.cc:950-975 | Numbering the classes does not change what a program means |
| Retagging.ChecksKept | Stanford/CS143/PA5/cgen.cc:950-975 | Nor does it change the verdict of the type checker |
| TypeSoundness.Sound | Stanford/CS143/PA4/semant.cc:729-1103 | One induction over evaluation: a checked expression does not go wrong, its value is an instance of the type found by analyze(), SELF_TYPE read as the class of the running object, and store and variables stay well typed |
| TypeSoundness.SoundCall | Stanford/CS143/PA4/semant.cc:609-685 | A call with arguments that fit the declared signature returns an instance of the declared type, SELF_TYPE read as the class of the receiver, whichever override runs |
| TypeSoundness.SoundInit | Stanford/CS143/PA4/semant.cc:568-607 | The initialisers of a class and its ancestors leave every attribute with a value of its declared type |
| TypeSoundness.SoundCreate | Stanford/CS143/PA4/semant.cc:1078-1080 | A new object is an instance of its class with all its attributes, inherited ones included, well typed |
| TypeSoundness.SigKept | Stanford/CS143/PA4/semant.cc:631-667 | The checks on redefined methods give a method the same signature in every class below the one that declares it |
| TypeSoundness.WidenType | Stanford/CS143/PA4/semant.cc:225-249 | Subsumption: a value of a type has every type that is_subclass puts above it, also for SELF_TYPE in a method inherited by the class of the object |
| TypeSoundness.LubIsLeast | Stanford/CS143/PA4/semant.cc:251-300 | The type given to conditionals and cases is the least upper bound of those of the branches |
| FrameAccounting.FreeIffUnreferred | MIT/6.828/kern/pmap.c:387-433 | At call boundaries a managed page is on the free list if and only if no directory, page table or user mapping refers to it |
| FrameAccounting.NothingLeaks | MIT/6.828/kern/env.c:456-503 | Once every environment is gone, every managed page is back on the free list |
| FrameAccounting.DecrefOk | MIT/6.828/kern/pmap.c:428-433 | Dropping one reference keeps `pp_ref` equal to the number of references, and frees the page exactly when it was the last |
| FrameAccounting.PoppedRefs | MIT/6.828/kern/pmap.c:387-402 | Nobody refers to the page that page_alloc hands out, and no address space changes |
| PageTables.NewTable | MIT/6.828/kern/pmap.c:458-490 | A lazily created table is invisible: every address space maps what it mapped |
| PageTables.SetPte | MIT/6.828/kern/pmap.c:557-581 | Writing one entry of a page table changes that entry of that address space only, since no two share a table |
| AddressSpaces.EntryDroppedOk | MIT/6.828/kern/pmap.c:623-639 | Dropping a mapping deletes one key of one address space and keeps the accounting |
| AddressSpaces.InsertChange | MIT/6.828/kern/pmap.c:556-581 | Over all steps of page_insert exactly one key changes |
| AddressSpaces.UserWrite | MIT/6.828/kern/pmap.c:556-581 | Whatever users write to pages they have mapped, no address space and no count changes |
| PageKernel.Kernel.constructor | MIT/6.828/kern/pmap.c:126-261 | After page_init and the page tables that boot_map_region takes: those pages have one reference, every other usable page is on the free list, once |
| PageKernel.KernelTables | MIT/6.828/kern/pmap.c:503-524 | Each page table of the kernel half is the head of the free list; the rest of the list stays a list of exactly the other pages |
| PageKernel.Kernel.PageAlloc | MIT/6.828/kern/pmap.c:386-402 | Takes and clears the first page of the list; NULL exactly when the list is empty |
| PageKernel.Kernel.PageFree | MIT/6.828/kern/pmap.c:408-421 | Puts the page in front of the list |
| PageKernel.Kernel.PageDecref | MIT/6.828/kern/pmap.c:428-433 | One reference less; the page is freed exactly when it was the last |
| PageKernel.Kernel.PgdirWalk | MIT/6.828/kern/pmap.c:457-490 | The table of a directory entry, created when asked for and possible; it fails exactly when there is none and none may or can be made |
| PageKernel.Kernel.PageLookup | MIT/6.828/kern/pmap.c:592-611 | The page mapped at an address, and nothing changes |
| PageKernel.Kernel.PageRemove | MIT/6.828/kern/pmap.c:623-639 | Deletes exactly one key; nothing happens when it is not there |
| PageKernel.Kernel.PageInsert | MIT/6.828/kern/pmap.c:556-581 | Updates exactly one key, also when the same page is inserted again; the hardware then grants exactly `perm` at that page and at every other page of every address space what it granted before; one directory entry changes, and only by more permissions; fails, changing nothing, exactly when a page table is needed and no page is free |
| AddressSpaces.AccessIs | MIT/6.828/kern/pmap.c:485-576 | What two-level translation grants, directory entry and table entry together, is what the table entry says, in every state of the kernel |
| PageKernel.Kernel.EnvSetupVm | MIT/6.828/kern/env.c:168-206 | A directory that is empty below UTOP, like kern_pgdir above and with itself at UVPT; fails exactly when no page is free |
| PageKernel.Kernel.EnvAlloc | MIT/6.828/kern/env.c:216-280 | Takes the first free slot; both failures change nothing; the id is new |
| PageKernel.Kernel.EnvFree | MIT/6.828/kern/env.c:455-503 | Everything of one environment is given back, the other address spaces and what they hold are as before |
| PageKernel.Kernel.FreeTable | MIT/6.828/kern/env.c:474-495 | One page table of a dying environment with all its pages |
| PageKernel.Kernel.EnvDestroy | MIT/6.828/kern/env.c:510-527 | An environment that another processor runs becomes dying and nothing else changes; any other is freed, and curenv is NULL afterwards exactly when it was the one |
| PageKernel.Kernel.SysExofork | MIT/6.828/kern/syscall.c:77-99 | The child has a fresh id that the parent may use and nobody had; the error code for both failures, which change nothing |
| PageKernel.Kernel.SysPageAlloc | MIT/6.828/kern/syscall.c:209-241 | The error code for every input, exactly when memory suffices, one key that maps a page of zeroes, with exactly the access that was asked for; failures leave mappings, counts and free list as they were |
| PageKernel.Kernel.SysPageMap | MIT/6.828/kern/syscall.c:243-290 | The error code for every input, and otherwise one key that maps the page of the source; with exactly the access that was asked for; no write access is made out of a read-only mapping |
| PageKernel.Kernel.SysPageUnmap | MIT/6.828/kern/syscall.c:298-313 | The error code for every input, and otherwise one key less |
| PageKernel.VaIff | MIT/6.828/kern/syscall.c:180-184 | The addresses that system calls accept are exactly the page boundaries below UTOP, each with its directory and table index |
| PageKernel.PermIff | MIT/6.828/kern/syscall.c:186-192 | The permissions that they accept are P and U with any of W and the available bits |
| PageKernel.Kernel.SysIpcTrySend | MIT/6.828/kern/syscall.c:353-405 | E_BAD_ENV exactly when no live environment has the id and it is not 0; the error code for every other input, and no change with it; otherwise the receiver is runnable with value and sender, and exactly when it asked for a page and is sent one, one key of its address space maps that page; the accounting holds |
| PageKernel.Kernel.SysIpcRecv | MIT/6.828/kern/syscall.c:418-435 | The caller waits for a message, and stops being runnable even when its address is refused |
| PageKernel.Kernel.SysEnvSetStatus | MIT/6.828/kern/syscall.c:108-129 | The error code for every input, and one status set otherwise |
| PageKernel.Kernel.EnvRun | MIT/6.828/kern/env.c:558-595 | The environment that ran is runnable again unless its status had changed, and the new one is running |
| EnvIds.EnvOfIff | MIT/6.828/kern/env.c:70-110 | envid2env reaches a slot if and only if it is live and has that id, or is the caller for 0, and, with checkperm only, is the caller or its child |
| EnvIds.NextIdFresh | MIT/6.828/kern/env.c:231-236 | A new id is positive, names its slot, and differs from the last one, also when the generation wraps around |
| EnvIds.StaleId | MIT/6.828/kern/env.c:84-92 | The id of an environment that is gone names nothing, not even after its slot is taken again |
| CowFork.StepInv | MIT/6.828/lib/fork.c:14-187 | Every system call of fork and pgfault and every store, also one through PFTEMP, of any process in any order, keeps the invariant of copy-on-write |
| CowFork.InitialInv | MIT/6.828/lib/fork.c:136-187 | A single process whose pages are its own satisfies it, whatever of them is writable, copy-on-write or shared |
| CowFork.IsolatedIff | MIT/6.828/lib/fork.c:53-61 | A step changes nothing that another process reads at a private page, but for a child that does not run yet at the page being duplicated, if and only if it is not a store through the mapping that pgfault leaves at PFTEMP that changes a page another process has privately mapped |
| CowFork.RunIsolatedIff | MIT/6.828/lib/fork.c:53-61 | Over every run: all steps are isolated if and only if none of them is such a store |
| CowFork.NoTempStores | MIT/6.828/lib/fork.c:53-61 | In particular when no program stores to PFTEMP |
| CowFork.TempLeak | MIT/6.828/lib/fork.c:41-61 | It happens: a process whose stack is PTE_SHARE forks, stores, forks again, and then changes through PFTEMP what its second, running child reads at its copy-on-write page |
| CowFork.FaultHeals | MIT/6.828/lib/fork.c:41-61 | After a page fault no store of the process leaks until it duplicates a page again: in particular a fault on its own stack in fork moves PFTEMP away from the pages that the child has |
| CowFork.RunningIsolated | MIT/6.828/lib/fork.c:14-118 | For a process that can run, the duplicated page is no exception |
| CowFork.RunIsolated | MIT/6.828/lib/fork.c:14-118 | Over every run of the others without such a store, forks and faults included, its private pages read the same |
| CowFork.SharedKept | MIT/6.828/lib/fork.c:92-98 | A PTE_SHARE mapping stays what it is |
| CowFork.SharedWrite | MIT/6.828/lib/fork.c:92-98 | After a whole fork, what parent or child stores to a page that was PTE_SHARE when the fork began, the other reads |
| CowFork.ForkCopies | MIT/6.828/lib/fork.c:136-187 | When the child becomes runnable, parent and child read at every mapped page what the parent read when the fork began, unless the parent stored there or to PFTEMP meanwhile or another process leaked, and each can store there exactly when the parent could; shared pages are the same page |
| CowFork.ForkStores | MIT/6.828/lib/fork.c:92-113 | After a fork, parent and child can both store at every page where the parent could, also when it was copy-on-write already, by a run of at most four steps, and then read what they stored |
| CowFork.ForkAddsNothing | MIT/6.828/lib/fork.c:165-172 | Pages that the parent does not have, the child does not get |
| PrimeSieve.SievePrintsPrimes | MIT/6.828/user/primes.c:13-52 | Under every interleaving of the processes, and with forks that may fail, what has been printed is 2, 3, 5, ... without gap, repetition or other number |
| SieveRuns.SievePrintsThemAll | MIT/6.828/user/primes.c:13-52 | For every n there is a run after which exactly the first n primes have been printed |
| PrimeSieve.EachItsPrime | MIT/6.828/user/primes.c:19-21 | The k-th process printed the k-th of them |
| PrimeSieve.SentIsReceived | MIT/6.828/lib/ipc.c:22-82 | Each successful send is returned by one ipc_recv, in order, and a value waits unchanged in env_ipc_value until then |
| PrimeSieve.NextInv | MIT/6.828/kern/syscall.c:354-435 | Every step of every process keeps the invariant of the chain |
| PrimeSieve.NextPrime | MIT/6.828/user/primes.c:13-36 | The least number that none of the first primes divides is the next prime |
| PrimeSieve.FilterSift | MIT/6.828/user/primes.c:30-35 | Filtering a sifted stream by one more prime sifts it by one more prime |
| Residency.ResidencyIff | MIT/6.828/kern/syscall.c:108-129 | From any state that careful steps reach: single residency survives every continuation by careful steps of all processors if and only if the step is careful, that is, no system call makes an environment runnable that another processor has |
| Residency.SingleResidency | MIT/6.828/kern/trap.c:305-362 | From boot, over every careful run of any number of processors: at most one is in the kernel, and no environment is on two |
| Residency.CarelessBreaks | MIT/6.828/kern/sched.c:31-40 | After a careless call, timer interrupts of the one processor alone end with an environment on two processors: the scan of sched_yield reaches it |
| Residency.TwiceRunnable | MIT/6.828/kern/syscall.c:108-129 | A run from boot of two processors: a parent sets its running child runnable, and both processors run the child |
| Residency.DestroyedTwice | MIT/6.828/kern/env.c:510-527 | A run from boot: a parent destroys its running child twice, the second call frees the slot that is still run, the next child gets the slot, and both processors run it |
| Residency.SentWhileRunning | MIT/6.828/kern/syscall.c:402 | A run from boot: a child that waits for a message is set runnable and runs with its flag still up, the message makes it runnable where it runs, and both processors run it |
| KernelLock.NextIff | MIT/6.828/kern/env.c:510-527 | A step keeps the status table accurate if and only if no status is set for an environment that another processor runs, none is made runnable while it receives, and a dying environment is not destroyed again |
| KernelLock.PerformIff | MIT/6.828/kern/syscall.c:108-129 | The same for what one trap does |
| KernelLock.AccurateAlways | MIT/6.828/kern/trap.c:305-362 | Over every run of such steps: every running environment is the curenv of a processor, and a processor in user code has one that is running or dying |
| KernelLock.EnvRunInv | MIT/6.828/kern/env.c:558-595 | env_run hands the processor only to an environment that no other processor has |
| KernelLock.AcquireInv | MIT/6.828/kern/spinlock.c:61-80 | Taking the lock by xchg lets one processor in |
| KernelLock.FirstInOrder | MIT/6.828/kern/sched.c:31-40 | sched_yield picks the first runnable environment in circular order |
| KernelLock.SomeRunnable | MIT/6.828/kern/sched.c:31-40 | and finds one exactly when one is runnable |
| KernelLock.HaltIff | MIT/6.828/kern/sched.c:54-93 | sched_halt goes to the monitor exactly when no environment is runnable, running or dying, and otherwise gives up curenv and the lock |
| KernelLock.Scan | MIT/6.828/kern/sched.c:31-40 | The scanning loop, from the slot after that of curenv |
| PipeFifo.Fifo | MIT/6.828/lib/pipe.c:104-172 | With the two sides interleaved between test, copy and increment, `0 <= wpos - rpos <= 32` and the bytes read are a prefix of the bytes written |
| PipeFifo.NextInv | MIT/6.828/lib/pipe.c:104-172 | Every step of either side keeps the bytes in flight in their places of the ring |
| PipeFifo.Delivers | MIT/6.828/lib/pipe.c:104-172 | From every state of every run the two sides can go on, without another call of write, until the reader has got every byte |
| PipeClosed.PipeClosedSound | MIT/6.828/lib/pipe.c:75-89 | Over every interleaving of dup, close, fork and the test itself, a pipe is reported closed only when nobody has the other end open, and nobody ever will |
| PipeClosed.EnoughDataRefs | MIT/6.828/lib/fd.c:174-201 | The data page always has at least as many references as both descriptor pages together |
| PipeClosed.ClosedIsRight | MIT/6.828/lib/pageref.c:3-14 | The two counts are read one after the other and still tell the truth when env_runs has not changed |
| PipeClosed.ClosedIff | MIT/6.828/lib/pipe.c:75-89 | With nobody in the middle of dup or close, an uninterrupted test answers 1 if and only if nobody has the other end |
| PipeClosed.CallsComplete | MIT/6.828/lib/fd.c:149-201 | After both steps of close the descriptor is gone, after both of dup there is one more like it, and a dup that fails leaves nothing |
| PipeClosed.NextInv | MIT/6.828/lib/pipe.c:186-190 | Every step keeps descriptor and data mappings in order |
| FsRoundTrip.RoundTrip | MIT/6.828/fs/fsformat.c:218-243 | fsformat succeeds on exactly the lists of files that fit the disk, and then file_open and file_read on the image give, for the first file of a name, exactly the bytes asked for that it has, E_NOT_FOUND exactly for the other names, and E_BAD_PATH for names that are too long; for every list of names and contents it says whether fsformat succeeds, panics or writes behind f_name |
| FsRoundTrip.ReadBack | MIT/6.828/fs/fs.c:151-239 | Super block, path, directory blocks and file blocks read from any image that fsformat wrote |
| FsFormat.Format | MIT/6.828/fs/fsformat.c:218-243 | It succeeds if and only if the sizes, the number of files and the sum of all blocks with indirect and directory blocks stay below the limits and no name has 128 bytes; the image then holds every file in order, and the cleared bits are exactly the allocated blocks; it writes behind f_name if and only if it gets to a longer name |
| FsFormat.RootAllocated | MIT/6.828/fs/fsformat.c:169-178 | The bits of all blocks of the root directory are cleared if and only if there is a file: for none, ROUNDUP of the int 0 is a block, which finishdir numbers without allocating it |
| FsFormat.ImageApart | MIT/6.828/fs/fsformat.c:81-89 | The files and the root directory have disjoint blocks |
| FsFormat.Formatter.WriteFile | MIT/6.828/fs/fsformat.c:180-209 | For every name: it succeeds if and only if the file is smaller than MAXFILESIZE, the directory has room, the name has less than 128 bytes and the blocks with the indirect one end below the end of the disk; it writes behind f_name exactly for a longer name that gets that far; the new file is then in blocks of its own, and all earlier files still are |
| FsFormat.Formatter.FinishFile | MIT/6.828/fs/fsformat.c:134-148 | Direct pointers and the indirect block number the blocks of the file; the indirect block is allocated already for ten blocks |
| FsFormat.Formatter.FinishDir | MIT/6.828/fs/fsformat.c:169-178 | The file structures are the contents of the root directory, behind the files, which are still there |
| FsFormat.Formatter.ReadN | MIT/6.828/fs/fsformat.c:61-73 | The contents are in the blocks, nothing before them has changed and zeroes follow |
| FsFormat.Formatter.Alloc | MIT/6.828/fs/fsformat.c:81-89 | The next whole blocks, and a panic exactly when the disk is full |
| FsFormat.Formatter.OpenDisk | MIT/6.828/fs/fsformat.c:91-120 | Super block and a bitmap with every bit set; a panic exactly on fewer than four blocks |
| FsFormat.Formatter.FinishDisk | MIT/6.828/fs/fsformat.c:122-132 | Exactly the bits of allocated blocks are cleared |
| FileServer.FileRead | MIT/6.828/fs/fs.c:217-239 | For any file structure: each byte from its block, or the failure of the first block that cannot be had |
| FileServer.SliceRead | MIT/6.828/fs/fs.c:217-239 | On a stored file that is exactly the slice of its contents, across direct and indirect blocks |
| FileServer.GetBlock | MIT/6.828/fs/fs.c:62-103 | The block, the error code, or the panic of diskaddr for every block number |
| FileServer.DirLookup | MIT/6.828/fs/fs.c:109-134 | Over the blocks of any directory: the first entry of that name, E_NOT_FOUND exactly when there is none, or the failure of a block before it |
| FileServer.LookupStored | MIT/6.828/fs/fs.c:109-134 | In a stored directory that is the first file of that name |
| FileServer.WalkPath | MIT/6.828/fs/fs.c:151-199 | Each component of the path is looked up in the file of the one before; names that are too long and files that are no directories give their errors |
| FileImage.EncodeRoundTrip | MIT/6.828/inc/fs.h:29-42 | The 256 bytes of a struct File on the disk give the structure back |
| FileImage.EncodeLayout | MIT/6.828/inc/fs.h:29-42 | Where each field of a struct File lies, with the lowest byte of each word first |
| FileImage.StrCpyNamed | MIT/6.828/fs/fsformat.c:164 | After strcpy into f_name, strcmp finds that string and no other, whatever was behind it |
| FileImage.PutGet | MIT/6.828/fs/fsformat.c:144-146 | Words of the indirect block read back as written |
| SlotGraph.Graph.AddNode | Harvard/CS207/Graph.hpp:268-293 | A removed uid is reused before a new one is made; index and uid of the new node; no other node or edge changes; the representation invariant holds |
| SlotGraph.Graph.RemoveNode | Harvard/CS207/Graph.hpp:332-358 | For every handle: a live node goes; for a node of another graph 0 or a failed assertion; for a removed one the assertion of valid() fails or, at the end of the free chain, i2u_ is read out of bounds; nothing changes then |
| SlotGraph.Graph.Detach | Harvard/CS207/Graph.hpp:340-358 | The node goes with its edges; every other node keeps uid and value, every other edge its id; the last index moves into the gap |
| SlotGraph.HasNodeIff | Harvard/CS207/Graph.hpp:300-303 | has_node answers 1 exactly for live nodes and never 0 for a node of this graph |
| SlotGraph.RemovedTwice | Harvard/CS207/Graph.hpp:240-249 | On the graph after adding and removing one node, removing it again reads i2u_ out of bounds |
| SlotGraph.Graph.AddEdge | Harvard/CS207/Graph.hpp:517-544 | A new edge with a new id at both ends, or the id of the edge that is there and no change |
| SlotGraph.Graph.RemoveEdge | Harvard/CS207/Graph.hpp:611-630 | Exactly this edge goes, from both ends, and edge_size_ counts |
| SlotGraph.Graph.HasEdge | Harvard/CS207/Graph.hpp:570-583 | If and only if there is such an edge |
| SlotGraph.Graph.Clear | Harvard/CS207/Graph.hpp:110-117 | Nothing is left, and the invariant holds |
| SlotGraph.PopSlot | Harvard/CS207/Graph.hpp:344-357 | Swap and pop keeps `i2u_` and `index` inverse, and the free chain is exactly the dead uids |
| SlotGraph.ReuseSlot | Harvard/CS207/Graph.hpp:279-288 | Taking the head of the free chain keeps the same |
| SlotGraph.NodeValidIff | Harvard/CS207/Graph.hpp:240-245 | Node::valid() answers liveness for every uid but the last of the free chain, for which it reads outside of i2u_ |
| GraphEdges.EachEdgeOnce | Harvard/CS207/Graph.hpp:778-871 | The iteration visits each undirected edge exactly once, at the end with the smaller uid, and edge_size_ edges in all |
| GraphEdges.AllEdges | Harvard/CS207/Graph.hpp:863-871 | From edge_begin() to edge_end(), with termination |
| GraphEdges.EdgeIterator.Fix | Harvard/CS207/Graph.hpp:832-856 | Skips finished rows, empty rows and seen entries, and loses nothing; does nothing where there is nothing to fix |
| GraphEdges.EdgeIterator.Next | Harvard/CS207/Graph.hpp:788-794 | The current edge is behind, and all others are still ahead |
| ParseTrees.RunsAreTrees | Stanford/CS224n/a3/parser_transitions.py:55-85 | Every legal run to done() on n words takes 2n steps and leaves n arcs that form an acyclic, single-headed, non-crossing tree rooted at the remaining token |
| ParseTrees.TreesAreRuns | Stanford/CS224n/a3/parser_transitions.py:55-85 | Every projective tree rooted at ROOT is produced by some list of transitions |
| ParseTrees.Convex | Stanford/CS224n/a3/parser_transitions.py:55-85 | In a projective tree, the tokens below a token are contiguous |
| TransitionParser.RunCounts | Stanford/CS224n/a3/parser_transitions.py:55-85 | How stack, buffer and dependencies grow along a run |
| TransitionParser.PartialParse.ParseStep | Stanford/CS224n/a3/parser_transitions.py:41-68 | One legal transition in place is the transition of the specification |
| TransitionParser.PartialParse.RunAll | Stanford/CS224n/a3/parser_transitions.py:71-82 | Applying a list in place is the run of the specification |
| TransitionParser.MinibatchParse | Stanford/CS224n/a3/parser_transitions.py:88-136 | Terminates with every parse done, and the dependencies of sentence i are those of parsing it alone, although both lists share the parses |
| TransitionParser.StepBatch | Stanford/CS224n/a3/parser_transitions.py:129-130 | One batch step advances exactly the parses of the batch |

## Left out

- Typing.Analyze: the types and the two flags that analyze() computes, as a function; the `type` fields that it writes, the symbol table object and the texts of the error messages are not modelled, and duplicate methods in one class, which the checker does not look for, are excluded.
- Cool `isvoid` and `=`: the code of `isvoid` does not emit its operand, and `=` calls `equality_test`, which is not part of this repository.
- Cool `type_name`, `in_string`, `in_int` and the String methods, garbage collection, and the text format of the output: run-time system and assembler syntax.
- PageKernel.Kernel.constructor: the contents of the kernel's own page tables are whatever was in their pages; only that mem_init takes them is modelled.
- PageKernel.KernelTables: which pages the kernel's tables take, without the mappings that boot_map_region writes into them.
- PageKernel.Kernel.SysExofork: trap frames, and so the registers that the child gets, are not modelled.
- PageKernel.Kernel.SysPageAlloc: the 16 bits of pp_ref, as said of FrameAccounting.DecrefOk.
- PageKernel.Kernel.EnvRun: env_runs, lcr3 and the trap frame; the release of the lock is in KernelLock.
- FrameAccounting.DecrefOk: a count is an unbounded number, where pp_ref has 16 bits; the accounting is that of the source as long as no page has 65536 references.
- EnvIds.NextIdFresh: the env_init loop of the source starts one slot behind the array; the model has the intended NENV slots.
- Physical addresses, the TLB, lcr3, kernel mappings above UTOP, user_mem_check, load_icode and trap frames.
- CowFork.ForkCopies: the failures of fork and pgfault panic, which ends the process, and are not modelled; a process that has ended keeps its pages.
- PrimeSieve.SievePrintsPrimes: fork is one step, numbers do not wrap at 32 bits, there is no limit to the number of environments, and an unfair run need not get on; no other process sends to the chain.
- Residency.SingleResidency: faults in kernel mode and the permission check of envid2env are not modelled; any environment may name any slot.
- PipeFifo.Fifo: positions are unbounded numbers.
- PipeClosed.PipeClosedSound: pipe() and fork are single steps; it does not say that all bytes have been read when the end is reported.
- FsFormat.Formatter.WriteFile: what the image has after a strcpy beyond f_name; the bitmap is kept beside the blocks, and offsets are not negative.
- FileServer.WalkPath: as file_open calls it, without the parent directory and the last element.
- Graph.hpp: Mesh.hpp, node and incident iterators, and node and edge positions and values beyond being kept.
- TransitionParser.PartialParse.ParseStep: illegal and unknown transitions, which the source leaves to its callers.
- spawn.c, stab_binsearch, printnum, strtol and memmove: loops that load a program, search a symbol table, print and read numbers and copy bytes; nothing modelled here calls them.
- Numeric Python, SDL viewer, shallow water, console, IDE, LAPIC and boot code.

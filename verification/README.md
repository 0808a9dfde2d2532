# Verified models of snownet and its Lua runtime

snownet runs services written in Lua on a C++ core. This project models the parts of it whose correctness is
least visible from reading them, and proves what they are for.

- **The garbage collector** (`3rd/lua-5.3.5/lgc.c`). `GcHeap` says what every kind of object keeps alive and
  defines the least closed set of a heap and its roots; with weak keys and values that is not plain
  reachability. `GcState` holds the invariants of marking and `GcPaint` to `GcEphemeron` its steps; `GcAtomic`,
  `GcWeak` and `GcComplete` are the atomic phase and what becomes of weak tables, `GcSweep` to `GcStep` sweeping,
  finalizers and single steps, `GcCycle` a whole cycle. `Collector.GlobalState` is the collector, an object whose
  fields are the heap, its lists and the phase. `GcMutator`, `GcObjects`, `GcStores` and `GcRun` let a program run
  in between collector steps. `GcLost` and `GcLostRuns` are the two cases in which a live object ends up referring
  to a freed one.
- **The code generator for expressions** (`lcode.c`, `lparser.c`). `LuaCode` is the machine, `CodeJumps` the
  jump lists threaded through the code, `ExpSem`, `CodeSem`, `CodeReg` and `CodeSteps` say what an unfinished
  expression means. `CodeGen.FuncState` is the generator.
- **Pattern matching** (`lstrlib.c`). `Patterns` reads a pattern as tokens and lists all its matches in the order
  of preference, `Matcher.MatchState` is the backtracking matcher with its capture array, `MatchOrder` says which
  match comes first, `StrLib` is `find`, `match` and `gsub`.
- **The message queue and its scheduler** (`snownet_mq.cc`). `MessageQueue` is the growing ring, `Scheduler` the
  protocol by which queues are linked, taken and released, `QueueServer` the objects that follow it.
- **Packet framing** (`lua-netpack.cc`). `Framing` is the stream as packets, `Netpack.Queue` the reassembly of
  chunks from many sockets, `NetOrder` the order in which their packets reach the program.
- **Cryptography** (`lua-crypt.cc`). `DesRounds` is DES on a block as the source computes it, `DesStandard` the tables of
  the standard, `Des` joins them and encrypts texts; `PowMod` is the key exchange.

`Options`, `Rings` and `BlockCipher` are shared. A pointer is an address in a finite map, a linked list is a sequence, and a
position in a list is an index. Sizes and counters are unbounded except where the source relies on their width:
64-bit arithmetic in `PowMod`, 32-bit words in `DesRounds`, the 16-bit length in `Framing`, 8-bit registers and the
jump range in `CodeGen`, the unsigned comparison in `Des.DesDecode`, the limits of the matcher.

## Model

| member | source | states |
|---|---|---|
| Collector.GlobalState.constructor | 3rd/lua-5.3.5/lstate.c:295-331 | a new state holds only the main thread, rests at a pause and satisfies the invariant |
| GcRun.RunProgram | 3rd/lua-5.3.5/lgc.c:1045-1097 | from a new state, whatever sequence of allocations, stores, finalizers, collector steps and full collections is performed, every path of pointers from a root leads, at every moment, to an allocated object that no sweep will free |
| GcRun.AlwaysSafe | 3rd/lua-5.3.5/lgc.c:1045-1097 | the same for one path in one state of such a trace |
| GcRun.Perform | 3rd/lua-5.3.5/lgc.c:1129-1147 | one operation with live operands has exactly its effect on contents, lists and roots, keeps the invariant and loses nothing reachable, neither objects nor entries of weak tables; with other operands it does nothing |
| GcSweep.PathAlive | 3rd/lua-5.3.5/lgc.c:1045-1097 | in every phase the invariant makes each path from a root end in an object that is not dead |
| GcStores.NoBlackToWhite | 3rd/lua-5.3.5/lgc.h:75-101 | while marking, no black object refers to a white one, through any of its slots |
| Collector.GlobalState.FullGc | 3rd/lua-5.3.5/lgc.c:1159-1175 | a full collection keeps the invariant and ends at a pause; an object that is not a string survives exactly if it is in the least closed set of the roots, strings at least then; without weak tables the heap is exactly that set; strong contents are kept, and a weak table loses exactly the entries whose key did not survive or whose value was not reached before finalizers were looked at; an object keeps its place on `finobj` exactly if it is reached without finalizers; the others were finalized and are ordinary objects again, or in an emergency wait behind those that waited before; the roots are as before |
| Collector.GlobalState.SingleStep | 3rd/lua-5.3.5/lgc.c:1045-1097 | one step keeps the invariant, follows the order of phases, comes closer to the end of the cycle, and only the atomic step gives up objects: then the live set becomes a closed set within the bound, what moves to `tobefnz` is what was not reached, and weak tables lose exactly the entries that are lost; the steps that end the sweep and call finalizers have their exact state |
| Collector.GlobalState.RunTilState | 3rd/lua-5.3.5/lgc.c:1104-1108 | terminates, in a requested phase, after steps each of which meets the contract of `SingleStep` |
| Collector.GlobalState.LuaStep | 3rd/lua-5.3.5/lgc.c:1129-1147 | one or more single steps, as long as there is debt and not past a pause, then as many finalizers as `gcfinnum` says |
| Collector.GlobalState.Atomic | 3rd/lua-5.3.5/lgc.c:982-1026 | ends with a marked set that is closed and contains the roots; a closed set reached from the roots alone decides which objects stay on `finobj` and which values of weak tables stay; the white flips, and nothing else is cleared but entries whose key is not marked |
| Collector.GlobalState.AtomicMark | 3rd/lua-5.3.5/lgc.c:982-1004 | up to the first convergence: gray lists are empty, the running thread, the registry and the basic metatables are marked and no ephemeron table can mark anything more |
| Collector.GlobalState.AtomicResurrect | 3rd/lua-5.3.5/lgc.c:1008-1017 | what has to be finalized gets marked, convergence holds again, and values cleared before stay cleared |
| Collector.GlobalState.ConvergeEphemerons | 3rd/lua-5.3.5/lgc.c:608-623 | terminates, and no ephemeron table then holds a marked key with an unmarked value |
| Collector.GlobalState.TraverseEphemeron | 3rd/lua-5.3.5/lgc.c:394-430 | true only if an object was marked; false only if the table is stable; keeps the marking invariant with the table on the right list |
| Collector.GlobalState.TraverseWeakValue | 3rd/lua-5.3.5/lgc.c:361-381 | keeps the marking invariant: keys are marked, and the table waits to be visited again or cleared unless all its values are marked |
| Collector.GlobalState.TraverseStrongTable | 3rd/lua-5.3.5/lgc.c:433-448 | afterwards every slot of the table, live or stale, leads to a marked object or to none; white objects only get fewer |
| Collector.GlobalState.TraverseThread | 3rd/lua-5.3.5/lgc.c:530-552 | the marking invariant holds again: the live stack is marked, and the thread is due for another visit or, inside the atomic phase, holds nothing unmarked even in its dead slots |
| Collector.GlobalState.PropagateMark | 3rd/lua-5.3.5/lgc.c:559-600 | takes one gray object, keeps the marking invariant, and fewer objects are white or the list is shorter |
| Collector.GlobalState.ReallyMarkObject | 3rd/lua-5.3.5/lgc.c:235-283 | the object is no longer white, nothing gets lighter, userdata mark what they hold recursively, and this terminates |
| Collector.GlobalState.IsCleared | 3rd/lua-5.3.5/lgc.c:139-146 | true exactly for white objects other than strings, which get marked |
| Collector.GlobalState.ClearKeys | 3rd/lua-5.3.5/lgc.c:639-651 | every key left in the listed tables is marked; an entry changed only if it was empty or its key is unmarked; other tables are untouched |
| Collector.GlobalState.ClearValues | 3rd/lua-5.3.5/lgc.c:658-675 | every value left in the listed tables is marked; a slot changed only if its value is an unmarked object |
| GcWeak.EntriesPruned | 3rd/lua-5.3.5/lgc.c:639-675 | a table from which only lost entries were removed, and that refers to nothing that is gone, is the old one without exactly its lost entries |
| Collector.GlobalState.SeparateToBeFnz | 3rd/lua-5.3.5/lgc.c:880-895 | `finobj` keeps its marked objects, the white ones go to the end of `tobefnz`, both in order |
| Collector.GlobalState.SweepList | 3rd/lua-5.3.5/lgc.c:735-752 | of the next `count` objects the dead ones are freed, the others get the current white and stay in order; returns where to go on |
| Collector.GlobalState.SweepStep | 3rd/lua-5.3.5/lgc.c:1029-1042 | loses nothing live, comes closer to the end, and starts the next list at its front |
| Collector.GlobalState.UdataToFinalize | 3rd/lua-5.3.5/lgc.c:788-798 | the exact new state in every case; it keeps the invariant and the live set unless the sweep stands right behind the object and others are not yet swept |
| Collector.GlobalState.RunAFewFinalizers | 3rd/lua-5.3.5/lgc.c:844-853 | in any phase, the state after exactly `gcfinnum` finalizers (or all that wait), with the number doubled; nothing live is lost unless they take the object that the sweep stands behind |
| Collector.GlobalState.CheckFinalizer | 3rd/lua-5.3.5/lgc.c:902-921 | the object moves from `allgc` to the front of `finobj`, also in the middle of a sweep; everything else stays and nothing live is lost |
| Collector.GlobalState.NewObj | 3rd/lua-5.3.5/lgc.c:208-216 | exactly one more live object, in any phase |
| Collector.GlobalState.Fix | 3rd/lua-5.3.5/lgc.c:194-201 | the newest object moves to `fixedgc`, gray; if it is a live string nothing live is lost and the invariant holds |
| Collector.GlobalState.StoreBack | 3rd/lua-5.3.5/lgc.c:171-176 | a store into a table followed by the backward barrier keeps the invariant in every phase |
| Collector.GlobalState.StoreForward | 3rd/lua-5.3.5/lgc.c:155-164 | a store followed by the forward barrier keeps the invariant in every phase; only when a metatable is stored into a visited table with weak keys and values the barrier does nothing, and the store alone happens |
| Collector.GlobalState.ReuseString | 3rd/lua-5.3.5/lstring.c:175-178 | looking up a dead string makes it live, and nothing else |
| GcLost.LoseMetatable | 3rd/lua-5.3.5/lapi.c:857-863 | after `lua_setmetatable` on a visited table with weak keys and values, the rest of the cycle frees the new metatable, to which the table still refers, exactly when nothing else leads to it |
| GcLostRuns.MetatableRun | 3rd/lua-5.3.5/lapi.c:857-863 | a run from a new state that ends with a table held by the registry whose metatable is freed |
| GcLost.LoseReferents | 3rd/lua-5.3.5/lgc.c:788-798 | after `udata2finalize` with the sweep right behind the first of `tobefnz`, an object other than a string survives the next collection exactly if something other than an object left marked leads to it from the roots |
| GcLostRuns.UserdataRun | 3rd/lua-5.3.5/lgc.c:844-853 | a run from a new state, by `luaC_step` with its doubling number of finalizers, that ends with a userdata held by the registry whose user value is freed |
| GcMarks.TestsAgree | 3rd/lua-5.3.5/lgc.h:75-101 | the tests on the bits of `marked` are the tests on colours that the model uses, with two whites |
| GcMarks.ChangesAgree | 3rd/lua-5.3.5/lgc.c:60-71 | the changes of the bits are the changes of colour and leave the finalizer bit alone |
| CodeGen.CompileReturn | 3rd/lua-5.3.5/lparser.c:1504-1534 | the code for a function that returns a list of expressions is well formed, without open jumps, stays within the registers of its frame, and every run of it returns exactly the values of the expressions, in order; it fails only at the limit of registers or jump offsets |
| CodeGen.FuncState.ExpList | 3rd/lua-5.3.5/lparser.c:804-814 | all values but the last are in consecutive registers on every run, and the descriptor means the last |
| CodeGen.FuncState.ReserveRegs | 3rd/lua-5.3.5/lcode.c:361-378 | the frame grows with the registers in use and still holds every register of the code; fails only at the limit |
| CodeGen.FuncState.Expression | 3rd/lua-5.3.5/lparser.c:1048-1075 | for every expression the descriptor with the code emitted so far means its value, pending jumps of the surrounding code and constants are kept, and registers are used like a stack |
| CodeGen.FuncState.StoreLocal | 3rd/lua-5.3.5/lcode.c:782-787 | after an assignment to a local its register holds the value of the expression on every run |
| CodeGen.FuncState.Concat | 3rd/lua-5.3.5/lcode.c:116-127 | the jump list becomes the concatenation, by changing only links of the first list |
| CodeGen.FuncState.PatchListAux | 3rd/lua-5.3.5/lcode.c:224-234 | exactly the jumps of the list get destinations: valued ones one, with their register, others the other |
| CodeGen.FuncState.PatchTestReg | 3rd/lua-5.3.5/lcode.c:195-207 | a TESTSET gets the register, or becomes a TEST when no value is needed; any other control stays |
| CodeGen.FuncState.Exp2Reg | 3rd/lua-5.3.5/lcode.c:675-696 | on every run the register holds the value, whether the expression falls through or leaves by a true or false jump |
| CodeGen.FuncState.Discharge2Reg | 3rd/lua-5.3.5/lcode.c:595-635 | the value is placed in the register for every kind of descriptor except a comparison, which is left alone |
| CodeGen.FuncState.Exp2AnyReg | 3rd/lua-5.3.5/lcode.c:715-727 | the value is in a register; a descriptor that already is a register without jumps changes nothing |
| CodeGen.FuncState.Exp2RK | 3rd/lua-5.3.5/lcode.c:758-776 | the operand is the index of a constant or a register and means the value; one that has this form already changes nothing |
| CodeGen.FuncState.GoIfTrue | 3rd/lua-5.3.5/lcode.c:857-878 | the code falls through exactly when the value is true, and otherwise leaves by the returned list |
| CodeGen.FuncState.GoIfFalse | 3rd/lua-5.3.5/lcode.c:884-904 | the code falls through exactly when the value is false, and otherwise leaves by the returned list |
| CodeGen.FuncState.CodeNot | 3rd/lua-5.3.5/lcode.c:910-939 | the descriptor means the negation of the value, by folding a constant, reversing a comparison or emitting NOT |
| CodeGen.FuncState.CodeComp | 3rd/lua-5.3.5/lcode.c:1037-1060 | the comparison with its jump means the boolean, also for the exchanged operands of `>` and `>=` |
| CodeGen.FuncState.Infix | 3rd/lua-5.3.5/lcode.c:1086-1115 | after the first operand: for `and` and `or` a branch on its truth value, for a comparison a register or constant, for arithmetic that or a numeral |
| CodeGen.FuncState.Posfix | 3rd/lua-5.3.5/lcode.c:1124-1171 | the two operands combined mean the value of the operation, `and` and `or` with short cut |
| CodeGen.FuncState.AddK | 3rd/lua-5.3.5/lcode.c:428-452 | the index refers to the constant and no earlier index changes its meaning |
| Matcher.MatchState.DoMatch | 3rd/lua-5.3.5/lstrlib.c:425-524 | returns the first match of the reference list with its captures, or its error; on failure captures and depth are restored; "too complex" exactly if the alternatives tried up to that answer nest deeper than the remaining depth |
| Matcher.MatchState.MaxExpand | 3rd/lua-5.3.5/lstrlib.c:361-373 | the first match when the longest repetition is tried first |
| Matcher.MatchState.MinExpand | 3rd/lua-5.3.5/lstrlib.c:376-386 | the first match when the shortest repetition is tried first |
| Matcher.MatchState.MatchBalance | 3rd/lua-5.3.5/lstrlib.c:341-358 | found exactly at the first position at which the closers balance the openers |
| Matcher.MatchState.MatchBracketClass | 3rd/lua-5.3.5/lstrlib.c:302-322 | membership in the set that the brackets denote |
| Matcher.MatchState.MatchCapture | 3rd/lua-5.3.5/lstrlib.c:414-422 | a back reference matches exactly a repetition of a closed capture |
| Patterns.ClassesDenote | 3rd/lua-5.3.5/lstrlib.c:282-300 | each class letter as the table of its characters in the C locale |
| Patterns.ClassLetters | 3rd/lua-5.3.5/lstrlib.c:282-300 | upper case names the complement, and a character that is no class letter stands for itself |
| Patterns.MatchesDerive | 3rd/lua-5.3.5/lstrlib.c:425-524 | a match is in the reference list exactly if a declarative reading of the pattern derives it |
| Patterns.BalanceExactly | 3rd/lua-5.3.5/lstrlib.c:341-358 | where a balanced string ends: the first position at which closers and openers are equal in number |
| MatchOrder.FirstExactly | 3rd/lua-5.3.5/lstrlib.c:361-386 | the first match is the one in which each greedy item takes the most, and each lazy item the least, that lets the rest of the pattern match; there is only one such match |
| StrLib.SearchPattern | 3rd/lua-5.3.5/lstrlib.c:628-648 | the leftmost position with a match and its first match, or the first error met, also that of the depth limit; with an anchor only the start |
| StrLib.MemFind | 3rd/lua-5.3.5/lstrlib.c:528-547 | the first occurrence of a plain string, or none |
| StrLib.ShortcutExact | 3rd/lua-5.3.5/lstrlib.c:580-588 | searching a pattern without special characters as plain text is right exactly for patterns without ')' |
| StrLib.PlainIsLeftmost | 3rd/lua-5.3.5/lstrlib.c:616-627 | for a literal pattern the answer of the plain search is the leftmost match of the pattern search |
| StrLib.StrFind | 3rd/lua-5.3.5/lstrlib.c:607-651 | start positions, negative ones counted from the end, the plain short cut and the pattern search together |
| StrLib.GSub | 3rd/lua-5.3.5/lstrlib.c:762-798 | matches replaced and single characters kept tile the subject; each replacement is the first match at its place and not empty right behind another; a character is kept only where nothing matches, or only the empty string right behind a match; an anchor allows one attempt; fails exactly where a match fails with an error; replacing every match by itself changes nothing |
| StrLib.CutOnce | 3rd/lua-5.3.5/lstrlib.c:779-793 | a subject can be cut in this way only once: of two cuts one continues the other |
| MessageQueue.Mq.Push | snownet-src/snownet_mq.cc:190-209 | the message is last, nothing else changes, the queue grows when full and is linked exactly if it was not |
| MessageQueue.Mq.Pop | snownet-src/snownet_mq.cc:138-172 | the first message in order, or empty and off the scheduler; the overload threshold is multiplied by the least power of two that brings it to the length |
| MessageQueue.Mq.Expand | snownet-src/snownet_mq.cc:175-187 | the full ring is unrolled to the front of one twice as long |
| MessageQueue.Mq.Release | snownet-src/snownet_mq.cc:240-250 | a marked queue gives up what is left in it, in order; another is linked again |
| Scheduler.RunSafe | snownet-src/snownet_mq.cc:44-75 | on every run no queue is linked twice, a queue with messages is linked or held but not both, and what was popped is a prefix of what was pushed |
| Scheduler.StepInv | snownet-src/snownet_mq.cc:190-250 | every operation keeps the invariant |
| Scheduler.PushExact | snownet-src/snownet_mq.cc:220-228 | a push leaves the queue known to the scheduler twice exactly if the queue was marked for release while idle |
| Scheduler.PushAfterMark | snownet-src/snownet_mq.cc:220-228 | a run in which that happens and two workers take the queue at once |
| QueueServer.Server.Perform | snownet-src/snownet_mq.cc:44-250 | each function on the queue objects is the step of the protocol on what they show |
| Framing.ParseSplit | lualib-src/lua-netpack.cc:227-308 | parsing a stream is parsing any prefix and then what it leaves followed by the remainder |
| Framing.ParseFramed | lualib-src/lua-netpack.cc:438-453 | packets written one after another are read back |
| Netpack.Queue.Filter | lualib-src/lua-netpack.cc:227-308 | the new chunk after what was pending of that socket yields exactly its packets, returned or queued, and other sockets are untouched |
| Netpack.Queue.FindUncomplete | lualib-src/lua-netpack.cc:92-113 | the pending entry of the socket, removed from its bucket |
| Netpack.Queue.PushMore | lualib-src/lua-netpack.cc:188-214 | all complete packets of the buffer are queued and the remainder is kept |
| Netpack.Receive | lualib-src/lua-netpack.cc:339-388 | with the queue emptied after every chunk, each socket's packets arrive in order and complete, for any interleaving and any cut into chunks |
| NetOrder.ReceiveAny | lualib-src/lua-netpack.cc:339-411 | chunks and takes in any order: what the program has received, what waits and what is unfinished are what the specification of the steps says |
| NetOrder.Conserved | lualib-src/lua-netpack.cc:227-308 | what was received of a socket and what waits are together what was sent through it, nothing lost or doubled |
| NetOrder.OrderExactly | lualib-src/lua-netpack.cc:291-299 | at every moment of a run the packets of every socket are in order, if and only if no packet is returned at once while a different one of its socket waits |
| NetOrder.LateRun | lualib-src/lua-netpack.cc:291-299 | a run in which the program receives the third packet before the first two |
| Netpack.Pack | lualib-src/lua-netpack.cc:438-453 | the frame, or an error from 65536 bytes on |
| Des.EncodeDecode | lualib-src/lua-crypt.cc:370-442 | decoding undoes encoding, for every text, key schedule and S-boxes |
| Des.DesCrypt | lualib-src/lua-crypt.cc:320-341 | the block encrypted by the tables of FIPS 46-3 (initial permutation, expansion, inverse permutation) and the given boxes and round keys |
| Des.CryptIsStandard | lualib-src/lua-crypt.cc:207-246 | the swaps and masks of the source on halves rotated by one bit compute the permutations and rounds of the standard |
| Des.DesEncode | lualib-src/lua-crypt.cc:370-402 | each block of the text followed by 0x80 and zeros, encrypted on its own |
| Des.DesDecode | lualib-src/lua-crypt.cc:405-442 | an encoded text comes back, and no other text does; the scan for the padding leaves the buffer exactly when the input is the code of eight zeros; everything else is rejected |
| DesRounds.PermutationsUndo | lualib-src/lua-crypt.cc:207-229 | the final permutation is the inverse of the initial one |
| PowMod.MulModP | lualib-src/lua-crypt.cc:721-740 | the product modulo P although sums would exceed 64 bits |
| PowMod.PowModExact | lualib-src/lua-crypt.cc:757-761 | the power modulo P, except exactly for base P and exponent 1 |
| PowMod.Exchange | lualib-src/lua-crypt.cc:779-813 | both sides of the exchange obtain the same secret, 5 to the product of the exponents modulo 2^64 - 59 |

## Findings

Each of these is a property that the code does not have, with its exact condition and a concrete input.

- `lua_setmetatable` can lose the new metatable (`GcLost.LoseMetatable`, `GcLostRuns.MetatableRun`). A table with
  weak keys and values is visited once, only for its metatable, and stays gray, so the barrier of a later
  `setmetatable` does nothing. The table is not visited again in that cycle. If nothing else leads to the new
  metatable it is freed.
- `udata2finalize` during the sweep of `tobefnz` can lose what a finalized object holds (`GcLost.LoseReferents`,
  `GcLostRuns.UserdataRun`). With the sweep position right behind the first object, moving that object carries the
  position into `allgc`. The rest of `tobefnz` is not swept and stays black, and the next cycle does not visit it.
- `powmodp` returns its base unreduced for exponent 1 (`PowMod.PowModExact`): for base P the result is P, not 0.
- `string.find` takes the plain search for a pattern that contains ')' and no special character
  (`StrLib.ShortcutExact`), while the matcher rejects it.
- `mark_release` links an idle queue without setting `in_global` (`Scheduler.PushExact`, `Scheduler.PushAfterMark`),
  so a push after it links the queue a second time. The callers avoid this as long as nobody has the handle then.
- `netpack` returns a packet that is complete by itself at once, although packets of the same socket may still wait
  in the queue (`NetOrder.OrderExactly`, `NetOrder.LateRun`): it overtakes them.
- `ldesdecode` compares a signed position with an unsigned bound (`Des.DesDecode`). For the single block that
  decodes to eight zeros the position passes the start of the buffer without ending the loop.

## Left out

Collector:
- The mode of a table is fixed when it is created, while in the source it is read from the metatable at each visit,
  so `setmetatable` or a change of `__mode` can alter it in the middle of a cycle; a table that is on `allweak` by then
  is still cleared.
- Open upvalues, `remarkupvals` and upvalue cells shared between closures: a closure holds its values directly.
- What a finalizer does: the code of `__gc` is any sequence of the operations of `GcRun` after the object is popped.
- The `gclist` links inside objects: gray and weak lists are sequences of addresses.
- The string table and the cache of strings, hashing, resizing of tables and stacks, addresses as keys.
- Memory estimates, debt and the pace of `luaC_step`: steps may come in any number and order.
- `luaC_freeallobjects`, and allocation failure except that a full collection may be an emergency.
- Collector.GlobalState.Fix: the invariant is promised for live strings, the only objects that the source fixes, and not at all while the sweep stands right behind the object: the source fixes while a state is created and the collector is stopped.
- Collector.GlobalState.CheckFinalizer: the lookup of `__gc` in the metatable is the caller's.
- Collector.GlobalState.StoreForward: for the store that `GcLost.LoseMetatable` is about it promises the new state, not the invariant, which is false there.
- GcRun.Perform: pops a finalizer only outside the case that `GcLost.LoseReferents` is about.

Code generator:
- Indexed expressions, calls, varargs, `..`, table constructors, closures, and assignments to anything but locals.
- Statements other than `return` and assignment to a local, so no loops and no backward jumps.
- Line information, the bit layout of instructions, and the limit on the number of constants.
- Metamethods: operators are total functions given by the environment; folding is a parameter that may only return what the operator returns.

Pattern matching:
- `gmatch`, pushing captures on the Lua stack, and the three forms of the replacement: it is a function of the match.
- Locales: character classes are those of ASCII. `format`, `pack`, `unpack` and the other string functions.

Message queue:
- The worker and its weights: who may hold, pop and release a queue is a contract on callers. A lock makes a call one step.
- Overflow of the capacity, which doubles without limit here.

Packet framing:
- The events for opening, closing and errors of a socket, `clear`, and memory management.

Cryptography:
- The S-boxes and the key schedule, which are parameters; exponent 0, which the source excludes; hashes, HMAC, base64 and random keys.
- That the modulus is the greatest 64-bit prime: no result about the exchange needs it.

Not modelled: shared data, serialization, BSON, the harbor, gate and socket libraries, handle storage, timers, cluster, and the rest of Lua.

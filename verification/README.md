# OpenGenesisLINK: verified models

Dafny models of the parts of OpenGenesisLINK where a mistake would lose an object, duplicate one,
run a script wrongly or create money, with proofs of what those parts promise. `dafny verify
dfyconfig.toml` checks the whole project.

What is modelled, file by file:

| file | what it models |
|---|---|
| `ScriptVm.dfy` | the script virtual machine: instructions, budgets, the program-counter loop |
| `ScriptEffects.dfy` | what the instructions mean to a script's author: numbers, variables, actions, conditions, budgets |
| `OglLanguage.dfy` | the structured meaning of an OGL handler, its jump code, and the proof that the machine running the code does what the structure says |
| `OglCompiler.dfy` | the one-pass compiler from line lists to jump code: stack of open blocks, in-place patching of jump targets |
| `OglLoops.dfy` | which instructions control flow compiles to, and how often a `for` runs its body |
| `OglInlining.dfy` | collecting functions out of a script, and their bounded inlining |
| `OglScript.dfy` | the assembler, cutting a script into handlers, the whole compilation with its limits, and what delivering an event to the result means |
| `VmCodec.dfy` | the stored text form of a script's state |
| `ScriptLifecycle.dfy` | one event and the bounded chain of state_exit/state_entry runs it causes |
| `WorldResults.dfy` | a region's answer to a script's query, read into the script's variables |
| `StateTexts.dfy` | stored states and query results character by character: what is written, what is taken, which value wins |
| `ScriptRuntime.dfy` | the table of scripts: event execution, query results and rebinding to another region's entities |
| `ScriptDeliveries.dfy` | what an event comes to, written out on the states it passes through |
| `ObjectCrossingStore.dfy` | Core's crossing records and every operation on them |
| `CrossingRecords.dfy` | the laws of those operations on the table before and after |
| `CrossingProtocol.dfy` | the crossing protocol as a state machine over records, scenes and commands in hand, its invariant, and safety over every run |
| `CoreCrossings.dfy` | Core's handling of region results: entity maps, records and scripts together |
| `CrossingRegion.dfy` | a region carrying out one crossing command on its linksets, addressed by any member |
| `CrossingSystem.dfy` | Core and the regions with their real tables and commands, as a refinement of the protocol; safety of the running system |
| `CrossingTimes.dfy` | a crossing's time limit over whole runs |
| `CrossingExchange.dfy` | what one exchange between Core and a region does, and what one step can do to a record |
| `CrossingQueue.dfy` | Core's oldest-first offer: clearing a region's queue for a younger crossing |
| `CrossingRecovery.dfy` | which crossings can still be rolled back, restored and completed, from every state of a run |
| `CrossingOverlap.dfy` | two crossings on one linkset, and how they duplicate it |
| `CrossingWithout.dfy` | the running system with one crossing left out, and when the others cannot tell |
| `CrossingPrecedence.dfy` | an older crossing that keeps a younger one from its linkset, until it is done |
| `CrossingGuard.dfy` | exactly when a second crossing on a linkset can duplicate it |
| `Inventory.dfy` | the inventory's folder forest and its items |
| `Ledger.dfy` | accounts, escrows and the entry list |
| `LedgerLaws.dfy` | who pays and who is paid, exactly when, and that a refusal moves nothing |
| `Physics.dfy` | the response of two touching bodies, over the reals |
| `FederationStores.dfy`, `Federation.dfy` | trust, sessions, grants, consumed nonces, and the runtime over them |
| `FederationLaws.dfy` | which tokens a grid accepts, and what each federation operation changes |
| `ActionQueue.dfy` | the leased queue of world actions |
| `MeshCache.dfy` | the mesh cache |
| `Basics.dfy`, `Text.dfy` | sums over maps, runs of a step relation; decimal text and separated fields |

Objects whose methods update fields are classes here, each method proved against a function of the
old state; what the source promises is then proved about those functions, as invariants over every
run or as laws between operations. Random ids are parameters that must be fresh. Clocks are
parameters. Reasons for refusals are the texts the code uses.

## What the proofs found

- **Two crossings on one linkset duplicate it.** Neither `ObjectCrossingStore::prepare` nor the HTTP
  endpoint that calls it looks for another unfinished crossing of the same linkset. The guard that is
  needed is on the linkset, not on the entity number a client names: a region finds a linkset through
  any of its members, so two crossings whose addresses have nothing in common can duplicate it
  (`CrossingOverlap.MembersDuplicate`).
  - With the guard, over every run, no linkset is lost or duplicated (`CrossingSystem.CrossingSafety`),
    and every crossing that ends leaves its linkset in one place (`CrossingSystem.CrossingsEndInOnePlace`).
  - Exactly when two copies can be left (`CrossingGuard.DuplicatesExactly`), for a crossing opened on a
    linkset that is in a scene, when both it and the unfinished crossing that touches the linkset would
    be accepted on their way: always, unless the touching crossing is older and (a) waits to be restored,
    (b) waits for its cleanup, and the new one leaves from where it went or goes to the same region, or
    (c) is imported, and the new one leaves from the same place for the same region. In these cases
    Core's oldest-first offer keeps the new crossing away (`CrossingGuard.LaterHarmless`).
  - Core compares seconds and breaks ties by the order of an unordered table. As long as the clock has
    not moved past the second in which the touching crossing was opened, the guard itself is exact: two
    copies can be left if and only if an unfinished crossing touches the linkset, in any of its five
    unfinished states and at either end (`CrossingGuard.GuardExact`).
- **A crossing that has to be restored can be stuck for ever.** A restore passes the checks of an
  import, which the linkset at its source never passed: one that spans more than the region is refused
  also when it is still there. Such a crossing stays `restore_pending` in every run, and its region is
  never given a younger command (`CrossingRecovery.StuckForever`). A crossing that is to be restored can
  end exactly when its source region accepts the restore (`CrossingRecovery.RestoringEnds`).
- **Which crossings can complete** (`CrossingRecovery.CompletesExactly`): exactly those not turned back
  whose linkset is its owner's, whole and at most 256 KiB, whose region names are safe fields, and whose
  import the destination accepts with an entity map Core can read.
- **A completed removal needs names the script table accepts.** `prepare` bounds the length of
  region names only; rebinding also refuses tabs and line breaks. A confirmed removal completes the
  crossing exactly when both region names pass that check (`CoreCrossings.RemovalCompletes`), so a
  crossing from a region named `a<tab>b` is opened and completes in no run
  (`CrossingRecovery.TabNeverCompletes`).
- **A query result can make a script's state unreadable.** The keys of a result are checked for length
  and line breaks but not for being atoms. After an accepted result the state loads if and only if every
  name written is an atom (`ScriptRuntime.WorldResultLoads`); the field `a b=1` is accepted and breaks
  it (`ScriptRuntime.SpacedFieldBreaks`). The regions of this repository send atoms only, and their
  results always load (`ScriptRuntime.OwnResultsLoad`); only a foreign node can send another key.
  Names that instructions write are atoms, so executing events keeps the state readable
  (`ScriptLifecycle.EventKeepsNames`).
- **The error `ambiguous-script-rebind` cannot occur** (`ScriptRuntime.RebindAccepts`): a binding
  text names one region and one entity, whatever the region is called.
- **Replacing a mesh can evict it.** A new key is always retained, but a replaced mesh keeps its old
  place and stays exactly when it and everything newer fit (`MeshCache.ReplacedStays`).
- `docs/OBJECT-CROSSING-v1.md` lets an expired or rolled-back `exported` crossing become
  `rolled_back` at once; the code, and `docs/OBJECT-CROSSING-v2.md`, send it through
  `cleanup_pending`. The model follows the code.

## Model

| member | source | states |
|---|---|---|
| Text.DigitsOfNatText | src/scripting/script_vm.cpp:341-345 | decimal text written for a number consists of digits and reads back as that number |
| Text.SplitMeans | src/scripting/script_vm.cpp:294-305 | a text is split at every separator and nowhere else |
| Text.SafeFieldMeans | src/scripting/script_runtime.cpp:16-21 | a field is safe exactly when it is not empty, not too long and on one line without tabs |
| ScriptVm.CountStateBytes | src/scripting/script_vm.cpp:41-45 | the state size is the state name plus all variable names and values, in any order of walking |
| ScriptVm.BindParameters | src/scripting/script_vm.cpp:279-312 | parameters are bound in order to the payload lines, missing ones to the empty text, under the variable budget |
| ScriptVm.RunHandler | src/scripting/script_vm.cpp:313-449 | the program-counter loop ends with the state, actions, error and instruction count of the budgeted run |
| ScriptVm.ExecuteScriptEvent | src/scripting/script_vm.cpp:279-449 | refines the meaning of an event, whose laws the ScriptEffects rows state: the first handler for the event and logical state is run on the bound parameters |
| ScriptEffects.FirstHandlerDecides | src/scripting/script_vm.cpp:286-291 | the first handler for the event, in the logical state or for `*`, alone decides |
| ScriptEffects.NoHandlerNothing | src/scripting/script_vm.cpp:291 | without a handler the event succeeds and changes nothing, at no cost |
| ScriptEffects.BindMeans | src/scripting/script_vm.cpp:293-316 | bound parameters hold the payload lines in order, missing ones the empty text, the last of equal names deciding; no other variable changes |
| ScriptEffects.BindFails | src/scripting/script_vm.cpp:308-312 | binding fails only for want of room for a new variable |
| ScriptEffects.IntegerReads | src/scripting/script_vm.cpp:34-39 | every 64-bit number is read back from the text written for it |
| ScriptEffects.Resolving | src/scripting/script_vm.cpp:47-53 | a text after a dollar sign names a variable, empty when it is not set; any other text stands for itself |
| ScriptEffects.Comparing | src/scripting/script_vm.cpp:66-83 | each of the six operators compares as it is written, texts for equality and numbers otherwise, and any other fails |
| ScriptEffects.AddMeans | src/scripting/script_vm.cpp:341-345 | after `add` the variable reads as its old number plus the text's, an unset one counting as 0, whenever the sum fits 64 bits; nothing else changes |
| ScriptEffects.AddFails | src/scripting/script_vm.cpp:342-344 | `add` fails exactly when either is not a number |
| ScriptEffects.AddScript | src/scripting/script_vm.cpp:279-450 | so does the script of that one instruction, delivered as an event |
| ScriptEffects.SetMeans | src/scripting/script_vm.cpp:336-340 | what `set` gives a variable is read back, if there was room for it; nothing else changes |
| ScriptEffects.BuiltinMeans | src/scripting/script_vm.cpp:423-442 | the answer of a builtin, on its separated and resolved arguments, is set; its error stops the handler |
| ScriptEffects.StateMeans | src/scripting/script_vm.cpp:349-351 | a change of the logical state takes effect and is reported |
| ScriptEffects.SpokenRequests | src/scripting/script_vm.cpp:346-408 | each instruction with one text appends the action of its kind with the resolved text; emit alone checks for room first |
| ScriptEffects.MessageRequests | src/scripting/script_vm.cpp:358-360 | a message carries its addressee as written and its text resolved |
| ScriptEffects.VectorRequests | src/scripting/script_vm.cpp:361-395 | each instruction with three numbers appends the action of its kind with the three resolved texts |
| ScriptEffects.PlainRequests | src/scripting/script_vm.cpp:396-419 | physics and the queries append the action of their kind with the text as written |
| ScriptEffects.NearbyRequests | src/scripting/script_vm.cpp:420-422 | a search for avatars carries both texts as written |
| ScriptEffects.NumberRequests | src/scripting/script_vm.cpp:352-355 | a timer and a listener carry a number, 0 when the text is none |
| ScriptEffects.LimitsNamed | src/scripting/script_vm.cpp:444-445 | after an instruction the state bytes are checked first, then the number of actions |
| ScriptEffects.BytesCounted | src/scripting/script_vm.cpp:41-45 | a new variable adds the lengths of name and value, a changed one the difference of values |
| ScriptEffects.JumpsMean | src/scripting/script_vm.cpp:323-335 | a conditional jump goes on exactly when its condition holds |
| ScriptEffects.RunMeans | src/scripting/script_vm.cpp:318-322 | a run ends past the last instruction or when the budget is used up before; every instruction costs one |
| ScriptEffects.HandlerMeans | src/scripting/script_vm.cpp:279-450 | a handler's result has what its run ended with, how many instructions it took, and why it stopped |
| ScriptEffects.SpinsOut | src/scripting/script_vm.cpp:319-327 | a handler that jumps in place uses up any budget and changes nothing |
| OglLanguage.InstalledIsAssembled | src/scripting/ogl_engine.cpp:313-478 | code that agrees with a block index by index has every part of the block in its place with the right jumps around it |
| OglLanguage.AssembledIsInstalled | src/scripting/ogl_engine.cpp:313-478 | and conversely |
| OglLanguage.TargetsInside | src/scripting/ogl_engine.cpp:285-297 | every jump of a block's code stays inside the block or goes just past its end |
| OglLanguage.Simulate | src/scripting/script_vm.cpp:313-449 | started at a block's code, the machine takes exactly the steps the block's meaning charges and ends where and how it says |
| OglLanguage.DivergedCost | src/scripting/script_vm.cpp:313-320 | a program that uses up n loop rounds has cost more than n instructions |
| OglLanguage.MoreRounds | src/scripting/ogl_engine.cpp:373-460 | allowing more loop rounds never changes an answer |
| OglLanguage.CompiledCodeMeansSource | src/scripting/ogl_engine.cpp:313-478 | for every program and every budget, the compiled code ends with the same variables, logical state, actions, error and instruction count as the structured program, and exhausts the budget exactly when that has no answer within it |
| OglLanguage.TerminationPreserved | src/scripting/ogl_engine.cpp:313-478 | the compiled code finishes within some budget exactly when the structured program terminates |
| OglCompiler.StructureExact | src/scripting/ogl_engine.cpp:313-478 | a line list has a structure exactly when it is that block written out, line by line, and its plain commands lie within the limit; and then no other |
| OglCompiler.CompileOpening | src/scripting/ogl_engine.cpp:320-345 | opening a block pushes its commands with placeholder targets and one record |
| OglCompiler.CompileElse | src/scripting/ogl_engine.cpp:330-356 | `else` closes the first arm with a jump and patches the waiting condition past it |
| OglCompiler.CompileEnd | src/scripting/ogl_engine.cpp:357-466 | closing a block patches its waiting jump to the end and jumps back for loops; a mismatched end is refused with its own reason |
| OglCompiler.EmitAndPatch | src/scripting/ogl_engine.cpp:285-297 | patching succeeds on the waiting jump and sets its target to the end of the code |
| OglCompiler.CompileLine | src/scripting/ogl_engine.cpp:318-466 | one line advances the compiler as it advances the structure read so far, or fails for the same reason |
| OglCompiler.CompileCommands | src/scripting/ogl_engine.cpp:313-478 | accepts exactly the line lists that have a structure, with the same reason otherwise; emits that structure's code, whose instructions the OglLoops rows spell out; every forward jump has been patched exactly once |
| OglLoops.ShortPrograms | src/scripting/ogl_engine.cpp:313-478 | the structure of the shortest program of each kind |
| OglLoops.MisplacedLines | src/scripting/ogl_engine.cpp:330-476 | lines that close nothing, close something else or leave something open are refused, each with its reason, and so is a loop with step 0 |
| OglLoops.ConditionalCode | src/scripting/ogl_engine.cpp:320-372 | an `if` is one conditional jump past its body |
| OglLoops.AlternativeCode | src/scripting/ogl_engine.cpp:330-372 | with an `else`, the jump leads there, and the first arm ends with a jump past the second |
| OglLoops.WhileCode | src/scripting/ogl_engine.cpp:373-398 | a `while` is its test and, at the end, a jump back to it |
| OglLoops.ForCode | src/scripting/ogl_engine.cpp:400-462 | a `for` sets its variable, tests it with <= for a positive and >= for a negative step, and ends with the step and a jump back to the test |
| OglLoops.TestMeans | src/scripting/script_vm.cpp:66-83 | for integers that doubles hold exactly, that test holds exactly while the counter has not passed the last value |
| OglLoops.AtTheTest | src/scripting/ogl_engine.cpp:432-437 | so at its test the compiled loop enters its body or leaves, whatever the body does |
| OglLoops.RoundsMean | src/scripting/ogl_engine.cpp:432-437 | the counter is in range before the first so many steps and not after them |
| OglLoops.ForRuns | src/scripting/ogl_engine.cpp:400-462 | a body that leaves the counter alone runs once for every value from the first by the step that is in range, and then the script goes on |
| OglLoops.CompiledCounting | src/scripting/ogl_engine.cpp:400-462 | the code of an empty `for` counts to the first value out of range, in three instructions a round |
| OglInlining.CollectFunctions | src/scripting/ogl_engine.cpp:549-580 | the nested loops over the lines find the functions and the program, or the first of the three errors |
| OglInlining.CollectWritten | src/scripting/ogl_engine.cpp:549-580 | a script written with well-formed definitions, anywhere among its lines, is collected into exactly those functions and that program |
| OglInlining.CollectedWritten | src/scripting/ogl_engine.cpp:549-580 | whatever is collected was written so |
| OglInlining.CollectRefuses | src/scripting/ogl_engine.cpp:549-580 | a function with a bad or repeated name, one never closed and one inside another are refused, each with its reason |
| OglInlining.AtomMeans | src/scripting/ogl_engine.cpp:25-31 | which names a state, an event or a function can have |
| OglInlining.ExpandCalls | src/scripting/ogl_engine.cpp:483-514 | the recursive expansion terminates on every function table and gives the specified result |
| OglInlining.ExpandInlines | src/scripting/ogl_engine.cpp:483-514 | a successful expansion is the textual inlining of the input, with no call left in it |
| OglInlining.InlinedExpands | src/scripting/ogl_engine.cpp:483-514 | an inlining that exists within the depth limit and fits the size limit is found |
| OglInlining.DeepPathRejected | src/scripting/ogl_engine.cpp:483-491 | calls that nest deeper than the limit are rejected |
| OglInlining.RejectedHasPath | src/scripting/ogl_engine.cpp:483-491 | a rejection for depth has a path of calls exactly that deep |
| OglInlining.RecursionRejected | src/scripting/ogl_engine.cpp:483-514 | every program that reaches a function able to reach itself is rejected |
| OglScript.Assemble | src/scripting/script_vm.cpp:112-276 | the bound on the text, then one instruction per command, the first bad field reported, sizes and jump targets checked |
| OglScript.AssembleExact | src/scripting/script_vm.cpp:241-276 | within the bound on text the commands are returned unchanged exactly when the fields are accepted, they fit and all targets are in range |
| OglScript.TextMeasured | src/scripting/ogl_engine.cpp:591-601 | the size that is checked is the length of the text the engine puts together |
| OglScript.CompilerOutputAssembles | src/scripting/script_vm.cpp:262-274 | compiler output is never rejected for a jump target, and command i becomes instruction i |
| OglScript.AcceptedExact | src/scripting/ogl_engine.cpp:591-607 | a handler is accepted exactly when its lines are some block written out whose code fits, in 1024 commands and 64 KiB of text, and has acceptable fields |
| OglScript.CompileHandler | src/scripting/ogl_engine.cpp:591-607 | compiling and assembling one handler succeeds exactly when it is accepted, with the code of its structure |
| OglScript.CutHandlers | src/scripting/ogl_engine.cpp:587-659 | cutting compiles exactly the segmented handlers, in order, with their states and events |
| OglScript.SegmentWritten | src/scripting/ogl_engine.cpp:587-659 | a script written as pragmas, states and handlers is cut into those handlers, each under its state |
| OglScript.SegmentRefuses | src/scripting/ogl_engine.cpp:609-659 | lines outside a handler, ends without one, bad names and the 4097th line of a handler are refused |
| OglScript.CompileOglScript | src/scripting/ogl_engine.cpp:536-662 | a script compiles exactly when its size and line count are within bounds, its functions are well formed, its expansion is segmented into at least one handler and all are accepted |
| OglScript.DeliveryMeansSource | src/scripting/script_vm.cpp:279-449 | running the handlers of some sources runs the structured form of the first one for that event and state, with the same result and instruction count |
| OglScript.SegmentStates | src/scripting/ogl_engine.cpp:609-659 | no handler of a script is for every state |
| OglScript.CompiledScriptMeansSource | src/scripting/ogl_engine.cpp:536-662 | from source lines to behaviour: delivering an event to any script that compiles runs the structured form of its first handler for the event and state, or gives the budget error when that has no answer within the budget |
| VmCodec.UnhexHex | src/scripting/script_vm.cpp:85-108 | hexadecimal text decodes to the bytes it was made from |
| VmCodec.SortAscending | src/scripting/script_vm.cpp:452-459 | sorting puts the variables in strictly ascending key order and keeps them all |
| VmCodec.EncodingOrderFree | src/scripting/script_vm.cpp:452-459 | the encoding does not depend on the order in which the map is walked |
| VmCodec.SerializeVmState | src/scripting/script_vm.cpp:452-459 | the text written is the encoding of the state |
| VmCodec.DeserializeVmState | src/scripting/script_vm.cpp:461-483 | the loop over fields computes the decoding function, with its two errors |
| VmCodec.RoundTrip | src/scripting/script_vm.cpp:452-483 | decoding an encoded state gives that state back exactly when its names are atoms, and is refused otherwise; values are arbitrary bytes |
| StateTexts.HexMeans | src/scripting/script_vm.cpp:85-91 | every byte is written with two lower-case digits, the higher first |
| StateTexts.StateAsWritten | src/scripting/script_vm.cpp:452-459 | the text of a state with two variables, in whatever order they are walked |
| StateTexts.AtomMeans | src/scripting/script_vm.cpp:26-32 | which characters a name can have that is stored and read back |
| WorldResults.AbsorbLines | src/scripting/script_runtime.cpp:309-326 | the loop over the lines gives the extended variables, or the first of its two errors |
| WorldResults.AbsorbNames | src/scripting/script_runtime.cpp:309-326 | an accepted result writes a variable for every field, and no other is new |
| StateTexts.TakenExactly | src/scripting/script_runtime.cpp:309-325 | an answer is taken exactly when it has at most 32 lines, and its fields keys on one line and values of at most 2048 bytes |
| StateTexts.TakenValues | src/scripting/script_runtime.cpp:309-326 | the last line with a key gives its variable the value; a variable without a line keeps its own |
| StateTexts.AnswerMeans | src/scripting/script_runtime.cpp:326-332 | the variable that says the answer is there is set, and 64 variables are the most |
| StateTexts.StoredMeans | src/scripting/script_runtime.cpp:333-342 | a text of at most 64 KiB is stored |
| WorldResults.DecodedNamed | src/scripting/script_vm.cpp:461-483 | whatever state can be decoded has atoms for names |
| ScriptRuntime.ScriptRuntime.ApplyWorldResult | src/scripting/script_runtime.cpp:284-342 | prefix, script, stored state, lines, variables and size are checked in that order; then exactly that script's stored state changes, to the extended one |
| ScriptRuntime.WorldResultLoads | src/scripting/script_runtime.cpp:284-342 | after an accepted result the next event starts in the extended state exactly when the logical state and every name written are atoms, and fails to load otherwise |
| ScriptRuntime.OwnResultsLoad | apps/world/main.cpp:529-652 | results whose keys are atoms, as a region of this repository sends them, always load |
| ScriptRuntime.SpacedFieldBreaks | src/scripting/script_runtime.cpp:317-326 | the field `a b=1` is accepted, its state is small enough to be stored, and cannot be loaded again |
| ScriptLifecycle.SettlesExactly | src/scripting/script_runtime.cpp:237-261 | an event settles in a state exactly when at most 8 transitions lead there and the last state_entry left the state alone |
| ScriptLifecycle.ChainTotals | src/scripting/script_runtime.cpp:205-236 | the totals are those of the event and of all lifecycle runs; the final state is the one the last state_entry kept |
| ScriptLifecycle.EventBounds | src/scripting/script_runtime.cpp:188-261 | a successful event keeps to the instruction and action budgets summed over the event and all its lifecycle runs |
| ScriptLifecycle.EventKeepsNames | src/scripting/script_runtime.cpp:188-263 | events of programs whose written names are atoms keep the state storable |
| ScriptRuntime.ActionsTouch | src/scripting/script_runtime.cpp:263-279 | actions change only timer and listen settings of the record |
| ScriptRuntime.LastActionWins | src/scripting/script_runtime.cpp:266-279 | the last timer action and the last listen action decide, with the channel cut to 32 bits |
| ScriptRuntime.NextEventResumes | src/scripting/script_runtime.cpp:179-188 | the next event starts in the state this one ended in exactly when its names are atoms |
| ScriptRuntime.RunTransitions | src/scripting/script_runtime.cpp:237-261 | the transition loop computes the settled result or its error |
| ScriptRuntime.Execute | src/scripting/script_runtime.cpp:166-261 | the checks before the run, in order; the partial result of a failed first run; the settled outcome |
| ScriptRuntime.ScriptRuntime.ExecuteEvent | src/scripting/script_runtime.cpp:152-282 | refines the outcome of an event, whose laws the ScriptDeliveries rows state; a failed event leaves every script untouched and returns what its run produced; a successful one changes that script only |
| ScriptDeliveries.RefusedUnrun | src/scripting/script_runtime.cpp:159-187 | a disabled script, a missing program, one that does not compile and a state that cannot be read are refused in that order |
| ScriptDeliveries.FaultyShown | src/scripting/script_runtime.cpp:190-195 | an event whose own run fails shows what that run came to |
| ScriptDeliveries.DeliveredExactly | src/scripting/script_runtime.cpp:197-261 | an event ends well exactly when at most eight changes of state lead from where its run ended to a state not left again: each a state_exit run in the old state with the variables as they are and a state_entry run in the new one with those state_exit left, without payload, within what is left of the budgets |
| ScriptDeliveries.RefusedExactly | src/scripting/script_runtime.cpp:197-245 | otherwise it is refused for a ninth change, or for why a lifecycle run is not made or fails |
| ScriptDeliveries.QuietDelivery | src/scripting/script_runtime.cpp:237-261 | when no handler answers the change of state, the event comes to exactly what its own run came to |
| ScriptDeliveries.StayingDelivery | src/scripting/script_runtime.cpp:237-239 | so does an event that does not change the logical state |
| ScriptDeliveries.DeliveredRecord | src/scripting/script_runtime.cpp:263-279 | the record then has the final state, one more event counted, and no other setting changed without an action for it |
| ScriptRuntime.BoundInjective | src/scripting/script_runtime.cpp:368-372 | a binding text names one region and one entity |
| ScriptRuntime.BoundAsWritten | src/scripting/script_runtime.cpp:366-372 | a binding text is the region, a slash and the entity's number |
| ScriptRuntime.BindingsExact | src/scripting/script_runtime.cpp:361-382 | an entity map is accepted exactly when it is one-to-one and names no zero entity |
| ScriptRuntime.RebindAccepts | src/scripting/script_runtime.cpp:345-412 | rebinding succeeds exactly on valid regions, owner and one-to-one maps; the ambiguity error never occurs |
| ScriptRuntime.RebindMoves | src/scripting/script_runtime.cpp:409-419 | exactly the owner's scripts on mapped source entities move, each to its mapped destination; nothing else changes |
| ScriptRuntime.RebindIdempotent | src/scripting/script_runtime.cpp:420-424 | a retry succeeds and changes nothing |
| ScriptRuntime.ScriptRuntime.RebindObjects | src/scripting/script_runtime.cpp:345-424 | all or nothing, with the reason when nothing |
| ObjectCrossingStore.DestinationIdInUpperHalf | src/core/object_crossing_store.cpp:93-108 | the destination id made from a crossing id is a 64-bit id with its top bit set |
| ObjectCrossingStore.ObjectCrossingStore.Prepare | src/core/object_crossing_store.cpp:110-150 | a record is added exactly for valid requests, in state prepared |
| ObjectCrossingStore.ObjectCrossingStore.CommandForRegion | src/core/object_crossing_store.cpp:152-193 | the command of an oldest record that has something due for the region, or none when none has |
| ObjectCrossingStore.ObjectCrossingStore.RecordExport | src/core/object_crossing_store.cpp:195-230 | refines the outcome function of an export: one record changes, or none |
| ObjectCrossingStore.ObjectCrossingStore.RecordImport | src/core/object_crossing_store.cpp:232-273 | refines the outcome function of an import: one record changes, or none |
| ObjectCrossingStore.ObjectCrossingStore.RecordRemove | src/core/object_crossing_store.cpp:275-304 | refines the outcome function of a removal: one record changes, or none |
| ObjectCrossingStore.ObjectCrossingStore.RecordCleanup | src/core/object_crossing_store.cpp:306-338 | refines the outcome function of a cleanup: one record changes, or none |
| ObjectCrossingStore.ObjectCrossingStore.RecordRestore | src/core/object_crossing_store.cpp:340-369 | refines the outcome function of a restore: one record changes, or none |
| ObjectCrossingStore.ObjectCrossingStore.RejectCommand | src/core/object_crossing_store.cpp:371-450 | counters saturate at the limit; only then the record turns back, except that cleanup and restore stay pending |
| ObjectCrossingStore.ObjectCrossingStore.Rollback | src/core/object_crossing_store.cpp:452-497 | a client rollback by the owner, for each state |
| ObjectCrossingStore.ObjectCrossingStore.Maintenance | src/core/object_crossing_store.cpp:520-557 | refines the table after maintenance, whose laws the CrossingRecords and CrossingTimes rows state |
| CrossingRecords.ValidExactly | src/core/object_crossing_store.cpp:110-127 | exactly which requests are refused |
| CrossingRecords.DestinationIdMeans | src/core/object_crossing_store.cpp:93-108 | the destination id is the number the crossing id begins with, its top bit set |
| CrossingRecords.DueMeans | src/core/object_crossing_store.cpp:152-193 | which region is asked for what in which state |
| CrossingRecords.OfferedOldest | src/core/object_crossing_store.cpp:152-193 | a region is offered a crossing's command exactly when it is due there and no older one is |
| CrossingRecords.WholeCrossing | src/core/object_crossing_store.cpp:110-304 | the record after opening, export, import and removal, field by field |
| CrossingRecords.TakenBack | src/core/object_crossing_store.cpp:306-369 | the record after cleanup and restore |
| CrossingRecords.WrongRegion | src/core/object_crossing_store.cpp:195-369 | results from a region that has nothing to say change nothing |
| CrossingRecords.WrongTime | src/core/object_crossing_store.cpp:195-369 | nor do results that come too early or too late |
| CrossingRecords.RejectionCounts | src/core/object_crossing_store.cpp:371-428 | a rejection of a due command is counted up to the limit and noted; of any other, noted only |
| CrossingRecords.RejectionTurnsBack | src/core/object_crossing_store.cpp:426-450 | the last rejection within the limit turns the crossing back, or leaves it pending on its way back; before that its state stays |
| CrossingRecords.GivenUpExactly | src/core/object_crossing_store.cpp:371-450 | a crossing is given up with exactly so many rejections as the limit says |
| CrossingRecords.RejectionNotes | src/core/object_crossing_store.cpp:371-377 | an empty error gets a name, a long one is cut |
| CrossingRecords.RollbackMeans | src/core/object_crossing_store.cpp:452-497 | the owner and no one else turns a crossing back, for each state |
| CrossingRecords.MaintenanceMeans | src/core/object_crossing_store.cpp:520-557 | before its time is up an unfinished crossing is left alone; then a prepared one is rolled back and one that carries its linkset sent back with it; a finished one goes exactly when it is a day old |
| CrossingRecords.MaintenanceSettles | src/core/object_crossing_store.cpp:520-557 | a second pass at the same time changes nothing |
| CrossingProtocol.OpenKeeps | src/core/object_crossing_store.cpp:110-150 | opening a crossing on an untouched linkset keeps the protocol invariant |
| CrossingProtocol.IssueKeeps | apps/core/main.cpp:878-925 | sending a command keeps it |
| CrossingProtocol.ActKeeps | apps/world/main.cpp:374-488 | carrying a command out in the scene keeps it, stale commands included |
| CrossingProtocol.CommitKeeps | apps/core/main.cpp:958-1018 | recording a successful result keeps it, and no linkset enters or leaves the world |
| CrossingProtocol.AbandonKeeps | src/core/object_crossing_store.cpp:430-441 | giving up a rejected import keeps it: the linkset belongs at its source again |
| CrossingProtocol.SweepKeeps | src/core/object_crossing_store.cpp:452-557 | rollback, expiry, other rejections, purging and lost commands or results keep it |
| CrossingProtocol.StepKeeps | docs/OBJECT-CROSSING-v2.md:5-17 | every step of the protocol keeps the invariant |
| CrossingProtocol.NeverLost | docs/OBJECT-CROSSING-v1.md:9-14 | in every run each linkset is in some scene, or its snapshot is in an imported, cleanup_pending or restore_pending record |
| CrossingProtocol.NeverDuplicated | docs/OBJECT-CROSSING-v1.md:9-14 | in every run two copies are only ever the two ends of one unfinished crossing |
| CrossingProtocol.SettledOnce | docs/OBJECT-CROSSING-v1.md:9-14 | a linkset no crossing carries is at exactly one place |
| CrossingProtocol.FinishedMeansPlaced | src/core/object_crossing_store.cpp:275-497 | a step that completes a crossing leaves its linkset only at the destination; one that rolls it back, only at the source, or never moved it |
| CrossingRegion.CarriedApplies | src/world/region_runtime.cpp:1305-1537 | what a region does with a command, for the linkset its address means, meets the contract the protocol relies on |
| CrossingRegion.CarriedExactly | src/world/region_runtime.cpp:1305-1537 | exactly when each command is carried out, and what it leaves |
| CrossingRegion.OnlyOwn | src/world/region_runtime.cpp:1305-1537 | no crossing changes a linkset of another owner, or brings one in |
| CrossingRegion.PutInWorld | apps/world/main.cpp:1098-1160 | what one region does to its own table it does to the world of all regions |
| CrossingRegion.RegionScene.ApplyCommand | apps/world/main.cpp:374-488 | each command's checks and errors, in order, and its effect on the region's linksets, addressed by any member |
| CoreCrossings.ParseEntityMap | apps/core/main.cpp:113-151 | the parsing loop computes the parsed map or nothing |
| CoreCrossings.PairMeans | apps/core/main.cpp:113-151 | a pair is two numbers around the first colon |
| CoreCrossings.EntityMapRefuses | apps/core/main.cpp:113-151 | no map, one over 16 KiB, and one that begins with a bad pair are refused |
| CoreCrossings.ParsedOneToOne | apps/core/main.cpp:113-151 | a parsed map is one-to-one with one pair for each token and at most 64 |
| CoreCrossings.EntityMapRebinds | apps/core/main.cpp:996-1012 | a map Core accepts is one that rebinding accepts |
| CoreCrossings.EntityMapRoundTrip | apps/world/main.cpp:356-364 | parsing what a region writes gives its map back exactly when it is one-to-one with at most 64 pairs |
| CoreCrossings.MapAsWritten | apps/world/main.cpp:356-364 | the text a region writes for a map |
| CoreCrossings.CoreNode.ObjectCrossingResult | apps/core/main.cpp:930-1032 | a result counts only from the region's owner and for the command Core would now send; then records and scripts change as recorded |
| CoreCrossings.RecordedAnswers | apps/core/main.cpp:956-1024 | a result changes at most its own record, by leaving it, advancing it as commanded, or turning it back when rejected |
| CoreCrossings.ScriptsMoveOnCompletion | apps/core/main.cpp:990-1018 | scripts are rebound exactly when the record becomes completed, as its entity map says |
| CoreCrossings.RecordedKeepsMaps | apps/core/main.cpp:970-988 | recording a result keeps it true that every imported record holds an entity map Core can read |
| CoreCrossings.RemovalCompletes | apps/core/main.cpp:990-1018 | a confirmed removal completes the crossing exactly when both region names pass the script table's check |
| CoreCrossings.TabbedName | src/core/object_crossing_store.cpp:110-127 | the store opens crossings from a region name the script table refuses |
| CrossingSystem.OpensRefines | src/core/object_crossing_store.cpp:110-150 | opening a crossing on a linkset no unfinished crossing touches, by whichever member, is a step of the protocol |
| CrossingSystem.ActsKeeps | apps/world/main.cpp:374-488 | a region carrying out a command on its linksets is a step of the protocol, and keeps what is known of records and copies |
| CrossingSystem.MaintainsRefines | src/core/object_crossing_store.cpp:520-557 | a maintenance pass over all records at once is a step of the protocol |
| CrossingSystem.GoesRefines | apps/core/main.cpp:878-1032 | every step of Core and the regions with their real tables is a step of the protocol, from every state of a run |
| CrossingSystem.CrossingSafety | docs/OBJECT-CROSSING-v2.md:5-17 | over every guarded run of the system a linkset is never lost, and is in exactly one place whenever no crossing carries it |
| CrossingSystem.CrossingsEndInOnePlace | src/core/object_crossing_store.cpp:275-497 | over every guarded run, a crossing that completes leaves its linkset at the destination alone, and one that is rolled back at the source alone, or had never moved it |
| CrossingSystem.MapsAlwaysReadable | apps/core/main.cpp:970-988 | over every run, guarded or not, an imported record holds an entity map Core can read |
| CrossingTimes.SparedUntilExpiry | src/core/object_crossing_store.cpp:524-535 | over every run, maintenance before a crossing's time is up leaves it as it is, unless it is finished |
| CrossingTimes.TurnedBackAtExpiry | src/core/object_crossing_store.cpp:524-535 | the first maintenance after that turns it back, with what it carries |
| CrossingTimes.ExpiredNeverCompletes | src/core/object_crossing_store.cpp:524-535 | after that it completes in no run |
| CrossingTimes.ForwardUntilExpiry | src/core/object_crossing_store.cpp:195-557 | as long as its commands succeed, its owner lets it go on and maintenance comes before its time is up, it only goes forward, whatever happens to others |
| CrossingExchange.GoesNext | src/core/object_crossing_store.cpp:195-557 | every step of the system leaves a record as it is, forgets it when finished, or takes it one step on or back, each under its own condition |
| CrossingQueue.ClearAhead | src/core/object_crossing_store.cpp:152-193 | everything older in a region's queue can be turned back and restored, with nothing else disturbed, if its regions take it back |
| CrossingQueue.BringForward | src/core/object_crossing_store.cpp:152-193 | hence any crossing can be brought to the head of its region's queue |
| CrossingRecovery.CanRollBack | src/core/object_crossing_store.cpp:452-497 | from every state of a run each unfinished crossing can be rolled back by real steps, oldest command first; what it had taken up is then at the source, not at the destination |
| CrossingRecovery.StuckForever | src/world/region_runtime.cpp:1399-1408 | a crossing whose source region refuses the restore stays as it is in every run, and its region gets no younger command |
| CrossingRecovery.RestoringEnds | src/world/region_runtime.cpp:1305-1537 | a crossing that waits to be restored can end exactly when its source region accepts the restore |
| CrossingRecovery.CompletesExactly | docs/OBJECT-CROSSING-v2.md:5-17 | from every state of a run a crossing can complete exactly when it was not turned back and passes the size, owner, name, import and map checks still before it; its linkset is then at the destination, not at the source |
| CrossingRecovery.TabNeverCompletes | apps/core/main.cpp:990-1018 | a crossing from a region with a tab in its name completes in no run |
| CrossingOverlap.LaterFirst | src/core/object_crossing_store.cpp:152-193 | whatever unfinished state an earlier crossing is in, one opened on its linkset and offered first can complete and leave a second copy when the earlier one is rolled back |
| CrossingOverlap.EarlierFirst | src/core/object_crossing_store.cpp:152-193 | how two copies can be left although the earlier crossing is always offered first |
| CrossingOverlap.OverlapDuplicates | src/core/admin_http_server.inc:1455-1547 | without the guard, from every state of a run: opening a crossing on a linkset another one touches can leave two copies that no crossing will take away |
| CrossingOverlap.MembersDuplicate | src/world/region_runtime.cpp:1128-1144 | two crossings named by different members of a linkset have no address in common and can duplicate it all the same |
| CrossingWithout.GoesWithout | apps/core/main.cpp:878-1032 | a crossing that acts at one key only can be left out: every step of the whole system is a step of the rest, or none |
| CrossingPrecedence.Rejoin | src/core/object_crossing_store.cpp:152-193 | once the older crossing is done, a younger one that has taken nothing up is like any other |
| CrossingPrecedence.TakenWhen | src/core/object_crossing_store.cpp:152-193 | a younger crossing that is kept waiting takes the linkset up only while the older one's cleanup is due in the region both go to |
| CrossingPrecedence.TakenFollows | src/core/object_crossing_store.cpp:152-193 | from then on it crosses in the older one's place, which gives back what is already there |
| CrossingPrecedence.SparedNext | src/core/object_crossing_store.cpp:152-193 | every step keeps it so |
| CrossingGuard.GuardHolds | src/core/object_crossing_store.cpp:110-150 | with the guard no run leaves two copies |
| CrossingGuard.GuardExact | src/core/object_crossing_store.cpp:110-193 | while the clock stands still two copies can be left exactly when an unfinished crossing touches the linkset, in whatever state and at whichever end |
| CrossingGuard.LaterHarmless | src/core/object_crossing_store.cpp:152-193 | an older crossing on its way back, or to the same region, keeps a younger one from duplicating the linkset, over every run |
| CrossingGuard.DuplicatesExactly | src/core/object_crossing_store.cpp:110-193 | at any clock, exactly which unfinished crossings on a linkset let one that is opened on it leave two copies |
| Inventory.OneTreeEach | src/core/inventory_store.cpp:93-137 | every folder lies under its owner's one root, which alone has no parent, and no folder is above itself |
| Inventory.MoveFolder | src/core/inventory_store.cpp:263-284 | a move below a folder that is not under it makes no cycle |
| Inventory.SiblingsApart | src/core/inventory_store.cpp:130-137 | two children of one folder have nothing below them in common |
| Inventory.DeleteKeepsRooted | src/core/inventory_store.cpp:286-315 | removing exactly what is below a folder leaves no folder without its parent |
| Inventory.InventoryStore.EnsureRoot | src/core/inventory_store.cpp:93-110 | one root per user, created once |
| Inventory.InventoryStore.FolderIsDescendant | src/core/inventory_store.cpp:118-128 | the bounded walk decides ancestry exactly |
| Inventory.InventoryStore.CollectDescendants | src/core/inventory_store.cpp:130-137 | the recursion terminates and lists each strict descendant exactly once, in any order of walking |
| Inventory.InventoryStore.CreateFolder | src/core/inventory_store.cpp:139-183 | the new folder or the refusal, and the forest is kept |
| Inventory.InventoryStore.CreateItem | src/core/inventory_store.cpp:185-231 | the new item or the refusal, and the forest is kept |
| Inventory.CreatesFolder | src/core/inventory_store.cpp:139-183 | a folder is created exactly for a proper name, below the folder named or, when none is, the root, and under a legacy id none of the user's folders has |
| Inventory.CreatesItem | src/core/inventory_store.cpp:185-231 | so is an item, which needs an asset |
| Inventory.LegacyIdMeans | src/core/inventory_store.cpp:73-85 | a legacy id is empty or hexadecimal digits in groups of 8, 4, 4, 4 and 12 |
| Inventory.InventoryStore.UpdateFolder | src/core/inventory_store.cpp:233-261 | renamed and moved exactly when the parent is the owner's and not under the folder; the forest is kept |
| Inventory.InventoryStore.MoveFolderTo | src/core/inventory_store.cpp:263-284 | moved under the same condition; the forest is kept |
| Inventory.MovesFolder | src/core/inventory_store.cpp:263-284 | exactly which moves of a folder are made |
| Inventory.InventoryStore.DeleteFolder | src/core/inventory_store.cpp:286-315 | exactly the subtree goes, the folder itself on request, and every item in any of it; the forest is kept |
| Inventory.InventoryStore.UpdateItem | src/core/inventory_store.cpp:317-343 | the item's new parent, asset and name, or the refusal |
| Inventory.InventoryStore.MoveItem | src/core/inventory_store.cpp:345-363 | the item's new parent, or the refusal |
| Inventory.MovesItem | src/core/inventory_store.cpp:345-363 | exactly which moves of an item are made |
| Inventory.InventoryStore.DeleteItem | src/core/inventory_store.cpp:365-378 | exactly that item goes |
| Ledger.TransferKeeps | src/core/economy_ledger.cpp:201-249 | a transfer, also a failed one, keeps balances in range and explained by the entries, the supply conserved and caller references distinct |
| Ledger.MintKeeps | src/core/economy_ledger.cpp:251-286 | so does minting |
| Ledger.BurnKeeps | src/core/economy_ledger.cpp:288-323 | so does burning |
| Ledger.ReserveKeeps | src/core/economy_ledger.cpp:325-380 | so does reserving an escrow |
| Ledger.SettleKeeps | src/core/economy_ledger.cpp:382-454 | so does committing or releasing one |
| Ledger.RunSound | src/core/economy_ledger.cpp:201-454 | after any calls every balance is the replay of the entries within 0 and the 64-bit maximum, and balances plus reserved escrows equal minted minus burned |
| Ledger.EscrowSettles | src/core/economy_ledger.cpp:382-454 | while minted minus burned fits 64 bits a reserved escrow can be committed and released |
| LedgerLaws.TransferMeans | src/core/economy_ledger.cpp:201-249 | the sender's balance falls and the receiver's rises by the amount, and no other changes; it succeeds exactly on valid fields, a new reference, enough funds and no overflow, and a refusal moves nothing |
| LedgerLaws.MintMeans | src/core/economy_ledger.cpp:251-286 | one balance rises, exactly when the fields are valid, the reference is new and nothing overflows |
| LedgerLaws.BurnMeans | src/core/economy_ledger.cpp:288-323 | one balance falls, exactly when it holds enough |
| LedgerLaws.ReserveMeans | src/core/economy_ledger.cpp:325-380 | the buyer pays into an escrow, and the seller is paid nothing yet |
| LedgerLaws.CommitMeans | src/core/economy_ledger.cpp:382-417 | a commitment pays the seller what the escrow holds, once |
| LedgerLaws.ReleaseMeans | src/core/economy_ledger.cpp:419-454 | a release pays it back to the buyer, once |
| LedgerLaws.ThereAndBack | src/core/economy_ledger.cpp:201-249 | a transfer there and back succeeds and leaves every balance as it was |
| LedgerLaws.EscrowPays | src/core/economy_ledger.cpp:325-454 | over a committed escrow the seller gains what the buyer paid; over a released one no balance has changed |
| Ledger.EconomyLedger.CheckReference | src/core/economy_ledger.cpp:165-179 | whether a reference is used by an entry or an escrow |
| Ledger.EconomyLedger.Transfer | src/core/economy_ledger.cpp:201-249 | refines the book function, whose law on balances is LedgerLaws.TransferMeans |
| Ledger.EconomyLedger.Mint | src/core/economy_ledger.cpp:251-286 | refines the book function, whose law on balances is LedgerLaws.MintMeans |
| Ledger.EconomyLedger.Burn | src/core/economy_ledger.cpp:288-323 | refines the book function, whose law on balances is LedgerLaws.BurnMeans |
| Ledger.EconomyLedger.ReserveEscrow | src/core/economy_ledger.cpp:325-380 | refines the book function, whose law on balances is LedgerLaws.ReserveMeans |
| Ledger.EconomyLedger.CommitEscrow | src/core/economy_ledger.cpp:382-417 | refines the book function, whose law on balances is LedgerLaws.CommitMeans |
| Ledger.EconomyLedger.ReleaseEscrow | src/core/economy_ledger.cpp:419-454 | refines the book function, whose law on balances is LedgerLaws.ReleaseMeans |
| Ledger.EconomyLedger.TotalSupplyMinor | src/core/economy_ledger.cpp:505-524 | the smaller of the true supply and the 64-bit maximum, in any order of walking |
| Physics.MomentumConserved | src/physics/physics_world.cpp:1298-1375 | the whole response of two moving bodies conserves total momentum |
| Physics.EnergyNeverGrows | src/physics/physics_world.cpp:1298-1375 | the whole response never increases kinetic energy, also against a fixed body at rest |
| Physics.PartingSpeed | src/physics/physics_world.cpp:1298-1330 | approaching bodies part at the restitution times their approach speed, others keep their normal speed |
| Physics.FrictionSlows | src/physics/physics_world.cpp:1331-1375 | sliding slows by the friction limit, at most to a stop, and is never reversed |
| Physics.ImpulseMeans | src/physics/physics_world.cpp:1298-1330 | the normal impulse times the inverse masses is the approach speed times one plus the restitution |
| Physics.ResponseSlows | src/physics/physics_world.cpp:1298-1375 | sliding slows by the friction coefficient times the change of normal speed, at most to a stop; slow sliding is left alone |
| Physics.ContactMeans | src/physics/physics_world.cpp:1298-1340 | the smaller restitution, the geometric mean of the frictions, and the inverse masses |
| Physics.PushEnergy | src/physics/physics_world.cpp:60-68 | the energy an impulse changes depends only on the relative velocity along it |
| Physics.CorrectionSeparates | src/physics/physics_world.cpp:1280-1296 | the position correction separates by four fifths of the excess and keeps the centre of mass |
| Physics.Body.constructor | src/physics/physics_world.cpp:528-537 | mass, restitution and friction are what was given, or the bound of their range that was passed |
| Physics.ResolvePair | src/physics/physics_world.cpp:1266-1384 | the pair block changes positions and velocities as the correction and the response say |
| FederationStores.TrustStore.Trust | src/federation/trust_store.cpp:56-80 | a trusted peer with another key is refused |
| FederationStores.TrustStore.Revoke | src/federation/trust_store.cpp:82-91 | the peer is no longer trusted |
| FederationStores.SessionStore.Create | src/federation/session_store.cpp:58-95 | an active session of the same visit is logged out, then the new one is added |
| FederationStores.SessionStore.LogoutIssuer | src/federation/session_store.cpp:124-139 | exactly the issuer's active sessions end |
| FederationStores.ServiceCapability | src/federation/service_grant_store.cpp:77-94 | the scan finds a capability exactly when it is one of the comma-separated ones |
| FederationStores.GrantStore.Issue | src/federation/service_grant_store.cpp:102-135 | a grant with clamped lifetime and hashed token |
| FederationStores.GrantStore.Authorize | src/federation/service_grant_store.cpp:137-164 | true exactly for an unrevoked, unexpired grant for that audience, user, capability and token |
| FederationStores.GrantStore.RevokeAudience | src/federation/service_grant_store.cpp:177-192 | exactly the audience's grants are revoked |
| FederationStores.GrantStore.PurgeExpired | src/federation/service_grant_store.cpp:194-214 | exactly the expired grants and those revoked a day ago go |
| FederationStores.ReplayCache.Consume | src/federation/replay_cache.cpp:5-11 | a nonce is accepted once while it is remembered |
| FederationStores.ReplayCache.PurgeExpired | src/federation/replay_cache.cpp:13-19 | exactly the expired nonces are forgotten |
| Federation.IssuedIsFresh | src/federation/travel_token.cpp:139-210 | an issued token passes the other grid's freshness checks exactly from 30 seconds before issue until it expires |
| Federation.AcceptedKeeps | src/federation/runtime.cpp:92-126 | accepting travel keeps the four-store invariant and one active session per visit |
| Federation.IssuedKeeps | src/federation/runtime.cpp:34-90 | issuing travel keeps it, also when signing fails |
| Federation.PeerRevokedKeeps | src/federation/runtime.cpp:139-147 | revoking a peer keeps it |
| Federation.OperationKeeps | src/federation/runtime.cpp:34-195 | every operation keeps the invariant, remembers used nonces and leaves grants as promised |
| Federation.RunGood | src/federation/runtime.cpp:34-195 | in every reachable state active sessions' issuers and live grants' audiences are trusted |
| Federation.AcceptedOnce | src/federation/runtime.cpp:92-126 | on a clock that does not run backwards no travel token is accepted twice |
| Federation.KeyPinned | src/federation/trust_store.cpp:66-75 | a trusted peer keeps its key in every operation but its own revocation |
| Federation.AuthorizedMeans | src/federation/runtime.cpp:162-175 | a remote call is let through exactly for a live grant this grid issued to that audience for that user, capability and token |
| Federation.FederationRuntime.AcceptTravel | src/federation/runtime.cpp:92-126 | the checks in order, the consumed nonce and the created session |
| Federation.FederationRuntime.IssueTravel | src/federation/runtime.cpp:34-90 | the issued grant, revoked again when the token cannot be made |
| Federation.FederationRuntime.RevokePeer | src/federation/runtime.cpp:139-147 | revocation over trust, grants and sessions |
| Federation.FederationRuntime.AuthorizeRemoteService | src/federation/runtime.cpp:162-175 | trust in the audience and the grant's authorization |
| Federation.FederationRuntime.Maintenance | src/federation/runtime.cpp:187-195 | nonces, sessions and grants are purged |
| FederationLaws.AcceptedExactly | src/federation/runtime.cpp:92-126 | exactly which tokens are accepted: a trusted issuer, its key, this grid as audience, the times, an unused nonce and a visit |
| FederationLaws.OtherAudience | src/federation/travel_token.cpp:199 | a token for another grid is refused and changes nothing |
| FederationLaws.OneDestination | src/federation/travel_token.cpp:199 | a token one grid accepts is refused at every grid of another name |
| FederationLaws.AcceptanceMeans | src/federation/runtime.cpp:92-126 | an acceptance uses the nonce up, ends an earlier session of the visit, opens one, and changes nothing else |
| FederationLaws.RefusalMeans | src/federation/runtime.cpp:92-126 | a refusal changes nothing, but that one for its visit alone has used the nonce up |
| FederationLaws.TravelExactly | src/federation/travel_token.cpp:139-210 | claims stamped at home are accepted at the grid they name exactly in their time |
| FederationLaws.IssueMeans | src/federation/runtime.cpp:34-90 | the grant that is recorded, for at least 30 and at most 900 seconds, or revoked when no token can be made |
| FederationLaws.PeerRevocationMeans | src/federation/runtime.cpp:139-147 | exactly the grants for the peer are revoked and the sessions from it ended |
| FederationLaws.EndingMeans | src/federation/session_store.cpp:113-121 | one session ends, or one grant is revoked, once, and nothing else is touched |
| FederationLaws.GrantableMeans | src/federation/service_grant_store.cpp:23-56 | which audiences, users and lists of capabilities a grant can name |
| FederationLaws.TrustExactly | src/federation/trust_store.cpp:56-80 | exactly which peers are trusted: an https address, a key of 64 digits, no change of key |
| FederationLaws.SweepMeans | src/federation/runtime.cpp:187-195 | exactly which nonces, sessions and grants lapse |
| FederationLaws.Listed | src/federation/service_grant_store.cpp:77-94 | the capabilities of a list are the names between its commas |
| ActionQueue.ScriptWorldActionQueue.Enqueue | src/scripting/world_action_queue.cpp:120-143 | a valid action is appended while there is room |
| ActionQueue.ScriptWorldActionQueue.Lease | src/scripting/world_action_queue.cpp:145-177 | dead actions go, then the first eligible action of the region is handed out |
| ActionQueue.ScriptWorldActionQueue.Ack | src/scripting/world_action_queue.cpp:179-187 | the named action goes |
| ActionQueue.ScriptWorldActionQueue.Nack | src/scripting/world_action_queue.cpp:189-206 | the named action waits until its retry time, or goes when its attempts are used up |
| ActionQueue.ScriptWorldActionQueue.PurgeExpired | src/scripting/world_action_queue.cpp:221-230 | exactly the expired actions go |
| ActionQueue.RunGood | src/scripting/world_action_queue.cpp:120-230 | in every run the queue keeps enqueue order and its bound, and no action is handed out more than the maximum number of times |
| ActionQueue.NotWhileLeased | src/scripting/world_action_queue.cpp:163-174 | for the lease time after a handing out an action is not handed out again, unless it was nacked |
| ActionQueue.LeaseLasts | src/scripting/world_action_queue.cpp:163-174 | two handings out of one action, with any run without a nack of it between, are at least the lease time apart |
| ActionQueue.OldestFirst | src/scripting/world_action_queue.cpp:163-174 | the action handed out was enqueued no later than any other of the region that is unexpired, unleased and not exhausted, and there is one whenever one is |
| ActionQueue.LeasedFromQueue | src/scripting/world_action_queue.cpp:163-174 | only such an action is handed out, leased from now for the lease time and with one more attempt |
| ActionQueue.LeaveByTime | src/scripting/world_action_queue.cpp:150-161 | leasing drops only expired or exhausted actions, purging only expired ones |
| ActionQueue.NoneLeft | src/scripting/world_action_queue.cpp:150-161 | and of those it drops none is left |
| ActionQueue.LeaveByName | src/scripting/world_action_queue.cpp:179-206 | an acknowledgement removes only the action it names, a nack only when its attempts are used up |
| ActionQueue.NackMeans | src/scripting/world_action_queue.cpp:179-206 | a nack notes the error and waits until the time given, or drops the action with its last attempt; an acknowledgement drops it |
| ActionQueue.QueuedAs | src/scripting/world_action_queue.cpp:120-143 | exactly which actions are queued, and as what |
| MeshCache.SizeIsSum | src/meshing/genesis_mesher.cpp:412-438 | the listed triangles are the sum over the entries |
| MeshCache.NewStays | src/meshing/genesis_mesher.cpp:432-437 | a storable mesh under a new key is always retained |
| MeshCache.LargestAlone | src/meshing/genesis_mesher.cpp:412-438 | a new mesh of exactly the most triangles is kept, and nothing beside it |
| MeshCache.ReplacedStays | src/meshing/genesis_mesher.cpp:423-430 | a replaced mesh stays exactly when it and all newer ones fit |
| MeshCache.GenesisMeshCache.Get | src/meshing/genesis_mesher.cpp:400-410 | the latest put of a key still held, and the counters |
| MeshCache.GenesisMeshCache.Put | src/meshing/genesis_mesher.cpp:412-438 | the counter equals the sum, the order lists each key once, both limits hold, and what remains is insertion order without its shortest sufficient prefix |
| MeshCache.GenesisMeshCache.Evict | src/meshing/genesis_mesher.cpp:457-472 | exactly the shortest sufficient prefix of insertion order goes |

## Left out

- Source text of OGL scripts: lines come classified and typed. Tokenising, quoting, `translate_command`, `typed_value` and `parse_condition` are not modelled, nor how comments and blank lines are dropped before lines are counted.
- The lengths of command texts as the engine prints them: the assembler's check of one command's fields and the length of its text are parameters.
- Number parsing for comparisons and the LSL builtins: parameters shared by both semantics. `add` is exact instead of overflowing at 64 bits.
- OglLoops.ForRuns: counters are integers of at most 2^53 in size, which doubles hold exactly, and the reader of numbers is taken to read their decimal texts.
- A bound on the number of variables, which `add` ignores, and a state-byte bound for handlers that only bind parameters.
- ScriptRuntime.ScriptRuntime.ExecuteEvent: the compiler is a parameter.
- The other members of the script runtime: upserts, timers, chat and event dispatch are lookups and updates.
- VmCodec.RoundTrip: assumes that text consists of bytes, as it does in the source; so does ScriptRuntime.WorldResultLoads.
- Persistence to files, sockets, frames, base64, logging, locks and threads. Core's result handler and each federation operation are one step each.
- A change of the node that owns a region during a crossing, beyond the check that refuses its results.
- Edits, moves, deletions, linking and unlinking by users during a run. A linkset is known by contents that identify it, so an import finds it present when it is the same linkset; one renamed between two deliveries of an import is outside the model, and so are members that a linkset gains or loses. Entity numbers are not given twice.
- Adjacency, estate, parcel and moderation checks of the HTTP endpoint, which only refuse more openings.
- CrossingSystem.CrossingSafety: holds for runs in which a crossing is opened only on a linkset no unfinished crossing touches, by whichever member, because the store does not check it; ids and the destinations made from them are fresh.
- CrossingRecovery.CanRollBack: says that a way out exists, not that it is taken; like CompletesExactly, it takes for granted that regions accept the restores of the crossings that may have to be cleared out of the way, as StuckForever shows they must.
- CrossingGuard.DuplicatesExactly: for moves that regions and Core accept; a crossing that would be refused on its way can do less, and in which cases it still duplicates is not spelt out.
- CrossingRegion.CarriedApplies: a copy already at the destination passed the checks of this very import when it came, which CrossingSystem proves of every run.
- CoreCrossings.EntityMapRoundTrip: reading of numbers is a parameter, as std::stoull also accepts blanks, signs and trailing text.
- Reload of crossing records from disk, which does not restore a rollback reason over 512 bytes.
- Uniqueness of legacy ids in the inventory, listing and lookups.
- Derived ledger references such as `:commit`, which may collide with references callers choose.
- Physics.ResolvePair: contact geometry, integration, constraints, ground contacts and rotation are not modelled; square roots are exact, and the normal is exactly a unit vector.
- Federation.AuthorizedMeans: the token digest is taken to be injective, and signatures are an oracle.
- FederationStores.GrantStore.Issue: random ids and tokens are parameters.
- ActionQueue.RunGood: action ids are fresh; a caller may choose ids, and the code does not check them.
- Mesh building, ray casting, terrain and the region runtime beyond linkset transfer.
- Friends, messages, notifications, landmarks, estates, audit, roles and the purchase orchestration.

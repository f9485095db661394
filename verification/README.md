# Undojs command/undo engine in Dafny

This project models the command/undo engine of Undojs (`src/Undojs.js`) and
proves properties of the model. The engine does four things:

- it registers named commands;
- it executes them, sync or async, with an optional cache step;
- it groups executes into batches;
- it undoes them from a history stack, serialising concurrent undo requests
  through a pending queue.

JavaScript runs one callback at a time, so each stretch of code between two
`await`/`.then` points is one atomic step. Each step is a pure function on an
immutable engine record. The environment chooses the event order and every
callback's outcome.

| file | module | what it holds |
|---|---|---|
| `js.dfy` | `Js` | JavaScript values, `Option`/`Result`, how an awaited value settles |
| `registry.dfy` | `CommandRegistry` | `register`, the registry as a well-formed subset type |
| `engine.dfy` | `EngineState` | stack entries and the engine record |
| `execution.dfy` | `Execution` | `execute` as three steps: up to `await cached`, after the cache, the `.then` of an async result; plus the batch writers |
| `batching.dfy` | `Batching` | `recordBatch` |
| `undo.dfy` | `Undo` | the queue, the pops, and `undo()` as two steps (begin up to the first await; finish) |
| `lifecycle.dfy` | `Lifecycle` | `reset` (two steps) and `destroy` |
| `scheduler.dfy` | `Scheduler` | the engine with what is in flight, one event per atomic step under a chosen undo coordinator, the invariant over every run |
| `queue_finding.dfy` | `QueueFinding` | a run where the source's queue outgrows its stack, and the same run corrected |
| `batch_interleaving.dfy` | `BatchInterleaving` | a run where a batch undo takes an entry outside the batch |

Inputs that the model takes as parameters:

- What `execute`, `cache` and `undo` do is an input. `ExecCall` says whether
  execute threw, returned a plain value or returned a thenable. `CacheCall`
  says what the cache callback returned. `Settle` says how an awaited promise
  settled.
- How a reset's awaits end is an input, `hasErrors`.
- Callback references are opaque numbers.

Where the code and its documentation comments differ, the model follows the code:

- **Context.** The call-site context replaces the registered one unless it is
  exactly `null` (line 177). So `execute({name})`, and every `recordBatch`
  member, runs with an `undefined` context, not the registered one.
- **A `null` result.** An execute that returns `null` makes the thenable test
  at line 193 throw. The call rejects and nothing is committed.
- **A rejected cache** leaves its id among the in-flight caches (line 186 is
  never reached).
- **Sync batch writes.** A sync batch member is appended to its batch without
  any contiguity test (lines 147-150). `BatchInterleaving` shows a batch undo
  that then undoes an entry that is not in the batch. Batch contiguity is
  therefore not an invariant of the model.
- **Async batch writes.** A missing batch slot, or a non-empty batch with no
  entry beneath the new top, makes the async writer throw inside `.then`.
  That error is swallowed, so the entry stays on the stack but joins no batch.
- **Async commits ignore reset.** An async execute's `.then` commits even
  while a reset is aborting, because the abort flag is checked only before
  execute is called.
- **Over-long batch undo.** A batch undo that pops more entries than the
  stack holds gets `TypeError`s for the missing members. These are reported
  like any other member failure.
- **recordBatch order.** `recordBatch` pushes its empty batch before it
  validates the elements. Executes issued for elements before an invalid one
  keep running.
- **Command names are object keys.** `commandNames` is a plain object
  (line 7). Registering "__proto__" appends a definition, but the assignment
  at line 64 goes to the prototype setter, so the name never resolves and
  can be registered again. Registering "hasOwnProperty" hides the method
  lines 56 and 132 call, so every later `register` and `execute` throws a
  TypeError at that check.
- **Concurrent undos after reset.** A reset lowers `undoing`, so a new undo
  can start while an earlier one's callbacks are still running.

The pending-undo queue keeps the source's representation. A new request goes
to the front (`unshift`) and the next request served is the last (`pop`).

`Undo.BeginUndoAsWritten` and `Undo.FinishUndoAsWritten` follow the source
exactly. `Undo.BeginUndo` and `Undo.FinishUndo` add the one correction
described under Findings. `Scheduler` runs either pair, chosen by a
`Coordinator` parameter. What holds of the source is proved with
`AsWritten` or for both; what needs the correction says `Corrected`.

`destroy` resumes after `await this.reset()` in a step of its own
(`DestroyResumes`), so other events can run between the end of its reset
and the clearing of the registry.

## Model

| member | source | states |
|---|---|---|
| CommandRegistry.Register | src/Undojs.js:47-66 | Fails with the source's three errors exactly when name/execute/undo is missing, a callback is not a function, or the name is taken. A registered "hasOwnProperty" makes the name check itself throw, before the taken-name test. On success exactly one definition is appended, with cache and context defaulting to null. The name maps to the old length, except "__proto__", which is never mapped. |
| CommandRegistry.Lookup | src/Undojs.js:132-134 | A name resolves exactly when it is in the name table, to the definition at the index the table holds. |
| CommandRegistry.RegisterThenLookup | src/Undojs.js:56-64 | After a registration the new name resolves to the stored definition, unless it is "__proto__", which never resolves. Every other name resolves as before. |
| CommandRegistry.ProtoRegistersRepeatedly | src/Undojs.js:56-64 | "__proto__" can be registered twice in a row, and still never resolves. |
| CommandRegistry.HiddenOwnCheckBlocksRegistration | src/Undojs.js:56 | After "hasOwnProperty" is registered, every later registration fails. |
| Execution.ParseCommandInfo | src/Undojs.js:103-125 | A bare name is accepted with a null call-site context. A record is accepted exactly when it has a name and its context is absent or object-typed, and it keeps its name and context; otherwise the missing name, then the context, is the error. Anything else is rejected. An accepted context is always absent or object-typed. |
| Execution.NormalizeParams | src/Undojs.js:176 | Absent params become the empty list, an array is kept as the list itself, and any other value becomes a one-element list. |
| Execution.StartExecute | src/Undojs.js:168-184 | A malformed command info, an undo in progress, a name check broken by a registered "hasOwnProperty" (a TypeError) or an unknown name rejects the call with no side effect, in that order. Otherwise the call takes the id `nextId` and records the command index, params, context, batch tag and cache value. A cache that throws fails the call after the id was taken. |
| Execution.WriteBatchSync | src/Undojs.js:147-150 | A sync commit appends its id to its batch and leaves the other batches alone. A missing slot is an error. |
| Execution.AfterCache | src/Undojs.js:185-214 | A rejected cache rejects the call and leaves its id in flight. While aborting, execute is not called and nothing is committed. Otherwise the stack grows by exactly this invocation's entry on top, precisely when execute returned a plain non-null value. A thenable result leaves the call awaiting its result. A throwing execute rejects the call with its reason, and a `null` result rejects it with a TypeError. A sync commit always joins its batch. |
| Execution.ExecuteSettled | src/Undojs.js:198-204 | Fulfilment pushes the entry on top and nothing else moves except the batch. The async member joins its batch exactly when the batch was empty or the previous top belongs to it (lines 137-145). A rejection changes nothing. |
| Batching.StartMember | src/Undojs.js:95-96 | The execute issued for a valid element runs the element's command with the element's params, with no call-site context and the batch tag. It starts exactly when no undo runs, the name check works, the name is registered and the cache does not throw; otherwise it fails with the first failing check's error. An id is taken exactly when the checks before the cache pass, and a started member has the id `nextId`. The engine it leaves differs from the old one only in the id counter and the in-flight caches. |
| Batching.StartMembers | src/Undojs.js:86-98 | One execute per element up to the first invalid element, whose kind is the error. Each member carries the batch tag, an undefined context and a fresh increasing id. The engine differs from the old one only in the id counter and the in-flight caches, which gain only new ids. |
| Batching.MemberStartsAsItsItem | src/Undojs.js:86-97 | Member k of the loop starts, or fails, exactly as element k with its own cache outcome does on its own: it runs that element's command with that element's params. |
| Batching.RecordBatchStartsEachItem | src/Undojs.js:86-97 | Every execute `recordBatch` issued belongs to a valid element and runs that element's command with its params, or fails as that element would. |
| Batching.RecordBatch | src/Undojs.js:74-101 | A non-array or empty argument fails with no effect. Otherwise exactly one empty batch is appended first, even when an element later proves invalid, and apart from it the engine differs only in the id counter and the in-flight caches. If every element is valid, each one gets an execute. Otherwise every element before the first invalid one gets an execute, and that element's kind (not an object, or no name) is the error. Every started member is tagged with that batch and has a new id. |
| Undo.ServiceOrder | src/Undojs.js:237-238 | Draining serves the queue from its last element to its first. |
| Undo.QueueIsFifo | src/Undojs.js:231-238 | Unshift at the front and pop at the back serve requests in arrival order, after those already waiting. |
| Undo.KeepOldestServesFirst | src/Undojs.js:328-333 | Releasing the newest requests leaves the service order of the remaining ones unchanged. |
| Undo.PopMembers | src/Undojs.js:264-272 | k pops leave the stack without its top k entries (empty if k exceeds it) and yield one member per pop, top first. Pops beyond the bottom yield nothing callable. |
| Undo.StartUndo | src/Undojs.js:335-345 | Starting an undo enters the undoing state. It pops the top entry, or the last batch together with as many entries as that batch has ids, exactly when the last batch holds the top entry's id. |
| Undo.BeginUndoAsWritten | src/Undojs.js:315-345 | The source's decision, case by case: too many pending exactly when the queue is longer than the stack; a no-op on an empty stack; a contended user call dropped exactly when queue length + 1 exceeds the stack, otherwise queued at the front; otherwise started. Only a start pops. |
| Undo.BeginUndo | src/Undojs.js:315-345 | As the source, except that after the pops the newest queued requests beyond the stack's length are released as no-ops. Whenever the queue fits the stack before the call, the call is never rejected for too many pending requests and the queue fits the stack afterwards. |
| Undo.Outcomes | src/Undojs.js:248-302 | A single undo reports its callback's settlement. A batch undo reports one settlement per member, in pop order. A member with nothing callable reports a TypeError. |
| Undo.FinishUndoAsWritten | src/Undojs.js:346-362 | The source's finish: the job's result; a hand-off to the last queued request exactly when nothing failed and the queue is non-empty, running the source's `undo(false)` at once. |
| Undo.FinishUndo | src/Undojs.js:346-362 | Any failure empties the queue and ends with no hand-off. With no hand-off, the undoing state is left, nothing stays queued and the stack is unchanged. Otherwise the oldest request is served next. While the queue fits the stack, a served request always starts an undo. The stack only loses entries from the top. |
| Undo.SerialUndosAreLifo | src/Undojs.js:248-262 | Under the source's own coordinator and the corrected one alike: without batches, n user undos in a row, each finishing before the next and each with its own callback outcomes, undo exactly the members one pop of n entries yields: the top n entries, most recent first. They leave the stack without exactly those entries, and change nothing else except that no undo is in flight. |
| Lifecycle.ResetBegin | src/Undojs.js:367-376 | Reset raises the abort flag and clears the stack, batches, queue, pending count and undoing state, keeping the registry and the id counter. |
| Lifecycle.ResetEnd | src/Undojs.js:378-398 | The abort flag is lowered. The in-flight cache ids and the in-flight undo are cleared exactly when an awaited promise rejected. Nothing else changes. |
| Lifecycle.DestroyEnd | src/Undojs.js:403-407 | Destroy leaves no registered command and changes nothing else. |
| Lifecycle.ResetLeavesCleanState | src/Undojs.js:367-398 | A reset with nothing in between leaves cleared execution data and a lowered abort flag, keeps the definitions and the id counter, and after a rejection leaves nothing in flight. |
| Lifecycle.DestroyLeavesFreshState | src/Undojs.js:403-407 | A destroy whose awaits rejected returns any engine to the freshly constructed state, except that the id counter keeps its value. |
| Scheduler.FreshIdExceedsEarlierOnes | src/Undojs.js:172 | An execute that passes validation takes an id above every committed or in-flight id. |
| Scheduler.StepNeverLowersNextId | src/Undojs.js:172 | No atomic step lowers the id counter, under either coordinator; reset does not restart it. |
| Scheduler.StepKeepsInv | src/Undojs.js:168-407 | Every atomic step keeps the invariant. Under either coordinator, committed ids are unique and below the counter, and an in-flight id is on no stack and awaited in one place. With the corrected coordinator, the queue also never outgrows the stack. |
| Scheduler.RunKeepsInv | src/Undojs.js:168-407 | The invariant of either coordinator holds after any sequence of events run under that coordinator. |
| Scheduler.ReachableIdsAreSound | src/Undojs.js:168-214 | With the source's own coordinator as well as the corrected one, every state reachable from a fresh engine has distinct committed ids below the counter, and no in-flight id on the stack. |
| Scheduler.ReachableStatesAreSound | src/Undojs.js:315-319 | With the corrected coordinator, in every reachable state stack ids are unique, a user undo is never rejected for too many pending requests, and a served queued request always starts an undo. |
| Scheduler.StackIsCommitLog | src/Undojs.js:185-214 | Without undo or reset, under either coordinator, the stack grows by exactly the commits, in the order the invocations completed. |
| QueueFinding.AsWrittenQueueOutgrowsStack | src/Undojs.js:326-333 | On a concrete run, the source's coordinator keeps two queued requests for an empty stack. The next one served is rejected at line 317, and the last one is never served. |
| QueueFinding.CorrectedReleasesSurplus | src/Undojs.js:326-333 | On the same run, the corrected coordinator releases the two surplus requests, leaves nothing queued, and a later undo resolves as a no-op. |
| QueueFinding.ScenarioIsReachable | src/Undojs.js:47-214 | The run's start state is reached from a fresh engine by registering one command, recording a batch of three calls, letting them commit, and executing and committing a fourth call. |
| QueueFinding.AsWrittenRunStrandsARequest | src/Undojs.js:315-362 | Run from a fresh engine with the source's coordinator, the four undo calls and their two jobs leave one request queued on an empty stack with no undo job running to serve it, and the next user undo is rejected for too many pending requests. |
| QueueFinding.CorrectedRunReleasesSurplus | src/Undojs.js:315-362 | The same run with the corrected coordinator leaves nothing queued or running, and the next user undo is a no-op. |
| BatchInterleaving.InterleavingIsReachable | src/Undojs.js:74-214 | Registering a command whose cache returns a pending promise, recording a batch of two calls, executing one more call and letting the three cache promises settle in the order 1, 3, 2 leads from a fresh engine to a stack with ids 1, 3, 2 and the batch [1, 2]. |
| BatchInterleaving.BatchUndoTakesTheUnrelatedEntry | src/Undojs.js:264-272 | When an unrelated commit lands between two sync batch members, the next undo, under either coordinator, is a batch undo of the unrelated entry and the second member. It leaves the batch's first member on the stack. |

## Left out

- `stackLimit` (line 33): its only use is in the commented-out code at lines 219-228.
- `batchRecording` (line 35): nothing ever reads it.
- `pendingUndos` is kept only as the value reset writes: nothing else reads it.
- Error message text and `JSON.stringify` output: errors are datatype constructors.
- The `this` binding of callbacks, beyond recording which context is chosen.
- The duck-typed thenable test, beyond the `ExecCall` tag and the `null` case.
- `typeof` distinctions the datatypes do not draw: a name is a string and a batch tag an integer.
- Container identity, such as reset emptying the stack in place: values have no identity.
- The resolution values that callers of `execute`, `undo` and `recordBatch` receive. The model keeps the engine state and each step's status, not the promises.
- Real timing and promise scheduling: the order of events and how reset's awaits end are inputs.
- Execution.AfterCache: the model does not tell a promise from a plain value among cache results. So a scheduler run may let the awaits of plain cache values resume out of call order, or let them reject, which JavaScript never does. The concrete runs use only placeholder awaits that resume in call order, or caches that return pending promises.
- What callbacks do to external state. This includes the floating-point arithmetic of the system tests and re-entrant commands.
- When reset's continuation runs: the model does not check that the awaited cache and undo promises have settled first, because that order belongs to the environment.
- Execution.ParseCommandInfo: a `null` command info is one of the malformed ones. The source rejects it with the runtime's TypeError from reading its name rather than with its own message; either way the call rejects before any side effect.
- The minified browser build and the webpack configuration: they are not part of the engine.

## Findings

| source | as written | input that shows it | evidently intended | confidence | as-written member | corrected member |
|---|---|---|---|---|---|---|
| src/Undojs.js:326-333 | A contended user undo is queued while the queue + 1 fits the number of stack entries. A batch undo then removes several entries at once, so the queue can become longer than the stack. The drained `undo(false)` is then rejected by the "should never happen" check at line 317, and the requests behind it are never served. | Stack ids 1-4, batches `[[1,2,3]]`, four `undo()` calls issued together, every undo callback fulfilling. | The queue never holds more requests than there are entries left to undo; a surplus request resolves as a no-op, as a dropped one does. | not executed | QueueFinding.AsWrittenRunStrandsARequest | Undo.BeginUndo |

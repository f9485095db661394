/** The engine inside its environment. JavaScript runs one atomic step at a
    time; which step comes next (a new call, or the settling of a promise
    the engine awaits) is up to the environment, and so is every callback's
    outcome. A `System` is the engine plus what is in flight; an `Event` is
    one atomic step. */
module Scheduler {
  import opened Js
  import opened CommandRegistry
  import opened EngineState
  import opened Execution
  import opened Batching
  import opened Undo
  import opened Lifecycle

  /** `awaitingCache`: executes suspended at `await cached`, by id.
      `awaitingResult`: executes whose callback returned a thenable that has
      not settled yet, by id. `jobs`: undo jobs whose callbacks are running.
      `resets`, `destroys`: calls suspended in reset's awaits. `clearing`:
      destroys whose reset has finished and whose own continuation, the
      clearing of the registry, has not run yet. */
  datatype System = System(
    engine: Engine,
    awaitingCache: map<nat, Invocation>,
    awaitingResult: map<nat, Invocation>,
    jobs: map<nat, Job>,
    nextJob: nat,
    resets: nat,
    destroys: nat,
    clearing: nat)

  const Init: System := System(Initial, map[], map[], map[], 0, 0, 0, 0)

  datatype Event =
    | DoRegister(arg: Option<CommandDef>)
    | DoExecute(info: CommandInfo, params: JsVal, cache: CacheCall)
    | DoRecordBatch(batch: BatchArg, caches: nat -> CacheCall)
    | CacheSettles(id: nat, settle: Settle, call: ExecCall)
    | ResultSettles(id: nat, settle: Settle)
    | DoUndo(token: nat)
    | UndoSettles(job: nat, outcome: nat -> Settle)
    | DoReset(destroy: bool)
    | ResetSettles(destroy: bool, hasErrors: bool)
    | DestroyResumes

  /** Record the invocations that reached `await cached`. */
  function Track(m: map<nat, Invocation>, started: seq<Started>): (r: map<nat, Invocation>)
    decreases |started|
    ensures m.Keys <= r.Keys
    ensures forall k :: 0 <= k < |started| && started[k].Running? ==> started[k].inv.id in r
  {
    if |started| == 0 then m
    else
      var m1 := if started[0].Running? then m[started[0].inv.id := started[0].inv] else m;
      Track(m1, started[1..])
  }

  /** Start an undo job, if the undo call got that far. */
  function Launch(s: System, b: Begun): System {
    var s1 := s.(engine := b.engine);
    if b.begin.Started? then s1.(jobs := s.jobs[s.nextJob := b.begin.job], nextJob := s.nextJob + 1)
    else s1
  }

  /** One atomic step under coordinator `c`. Settling something that is not
      in flight, and ending a reset that was never started, change nothing.
      A destroy's reset ends in one step (`ResetSettles`) and its registry
      is cleared in a later one (`DestroyResumes`), since `await this.reset()`
      resumes destroy only after reset's own promise has resolved. */
  function Step(c: Coordinator, s: System, ev: Event): System {
    match ev
    case DoRegister(arg) =>
      var r := Register(s.engine.reg, arg);
      if r.Ok? then s.(engine := s.engine.(reg := r.value)) else s
    case DoExecute(info, params, cache) =>
      var st := StartExecute(s.engine, info, params, cache);
      s.(engine := st.engine, awaitingCache := Track(s.awaitingCache, [st.started]))
    case DoRecordBatch(batch, caches) =>
      var rec := RecordBatch(s.engine, batch, caches);
      s.(engine := rec.engine, awaitingCache := Track(s.awaitingCache, rec.started))
    case CacheSettles(id, settle, call) =>
      if id !in s.awaitingCache then s
      else
        var inv := s.awaitingCache[id];
        var r := AfterCache(s.engine, inv, settle, call);
        s.(engine := r.engine,
           awaitingCache := s.awaitingCache - {id},
           awaitingResult := if r.status.AwaitingResult? then s.awaitingResult[id := inv] else s.awaitingResult)
    case ResultSettles(id, settle) =>
      if id !in s.awaitingResult then s
      else s.(engine := ExecuteSettled(s.engine, s.awaitingResult[id], settle),
              awaitingResult := s.awaitingResult - {id})
    case DoUndo(token) =>
      Launch(s, BeginWith(c, s.engine, User(token)))
    case UndoSettles(j, outcome) =>
      if j !in s.jobs then s
      else
        var f := FinishWith(c, s.engine, s.jobs[j], outcome);
        var s1 := s.(jobs := s.jobs - {j});
        if f.handoff.HandedOff? then Launch(s1, f.handoff.begun) else s1.(engine := f.engine)
    case DoReset(destroy) =>
      var s1 := s.(engine := ResetBegin(s.engine));
      if destroy then s1.(destroys := s.destroys + 1) else s1.(resets := s.resets + 1)
    case ResetSettles(destroy, hasErrors) =>
      if destroy && s.destroys > 0 then
        s.(engine := ResetEnd(s.engine, hasErrors), destroys := s.destroys - 1, clearing := s.clearing + 1)
      else if !destroy && s.resets > 0 then
        s.(engine := ResetEnd(s.engine, hasErrors), resets := s.resets - 1)
      else s
    case DestroyResumes =>
      if s.clearing > 0 then s.(engine := DestroyEnd(s.engine), clearing := s.clearing - 1) else s
  }

  /** The state after `evs`, one step after another. */
  function RunWith(step: (System, Event) -> System, s: System, evs: seq<Event>): System
    decreases |evs|
  {
    if |evs| == 0 then s else RunWith(step, step(s, evs[0]), evs[1..])
  }

  /** `Step` under coordinator `c`, as a step function. */
  function Steps(c: Coordinator): (System, Event) -> System {
    (s: System, ev: Event) => Step(c, s, ev)
  }

  function Run(c: Coordinator, s: System, evs: seq<Event>): System {
    RunWith(Steps(c), s, evs)
  }

  /** Running `a` and then `b` is running `a + b`. */
  lemma {:induction false} RunAppend(step: (System, Event) -> System, s: System, a: seq<Event>, b: seq<Event>)
    ensures RunWith(step, s, a + b) == RunWith(step, RunWith(step, s, a), b)
    decreases |a|
  {
    if |a| > 0 {
      assert (a + b)[0] == a[0] && (a + b)[1..] == a[1..] + b;
      RunAppend(step, step(s, a[0]), a[1..], b);
    } else {
      assert a + b == b;
    }
  }

  /** A run through `m` to `t`, as one run. */
  lemma RunJoin(step: (System, Event) -> System, s: System, a: seq<Event>, b: seq<Event>, m: System, t: System)
    requires RunWith(step, s, a) == m && RunWith(step, m, b) == t
    ensures RunWith(step, s, a + b) == t
  {
    RunAppend(step, s, a, b);
  }

  /** A run whose every step goes from one listed state to the next ends in
      the last one. */
  lemma {:induction false} RunThrough(step: (System, Event) -> System, states: seq<System>, evs: seq<Event>)
    requires |states| == |evs| + 1
    requires forall k :: 0 <= k < |evs| ==> step(states[k], evs[k]) == states[k + 1]
    ensures RunWith(step, states[0], evs) == states[|evs|]
    decreases |evs|
  {
    if |evs| > 0 {
      assert forall k :: 0 <= k < |evs[1..]| ==> evs[1..][k] == evs[k + 1] && states[1..][k] == states[k + 1];
      RunThrough(step, states[1..], evs[1..]);
    }
  }

  // ---------------------------------------------------------------- invariant

  /** No entry on the stack carries `id`. */
  predicate Fresh(stack: seq<Entry>, id: nat) {
    forall i :: 0 <= i < |stack| ==> stack[i].id != id
  }

  predicate UniqueIds(stack: seq<Entry>) {
    forall i, j :: 0 <= i < j < |stack| ==> stack[i].id != stack[j].id
  }

  /** The ids the engine hands out identify one invocation each: committed
      ones are unique on the stack and below the counter, and one in flight
      is on no stack and awaited in one place only. */
  ghost predicate IdsSound(s: System) {
    var e := s.engine;
    && UniqueIds(e.stack)
    && (forall i :: 0 <= i < |e.stack| ==> e.stack[i].id < e.nextId)
    && (forall id :: id in s.awaitingCache ==>
          s.awaitingCache[id].id == id && id < e.nextId && Fresh(e.stack, id))
    && (forall id :: id in s.awaitingResult ==>
          && s.awaitingResult[id].id == id && id < e.nextId && Fresh(e.stack, id)
          && id !in s.awaitingCache)
    && (forall j :: j in s.jobs ==> j < s.nextJob)
  }

  /** The queue holds no more requests than the stack has entries. */
  predicate QueueFits(e: Engine) {
    |e.undoQueue| <= |e.stack|
  }

  /** The invariant under coordinator `c`: sound ids with either one, and a
      queue that fits the stack with the corrected one. */
  ghost predicate Inv(c: Coordinator, s: System) {
    IdsSound(s) && (c.Corrected? ==> QueueFits(s.engine))
  }

  lemma InitSatisfiesInv(c: Coordinator)
    ensures Inv(c, Init)
  {
  }

  /** Every invocation `Track` records is keyed by its own id, and it is
      either already awaited or one of `started`. */
  lemma {:induction false} TrackKeysAreIds(m: map<nat, Invocation>, started: seq<Started>, lo: nat, hi: nat)
    requires forall id :: id in m ==> m[id].id == id
    requires forall k :: 0 <= k < |started| && started[k].Running? ==> lo <= started[k].inv.id < hi
    ensures forall id :: id in Track(m, started) ==>
              Track(m, started)[id].id == id && (id in m || lo <= id < hi)
    decreases |started|
  {
    if |started| > 0 {
      var m1 := if started[0].Running? then m[started[0].inv.id := started[0].inv] else m;
      assert forall k :: 0 <= k < |started[1..]| ==> started[1..][k] == started[k + 1];
      TrackKeysAreIds(m1, started[1..], lo, hi);
    }
  }

  /** A state whose stack is a prefix of `s`'s keeps `s`'s stack facts. */
  lemma PrefixKeepsStackFacts(s: System, stack: seq<Entry>)
    requires IdsSound(s)
    requires |stack| <= |s.engine.stack| && stack == s.engine.stack[..|stack|]
    ensures UniqueIds(stack)
    ensures forall i :: 0 <= i < |stack| ==> stack[i].id < s.engine.nextId
    ensures forall id :: Fresh(s.engine.stack, id) ==> Fresh(stack, id)
  {
    assert forall i :: 0 <= i < |stack| ==> stack[i] == s.engine.stack[i];
  }

  lemma LaunchKeepsIds(s: System, b: Begun)
    requires IdsSound(s)
    requires |b.engine.stack| <= |s.engine.stack| && b.engine.stack == s.engine.stack[..|b.engine.stack|]
    requires b.engine.nextId == s.engine.nextId
    ensures IdsSound(Launch(s, b))
  {
    PrefixKeepsStackFacts(s, b.engine.stack);
  }

  lemma ExecuteKeepsInv(c: Coordinator, s: System, info: CommandInfo, params: JsVal, cache: CacheCall)
    requires Inv(c, s)
    ensures Inv(c, Step(c, s, DoExecute(info, params, cache)))
  {
    var st := StartExecute(s.engine, info, params, cache);
    assert st.engine.stack == s.engine.stack && st.engine.undoQueue == s.engine.undoQueue;
    assert s.engine.nextId <= st.engine.nextId;
    TrackKeysAreIds(s.awaitingCache, [st.started], s.engine.nextId, st.engine.nextId);
  }

  lemma RecordBatchKeepsInv(c: Coordinator, s: System, batch: BatchArg, caches: nat -> CacheCall)
    requires Inv(c, s)
    ensures Inv(c, Step(c, s, DoRecordBatch(batch, caches)))
  {
    var rec := RecordBatch(s.engine, batch, caches);
    TrackKeysAreIds(s.awaitingCache, rec.started, s.engine.nextId, rec.engine.nextId);
  }

  /** The cache continuation of invocation `id`, as far as the invariant
      cares: `nextId` and the queue stay, and the stack either stays or gains
      the invocation's own entry, in which case it awaits nothing more. */
  lemma CacheContinuationKeepsInv(c: Coordinator, s: System, id: nat, e': Engine, entry: Entry, waiting: bool)
    requires Inv(c, s) && id in s.awaitingCache
    requires e'.nextId == s.engine.nextId && e'.undoQueue == s.engine.undoQueue
    requires e'.stack == s.engine.stack || (e'.stack == s.engine.stack + [entry] && entry.id == id && !waiting)
    ensures Inv(c, s.(engine := e',
                      awaitingCache := s.awaitingCache - {id},
                      awaitingResult := if waiting then s.awaitingResult[id := s.awaitingCache[id]]
                                        else s.awaitingResult))
  {
    if e'.stack != s.engine.stack {
      assert forall i :: 0 <= i < |s.engine.stack| ==> e'.stack[i] == s.engine.stack[i];
    }
  }

  lemma CacheSettlesKeepsInv(c: Coordinator, s: System, id: nat, settle: Settle, call: ExecCall)
    requires Inv(c, s)
    ensures Inv(c, Step(c, s, CacheSettles(id, settle, call)))
  {
    if id in s.awaitingCache {
      var inv := s.awaitingCache[id];
      var r := AfterCache(s.engine, inv, settle, call);
      var entry := EntryOf(inv, if call.ExecReturned? then call.value else Undefined);
      CacheContinuationKeepsInv(c, s, id, r.engine, entry, r.status.AwaitingResult?);
    }
  }

  /** The `.then` commit of invocation `id`: the stack either stays or
      gains the invocation's own entry. */
  lemma ResultContinuationKeepsInv(c: Coordinator, s: System, id: nat, e': Engine, entry: Entry)
    requires Inv(c, s) && id in s.awaitingResult
    requires e'.nextId == s.engine.nextId && e'.undoQueue == s.engine.undoQueue
    requires e'.stack == s.engine.stack || (e'.stack == s.engine.stack + [entry] && entry.id == id)
    ensures Inv(c, s.(engine := e', awaitingResult := s.awaitingResult - {id}))
  {
    if e'.stack != s.engine.stack {
      assert forall i :: 0 <= i < |s.engine.stack| ==> e'.stack[i] == s.engine.stack[i];
    }
  }

  lemma ResultSettlesKeepsInv(c: Coordinator, s: System, id: nat, settle: Settle)
    requires Inv(c, s)
    ensures Inv(c, Step(c, s, ResultSettles(id, settle)))
  {
    if id in s.awaitingResult {
      var inv := s.awaitingResult[id];
      var e := ExecuteSettled(s.engine, inv, settle);
      var entry := EntryOf(inv, if settle.Fulfilled? then settle.value else Undefined);
      ResultContinuationKeepsInv(c, s, id, e, entry);
    }
  }

  /** Either coordinator's begin only shortens the stack from the top and
      keeps the id counter; the corrected one keeps the queue within the
      stack. */
  lemma BeginKeepsInv(c: Coordinator, s: System, caller: Caller)
    requires Inv(c, s)
    ensures Inv(c, Launch(s, BeginWith(c, s.engine, caller)))
  {
    LaunchKeepsIds(s, BeginWith(c, s.engine, caller));
  }

  lemma UndoSettlesKeepsInv(c: Coordinator, s: System, j: nat, outcome: nat -> Settle)
    requires Inv(c, s)
    ensures Inv(c, Step(c, s, UndoSettles(j, outcome)))
  {
    if j in s.jobs {
      var f := FinishWith(c, s.engine, s.jobs[j], outcome);
      var s1 := s.(jobs := s.jobs - {j});
      if f.handoff.HandedOff? {
        LaunchKeepsIds(s1, f.handoff.begun);
      } else {
        PrefixKeepsStackFacts(s, f.engine.stack);
      }
    }
  }

  lemma RegisterKeepsInv(c: Coordinator, s: System, arg: Option<CommandDef>)
    requires Inv(c, s)
    ensures Inv(c, Step(c, s, DoRegister(arg)))
  {
  }

  lemma ResetKeepsInv(c: Coordinator, s: System, destroy: bool)
    requires Inv(c, s)
    ensures Inv(c, Step(c, s, DoReset(destroy)))
  {
  }

  /** A step that leaves the stack, the queue, the id counter and what is
      in flight alone keeps the invariant. */
  lemma FrameKeepsInv(c: Coordinator, s: System, s': System)
    requires Inv(c, s)
    requires s'.engine.stack == s.engine.stack && s'.engine.undoQueue == s.engine.undoQueue
    requires s'.engine.nextId == s.engine.nextId
    requires s'.awaitingCache == s.awaitingCache && s'.awaitingResult == s.awaitingResult
    requires s'.jobs == s.jobs && s'.nextJob == s.nextJob
    ensures Inv(c, s')
  {
  }

  lemma ResetSettlesKeepsInv(c: Coordinator, s: System, destroy: bool, hasErrors: bool)
    requires Inv(c, s)
    ensures Inv(c, Step(c, s, ResetSettles(destroy, hasErrors)))
  {
    var s' := Step(c, s, ResetSettles(destroy, hasErrors));
    if destroy && s.destroys > 0 {
      assert s' == s.(engine := ResetEnd(s.engine, hasErrors), destroys := s.destroys - 1, clearing := s.clearing + 1);
      FrameKeepsInv(c, s, s');
    } else if !destroy && s.resets > 0 {
      assert s' == s.(engine := ResetEnd(s.engine, hasErrors), resets := s.resets - 1);
      FrameKeepsInv(c, s, s');
    }
  }

  lemma DestroyResumesKeepsInv(c: Coordinator, s: System)
    requires Inv(c, s)
    ensures Inv(c, Step(c, s, DestroyResumes))
  {
    if s.clearing > 0 {
      FrameKeepsInv(c, s, Step(c, s, DestroyResumes));
    }
  }

  lemma {:induction false} StepKeepsInv(c: Coordinator, s: System, ev: Event)
    requires Inv(c, s)
    ensures Inv(c, Step(c, s, ev))
  {
    match ev
    case DoRegister(arg) => RegisterKeepsInv(c, s, arg);
    case DoExecute(info, params, cache) => ExecuteKeepsInv(c, s, info, params, cache);
    case DoRecordBatch(batch, caches) => RecordBatchKeepsInv(c, s, batch, caches);
    case CacheSettles(id, settle, call) => CacheSettlesKeepsInv(c, s, id, settle, call);
    case ResultSettles(id, settle) => ResultSettlesKeepsInv(c, s, id, settle);
    case DoUndo(token) => BeginKeepsInv(c, s, User(token));
    case UndoSettles(j, outcome) => UndoSettlesKeepsInv(c, s, j, outcome);
    case DoReset(destroy) => ResetKeepsInv(c, s, destroy);
    case ResetSettles(destroy, hasErrors) => ResetSettlesKeepsInv(c, s, destroy, hasErrors);
    case DestroyResumes => DestroyResumesKeepsInv(c, s);
  }

  lemma {:induction false} RunKeepsInv(c: Coordinator, s: System, evs: seq<Event>)
    requires Inv(c, s)
    ensures Inv(c, Run(c, s, evs))
    decreases |evs|
  {
    if |evs| > 0 {
      StepKeepsInv(c, s, evs[0]);
      RunKeepsInv(c, Step(c, s, evs[0]), evs[1..]);
    }
  }

  /** With the source's own coordinator as well as the corrected one, every
      reachable state hands out ids soundly: committed ids are distinct and
      below the counter, and an invocation in flight has no entry yet. */
  lemma ReachableIdsAreSound(c: Coordinator, evs: seq<Event>)
    ensures var s := Run(c, Init, evs);
            && UniqueIds(s.engine.stack)
            && (forall i :: 0 <= i < |s.engine.stack| ==> s.engine.stack[i].id < s.engine.nextId)
            && (forall id :: id in s.awaitingCache ==> id < s.engine.nextId && Fresh(s.engine.stack, id))
            && (forall id :: id in s.awaitingResult ==> id < s.engine.nextId && Fresh(s.engine.stack, id))
  {
    InitSatisfiesInv(c);
    RunKeepsInv(c, Init, evs);
  }

  /** With the corrected coordinator, in every reachable state a user undo
      is never rejected for too many pending requests, and a queued request
      that is served always has an entry to undo. */
  lemma ReachableStatesAreSound(evs: seq<Event>, token: nat, j: nat, outcome: nat -> Settle)
    ensures var s := Run(Corrected, Init, evs);
            && UniqueIds(s.engine.stack)
            && |s.engine.undoQueue| <= |s.engine.stack|
            && BeginUndo(s.engine, User(token)).begin != TooManyPending
            && (j in s.jobs ==>
                  var f := FinishUndo(s.engine, s.jobs[j], outcome);
                  f.handoff.HandedOff? ==> f.handoff.begun.begin.Started?)
  {
    InitSatisfiesInv(Corrected);
    RunKeepsInv(Corrected, Init, evs);
  }

  // ---------------------------------------------------------------- ids

  /** `register` and the execute steps only ever take ids. */
  lemma ExecutionStepsNeverLowerNextId(c: Coordinator, s: System, ev: Event)
    requires ev.DoRegister? || ev.DoExecute? || ev.DoRecordBatch? || ev.CacheSettles? || ev.ResultSettles?
    ensures s.engine.nextId <= Step(c, s, ev).engine.nextId
  {
    if ev.DoRecordBatch? {
      var rec := RecordBatch(s.engine, ev.batch, ev.caches);
      assert s.engine.nextId <= rec.engine.nextId;
    }
  }

  /** Undo steps, under either coordinator, leave the id counter alone. */
  lemma UndoStepsKeepNextId(c: Coordinator, s: System, ev: Event)
    requires ev.DoUndo? || ev.UndoSettles?
    ensures Step(c, s, ev).engine.nextId == s.engine.nextId
  {
  }

  /** Ids only grow: no step lowers `nextId`, under either coordinator. A
      reset does not restart the counter either. */
  lemma {:induction false} StepNeverLowersNextId(c: Coordinator, s: System, ev: Event)
    ensures s.engine.nextId <= Step(c, s, ev).engine.nextId
  {
    if ev.DoUndo? || ev.UndoSettles? {
      UndoStepsKeepNextId(c, s, ev);
    } else if !ev.DoReset? && !ev.ResetSettles? && !ev.DestroyResumes? {
      ExecutionStepsNeverLowerNextId(c, s, ev);
    }
  }

  /** An execute that gets past validation takes an id above every id
      committed or still in flight. */
  lemma FreshIdExceedsEarlierOnes(s: System, info: CommandInfo, params: JsVal, cache: CacheCall)
    requires IdsSound(s)
    ensures var st := StartExecute(s.engine, info, params, cache);
            st.started.Running? ==>
              && (forall i :: 0 <= i < |s.engine.stack| ==> s.engine.stack[i].id < st.started.inv.id)
              && (forall id :: id in s.awaitingCache ==> id < st.started.inv.id)
              && (forall id :: id in s.awaitingResult ==> id < st.started.inv.id)
              && st.started.inv.id < st.engine.nextId
  {
  }

  // ---------------------------------------------------------------- commit log

  /** The entry a step commits, stated from the source's conditions: a
      cache continuation commits when the cache did not reject, no reset is
      aborting, and execute returned a plain value other than null; a
      thenable's callback commits whenever it fulfils, reset or not. */
  function CommitOf(s: System, ev: Event): seq<Entry> {
    match ev
    case CacheSettles(id, settle, call) =>
      if && id in s.awaitingCache
         && !(settle.Rejected? && s.awaitingCache[id].cached.Captured?)
         && !s.engine.aborting
         && call.ExecReturned? && call.value != Null
      then [EntryOf(s.awaitingCache[id], call.value)]
      else []
    case ResultSettles(id, settle) =>
      if id in s.awaitingResult && settle.Fulfilled? then [EntryOf(s.awaitingResult[id], settle.value)]
      else []
    case _ => []
  }

  /** Neither undo nor reset: the events that never remove an entry. */
  predicate KeepsEntries(ev: Event) {
    !ev.DoUndo? && !ev.UndoSettles? && !ev.DoReset?
  }

  /** What a sequence of events commits, in the order the steps run. */
  function LogWith(step: (System, Event) -> System, s: System, evs: seq<Event>): seq<Entry>
    decreases |evs|
  {
    if |evs| == 0 then [] else CommitOf(s, evs[0]) + LogWith(step, step(s, evs[0]), evs[1..])
  }

  function Log(c: Coordinator, s: System, evs: seq<Event>): seq<Entry> {
    LogWith(Steps(c), s, evs)
  }

  lemma StepAppendsCommitted(c: Coordinator, s: System, ev: Event)
    requires KeepsEntries(ev)
    ensures Step(c, s, ev).engine.stack == s.engine.stack + CommitOf(s, ev)
  {
    match ev
    case CacheSettles(id, settle, call) =>
      if id in s.awaitingCache {
        var r := AfterCache(s.engine, s.awaitingCache[id], settle, call);
        if r.engine.stack == s.engine.stack {
          assert CommitOf(s, ev) == [];
        }
      }
    case _ =>
  }

  /** A step function that appends what `CommitOf` names, on events that
      keep entries, makes a run of such events append its log. */
  lemma {:induction false} RunAppendsLog(step: (System, Event) -> System, s: System, evs: seq<Event>)
    requires forall s', ev :: KeepsEntries(ev) ==> step(s', ev).engine.stack == s'.engine.stack + CommitOf(s', ev)
    requires forall k :: 0 <= k < |evs| ==> KeepsEntries(evs[k])
    ensures RunWith(step, s, evs).engine.stack == s.engine.stack + LogWith(step, s, evs)
    decreases |evs|
  {
    if |evs| > 0 {
      assert KeepsEntries(evs[0]);
      assert forall k :: 0 <= k < |evs[1..]| ==> evs[1..][k] == evs[k + 1];
      RunAppendsLog(step, step(s, evs[0]), evs[1..]);
    }
  }

  /** Without undo or reset, the stack grows by exactly the commits, in the
      order the invocations completed rather than the order they were
      called. */
  lemma StackIsCommitLog(c: Coordinator, s: System, evs: seq<Event>)
    requires forall k :: 0 <= k < |evs| ==> KeepsEntries(evs[k])
    ensures Run(c, s, evs).engine.stack == s.engine.stack + Log(c, s, evs)
  {
    forall s', ev | KeepsEntries(ev)
      ensures Steps(c)(s', ev).engine.stack == s'.engine.stack + CommitOf(s', ev)
    {
      StepAppendsCommitted(c, s', ev);
    }
    RunAppendsLog(Steps(c), s, evs);
  }
}

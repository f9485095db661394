/** The execute pipeline, as the three atomic steps JavaScript runs it in:
    the synchronous prefix up to `await cached` (`StartExecute`), the
    continuation after the cache settles (`AfterCache`), and, for a command
    whose execute returned a promise, the `.then` callback that commits it
    (`ExecuteSettled`). */
module Execution {
  import opened Js
  import opened CommandRegistry
  import opened EngineState

  /** The first argument of `execute`: a name, an object `{name, context,
      batch}` (absent properties are `None`/`Undefined`), or anything else. */
  datatype CommandInfo =
    | ByName(key: string)
    | ByRecord(name: Option<string>, context: JsVal, batch: Option<int>)
    | Malformed

  datatype ExecError =
    | NameMissing
    | ContextNotObject
    | NotCommandInfo
    | UndoInProgress
    | UnknownCommand
    | Threw(reason: JsVal)
    | BatchSlotMissing

  /** What calling the cache callback did, before it is awaited. */
  datatype CacheCall = CacheReturned(value: JsVal) | CacheThrew(reason: JsVal)

  /** What calling the execute callback did: it threw, it returned a plain
      value, or it returned a thenable (whose settlement comes later). */
  datatype ExecCall = ExecThrew(reason: JsVal) | ExecReturned(value: JsVal) | ExecReturnedThenable

  /** An invocation whose cache is being awaited. */
  datatype Invocation = Invocation(
    id: nat,
    index: nat,
    params: seq<JsVal>,
    context: JsVal,
    batch: Option<int>,
    cached: Cached)

  datatype Started = StartFailed(error: ExecError) | Running(inv: Invocation)

  datatype StartStep = StartStep(engine: Engine, started: Started)

  /** The state of the promise `execute` returned to its caller. */
  datatype Status = Settled(outcome: Result<JsVal, ExecError>) | AwaitingResult

  datatype CacheStep = CacheStep(engine: Engine, status: Status)

  /** `_parseCommandInfo`: the name and the call-site context. A bare name
      runs under a null call-site context; a record needs a name, and its
      context must be absent or object-typed. */
  function ParseCommandInfo(info: CommandInfo): (r: Result<(string, JsVal), ExecError>)
    ensures info.ByName? ==> r == Ok((info.key, Null))
    ensures info.ByRecord? ==>
              (r.Ok? <==> info.name.Some? && (info.context.Undefined? || IsObjectType(info.context)))
    ensures info.ByRecord? && info.name.None? ==> r == Err(NameMissing)
    ensures info.ByRecord? && info.name.Some? && !info.context.Undefined? && !IsObjectType(info.context) ==>
              r == Err(ContextNotObject)
    ensures info.ByRecord? && r.Ok? ==> r.value == (info.name.value, info.context)
    ensures info.Malformed? ==> r == Err(NotCommandInfo)
    // Whatever is accepted, the call-site context is absent or object-typed.
    ensures r.Ok? ==> r.value.1.Undefined? || IsObjectType(r.value.1)
  {
    match info
    case ByName(n) => Ok((n, Null))
    case ByRecord(n, c, _) =>
      if n.None? then Err(NameMissing)
      else if !c.Undefined? && !IsObjectType(c) then Err(ContextNotObject)
      else Ok((n.value, c))
    case Malformed => Err(NotCommandInfo)
  }

  /** The batch index the call is tagged with: only a record can carry one,
      and only a number counts (src/Undojs.js line 194). */
  function BatchTag(info: CommandInfo): Option<int> {
    if info.ByRecord? then info.batch else None
  }

  /** Absent params become the empty list, an array is used as the list
      itself, and any other value becomes a one-element list. */
  function NormalizeParams(params: JsVal): (r: seq<JsVal>)
    ensures params.Undefined? ==> r == []
    ensures params.Arr? ==> r == params.items
    ensures !params.Undefined? && !params.Arr? ==> r == [params]
  {
    match params
    case Undefined => []
    case Arr(items) => items
    case _ => [params]
  }

  /** The context the callbacks run under: the call-site context unless it is
      exactly null. An absent call-site context is `undefined`, not null. */
  function EffectiveContext(callSite: JsVal, registered: JsVal): JsVal {
    if callSite != Null then callSite else registered
  }

  /** Parsing succeeds, no undo is running, the own-name check works and the
      name is registered. */
  predicate Accepted(e: Engine, info: CommandInfo) {
    && ParseCommandInfo(info).Ok?
    && !e.undoing
    && !OwnCheckHidden(e.reg)
    && ParseCommandInfo(info).value.0 in e.reg.names
  }

  /** The engine with only `nextId` and `cacheInFlight` replaced. */
  function WithIdTaken(e: Engine, cacheInFlight: set<nat>): Engine {
    e.(nextId := e.nextId + 1, cacheInFlight := cacheInFlight)
  }

  /** The synchronous prefix of `execute`, up to `await cached`. */
  function StartExecute(e: Engine, info: CommandInfo, params: JsVal, cache: CacheCall): (r: StartStep)
    // Rejected before any side effect: malformed info, undo running, unknown name.
    ensures ParseCommandInfo(info).Err? ==>
              r == StartStep(e, StartFailed(ParseCommandInfo(info).error))
    ensures ParseCommandInfo(info).Ok? && e.undoing ==> r == StartStep(e, StartFailed(UndoInProgress))
    ensures ParseCommandInfo(info).Ok? && !e.undoing && OwnCheckHidden(e.reg) ==>
              r == StartStep(e, StartFailed(Threw(RuntimeTypeError)))
    ensures ParseCommandInfo(info).Ok? && !e.undoing && !OwnCheckHidden(e.reg)
            && ParseCommandInfo(info).value.0 !in e.reg.names ==>
              r == StartStep(e, StartFailed(UnknownCommand))
    // Otherwise an id is taken, and only the cache may still make it fail.
    ensures Accepted(e, info) ==>
              var name := ParseCommandInfo(info).value.0;
              var def := e.reg.commands[e.reg.names[name]];
              && (r.started.StartFailed? <==> def.cache.Some? && cache.CacheThrew?)
              && (r.started.StartFailed? ==>
                    r == StartStep(WithIdTaken(e, e.cacheInFlight), StartFailed(Threw(cache.reason))))
              && (r.started.Running? ==>
                    && r.engine == WithIdTaken(e, e.cacheInFlight + {e.nextId})
                    && r.started.inv.id == e.nextId
                    && r.started.inv.index == e.reg.names[name]
                    && r.started.inv.params == NormalizeParams(params)
                    && r.started.inv.context == EffectiveContext(ParseCommandInfo(info).value.1, def.context)
                    && r.started.inv.batch == BatchTag(info)
                    && r.started.inv.cached == (if def.cache.None? then OrderPlaceholder
                                                else Captured(cache.value)))
  {
    match ParseCommandInfo(info)
    case Err(err) => StartStep(e, StartFailed(err))
    case Ok(parsed) =>
      var name := parsed.0;
      if e.undoing then StartStep(e, StartFailed(UndoInProgress))
      else if OwnCheckHidden(e.reg) then StartStep(e, StartFailed(Threw(RuntimeTypeError)))
      else
        match Lookup(e.reg, name)
        case None => StartStep(e, StartFailed(UnknownCommand))
        case Some(def) =>
          var id := e.nextId;
          var inv := Invocation(id, e.reg.names[name], NormalizeParams(params),
                                EffectiveContext(parsed.1, def.context), BatchTag(info), OrderPlaceholder);
          if def.cache.None? then
            StartStep(WithIdTaken(e, e.cacheInFlight + {id}), Running(inv))
          else
            match cache
            case CacheThrew(reason) => StartStep(WithIdTaken(e, e.cacheInFlight), StartFailed(Threw(reason)))
            case CacheReturned(v) =>
              StartStep(WithIdTaken(e, e.cacheInFlight + {id}), Running(inv.(cached := Captured(v))))
  }

  /** The stack entry an invocation commits with the given result. */
  function EntryOf(inv: Invocation, returned: JsVal): Entry {
    Entry(inv.id, inv.index, inv.params, returned, inv.cached)
  }

  predicate ValidSlot(batches: seq<seq<nat>>, b: int) {
    0 <= b < |batches|
  }

  /** `_writeBatchInfoOfSync`: append unconditionally; a missing batch slot
      makes the runtime throw. */
  function WriteBatchSync(batches: seq<seq<nat>>, id: nat, b: Option<int>): (r: Result<seq<seq<nat>>, ExecError>)
    ensures b.None? ==> r == Ok(batches)
    ensures b.Some? && !ValidSlot(batches, b.value) ==> r == Err(BatchSlotMissing)
    ensures b.Some? && ValidSlot(batches, b.value) ==>
              && r.Ok? && |r.value| == |batches|
              && r.value[b.value] == batches[b.value] + [id]
              && (forall j :: 0 <= j < |batches| && j != b.value ==> r.value[j] == batches[j])
  {
    if b.None? then Ok(batches)
    else if !ValidSlot(batches, b.value) then Err(BatchSlotMissing)
    else Ok(batches[b.value := batches[b.value] + [id]])
  }

  /** `_writeBatchInfoOfAsync`, called after the push: append only if the
      batch is still empty or the entry beneath the new top belongs to it.
      A missing slot, or no entry beneath the top of a non-empty batch, makes
      the runtime throw inside the `.then`, which `.catch(e=>e)` swallows:
      nothing is appended. */
  function WriteBatchAsync(batches: seq<seq<nat>>, stack: seq<Entry>, id: nat, b: Option<int>): seq<seq<nat>> {
    if b.None? || !ValidSlot(batches, b.value) then batches
    else
      var current := batches[b.value];
      if |current| == 0 || (|stack| >= 2 && stack[|stack| - 2].id in current) then
        batches[b.value := current + [id]]
      else batches
  }

  /** The continuation after `await cached`: the abort short-circuit, the call
      of execute, and, when execute returned a plain value, the immediate
      commit. A plain `null` result makes the thenable test throw. */
  function AfterCache(e: Engine, inv: Invocation, cacheSettle: Settle, call: ExecCall): (r: CacheStep)
    // A rejected cache rejects the call and leaves its id in flight.
    ensures cacheSettle.Rejected? && inv.cached.Captured? ==>
              r == CacheStep(e, Settled(Err(Threw(cacheSettle.reason))))
    // Otherwise the id leaves the in-flight set and nothing but the stack and the batches can change.
    ensures !(cacheSettle.Rejected? && inv.cached.Captured?) ==>
              && r.engine.cacheInFlight == e.cacheInFlight - {inv.id}
              && r.engine.(stack := e.stack, batches := e.batches, cacheInFlight := e.cacheInFlight) == e
    // Aborting: execute is never called and nothing is committed.
    ensures e.aborting ==> r.engine.stack == e.stack && r.engine.batches == e.batches
    ensures e.aborting && !(cacheSettle.Rejected? && inv.cached.Captured?) ==>
              r.status == Settled(Ok(Undefined))
    // A throwing execute rejects the call with its reason, and so does a null
    // result, with the runtime's TypeError from the thenable test.
    ensures !(cacheSettle.Rejected? && inv.cached.Captured?) && !e.aborting ==>
              && (call.ExecThrew? ==> r.status == Settled(Err(Threw(call.reason))))
              && (call == ExecReturned(Null) ==> r.status == Settled(Err(Threw(RuntimeTypeError))))
    // The stack grows by exactly this invocation's entry, on top, or not at all.
    ensures r.engine.stack == e.stack ||
            (call.ExecReturned? && r.engine.stack == e.stack + [EntryOf(inv, call.value)])
    ensures r.engine.stack != e.stack <==>
              && !(cacheSettle.Rejected? && inv.cached.Captured?) && !e.aborting
              && call.ExecReturned? && call.value != Null
    ensures r.status.AwaitingResult? <==>
              && !(cacheSettle.Rejected? && inv.cached.Captured?) && !e.aborting && call.ExecReturnedThenable?
    // A synchronous commit always joins its batch; a missing slot rejects the call.
    ensures r.engine.stack != e.stack ==>
              && (inv.batch.None? ==> r.engine.batches == e.batches && r.status == Settled(Ok(call.value)))
              && (inv.batch.Some? && !ValidSlot(e.batches, inv.batch.value) ==>
                    r.engine.batches == e.batches && r.status == Settled(Err(BatchSlotMissing)))
              && (inv.batch.Some? && ValidSlot(e.batches, inv.batch.value) ==>
                    && r.status == Settled(Ok(call.value))
                    && |r.engine.batches| == |e.batches|
                    && r.engine.batches[inv.batch.value] == e.batches[inv.batch.value] + [inv.id]
                    && (forall j :: 0 <= j < |e.batches| && j != inv.batch.value ==>
                          r.engine.batches[j] == e.batches[j]))
    ensures r.engine.stack == e.stack ==> r.engine.batches == e.batches
  {
    if cacheSettle.Rejected? && inv.cached.Captured? then
      CacheStep(e, Settled(Err(Threw(cacheSettle.reason))))
    else
      var e1 := e.(cacheInFlight := e.cacheInFlight - {inv.id});
      if e.aborting then CacheStep(e1, Settled(Ok(Undefined)))
      else
        match call
        case ExecThrew(reason) => CacheStep(e1, Settled(Err(Threw(reason))))
        case ExecReturnedThenable => CacheStep(e1, AwaitingResult)
        case ExecReturned(v) =>
          if v == Null then CacheStep(e1, Settled(Err(Threw(RuntimeTypeError))))
          else
            var e2 := e1.(stack := e1.stack + [EntryOf(inv, v)]);
            match WriteBatchSync(e2.batches, inv.id, inv.batch)
            case Ok(bs) => CacheStep(e2.(batches := bs), Settled(Ok(v)))
            case Err(err) => CacheStep(e2, Settled(Err(err)))
  }

  /** The `.then` callback of an execute that returned a thenable: commit at
      resolution time. A rejection commits nothing; the caller sees it through
      the returned promise. */
  function ExecuteSettled(e: Engine, inv: Invocation, settle: Settle): (r: Engine)
    ensures settle.Rejected? ==> r == e
    ensures settle.Fulfilled? ==>
              && r.stack == e.stack + [EntryOf(inv, settle.value)]
              && r.(stack := e.stack, batches := e.batches) == e
    ensures |r.batches| == |e.batches|
    ensures forall j :: 0 <= j < |e.batches| && Some(j) != inv.batch ==> r.batches[j] == e.batches[j]
    // Batch membership of an asynchronous commit: joined exactly when the
    // batch was empty or the previous top entry belongs to it.
    ensures settle.Fulfilled? && inv.batch.Some? && ValidSlot(e.batches, inv.batch.value) ==>
              var b := inv.batch.value;
              && (r.batches[b] == e.batches[b] + [inv.id] <==>
                    |e.batches[b]| == 0 || (|e.stack| >= 1 && Top(e.stack).id in e.batches[b]))
              && (r.batches[b] != e.batches[b] + [inv.id] ==> r.batches[b] == e.batches[b])
  {
    if settle.Rejected? then e
    else
      var stack := e.stack + [EntryOf(inv, settle.value)];
      assert |stack| >= 2 ==> stack[|stack| - 2] == Top(e.stack);
      e.(stack := stack, batches := WriteBatchAsync(e.batches, stack, inv.id, inv.batch))
  }
}

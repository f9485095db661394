/** The engine's state: one immutable record per point between two atomic
    steps. */
module EngineState {
  import opened Js
  import opened CommandRegistry

  /** What an entry keeps in its `cached` slot: the cache callback's return
      value as returned, or, for a command without cache, the placeholder
      function that was awaited instead. */
  datatype Cached = Captured(value: JsVal) | OrderPlaceholder

  /** A committed invocation on the command stack. */
  datatype Entry = Entry(id: nat, index: nat, params: seq<JsVal>, returned: JsVal, cached: Cached)

  /** `undoQueue` holds request tokens; new requests go to the front
      (index 0) and the next one served is the last. `cacheInFlight` holds
      the ids of `processingCacheState`; `undoInFlight` says whether
      `processingUndoState` is set. */
  datatype Engine = Engine(
    reg: Registry,
    stack: seq<Entry>,
    batches: seq<seq<nat>>,
    undoQueue: seq<nat>,
    pendingUndos: int,
    cacheInFlight: set<nat>,
    undoInFlight: bool,
    undoing: bool,
    aborting: bool,
    nextId: nat)

  /** A freshly constructed engine. */
  const Initial: Engine := Engine(Empty, [], [], [], 0, {}, false, false, false, 1)

  /** The ids on a stack, bottom first. */
  function Ids(stack: seq<Entry>): (r: seq<nat>)
    ensures |r| == |stack|
    ensures forall i :: 0 <= i < |stack| ==> r[i] == stack[i].id
  {
    seq(|stack|, i requires 0 <= i < |stack| => stack[i].id)
  }

  /** The top entry. */
  function Top(stack: seq<Entry>): Entry
    requires |stack| > 0
  {
    stack[|stack| - 1]
  }
}

/** `recordBatch`: create an empty batch, then start one execute per element,
    each tagged with the new batch's index. */
module Batching {
  import opened Js
  import opened CommandRegistry
  import opened EngineState
  import opened Execution

  /** One element of the argument array: an object with an optional name and
      params, or something that is not an object (null throws at the same
      point, reading `.name`). */
  datatype BatchItem = Member(name: Option<string>, params: JsVal) | NotAnObject

  datatype BatchArg = NotAnArray | Items(items: seq<BatchItem>)

  datatype BatchError = RequiresArray | EmptyArray | ElementNotObject | ElementWithoutName

  /** The engine after the call, the start of every execute issued (in
      element order), and the error `recordBatch` threw, if any. Executes
      issued before an invalid element keep running after the throw. */
  datatype Recorded = Recorded(engine: Engine, started: seq<Started>, error: Option<BatchError>)

  predicate ValidItem(item: BatchItem) {
    item.Member? && item.name.Some?
  }

  /** The command info `recordBatch` builds for a valid element. */
  function MemberInfo(item: BatchItem, b: nat): CommandInfo
    requires ValidItem(item)
  {
    ByRecord(item.name, Undefined, Some(b))
  }

  /** How the execute for a valid element starts in engine `e` when its cache
      callback does `cache`: it runs the element's command with the element's
      params exactly when no undo is running, the own-name check works, the
      name is registered and the cache does not throw; otherwise it fails
      with the error of the first check that did not pass. */
  predicate StartsAs(e: Engine, item: BatchItem, cache: CacheCall, s: Started)
    requires ValidItem(item)
  {
    var name := item.name.value;
    var known := !e.undoing && !OwnCheckHidden(e.reg) && name in e.reg.names;
    && (s.Running? <==> known && !(e.reg.commands[e.reg.names[name]].cache.Some? && cache.CacheThrew?))
    && (s.Running? ==>
          && s.inv.index == e.reg.names[name]
          && s.inv.params == NormalizeParams(item.params))
    && (s.StartFailed? ==>
          s.error == (if e.undoing then UndoInProgress
                      else if OwnCheckHidden(e.reg) then Threw(RuntimeTypeError)
                      else if name !in e.reg.names then UnknownCommand
                      else Threw(cache.reason)))
  }

  /** Only the registry and the undo flag decide how a member starts. */
  lemma StartsAsSameChecks(e: Engine, e': Engine, item: BatchItem, cache: CacheCall, s: Started)
    requires ValidItem(item) && e'.reg == e.reg && e'.undoing == e.undoing
    requires StartsAs(e', item, cache, s)
    ensures StartsAs(e, item, cache, s)
  {
  }

  /** The execute `recordBatch` issues for a valid element (src lines
      95-96): it runs under no call-site context, tagged with the batch, and
      touches nothing but the id counter and the in-flight caches. An id is
      taken exactly when the checks before the cache call pass. */
  function StartMember(e: Engine, item: BatchItem, b: nat, cache: CacheCall): (r: StartStep)
    requires ValidItem(item)
    ensures StartsAs(e, item, cache, r.started)
    ensures r.engine == e.(nextId := r.engine.nextId, cacheInFlight := r.engine.cacheInFlight)
    ensures r.engine.nextId == e.nextId || r.engine.nextId == e.nextId + 1
    ensures r.engine.nextId == e.nextId + 1 <==>
              !e.undoing && !OwnCheckHidden(e.reg) && item.name.value in e.reg.names
    ensures r.started.Running? ==>
              && r.started.inv.batch == Some(b) && r.started.inv.context == Undefined
              && r.started.inv.id == e.nextId && r.engine.nextId == e.nextId + 1
              && r.engine.cacheInFlight == e.cacheInFlight + {e.nextId}
    ensures r.started.StartFailed? ==> r.engine.cacheInFlight == e.cacheInFlight
  {
    StartExecute(e, MemberInfo(item, b), item.params, cache)
  }

  /** The loop over elements `i..` (src lines 86-98). `caches(i)` is what the
      i-th element's cache callback does when called. */
  function StartMembers(e: Engine, items: seq<BatchItem>, i: nat, b: nat, caches: nat -> CacheCall): (r: Recorded)
    requires i <= |items|
    decreases |items| - i
    // One execute per element up to the first invalid one, which is the error.
    ensures i + |r.started| <= |items|
    ensures forall j :: i <= j < i + |r.started| ==> ValidItem(items[j])
    ensures r.error.None? <==> i + |r.started| == |items|
    ensures r.error.Some? ==>
              && !ValidItem(items[i + |r.started|])
              && r.error.value == (if items[i + |r.started|].NotAnObject? then ElementNotObject
                                   else ElementWithoutName)
    // Starting executes touches nothing but the id counter and the in-flight caches.
    ensures r.engine == e.(nextId := r.engine.nextId, cacheInFlight := r.engine.cacheInFlight)
    ensures e.nextId <= r.engine.nextId
    // Every member that started carries the batch tag, no call-site context, and a fresh id.
    ensures forall k :: 0 <= k < |r.started| && r.started[k].Running? ==>
              && r.started[k].inv.batch == Some(b)
              && r.started[k].inv.context == Undefined
              && e.nextId <= r.started[k].inv.id < r.engine.nextId
              && r.started[k].inv.id in r.engine.cacheInFlight
    ensures forall k, l :: 0 <= k < l < |r.started| && r.started[k].Running? && r.started[l].Running? ==>
              r.started[k].inv.id < r.started[l].inv.id
    ensures e.cacheInFlight <= r.engine.cacheInFlight
    ensures forall id :: id in r.engine.cacheInFlight && id !in e.cacheInFlight ==>
              e.nextId <= id < r.engine.nextId
  {
    if i == |items| then Recorded(e, [], None)
    else if items[i].NotAnObject? then Recorded(e, [], Some(ElementNotObject))
    else if items[i].name.None? then Recorded(e, [], Some(ElementWithoutName))
    else
      var s := StartMember(e, items[i], b, caches(i));
      var rest := StartMembers(s.engine, items, i + 1, b, caches);
      var started := [s.started] + rest.started;
      assert forall k :: 0 < k < |started| ==> started[k] == rest.started[k - 1];
      Recorded(rest.engine, started, rest.error)
  }

  /** Member `k` of the loop from element `i` starts, or fails, as element
      `i + k` with cache outcome `i + k` does in any engine `at` with the
      loop's registry and undo flag: each execute runs its own element's
      command with that element's params. */
  lemma {:induction false} MemberStartsAsItsItem(at: Engine, e: Engine, items: seq<BatchItem>, i: nat, b: nat,
                                                 caches: nat -> CacheCall, k: nat)
    requires i <= |items|
    requires at.reg == e.reg && at.undoing == e.undoing
    requires k < |StartMembers(e, items, i, b, caches).started|
    decreases k
    ensures StartsAs(at, items[i + k], caches(i + k), StartMembers(e, items, i, b, caches).started[k])
  {
    var s := StartMember(e, items[i], b, caches(i));
    if k == 0 {
      StartsAsSameChecks(at, e, items[i], caches(i), s.started);
    } else {
      MemberStartsAsItsItem(at, s.engine, items, i + 1, b, caches, k - 1);
      assert i + 1 + (k - 1) == i + k;
    }
  }

  /** `recordBatch(commandObjects)`. */
  function RecordBatch(e: Engine, arg: BatchArg, caches: nat -> CacheCall): (r: Recorded)
    ensures arg.NotAnArray? ==> r == Recorded(e, [], Some(RequiresArray))
    ensures arg == Items([]) ==> r == Recorded(e, [], Some(EmptyArray))
    // Otherwise an empty batch is pushed first, even if an element turns out invalid.
    ensures arg.Items? && |arg.items| > 0 ==>
              && r.engine == e.(batches := e.batches + [[]], nextId := r.engine.nextId,
                                cacheInFlight := r.engine.cacheInFlight)
              && |r.started| <= |arg.items|
              && (r.error.None? <==> forall j :: 0 <= j < |arg.items| ==> ValidItem(arg.items[j]))
              // One execute per element before the first invalid one, which is the error.
              && (r.error.None? ==> |r.started| == |arg.items|)
              && (r.error.Some? ==>
                    && |r.started| < |arg.items| && !ValidItem(arg.items[|r.started|])
                    && r.error.value == (if arg.items[|r.started|].NotAnObject? then ElementNotObject
                                         else ElementWithoutName))
              && (forall k :: 0 <= k < |r.started| && r.started[k].Running? ==>
                    r.started[k].inv.batch == Some(|e.batches|))
    // Only ids are taken: the stack, the queue and the registry stay as they are.
    ensures r.engine.stack == e.stack && r.engine.undoQueue == e.undoQueue && r.engine.reg == e.reg
    ensures e.nextId <= r.engine.nextId && e.cacheInFlight <= r.engine.cacheInFlight
    ensures forall id :: id in r.engine.cacheInFlight && id !in e.cacheInFlight ==>
              e.nextId <= id < r.engine.nextId
    ensures forall k :: 0 <= k < |r.started| && r.started[k].Running? ==>
              e.nextId <= r.started[k].inv.id < r.engine.nextId
  {
    match arg
    case NotAnArray => Recorded(e, [], Some(RequiresArray))
    case Items(items) =>
      if |items| == 0 then Recorded(e, [], Some(EmptyArray))
      else
        StartMembers(e.(batches := e.batches + [[]]), items, 0, |e.batches|, caches)
  }

  /** Each execute `recordBatch` issued runs its own element's command with
      that element's params, or fails as that element would on its own. */
  lemma RecordBatchStartsEachItem(e: Engine, arg: BatchArg, caches: nat -> CacheCall, k: nat)
    requires k < |RecordBatch(e, arg, caches).started|
    ensures arg.Items? && k < |arg.items| && ValidItem(arg.items[k])
    ensures StartsAs(e, arg.items[k], caches(k), RecordBatch(e, arg, caches).started[k])
  {
    MemberStartsAsItsItem(e, e.(batches := e.batches + [[]]), arg.items, 0, |e.batches|, caches, k);
  }
}

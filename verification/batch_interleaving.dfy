/** A batch is not always a contiguous run of the stack. A synchronous
    member joins its batch unconditionally (src/Undojs.js:147-150), whereas
    an asynchronous one joins only when the entry beneath it belongs to the
    batch (lines 137-145). When an unrelated execute commits between two
    synchronous members, the batch undo pops as many entries as the batch
    has ids (lines 264-272): it undoes the unrelated entry and leaves the
    batch's first member on the stack. */
module BatchInterleaving {
  import opened Js
  import opened CommandRegistry
  import opened EngineState
  import opened Execution
  import opened Undo
  import Batching
  import opened Scheduler

  /** One command, registered with a cache. */
  function Commands(): Registry {
    Table([Definition(1, Null, 2, Some(3))], map["c" := 0])
  }

  /** Right after `recordBatch` of two members (ids 1 and 2, batch 0) and
      an `execute("c")` (id 3): all three wait for their cache promises. */
  function CachesPending(): Engine {
    Engine(Commands(), [], [[]], [], 0, {1, 2, 3}, false, false, false, 4)
  }

  /** The pending promise the cache callback of call `id` returns. It
      settles whenever the environment decides, so the three awaits can
      resume in any order. */
  function CachePromise(id: nat): JsVal {
    Obj(id)
  }

  function BatchMember(id: nat): Invocation {
    Invocation(id, 0, [], Undefined, Some(0), Captured(CachePromise(id)))
  }

  function Unrelated(): Invocation {
    Invocation(3, 0, [], Null, None, Captured(CachePromise(3)))
  }

  const Done: Settle := Fulfilled(Undefined)

  /** The caches settle in the order 1, 3, 2 and every execute returns a
      plain value. */
  function AfterCommits(): Engine {
    var c1 := AfterCache(CachesPending(), BatchMember(1), Done, ExecReturned(Num(1)));
    var c3 := AfterCache(c1.engine, Unrelated(), Done, ExecReturned(Num(3)));
    AfterCache(c3.engine, BatchMember(2), Done, ExecReturned(Num(2))).engine
  }

  /** The entry call `id` commits: execute returned `id`. */
  function Landed(id: nat): Entry {
    Entry(id, 0, [], Num(id), Captured(CachePromise(id)))
  }

  /** The unrelated entry lands between the two batch members, and both
      members still join the batch. */
  lemma InterleavedCommitsSplitTheBatch()
    ensures AfterCommits() == CachesPending().(stack := [Landed(1), Landed(3), Landed(2)],
                                               batches := [[1, 2]], cacheInFlight := {})
    ensures Ids(AfterCommits().stack) == [1, 3, 2]
  {
    var c1 := AfterCache(CachesPending(), BatchMember(1), Done, ExecReturned(Num(1)));
    assert c1.engine.batches == [[] + [1]];
    assert [] + [1] == [1];
    assert !c1.engine.aborting && |c1.engine.stack| == 1;
    var c3 := AfterCache(c1.engine, Unrelated(), Done, ExecReturned(Num(3)));
    assert |c3.engine.stack| == 2;
    assert c3.engine.batches == [[1]];
    assert !c3.engine.aborting;
    var c2 := AfterCache(c3.engine, BatchMember(2), Done, ExecReturned(Num(2)));
    assert c2.engine.batches == [[1] + [2]];
    assert [1] + [2] == [1, 2];
  }

  /** The next undo, under either coordinator, is a batch undo of ids 2 and
      3: it takes the unrelated entry and leaves the batch's first member. */
  lemma BatchUndoTakesTheUnrelatedEntry(c: Coordinator)
    ensures var b := BeginWith(c, AfterCommits(), User(0));
            && b.begin == Started(BatchJob([Callable(Landed(2), 2), Callable(Landed(3), 2)]))
            && b.engine.stack == [Landed(1)]
            && b.engine.batches == []
  {
    InterleavedCommitsSplitTheBatch();
    var e := CachesPending().(stack := [Landed(1), Landed(3), Landed(2)], batches := [[1, 2]], cacheInFlight := {});
    assert IsBatchUndo(e.batches, e.stack);
    var popped := PopMembers(e.stack, 2, e.reg);
    assert popped.0 == [Landed(1)];
    assert popped.1 == [Callable(Landed(2), 2), Callable(Landed(3), 2)];
    var s := StartUndo(e);
    assert s.begin == Started(BatchJob(popped.1)) && s.engine.stack == [Landed(1)] && s.engine.batches == [];
    assert BeginUndoAsWritten(e, User(0)) == s;
  }

  // ---------------------------------------------------------------- from a fresh engine

  /** Command "c", with execute, undo and cache callbacks and no context. */
  const CachedCommand: CommandDef := CommandDef(Some("c"), Fn(1), Fn(2), Fn(3), Undefined)

  const CachedItem: Batching.BatchItem := Batching.Member(Some("c"), Undefined)

  /** The cache callback of the i-th batch element (call id i + 1) returns a
      pending promise. */
  function PendingCaches(i: nat): CacheCall {
    CacheReturned(CachePromise(i + 1))
  }

  /** The cache of call `id` settles and its execute returns `n`. */
  function Lands(id: nat, n: int): Event {
    CacheSettles(id, Done, ExecReturned(Num(n)))
  }

  /** Register "c", record a batch of two calls of it, execute "c" once
      more, then let the caches settle in the order 1, 3, 2. */
  function InterleavingEvents(): seq<Event> {
    [DoRegister(Some(CachedCommand)),
     DoRecordBatch(Batching.Items([CachedItem, CachedItem]), PendingCaches),
     DoExecute(ByName("c"), Undefined, CacheReturned(CachePromise(3))),
     Lands(1, 1), Lands(3, 3), Lands(2, 2)]
  }

  /** `CachesPending()` together with the calls waiting on their caches. */
  function Pending(): System {
    Init.(engine := CachesPending(),
          awaitingCache := map[1 := BatchMember(1), 2 := BatchMember(2), 3 := Unrelated()])
  }

  /** After registering "c" and recording the batch: ids 1 and 2 wait. */
  function BatchOpened(): System {
    Pending().(engine := CachesPending().(cacheInFlight := {1, 2}, nextId := 3),
               awaitingCache := map[1 := BatchMember(1), 2 := BatchMember(2)])
  }

  lemma OpenBatchStep(c: Coordinator)
    ensures Step(c, Init.(engine := Initial.(reg := Commands())), InterleavingEvents()[1]) == BatchOpened()
  {
    var e := Initial.(reg := Commands(), batches := [[]]);
    var m1 := Batching.StartMember(e, CachedItem, 0, PendingCaches(0));
    assert m1 == StartStep(e.(nextId := 2, cacheInFlight := {1}), Running(BatchMember(1)));
    var m2 := Batching.StartMember(m1.engine, CachedItem, 0, PendingCaches(1));
    assert m2 == StartStep(e.(nextId := 3, cacheInFlight := {1, 2}), Running(BatchMember(2)));
    var items := [CachedItem, CachedItem];
    var r2 := Batching.StartMembers(m2.engine, items, 2, 0, PendingCaches);
    assert r2 == Batching.Recorded(m2.engine, [], None);
    var r1 := Batching.StartMembers(m1.engine, items, 1, 0, PendingCaches);
    assert r1 == Batching.Recorded(m2.engine, [m2.started], None);
    var r0 := Batching.StartMembers(e, items, 0, 0, PendingCaches);
    assert r0 == Batching.Recorded(m2.engine, [m1.started, m2.started], None);
    assert Initial.batches + [[]] == e.batches;
    assert Batching.RecordBatch(Initial.(reg := Commands()), Batching.Items(items), PendingCaches) == r0;
    var started := [m1.started, m2.started];
    assert started[1..] == [m2.started];
    calc {
      Track(map[], started);
      Track(map[1 := BatchMember(1)], [m2.started]);
      Track(map[1 := BatchMember(1), 2 := BatchMember(2)], []);
    }
  }

  lemma UnrelatedExecuteStep(c: Coordinator)
    ensures Step(c, BatchOpened(), InterleavingEvents()[2]) == Pending()
  {
  }

  /** After the cache of id 1 settled and its execute committed. */
  function FirstLanded(): System {
    Pending().(engine := CachesPending().(stack := [Landed(1)], batches := [[1]], cacheInFlight := {2, 3}),
               awaitingCache := map[2 := BatchMember(2), 3 := Unrelated()])
  }

  /** After the unrelated call committed as well. */
  function UnrelatedLanded(): System {
    Pending().(engine := CachesPending().(stack := [Landed(1), Landed(3)], batches := [[1]], cacheInFlight := {2}),
               awaitingCache := map[2 := BatchMember(2)])
  }

  /** After all three committed: `AfterCommits()`, written out. */
  function AllLanded(): System {
    Init.(engine := CachesPending().(stack := [Landed(1), Landed(3), Landed(2)], batches := [[1, 2]], cacheInFlight := {}))
  }

  lemma FirstLandsStep(c: Coordinator)
    ensures Step(c, Pending(), Lands(1, 1)) == FirstLanded()
  {
    assert [] + [1] == [1];
  }

  lemma UnrelatedLandsStep(c: Coordinator)
    ensures Step(c, FirstLanded(), Lands(3, 3)) == UnrelatedLanded()
  {
  }

  lemma SecondLandsStep(c: Coordinator)
    ensures Step(c, UnrelatedLanded(), Lands(2, 2)) == AllLanded()
  {
    assert [1] + [2] == [1, 2];
  }

  /** Registering "c", recording the batch of two and executing "c". */
  lemma CallsStart(c: Coordinator)
    ensures Run(c, Init, InterleavingEvents()[..3]) == Pending()
  {
    var evs := InterleavingEvents()[..3];
    var states := [Init, Init.(engine := Initial.(reg := Commands())), BatchOpened(), Pending()];
    forall k | 0 <= k < |evs|
      ensures Steps(c)(states[k], evs[k]) == states[k + 1]
    {
      if k == 1 { OpenBatchStep(c); }
      else if k == 2 { UnrelatedExecuteStep(c); }
    }
    RunThrough(Steps(c), states, evs);
  }

  /** The caches settle in the order 1, 3, 2. */
  lemma CommitsLand(c: Coordinator)
    ensures Run(c, Pending(), InterleavingEvents()[3..]) == AllLanded()
  {
    var evs := InterleavingEvents()[3..];
    var states := [Pending(), FirstLanded(), UnrelatedLanded(), AllLanded()];
    forall k | 0 <= k < |evs|
      ensures Steps(c)(states[k], evs[k]) == states[k + 1]
    {
      if k == 0 { FirstLandsStep(c); }
      else if k == 1 { UnrelatedLandsStep(c); }
      else { SecondLandsStep(c); }
    }
    RunThrough(Steps(c), states, evs);
  }

  /** The run starts from a fresh engine: under either coordinator,
      registering "c", recording a batch of two, executing "c" (which leaves
      `CachesPending()`, see `CallsStart`) and letting the caches settle in
      the order 1, 3, 2 leaves `AfterCommits()` with nothing in flight. */
  lemma InterleavingIsReachable(c: Coordinator)
    ensures Run(c, Init, InterleavingEvents()) == Init.(engine := AfterCommits())
  {
    var evs := InterleavingEvents();
    CallsStart(c);
    CommitsLand(c);
    assert evs == evs[..3] + evs[3..];
    RunJoin(Steps(c), Init, evs[..3], evs[3..], Pending(), AllLanded());
    InterleavedCommitsSplitTheBatch();
  }
}
